/** The alert detectors on values (internal/alert/detect.go): what each reports, and that novel errors are
    grouped, sorted and capped without losing or inventing anything. */
module AlertSpec {
  import opened Basics

  // One grouped row of the audit window.
  datatype DetailCount = DetailCount(detail: string, count: Uint64, first: int, last: int)

  datatype Detector = NovelError | InfraErrorRate | KilledScan {
    function Name(): string {
      match this
      case NovelError => "novel_error"
      case InfraErrorRate => "infra_error_rate"
      case KilledScan => "killed_scan"
    }
  }

  datatype Finding
    = Finding(detector: Detector, signature: string, count: Uint64, evidence: string, first: int, last: int)

  // Signature: per-push text removed from a detail; empty when there is nothing to group on.
  type Normalize = string -> string

  /* ---- grouping ---- */

  function Known(sig: Normalize, baseline: seq<DetailCount>): set<string> {
    set r | r in baseline && sig(r.detail) != "" :: sig(r.detail)
  }

  // The signatures to report, in the order they first appear.
  function NovelSigs(sig: Normalize, recent: seq<DetailCount>, known: set<string>): seq<string> {
    if recent == [] then []
    else
      var before := NovelSigs(sig, recent[..|recent| - 1], known);
      var s := sig(recent[|recent| - 1].detail);
      if s == "" || s in known || s in before then before else before + [s]
  }

  function RowsOf(sig: Normalize, recent: seq<DetailCount>, s: string): seq<DetailCount> {
    if recent == [] then []
    else
      var r := recent[|recent| - 1];
      RowsOf(sig, recent[..|recent| - 1], s) + if sig(r.detail) == s then [r] else []
  }

  // Counts are added in 64 bits.
  function Total(rows: seq<DetailCount>): Uint64 {
    if rows == [] then 0 else AddU64(Total(rows[..|rows| - 1]), rows[|rows| - 1].count)
  }

  function Sum(rows: seq<DetailCount>): nat {
    if rows == [] then 0 else Sum(rows[..|rows| - 1]) + rows[|rows| - 1].count
  }

  function Earliest(rows: seq<DetailCount>): int
    requires rows != []
  {
    if |rows| == 1 then rows[0].first else Min(Earliest(rows[..|rows| - 1]), rows[|rows| - 1].first)
  }

  function Latest(rows: seq<DetailCount>): int
    requires rows != []
  {
    if |rows| == 1 then rows[0].last else Max(Latest(rows[..|rows| - 1]), rows[|rows| - 1].last)
  }

  function Merge(detector: Detector, s: string, rows: seq<DetailCount>): Finding
    requires rows != []
  {
    Finding(detector, s, Total(rows), rows[0].detail, Earliest(rows), Latest(rows))
  }

  lemma {:induction false} TotalIsSum(rows: seq<DetailCount>)
    ensures Total(rows) == Sum(rows) % U64
  {
    if rows != [] {
      TotalIsSum(rows[..|rows| - 1]);
      AddMod(Sum(rows[..|rows| - 1]), rows[|rows| - 1].count);
    }
  }

  lemma AddMod(a: nat, b: nat)
    ensures (a % U64 + b) % U64 == (a + b) % U64
  {
  }

  lemma {:induction false} EarliestBounds(rows: seq<DetailCount>)
    requires rows != []
    ensures forall r :: r in rows ==> Earliest(rows) <= r.first
    ensures exists r :: r in rows && r.first == Earliest(rows)
  {
    var n := |rows| - 1;
    assert rows == rows[..n] + [rows[n]] && rows[n] in rows;
    if n > 0 {
      EarliestBounds(rows[..n]);
      var a :| a in rows[..n] && a.first == Earliest(rows[..n]);
      assert a in rows;
    }
  }

  lemma {:induction false} LatestBounds(rows: seq<DetailCount>)
    requires rows != []
    ensures forall r :: r in rows ==> r.last <= Latest(rows)
    ensures exists r :: r in rows && r.last == Latest(rows)
  {
    var n := |rows| - 1;
    assert rows == rows[..n] + [rows[n]] && rows[n] in rows;
    if n > 0 {
      LatestBounds(rows[..n]);
      var b :| b in rows[..n] && b.last == Latest(rows[..n]);
      assert b in rows;
    }
  }

  ghost predicate IsNovel(sig: Normalize, recent: seq<DetailCount>, known: set<string>, s: string) {
    s != "" && s !in known && exists r :: r in recent && sig(r.detail) == s
  }

  lemma {:induction false} NovelSigsExact(sig: Normalize, recent: seq<DetailCount>, known: set<string>)
    ensures Distinct(NovelSigs(sig, recent, known))
    ensures forall s :: s in NovelSigs(sig, recent, known) <==> IsNovel(sig, recent, known, s)
  {
    if recent != [] {
      var n := |recent| - 1;
      var before := NovelSigs(sig, recent[..n], known);
      NovelSigsExact(sig, recent[..n], known);
      assert forall r :: r in recent <==> r in recent[..n] || r == recent[n] by {
        assert recent == recent[..n] + [recent[n]];
      }
      forall s ensures IsNovel(sig, recent, known, s) <==>
                       IsNovel(sig, recent[..n], known, s) || (s == sig(recent[n].detail) && s != "" && s !in known) {}
    }
  }

  lemma {:induction false} RowsOfExact(sig: Normalize, recent: seq<DetailCount>, s: string)
    ensures forall r :: r in RowsOf(sig, recent, s) <==> r in recent && sig(r.detail) == s
  {
    if recent != [] {
      var n := |recent| - 1;
      RowsOfExact(sig, recent[..n], s);
      assert recent == recent[..n] + [recent[n]];
    }
  }

  function Grouped(sig: Normalize, recent: seq<DetailCount>, known: set<string>): (fs: seq<Finding>)
    ensures |fs| == |NovelSigs(sig, recent, known)|
    ensures forall i :: 0 <= i < |fs| ==>
        fs[i].detector == NovelError && fs[i].signature == NovelSigs(sig, recent, known)[i]
  {
    var sigs := NovelSigs(sig, recent, known);
    NovelSigsExact(sig, recent, known);
    seq(|sigs|, i requires 0 <= i < |sigs| =>
      assert IsNovel(sig, recent, known, sigs[i]); HasRows(sig, recent, sigs[i]);
      Merge(NovelError, sigs[i], RowsOf(sig, recent, sigs[i])))
  }

  lemma HasRows(sig: Normalize, recent: seq<DetailCount>, s: string)
    requires exists r :: r in recent && sig(r.detail) == s
    ensures RowsOf(sig, recent, s) != []
  {
    RowsOfExact(sig, recent, s);
  }

  /* ---- loudest first ---- */

  predicate Loudest(fs: seq<Finding>) { forall i, j :: 0 <= i < j < |fs| ==> fs[i].count >= fs[j].count }

  function Insert(fs: seq<Finding>, f: Finding): seq<Finding> {
    if fs == [] || fs[|fs| - 1].count >= f.count then fs + [f]
    else Insert(fs[..|fs| - 1], f) + [fs[|fs| - 1]]
  }

  function StableSort(fs: seq<Finding>): seq<Finding> {
    if fs == [] then [] else Insert(StableSort(fs[..|fs| - 1]), fs[|fs| - 1])
  }

  function Just(f: Finding, n: nat): seq<Finding> { if f.count == n then [f] else [] }

  // The findings with one count, in order.
  function AtCount(fs: seq<Finding>, n: nat): seq<Finding> {
    if fs == [] then [] else AtCount(fs[..|fs| - 1], n) + Just(fs[|fs| - 1], n)
  }

  lemma AtCountSnoc(fs: seq<Finding>, f: Finding, n: nat)
    ensures AtCount(fs + [f], n) == AtCount(fs, n) + Just(f, n)
  {
    assert (fs + [f])[..|fs|] == fs;
  }

  lemma {:induction false} AtCountEmpty(fs: seq<Finding>, n: nat)
    requires forall f :: f in fs ==> f.count != n
    ensures AtCount(fs, n) == []
  {
    if fs != [] { AtCountEmpty(fs[..|fs| - 1], n); }
  }

  lemma {:induction false} InsertLoud(fs: seq<Finding>, f: Finding)
    requires Loudest(fs)
    ensures Loudest(Insert(fs, f))
    ensures forall g :: g in Insert(fs, f) ==> g in fs || g == f
  {
    if fs != [] && fs[|fs| - 1].count < f.count {
      var rest, x := Insert(fs[..|fs| - 1], f), fs[|fs| - 1];
      InsertLoud(fs[..|fs| - 1], f);
      forall i | 0 <= i < |rest| ensures rest[i].count >= x.count {
        assert rest[i] in rest;
      }
    }
  }

  lemma {:induction false} InsertHolds(fs: seq<Finding>, f: Finding)
    ensures multiset(Insert(fs, f)) == multiset(fs) + multiset{f}
    ensures |Insert(fs, f)| == |fs| + 1
  {
    if fs != [] && fs[|fs| - 1].count < f.count {
      InsertHolds(fs[..|fs| - 1], f);
      assert fs == fs[..|fs| - 1] + [fs[|fs| - 1]];
    }
  }

  lemma {:induction false} InsertAtCount(fs: seq<Finding>, f: Finding, n: nat)
    ensures AtCount(Insert(fs, f), n) == AtCount(fs, n) + Just(f, n)
  {
    if fs != [] && fs[|fs| - 1].count < f.count {
      InsertAtCount(fs[..|fs| - 1], f, n);
      AtCountSnoc(Insert(fs[..|fs| - 1], f), fs[|fs| - 1], n);
    } else {
      AtCountSnoc(fs, f, n);
    }
  }

  lemma {:induction false} SortLoud(fs: seq<Finding>)
    ensures Loudest(StableSort(fs))
  {
    if fs != [] {
      SortLoud(fs[..|fs| - 1]);
      InsertLoud(StableSort(fs[..|fs| - 1]), fs[|fs| - 1]);
    }
  }

  lemma LastApart(fs: seq<Finding>)
    requires fs != []
    ensures multiset(fs) == multiset(fs[..|fs| - 1]) + multiset{fs[|fs| - 1]}
  {
    assert fs == fs[..|fs| - 1] + [fs[|fs| - 1]];
  }

  lemma {:induction false} SortHolds(fs: seq<Finding>)
    ensures multiset(StableSort(fs)) == multiset(fs) && |StableSort(fs)| == |fs|
  {
    if fs != [] {
      var front, f := fs[..|fs| - 1], fs[|fs| - 1];
      SortHolds(front);
      InsertHolds(StableSort(front), f);
      LastApart(fs);
    }
  }

  lemma {:induction false} SortAtCount(fs: seq<Finding>, n: nat)
    ensures AtCount(StableSort(fs), n) == AtCount(fs, n)
  {
    if fs != [] {
      var front, f := fs[..|fs| - 1], fs[|fs| - 1];
      SortAtCount(front, n);
      InsertAtCount(StableSort(front), f, n);
      assert StableSort(fs) == Insert(StableSort(front), f);
    }
  }

  /** Sorting loses nothing, puts the loudest first, and keeps findings of one count in their order. */
  lemma SortKeeps(fs: seq<Finding>, n: nat)
    ensures Loudest(StableSort(fs)) && multiset(StableSort(fs)) == multiset(fs) && |StableSort(fs)| == |fs|
    ensures AtCount(StableSort(fs), n) == AtCount(fs, n)
  {
    SortLoud(fs);
    SortHolds(fs);
    SortAtCount(fs, n);
  }

  lemma LastNotBelow(a: seq<Finding>, b: seq<Finding>)
    requires Loudest(b) && a != [] && b != []
    requires AtCount(a, a[|a| - 1].count) == AtCount(b, a[|a| - 1].count)
    ensures a[|a| - 1].count >= b[|b| - 1].count
  {
    LastAtCount(a);
    if a[|a| - 1].count < b[|b| - 1].count {
      AtCountEmpty(b, a[|a| - 1].count);
    }
  }

  lemma SameLast(a: seq<Finding>, b: seq<Finding>)
    requires Loudest(a) && Loudest(b) && a != [] && b != []
    requires AtCount(a, a[|a| - 1].count) == AtCount(b, a[|a| - 1].count)
    requires AtCount(a, b[|b| - 1].count) == AtCount(b, b[|b| - 1].count)
    ensures a[|a| - 1] == b[|b| - 1]
  {
    LastNotBelow(a, b);
    LastNotBelow(b, a);
    LastAtCount(a);
    LastAtCount(b);
  }

  /** Whatever sorts loudest first and keeps findings of one count in their order is this sort: the result
      does not depend on the algorithm. */
  lemma {:induction false} StableSortIsUnique(a: seq<Finding>, b: seq<Finding>)
    requires Loudest(a) && Loudest(b)
    requires forall n :: AtCount(a, n) == AtCount(b, n)
    ensures a == b
  {
    if a == [] || b == [] {
      NothingAtAnyCount(a, b);
      NothingAtAnyCount(b, a);
    } else {
      var i, j := |a| - 1, |b| - 1;
      SameLast(a, b);
      forall n ensures AtCount(a[..i], n) == AtCount(b[..j], n) {
        assert AtCount(a, n) == AtCount(b, n);
        DropSuffix(AtCount(a[..i], n), AtCount(b[..j], n), Just(a[i], n));
      }
      StableSortIsUnique(a[..i], b[..j]);
      assert a == a[..i] + [a[i]] && b == b[..j] + [b[j]];
    }
  }

  lemma DropSuffix<T>(a: seq<T>, b: seq<T>, c: seq<T>)
    requires a + c == b + c
    ensures a == b
  {
    assert |a + c| == |a| + |c| && |b + c| == |b| + |c|;
    assert a == (a + c)[..|a|] && b == (b + c)[..|b|];
  }

  lemma NothingAtAnyCount(a: seq<Finding>, b: seq<Finding>)
    requires forall n :: AtCount(a, n) == AtCount(b, n)
    ensures a == [] ==> b == []
  {
    if b != [] {
      LastAtCount(b);
      assert AtCount(a, b[|b| - 1].count) == AtCount(b, b[|b| - 1].count);
    }
  }

  lemma LastAtCount(fs: seq<Finding>)
    requires fs != []
    ensures AtCount(fs, fs[|fs| - 1].count) != []
    ensures AtCount(fs, fs[|fs| - 1].count)[|AtCount(fs, fs[|fs| - 1].count)| - 1] == fs[|fs| - 1]
  {
  }

  /* ---- the detector ---- */

  // Every novel finding, loudest first, before the cap.
  function AllNovel(sig: Normalize, recent: seq<DetailCount>, baseline: seq<DetailCount>): seq<Finding> {
    StableSort(Grouped(sig, recent, Known(sig, baseline)))
  }

  function Kept(all: nat, max: int): (k: nat)
    ensures k <= all
  {
    if max > 0 && all > max then max else all
  }

  function NovelErrors(sig: Normalize, recent: seq<DetailCount>, baseline: seq<DetailCount>,
        max: int): (seq<Finding>, nat) {
    var all := AllNovel(sig, recent, baseline);
    (all[..Kept(|all|, max)], |all| - Kept(|all|, max))
  }

  // A finding that is the whole story of its signature.
  ghost predicate Exact(sig: Normalize, recent: seq<DetailCount>, known: set<string>, f: Finding) {
    && IsNovel(sig, recent, known, f.signature)
    && RowsOf(sig, recent, f.signature) != []
    && f == Merge(NovelError, f.signature, RowsOf(sig, recent, f.signature))
  }

  lemma GroupedExact(sig: Normalize, recent: seq<DetailCount>, known: set<string>, i: nat)
    requires i < |Grouped(sig, recent, known)|
    ensures Exact(sig, recent, known, Grouped(sig, recent, known)[i])
  {
    var s := NovelSigs(sig, recent, known)[i];
    NovelSigsExact(sig, recent, known);
    assert s in NovelSigs(sig, recent, known);
    HasRows(sig, recent, s);
  }

  /** Before the cap there is exactly one finding per non-empty signature that is recent and not in the
      baseline, with its count, first and last seen taken over exactly its rows. */
  lemma NovelErrorsExact(sig: Normalize, recent: seq<DetailCount>, baseline: seq<DetailCount>)
    ensures var all := AllNovel(sig, recent, baseline);
            && Loudest(all)
            && (forall f :: f in all ==> Exact(sig, recent, Known(sig, baseline), f))
            && (forall s :: IsNovel(sig, recent, Known(sig, baseline), s) ==> exists f :: f in all && f.signature == s)
            && (forall i, j :: 0 <= i < j < |all| ==> all[i].signature != all[j].signature)
  {
    var known := Known(sig, baseline);
    var fs := Grouped(sig, recent, known);
    var all := AllNovel(sig, recent, baseline);
    SortLoud(fs);
    SortHolds(fs);
    SameElements(all, fs);
    forall f | f in all ensures Exact(sig, recent, known, f) {
      assert f in fs;
      var i :| 0 <= i < |fs| && fs[i] == f;
      GroupedExact(sig, recent, known, i);
    }
    NovelSigsExact(sig, recent, known);
    forall s | IsNovel(sig, recent, known, s) ensures exists f :: f in all && f.signature == s {
      assert s in NovelSigs(sig, recent, known);
      var i :| 0 <= i < |fs| && NovelSigs(sig, recent, known)[i] == s;
      assert fs[i] in fs;
    }
    DistinctSignatures(fs, all);
  }

  /** Its rows are all of them, as often as they came, and no others. */
  lemma {:induction false} RowsKept(sig: Normalize, recent: seq<DetailCount>, s: string, r: DetailCount)
    ensures multiset(RowsOf(sig, recent, s))[r] == if sig(r.detail) == s then multiset(recent)[r] else 0
  {
    if recent != [] {
      var n := |recent| - 1;
      RowsKept(sig, recent[..n], s, r);
      assert recent == recent[..n] + [recent[n]];
      assert multiset(recent)[r] == multiset(recent[..n])[r] + if recent[n] == r then 1 else 0;
    }
  }

  // The first row with a signature is its first among all rows.
  lemma {:induction false} FirstRow(sig: Normalize, recent: seq<DetailCount>, s: string) returns (i: nat)
    requires RowsOf(sig, recent, s) != []
    ensures i < |recent| && recent[i] == RowsOf(sig, recent, s)[0] && sig(recent[i].detail) == s
    ensures forall k :: 0 <= k < i ==> sig(recent[k].detail) != s
  {
    var n := |recent| - 1;
    var front := recent[..n];
    if RowsOf(sig, front, s) == [] {
      RowsOfExact(sig, front, s);
      forall k | 0 <= k < n ensures sig(recent[k].detail) != s { assert front[k] in front; }
      return n;
    }
    i := FirstRow(sig, front, s);
    assert forall k :: 0 <= k <= i ==> recent[k] == front[k];
  }

  // Seen in the recent window and in no row of the baseline.
  ghost predicate New(sig: Normalize, recent: seq<DetailCount>, baseline: seq<DetailCount>, s: string) {
    && s != ""
    && (exists r :: r in recent && sig(r.detail) == s)
    && (forall r :: r in baseline ==> sig(r.detail) != s)
  }

  /** Row by row: what is reported is new, and whatever is new is reported, with its count the sum of its rows
      in 64 bits, its evidence the first of them, and first and last seen the extremes of them. */
  lemma WhatIsNovel(sig: Normalize, recent: seq<DetailCount>, baseline: seq<DetailCount>)
    ensures var all := AllNovel(sig, recent, baseline);
            && (forall f :: f in all ==>
                  && f.detector == NovelError && New(sig, recent, baseline, f.signature)
                  && var rows := RowsOf(sig, recent, f.signature);
                  && rows != [] && f.count == Sum(rows) % U64 && f.evidence == rows[0].detail
                  && (forall r :: r in rows ==> f.first <= r.first && r.last <= f.last)
                  && (exists r :: r in rows && r.first == f.first) && (exists r :: r in rows && r.last == f.last))
            && (forall s :: New(sig, recent, baseline, s) ==> exists f :: f in all && f.signature == s)
            && |all| == |NovelSigs(sig, recent, Known(sig, baseline))|
  {
    var known := Known(sig, baseline);
    NovelErrorsExact(sig, recent, baseline);
    SortHolds(Grouped(sig, recent, known));
    forall s ensures IsNovel(sig, recent, known, s) <==> New(sig, recent, baseline, s) {}
    forall f | f in AllNovel(sig, recent, baseline)
      ensures var rows := RowsOf(sig, recent, f.signature);
              && rows != [] && f.count == Sum(rows) % U64
              && (forall r :: r in rows ==> f.first <= r.first && r.last <= f.last)
              && (exists r :: r in rows && r.first == f.first) && (exists r :: r in rows && r.last == f.last)
    {
      var rows := RowsOf(sig, recent, f.signature);
      assert Exact(sig, recent, known, f);
      TotalIsSum(rows);
      EarliestBounds(rows);
      LatestBounds(rows);
    }
  }

  lemma SameElements<T>(a: seq<T>, b: seq<T>)
    requires multiset(a) == multiset(b)
    ensures forall x :: x in a <==> x in b
  {
    forall x ensures x in a <==> x in b {
      assert x in a <==> x in multiset(a);
      assert x in b <==> x in multiset(b);
    }
  }

  lemma DistinctSignatures(fs: seq<Finding>, all: seq<Finding>)
    requires multiset(all) == multiset(fs)
    requires forall i, j :: 0 <= i < j < |fs| ==> fs[i].signature != fs[j].signature
    ensures forall i, j :: 0 <= i < j < |all| ==> all[i].signature != all[j].signature
  {
    forall i, j | 0 <= i < j < |all| ensures all[i].signature != all[j].signature {
      if all[i].signature == all[j].signature {
        SameElements(all, fs);
        assert all[i] in fs && all[j] in fs;
        var f := all[i];
        assert all == all[..i] + [all[i]] + all[i + 1..j] + [all[j]] + all[j + 1..];
        assert multiset(all)[f] >= 2;
        OnceAt(fs, f);
      }
    }
  }

  lemma {:induction false} OnceAt(fs: seq<Finding>, f: Finding)
    requires forall i, j :: 0 <= i < j < |fs| ==> fs[i].signature != fs[j].signature
    ensures multiset(fs)[f] <= 1
  {
    if fs != [] {
      var n := |fs| - 1;
      OnceAt(fs[..n], f);
      assert fs == fs[..n] + [fs[n]];
      if fs[n] == f { assert f !in fs[..n]; }
    }
  }

  lemma CapLoudest(all: seq<Finding>, k: nat)
    requires Loudest(all) && k <= |all|
    ensures forall f, d :: f in all[..k] && d in all[k..] ==> f.count >= d.count
  {
    forall f, d | f in all[..k] && d in all[k..] ensures f.count >= d.count {
      var i :| 0 <= i < k && all[i] == f;
      var j :| 0 <= j < |all[k..]| && all[k..][j] == d;
      assert all[k + j] == d;
    }
  }

  /** The cap keeps and drops everything between them, and drops no finding louder than one it keeps. */
  lemma CapDropsTheQuietest(sig: Normalize, recent: seq<DetailCount>, baseline: seq<DetailCount>, max: int)
    ensures var all := AllNovel(sig, recent, baseline);
            var (kept, dropped) := NovelErrors(sig, recent, baseline, max);
            && |kept| + dropped == |all| && kept == all[..|kept|]
            && |kept| == (if 0 < max < |all| then max else |all|) && (dropped > 0 <==> 0 < max < |all|)
            && forall f, d :: f in kept && d in all[|kept|..] ==> f.count >= d.count
  {
    SortLoud(Grouped(sig, recent, Known(sig, baseline)));
    var all := AllNovel(sig, recent, baseline);
    CapLoudest(all, Kept(|all|, max));
  }

  /* ---- killed scans ---- */

  // The rows whose detail shows the scan was killed.
  function KilledRows(killed: string -> bool, recent: seq<DetailCount>): seq<DetailCount> {
    if recent == [] then []
    else
      var r := recent[|recent| - 1];
      KilledRows(killed, recent[..|recent| - 1]) + if killed(r.detail) then [r] else []
  }

  const KILLED_SIGNATURE: string := "scan killed (SIGKILL/137)"

  function KilledScans(killed: string -> bool, recent: seq<DetailCount>, threshold: Uint64): Option<Finding> {
    var rows := KilledRows(killed, recent);
    if rows == [] || Total(rows) == 0 || Total(rows) < threshold then None
    else Some(Merge(KilledScan, KILLED_SIGNATURE, rows))
  }

  /** Every killed row counts, as often as it came, and there is a finding exactly when their sum in 64 bits is
      not zero and reaches the threshold. */
  lemma KilledScansExactly(killed: string -> bool, recent: seq<DetailCount>, threshold: Uint64, r: DetailCount)
    ensures multiset(KilledRows(killed, recent))[r] == if killed(r.detail) then multiset(recent)[r] else 0
    ensures var rows, f := KilledRows(killed, recent), KilledScans(killed, recent, threshold);
            && (f.Some? <==> Sum(rows) % U64 > 0 && Sum(rows) % U64 >= threshold)
            && (f.Some? ==> f.value.detector == KilledScan && f.value.signature == "scan killed (SIGKILL/137)"
                            && f.value.count == Sum(rows) % U64
                            && rows != [] && f.value.evidence == rows[0].detail
                            && f.value.first == Earliest(rows) && f.value.last == Latest(rows))
  {
    TotalIsSum(KilledRows(killed, recent));
    KilledKept(killed, recent, r);
  }

  lemma {:induction false} KilledKept(killed: string -> bool, recent: seq<DetailCount>, r: DetailCount)
    ensures multiset(KilledRows(killed, recent))[r] == if killed(r.detail) then multiset(recent)[r] else 0
  {
    if recent != [] {
      var n := |recent| - 1;
      KilledKept(killed, recent[..n], r);
      assert recent == recent[..n] + [recent[n]];
      assert multiset(recent)[r] == multiset(recent[..n])[r] + if recent[n] == r then 1 else 0;
    }
  }

  /* ---- the error rate ---- */

  datatype Counts = Counts(total: Uint64, infraErrors: Uint64) {
    function Rate(): real { if total == 0 then 0.0 else infraErrors as real / total as real }
  }

  datatype Thresholds = Thresholds(minSamples: Uint64, minRate: real, minFactor: real)

  const RATE_SIGNATURE: string := "infra error rate step change"

  function InfraErrorStepChange(recent: Counts, baseline: Counts, th: Thresholds): Option<Finding> {
    if recent.total < th.minSamples then None
    else if recent.Rate() < th.minRate then None
    else if baseline.Rate() > 0.0 && recent.Rate() < baseline.Rate() * th.minFactor then None
    else Some(Finding(InfraErrorRate, RATE_SIGNATURE, recent.infraErrors, "", 0, 0))
  }

  lemma DivMono(a: real, b: real, n: real)
    requires n > 0.0 && a <= b
    ensures a / n <= b / n
  {
  }

  // A rate is over a bound exactly when the count is over the bound's share of the total.
  lemma RateAtLeast(a: real, n: real, bound: real)
    requires n > 0.0
    ensures a / n >= bound <==> a >= bound * n
  {
    var x := a / n;
    assert x * n == a;
    if x >= bound { MulMonoReal(bound, x, n); } else { MulLessReal(x, bound, n); }
  }

  lemma MulMonoReal(x: real, y: real, n: real)
    requires n > 0.0 && x <= y
    ensures x * n <= y * n
  {
  }

  lemma MulLessReal(x: real, y: real, n: real)
    requires n > 0.0 && x < y
    ensures x * n < y * n
  {
  }

  lemma RatesCross(a: real, n: real, b: real, m: real, f: real)
    requires n > 0.0 && m > 0.0
    ensures a / n >= (b / m) * f <==> a * m >= b * f * n
  {
    var y := (b / m) * f;
    assert (b / m) * m == b;
    assert y * m == b * f;
    RateAtLeast(a, n, y);
    assert a >= y * n <==> a * m >= y * n * m by {
      if a >= y * n { MulMonoReal(y * n, a, m); } else { MulLessReal(a, y * n, m); }
    }
    assert y * n * m == b * f * n;
  }

  /** Exactly when it alerts, on the counts themselves: enough pushes, enough of them failed, and either the
      baseline is clean or the share of failures grew by the factor. What is reported is the failures. */
  lemma StepChangeExactly(recent: Counts, baseline: Counts, th: Thresholds)
    ensures var n, a := recent.total as real, recent.infraErrors as real;
            var m, b := baseline.total as real, baseline.infraErrors as real;
            n > 0.0 ==>
              (InfraErrorStepChange(recent, baseline, th).Some? <==>
                && recent.total >= th.minSamples
                && a >= th.minRate * n
                && (m == 0.0 || b == 0.0 || a * m >= b * th.minFactor * n))
    ensures recent.total == 0 && (th.minSamples > 0 || th.minRate > 0.0) ==>
              InfraErrorStepChange(recent, baseline, th).None?
    ensures InfraErrorStepChange(recent, baseline, th).Some? ==>
              var f := InfraErrorStepChange(recent, baseline, th).value;
              && f.detector == InfraErrorRate && f.signature == "infra error rate step change"
              && f.count == recent.infraErrors
  {
    var n, a := recent.total as real, recent.infraErrors as real;
    var m, b := baseline.total as real, baseline.infraErrors as real;
    if n > 0.0 { RateAtLeast(a, n, th.minRate); }
    if n > 0.0 && m > 0.0 {
      RatesCross(a, n, b, m, th.minFactor);
      PositiveRate(b, m);
    }
  }

  lemma PositiveRate(b: real, m: real)
    requires b >= 0.0 && m > 0.0
    ensures b / m > 0.0 <==> b > 0.0
  {
    assert (b / m) * m == b;
  }

  /** In particular a clean baseline never silences a rate over the floor. */
  lemma CleanBaselineAlerts(recent: Counts, baseline: Counts, th: Thresholds)
    requires baseline.infraErrors == 0 && recent.total >= th.minSamples && recent.total > 0
    requires recent.infraErrors as real >= th.minRate * recent.total as real
    ensures InfraErrorStepChange(recent, baseline, th).Some?
  {
    StepChangeExactly(recent, baseline, th);
  }

  /** More infra errors in a window of the same size never silence the detector. */
  lemma MoreErrorsStillAlert(recent: Counts, more: Counts, baseline: Counts, th: Thresholds)
    requires more.total == recent.total && more.infraErrors >= recent.infraErrors
    requires InfraErrorStepChange(recent, baseline, th).Some?
    ensures InfraErrorStepChange(more, baseline, th).Some?
  {
    if recent.total > 0 { DivMono(recent.infraErrors as real, more.infraErrors as real, recent.total as real); }
  }

  /** A window without infra errors never alerts, and with a factor above one neither does a rate that has
      not risen. A steady rate alerts, on every run, exactly when it is over the floor and the factor is set
      to one or less. */
  lemma SteadyRateIsQuiet(recent: Counts, baseline: Counts, th: Thresholds)
    requires th.minRate > 0.0
    ensures recent.infraErrors == 0 ==> InfraErrorStepChange(recent, baseline, th).None?
    ensures th.minFactor > 1.0 && recent.Rate() <= baseline.Rate() ==> InfraErrorStepChange(recent, baseline, th).None?
    ensures recent.Rate() == baseline.Rate() ==>
              (InfraErrorStepChange(recent, baseline, th).Some? <==>
                 recent.total >= th.minSamples && recent.Rate() >= th.minRate && th.minFactor <= 1.0)
  {
    var rate, base := recent.Rate(), baseline.Rate();
    if base > 0.0 {
      if th.minFactor > 1.0 {
        NotRisen(rate, base, th.minFactor);
      } else {
        NotFallen(rate, base, th.minFactor);
      }
    }
  }

  lemma NotRisen(rate: real, base: real, f: real)
    requires base > 0.0 && f > 1.0
    ensures rate <= base ==> rate < base * f
  {
    MulAbove(base, f);
  }

  lemma NotFallen(rate: real, base: real, f: real)
    requires base > 0.0 && f <= 1.0
    ensures rate == base ==> rate >= base * f
  {
    MulBelow(base, f);
  }

  lemma MulBelow(a: real, f: real)
    requires a > 0.0 && f <= 1.0
    ensures a * f <= a
  {
  }

  lemma MulAbove(a: real, f: real)
    requires a > 0.0 && f > 1.0
    ensures a * f > a
  {
  }

  /* ---- cooldown keys ---- */

  function CooldownKey(f: Finding): string { f.detector.Name() + "|" + f.signature }

  lemma CutAtBar(a: string, x: string, b: string, y: string)
    requires '|' !in a && '|' !in b && a + "|" + x == b + "|" + y
    ensures a == b && x == y
  {
    var s := a + "|" + x;
    forall i | 0 <= i < |a| ensures s[i] != '|' { assert a[i] in a; }
    forall i | 0 <= i < |b| ensures s[i] != '|' { assert s[i] == b[i] && b[i] in b; }
    assert s[|a|] == '|' && s[|b|] == '|';
    assert a == s[..|a|] && b == s[..|b|];
    assert x == s[|a| + 1..] && y == s[|b| + 1..];
  }

  /** Findings share a cooldown only if they are of one detector and one signature, whatever text the
      signatures contain: no detector name has the separator in it. */
  lemma CooldownKeysDiffer(f: Finding, g: Finding)
    requires CooldownKey(f) == CooldownKey(g)
    ensures f.detector == g.detector && f.signature == g.signature
  {
    CutAtBar(f.detector.Name(), f.signature, g.detector.Name(), g.signature);
    assert f.detector.Name()[0] ==
        (match f.detector case NovelError => 'n' case InfraErrorRate => 'i' case KilledScan => 'k');
    assert g.detector.Name()[0] ==
        (match g.detector case NovelError => 'n' case InfraErrorRate => 'i' case KilledScan => 'k');
  }
}
