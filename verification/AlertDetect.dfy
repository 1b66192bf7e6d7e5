/** The alert detectors as the loops they are (internal/alert/detect.go). */
module AlertDetect {
  import opened Basics
  import opened AlertSpec

  lemma RowsSnoc(sig: Normalize, rows: seq<DetailCount>, i: nat, s: string)
    requires i < |rows|
    ensures RowsOf(sig, rows[..i + 1], s) == RowsOf(sig, rows[..i], s)
        + if sig(rows[i].detail) == s then [rows[i]] else []
  {
    assert rows[..i + 1][..i] == rows[..i];
  }

  lemma TotalsSnoc(rows: seq<DetailCount>, r: DetailCount)
    ensures Total(rows + [r]) == AddU64(Total(rows), r.count)
    ensures Earliest(rows + [r]) == if rows == [] then r.first else Min(Earliest(rows), r.first)
    ensures Latest(rows + [r]) == if rows == [] then r.last else Max(Latest(rows), r.last)
  {
    assert (rows + [r])[..|rows|] == rows;
    assert (rows + [r])[|rows|] == r;
  }

  method KnownSignatures(sig: Normalize, baseline: seq<DetailCount>) returns (known: set<string>)
    ensures known == Known(sig, baseline)
  {
    known := {};
    for i := 0 to |baseline|
      invariant known == Known(sig, baseline[..i])
    {
      var s := sig(baseline[i].detail);
      assert baseline[..i + 1] == baseline[..i] + [baseline[i]];
      if s != "" { known := known + {s}; }
    }
    assert baseline[..|baseline|] == baseline;
  }

  // Each reported signature is there with its rows so far merged.
  ghost predicate GroupedSoFar(sig: Normalize, recent: seq<DetailCount>, order: seq<string>,
        grouped: map<string, Finding>) {
    && grouped.Keys == Elements(order)
    && forall s :: s in grouped ==>
           RowsOf(sig, recent, s) != [] && grouped[s] == Merge(NovelError, s, RowsOf(sig, recent, s))
  }

  lemma GroupNew(sig: Normalize, recent: seq<DetailCount>, known: set<string>, i: nat, order: seq<string>,
        grouped: map<string, Finding>)
    requires i < |recent| && order == NovelSigs(sig, recent[..i], known)
    requires GroupedSoFar(sig, recent[..i], order, grouped)
    requires var s := sig(recent[i].detail); s != "" && s !in known && s !in order
    ensures var s := sig(recent[i].detail);
            var f := Finding(NovelError, s, recent[i].count, recent[i].detail, recent[i].first, recent[i].last);
            GroupedSoFar(sig, recent[..i + 1], order + [s], grouped[s := f])
  {
    var s := sig(recent[i].detail);
    FirstRow(sig, recent, known, i);
    forall t | t in grouped ensures RowsOf(sig, recent[..i + 1], t) == RowsOf(sig, recent[..i], t) {
      RowsSnoc(sig, recent, i, t);
    }
    ElementsPlus(order, [s]);
  }

  lemma NoRows(sig: Normalize, recent: seq<DetailCount>, s: string)
    ensures (forall r :: r in recent ==> sig(r.detail) != s) ==> RowsOf(sig, recent, s) == []
  {
    RowsOfExact(sig, recent, s);
    var rows := RowsOf(sig, recent, s);
    if rows != [] { assert rows[0] in rows; }
  }

  // The first row of a new signature is all of it.
  lemma FirstRow(sig: Normalize, recent: seq<DetailCount>, known: set<string>, i: nat)
    requires i < |recent|
    requires var s := sig(recent[i].detail); s != "" && s !in known && s !in NovelSigs(sig, recent[..i], known)
    ensures var s := sig(recent[i].detail);
            && RowsOf(sig, recent[..i + 1], s) == [recent[i]]
            && Merge(NovelError, s, [recent[i]]) ==
               Finding(NovelError, s, recent[i].count, recent[i].detail, recent[i].first, recent[i].last)
  {
    var s := sig(recent[i].detail);
    NovelSigsExact(sig, recent[..i], known);
    NoRows(sig, recent[..i], s);
    assert !IsNovel(sig, recent[..i], known, s);
    RowsSnoc(sig, recent, i, s);
    OneRow(recent[i]);
  }

  lemma OneRow(r: DetailCount)
    ensures Total([r]) == r.count && Earliest([r]) == r.first && Latest([r]) == r.last
  {
    assert [r][..0] == [];
  }

  lemma GroupMore(sig: Normalize, recent: seq<DetailCount>, i: nat, order: seq<string>, grouped: map<string, Finding>)
    requires i < |recent| && GroupedSoFar(sig, recent[..i], order, grouped) && sig(recent[i].detail) in grouped
    ensures var s := sig(recent[i].detail);
            var f := grouped[s];
            var g := f.(count := AddU64(f.count, recent[i].count),
                        first := Min(f.first, recent[i].first), last := Max(f.last, recent[i].last));
            GroupedSoFar(sig, recent[..i + 1], order, grouped[s := g])
  {
    var s := sig(recent[i].detail);
    forall t | t in grouped && t != s ensures RowsOf(sig, recent[..i + 1], t) == RowsOf(sig, recent[..i], t) {
      RowsSnoc(sig, recent, i, t);
    }
    RowsSnoc(sig, recent, i, s);
    TotalsSnoc(RowsOf(sig, recent[..i], s), recent[i]);
  }

  lemma GroupSame(sig: Normalize, recent: seq<DetailCount>, i: nat, order: seq<string>, grouped: map<string, Finding>)
    requires i < |recent| && GroupedSoFar(sig, recent[..i], order, grouped) && sig(recent[i].detail) !in grouped
    ensures GroupedSoFar(sig, recent[..i + 1], order, grouped)
  {
    forall t | t in grouped ensures RowsOf(sig, recent[..i + 1], t) == RowsOf(sig, recent[..i], t) {
      RowsSnoc(sig, recent, i, t);
    }
  }

  method Group(sig: Normalize, recent: seq<DetailCount>, known: set<string>) returns (order: seq<string>,
        grouped: map<string, Finding>)
    ensures order == NovelSigs(sig, recent, known) && GroupedSoFar(sig, recent, order, grouped)
  {
    order, grouped := [], map[];
    for i := 0 to |recent|
      invariant order == NovelSigs(sig, recent[..i], known)
      invariant GroupedSoFar(sig, recent[..i], order, grouped)
    {
      var r := recent[i];
      assert recent[..i + 1][..i] == recent[..i];
      var s := sig(r.detail);
      NovelSigsExact(sig, recent[..i], known);
      assert s in grouped <==> s in order;
      if s == "" || s in known {
        GroupSame(sig, recent, i, order, grouped);
        continue;
      }
      if s !in grouped {
        GroupNew(sig, recent, known, i, order, grouped);
        grouped := grouped[s := Finding(NovelError, s, r.count, r.detail, r.first, r.last)];
        order := order + [s];
        continue;
      }
      GroupMore(sig, recent, i, order, grouped);
      var f := grouped[s];
      f := f.(count := AddU64(f.count, r.count));
      if r.first < f.first { f := f.(first := r.first); }
      if r.last > f.last { f := f.(last := r.last); }
      grouped := grouped[s := f];
    }
    assert recent[..|recent|] == recent;
  }

  lemma {:induction false} InsertIsAt(sorted: seq<Finding>, x: Finding, j: nat)
    requires j <= |sorted| && forall k :: j <= k < |sorted| ==> sorted[k].count < x.count
    requires j == 0 || sorted[j - 1].count >= x.count
    ensures Insert(sorted, x) == sorted[..j] + [x] + sorted[j..]
  {
    if j < |sorted| {
      var n := |sorted| - 1;
      InsertIsAt(sorted[..n], x, j);
      assert sorted[..n][..j] == sorted[..j];
      assert sorted[j..] == sorted[..n][j..] + [sorted[n]];
    }
  }

  // Position k of the array while x is on its way down from i and has reached j.
  function Moving(sorted: seq<Finding>, x: Finding, rest: seq<Finding>, j: nat): seq<Finding>
    requires j <= |sorted|
  {
    sorted[..j] + [x] + sorted[j..] + rest
  }

  lemma MovingSwap(sorted: seq<Finding>, x: Finding, rest: seq<Finding>, j: nat)
    requires 0 < j <= |sorted|
    ensures var s := Moving(sorted, x, rest, j);
            s[j] == x && s[j - 1] == sorted[j - 1] && Moving(sorted, x, rest, j - 1) == s[j := s[j - 1]][j - 1 := s[j]]
  {
  }

  // Moves a[i] down past everything quieter just before it, to j.
  method InsertInPlace(a: array<Finding>, i: nat) returns (j: nat)
    requires i < a.Length
    modifies a
    ensures j <= i && a[..] == Moving(old(a[..i]), old(a[i]), old(a[i + 1..]), j)
    ensures forall k :: j <= k < i ==> old(a[k]).count < old(a[i]).count
    ensures j == 0 || old(a[j - 1]).count >= old(a[i]).count
  {
    ghost var sorted, x, rest := a[..i], a[i], a[i + 1..];
    j := i;
    while j > 0 && a[j - 1].count < a[j].count
      invariant 0 <= j <= i
      invariant a[..] == Moving(sorted, x, rest, j)
      invariant forall k :: j <= k < i ==> sorted[k].count < x.count
    {
      MovingSwap(sorted, x, rest, j);
      ghost var s := a[..];
      a[j - 1], a[j] := a[j], a[j - 1];
      assert a[..] == s[j := s[j - 1]][j - 1 := s[j]];
      j := j - 1;
    }
    assert a[..][j] == x;
    assert j > 0 ==> a[..][j - 1] == sorted[j - 1];
  }

  // Loudest first, in place; findings of one count stay in order.
  method SortLoudest(a: array<Finding>)
    modifies a
    ensures a[..] == StableSort(old(a[..]))
  {
    ghost var was := a[..];
    for i := 0 to a.Length
      invariant a[..] == StableSort(was[..i]) + was[i..]
    {
      SortHolds(was[..i]);
      SortedPart(a[..], was, i);
      ghost var now := a[..];
      var j := InsertInPlace(a, i);
      OneMoreSorted(now, was, i, j);
    }
    assert was[..a.Length] == was;
  }

  lemma OneMoreSorted(now: seq<Finding>, was: seq<Finding>, i: nat, j: nat)
    requires i < |was| && |now| == |was| && |StableSort(was[..i])| == i && j <= i
    requires now[..i] == StableSort(was[..i]) && now[i] == was[i] && now[i + 1..] == was[i + 1..]
    requires forall k :: j <= k < i ==> now[k].count < now[i].count
    requires j == 0 || now[j - 1].count >= now[i].count
    ensures Moving(now[..i], now[i], now[i + 1..], j) == StableSort(was[..i + 1]) + was[i + 1..]
  {
    InsertIsAt(now[..i], was[i], j);
    assert was[..i + 1][..i] == was[..i];
  }

  // Where the sorted part ends.
  lemma SortedPart(now: seq<Finding>, was: seq<Finding>, i: nat)
    requires i < |was| && |now| == |was| && now == StableSort(was[..i]) + was[i..] && |StableSort(was[..i])| == i
    ensures now[..i] == StableSort(was[..i]) && now[i] == was[i] && now[i + 1..] == was[i + 1..]
  {
  }

  lemma GroupedIs(sig: Normalize, recent: seq<DetailCount>, known: set<string>, order: seq<string>,
        grouped: map<string, Finding>, i: nat)
    requires order == NovelSigs(sig, recent, known) && GroupedSoFar(sig, recent, order, grouped) && i < |order|
    ensures order[i] in grouped && grouped[order[i]] == Grouped(sig, recent, known)[i]
  {
    assert order[i] in Elements(order);
  }

  method Collect(order: seq<string>, grouped: map<string, Finding>) returns (a: array<Finding>)
    requires grouped.Keys == Elements(order)
    ensures fresh(a) && a.Length == |order|
    ensures forall i :: 0 <= i < |order| ==> order[i] in grouped && a[i] == grouped[order[i]]
  {
    forall i | 0 <= i < |order| ensures order[i] in grouped { assert order[i] in Elements(order); }
    a := new Finding[|order|](i requires 0 <= i < |order| => grouped[order[i]]);
  }

  method NovelErrors(sig: Normalize, recent: seq<DetailCount>, baseline: seq<DetailCount>, max: int)
    returns (out: seq<Finding>, dropped: nat)
    ensures (out, dropped) == AlertSpec.NovelErrors(sig, recent, baseline, max)
  {
    var known := KnownSignatures(sig, baseline);
    var order, grouped := Group(sig, recent, known);
    var a := Collect(order, grouped);
    CollectedIs(sig, recent, known, order, grouped, a[..]);
    SortLoudest(a);
    var all := a[..];
    assert all == AllNovel(sig, recent, baseline);
    if max > 0 && a.Length > max { return all[..max], a.Length - max; }
    assert all[..|all|] == all;
    return all, 0;
  }

  lemma CollectedIs(sig: Normalize, recent: seq<DetailCount>, known: set<string>, order: seq<string>,
        grouped: map<string, Finding>,
                    fs: seq<Finding>)
    requires order == NovelSigs(sig, recent, known) && GroupedSoFar(sig, recent, order, grouped) && |fs| == |order|
    requires forall i :: 0 <= i < |fs| ==> order[i] in grouped && fs[i] == grouped[order[i]]
    ensures fs == Grouped(sig, recent, known)
  {
    var gs := Grouped(sig, recent, known);
    forall i | 0 <= i < |fs| ensures fs[i] == gs[i] {
      GroupedIs(sig, recent, known, order, grouped, i);
    }
  }

  lemma KilledSnoc(killed: string -> bool, recent: seq<DetailCount>, i: nat)
    requires i < |recent|
    ensures KilledRows(killed, recent[..i + 1]) ==
            if killed(recent[i].detail) then KilledRows(killed, recent[..i]) + [recent[i]]
                else KilledRows(killed, recent[..i])
  {
    assert recent[..i + 1][..i] == recent[..i];
  }

  lemma {:induction false} KilledRowsAre(killed: string -> bool, recent: seq<DetailCount>)
    ensures forall r :: r in KilledRows(killed, recent) <==> r in recent && killed(r.detail)
  {
    if recent != [] {
      KilledRowsAre(killed, recent[..|recent| - 1]);
      assert recent == recent[..|recent| - 1] + [recent[|recent| - 1]];
    }
  }

  // The running totals of the killed rows seen so far.
  ghost predicate KilledSoFar(rows: seq<DetailCount>, total: Uint64, evidence: string, first: int, last: int) {
    && total == Total(rows)
    && (evidence == "" <==> rows == [])
    && (rows != [] ==> evidence == rows[0].detail && first == Earliest(rows) && last == Latest(rows))
  }

  lemma KilledMore(rows: seq<DetailCount>, total: Uint64, evidence: string, first: int, last: int, r: DetailCount)
    requires KilledSoFar(rows, total, evidence, first, last) && r.detail != ""
    ensures evidence == "" ==> KilledSoFar(rows + [r], AddU64(total, r.count), r.detail, r.first, r.last)
    ensures evidence != "" ==>
        KilledSoFar(rows + [r], AddU64(total, r.count), evidence, Min(first, r.first), Max(last, r.last))
  {
    TotalsSnoc(rows, r);
    assert (rows + [r])[0] == if rows == [] then r else rows[0];
  }

  // The pattern never matches an empty detail, which is why an empty evidence means none was seen yet.
  method KilledScans(killed: string -> bool, recent: seq<DetailCount>, threshold: Uint64) returns (f: Option<Finding>)
    requires !killed("")
    ensures f == AlertSpec.KilledScans(killed, recent, threshold)
  {
    var total: Uint64, evidence, first, last := 0, "", 0, 0;
    for i := 0 to |recent|
      invariant KilledSoFar(KilledRows(killed, recent[..i]), total, evidence, first, last)
    {
      var r := recent[i];
      KilledSnoc(killed, recent, i);
      if !killed(r.detail) { continue; }
      KilledMore(KilledRows(killed, recent[..i]), total, evidence, first, last, r);
      total := AddU64(total, r.count);
      if evidence == "" {
        evidence, first, last := r.detail, r.first, r.last;
        continue;
      }
      if r.first < first { first := r.first; }
      if r.last > last { last := r.last; }
    }
    assert recent[..|recent|] == recent;
    if total == 0 || total < threshold { return None; }
    return Some(Finding(KilledScan, KILLED_SIGNATURE, total, evidence, first, last));
  }
}
