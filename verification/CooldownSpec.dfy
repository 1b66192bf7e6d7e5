/** One alert evaluation on values, and the cooldown over whole runs (internal/alert/runner.go). Times are
    in nanoseconds; the notification table may keep them more coarsely. */
module CooldownSpec {
  import opened Basics
  import opened AlertSpec

  const MINUTE: int := 60_000_000_000
  const HOUR: int := 60 * MINUTE

  datatype Config = Config(
    interval: int,
    recentWindow: int,
    baselineWindow: int,
    cooldown: int,
    rate: Thresholds,
    killedThreshold: Uint64,
    maxNovel: int,
    detailLimit: int)

  function OrElse(n: int, default: int): int { if n <= 0 then default else n }

  function WithDefaults(c: Config): Config {
    Config(
      OrElse(c.interval, 15 * MINUTE),
      OrElse(c.recentWindow, HOUR),
      OrElse(c.baselineWindow, 7 * 24 * HOUR),
      OrElse(c.cooldown, 6 * HOUR),
      Thresholds(
        if c.rate.minSamples == 0 then 20 else c.rate.minSamples,
        if c.rate.minRate <= 0.0 then 0.10 else c.rate.minRate,
        if c.rate.minFactor <= 0.0 then 2.0 else c.rate.minFactor),
      if c.killedThreshold == 0 then 5 else c.killedThreshold,
      OrElse(c.maxNovel, 5),
      OrElse(c.detailLimit, 500))
  }

  // Every bound is in force.
  predicate Usable(c: Config) {
    && c.interval > 0 && c.recentWindow > 0 && c.baselineWindow > 0 && c.cooldown > 0
    && c.rate.minSamples > 0 && c.rate.minRate > 0.0 && c.rate.minFactor > 0.0
    && c.killedThreshold > 0 && c.maxNovel > 0 && c.detailLimit > 0
  }

  /** The defaults turn any configuration into a usable one, and are used only where it is not one already. */
  lemma DefaultsOnlyFillIn(c: Config)
    ensures Usable(WithDefaults(c)) && (WithDefaults(c) == c <==> Usable(c))
  {
  }

  /** Field by field: a value that can be used is kept whatever the others are, and what is unset gets its own
      default, in nanoseconds where it is a time. */
  lemma EachFieldOnItsOwn(c: Config)
    ensures var d := WithDefaults(c);
            && d.interval == (if c.interval > 0 then c.interval else 900_000_000_000)
            && d.recentWindow == (if c.recentWindow > 0 then c.recentWindow else 3600_000_000_000)
            && d.baselineWindow == (if c.baselineWindow > 0 then c.baselineWindow else 604800_000_000_000)
            && d.cooldown == (if c.cooldown > 0 then c.cooldown else 21600_000_000_000)
            && d.rate.minSamples == (if c.rate.minSamples > 0 then c.rate.minSamples else 20)
            && d.rate.minRate == (if c.rate.minRate > 0.0 then c.rate.minRate else 0.1)
            && d.rate.minFactor == (if c.rate.minFactor > 0.0 then c.rate.minFactor else 2.0)
            && d.killedThreshold == (if c.killedThreshold > 0 then c.killedThreshold else 5)
            && d.maxNovel == (if c.maxNovel > 0 then c.maxNovel else 5)
            && d.detailLimit == (if c.detailLimit > 0 then c.detailLimit else 500)
  {
  }

  // The audit store, as the queries see it; None is a failed query.
  datatype Source = Source(
    details: (int, int, int) -> Option<seq<DetailCount>>,
    counts: (int, int) -> Option<Counts>)

  function AsSeq(f: Option<Finding>): seq<Finding> { match f case None => [] case Some(x) => [x] }

  // What the four queries of one evaluation answer.
  datatype View = View(recent: seq<DetailCount>, baseline: seq<DetailCount>, counts: Counts, base: Counts)

  // The two windows are adjacent and half-open.
  function Asked(c: Config, source: Source, now: int): Option<View> {
    var since := now - c.recentWindow;
    var before := since - c.baselineWindow;
    match (source.details(since, now, c.detailLimit), source.details(before, since, c.detailLimit),
           source.counts(since, now), source.counts(before, since))
    case (Some(recent), Some(baseline), Some(counts), Some(base)) => Some(View(recent, baseline, counts, base))
    case _ => None
  }

  // What the detectors report of it, one detector after the other.
  function Detected(c: Config, sig: Normalize, killed: string -> bool, v: View): seq<Finding> {
    NovelErrors(sig, v.recent, v.baseline, c.maxNovel).0
    + AsSeq(InfraErrorStepChange(v.counts, v.base, c.rate))
    + AsSeq(KilledScans(killed, v.recent, c.killedThreshold))
  }

  // What one evaluation finds, and None when a query fails.
  function FindingsOf(c: Config, sig: Normalize, killed: string -> bool, source: Source,
        now: int): Option<seq<Finding>> {
    match Asked(c, source, now) case None => None case Some(v) => Some(Detected(c, sig, killed, v))
  }

  // The signatures that are in these rows and in no row of the baseline.
  ghost function NewSignatures(sig: Normalize, recent: seq<DetailCount>, baseline: seq<DetailCount>): set<string> {
    set r | r in recent && New(sig, recent, baseline, sig(r.detail)) :: sig(r.detail)
  }

  // What the last recent window and the baseline window before it held when they were asked about.
  predicate Windows(c: Config, source: Source, now: int, v: View) {
    && source.details(now - c.recentWindow, now, c.detailLimit) == Some(v.recent)
    && source.details(now - c.recentWindow - c.baselineWindow, now - c.recentWindow, c.detailLimit) == Some(v.baseline)
    && source.counts(now - c.recentWindow, now) == Some(v.counts)
    && source.counts(now - c.recentWindow - c.baselineWindow, now - c.recentWindow) == Some(v.base)
  }

  // What these findings say of those windows.
  ghost predicate FoundIn(c: Config, sig: Normalize, killed: string -> bool, fs: seq<Finding>, v: View) {
    && (forall f :: f in fs && f.detector == NovelError ==> New(sig, v.recent, v.baseline, f.signature))
    && (c.maxNovel <= 0 || |NewSignatures(sig, v.recent, v.baseline)| <= c.maxNovel ==>
          forall s :: New(sig, v.recent, v.baseline, s) ==>
            exists f :: f in fs && f.detector == NovelError && f.signature == s)
    && (forall f :: f in fs && f.detector == InfraErrorRate <==>
          InfraErrorStepChange(v.counts, v.base, c.rate) == Some(f))
    && (forall f :: f in fs && f.detector == KilledScan <==>
          KilledScans(killed, v.recent, c.killedThreshold) == Some(f))
  }

  lemma DetectedIn(c: Config, sig: Normalize, killed: string -> bool, v: View)
    ensures FoundIn(c, sig, killed, Detected(c, sig, killed, v), v)
  {
    NovelFound(c, sig, v.recent, v.baseline);
    NovelKeys(sig, v.recent, v.baseline, c.maxNovel);
    JoinedFindings(NovelErrors(sig, v.recent, v.baseline, c.maxNovel).0, InfraErrorStepChange(v.counts, v.base, c.rate),
                   KilledScans(killed, v.recent, c.killedThreshold));
  }

  // Exactly these windows are asked about.
  lemma AskedExactly(c: Config, source: Source, now: int, v: View)
    ensures Asked(c, source, now) == Some(v) <==> Windows(c, source, now, v)
  {
  }

  /** What one evaluation finds, from the two windows it asks about: a signature is reported as novel only if
      it is in the recent window and not in the baseline, and, under the cap, whenever it is; the error rate
      of the recent counts is held against that of the baseline counts; and killed scans are those of the
      recent window. */
  lemma WhatIsFound(c: Config, sig: Normalize, killed: string -> bool, source: Source, now: int, v: View)
    requires Windows(c, source, now, v)
    ensures FindingsOf(c, sig, killed, source, now).Some?
    ensures FoundIn(c, sig, killed, FindingsOf(c, sig, killed, source, now).value, v)
  {
    AskedExactly(c, source, now, v);
    DetectedIn(c, sig, killed, v);
  }

  /** Nothing is found unless all four queries were answered. */
  lemma NothingWithoutAnswers(c: Config, sig: Normalize, killed: string -> bool, source: Source, now: int)
    requires FindingsOf(c, sig, killed, source, now).Some?
    ensures exists v :: Windows(c, source, now, v)
  {
    AskedExactly(c, source, now, Asked(c, source, now).value);
  }

  lemma NovelFound(c: Config, sig: Normalize, recent: seq<DetailCount>, baseline: seq<DetailCount>)
    ensures var novel := NovelErrors(sig, recent, baseline, c.maxNovel).0;
            && (forall f :: f in novel ==> New(sig, recent, baseline, f.signature))
            && (c.maxNovel <= 0 || |NewSignatures(sig, recent, baseline)| <= c.maxNovel ==>
                  forall s :: New(sig, recent, baseline, s) ==> exists f :: f in novel && f.signature == s)
  {
    var all := AllNovel(sig, recent, baseline);
    var sigs := NovelSigs(sig, recent, Known(sig, baseline));
    WhatIsNovel(sig, recent, baseline);
    CapDropsTheQuietest(sig, recent, baseline, c.maxNovel);
    NovelSigsExact(sig, recent, Known(sig, baseline));
    DistinctCounts(sigs);
    assert Elements(sigs) == NewSignatures(sig, recent, baseline);
    assert |all| == |NewSignatures(sig, recent, baseline)|;
  }

  lemma JoinedFindings(novel: seq<Finding>, rate: Option<Finding>, killed: Option<Finding>)
    requires forall i :: 0 <= i < |novel| ==> novel[i].detector == NovelError
    requires rate.Some? ==> rate.value.detector == InfraErrorRate
    requires killed.Some? ==> killed.value.detector == KilledScan
    ensures var fs := novel + AsSeq(rate) + AsSeq(killed);
            && (forall f :: f in fs && f.detector == NovelError <==> f in novel)
            && (forall f :: f in fs && f.detector == InfraErrorRate <==> rate == Some(f))
            && (forall f :: f in fs && f.detector == KilledScan <==> killed == Some(f))
  {
    forall f ensures f in novel + AsSeq(rate) + AsSeq(killed) <==> f in novel || rate == Some(f) || killed == Some(f) {}
  }

  ghost predicate DistinctKeys(fs: seq<Finding>) {
    forall i, j :: 0 <= i < j < |fs| ==> CooldownKey(fs[i]) != CooldownKey(fs[j])
  }

  lemma NovelKeys(sig: Normalize, recent: seq<DetailCount>, baseline: seq<DetailCount>, max: int)
    ensures var novel := NovelErrors(sig, recent, baseline, max).0;
            && (forall i :: 0 <= i < |novel| ==> novel[i].detector == NovelError)
            && (forall i, j :: 0 <= i < j < |novel| ==> novel[i].signature != novel[j].signature)
  {
    var all := AllNovel(sig, recent, baseline);
    var novel := NovelErrors(sig, recent, baseline, max).0;
    NovelErrorsExact(sig, recent, baseline);
    CapDropsTheQuietest(sig, recent, baseline, max);
    forall i | 0 <= i < |novel| ensures novel[i] == all[i] && novel[i].detector == NovelError {
      assert all[i] in all;
      assert Exact(sig, recent, Known(sig, baseline), all[i]);
    }
  }

  lemma JoinedKeys(novel: seq<Finding>, rate: Option<Finding>, killed: Option<Finding>)
    requires forall i :: 0 <= i < |novel| ==> novel[i].detector == NovelError
    requires forall i, j :: 0 <= i < j < |novel| ==> novel[i].signature != novel[j].signature
    requires rate.Some? ==> rate.value.detector == InfraErrorRate
    requires killed.Some? ==> killed.value.detector == KilledScan
    ensures DistinctKeys(novel + AsSeq(rate) + AsSeq(killed))
  {
    var fs := novel + AsSeq(rate) + AsSeq(killed);
    forall i, j | 0 <= i < j < |fs| ensures CooldownKey(fs[i]) != CooldownKey(fs[j]) {
      if CooldownKey(fs[i]) == CooldownKey(fs[j]) { CooldownKeysDiffer(fs[i], fs[j]); }
    }
  }

  /** No evaluation finds two things under one cooldown. */
  lemma OneFindingPerKey(c: Config, sig: Normalize, killed: string -> bool, source: Source, now: int)
    requires FindingsOf(c, sig, killed, source, now).Some?
    ensures DistinctKeys(FindingsOf(c, sig, killed, source, now).value)
  {
    var v := Asked(c, source, now).value;
    NovelKeys(sig, v.recent, v.baseline, c.maxNovel);
    JoinedKeys(NovelErrors(sig, v.recent, v.baseline, c.maxNovel).0, InfraErrorStepChange(v.counts, v.base, c.rate),
               KilledScans(killed, v.recent, c.killedThreshold));
  }

  /* ---- delivery ---- */

  type Table = map<string, int>

  // How one finding fares when it is announced.
  datatype Answers = Answers(delivered: nat -> bool, record: nat -> Call)

  datatype Sent = Sent(key: string, at: int, recorded: bool)

  datatype Outcome = Outcome(table: Table, tried: seq<string>, sent: seq<Sent>)

  predicate Due(last: Table, key: string, now: int, cooldown: int) {
    key !in last || now - last[key] >= cooldown
  }

  // A time as the table keeps it: rounded down to its precision.
  function Kept(at: int, precision: int): int
    requires precision > 0
  {
    at - at % precision
  }

  // The table after a row is added; reading takes the latest row of a key.
  function Announced(table: Table, key: string, at: int, precision: int): Table
    requires precision > 0
  {
    table[key := if key in table then Max(table[key], Kept(at, precision)) else Kept(at, precision)]
  }

  // One row of the append-only notification table.
  datatype Note = Note(key: string, at: int)

  // What reading it gives: the latest time of each key, as the table keeps times.
  function TableOf(rows: seq<Note>, precision: int): Table
    requires precision > 0
  {
    if rows == [] then map[]
    else Announced(TableOf(rows[..|rows| - 1], precision), rows[|rows| - 1].key, rows[|rows| - 1].at, precision)
  }

  /** A key reads as the greatest of its rows, and exactly the keys with a row are there. */
  lemma {:induction false} ReadsLatest(rows: seq<Note>, precision: int, key: string)
    requires precision > 0
    ensures key in TableOf(rows, precision) <==> exists i :: 0 <= i < |rows| && rows[i].key == key
    ensures key in TableOf(rows, precision) ==>
              && (forall i :: 0 <= i < |rows| && rows[i].key == key ==>
                    Kept(rows[i].at, precision) <= TableOf(rows, precision)[key])
              && (exists i :: 0 <= i < |rows| && rows[i].key == key
                    && Kept(rows[i].at, precision) == TableOf(rows, precision)[key])
  {
    if rows != [] {
      var n := |rows| - 1;
      var front := rows[..n];
      ReadsLatest(front, precision, key);
      if rows[n].key == key {
        var latest := TableOf(rows, precision)[key];
        if latest != Kept(rows[n].at, precision) {
          var i :| 0 <= i < n && front[i].key == key && Kept(front[i].at, precision) == latest;
          assert rows[i] == front[i];
        }
      } else if key in TableOf(rows, precision) {
        var i :| 0 <= i < n && front[i].key == key && Kept(front[i].at, precision) == TableOf(front, precision)[key];
        assert rows[i] == front[i];
      }
    }
  }

  // `last` is the table as it was loaded at the start.
  function Deliver(fs: seq<Finding>, last: Table, now: int, cooldown: int, precision: int, a: Answers): Outcome
    requires precision > 0
  {
    if fs == [] then Outcome(last, [], [])
    else
      var i := |fs| - 1;
      var o := Deliver(fs[..i], last, now, cooldown, precision, a);
      var key := CooldownKey(fs[i]);
      if !Due(last, key, now, cooldown) then o
      else if !a.delivered(i) then o.(tried := o.tried + [key])
      else
        var took := a.record(i).Took();
        Outcome(
          if took then Announced(o.table, key, now, precision) else o.table,
          o.tried + [key],
          o.sent + [Sent(key, now, took)])
  }

  lemma DeliverSnoc(fs: seq<Finding>, i: nat, last: Table, now: int, cooldown: int, precision: int, a: Answers)
    requires precision > 0 && i < |fs|
    ensures var o, p := Deliver(fs[..i], last, now, cooldown, precision, a),
        Deliver(fs[..i + 1], last, now, cooldown, precision, a);
            var key := CooldownKey(fs[i]);
            if Due(last, key, now, cooldown) && a.delivered(i) then
              && p.sent == o.sent + [Sent(key, now, a.record(i).Took())]
              && p.table == if a.record(i).Took() then Announced(o.table, key, now, precision) else o.table
            else p.sent == o.sent && p.table == o.table
  {
    assert fs[..i + 1][..i] == fs[..i];
  }

  // The i-th finding was not due, or went out and was recorded.
  predicate Well(f: Finding, i: nat, last: Table, now: int, cooldown: int, a: Answers) {
    Due(last, CooldownKey(f), now, cooldown) ==> a.delivered(i) && a.record(i).Works?
  }

  predicate AllWell(fs: seq<Finding>, last: Table, now: int, cooldown: int, a: Answers) {
    forall i :: 0 <= i < |fs| ==> Well(fs[i], i, last, now, cooldown, a)
  }

  lemma AllWellSnoc(fs: seq<Finding>, i: nat, last: Table, now: int, cooldown: int, a: Answers)
    requires i < |fs|
    ensures AllWell(fs[..i + 1], last, now, cooldown, a) <==>
            AllWell(fs[..i], last, now, cooldown, a) && Well(fs[i], i, last, now, cooldown, a)
  {
    assert fs[..i + 1] == fs[..i] + [fs[i]];
    if AllWell(fs[..i + 1], last, now, cooldown, a) {
      forall k | 0 <= k < i ensures Well(fs[..i][k], k, last, now, cooldown, a) {
        assert fs[..i + 1][k] == fs[k];
      }
      assert fs[..i + 1][i] == fs[i];
    }
  }

  function Keys(fs: seq<Finding>): seq<string> { seq(|fs|, i requires 0 <= i < |fs| => CooldownKey(fs[i])) }

  /** A finding is announced exactly when its cooldown is over or it never was announced; only a recorded
      delivery moves a timestamp, so one that is suppressed or fails is tried again next time. */
  lemma {:induction false} TriedExactlyWhenDue(fs: seq<Finding>, last: Table, now: int, cooldown: int,
        precision: int, a: Answers)
    requires precision > 0
    ensures var o := Deliver(fs, last, now, cooldown, precision, a);
            && (forall k :: k in o.tried <==> k in Keys(fs) && Due(last, k, now, cooldown))
            && (forall s :: s in o.sent ==> s.key in o.tried && s.at == now)
            && (forall k :: k in last ==> k in o.table)
            && (forall k :: k in o.table && (k !in last || o.table[k] != last[k]) ==> Sent(k, now, true) in o.sent)
  {
    if fs != [] {
      var i := |fs| - 1;
      TriedExactlyWhenDue(fs[..i], last, now, cooldown, precision, a);
      assert Keys(fs) == Keys(fs[..i]) + [CooldownKey(fs[i])];
    }
  }

  /** And whatever is tried and goes out is on record as sent, told apart by whether it was recorded. */
  lemma {:induction false} DeliveredIsSent(fs: seq<Finding>, last: Table, now: int, cooldown: int,
        precision: int, a: Answers, i: nat)
    requires precision > 0 && i < |fs| && a.delivered(i)
    requires CooldownKey(fs[i]) in last ==> now - last[CooldownKey(fs[i])] >= cooldown
    ensures Sent(CooldownKey(fs[i]), now, a.record(i).Took()) in Deliver(fs, last, now, cooldown, precision, a).sent
  {
    if i < |fs| - 1 { DeliveredIsSent(fs[..|fs| - 1], last, now, cooldown, precision, a, i); }
  }

  // Recorded deliveries are remembered, and nothing was sent after `now`.
  ghost predicate Remembered(table: Table, sent: seq<Sent>, now: int, precision: int)
    requires precision > 0
  {
    forall i :: 0 <= i < |sent| ==>
      sent[i].at <= now
      && (sent[i].recorded ==> sent[i].key in table && table[sent[i].key] >= Kept(sent[i].at, precision))
  }

  // Two deliveries of one key are a cooldown apart, less what the table rounded off the first.
  ghost predicate Spaced(sent: seq<Sent>, cooldown: int, precision: int)
    requires precision > 0
  {
    forall i, j :: 0 <= i < j < |sent| && sent[i].key == sent[j].key && sent[i].recorded ==>
      sent[j].at - sent[i].at >= cooldown - sent[i].at % precision
  }

  // Deliveries before this run, and what the run adds, of which none repeats a key.
  lemma {:induction false} DeliverSpaced(fs: seq<Finding>, last: Table, past: seq<Sent>, now: int,
        cooldown: int, precision: int, a: Answers)
    requires precision > 0 && DistinctKeys(fs)
    requires Remembered(last, past, now, precision) && Spaced(past, cooldown, precision)
    ensures var o := Deliver(fs, last, now, cooldown, precision, a);
            Remembered(o.table, past + o.sent, now, precision) && Spaced(past + o.sent, cooldown, precision)
  {
    if fs == [] {
      assert past + [] == past;
    } else {
      var i := |fs| - 1;
      var o := Deliver(fs[..i], last, now, cooldown, precision, a);
      var key := CooldownKey(fs[i]);
      DeliverSpaced(fs[..i], last, past, now, cooldown, precision, a);
      TriedExactlyWhenDue(fs[..i], last, now, cooldown, precision, a);
      if Due(last, key, now, cooldown) && a.delivered(i) {
        var s := Sent(key, now, a.record(i).Took());
        FreshKey(fs, last, now, cooldown, precision, a);
        SpacedPlus(last, past, o.sent, s, cooldown, precision);
        assert past + (o.sent + [s]) == (past + o.sent) + [s];
      }
    }
  }

  lemma FreshKey(fs: seq<Finding>, last: Table, now: int, cooldown: int, precision: int, a: Answers)
    requires precision > 0 && DistinctKeys(fs) && fs != []
    ensures var o := Deliver(fs[..|fs| - 1], last, now, cooldown, precision, a);
            forall s :: s in o.sent ==> s.key != CooldownKey(fs[|fs| - 1])
  {
    TriedExactlyWhenDue(fs[..|fs| - 1], last, now, cooldown, precision, a);
    var o := Deliver(fs[..|fs| - 1], last, now, cooldown, precision, a);
    forall s | s in o.sent ensures s.key != CooldownKey(fs[|fs| - 1]) {
      var k :| 0 <= k < |fs| - 1 && Keys(fs[..|fs| - 1])[k] == s.key;
      assert CooldownKey(fs[k]) != CooldownKey(fs[|fs| - 1]);
    }
  }

  lemma SpacedPlus(last: Table, past: seq<Sent>, added: seq<Sent>, s: Sent, cooldown: int, precision: int)
    requires precision > 0 && Spaced(past + added, cooldown, precision)
    requires Remembered(last, past, s.at, precision) && Due(last, s.key, s.at, cooldown)
    requires forall x :: x in added ==> x.key != s.key
    ensures Spaced((past + added) + [s], cooldown, precision)
  {
    var all := (past + added) + [s];
    var n := |past + added|;
    forall i | |past| <= i < n ensures all[i].key != s.key {
      assert all[i] == added[i - |past|];
    }
    forall i, j | 0 <= i < j < |all| && all[i].key == all[j].key && all[i].recorded
      ensures all[j].at - all[i].at >= cooldown - all[i].at % precision
    {
      if j < n {
        assert all[i] == (past + added)[i] && all[j] == (past + added)[j];
      } else {
        assert i < |past| ==> all[i] == past[i];
      }
    }
  }

  /* ---- whole runs ---- */

  // One evaluation that got as far as loading the cooldowns.
  datatype Evaluation = Evaluation(now: int, findings: seq<Finding>, answers: Answers)

  datatype State = State(table: Table, sent: seq<Sent>)

  function Evaluate(st: State, e: Evaluation, cooldown: int, precision: int): State
    requires precision > 0
  {
    var o := Deliver(e.findings, st.table, e.now, cooldown, precision, e.answers);
    State(o.table, st.sent + o.sent)
  }

  function EvaluateAll(st: State, es: seq<Evaluation>, cooldown: int, precision: int): State
    requires precision > 0
    decreases |es|
  {
    if es == [] then st else EvaluateAll(Evaluate(st, es[0], cooldown, precision), es[1..], cooldown, precision)
  }

  ghost predicate InOrder(now: int, es: seq<Evaluation>)
    decreases |es|
  {
    es == [] || (now <= es[0].now && DistinctKeys(es[0].findings) && InOrder(es[0].now, es[1..]))
  }

  lemma {:induction false} RunSpaced(st: State, now: int, es: seq<Evaluation>, cooldown: int, precision: int)
    requires precision > 0 && InOrder(now, es)
    requires Remembered(st.table, st.sent, now, precision) && Spaced(st.sent, cooldown, precision)
    ensures Spaced(EvaluateAll(st, es, cooldown, precision).sent, cooldown, precision)
    decreases |es|
  {
    if es != [] {
      DeliverSpaced(es[0].findings, st.table, st.sent, es[0].now, cooldown, precision, es[0].answers);
      RunSpaced(Evaluate(st, es[0], cooldown, precision), es[0].now, es[1..], cooldown, precision);
    }
  }

  /** Over every run with a clock that does not go back: after a delivery that was recorded, the same finding
      is not delivered again until the cooldown is over, counted from the time the table kept of it. With a
      table that keeps nanoseconds that is the delivery; one that keeps milliseconds rounds it down. */
  lemma CooldownHolds(start: int, es: seq<Evaluation>, cooldown: int, precision: int, i: nat, j: nat)
    requires precision > 0 && InOrder(start, es)
    requires var sent := EvaluateAll(State(map[], []), es, cooldown, precision).sent;
             i < j < |sent| && sent[i].key == sent[j].key && sent[i].recorded
    ensures var sent := EvaluateAll(State(map[], []), es, cooldown, precision).sent;
            && sent[j].at - sent[i].at >= cooldown - sent[i].at % precision
            && (precision == 1 ==> sent[j].at - sent[i].at >= cooldown)
  {
    RunSpaced(State(map[], []), start, es, cooldown, precision);
  }

  /** And it can be: announced at t, off the millisecond, a finding is announced again t % precision early. */
  lemma EarlyByWhatWasRoundedOff(f: Finding, t: int, cooldown: int, precision: int, a: Answers)
    requires precision > 0 && cooldown > t % precision > 0
    requires forall i :: a.delivered(i) && a.record(i) == Works
    ensures var again := t + cooldown - t % precision;
            var es := [Evaluation(t, [f], a), Evaluation(again, [f], a)];
            && t < again < t + cooldown
            && EvaluateAll(State(map[], []), es, cooldown, precision).sent ==
               [Sent(CooldownKey(f), t, true), Sent(CooldownKey(f), again, true)]
  {
    var again := t + cooldown - t % precision;
    var es := [Evaluation(t, [f], a), Evaluation(again, [f], a)];
    var key := CooldownKey(f);
    DeliverOne(f, map[], t, cooldown, precision, a);
    var st1 := Evaluate(State(map[], []), es[0], cooldown, precision);
    assert st1.table[key] == Kept(t, precision);
    DeliverOne(f, st1.table, again, cooldown, precision, a);
    var st2 := Evaluate(st1, es[1], cooldown, precision);
    assert st2.sent == [Sent(key, t, true), Sent(key, again, true)];
    assert es[1..] == [es[1]] && es[1..][1..] == [];
    assert EvaluateAll(st1, [es[1]], cooldown, precision) == EvaluateAll(st2, [], cooldown, precision);
  }

  lemma DeliverOne(f: Finding, last: Table, now: int, cooldown: int, precision: int, a: Answers)
    requires precision > 0 && Due(last, CooldownKey(f), now, cooldown) && a.delivered(0) && a.record(0) == Works
    ensures var key := CooldownKey(f);
            Deliver([f], last, now, cooldown, precision, a) ==
            Outcome(Announced(last, key, now, precision), [key], [Sent(key, now, true)])
  {
    assert [f][..0] == [];
    assert Deliver([f][..0], last, now, cooldown, precision, a) == Outcome(last, [], []);
  }
}
