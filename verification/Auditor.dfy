/** The audit buffer as the code it is (internal/audit/buffer.go): Record, Flush, Close, the worker loop and
    withRetry; and that the loop body is a run of the transition system. */
module Auditor {
  import opened Basics
  import opened PolicyEngine
  import opened GateHandler
  import opened IndexForward
  import opened AuditBuffer

  // How the store answers each attempt at each write.
  type Answers = (Job, Phase, nat) -> bool

  // The attempt at which a write works, or the last one allowed.
  function Attempts(answers: Answers, j: Job, phase: Phase, from: nat): (n: nat)
    requires 1 <= from <= WRITE_ATTEMPTS
    ensures from <= n <= WRITE_ATTEMPTS
    ensures n < WRITE_ATTEMPTS ==> answers(j, phase, n)
    ensures forall i :: from <= i < n ==> !answers(j, phase, i)
    decreases WRITE_ATTEMPTS - from
  {
    if from >= WRITE_ATTEMPTS || answers(j, phase, from) then from else Attempts(answers, j, phase, from + 1)
  }

  predicate Succeeds(answers: Answers, j: Job, phase: Phase) { answers(j, phase, Attempts(answers, j, phase, 1)) }

  predicate Writes(answers: Answers, j: Job) { j.Decided? && Succeeds(answers, j, DecisionWrite) }

  predicate Loses(answers: Answers, j: Job) { j.Decided? && !Succeeds(answers, j, DecisionWrite) }

  predicate LosesFindings(answers: Answers, j: Job) {
    Writes(answers, j) && j.findings != [] && !Succeeds(answers, j, FindingsWrite)
  }

  // What a list of jobs leaves behind, in order.
  function WrittenRows(answers: Answers, jobs: seq<Job>): seq<Row> {
    if jobs == [] then []
    else
      var j := jobs[|jobs| - 1];
      WrittenRows(answers, jobs[..|jobs| - 1]) + if Writes(answers, j) then [j.row] else []
  }

  function ReportedRows(answers: Answers, jobs: seq<Job>): seq<Row> {
    if jobs == [] then []
    else
      var j := jobs[|jobs| - 1];
      ReportedRows(answers, jobs[..|jobs| - 1]) + if Loses(answers, j) || LosesFindings(answers, j) then [j.row] else []
  }

  function MarkersIn(jobs: seq<Job>): set<nat> { set j | j in jobs && j.Marker? :: j.k }

  class Auditor {
    const buffer: Buffer
    var queue: seq<Job>
    var parked: bool              // the worker waits in a receive
    var closed: bool
    var markers: set<nat>
    var rows: seq<Row>            // decisions the store acknowledged
    var drops: seq<Row>           // decisions onDrop was called with
    var lostAliases: seq<Alias>   // aliases onDrop was called for

    predicate Valid()
      reads this
    {
      |queue| <= buffer.capacity && (parked ==> queue == [])
    }

    constructor (buffer: Buffer)
      ensures this.buffer == buffer && Valid() && queue == [] && !parked && !closed
          && markers == {} && rows == [] && drops == [] && lostAliases == []
    {
      this.buffer := buffer;
      queue, parked, closed, markers, rows, drops, lostAliases := [], false, false, {}, [], [], [];
    }

    // The send of a select with a default: it never waits. A parked worker is handed the job.
    method TrySend(j: Job) returns (ok: bool, hand: Option<Job>)
      requires Valid()
      modifies this`queue, this`parked
      ensures Valid() && ok == (old(parked) || |old(queue)| < buffer.capacity)
      ensures hand == (if old(parked) then Some(j) else None) && !parked
      ensures queue == if ok && !old(parked) then old(queue) + [j] else old(queue)
    {
      if parked {
        parked := false;
        return true, Some(j);
      }
      if |queue| >= buffer.capacity { return false, None; }
      queue := queue + [j];
      return true, None;
    }

    // A decision goes to the worker, into the buffer, or to onDrop; the caller never waits.
    method Record(row: Row, findings: seq<Finding>) returns (hand: Option<Job>)
      requires Valid() && !closed
      modifies this`queue, this`parked, this`drops
      ensures Valid()
      ensures old(parked) ==> hand == Some(Decided(row, findings)) && queue == old(queue) && drops == old(drops)
      ensures !old(parked) && |old(queue)| < buffer.capacity ==>
                hand == None && queue == old(queue) + [Decided(row, findings)] && drops == old(drops)
      ensures !old(parked) && |old(queue)| == buffer.capacity ==>
                hand == None && queue == old(queue) && drops == old(drops) + [row]
    {
      var ok;
      ok, hand := TrySend(Decided(row, findings));
      if !ok { drops := drops + [row]; }
    }

    method RecordTagAlias(alias: Alias) returns (hand: Option<Job>)
      requires Valid() && !closed
      modifies this`queue, this`parked, this`lostAliases
      ensures Valid() && hand == (if old(parked) then Some(Aliased(alias)) else None)
      ensures queue ==
          if !old(parked) && |old(queue)| < buffer.capacity then old(queue) + [Aliased(alias)] else old(queue)
      ensures lostAliases == old(lostAliases) + if !old(parked) && |old(queue)| == buffer.capacity then [alias] else []
    {
      var ok;
      ok, hand := TrySend(Aliased(alias));
      if !ok { lostAliases := lostAliases + [alias]; }
    }

    // The send of a flush, once there is room for it; the wait for the marker is the caller's.
    method SendMarker(k: nat) returns (hand: Option<Job>)
      requires Valid() && !closed && (parked || |queue| < buffer.capacity)
      modifies this`queue, this`parked
      ensures Valid() && hand == (if old(parked) then Some(Marker(k)) else None)
      ensures queue == if old(parked) then old(queue) else old(queue) + [Marker(k)]
    {
      var ok;
      ok, hand := TrySend(Marker(k));
    }

    method Close()
      modifies this`closed
      ensures closed
    {
      closed := true;
    }

    method WithRetry(answers: Answers, j: Job, phase: Phase) returns (ok: bool, tries: nat)
      ensures ok == Succeeds(answers, j, phase) && tries == Attempts(answers, j, phase, 1)
      ensures ok <==> answers(j, phase, 1) || answers(j, phase, 2) || answers(j, phase, 3)
      ensures tries == if answers(j, phase, 1) then 1 else if answers(j, phase, 2) then 2 else 3
    {
      ok, tries := false, 1;
      while tries <= WRITE_ATTEMPTS
        invariant 1 <= tries <= WRITE_ATTEMPTS
        invariant Attempts(answers, j, phase, tries) == Attempts(answers, j, phase, 1)
        decreases WRITE_ATTEMPTS - tries
      {
        ok := answers(j, phase, tries);
        if ok { return; }
        if tries == WRITE_ATTEMPTS { return; }
        tries := tries + 1;
      }
    }

    // The body of the worker's loop.
    method Process(answers: Answers, j: Job)
      modifies this`markers, this`rows, this`drops
      ensures rows == old(rows) + WrittenRows(answers, [j]) && drops == old(drops) + ReportedRows(answers, [j])
      ensures markers == old(markers) + MarkersIn([j])
    {
      assert [j][..0] == [];
      if j.Marker? {
        markers := markers + {j.k};
        return;
      }
      var ok, n;
      if j.Aliased? {
        if buffer.writesAliases { ok, n := WithRetry(answers, j, AliasWrite); }
        return;
      }
      ok, n := WithRetry(answers, j, DecisionWrite);
      if !ok {
        drops := drops + [j.row];
        return;
      }
      rows := rows + [j.row];
      if |j.findings| > 0 {
        ok, n := WithRetry(answers, j, FindingsWrite);
        if !ok { drops := drops + [j.row]; }
      }
    }

    /** The worker after Close: in the order they were accepted it settles every job that is left, and nothing
        stays queued. */
    method Drain(answers: Answers)
      requires Valid() && closed
      modifies this`queue, this`markers, this`rows, this`drops
      ensures queue == []
      ensures rows == old(rows) + WrittenRows(answers, old(queue))
      ensures drops == old(drops) + ReportedRows(answers, old(queue))
      ensures markers == old(markers) + MarkersIn(old(queue))
    {
      ghost var jobs, n := queue, 0;
      while |queue| > 0
        invariant n <= |jobs| && queue == jobs[n..]
        invariant rows == old(rows) + WrittenRows(answers, jobs[..n])
        invariant drops == old(drops) + ReportedRows(answers, jobs[..n])
        invariant markers == old(markers) + MarkersIn(jobs[..n])
        decreases |queue|
      {
        var j := queue[0];
        queue := queue[1..];
        Process(answers, j);
        assert jobs[..n + 1] == jobs[..n] + [j];
        SettledSnoc(answers, jobs[..n], j);
        n := n + 1;
      }
      assert jobs[..n] == jobs;
    }
  }

  lemma SettledSnoc(answers: Answers, jobs: seq<Job>, j: Job)
    ensures WrittenRows(answers, jobs + [j]) == WrittenRows(answers, jobs) + WrittenRows(answers, [j])
    ensures ReportedRows(answers, jobs + [j]) == ReportedRows(answers, jobs) + ReportedRows(answers, [j])
    ensures MarkersIn(jobs + [j]) == MarkersIn(jobs) + MarkersIn([j])
  {
    assert (jobs + [j])[..|jobs|] == jobs && [j][..0] == [];
  }

  /** Draining accounts for every decision that was queued: each is acknowledged or reported, and reported
      once more if its findings alone were lost. */
  lemma {:induction false} DrainAccounts(answers: Answers, jobs: seq<Job>)
    ensures multiset(WrittenRows(answers, jobs)) + multiset(ReportedRows(answers, jobs)) ==
            Rows(jobs) + multiset(BareRows(answers, jobs))
  {
    if jobs != [] {
      var front, j := jobs[..|jobs| - 1], jobs[|jobs| - 1];
      DrainAccounts(answers, front);
      AppendIf(WrittenRows(answers, front), Writes(answers, j), j);
      AppendIf(ReportedRows(answers, front), Loses(answers, j) || LosesFindings(answers, j), j);
      AppendIf(BareRows(answers, front), LosesFindings(answers, j), j);
      Accounts(multiset(WrittenRows(answers, front)), multiset(ReportedRows(answers, front)), Rows(front),
               multiset(BareRows(answers, front)), answers, j);
    }
  }

  lemma Accounts(written: multiset<Row>, reported: multiset<Row>, rows: multiset<Row>, bare: multiset<Row>,
        answers: Answers, j: Job)
    requires written + reported == rows + bare
    ensures (written + When(Writes(answers, j), RowOf(j)))
            + (reported + When(Loses(answers, j) || LosesFindings(answers, j), RowOf(j))) ==
            (rows + RowOf(j)) + (bare + When(LosesFindings(answers, j), RowOf(j)))
  {
    var left := (written + When(Writes(answers, j), RowOf(j)))
                + (reported + When(Loses(answers, j) || LosesFindings(answers, j), RowOf(j)));
    var right := (rows + RowOf(j)) + (bare + When(LosesFindings(answers, j), RowOf(j)));
    forall row ensures left[row] == right[row] {
      assert (written + reported)[row] == (rows + bare)[row];
    }
  }

  lemma AppendIf(rows: seq<Row>, c: bool, j: Job)
    requires c ==> j.Decided?
    ensures multiset(rows + if c then [j.row] else []) == multiset(rows) + When(c, RowOf(j))
  {
  }

  function BareRows(answers: Answers, jobs: seq<Job>): seq<Row> {
    if jobs == [] then []
    else
      var j := jobs[|jobs| - 1];
      BareRows(answers, jobs[..|jobs| - 1]) + if LosesFindings(answers, j) then [j.row] else []
  }

  /* ---- the loop body as a run ---- */

  lemma TryAgain(b: Buffer, s: Sys)
    requires s.worker.Busy? && !s.worker.phase.NoWrite? && s.worker.attempt < WRITE_ATTEMPTS
    ensures Enabled(b, s, Try(false))
    ensures var w := s.worker;
            Apply(b, s, Try(false)) ==
              s.(worker := Busy(w.job, w.phase, w.attempt + 1),
                 tries := s.tries + When(w.phase.DecisionWrite?, RowOf(w.job)))
  {
    var t := Apply(b, s, Try(false));
    assert t.queue == s.queue && t.sent == s.sent && t.processed == s.processed && t.markers == s.markers;
  }

  // The steps of one retry loop, without its last attempt.
  function Failures(answers: Answers, j: Job, phase: Phase, from: nat): seq<Step>
    requires 1 <= from <= WRITE_ATTEMPTS
    decreases WRITE_ATTEMPTS - from
  {
    if from >= WRITE_ATTEMPTS || answers(j, phase, from) then []
    else [Try(false)] + Failures(answers, j, phase, from + 1)
  }

  ghost predicate SameButTries(s: Sys, t: Sys) { t == s.(worker := t.worker, tries := t.tries) }

  lemma {:induction false} RetryIsARun(b: Buffer, s: Sys, answers: Answers)
    requires s.worker.Busy? && !s.worker.phase.NoWrite? && 1 <= s.worker.attempt <= WRITE_ATTEMPTS
    ensures var w := s.worker;
            var steps := Failures(answers, w.job, w.phase, w.attempt);
            && Run(b, s, steps)
            && SameButTries(s, Final(b, s, steps))
            && Final(b, s, steps).worker == Busy(w.job, w.phase, Attempts(answers, w.job, w.phase, w.attempt))
    decreases WRITE_ATTEMPTS - s.worker.attempt
  {
    var w := s.worker;
    var steps := Failures(answers, w.job, w.phase, w.attempt);
    if w.attempt < WRITE_ATTEMPTS && !answers(w.job, w.phase, w.attempt) {
      TryAgain(b, s);
      var t := Apply(b, s, Try(false));
      RetryIsARun(b, t, answers);
      assert steps[1..] == Failures(answers, w.job, w.phase, w.attempt + 1);
    }
  }

  lemma {:induction false} RunsOn(b: Buffer, s: Sys, first: seq<Step>, second: seq<Step>)
    requires Run(b, s, first) && Run(b, Final(b, s, first), second)
    ensures Run(b, s, first + second)
    ensures Final(b, s, first + second) == Final(b, Final(b, s, first), second)
    decreases |first|
  {
    if first == [] {
      assert [] + second == second;
    } else {
      var all := first + second;
      assert all[0] == first[0] && all[1..] == first[1..] + second;
      RunsOn(b, Apply(b, s, first[0]), first[1..], second);
    }
  }

  lemma RunsOne(b: Buffer, s: Sys, step: Step)
    requires Enabled(b, s, step)
    ensures Run(b, s, [step]) && Final(b, s, [step]) == Apply(b, s, step)
  {
    assert [step][1..] == [];
  }

  // The whole retry loop: its failures and the attempt it ends with.
  lemma WriteIsARun(b: Buffer, s: Sys, answers: Answers) returns (steps: seq<Step>, t: Sys)
    requires s.worker.Busy? && !s.worker.phase.NoWrite? && s.worker.attempt == 1
    ensures Run(b, s, steps)
    ensures var w := s.worker;
            && SameButTries(s, t)
            && t.worker == Busy(w.job, w.phase, Attempts(answers, w.job, w.phase, 1))
            && Final(b, s, steps) == Apply(b, t, Try(Succeeds(answers, w.job, w.phase)))
  {
    var w := s.worker;
    var failures := Failures(answers, w.job, w.phase, 1);
    RetryIsARun(b, s, answers);
    t := Final(b, s, failures);
    RunsOne(b, t, Try(Succeeds(answers, w.job, w.phase)));
    RunsOn(b, s, failures, [Try(Succeeds(answers, w.job, w.phase))]);
    steps := failures + [Try(Succeeds(answers, w.job, w.phase))];
  }

  // The state once the worker is done with j, having made these attempts.
  ghost predicate Settles(s: Sys, t: Sys, answers: Answers, j: Job) {
    t == s.(worker := Ready,
            markers := s.markers + MarkersIn([j]),
            processed := s.processed + [j],
            written := s.written + When(Writes(answers, j), RowOf(j)),
            dropped := s.dropped + When(Loses(answers, j), RowOf(j)),
            bare := s.bare + When(LosesFindings(answers, j), RowOf(j)),
            tries := t.tries)
  }

  lemma NoMarker(j: Job)
    ensures MarkersIn([j]) == if j.Marker? then {j.k} else {}
  {
  }

  lemma LastDecisionTry(b: Buffer, s: Sys, ok: bool)
    requires s.worker.Busy? && s.worker.phase.DecisionWrite? && s.worker.job.Decided?
        && (ok || s.worker.attempt == WRITE_ATTEMPTS)
    ensures var j := s.worker.job;
            var more := ok && j.findings != [];
            Apply(b, s, Try(ok)) ==
              s.(worker := if more then Busy(j, FindingsWrite, 1) else Ready,
                 processed := if more then s.processed else s.processed + [j],
                 written := s.written + When(ok, RowOf(j)),
                 dropped := s.dropped + When(!ok, RowOf(j)),
                 tries := s.tries + RowOf(j))
  {
    var t := Apply(b, s, Try(ok));
    assert t.queue == s.queue && t.sent == s.sent && t.markers == s.markers;
    assert s.processed + [] == s.processed;
  }

  lemma LastOtherTry(b: Buffer, s: Sys, ok: bool)
    requires s.worker.Busy? && (s.worker.phase.FindingsWrite? || s.worker.phase.AliasWrite?) && !s.worker.job.Marker?
    requires ok || s.worker.attempt == WRITE_ATTEMPTS
    ensures var j := s.worker.job;
            Apply(b, s, Try(ok)) ==
              s.(worker := Ready, processed := s.processed + [j],
                 bare := s.bare + When(!ok && s.worker.phase.FindingsWrite?, RowOf(j)))
  {
    var t := Apply(b, s, Try(ok));
    assert t.queue == s.queue && t.sent == s.sent && t.markers == s.markers;
  }

  lemma DecisionIsARun(b: Buffer, s: Sys, answers: Answers, j: Job) returns (steps: seq<Step>)
    requires s.worker == Start(b, j) && j.Decided?
    ensures Run(b, s, steps) && Settles(s, Final(b, s, steps), answers, j)
  {
    NoMarker(j);
    var t;
    steps, t := WriteIsARun(b, s, answers);
    LastDecisionTry(b, t, Succeeds(answers, j, DecisionWrite));
    if Writes(answers, j) && j.findings != [] {
      var u := Apply(b, t, Try(true));
      var more, v := WriteIsARun(b, u, answers);
      LastOtherTry(b, v, Succeeds(answers, j, FindingsWrite));
      RunsOn(b, s, steps, more);
      steps := steps + more;
    }
  }

  lemma AliasIsARun(b: Buffer, s: Sys, answers: Answers, j: Job) returns (steps: seq<Step>)
    requires s.worker == Start(b, j) && j.Aliased? && b.writesAliases
    ensures Run(b, s, steps) && Settles(s, Final(b, s, steps), answers, j)
  {
    NoMarker(j);
    var t;
    steps, t := WriteIsARun(b, s, answers);
    LastOtherTry(b, t, Succeeds(answers, j, AliasWrite));
  }

  /** One pass of the worker's loop is a run of the transition system, and leaves in it exactly the rows,
      reports and markers that Process leaves behind. */
  lemma ProcessIsARun(b: Buffer, s: Sys, answers: Answers, j: Job) returns (steps: seq<Step>)
    requires s.worker == Start(b, j)
    ensures Run(b, s, steps) && Settles(s, Final(b, s, steps), answers, j)
  {
    if j.Decided? {
      steps := DecisionIsARun(b, s, answers, j);
    } else if j.Aliased? && b.writesAliases {
      steps := AliasIsARun(b, s, answers, j);
    } else {
      NoMarker(j);
      steps := [Finish];
      RunsOne(b, s, Finish);
      assert s.queue + [] == s.queue && s.sent + [] == s.sent;
    }
  }
}
