/** The audit buffer (internal/audit/buffer.go) as a transition system: producers that never block, one
    worker that writes with bounded retries, flush markers and a close that drains. */
module AuditBuffer {
  import opened Basics
  import opened PolicyEngine
  import opened GateHandler
  import opened IndexForward

  datatype Job = Decided(row: Row, findings: seq<Finding>) | Aliased(alias: Alias) | Marker(k: nat)

  datatype Phase = DecisionWrite | FindingsWrite | AliasWrite | NoWrite

  // Ready is the top of the loop; Waiting is parked in a receive on the empty channel.
  datatype Worker = Ready | Waiting | Busy(job: Job, phase: Phase, attempt: nat) | Stopped

  const WRITE_ATTEMPTS: nat := 3

  datatype Buffer = Buffer(capacity: nat, writesAliases: bool)

  datatype Sys = Sys(
    queue: seq<Job>,
    worker: Worker,
    closed: bool,
    markers: set<nat>,            // flush markers that were closed
    // History: what was accepted and what was finished, in order, and what became of each decision.
    sent: seq<Job>,
    processed: seq<Job>,
    recorded: multiset<Row>,      // every decision given to Record
    written: multiset<Row>,
    dropped: multiset<Row>,       // reported lost, the decision not written
    bare: multiset<Row>,          // reported lost, the decision written without its findings
    tries: multiset<Row>)         // attempts at writing a decision

  datatype Step =
    | Record(row: Row, findings: seq<Finding>)
    | RecordAlias(alias: Alias)
    | Flush                       // the marker is sent
    | Close
    | Park
    | Take
    | Try(ok: bool)
    | Finish                      // a marker, or an alias the writer cannot store
    | Stop

  function PhaseOf(b: Buffer, j: Job): Phase {
    match j
    case Decided(_, _) => DecisionWrite
    case Aliased(_) => if b.writesAliases then AliasWrite else NoWrite
    case Marker(_) => NoWrite
  }

  // A send goes to a parked worker, or into the buffer if there is room.
  predicate CanSend(b: Buffer, s: Sys) { s.worker.Waiting? || |s.queue| < b.capacity }

  predicate Enabled(b: Buffer, s: Sys, step: Step) {
    match step
    case Record(_, _) => !s.closed
    case RecordAlias(_) => !s.closed
    case Flush => !s.closed && CanSend(b, s)
    case Close => true
    case Park => s.worker.Ready? && s.queue == [] && !s.closed
    case Take => s.worker.Ready? && s.queue != []
    case Try(_) => s.worker.Busy? && !s.worker.phase.NoWrite?
    case Finish => s.worker.Busy? && s.worker.phase.NoWrite?
    case Stop => s.closed && s.queue == [] && (s.worker.Ready? || s.worker.Waiting?)
  }

  // What the step puts into the channel.
  function Accepted(b: Buffer, s: Sys, step: Step): seq<Job> {
    if !CanSend(b, s) then []
    else match step
      case Record(row, findings) => [Decided(row, findings)]
      case RecordAlias(alias) => [Aliased(alias)]
      case Flush => [Marker(|s.sent|)]
      case _ => []
  }

  function Start(b: Buffer, j: Job): Worker { Busy(j, PhaseOf(b, j), 1) }

  // The worker is done with its job after this step.
  predicate Completes(w: Worker, step: Step)
    requires w.Busy?
  {
    match step
    case Finish => true
    case Try(ok) =>
      if w.phase.DecisionWrite? then
        (if ok then w.job.Decided? && w.job.findings == [] else w.attempt >= WRITE_ATTEMPTS)
      else ok || w.attempt >= WRITE_ATTEMPTS
    case _ => false
  }

  function AfterTry(w: Worker, ok: bool): Worker
    requires w.Busy?
  {
    if Completes(w, Try(ok)) then Ready
    else if ok then Busy(w.job, FindingsWrite, 1)
    else Busy(w.job, w.phase, w.attempt + 1)
  }

  function NextWorker(b: Buffer, s: Sys, step: Step): Worker
    requires Enabled(b, s, step)
  {
    match step
    case Close => s.worker
    case Park => Waiting
    case Take => Start(b, s.queue[0])
    case Try(ok) => AfterTry(s.worker, ok)
    case Finish => Ready
    case Stop => Stopped
    case _ => if s.worker.Waiting? then Start(b, Accepted(b, s, step)[0]) else s.worker
  }

  function NextQueue(b: Buffer, s: Sys, step: Step): seq<Job>
    requires Enabled(b, s, step)
  {
    if step.Take? then s.queue[1..] else if s.worker.Waiting? then s.queue else s.queue + Accepted(b, s, step)
  }

  function Completed(s: Sys, step: Step): seq<Job> {
    if s.worker.Busy? && Completes(s.worker, step) then [s.worker.job] else []
  }

  predicate TriesDecision(s: Sys, step: Step) { step.Try? && s.worker.Busy? && s.worker.phase.DecisionWrite? }

  predicate LastTry(s: Sys,
        step: Step) { step.Try? && !step.ok && s.worker.Busy? && s.worker.attempt >= WRITE_ATTEMPTS }

  function When(c: bool, rows: multiset<Row>): multiset<Row> { if c then rows else multiset{} }

  function RowInHand(s: Sys): multiset<Row> { if s.worker.Busy? then RowOf(s.worker.job) else multiset{} }

  // Reported lost with the decision unwritten: the buffer was full, or the last try failed.
  function Lost(b: Buffer, s: Sys, step: Step): multiset<Row> {
    if step.Record? then When(!CanSend(b, s), multiset{step.row})
    else When(TriesDecision(s, step) && LastTry(s, step), RowInHand(s))
  }

  function AddedRows(step: Step): multiset<Row> { if step.Record? then multiset{step.row} else multiset{} }

  function WroteRows(s: Sys, step: Step): multiset<Row> { When(TriesDecision(s, step) && step.ok, RowInHand(s)) }

  function Apply(b: Buffer, s: Sys, step: Step): Sys
    requires Enabled(b, s, step)
  {
    Sys(
      NextQueue(b, s, step),
      NextWorker(b, s, step),
      s.closed || step.Close?,
      s.markers
        + (if s.worker.Busy? && Completes(s.worker, step) && s.worker.job.Marker? then {s.worker.job.k} else {}),
      s.sent + Accepted(b, s, step),
      s.processed + Completed(s, step),
      s.recorded + AddedRows(step),
      s.written + WroteRows(s, step),
      s.dropped + Lost(b, s, step),
      s.bare + When(LastTry(s, step) && s.worker.phase.FindingsWrite?, RowInHand(s)),
      s.tries + When(TriesDecision(s, step), RowInHand(s)))
  }

  const EMPTY: Sys := Sys([], Ready, false, {}, [], [], multiset{}, multiset{}, multiset{}, multiset{}, multiset{})

  /* ---- what every state keeps ---- */

  // The job in hand is of the kind its phase says, and within its attempts.
  predicate Matched(b: Buffer, w: Worker) {
    w.Busy? ==>
      && 1 <= w.attempt <= WRITE_ATTEMPTS
      && (w.phase.FindingsWrite? ==> w.job.Decided?)
      && (!w.phase.FindingsWrite? ==> w.phase == PhaseOf(b, w.job))
  }

  function RowOf(j: Job): multiset<Row> { if j.Decided? then multiset{j.row} else multiset{} }

  function Rows(jobs: seq<Job>): multiset<Row> {
    if jobs == [] then multiset{} else Rows(jobs[..|jobs| - 1]) + RowOf(jobs[|jobs| - 1])
  }

  lemma RowsSnoc(jobs: seq<Job>, j: Job)
    ensures Rows(jobs + [j]) == Rows(jobs) + RowOf(j)
  {
    assert (jobs + [j])[..|jobs|] == jobs;
  }

  lemma {:induction false} RowsHead(jobs: seq<Job>)
    requires jobs != []
    ensures Rows(jobs) == RowOf(jobs[0]) + Rows(jobs[1..])
  {
    var n := |jobs| - 1;
    if n > 0 {
      RowsHead(jobs[..n]);
      assert jobs[..n][1..] == jobs[1..][..n - 1];
      assert Rows(jobs[1..]) == Rows(jobs[1..][..n - 1]) + RowOf(jobs[n]);
    }
  }

  function InHand(w: Worker): seq<Job> { if w.Busy? then [w.job] else [] }

  // The decision in hand, while it is not written yet.
  function Unwritten(w: Worker): multiset<Row> {
    if w.Busy? && w.phase.DecisionWrite? then RowOf(w.job) else multiset{}
  }

  // Attempts already made at the decision in hand.
  function Spent(w: Worker, row: Row): nat {
    if w.Busy? && w.phase.DecisionWrite? && RowOf(w.job)[row] > 0 && w.attempt > 0 then w.attempt - 1 else 0
  }

  ghost predicate Conserved(s: Sys) {
    s.recorded == s.written + s.dropped + Rows(s.queue) + Unwritten(s.worker)
  }

  ghost predicate InOrder(s: Sys) {
    s.sent == s.processed + InHand(s.worker) + s.queue
  }

  ghost predicate Marked(s: Sys) {
    && (forall i :: 0 <= i < |s.sent| && s.sent[i].Marker? ==> s.sent[i].k == i)
    && (forall k :: k in s.markers ==> k < |s.processed|)
  }

  ghost predicate Bounded(s: Sys) {
    forall row :: s.tries[row] <= 3 * (s.written[row] + s.dropped[row]) + Spent(s.worker, row)
  }

  ghost predicate Tidy(b: Buffer, s: Sys) {
    && Matched(b, s.worker)
    && |s.queue| <= b.capacity
    && (s.worker.Waiting? || s.worker.Stopped? ==> s.queue == [])
    && (s.worker.Stopped? ==> s.closed)
  }

  ghost predicate Counted(b: Buffer, s: Sys) { Tidy(b, s) && Conserved(s) && Bounded(s) }

  ghost predicate Ordered(b: Buffer, s: Sys) { Tidy(b, s) && InOrder(s) && Marked(s) }

  lemma TidyStep(b: Buffer, s: Sys, step: Step)
    requires Tidy(b, s) && Enabled(b, s, step)
    ensures Tidy(b, Apply(b, s, step))
  {
  }

  lemma QueueRows(b: Buffer, s: Sys, step: Step)
    requires Tidy(b, s) && Enabled(b, s, step)
    ensures step.Take? ==> Rows(s.queue) == RowOf(s.queue[0]) + Rows(NextQueue(b, s, step))
    ensures !step.Take? && s.worker.Waiting? ==> NextQueue(b, s, step) == s.queue
    ensures !step.Take? && !s.worker.Waiting? ==>
              Rows(NextQueue(b, s, step)) == Rows(s.queue)
                  + if Accepted(b, s, step) == [] then multiset{} else RowOf(Accepted(b, s, step)[0])
  {
    if step.Take? {
      RowsHead(s.queue);
    } else if Accepted(b, s, step) == [] {
      assert s.queue + [] == s.queue;
    } else {
      RowsSnoc(s.queue, Accepted(b, s, step)[0]);
    }
  }

  // What comes in and what was waiting is what goes out and what is waiting now.
  lemma SendBalances(b: Buffer, s: Sys, step: Step, row: Row)
    requires Tidy(b, s) && Enabled(b, s, step) && (step.Record? || step.RecordAlias? || step.Flush?)
    ensures AddedRows(step)[row] + Rows(s.queue)[row] + Unwritten(s.worker)[row] ==
            WroteRows(s, step)[row] + Lost(b, s, step)[row] + Rows(NextQueue(b, s, step))[row]
            + Unwritten(NextWorker(b, s, step))[row]
  {
    QueueRows(b, s, step);
  }

  lemma TakeBalances(b: Buffer, s: Sys, row: Row)
    requires Tidy(b, s) && Enabled(b, s, Take)
    ensures Rows(s.queue)[row] == Rows(NextQueue(b, s, Take))[row] + Unwritten(NextWorker(b, s, Take))[row]
  {
    QueueRows(b, s, Take);
  }

  lemma TryBalances(b: Buffer, s: Sys, step: Step, row: Row)
    requires Matched(b, s.worker) && s.worker.Busy? && !s.worker.phase.NoWrite? && step.Try?
    ensures Unwritten(s.worker)[row] ==
        WroteRows(s, step)[row] + Lost(b, s, step)[row] + Unwritten(AfterTry(s.worker, step.ok))[row]
  {
  }

  lemma TurnBalances(b: Buffer, s: Sys, step: Step, row: Row)
    requires Tidy(b, s) && Enabled(b, s, step) && !(step.Record? || step.RecordAlias? || step.Flush?)
    ensures AddedRows(step)[row] + Rows(s.queue)[row] + Unwritten(s.worker)[row] ==
            WroteRows(s, step)[row] + Lost(b, s, step)[row] + Rows(NextQueue(b, s, step))[row]
            + Unwritten(NextWorker(b, s, step))[row]
  {
    if step.Take? {
      TakeBalances(b, s, row);
    } else {
      assert s.queue + [] == s.queue;
      if step.Try? {
        TryBalances(b, s, step, row);
      }
    }
  }

  lemma StepBalances(b: Buffer, s: Sys, step: Step, row: Row)
    requires Tidy(b, s) && Enabled(b, s, step)
    ensures AddedRows(step)[row] + Rows(s.queue)[row] + Unwritten(s.worker)[row] ==
            WroteRows(s, step)[row] + Lost(b, s, step)[row] + Rows(NextQueue(b, s, step))[row]
            + Unwritten(NextWorker(b, s, step))[row]
  {
    if step.Record? || step.RecordAlias? || step.Flush? {
      SendBalances(b, s, step, row);
    } else {
      TurnBalances(b, s, step, row);
    }
  }

  lemma Rebalance(recorded: multiset<Row>, written: multiset<Row>, dropped: multiset<Row>, left: multiset<Row>,
        hand: multiset<Row>,
                  added: multiset<Row>, wrote: multiset<Row>, lost: multiset<Row>,
                  left1: multiset<Row>, hand1: multiset<Row>)
    requires recorded == written + dropped + left + hand
    requires forall row :: added[row] + left[row] + hand[row] == wrote[row] + lost[row] + left1[row] + hand1[row]
    ensures recorded + added == (written + wrote) + (dropped + lost) + left1 + hand1
  {
    forall row ensures (recorded + added)[row] == ((written + wrote) + (dropped + lost) + left1 + hand1)[row] {
      assert added[row] + left[row] + hand[row] == wrote[row] + lost[row] + left1[row] + hand1[row];
    }
  }

  lemma ConservedStep(b: Buffer, s: Sys, step: Step)
    requires Tidy(b, s) && Conserved(s) && Enabled(b, s, step)
    ensures Conserved(Apply(b, s, step))
  {
    var added, wrote, lost := AddedRows(step), WroteRows(s, step), Lost(b, s, step);
    var left, hand := Rows(s.queue), Unwritten(s.worker);
    var left1, hand1 := Rows(NextQueue(b, s, step)), Unwritten(NextWorker(b, s, step));
    forall row ensures added[row] + left[row] + hand[row] == wrote[row] + lost[row] + left1[row] + hand1[row] {
      StepBalances(b, s, step, row);
    }
    Rebalance(s.recorded, s.written, s.dropped, left, hand, added, wrote, lost, left1, hand1);
  }

  lemma InOrderSend(b: Buffer, s: Sys, step: Step)
    requires Tidy(b, s) && InOrder(s) && Enabled(b, s, step) && (step.Record? || step.RecordAlias? || step.Flush?)
    ensures InOrder(Apply(b, s, step))
  {
    var t := Apply(b, s, step);
    var added := Accepted(b, s, step);
    assert t.processed == s.processed + [] == s.processed;
    if s.worker.Waiting? {
      assert s.sent == s.processed && InHand(t.worker) == added;
    } else {
      assert s.processed + InHand(s.worker) + s.queue + added == s.processed + InHand(s.worker) + (s.queue + added);
    }
  }

  lemma InOrderDone(b: Buffer, s: Sys, step: Step)
    requires Tidy(b, s) && InOrder(s) && Enabled(b, s, step) && (step.Try? || step.Finish?)
    ensures InOrder(Apply(b, s, step))
  {
    var t := Apply(b, s, step);
    assert t.sent == s.sent + [] == s.sent && t.queue == s.queue + [] == s.queue;
    if Completes(s.worker, step) {
      assert s.processed + [s.worker.job] == s.processed + [s.worker.job] + [];
    } else {
      assert t.processed == s.processed + [] == s.processed;
    }
  }

  lemma InOrderTurn(b: Buffer, s: Sys, step: Step)
    requires Tidy(b, s) && InOrder(s) && Enabled(b, s, step) && (step.Take? || step.Park? || step.Stop? || step.Close?)
    ensures InOrder(Apply(b, s, step))
  {
    var t := Apply(b, s, step);
    assert t.sent == s.sent + [] == s.sent && t.processed == s.processed + [] == s.processed;
    if step.Take? {
      assert s.queue == [s.queue[0]] + s.queue[1..];
      assert s.processed + [] + s.queue == s.processed + [s.queue[0]] + s.queue[1..];
    } else {
      assert t.queue == s.queue + [] == s.queue;
    }
  }

  lemma InOrderStep(b: Buffer, s: Sys, step: Step)
    requires Tidy(b, s) && InOrder(s) && Enabled(b, s, step)
    ensures InOrder(Apply(b, s, step))
  {
    if step.Record? || step.RecordAlias? || step.Flush? {
      InOrderSend(b, s, step);
    } else if step.Try? || step.Finish? {
      InOrderDone(b, s, step);
    } else {
      InOrderTurn(b, s, step);
    }
  }

  lemma MarkersSent(b: Buffer, s: Sys, step: Step)
    requires Marked(s) && Enabled(b, s, step)
    ensures var t := Apply(b, s, step); forall i :: 0 <= i < |t.sent| && t.sent[i].Marker? ==> t.sent[i].k == i
  {
    var added := Accepted(b, s, step);
    assert |added| <= 1;
    forall i | 0 <= i < |s.sent + added| && (s.sent + added)[i].Marker? ensures (s.sent + added)[i].k == i {
      if i < |s.sent| { assert (s.sent + added)[i] == s.sent[i]; }
    }
  }

  lemma MarkersClosed(b: Buffer, s: Sys, step: Step)
    requires InOrder(s) && Marked(s) && Enabled(b, s, step)
    ensures var t := Apply(b, s, step); forall k :: k in t.markers ==> k < |t.processed|
  {
    if s.worker.Busy? { assert s.sent[|s.processed|] == s.worker.job; }
  }

  lemma MarkedStep(b: Buffer, s: Sys, step: Step)
    requires InOrder(s) && Marked(s) && Enabled(b, s, step)
    ensures Marked(Apply(b, s, step))
  {
    MarkersSent(b, s, step);
    MarkersClosed(b, s, step);
  }

  lemma BoundedStep(b: Buffer, s: Sys, step: Step)
    requires Matched(b, s.worker) && Bounded(s) && Enabled(b, s, step)
    ensures Bounded(Apply(b, s, step))
  {
    var t := Apply(b, s, step);
    forall row ensures t.tries[row] <= 3 * (t.written[row] + t.dropped[row]) + Spent(t.worker, row) {
      assert s.tries[row] <= 3 * (s.written[row] + s.dropped[row]) + Spent(s.worker, row);
    }
  }

  /* ---- runs ---- */

  ghost predicate Run(b: Buffer, s: Sys, steps: seq<Step>)
    decreases |steps|
  {
    steps == [] || (Enabled(b, s, steps[0]) && Run(b, Apply(b, s, steps[0]), steps[1..]))
  }

  ghost function Final(b: Buffer, s: Sys, steps: seq<Step>): Sys
    requires Run(b, s, steps)
    decreases |steps|
  {
    if steps == [] then s else Final(b, Apply(b, s, steps[0]), steps[1..])
  }

  lemma {:induction false} RunCounted(b: Buffer, s: Sys, steps: seq<Step>)
    requires Counted(b, s) && Run(b, s, steps)
    ensures Counted(b, Final(b, s, steps))
    decreases |steps|
  {
    if steps != [] {
      TidyStep(b, s, steps[0]);
      ConservedStep(b, s, steps[0]);
      BoundedStep(b, s, steps[0]);
      RunCounted(b, Apply(b, s, steps[0]), steps[1..]);
    }
  }

  lemma {:induction false} RunOrdered(b: Buffer, s: Sys, steps: seq<Step>)
    requires Ordered(b, s) && Run(b, s, steps)
    ensures Ordered(b, Final(b, s, steps))
    decreases |steps|
  {
    if steps != [] {
      TidyStep(b, s, steps[0]);
      InOrderStep(b, s, steps[0]);
      MarkedStep(b, s, steps[0]);
      RunOrdered(b, Apply(b, s, steps[0]), steps[1..]);
    }
  }

  lemma {:induction false} RunGrows(b: Buffer, s: Sys, steps: seq<Step>)
    requires Run(b, s, steps)
    ensures s.sent <= Final(b, s, steps).sent
    decreases |steps|
  {
    if steps != [] { RunGrows(b, Apply(b, s, steps[0]), steps[1..]); }
  }

  /** At every moment of every run, each decision ever given to Record was written, was reported lost, waits
      in the buffer, or is in the worker's hand; and no decision was tried more often than the bound. */
  lemma AuditConservation(b: Buffer, steps: seq<Step>)
    requires Run(b, EMPTY, steps)
    ensures var s := Final(b, EMPTY, steps);
            && s.recorded == s.written + s.dropped + Rows(s.queue) + Unwritten(s.worker)
            && forall row :: s.tries[row] <= 3 * s.recorded[row]
  {
    RunCounted(b, EMPTY, steps);
    var s := Final(b, EMPTY, steps);
    forall row ensures s.tries[row] <= 3 * s.recorded[row] {
      assert s.recorded[row] == s.written[row] + s.dropped[row] + Rows(s.queue)[row] + Unwritten(s.worker)[row];
    }
  }

  /** A flush that returns through its marker has waited for everything accepted before it. */
  lemma FlushMeansProcessed(b: Buffer, s: Sys, steps: seq<Step>)
    requires Ordered(b, s) && Enabled(b, s, Flush) && Run(b, Apply(b, s, Flush), steps)
    ensures |s.sent| in Final(b, Apply(b, s, Flush), steps).markers ==>
        s.sent <= Final(b, Apply(b, s, Flush), steps).processed
  {
    var s1 := Apply(b, s, Flush);
    TidyStep(b, s, Flush);
    InOrderStep(b, s, Flush);
    MarkedStep(b, s, Flush);
    RunOrdered(b, s1, steps);
    RunGrows(b, s1, steps);
    ProcessedPast(b, Final(b, s1, steps), s.sent, s1.sent);
  }

  lemma ProcessedPast(b: Buffer, t: Sys, before: seq<Job>, since: seq<Job>)
    requires Ordered(b, t) && before <= since <= t.sent
    ensures |before| in t.markers ==> before <= t.processed
  {
    assert t.processed == t.sent[..|t.processed|];
    assert before == t.sent[..|before|];
  }

  /** Once Close has returned nothing is queued: everything accepted was processed, and every decision was
      written or reported lost. */
  lemma CloseMeansDrained(b: Buffer, steps: seq<Step>)
    requires Run(b, EMPTY, steps) && Final(b, EMPTY, steps).worker.Stopped?
    ensures var s := Final(b, EMPTY, steps);
            s.queue == [] && s.processed == s.sent && s.recorded == s.written + s.dropped
  {
    RunOrdered(b, EMPTY, steps);
    RunCounted(b, EMPTY, steps);
  }

  /* ---- Close returns ---- */

  function Left(w: Worker): int {
    match w
    case Stopped => 0
    case Busy(_, DecisionWrite, attempt) => 8 - attempt
    case Busy(_, NoWrite, _) => 2
    case Busy(_, _, attempt) => 5 - attempt
    case _ => 1
  }

  function Work(s: Sys): int { 8 * |s.queue| + Left(s.worker) }

  predicate OfWorker(step: Step) { step.Take? || step.Try? || step.Finish? || step.Stop? }

  lemma WorkGoesDown(b: Buffer, s: Sys, step: Step)
    requires Tidy(b, s) && Enabled(b, s, step) && OfWorker(step)
    ensures 0 <= Work(Apply(b, s, step)) < Work(s)
  {
  }

  /** After Close the worker is never stuck before it stops, and stops within 8 steps a queued job and 8
      more, however many writes fail. */
  lemma {:induction false} CloseReturns(b: Buffer, s: Sys, steps: seq<Step>)
    requires Tidy(b, s) && s.closed && Run(b, s, steps) && forall step :: step in steps ==> OfWorker(step)
    ensures |steps| <= Work(s) <= 8 * |s.queue| + 8
    ensures !Final(b, s, steps).worker.Stopped? ==>
        exists step :: OfWorker(step) && Enabled(b, Final(b, s, steps), step)
    decreases |steps|
  {
    if steps == [] {
      if s.worker.Busy? {
        assert Enabled(b, s, if s.worker.phase.NoWrite? then Finish else Try(true));
      } else if !s.worker.Stopped? {
        assert Enabled(b, s, if s.queue != [] then Take else Stop);
      }
    } else {
      TidyStep(b, s, steps[0]);
      WorkGoesDown(b, s, steps[0]);
      CloseReturns(b, Apply(b, s, steps[0]), steps[1..]);
    }
  }
}
