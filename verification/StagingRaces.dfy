/** Completions and cleanups interleaved call by call (internal/staging/staging.go and assemble.go): any
    number of them in flight, each backend call one step. Which step leaves a counted digest without its
    blob, and when none does. */
module StagingRaces {
  import opened Basics
  import opened Digests
  import opened StagingSpec

  // What comes next for one request or worker.
  datatype Pc =
    | Idle
    | Verified(id: string, digest: string, all: Bytes)   // Put
    | Stored(id: string, digest: string)                 // MarkComplete
    | Flagged(id: string, digest: string)                // IncBlobRef
    | Complete(id: string)                               // the upload's bytes and session
    | Releasing(todo: seq<string>)                       // DecBlobRef of the first
    | Zeroed(digest: string, rest: seq<string>)          // Delete

  // own marks the push being watched.
  datatype Task = Task(own: bool, pc: Pc)

  datatype Sys = Sys(b: Backends, tasks: seq<Task>)

  // The counts taken and not yet released, for the watched push and for all others. A count whose reply
  // was lost is nobody's and stands with the others.
  datatype Ledger = Ledger(mine: multiset<string>, others: multiset<string>)

  datatype Step =
    | Verify(k: nat, own: bool, id: string, digest: string, all: Bytes)
    | Put(k: nat, call: Call)
    | Mark(k: nat, call: Call)
    | Inc(k: nat, call: Call)
    | Retire(k: nat, delete: Call, clear: Call)
    | Release(k: nat, own: bool, digests: seq<string>)
    | Dec(k: nat, call: Call)
    | Delete(k: nat, call: Call)
    | Finish(k: nat)
    | Die(k: nat)                     // the process goes; what it had done stays
    | Elsewhere(b: Backends)          // uploads and flags: no blob and no counter changes

  ghost predicate SameBlobs(a: Backends, b: Backends) {
    a.refs == b.refs && forall d :: (BlobKey(d) in a.data <==> BlobKey(d) in b.data)
                                    && (BlobKey(d) in a.data ==> a.data[BlobKey(d)] == b.data[BlobKey(d)])
  }

  ghost predicate Enabled(h: Hash, s: Sys, step: Step) {
    if step.Elsewhere? then SameBlobs(s.b, step.b)
    else step.k < |s.tasks| && CanStep(h, s.tasks[step.k].pc, step)
  }

  predicate CanStep(h: Hash, pc: Pc, step: Step) {
    match step
    case Verify(_, _, _, digest, all) => pc.Idle? && Matches(h, all, digest)
    case Put(_, _) => pc.Verified?
    case Mark(_, _) => pc.Stored?
    case Inc(_, _) => pc.Flagged?
    case Retire(_, _, _) => pc.Complete?
    case Release(_, _, _) => pc.Idle?
    case Dec(_, _) => pc.Releasing? && pc.todo != []
    case Delete(_, _) => pc.Zeroed?
    case Finish(_) => pc == Releasing([])
    case Die(_) => true
    case Elsewhere(_) => false
  }

  function OnBackends(b: Backends, pc: Pc, step: Step): Backends {
    match step
    case Put(_, call) => if pc.Verified? then PutIf(b, call.Took(), BlobKey(pc.digest), pc.all) else b
    case Mark(_, call) => if pc.Stored? && call.Took() then b.(complete := b.complete + {pc.digest}) else b
    case Inc(_, call) => if pc.Flagged? && call.Took() then IncRef(b, pc.digest) else b
    case Retire(_, delete, clear) => if pc.Complete? then Abandon(b, pc.id, delete, clear) else b
    case Dec(_, call) => if pc.Releasing? && pc.todo != [] && call.Took() then DecRef(b, pc.todo[0]).0 else b
    case Delete(_, call) => if pc.Zeroed? then DeleteIf(b, call.Took(), BlobKey(pc.digest)) else b
    case Elsewhere(b1) => b1
    case _ => b
  }

  // A completion stops at a call that fails; a cleanup goes on to the next digest.
  function NextPc(b: Backends, pc: Pc, step: Step): Pc {
    match step
    case Verify(_, _, id, digest, all) => Verified(id, digest, all)
    case Put(_, call) => if pc.Verified? && call.Works? then Stored(pc.id, pc.digest) else Idle
    case Mark(_, call) => if pc.Stored? && call.Works? then Flagged(pc.id, pc.digest) else Idle
    case Inc(_, call) => if pc.Flagged? && call.Works? then Complete(pc.id) else Idle
    case Release(_, _, digests) => Releasing(digests)
    case Dec(_, call) =>
      if !pc.Releasing? || pc.todo == [] then Idle
      else if call.Works? && DecRef(b, pc.todo[0]).1 == Some(0) then Zeroed(pc.todo[0], pc.todo[1..])
      else Releasing(pc.todo[1..])
    case Delete(_, _) => if pc.Zeroed? then Releasing(pc.rest) else Idle
    case _ => Idle
  }

  function NextTask(s: Sys, step: Step): Task
    requires !step.Elsewhere? && step.k < |s.tasks|
  {
    var me := s.tasks[step.k];
    Task(if step.Verify? || step.Release? then step.own else me.own, NextPc(s.b, me.pc, step))
  }

  // The digest a step counts, and the one it takes off a counter that is there.
  function Counts(s: Sys, step: Step): multiset<string> {
    if step.Inc? && step.k < |s.tasks| && s.tasks[step.k].pc.Flagged? && step.call.Took()
    then multiset{s.tasks[step.k].pc.digest} else multiset{}
  }

  function Uncounts(s: Sys, step: Step): multiset<string> {
    if step.Dec? && step.k < |s.tasks| && s.tasks[step.k].pc.Releasing?
       && s.tasks[step.k].pc.todo != [] && step.call.Took()
       && s.tasks[step.k].pc.todo[0] in s.b.refs
    then multiset{s.tasks[step.k].pc.todo[0]} else multiset{}
  }

  predicate Own(s: Sys, step: Step) { !step.Elsewhere? && step.k < |s.tasks| && s.tasks[step.k].own }

  function Book(s: Sys, l: Ledger, step: Step): Ledger {
    var toMine := step.Inc? && step.call.Works? && Own(s, step);
    Ledger(
      if toMine then l.mine + Counts(s, step) else if Own(s, step) then l.mine - Uncounts(s, step) else l.mine,
      if step.Inc? && !toMine then l.others + Counts(s, step)
      else if Own(s, step) then l.others else l.others - Uncounts(s, step))
  }

  ghost function Apply(h: Hash, s: Sys, step: Step): Sys
    requires Enabled(h, s, step)
  {
    if step.Elsewhere? then Sys(step.b, s.tasks)
    else Sys(OnBackends(s.b, s.tasks[step.k].pc, step), s.tasks[step.k := NextTask(s, step)])
  }

  /* ---- the exact step that breaks a digest ---- */

  predicate Here(s: Sys, d: string) { BlobKey(d) in s.b.data }

  predicate Counted(s: Sys, d: string) { d in s.b.refs }

  // Counted, so that nobody cleans it up and every push of it is told it is complete, and not there.
  predicate Broken(s: Sys, d: string) { Counted(s, d) && !Here(s, d) }

  // A cleanup deletes a blob that has been counted again since its decrement to zero.
  predicate LateDelete(s: Sys, step: Step, d: string) {
    && step.Delete? && step.call.Took() && step.k < |s.tasks|
    && s.tasks[step.k].pc.Zeroed? && s.tasks[step.k].pc.digest == d && Counted(s, d)
  }

  // A completion counts a blob that has been deleted since it was stored.
  predicate LateCount(s: Sys, step: Step, d: string) {
    && step.Inc? && step.call.Took() && step.k < |s.tasks|
    && s.tasks[step.k].pc.Flagged? && s.tasks[step.k].pc.digest == d && !Here(s, d)
  }

  predicate Breaks(s: Sys, step: Step, d: string) { LateDelete(s, step, d) || LateCount(s, step, d) }

  predicate Puts(pc: Pc, step: Step, d: string) { step.Put? && pc.Verified? && step.call.Took() && pc.digest == d }

  predicate Deletes(pc: Pc, step: Step, d: string) { step.Delete? && pc.Zeroed? && step.call.Took() && pc.digest == d }

  predicate CountsUp(pc: Pc, step: Step, d: string) { step.Inc? && pc.Flagged? && step.call.Took() && pc.digest == d }

  predicate CountsOut(b: Backends, pc: Pc, step: Step, d: string) {
    step.Dec? && pc.Releasing? && pc.todo != [] && pc.todo[0] == d && step.call.Took() && d in b.refs && b.refs[d] <= 1
  }

  // One call changes whether a blob is there only by a Put or a Delete of it.
  lemma HereAfter(b: Backends, pc: Pc, step: Step, d: string)
    requires !step.Elsewhere?
    ensures BlobKey(d) in OnBackends(b, pc, step).data <==>
            Puts(pc, step, d) || (BlobKey(d) in b.data && !Deletes(pc, step, d))
  {
  }

  // And whether it is counted only by its count or the last decrement.
  lemma CountedAfter(b: Backends, pc: Pc, step: Step, d: string)
    requires !step.Elsewhere?
    ensures d in OnBackends(b, pc, step).refs <==>
            CountsUp(pc, step, d) || (d in b.refs && !CountsOut(b, pc, step, d))
  {
  }

  // Between the Put and the count.
  predicate InCompletion(pc: Pc, d: string) { (pc.Stored? || pc.Flagged?) && pc.digest == d }

  // Between the decrement to zero and the delete.
  predicate InDrop(pc: Pc, d: string) { pc.Zeroed? && pc.digest == d }

  // A task gets between its Put and its count, or between its decrement and its delete, only by that call.
  lemma PcAfter(b: Backends, pc: Pc, step: Step, d: string)
    requires !step.Elsewhere?
    ensures var next := NextPc(b, pc, step);
            && (InCompletion(next, d) && !InCompletion(pc, d) ==> Puts(pc, step, d))
            && (InDrop(next, d) && !InDrop(pc, d) ==> CountsOut(b, pc, step, d))
  {
  }

  lemma ElsewhereKeeps(h: Hash, s: Sys, step: Step, d: string)
    requires Enabled(h, s, step) && step.Elsewhere?
    ensures Here(Apply(h, s, step), d) == Here(s, d) && Counted(Apply(h, s, step), d) == Counted(s, d)
    ensures Apply(h, s, step).tasks == s.tasks
  {
  }

  lemma BreaksCall(b: Backends, pc: Pc, step: Step, d: string)
    requires !step.Elsewhere? && (d in b.refs ==> BlobKey(d) in b.data)
    ensures var b1 := OnBackends(b, pc, step);
            d in b1.refs && BlobKey(d) !in b1.data <==>
            (Deletes(pc, step, d) && d in b.refs) || (CountsUp(pc, step, d) && BlobKey(d) !in b.data)
  {
    HereAfter(b, pc, step, d);
    CountedAfter(b, pc, step, d);
  }

  /** In every state and for every step of any interleaving: a digest that is not broken is left counted and
      without its blob exactly by a late delete or by a late count. */
  lemma BreaksExactly(h: Hash, s: Sys, step: Step, d: string)
    requires Enabled(h, s, step) && !Broken(s, d)
    ensures Broken(Apply(h, s, step), d) <==> Breaks(s, step, d)
  {
    if step.Elsewhere? {
      ElsewhereKeeps(h, s, step, d);
    } else {
      BreaksCall(s.b, s.tasks[step.k].pc, step, d);
    }
  }

  ghost predicate Run(h: Hash, s: Sys, steps: seq<Step>)
    decreases |steps|
  {
    steps == [] || (Enabled(h, s, steps[0]) && Run(h, Apply(h, s, steps[0]), steps[1..]))
  }

  ghost function Final(h: Hash, s: Sys, steps: seq<Step>): Sys
    requires Run(h, s, steps)
    decreases |steps|
  {
    if steps == [] then s else Final(h, Apply(h, s, steps[0]), steps[1..])
  }

  ghost predicate WholeAlong(h: Hash, s: Sys, steps: seq<Step>, d: string)
    requires Run(h, s, steps)
    decreases |steps|
  {
    !Broken(s, d) && (steps != [] ==> WholeAlong(h, Apply(h, s, steps[0]), steps[1..], d))
  }

  ghost predicate NeverBreaks(h: Hash, s: Sys, steps: seq<Step>, d: string)
    requires Run(h, s, steps)
    decreases |steps|
  {
    steps == [] || (!Breaks(s, steps[0], d) && NeverBreaks(h, Apply(h, s, steps[0]), steps[1..], d))
  }

  /** Over runs: a digest is whole at every moment if and only if no such step is taken. */
  lemma {:induction false} WholeExactly(h: Hash, s: Sys, steps: seq<Step>, d: string)
    requires Run(h, s, steps) && !Broken(s, d)
    ensures WholeAlong(h, s, steps, d) <==> NeverBreaks(h, s, steps, d)
    decreases |steps|
  {
    if steps != [] {
      BreaksExactly(h, s, steps[0], d);
      if !Breaks(s, steps[0], d) { WholeExactly(h, Apply(h, s, steps[0]), steps[1..], d); }
    }
  }

  /* ---- when releases and completions of a digest do not overlap ---- */

  ghost predicate Overlap(s: Sys, d: string) {
    && (exists k :: 0 <= k < |s.tasks| && InCompletion(s.tasks[k].pc, d))
    && (exists k :: 0 <= k < |s.tasks| && InDrop(s.tasks[k].pc, d))
  }

  // What a completion in flight has stored is there, and what a cleanup is about to delete is uncounted.
  ghost predicate Whole(s: Sys, d: string) {
    && !Broken(s, d)
    && (forall k :: 0 <= k < |s.tasks| && InCompletion(s.tasks[k].pc, d) ==> Here(s, d))
    && (forall k :: 0 <= k < |s.tasks| && InDrop(s.tasks[k].pc, d) ==> !Counted(s, d))
  }

  // What one step does to one digest.
  lemma DigestStep(h: Hash, s: Sys, step: Step, d: string)
    requires Enabled(h, s, step) && !step.Elsewhere?
    ensures var t, pc := Apply(h, s, step), s.tasks[step.k].pc;
            && (Here(t, d) <==> Puts(pc, step, d) || (Here(s, d) && !Deletes(pc, step, d)))
            && (Counted(t, d) <==> CountsUp(pc, step, d) || (Counted(s, d) && !CountsOut(s.b, pc, step, d)))
  {
    HereAfter(s.b, s.tasks[step.k].pc, step, d);
    CountedAfter(s.b, s.tasks[step.k].pc, step, d);
  }

  // And to the tasks about it.
  lemma TaskStep(h: Hash, s: Sys, step: Step, d: string, k: nat)
    requires Enabled(h, s, step) && !step.Elsewhere? && k < |s.tasks|
    ensures var t, pc := Apply(h, s, step), s.tasks[step.k].pc;
            && |t.tasks| == |s.tasks|
            && (InCompletion(t.tasks[k].pc, d) && !InCompletion(s.tasks[k].pc, d) ==> Puts(pc, step, d))
            && (InDrop(t.tasks[k].pc, d) && !InDrop(s.tasks[k].pc, d) ==> CountsOut(s.b, pc, step, d))
  {
    PcAfter(s.b, s.tasks[step.k].pc, step, d);
  }

  lemma WholeStep(h: Hash, s: Sys, step: Step, d: string)
    requires Enabled(h, s, step) && Whole(s, d) && !Overlap(s, d)
    ensures Whole(Apply(h, s, step), d)
  {
    var t := Apply(h, s, step);
    BreaksExactly(h, s, step, d);
    if step.Elsewhere? {
      ElsewhereKeeps(h, s, step, d);
    } else {
      DigestStep(h, s, step, d);
      forall k | 0 <= k < |t.tasks| && InCompletion(t.tasks[k].pc, d) ensures Here(t, d) { TaskStep(h, s, step, d, k); }
      forall k | 0 <= k < |t.tasks| && InDrop(t.tasks[k].pc, d) ensures !Counted(t, d) { TaskStep(h, s, step, d, k); }
    }
  }

  ghost predicate NeverOverlaps(h: Hash, s: Sys, steps: seq<Step>, d: string)
    requires Run(h, s, steps)
    decreases |steps|
  {
    !Overlap(s, d) && (steps != [] ==> NeverOverlaps(h, Apply(h, s, steps[0]), steps[1..], d))
  }

  lemma {:induction false} RunWhole(h: Hash, s: Sys, steps: seq<Step>, d: string)
    requires Run(h, s, steps) && Whole(s, d) && NeverOverlaps(h, s, steps, d)
    ensures Whole(Final(h, s, steps), d) && NeverBreaks(h, s, steps, d)
    decreases |steps|
  {
    if steps != [] {
      WholeStep(h, s, steps[0], d);
      BreaksExactly(h, s, steps[0], d);
      RunWhole(h, Apply(h, s, steps[0]), steps[1..], d);
    }
  }

  /* ---- holds ---- */

  // The counters are the counts taken and not released.
  ghost predicate Booked(s: Sys, l: Ledger) {
    && (forall d :: d in s.b.refs <==> l.mine[d] + l.others[d] > 0)
    && (forall d :: d in s.b.refs ==> s.b.refs[d] == l.mine[d] + l.others[d])
  }

  // A cleanup takes off only what its own side holds.
  predicate Fair(s: Sys, l: Ledger, step: Step) { Uncounts(s, step) <= if Own(s, step) then l.mine else l.others }

  // One digest's count after one call.
  function CountOf(b: Backends, d: string): nat { if d in b.refs then b.refs[d] else 0 }

  ghost predicate CountersOk(b: Backends) { forall d :: d in b.refs ==> b.refs[d] > 0 }

  lemma CountAfter(b: Backends, pc: Pc, step: Step, d: string)
    requires !step.Elsewhere? && CountersOk(b)
    ensures CountOf(OnBackends(b, pc, step), d) ==
            if CountsUp(pc, step, d) then CountOf(b, d) + 1
            else if step.Dec? && pc.Releasing? && pc.todo != [] && pc.todo[0] == d && step.call.Took() && d in b.refs
            then CountOf(b, d) - 1
            else CountOf(b, d)
    ensures d in OnBackends(b, pc, step).refs ==> OnBackends(b, pc, step).refs[d] > 0
  {
  }

  lemma LedgerAfter(s: Sys, l: Ledger, step: Step, d: string)
    requires Fair(s, l, step)
    ensures var l1 := Book(s, l, step);
            l1.mine[d] + l1.others[d] == l.mine[d] + l.others[d] + Counts(s, step)[d] - Uncounts(s, step)[d]
  {
    assert Uncounts(s, step)[d] <= (if Own(s, step) then l.mine else l.others)[d];
  }

  lemma BookedDigest(h: Hash, s: Sys, l: Ledger, step: Step, d: string)
    requires Enabled(h, s, step) && Booked(s, l) && CountersOk(s.b) && Fair(s, l, step)
    ensures var t, l1 := Apply(h, s, step), Book(s, l, step);
            CountOf(t.b, d) == l1.mine[d] + l1.others[d] && (d in t.b.refs ==> t.b.refs[d] > 0)
  {
    LedgerAfter(s, l, step, d);
    assert CountOf(s.b, d) == l.mine[d] + l.others[d];
    if !step.Elsewhere? { CountAfter(s.b, s.tasks[step.k].pc, step, d); }
  }

  lemma BookedStep(h: Hash, s: Sys, l: Ledger, step: Step)
    requires Enabled(h, s, step) && Booked(s, l) && Fair(s, l, step)
    ensures Booked(Apply(h, s, step), Book(s, l, step))
  {
    var t, l1 := Apply(h, s, step), Book(s, l, step);
    forall d ensures CountOf(t.b, d) == l1.mine[d] + l1.others[d] && (d in t.b.refs ==> t.b.refs[d] > 0) {
      BookedDigest(h, s, l, step, d);
    }
  }

  ghost predicate FairRun(h: Hash, s: Sys, l: Ledger, steps: seq<Step>)
    requires Run(h, s, steps)
    decreases |steps|
  {
    steps == [] || (Fair(s, l, steps[0]) && FairRun(h, Apply(h, s, steps[0]), Book(s, l, steps[0]), steps[1..]))
  }

  ghost function Books(h: Hash, s: Sys, l: Ledger, steps: seq<Step>): Ledger
    requires Run(h, s, steps)
    decreases |steps|
  {
    if steps == [] then l else Books(h, Apply(h, s, steps[0]), Book(s, l, steps[0]), steps[1..])
  }

  lemma {:induction false} RunBooked(h: Hash, s: Sys, l: Ledger, steps: seq<Step>)
    requires Run(h, s, steps) && Booked(s, l) && FairRun(h, s, l, steps)
    ensures Booked(Final(h, s, steps), Books(h, s, l, steps))
    decreases |steps|
  {
    if steps != [] {
      BookedStep(h, s, l, steps[0]);
      RunBooked(h, Apply(h, s, steps[0]), Book(s, l, steps[0]), steps[1..]);
    }
  }

  ghost predicate Init(s: Sys) {
    s.b == EMPTY && forall k :: 0 <= k < |s.tasks| ==> s.tasks[k].pc.Idle?
  }

  const NOTHING_HELD := Ledger(multiset{}, multiset{})

  /** Any number of completions and cleanups interleaved call by call, with calls that fail, applied or not,
      and processes that die: if no cleanup of a digest stands between its decrement to zero and its delete
      while a completion of the same digest stands between its Put and its count, whatever the watched push
      still holds of that digest is there, and counted at least as often as the push holds it. */
  lemma HeldBlobsStay(h: Hash, s: Sys, steps: seq<Step>, d: string)
    requires Init(s) && Run(h, s, steps) && FairRun(h, s, NOTHING_HELD, steps) && NeverOverlaps(h, s, steps, d)
    ensures var t, l := Final(h, s, steps), Books(h, s, NOTHING_HELD, steps);
            && !Broken(t, d)
            && (l.mine[d] > 0 ==> Here(t, d) && Counted(t, d) && t.b.refs[d] >= l.mine[d])
  {
    RunWhole(h, s, steps, d);
    RunBooked(h, s, NOTHING_HELD, steps);
  }

  /* ---- the operations of the store are runs of one task ---- */

  lemma RunFirst(h: Hash, s: Sys, step: Step, rest: seq<Step>)
    requires Enabled(h, s, step) && Run(h, Apply(h, s, step), rest)
    ensures Run(h, s, [step] + rest) && Final(h, s, [step] + rest) == Final(h, Apply(h, s, step), rest)
  {
    assert ([step] + rest)[1..] == rest;
  }

  // What a task does for one completion, and to the backends.
  function CompletionSteps(k: nat, calls: CompleteCalls): seq<Step> {
    [Put(k, calls.put)]
    + if calls.put.Fails? then []
      else [Mark(k, calls.mark)]
           + if calls.mark.Fails? then []
             else [Inc(k, calls.inc)] + if calls.inc.Fails? then [] else [Retire(k, calls.delete, calls.clear)]
  }

  // A task standing where it is, alone, for the rest of its completion.
  ghost predicate Ends(h: Hash, s: Sys, k: nat, steps: seq<Step>, b: Backends) {
    k < |s.tasks| && Run(h, s, steps) && Final(h, s, steps).b == b
    && |Final(h, s, steps).tasks| == |s.tasks| && Final(h, s, steps).tasks[k].pc.Idle?
  }

  lemma EndsFirst(h: Hash, s: Sys, k: nat, step: Step, rest: seq<Step>, b: Backends)
    requires Enabled(h, s, step) && !step.Elsewhere? && Ends(h, Apply(h, s, step), k, rest, b)
    ensures Ends(h, s, k, [step] + rest, b)
  {
    RunFirst(h, s, step, rest);
  }

  lemma RetireEnds(h: Hash, s: Sys, k: nat, delete: Call, clear: Call)
    requires k < |s.tasks| && s.tasks[k].pc.Complete?
    ensures Ends(h, s, k, [Retire(k, delete, clear)], Abandon(s.b, s.tasks[k].pc.id, delete, clear))
  {
    EndsFirst(h, s, k, Retire(k, delete, clear), [], Abandon(s.b, s.tasks[k].pc.id, delete, clear));
    assert [Retire(k, delete, clear)] + [] == [Retire(k, delete, clear)];
  }

  lemma IncEnds(h: Hash, s: Sys, k: nat, calls: CompleteCalls)
    requires k < |s.tasks| && s.tasks[k].pc.Flagged?
    ensures var pc := s.tasks[k].pc;
            var b := if calls.inc.Took() then IncRef(s.b, pc.digest) else s.b;
            var rest := if calls.inc.Fails? then [] else [Retire(k, calls.delete, calls.clear)];
            Ends(h, s, k, [Inc(k, calls.inc)] + rest,
                 if calls.inc.Fails? then b else Abandon(b, pc.id, calls.delete, calls.clear))
  {
    var step := Inc(k, calls.inc);
    var t := Apply(h, s, step);
    if calls.inc.Fails? {
      EndsFirst(h, s, k, step, [], t.b);
    } else {
      RetireEnds(h, t, k, calls.delete, calls.clear);
      EndsFirst(h, s, k, step, [Retire(k, calls.delete, calls.clear)],
                Abandon(t.b, t.tasks[k].pc.id, calls.delete, calls.clear));
    }
  }

  /** A completion whose task runs alone is CompleteBlob after its verification, whatever calls fail. */
  lemma CompletionIsARun(h: Hash, s: Sys, k: nat, calls: CompleteCalls)
    requires k < |s.tasks| && s.tasks[k].pc.Verified?
    ensures var pc := s.tasks[k].pc;
            Ends(h, s, k, CompletionSteps(k, calls), StoreVerified(s.b, pc.id, pc.digest, pc.all, calls).0)
  {
    var pc := s.tasks[k].pc;
    var put, mark := Put(k, calls.put), Mark(k, calls.mark);
    var t := Apply(h, s, put);
    if calls.put.Fails? {
      EndsFirst(h, s, k, put, [], t.b);
    } else {
      var u := Apply(h, t, mark);
      if calls.mark.Fails? {
        EndsFirst(h, t, k, mark, [], u.b);
        EndsFirst(h, s, k, put, [mark] + [], u.b);
      } else {
        IncEnds(h, u, k, calls);
        var rest := [Inc(k, calls.inc)] + if calls.inc.Fails? then [] else [Retire(k, calls.delete, calls.clear)];
        var b := StoreVerified(s.b, pc.id, pc.digest, pc.all, calls).0;
        EndsFirst(h, t, k, mark, rest, b);
        EndsFirst(h, s, k, put, [mark] + rest, b);
      }
    }
  }

  function ReleaseSteps(b: Backends, k: nat, d: string, calls: ReleaseCalls): seq<Step> {
    [Dec(k, calls.dec)] + if calls.dec.Works? && DecRef(b, d).1 == Some(0) then [Delete(k, calls.delete)] else []
  }

  // The task alone gets to this point, and the backends to these.
  ghost predicate Arrives(h: Hash, s: Sys, k: nat, steps: seq<Step>, b: Backends, pc: Pc) {
    k < |s.tasks| && Run(h, s, steps) && Final(h, s, steps).b == b
    && |Final(h, s, steps).tasks| == |s.tasks| && Final(h, s, steps).tasks[k].pc == pc
  }

  lemma {:induction false} ArrivesThen(h: Hash, s: Sys, k: nat, first: seq<Step>, mid: Backends, at: Pc,
                                       second: seq<Step>, b: Backends, pc: Pc)
    requires Arrives(h, s, k, first, mid, at) && Arrives(h, Final(h, s, first), k, second, b, pc)
    ensures Arrives(h, s, k, first + second, b, pc)
  {
    RunThen(h, s, first, second);
  }

  lemma {:induction false} RunThen(h: Hash, s: Sys, first: seq<Step>, second: seq<Step>)
    requires Run(h, s, first) && Run(h, Final(h, s, first), second)
    ensures Run(h, s, first + second) && Final(h, s, first + second) == Final(h, Final(h, s, first), second)
    decreases |first|
  {
    if first == [] {
      assert [] + second == second;
    } else {
      var all := first + second;
      assert all[0] == first[0] && all[1..] == first[1..] + second;
      RunThen(h, Apply(h, s, first[0]), first[1..], second);
    }
  }

  lemma OneArrives(h: Hash, s: Sys, k: nat, step: Step)
    requires Enabled(h, s, step) && !step.Elsewhere? && step.k == k
    ensures Arrives(h, s, k, [step], OnBackends(s.b, s.tasks[k].pc, step), NextPc(s.b, s.tasks[k].pc, step))
  {
    assert [step][1..] == [];
  }

  /** And one digest of a cleanup whose task runs alone is Release. */
  lemma ReleaseIsARun(h: Hash, s: Sys, k: nat, calls: ReleaseCalls)
    requires k < |s.tasks| && s.tasks[k].pc.Releasing? && s.tasks[k].pc.todo != []
    ensures var todo := s.tasks[k].pc.todo;
            Arrives(h, s, k, ReleaseSteps(s.b, k, todo[0], calls),
                    ReleaseOne(s.b, todo[0], calls), Releasing(todo[1..]))
  {
    var pc, dec := s.tasks[k].pc, Dec(k, calls.dec);
    OneArrives(h, s, k, dec);
    var t := Final(h, s, [dec]);
    if t.tasks[k].pc.Zeroed? {
      OneArrives(h, t, k, Delete(k, calls.delete));
      ArrivesThen(h, s, k, [dec], OnBackends(s.b, pc, dec), NextPc(s.b, pc, dec), [Delete(k, calls.delete)],
                  ReleaseOne(s.b, pc.todo[0], calls), Releasing(pc.todo[1..]));
    } else {
      assert [dec] + [] == [dec];
    }
  }

  /** So a cleanup whose task runs alone is Cleanup, digest by digest, whatever calls fail. */
  lemma {:induction false} CleanupIsARun(h: Hash, s: Sys, k: nat, digests: seq<string>, calls: nat -> ReleaseCalls,
      i: nat)
    returns (steps: seq<Step>)
    requires k < |s.tasks| && s.tasks[k].pc == Releasing(digests) && i <= |digests|
    ensures Arrives(h, s, k, steps, ReleaseAll(s.b, digests[..i], calls), Releasing(digests[i..]))
  {
    if i == 0 { return []; }
    steps := CleanupIsARun(h, s, k, digests, calls, i - 1);
    steps := OneMoreRelease(h, s, k, digests, calls, i, steps);
  }

  lemma OneMoreRelease(h: Hash, s: Sys, k: nat, digests: seq<string>, calls: nat -> ReleaseCalls, i: nat,
      before: seq<Step>)
      returns (steps: seq<Step>)
    requires 0 < i <= |digests|
    requires Arrives(h, s, k, before, ReleaseAll(s.b, digests[..i - 1], calls), Releasing(digests[i - 1..]))
    ensures Arrives(h, s, k, steps, ReleaseAll(s.b, digests[..i], calls), Releasing(digests[i..]))
  {
    var t := Final(h, s, before);
    var more := NextReleased(h, t, k, digests, calls(i - 1), i);
    ReleaseAllSnoc(s.b, digests, calls, i);
    steps := before + more;
    ArrivesThen(h, s, k, before, t.b, t.tasks[k].pc, more,
                ReleaseAll(s.b, digests[..i], calls), Releasing(digests[i..]));
  }

  lemma ReleaseAllSnoc(b: Backends, digests: seq<string>, calls: nat -> ReleaseCalls, i: nat)
    requires 0 < i <= |digests|
    ensures ReleaseAll(b, digests[..i], calls) ==
            ReleaseOne(ReleaseAll(b, digests[..i - 1], calls), digests[i - 1], calls(i - 1))
  {
    assert digests[..i][..i - 1] == digests[..i - 1];
  }

  lemma NextReleased(h: Hash, t: Sys, k: nat, digests: seq<string>, calls: ReleaseCalls, i: nat)
    returns (more: seq<Step>)
    requires 0 < i <= |digests| && k < |t.tasks| && t.tasks[k].pc == Releasing(digests[i - 1..])
    ensures Arrives(h, t, k, more, ReleaseOne(t.b, digests[i - 1], calls), Releasing(digests[i..]))
  {
    ReleaseIsARun(h, t, k, calls);
    assert digests[i - 1..][0] == digests[i - 1] && digests[i - 1..][1..] == digests[i..];
    more := ReleaseSteps(t.b, k, digests[i - 1], calls);
  }

  /* ---- both ways it breaks ---- */

  // One push holds d and is cleaned up by task 0; the watched push completes d in task 1.
  function Contended(b: Backends, t0: Pc, t1: Pc): Sys { Sys(b, [Task(false, t0), Task(true, t1)]) }

  function Others(d: string): Ledger { Ledger(multiset{}, multiset{d}) }

  function Mine(d: string): Ledger { Ledger(multiset{d}, multiset{}) }

  ghost predicate Takes(h: Hash, s: Sys, l: Ledger, step: Step, t: Sys, l1: Ledger) {
    Enabled(h, s, step) && Fair(s, l, step) && Apply(h, s, step) == t && Book(s, l, step) == l1
  }

  ghost predicate Leads(h: Hash, s: Sys, l: Ledger, steps: seq<Step>, t: Sys, l1: Ledger) {
    Run(h, s, steps) && FairRun(h, s, l, steps) && Final(h, s, steps) == t && Books(h, s, l, steps) == l1
  }

  lemma LeadsFirst(h: Hash, s: Sys, l: Ledger, step: Step, t: Sys, l1: Ledger, rest: seq<Step>, u: Sys, l2: Ledger)
    requires Takes(h, s, l, step, t, l1) && Leads(h, t, l1, rest, u, l2)
    ensures Leads(h, s, l, [step] + rest, u, l2)
  {
    assert ([step] + rest)[1..] == rest;
  }

  lemma LeadsNowhere(h: Hash, s: Sys, l: Ledger)
    ensures Leads(h, s, l, [], s, l)
  {
  }

  // Counted once, and there.
  predicate HeldOnce(b: Backends, d: string) { d in b.refs && b.refs[d] == 1 && BlobKey(d) in b.data }

  lemma TakeVerify(h: Hash, b: Backends, d: string, id: string, all: Bytes, t0: Pc, l: Ledger)
    requires Matches(h, all, d)
    ensures Takes(h, Contended(b, t0, Idle), l, Verify(1, true, id, d, all), Contended(b, t0, Verified(id, d, all)), l)
  {
  }

  lemma TakePut(h: Hash, b: Backends, d: string, id: string, all: Bytes, t0: Pc, l: Ledger)
    ensures Takes(h, Contended(b, t0, Verified(id, d, all)), l, Put(1, Works),
                  Contended(PutIf(b, true, BlobKey(d), all), t0, Stored(id, d)), l)
  {
  }

  lemma TakeMark(h: Hash, b: Backends, d: string, id: string, t0: Pc, l: Ledger)
    ensures Takes(h, Contended(b, t0, Stored(id, d)), l, Mark(1, Works),
                  Contended(b.(complete := b.complete + {d}), t0, Flagged(id, d)), l)
  {
  }

  lemma TakeInc(h: Hash, b: Backends, d: string, id: string, t0: Pc)
    ensures Takes(h, Contended(b, t0, Flagged(id, d)), NOTHING_HELD, Inc(1, Works),
                  Contended(IncRef(b, d), t0, Complete(id)), Mine(d))
  {
    assert multiset{} + multiset{d} == multiset{d};
  }

  lemma TakeDec(h: Hash, b: Backends, d: string, t1: Pc)
    requires HeldOnce(b, d)
    ensures Takes(h, Contended(b, Releasing([d]), t1), Others(d), Dec(0, Works),
                  Contended(b.(refs := b.refs - {d}), Zeroed(d, []), t1), NOTHING_HELD)
  {
    assert [d][1..] == [];
    assert Uncounts(Contended(b, Releasing([d]), t1), Dec(0, Works)) == multiset{d};
    assert multiset{d} - multiset{d} == multiset{};
    assert DecRef(b, d) == (b.(refs := b.refs - {d}), Some(0));
  }

  lemma TakeDelete(h: Hash, b: Backends, d: string, t1: Pc, l: Ledger)
    ensures Takes(h, Contended(b, Zeroed(d, []), t1), l, Delete(0, Works),
                  Contended(DeleteIf(b, true, BlobKey(d)), Releasing([]), t1), l)
  {
  }

  function StoredBy(b: Backends, d: string, all: Bytes): Backends {
    var b1 := PutIf(b, true, BlobKey(d), all);
    b1.(complete := b1.complete + {d})
  }

  // The watched push stores d and flags it; the other push's task does not move.
  lemma StoresAndFlags(h: Hash, b: Backends, d: string, id: string, all: Bytes, t0: Pc, l: Ledger,
                       rest: seq<Step>, u: Sys, l1: Ledger)
    requires Matches(h, all, d)
    requires Leads(h, Contended(StoredBy(b, d, all), t0, Flagged(id, d)), l, rest, u, l1)
    ensures Leads(h, Contended(b, t0, Idle), l,
                  [Verify(1, true, id, d, all)] + ([Put(1, Works)] + ([Mark(1, Works)] + rest)), u, l1)
  {
    var b1 := PutIf(b, true, BlobKey(d), all);
    var s0, s1 := Contended(b, t0, Idle), Contended(b, t0, Verified(id, d, all));
    var s2, s3 := Contended(b1, t0, Stored(id, d)), Contended(StoredBy(b, d, all), t0, Flagged(id, d));
    TakeMark(h, b1, d, id, t0, l);
    LeadsFirst(h, s2, l, Mark(1, Works), s3, l, rest, u, l1);
    TakePut(h, b, d, id, all, t0, l);
    LeadsFirst(h, s1, l, Put(1, Works), s2, l, [Mark(1, Works)] + rest, u, l1);
    TakeVerify(h, b, d, id, all, t0, l);
    LeadsFirst(h, s0, l, Verify(1, true, id, d, all), s1, l, [Put(1, Works)] + ([Mark(1, Works)] + rest), u, l1);
  }

  // The watched push holds d, counted once and gone.
  predicate HeldAndGone(t: Sys, l: Ledger, d: string) {
    l.mine[d] == 1 && Counted(t, d) && t.b.refs[d] == 1 && Broken(t, d)
  }

  /** The decrement to zero, then a whole completion of the same blob, then the delete: the watched push
      holds a blob that is counted once and gone. */
  lemma DeletesTooLate(h: Hash, b: Backends, d: string, id: string, all: Bytes)
    returns (steps: seq<Step>, t: Sys, l: Ledger)
    requires HeldOnce(b, d) && Matches(h, all, d)
    ensures Leads(h, Contended(b, Releasing([d]), Idle), Others(d), steps, t, l) && HeldAndGone(t, l, d)
  {
    var b0 := b.(refs := b.refs - {d});
    var b2 := StoredBy(b0, d, all);
    var b3 := IncRef(b2, d);
    var s1, s2 := Contended(b0, Zeroed(d, []), Idle), Contended(b2, Zeroed(d, []), Flagged(id, d));
    var s3 := Contended(b3, Zeroed(d, []), Complete(id));
    t, l := Contended(DeleteIf(b3, true, BlobKey(d)), Releasing([]), Complete(id)), Mine(d);
    LeadsNowhere(h, t, l);
    TakeDelete(h, b3, d, Complete(id), l);
    LeadsFirst(h, s3, l, Delete(0, Works), t, l, [], t, l);
    TakeInc(h, b2, d, id, Zeroed(d, []));
    LeadsFirst(h, s2, NOTHING_HELD, Inc(1, Works), s3, l, [Delete(0, Works)] + [], t, l);
    var rest := [Inc(1, Works)] + ([Delete(0, Works)] + []);
    StoresAndFlags(h, b0, d, id, all, Zeroed(d, []), NOTHING_HELD, rest, t, l);
    steps := [Verify(1, true, id, d, all)] + ([Put(1, Works)] + ([Mark(1, Works)] + rest));
    TakeDec(h, b, d, Idle);
    LeadsFirst(h, Contended(b, Releasing([d]), Idle), Others(d), Dec(0, Works), s1, NOTHING_HELD, steps, t, l);
    steps := [Dec(0, Works)] + steps;
  }

  /** Making a cleanup's two calls one would not help: a whole cleanup of the blob between the Put and the
      count of a completion ends the same way. */
  lemma CountsTooLate(h: Hash, b: Backends, d: string, id: string, all: Bytes)
    returns (steps: seq<Step>, t: Sys, l: Ledger)
    requires HeldOnce(b, d) && Matches(h, all, d)
    ensures Leads(h, Contended(b, Releasing([d]), Idle), Others(d), steps, t, l) && HeldAndGone(t, l, d)
    ensures |steps| == 6 && steps[3..5] == [Dec(0, Works), Delete(0, Works)]
  {
    var b2 := StoredBy(b, d, all);
    var b3 := b2.(refs := b2.refs - {d});
    var b4 := DeleteIf(b3, true, BlobKey(d));
    var s2, s3 := Contended(b2, Releasing([d]), Flagged(id, d)), Contended(b3, Zeroed(d, []), Flagged(id, d));
    var s4 := Contended(b4, Releasing([]), Flagged(id, d));
    t, l := Contended(IncRef(b4, d), Releasing([]), Complete(id)), Mine(d);
    LeadsNowhere(h, t, l);
    TakeInc(h, b4, d, id, Releasing([]));
    LeadsFirst(h, s4, NOTHING_HELD, Inc(1, Works), t, l, [], t, l);
    TakeDelete(h, b3, d, Flagged(id, d), NOTHING_HELD);
    LeadsFirst(h, s3, NOTHING_HELD, Delete(0, Works), s4, NOTHING_HELD, [Inc(1, Works)] + [], t, l);
    TakeDec(h, b2, d, Flagged(id, d));
    LeadsFirst(h, s2, Others(d), Dec(0, Works), s3, NOTHING_HELD, [Delete(0, Works)] + ([Inc(1, Works)] + []), t, l);
    var rest := [Dec(0, Works)] + ([Delete(0, Works)] + ([Inc(1, Works)] + []));
    StoresAndFlags(h, b, d, id, all, Releasing([d]), Others(d), rest, t, l);
    steps := [Verify(1, true, id, d, all)] + ([Put(1, Works)] + ([Mark(1, Works)] + rest));
    assert steps ==
        [Verify(1, true, id, d, all), Put(1, Works), Mark(1, Works), Dec(0, Works), Delete(0, Works), Inc(1, Works)];
  }
}
