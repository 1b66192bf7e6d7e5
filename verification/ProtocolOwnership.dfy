/** Who owns the staged bytes of a push, and when a sweep may take a claim. */
module ProtocolOwnership {
  import opened Basics
  import opened PromoteJob
  import opened Manifests
  import opened Protocol
  import opened ProtocolSafety
  import opened ProtocolNoLoss
  import V = Valkey

  /* ---- sweeps and live claims ---- */

  // A claim whose stamp is still inside the recovery window.
  ghost predicate Live(c: Config, s: Sys, id: string) {
    && id in s.queue.claimed && id in s.queue.stamps && s.queue.stamps[id].At?
    && s.now < s.queue.stamps[id].t + c.settings.Window()
  }

  // What a sweeper read is what still stands, or it has been rewritten since the read.
  ghost predicate SweepView(c: Config, s: Sys, w: nat)
    requires w < |s.workers|
  {
    var pc := s.workers[w].pc;
    pc.Sweeping? ==>
      && pc.cutoff + c.settings.Window() <= s.now
      && forall id :: id in pc.read && id in s.queue.stamps ==>
           s.queue.stamps[id] == pc.read[id]
           || (s.queue.stamps[id].At? && s.queue.stamps[id].t >= pc.cutoff + c.settings.Window())
  }

  ghost predicate SweepViews(c: Config, s: Sys) {
    forall w :: 0 <= w < |s.workers| ==> SweepView(c, s, w)
  }

  lemma ViewAfter(c: Config, s: Sys, cmd: Command, t: Sys, v: nat)
    requires Ran(s, cmd, t) && s.now <= t.now
    requires v < |s.workers| && v < |t.workers| && SweepView(c, s, v)
    requires t.workers[v].pc == s.workers[v].pc
          || (s.workers[v].pc.Sweeping? && t.workers[v].pc.Sweeping? && t.workers[v].pc.cutoff == s.workers[v].pc.cutoff
              && forall id :: id in t.workers[v].pc.read ==>
                   id in s.workers[v].pc.read && t.workers[v].pc.read[id] == s.workers[v].pc.read[id])
    ensures SweepView(c, t, v)
  {
  }

  lemma SweepViewsStep(c: Config, s: Sys, step: Step)
    requires SweepViews(c, s) && Enabled(c, s, step)
    ensures SweepViews(c, Apply(c, s, step))
  {
    var t, cmd := Apply(c, s, step), StepCommand(s, step);
    StepRuns(c, s, step);
    forall v | 0 <= v < |t.workers| ensures SweepView(c, t, v) {
      assert SweepView(c, s, v);
      if step.ByWorker? && step.w == v {
        assert t.workers[v] == Move(c, s, s.workers[v], step.a);
        if step.a.SweepOne? || step.a.ClaimReplyLost? { ViewAfter(c, s, cmd, t, v); }
      } else {
        ViewAfter(c, s, cmd, t, v);
      }
    }
  }

  lemma {:induction false} RunSweepViews(c: Config, s: Sys, steps: seq<Step>)
    requires SweepViews(c, s) && Run(c, s, steps)
    ensures SweepViews(c, Final(c, s, steps))
    decreases |steps|
  {
    if steps != [] {
      SweepViewsStep(c, s, steps[0]);
      RunSweepViews(c, Apply(c, s, steps[0]), steps[1..]);
    }
  }

  // The stamp of a standing claim was written at or after the sweep's reading of the stamps, and the
  // window of that claim is not over.
  ghost predicate RewrittenSince(c: Config, s: Sys, w: nat, id: string)
    requires w < |s.workers| && s.workers[w].pc.Sweeping?
  {
    && id in s.queue.claimed && id in s.queue.stamps && s.queue.stamps[id].At?
    && s.queue.stamps[id].t >= s.workers[w].pc.cutoff + c.settings.Window()
    && s.now < s.queue.stamps[id].t + c.settings.Window()
  }

  /** For any configured RecoverAfter, zero and negative included, and any number of sweeping workers:
      the claim a sweep is about to requeue is still inside the window if and only if it was written at
      or after the time the sweep had read the stamps at, less than a window ago. A claim the sweep did
      read has outlived the window by then. */
  lemma SweepsSpareLiveClaims(c: Config, s: Sys, steps: seq<Step>, w: nat, id: string)
    requires Init(s) && Run(c, s, steps)
    requires var t := Final(c, s, steps);
             && Enabled(c, t, ByWorker(w, SweepOne(id)))
             && StepCommand(t, ByWorker(w, SweepOne(id))) == RequeueClaim(id)
    ensures var t := Final(c, s, steps);
            && (Live(c, t, id) <==> RewrittenSince(c, t, w, id))
            && (id in t.queue.stamps && t.queue.stamps[id] == t.workers[w].pc.read[id] ==> !Live(c, t, id))
  {
    RunSweepViews(c, s, steps);
    assert SweepView(c, Final(c, s, steps), w);
  }

  // The step takes a claim that is still inside the window away from whoever holds it.
  ghost predicate Steals(c: Config, s: Sys, step: Step, id: string) {
    Live(c, s, id) && StepCommand(s, step) == RequeueClaim(id)
  }

  /** After every run and for every step: a live claim goes back to pending exactly by such a sweep. */
  lemma StealsExactly(c: Config, s: Sys, steps: seq<Step>, step: Step, id: string)
    requires Init(s) && Run(c, s, steps) && Enabled(c, Final(c, s, steps), step)
    ensures var t := Final(c, s, steps);
            Steals(c, t, step, id) <==>
            && step.ByWorker? && step.a == SweepOne(id)
            && !t.workers[step.w].pc.read[id].After(t.workers[step.w].pc.cutoff)
            && RewrittenSince(c, t, step.w, id)
  {
    var t := Final(c, s, steps);
    if step.ByWorker? && step.a == SweepOne(id) && StepCommand(t, step) == RequeueClaim(id) {
      SweepsSpareLiveClaims(c, s, steps, step.w, id);
    }
  }

  /* ---- calm runs: nothing crashes, no requeue or ack fails, every handle ends in time ---- */

  ghost predicate InTime(c: Config, s: Sys, now: int) {
    forall w :: 0 <= w < |s.workers| && s.workers[w].Holding() ==> now < s.workers[w].since + c.settings.Window()
  }

  ghost predicate Calm(c: Config, s: Sys, step: Step) {
    match step
    case Tick(d) => InTime(c, s, s.now + d)
    case ByHandler(h) => !h.HandlerCrash? && !(h.PromoteFails? && h.applied)
    case ByWorker(_, a) =>
      !a.ClaimReplyLost? && !a.RequeueFails? && !a.AckClaimFails? && !a.AckStampFails? && !a.Crash?
  }

  // Working on the push, or on settling it, but not done with its cleanup.
  predicate Active(pc: Pc) {
    pc.Working? || pc.Attempting? || pc.Ready? || pc.Failing? || pc.Pushed? || pc.Retired?
    || pc == StampLeft(true) || pc.Cleaning?
  }

  function PendingCount(ps: seq<V.Payload>, id: string): nat {
    if ps == [] then 0
    else (if ps[0].JobJson? && ps[0].job.pushId == id then 1 else 0) + PendingCount(ps[1..], id)
  }

  function ActiveOn(ws: seq<Worker>, id: string): set<nat> {
    set w | 0 <= w < |ws| && Active(ws[w].pc) && ws[w].job.pushId == id
  }

  // Every copy that may still act on the push, and every cleanup already done for it.
  function Tokens(s: Sys, id: string): nat {
    (if id in s.handlers then 1 else 0) + PendingCount(s.queue.pending, id)
    + |ActiveOn(s.workers, id)| + s.cleaned[id]
  }

  ghost predicate OneEach(s: Sys) {
    forall id :: Tokens(s, id) == if id in s.staged then 1 else 0
  }

  ghost predicate HandedOff(s: Sys) {
    && (forall id :: id in s.handlers ==> id !in s.accepted)
    && s.accepted <= s.staged
    && (forall p :: p in s.queue.pending ==> p.JobJson? && p.job.pushId in s.accepted)
    && (forall w :: 0 <= w < |s.workers| && s.workers[w].Holding() ==> s.workers[w].job.pushId in s.accepted)
  }

  // Each stamp belongs to a worker that is still inside handle, so no sweep ever finds one expired.
  ghost predicate Attended(c: Config, s: Sys) {
    && (forall id :: id in s.queue.stamps ==>
          s.queue.stamps[id].At? && exists w :: 0 <= w < |s.workers| && Attends(s, w, id))
    && InTime(c, s, s.now)
    && (forall w :: 0 <= w < |s.workers| && s.workers[w].pc.Sweeping? ==>
          forall id :: id in s.workers[w].pc.read ==> s.workers[w].pc.read[id].After(s.workers[w].pc.cutoff))
  }

  ghost predicate Attends(s: Sys, w: nat, id: string)
    requires w < |s.workers| && id in s.queue.stamps && s.queue.stamps[id].At?
  {
    var me := s.workers[w];
    && InHandle(me) && me.job.pushId == id && me.since == s.queue.stamps[id].t
    && id in s.stampOwner && s.stampOwner[id] == me.ticket
  }

  // Between Claim and the end of Ack.
  predicate InHandle(me: Worker) { me.Holding() && !me.pc.Cleaning? }

  ghost predicate Owned(c: Config, s: Sys) { Sound(c, s) && HandedOff(s) && Attended(c, s) && OneEach(s) }

  /* ---- each part survives a calm step ---- */

  lemma CalmCommand(c: Config, s: Sys, step: Step)
    requires Attended(c, s) && Enabled(c, s, step) && Calm(c, s, step)
    ensures !StepCommand(s, step).RequeueClaim?
  {
  }

  lemma HandedOffStep(c: Config, s: Sys, step: Step)
    requires Owned(c, s) && Enabled(c, s, step) && Calm(c, s, step)
    ensures HandedOff(Apply(c, s, step))
  {
    match step {
      case Tick(_) =>
      case ByHandler(h) => HandedOffHandler(c, s, h);
      case ByWorker(w, a) => HandedOffWorker(c, s, w, a);
    }
  }

  lemma HandedOffWorker(c: Config, s: Sys, w: nat, a: WorkerStep)
    requires HandedOff(s) && Attended(c, s) && Enabled(c, s, ByWorker(w, a)) && Calm(c, s, ByWorker(w, a))
    ensures HandedOff(ApplyWorker(c, s, w, a))
  {
    var t, me := ApplyWorker(c, s, w, a), s.workers[w];
    WorkerRuns(c, s, w, a);
    CalmCommand(c, s, ByWorker(w, a));
    MoverTicket(c, s, me, a);
    MoverId(c, s, me, a);
    PendingFrom(s, CommandOf(me, a), t);
    assert CommandOf(me, a).PushJob? ==> me.Holding() && CommandOf(me, a).job == me.job;
  }

  lemma PendingFrom(s: Sys, cmd: Command, t: Sys)
    requires Ran(s, cmd, t) && !cmd.RequeueClaim?
    ensures forall p :: p in t.queue.pending ==> p in s.queue.pending || (cmd.PushJob? && p == V.JobJson(cmd.job))
    ensures cmd.ClaimNext? ==> s.queue.pending[0] in s.queue.pending
  {
  }

  lemma MoverId(c: Config, s: Sys, me: Worker, a: WorkerStep)
    requires CanWork(c, s, me, a)
    ensures Move(c, s, me, a).job.pushId == if a.Claim? then s.queue.pending[0].job.pushId else me.job.pushId
  {
  }

  lemma HandedOffHandler(c: Config, s: Sys, h: HandlerStep)
    requires Sound(c, s) && HandedOff(s) && CanHandle(c, s, h) && Calm(c, s, ByHandler(h))
    ensures HandedOff(ApplyHandler(c, s, h))
  {
    if h.Promote? { assert HandlerOk(c, s, h.id); }
  }

  lemma AttendedStep(c: Config, s: Sys, step: Step)
    requires Attended(c, s) && Enabled(c, s, step) && Calm(c, s, step)
    ensures Attended(c, Apply(c, s, step))
  {
    var t := Apply(c, s, step);
    StepRuns(c, s, step);
    forall id | id in t.queue.stamps
      ensures t.queue.stamps[id].At? && exists w :: 0 <= w < |t.workers| && Attends(t, w, id)
    {
      StampAttended(c, s, step, id);
    }
    forall v | 0 <= v < |t.workers|
      ensures t.workers[v].Holding() ==> t.now < t.workers[v].since + c.settings.Window()
      ensures t.workers[v].pc.Sweeping? ==>
                forall id :: id in t.workers[v].pc.read ==> t.workers[v].pc.read[id].After(t.workers[v].pc.cutoff)
    {
      if step.ByWorker? && step.w == v {
        MoverDeadline(c, s, s.workers[v], step.a);
        MoverSweep(c, s, s.workers[v], step.a);
      } else {
        assert t.workers[v] == s.workers[v];
      }
    }
  }

  lemma StampAttended(c: Config, s: Sys, step: Step, id: string)
    requires Attended(c, s) && Enabled(c, s, step) && Calm(c, s, step)
    requires id in Apply(c, s, step).queue.stamps
    ensures var t := Apply(c, s, step);
            t.queue.stamps[id].At? && exists w :: 0 <= w < |t.workers| && Attends(t, w, id)
  {
    var t, cmd := Apply(c, s, step), StepCommand(s, step);
    StepRuns(c, s, step);
    CalmCommand(c, s, step);
    if step.ByWorker? { MoverStays(c, s, s.workers[step.w], step.a); }
    if cmd.ClaimNext? && id == Next(s).job.pushId {
      assert Attends(t, step.w, id);
    } else {
      assert id in s.queue.stamps && t.queue.stamps[id] == s.queue.stamps[id];
      var w :| 0 <= w < |s.workers| && Attends(s, w, id);
      assert Attends(t, w, id);
    }
  }

  // In a calm run a worker leaves handle only by deleting the stamp of its push.
  lemma MoverStays(c: Config, s: Sys, me: Worker, a: WorkerStep)
    requires CanWork(c, s, me, a) && Calm(c, s, ByWorker(0, a))
    ensures var me1 := Move(c, s, me, a);
            && (InHandle(me) ==> CommandOf(me, a) == DelStamp(me.job.pushId)
                                 || (InHandle(me1) && me1.job.pushId == me.job.pushId && me1.since == me.since
                                     && me1.ticket == me.ticket))
            && (CommandOf(me, a).ClaimNext? ==> a.Claim?)
  {
  }

  lemma MoverDeadline(c: Config, s: Sys, me: Worker, a: WorkerStep)
    requires CanWork(c, s, me, a)
    requires me.Holding() ==> s.now < me.since + c.settings.Window()
    ensures var me1 := Move(c, s, me, a); me1.Holding() ==> s.now < me1.since + c.settings.Window()
  {
  }

  lemma MoverSweep(c: Config, s: Sys, me: Worker, a: WorkerStep)
    requires Attended(c, s) && CanWork(c, s, me, a) && me in s.workers
    ensures var pc := Move(c, s, me, a).pc;
            pc.Sweeping? ==> forall id :: id in pc.read ==> pc.read[id].After(pc.cutoff)
  {
    if a.SweepRead? {
      forall id | id in s.queue.stamps ensures s.queue.stamps[id].After(s.now - c.settings.Window()) {
        var w :| 0 <= w < |s.workers| && Attends(s, w, id);
      }
    }
  }

  /* ---- counting ---- */

  lemma {:induction false} PendingCountPlus(ps: seq<V.Payload>, qs: seq<V.Payload>, id: string)
    ensures PendingCount(ps + qs, id) == PendingCount(ps, id) + PendingCount(qs, id)
  {
    if ps == [] {
      assert ps + qs == qs;
    } else {
      assert (ps + qs)[1..] == ps[1..] + qs;
      PendingCountPlus(ps[1..], qs, id);
    }
  }

  lemma {:induction false} PendingCountZero(ps: seq<V.Payload>, id: string)
    ensures PendingCount(ps, id) > 0 <==> exists p :: p in ps && p.JobJson? && p.job.pushId == id
  {
    if ps != [] {
      PendingCountZero(ps[1..], id);
      assert ps == [ps[0]] + ps[1..];
    }
  }

  function On(me: Worker, id: string): nat { if Active(me.pc) && me.job.pushId == id then 1 else 0 }

  lemma ActiveMoves(ws: seq<Worker>, w: nat, me1: Worker, id: string)
    requires w < |ws|
    ensures |ActiveOn(ws[w := me1], id)| == |ActiveOn(ws, id)| - On(ws[w], id) + On(me1, id)
  {
    var a, b := ActiveOn(ws, id), ActiveOn(ws[w := me1], id);
    assert b - {w} == a - {w};
    assert w in a <==> On(ws[w], id) == 1;
    assert w in b <==> On(me1, id) == 1;
    if w in a { assert a == (a - {w}) + {w}; } else { assert a == a - {w}; }
    if w in b { assert b == (b - {w}) + {w}; } else { assert b == b - {w}; }
  }

  lemma OneEachWorker(c: Config, s: Sys, w: nat, a: WorkerStep, id: string)
    requires Owned(c, s) && Enabled(c, s, ByWorker(w, a)) && Calm(c, s, ByWorker(w, a))
    ensures Tokens(ApplyWorker(c, s, w, a), id) == Tokens(s, id)
  {
    var me, t := s.workers[w], ApplyWorker(c, s, w, a);
    WorkerRuns(c, s, w, a);
    PendingMoves(c, s, w, a, id);
    ActiveMoves(s.workers, w, Move(c, s, me, a), id);
    MoverToken(c, s, me, a, id);
  }

  // What a command other than a requeue does to pending.
  lemma PendingAfter(s: Sys, cmd: Command, id: string)
    requires !cmd.RequeueClaim? && (cmd.ClaimNext? ==> Next(s).Got?)
    ensures PendingCount(QueueAfter(s, cmd).pending, id) ==
            PendingCount(s.queue.pending, id)
            + (if cmd.PushJob? && cmd.job.pushId == id then 1 else 0)
            - (if cmd.ClaimNext? && Next(s).job.pushId == id then 1 else 0)
  {
    if cmd.PushJob? { PendingCountPlus(s.queue.pending, [V.JobJson(cmd.job)], id); }
  }

  // And what a calm worker's step does to it.
  lemma PendingMoves(c: Config, s: Sys, w: nat, a: WorkerStep, id: string)
    requires Owned(c, s) && Enabled(c, s, ByWorker(w, a)) && Calm(c, s, ByWorker(w, a))
    ensures PendingCount(QueueAfter(s, CommandOf(s.workers[w], a)).pending, id) ==
            PendingCount(s.queue.pending, id)
            + (if a.Requeue? && s.workers[w].job.pushId == id then 1 else 0)
            - (if a.Claim? && Next(s).job.pushId == id then 1 else 0)
  {
    CalmCommand(c, s, ByWorker(w, a));
    PendingAfter(s, CommandOf(s.workers[w], a), id);
    MoverToken(c, s, s.workers[w], a, id);
  }

  // Where a worker's token goes: it takes one from pending, puts one back, or turns it into a cleanup.
  lemma MoverToken(c: Config, s: Sys, me: Worker, a: WorkerStep, id: string)
    requires CanWork(c, s, me, a) && Calm(c, s, ByWorker(0, a))
    ensures On(Move(c, s, me, a), id) ==
            if a.Claim? then (if Next(s).job.pushId == id then 1 else 0)
            else if a.Requeue? || a.Cleanup? then 0
            else On(me, id)
    ensures a.Claim? ==> On(me, id) == 0
    ensures a.Requeue? || a.Cleanup? ==> On(me, id) == if me.job.pushId == id then 1 else 0
    ensures CommandOf(me, a).PushJob? ==> a.Requeue?
    ensures CommandOf(me, a).ClaimNext? ==> a.Claim?
  {
  }

  lemma OneEachHandler(c: Config, s: Sys, h: HandlerStep, id: string)
    requires Owned(c, s) && CanHandle(c, s, h) && Calm(c, s, ByHandler(h))
    ensures Tokens(ApplyHandler(c, s, h), id) == Tokens(s, id) + if h.Stage? && h.job.pushId == id then 1 else 0
  {
    var t := ApplyHandler(c, s, h);
    HandlerRuns(c, s, h);
    if h.Stage? {
      forall k | k in s.handlers ensures k in s.staged { assert HandlerOk(c, s, k); }
    } else if h.Promote? {
      assert HandlerOk(c, s, h.id);
      PendingCountPlus(s.queue.pending, [V.JobJson(s.handlers[h.id].job)], id);
    }
  }

  lemma OwnedStep(c: Config, s: Sys, step: Step)
    requires c.settings.Valid() && Owned(c, s) && Enabled(c, s, step) && Calm(c, s, step)
    ensures Owned(c, Apply(c, s, step))
  {
    SoundStep(c, s, step);
    HandedOffStep(c, s, step);
    AttendedStep(c, s, step);
    var t := Apply(c, s, step);
    forall id ensures Tokens(t, id) == if id in t.staged then 1 else 0 {
      match step {
        case Tick(_) =>
        case ByHandler(h) => OneEachHandler(c, s, h, id);
        case ByWorker(w, a) => OneEachWorker(c, s, w, a, id);
      }
    }
  }

  ghost predicate CalmRun(c: Config, s: Sys, steps: seq<Step>)
    requires Run(c, s, steps)
    decreases |steps|
  {
    steps == [] || (Calm(c, s, steps[0]) && CalmRun(c, Apply(c, s, steps[0]), steps[1..]))
  }

  lemma {:induction false} RunOwned(c: Config, s: Sys, steps: seq<Step>)
    requires c.settings.Valid() && Owned(c, s) && Run(c, s, steps) && CalmRun(c, s, steps)
    ensures Owned(c, Final(c, s, steps))
    decreases |steps|
  {
    if steps != [] {
      OwnedStep(c, s, steps[0]);
      RunOwned(c, Apply(c, s, steps[0]), steps[1..]);
    }
  }

  lemma InitOwned(c: Config, s: Sys)
    requires Init(s)
    ensures Owned(c, s)
  {
    InitSound(c, s);
    forall id ensures Tokens(s, id) == 0 {
      assert ActiveOn(s.workers, id) == {};
    }
  }

  /** Single ownership, end to end: in a run without crashes or failed requeues and acks, where every
      handle ends inside the recovery window, each assembled push has at every moment exactly one of:
      its handler, one pending copy, one worker acting on it, or one completed cleanup. */
  lemma SingleOwnership(c: Config, s: Sys, steps: seq<Step>, id: string)
    requires c.settings.Valid() && Init(s) && Run(c, s, steps) && CalmRun(c, s, steps)
    requires id in Final(c, s, steps).staged
    ensures var t := Final(c, s, steps);
            (if id in t.handlers then 1 else 0) + PendingCount(t.queue.pending, id)
            + |ActiveOn(t.workers, id)| + t.cleaned[id] == 1
  {
    InitOwned(c, s);
    RunOwned(c, s, steps);
    assert Tokens(Final(c, s, steps), id) == 1;
  }

  // A cleanup of this push, by its handler or by a worker.
  ghost predicate Releases(t: Sys, step: Step, id: string) {
    step == ByHandler(Release(id))
    || (step.ByWorker? && step.w < |t.workers| && step.a.Cleanup? && t.workers[step.w].job.pushId == id)
  }

  lemma HandlerReleases(c: Config, t: Sys, id: string)
    requires Owned(c, t) && id in t.handlers
    ensures t.cleaned[id] == 0 && !Pending(t, id) && ActiveOn(t.workers, id) == {}
  {
    PendingCountZero(t.queue.pending, id);
    assert Tokens(t, id) <= 1;
  }

  lemma WorkerReleases(c: Config, t: Sys, w: nat, id: string)
    requires Owned(c, t) && w in ActiveOn(t.workers, id)
    ensures t.cleaned[id] == 0 && !Pending(t, id) && ActiveOn(t.workers, id) == {w} && id !in t.handlers
  {
    PendingCountZero(t.queue.pending, id);
    assert Tokens(t, id) <= 1;
    OnlyMember(ActiveOn(t.workers, id), w);
  }

  lemma OwnerReleases(c: Config, t: Sys, step: Step, id: string)
    requires Owned(c, t) && Enabled(c, t, step) && Releases(t, step, id)
    ensures t.cleaned[id] == 0 && !Pending(t, id)
    ensures step.ByHandler? ==> ActiveOn(t.workers, id) == {}
    ensures step.ByWorker? ==> ActiveOn(t.workers, id) == {step.w} && id !in t.handlers
  {
    if step.ByWorker? {
      WorkerReleases(c, t, step.w, id);
    } else {
      HandlerReleases(c, t, id);
    }
  }

  lemma OwnerIsKnown(c: Config, t: Sys, step: Step, id: string)
    requires Owned(c, t) && Enabled(c, t, step) && Releases(t, step, id)
    ensures step.ByHandler? <==> id !in t.accepted
  {
    if step.ByHandler? { assert HandlerOk(c, t, id); }
  }

  /** So the staged bytes are released at most once, by the handler only if the push was not handed off
      and by a worker only if it was, and never while any copy could still be worked. */
  lemma ReleasedOnceByItsOwner(c: Config, s: Sys, steps: seq<Step>, step: Step, id: string)
    requires c.settings.Valid() && Init(s) && Run(c, s, steps) && CalmRun(c, s, steps)
    requires Enabled(c, Final(c, s, steps), step) && Releases(Final(c, s, steps), step, id)
    ensures var t := Final(c, s, steps);
            && t.cleaned[id] == 0
            && !Pending(t, id)
            && (step.ByHandler? <==> id !in t.accepted)
            && (step.ByHandler? ==> ActiveOn(t.workers, id) == {})
            && (step.ByWorker? ==> ActiveOn(t.workers, id) == {step.w} && id !in t.handlers)
  {
    InitOwned(c, s);
    RunOwned(c, s, steps);
    OwnerReleases(c, Final(c, s, steps), step, id);
    OwnerIsKnown(c, Final(c, s, steps), step, id);
  }

  lemma OnlyMember(a: set<nat>, w: nat)
    requires w in a && |a| <= 1
    ensures a == {w}
  {
    assert |a - {w}| == |a| - 1;
  }
}
