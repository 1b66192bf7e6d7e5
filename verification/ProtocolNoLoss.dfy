/** No accepted push is lost. A push whose Promote returned nil stays published, recorded as abandoned,
    pending or claimed through any crash and any failed command, as long as no Ack removes a claim
    entry that another worker's Claim wrote; and that Ack is the only step that can lose one. */
module ProtocolNoLoss {
  import opened Basics
  import opened PromoteJob
  import opened Protocol
  import opened ProtocolSafety
  import V = Valkey

  ghost predicate Held(s: Sys, id: string) { Settled(s, id) || Queued(s, id) }

  /* ---- bookkeeping that no step breaks ---- */

  ghost predicate Tickets(s: Sys) {
    && (forall id :: id in s.owner ==> s.owner[id] < s.nextTicket)
    && (forall id :: id in s.stampOwner ==> s.stampOwner[id] < s.nextTicket)
    && (forall w :: 0 <= w < |s.workers| && s.workers[w].Holding() ==> s.workers[w].ticket < s.nextTicket)
    && s.queue.claimed.Keys <= s.owner.Keys
    && s.queue.stamps.Keys <= s.stampOwner.Keys
  }

  // A worker past the point where its push is settled, and one that has put its job back but not yet
  // let go of a claim that is still its own.
  ghost predicate WorkerBooks(s: Sys, w: nat)
    requires w < |s.workers|
  {
    var me := s.workers[w];
    var id := me.job.pushId;
    && (me.pc.Pushed? || me.pc.Retired? || me.pc == StampLeft(true) || me.pc.Cleaning? ==> Settled(s, id))
    && (me.pc.Requeued? && id in s.queue.claimed && id in s.owner && s.owner[id] == me.ticket ==> Pending(s, id))
  }

  ghost predicate Books(s: Sys) {
    Tickets(s) && forall w :: 0 <= w < |s.workers| ==> WorkerBooks(s, w)
  }

  /* ---- how one command moves an id ---- */

  ghost predicate PutsBack(s: Sys, cmd: Command, id: string) {
    && cmd == RequeueClaim(id)
    && id in s.queue.claimed && s.queue.claimed[id].JobJson? && s.queue.claimed[id].job.pushId == id
  }

  lemma PendingAfter(s: Sys, cmd: Command, t: Sys, id: string)
    requires cmd.ClaimNext? ==> Next(s).Got?
    requires t.queue == QueueAfter(s, cmd)
    ensures Pending(s, id) ==> Pending(t, id) || (cmd.ClaimNext? && id == Next(s).job.pushId)
    ensures cmd.PushJob? && id == cmd.job.pushId ==> Pending(t, id)
    ensures PutsBack(s, cmd, id) ==> Pending(t, id)
    ensures !cmd.PushJob? && !cmd.RequeueClaim? && Pending(t, id) ==> Pending(s, id)
  {
    if cmd.PushJob? && id == cmd.job.pushId {
      assert t.queue.pending[|s.queue.pending|].job.pushId == id;
    }
    if PutsBack(s, cmd, id) {
      assert t.queue.pending[0].job.pushId == id;
    }
    if Pending(s, id) {
      var i :| 0 <= i < |s.queue.pending| && s.queue.pending[i].JobJson? && s.queue.pending[i].job.pushId == id;
      if cmd.ClaimNext? {
        if i > 0 { assert t.queue.pending[i - 1] == s.queue.pending[i]; }
      } else if cmd.RequeueClaim? && cmd.id in s.queue.claimed {
        assert t.queue.pending[i + 1] == s.queue.pending[i];
      } else {
        assert t.queue.pending[i] == s.queue.pending[i];
      }
    }
    if cmd.ClaimNext? && Pending(t, id) {
      var i :| 0 <= i < |t.queue.pending| && t.queue.pending[i].JobJson? && t.queue.pending[i].job.pushId == id;
      assert s.queue.pending[i + 1] == t.queue.pending[i];
    }
  }

  lemma SettledGrows(c: Config, s: Sys, step: Step, id: string)
    requires Sound(c, s) && Enabled(c, s, step) && Settled(s, id)
    ensures Settled(Apply(c, s, step), id)
  {
    if step.ByHandler? { HandlerGrows(c, s, step.h); }
  }

  ghost function StepCommand(s: Sys, step: Step): Command
  {
    match step
    case Tick(_) => NoCommand
    case ByHandler(h) =>
      if (h.Promote? || (h.PromoteFails? && h.applied)) && h.id in s.handlers then PushJob(s.handlers[h.id].job)
      else NoCommand
    case ByWorker(w, a) =>
      if w < |s.workers| && (a.SweepOne? ==> s.workers[w].pc.Sweeping? && a.id in s.workers[w].pc.read)
      then CommandOf(s.workers[w], a) else NoCommand
  }

  // s becomes t by running one command on Valkey, whatever else changes.
  ghost predicate Ran(s: Sys, cmd: Command, t: Sys) {
    && (cmd.ClaimNext? ==> Next(s).Got?)
    && t.queue == QueueAfter(s, cmd)
    && t.nextTicket == (if cmd.ClaimNext? then s.nextTicket + 1 else s.nextTicket)
    && t.owner == (if cmd.ClaimNext? then s.owner[Next(s).job.pushId := s.nextTicket] else s.owner)
    && t.stampOwner == (if cmd.ClaimNext? then s.stampOwner[Next(s).job.pushId := s.nextTicket] else s.stampOwner)
  }

  ghost predicate OnlyMoves(s: Sys, step: Step, t: Sys) {
    && |t.workers| == |s.workers|
    && (forall v :: 0 <= v < |s.workers| && !(step.ByWorker? && step.w == v) ==> t.workers[v] == s.workers[v])
  }

  lemma HandlerRuns(c: Config, s: Sys, h: HandlerStep)
    requires CanHandle(c, s, h)
    ensures Ran(s, StepCommand(s, ByHandler(h)), ApplyHandler(c, s, h))
    ensures ApplyHandler(c, s, h).workers == s.workers
  {
  }

  lemma WorkerRuns(c: Config, s: Sys, w: nat, a: WorkerStep)
    requires w < |s.workers| && CanWork(c, s, s.workers[w], a)
    ensures Ran(s, StepCommand(s, ByWorker(w, a)), ApplyWorker(c, s, w, a))
    ensures ApplyWorker(c, s, w, a).workers == s.workers[w := Move(c, s, s.workers[w], a)]
  {
  }

  lemma StepRuns(c: Config, s: Sys, step: Step)
    requires Enabled(c, s, step)
    ensures Ran(s, StepCommand(s, step), Apply(c, s, step))
    ensures OnlyMoves(s, step, Apply(c, s, step))
    ensures step.ByWorker? ==> Apply(c, s, step).workers[step.w] == Move(c, s, s.workers[step.w], step.a)
  {
    match step {
      case Tick(_) =>
      case ByHandler(h) => HandlerRuns(c, s, h);
      case ByWorker(w, a) => WorkerRuns(c, s, w, a);
    }
  }

  /* ---- the exact step that loses a push ---- */

  // The ack after a requeue, when its claim entry has been rewritten, the requeued copy has already
  // been taken and nothing has settled the push.
  ghost predicate DropsLastCopy(s: Sys, step: Step, id: string) {
    && StepCommand(s, step) == DelClaim(id)
    && step.ByWorker? && step.w < |s.workers| && s.workers[step.w].pc.Requeued?
    && id in s.queue.claimed && !Pending(s, id) && !Settled(s, id)
  }

  // An Ack about to remove a claim entry, or a stamp, that some other Claim wrote.
  ghost predicate ForeignClaim(s: Sys, step: Step) {
    var cmd := StepCommand(s, step);
    && cmd.DelClaim? && step.ByWorker? && step.w < |s.workers|
    && cmd.id in s.queue.claimed && cmd.id in s.owner && s.owner[cmd.id] != s.workers[step.w].ticket
  }

  ghost predicate ForeignStamp(s: Sys, step: Step) {
    var cmd := StepCommand(s, step);
    && cmd.DelStamp? && step.ByWorker? && step.w < |s.workers|
    && cmd.id in s.queue.stamps && cmd.id in s.stampOwner && s.stampOwner[cmd.id] != s.workers[step.w].ticket
  }

  /** In every reachable state and for every step: a push that is still held stops being held exactly
      when the step drops its last copy, and that step always deletes a claim of another worker. */
  lemma LossExactly(c: Config, s: Sys, step: Step, id: string)
    requires Sound(c, s) && Books(s) && Enabled(c, s, step) && Held(s, id)
    ensures !Held(Apply(c, s, step), id) <==> DropsLastCopy(s, step, id)
    ensures DropsLastCopy(s, step, id) ==> ForeignClaim(s, step)
  {
    var t, cmd := Apply(c, s, step), StepCommand(s, step);
    StepRuns(c, s, step);
    PendingAfter(s, cmd, t, id);
    if Settled(s, id) {
      SettledGrows(c, s, step, id);
    } else {
      if cmd.RequeueClaim? && cmd.id == id && id in s.queue.claimed {
        assert Retryable(c, s, s.queue.claimed[id]);
      }
      if cmd == DelClaim(id) && id in s.queue.claimed {
        assert WorkerBooks(s, step.w);
        assert step.a.AckClaim? || step.a.AckClaimFails?;
        if !Pending(s, id) {
          assert !Settled(t, id) by { LostIsUnsettled(c, s, step, id); }
        }
      }
    }
  }

  lemma LostIsUnsettled(c: Config, s: Sys, step: Step, id: string)
    requires Sound(c, s) && Enabled(c, s, step) && !Settled(s, id)
    requires step.ByWorker? && (step.a.AckClaim? || step.a.AckClaimFails?)
    ensures !Settled(Apply(c, s, step), id)
  {
  }

  lemma TicketsAfter(s: Sys, cmd: Command, t: Sys)
    requires Tickets(s) && Ran(s, cmd, t)
    requires forall w :: 0 <= w < |t.workers| && t.workers[w].Holding() ==> t.workers[w].ticket < t.nextTicket
    ensures Tickets(t)
  {
  }

  lemma MoverTicket(c: Config, s: Sys, me: Worker, a: WorkerStep)
    requires CanWork(c, s, me, a)
    ensures var me1 := Move(c, s, me, a);
            me1.Holding() ==> if a.Claim? then me1.ticket == s.nextTicket else me.Holding() && me1.ticket == me.ticket
  {
  }

  lemma TicketsStep(c: Config, s: Sys, step: Step)
    requires Tickets(s) && Enabled(c, s, step)
    ensures Tickets(Apply(c, s, step))
  {
    var t, cmd := Apply(c, s, step), StepCommand(s, step);
    StepRuns(c, s, step);
    if step.ByWorker? { MoverTicket(c, s, s.workers[step.w], step.a); }
    forall v | 0 <= v < |t.workers| && t.workers[v].Holding() ensures t.workers[v].ticket < t.nextTicket {
      if !(step.ByWorker? && step.w == v) { assert t.workers[v] == s.workers[v]; }
    }
    TicketsAfter(s, cmd, t);
  }

  lemma BooksStep(c: Config, s: Sys, step: Step)
    requires Sound(c, s) && Books(s) && Enabled(c, s, step)
    ensures Books(Apply(c, s, step))
  {
    TicketsStep(c, s, step);
    var t := Apply(c, s, step);
    forall v | 0 <= v < |t.workers| ensures WorkerBooks(t, v) {
      assert WorkerBooks(s, v);
      if step.ByWorker? && step.w == v {
        MoverBooks(c, s, v, step.a);
      } else {
        BystanderBooks(c, s, step, v);
      }
    }
  }

  lemma BystanderBooks(c: Config, s: Sys, step: Step, v: nat)
    requires Sound(c, s) && Books(s) && Enabled(c, s, step)
    requires v < |s.workers| && !(step.ByWorker? && step.w == v)
    ensures v < |Apply(c, s, step).workers| && WorkerBooks(Apply(c, s, step), v)
  {
    var id := s.workers[v].job.pushId;
    StepRuns(c, s, step);
    if Settled(s, id) { SettledGrows(c, s, step, id); }
    BooksAfter(s, StepCommand(s, step), Apply(c, s, step), v);
  }

  lemma BooksAfter(s: Sys, cmd: Command, t: Sys, v: nat)
    requires Tickets(s) && Ran(s, cmd, t)
    requires v < |s.workers| && v < |t.workers| && t.workers[v] == s.workers[v] && WorkerBooks(s, v)
    requires Settled(s, s.workers[v].job.pushId) ==> Settled(t, s.workers[v].job.pushId)
    ensures WorkerBooks(t, v)
  {
    PendingAfter(s, cmd, t, s.workers[v].job.pushId);
  }

  lemma MoverBooks(c: Config, s: Sys, w: nat, a: WorkerStep)
    requires Sound(c, s) && Books(s) && Enabled(c, s, ByWorker(w, a))
    ensures WorkerBooks(Apply(c, s, ByWorker(w, a)), w)
  {
    var step := ByWorker(w, a);
    var t, me := Apply(c, s, step), s.workers[w];
    var id := me.job.pushId;
    assert WorkerBooks(s, w) && WorkerCopy(c, s, w);
    assert t.workers[w] == Move(c, s, me, a);
    if Settled(s, id) { SettledGrows(c, s, step, id); }
    if a.PushSucceeds? {
      assert t.registry[|s.registry|] == Landed(me.job);
      assert Published(t, id);
    }
    if a.Requeue? { PendingAfter(s, PushJob(me.job), t, id); }
  }

  /* ---- runs ---- */

  ghost predicate NeverForeignClaim(c: Config, s: Sys, steps: seq<Step>)
    requires Run(c, s, steps)
    decreases |steps|
  {
    steps == [] || (!ForeignClaim(s, steps[0]) && NeverForeignClaim(c, Apply(c, s, steps[0]), steps[1..]))
  }

  ghost predicate AllHeld(s: Sys) { forall id :: id in s.accepted ==> Held(s, id) }

  lemma AllHeldStep(c: Config, s: Sys, step: Step)
    requires Sound(c, s) && Books(s) && AllHeld(s) && Enabled(c, s, step) && !ForeignClaim(s, step)
    ensures AllHeld(Apply(c, s, step))
  {
    var t := Apply(c, s, step);
    forall id | id in t.accepted ensures Held(t, id) {
      if id in s.accepted {
        LossExactly(c, s, step, id);
      } else {
        assert step == ByHandler(Promote(id));
        assert HandlerOk(c, s, id);
        StepRuns(c, s, step);
        PendingAfter(s, StepCommand(s, step), t, id);
      }
    }
  }

  lemma {:induction false} RunHolds(c: Config, s: Sys, steps: seq<Step>)
    requires c.settings.Valid() && Sound(c, s) && Books(s) && AllHeld(s)
    requires Run(c, s, steps) && NeverForeignClaim(c, s, steps)
    ensures AllHeld(Final(c, s, steps))
    decreases |steps|
  {
    if steps != [] {
      SoundStep(c, s, steps[0]);
      BooksStep(c, s, steps[0]);
      AllHeldStep(c, s, steps[0]);
      RunHolds(c, Apply(c, s, steps[0]), steps[1..]);
    }
  }

  /** Durable no-loss, with any number of workers: every push answered 201 is published, recorded as
      abandoned, pending or claimed at the end of every run in which no Ack removes a claim entry
      that another worker's Claim wrote. */
  lemma NoLoss(c: Config, s: Sys, steps: seq<Step>)
    requires c.settings.Valid() && Init(s) && Run(c, s, steps) && NeverForeignClaim(c, s, steps)
    ensures forall id :: id in Final(c, s, steps).accepted ==> Held(Final(c, s, steps), id)
  {
    InitSound(c, s);
    RunHolds(c, s, steps);
  }

  lemma {:induction false} RunBooks(c: Config, s: Sys, steps: seq<Step>)
    requires c.settings.Valid() && Sound(c, s) && Books(s) && Run(c, s, steps)
    ensures Sound(c, Final(c, s, steps)) && Books(Final(c, s, steps))
    decreases |steps|
  {
    if steps != [] {
      SoundStep(c, s, steps[0]);
      BooksStep(c, s, steps[0]);
      RunBooks(c, Apply(c, s, steps[0]), steps[1..]);
    }
  }

  // The step drops the last copy of a push that was answered 201.
  ghost predicate DropsAccepted(s: Sys, step: Step) {
    var cmd := StepCommand(s, step);
    cmd.DelClaim? && cmd.id in s.accepted && DropsLastCopy(s, step, cmd.id)
  }

  ghost predicate NeverDrops(c: Config, s: Sys, steps: seq<Step>)
    requires Run(c, s, steps)
    decreases |steps|
  {
    steps == [] || (!DropsAccepted(s, steps[0]) && NeverDrops(c, Apply(c, s, steps[0]), steps[1..]))
  }

  ghost predicate AllHeldAlong(c: Config, s: Sys, steps: seq<Step>)
    requires Run(c, s, steps)
    decreases |steps|
  {
    AllHeld(s) && (steps != [] ==> AllHeldAlong(c, Apply(c, s, steps[0]), steps[1..]))
  }

  lemma OnlyPromoteAccepts(c: Config, s: Sys, step: Step, id: string)
    requires Enabled(c, s, step) && id in Apply(c, s, step).accepted && id !in s.accepted
    ensures step == ByHandler(Promote(id))
  {
  }

  lemma NewlyAccepted(c: Config, s: Sys, step: Step, id: string)
    requires Sound(c, s) && Enabled(c, s, step) && id in Apply(c, s, step).accepted && id !in s.accepted
    ensures Held(Apply(c, s, step), id)
  {
    OnlyPromoteAccepts(c, s, step, id);
    assert HandlerOk(c, s, id);
    StepRuns(c, s, step);
    PendingAfter(s, StepCommand(s, step), Apply(c, s, step), id);
  }

  lemma AcceptedGrows(c: Config, s: Sys, step: Step)
    requires Enabled(c, s, step)
    ensures s.accepted <= Apply(c, s, step).accepted
  {
  }

  lemma AllHeldExactly(c: Config, s: Sys, step: Step)
    requires Sound(c, s) && Books(s) && AllHeld(s) && Enabled(c, s, step)
    ensures AllHeld(Apply(c, s, step)) <==> !DropsAccepted(s, step)
  {
    var t := Apply(c, s, step);
    AcceptedGrows(c, s, step);
    forall id | id in t.accepted ensures !Held(t, id) <==> id in s.accepted && DropsLastCopy(s, step, id) {
      if id in s.accepted { LossExactly(c, s, step, id); } else { NewlyAccepted(c, s, step, id); }
    }
    if DropsAccepted(s, step) { assert !Held(t, StepCommand(s, step).id); }
  }

  lemma {:induction false} RunHeldExactly(c: Config, s: Sys, steps: seq<Step>)
    requires c.settings.Valid() && Sound(c, s) && Books(s) && AllHeld(s) && Run(c, s, steps)
    ensures AllHeldAlong(c, s, steps) <==> NeverDrops(c, s, steps)
    decreases |steps|
  {
    if steps != [] {
      SoundStep(c, s, steps[0]);
      BooksStep(c, s, steps[0]);
      AllHeldExactly(c, s, steps[0]);
      if !DropsAccepted(s, steps[0]) { RunHeldExactly(c, Apply(c, s, steps[0]), steps[1..]); }
    }
  }

  /** Exactly, over runs: every push answered 201 is held at every moment if and only if no Ack of the run
      drops the last copy of one. */
  lemma NoLossExactly(c: Config, s: Sys, steps: seq<Step>)
    requires c.settings.Valid() && Init(s) && Run(c, s, steps)
    ensures AllHeldAlong(c, s, steps) <==> NeverDrops(c, s, steps)
  {
    InitSound(c, s);
    RunHeldExactly(c, s, steps);
  }

  /** The same from the other side, for every run: at whatever point it has reached, the only step that
      can lose a held push is a foreign Ack that drops its last copy, and that step does lose it. */
  lemma LossInAnyRun(c: Config, s: Sys, steps: seq<Step>, step: Step, id: string)
    requires c.settings.Valid() && Init(s) && Run(c, s, steps)
    requires Enabled(c, Final(c, s, steps), step) && Held(Final(c, s, steps), id)
    ensures var t := Final(c, s, steps);
            && (!Held(Apply(c, t, step), id) <==> DropsLastCopy(t, step, id))
            && (DropsLastCopy(t, step, id) ==> ForeignClaim(t, step))
  {
    InitSound(c, s);
    RunBooks(c, s, steps);
    LossExactly(c, Final(c, s, steps), step, id);
  }

  /* ---- every abandoned claim can be found by a sweep ---- */

  // A claim no sweep will ever look at.
  ghost predicate Stranded(s: Sys, id: string) { id in s.queue.claimed && id !in s.queue.stamps }

  // One Claim writes an entry and its stamp, and a worker between Ack's two deletes has let go of its own.
  ghost predicate Stamped(s: Sys) {
    && s.owner == s.stampOwner
    && (forall w :: 0 <= w < |s.workers| && s.workers[w].pc.StampLeft? ==>
          !(s.workers[w].job.pushId in s.queue.claimed && s.workers[w].job.pushId in s.owner
            && s.owner[s.workers[w].job.pushId] == s.workers[w].ticket))
  }

  // Only the first of Ack's deletes leads to StampLeft, and it removed the claim.
  lemma MoverStampLeft(c: Config, s: Sys, me: Worker, a: WorkerStep)
    requires CanWork(c, s, me, a) && Move(c, s, me, a).pc.StampLeft?
    ensures CommandOf(me, a) == DelClaim(Move(c, s, me, a).job.pushId)
  {
  }

  lemma StampedStep(c: Config, s: Sys, step: Step)
    requires Tickets(s) && Stamped(s) && Enabled(c, s, step)
    ensures Stamped(Apply(c, s, step))
  {
    StepRuns(c, s, step);
    var t := Apply(c, s, step);
    forall v | 0 <= v < |t.workers| && t.workers[v].pc.StampLeft?
      ensures !(t.workers[v].job.pushId in t.queue.claimed && t.workers[v].job.pushId in t.owner
                && t.owner[t.workers[v].job.pushId] == t.workers[v].ticket)
    {
      if step.ByWorker? && step.w == v {
        MoverStampLeft(c, s, s.workers[v], step.a);
      } else {
        assert t.workers[v] == s.workers[v] && s.workers[v].Holding();
      }
    }
  }

  // The second of Ack's deletes is the only command that removes a stamp alone.
  lemma StampDeleter(c: Config, s: Sys, step: Step, id: string)
    requires Enabled(c, s, step) && StepCommand(s, step) == DelStamp(id)
    ensures step.ByWorker? && s.workers[step.w].pc.StampLeft? && s.workers[step.w].job.pushId == id
  {
  }

  /** In every reachable state and for every step: a claim that has its stamp loses it and is left behind
      exactly when the step is the second delete of an Ack on that id, and the stamp it deletes is always
      another Claim's. A foreign delete while no claim stands strands nothing. */
  lemma StrandExactly(c: Config, s: Sys, step: Step, id: string)
    requires Tickets(s) && Stamped(s) && Enabled(c, s, step)
    requires id in s.queue.claimed && id in s.queue.stamps
    ensures Stranded(Apply(c, s, step), id) <==> StepCommand(s, step) == DelStamp(id)
    ensures StepCommand(s, step) == DelStamp(id) ==> ForeignStamp(s, step)
  {
    StepRuns(c, s, step);
    if StepCommand(s, step) == DelStamp(id) { StampDeleter(c, s, step, id); }
  }

  // What no step does: leave an id claimed and unstamped that was not claimed before.
  lemma ClaimsBringStamps(c: Config, s: Sys, step: Step, id: string)
    requires Enabled(c, s, step) && id !in s.queue.claimed
    ensures !Stranded(Apply(c, s, step), id)
  {
    StepRuns(c, s, step);
  }

  lemma {:induction false} RunStamped(c: Config, s: Sys, steps: seq<Step>)
    requires Tickets(s) && Stamped(s) && Run(c, s, steps)
    ensures Tickets(Final(c, s, steps)) && Stamped(Final(c, s, steps))
    decreases |steps|
  {
    if steps != [] {
      TicketsStep(c, s, steps[0]);
      StampedStep(c, s, steps[0]);
      RunStamped(c, Apply(c, s, steps[0]), steps[1..]);
    }
  }

  /** The same after every run: the step that strands a claim is that delete and no other. */
  lemma StrandInAnyRun(c: Config, s: Sys, steps: seq<Step>, step: Step, id: string)
    requires Init(s) && Run(c, s, steps) && Enabled(c, Final(c, s, steps), step)
    requires !Stranded(Final(c, s, steps), id)
    ensures var t := Final(c, s, steps);
            && (Stranded(Apply(c, t, step), id) <==>
                  id in t.queue.claimed && StepCommand(t, step) == DelStamp(id))
            && (Stranded(Apply(c, t, step), id) ==> ForeignStamp(t, step))
  {
    RunStamped(c, s, steps);
    var t := Final(c, s, steps);
    if id in t.queue.claimed {
      StrandExactly(c, t, step, id);
    } else {
      ClaimsBringStamps(c, t, step, id);
    }
  }

  // The second delete of an Ack, while a claim stands under its id.
  ghost predicate StrandsSome(s: Sys, step: Step) {
    StepCommand(s, step).DelStamp? && StepCommand(s, step).id in s.queue.claimed
  }

  ghost predicate NeverStrands(c: Config, s: Sys, steps: seq<Step>)
    requires Run(c, s, steps)
    decreases |steps|
  {
    steps == [] || (!StrandsSome(s, steps[0]) && NeverStrands(c, Apply(c, s, steps[0]), steps[1..]))
  }

  ghost predicate AllStampedAlong(c: Config, s: Sys, steps: seq<Step>)
    requires Run(c, s, steps)
    decreases |steps|
  {
    && (forall id :: !Stranded(s, id))
    && (steps != [] ==> AllStampedAlong(c, Apply(c, s, steps[0]), steps[1..]))
  }

  lemma StrandsSomeExactly(c: Config, s: Sys, step: Step)
    requires Tickets(s) && Stamped(s) && Enabled(c, s, step) && forall id :: !Stranded(s, id)
    ensures (forall id :: !Stranded(Apply(c, s, step), id)) <==> !StrandsSome(s, step)
  {
    forall id ensures Stranded(Apply(c, s, step), id)
        <==> id in s.queue.claimed && StepCommand(s, step) == DelStamp(id) {
      if id in s.queue.claimed {
        assert !Stranded(s, id);
        StrandExactly(c, s, step, id);
      } else {
        ClaimsBringStamps(c, s, step, id);
      }
    }
    if StrandsSome(s, step) { assert Stranded(Apply(c, s, step), StepCommand(s, step).id); }
  }

  lemma {:induction false} RunStrands(c: Config, s: Sys, steps: seq<Step>)
    requires Tickets(s) && Stamped(s) && Run(c, s, steps) && forall id :: !Stranded(s, id)
    ensures AllStampedAlong(c, s, steps) <==> NeverStrands(c, s, steps)
    decreases |steps|
  {
    if steps != [] {
      TicketsStep(c, s, steps[0]);
      StampedStep(c, s, steps[0]);
      StrandsSomeExactly(c, s, steps[0]);
      if !StrandsSome(s, steps[0]) { RunStrands(c, Apply(c, s, steps[0]), steps[1..]); }
    }
  }

  lemma {:induction false} StampedAtTheEnd(c: Config, s: Sys, steps: seq<Step>)
    requires Run(c, s, steps) && AllStampedAlong(c, s, steps)
    ensures forall id :: !Stranded(Final(c, s, steps), id)
    decreases |steps|
  {
    if steps != [] { StampedAtTheEnd(c, Apply(c, s, steps[0]), steps[1..]); }
  }

  /** Whatever crashes and fails: every claim has a stamp, at every moment of a run, if and only if no Ack
      of the run deletes a stamp while a claim stands under its id. */
  lemma ClaimsStayRecoverable(c: Config, s: Sys, steps: seq<Step>)
    requires Init(s) && Run(c, s, steps)
    ensures AllStampedAlong(c, s, steps) <==> NeverStrands(c, s, steps)
    ensures NeverStrands(c, s, steps) ==> Final(c, s, steps).queue.claimed.Keys <= Final(c, s, steps).queue.stamps.Keys
  {
    RunStrands(c, s, steps);
    if NeverStrands(c, s, steps) {
      StampedAtTheEnd(c, s, steps);
      forall id | id in Final(c, s, steps).queue.claimed ensures id in Final(c, s, steps).queue.stamps {
        assert !Stranded(Final(c, s, steps), id);
      }
    }
  }

  /* ---- one worker ---- */

  // While the only worker is inside handle, whatever entry stands under its push ID is its own.
  ghost predicate Own(s: Sys) {
    var me := s.workers;
    && |me| == 1
    && (me[0].Holding() ==>
          && (me[0].job.pushId in s.queue.claimed ==>
              me[0].job.pushId in s.owner && s.owner[me[0].job.pushId] == me[0].ticket)
          && (me[0].job.pushId in s.queue.stamps ==>
              me[0].job.pushId in s.stampOwner && s.stampOwner[me[0].job.pushId] == me[0].ticket))
  }

  lemma OwnStep(c: Config, s: Sys, step: Step)
    requires Own(s) && Enabled(c, s, step)
    ensures Own(Apply(c, s, step))
    ensures !ForeignClaim(s, step) && !ForeignStamp(s, step)
  {
    StepRuns(c, s, step);
    if step.ByWorker? { OwnMove(c, s, step.a); }
  }

  lemma OwnMove(c: Config, s: Sys, a: WorkerStep)
    requires Own(s) && CanWork(c, s, s.workers[0], a)
    ensures Own(ApplyWorker(c, s, 0, a))
    ensures var cmd := CommandOf(s.workers[0], a);
            cmd.DelClaim? || cmd.DelStamp? ==> s.workers[0].Holding() && cmd.id == s.workers[0].job.pushId
  {
    WorkerRuns(c, s, 0, a);
  }

  lemma StrandsNothing(c: Config, s: Sys, step: Step)
    requires Tickets(s) && Stamped(s) && Enabled(c, s, step) && !ForeignStamp(s, step) && forall id :: !Stranded(s, id)
    ensures !StrandsSome(s, step) && forall id :: !Stranded(Apply(c, s, step), id)
  {
    if StrandsSome(s, step) {
      var id := StepCommand(s, step).id;
      assert !Stranded(s, id);
      StrandExactly(c, s, step, id);
    }
    StrandsSomeExactly(c, s, step);
  }

  lemma {:induction false} RunOwn(c: Config, s: Sys, steps: seq<Step>)
    requires Own(s) && Run(c, s, steps)
    requires Tickets(s) && Stamped(s) && forall id :: !Stranded(s, id)
    ensures NeverForeignClaim(c, s, steps) && NeverStrands(c, s, steps)
    decreases |steps|
  {
    if steps != [] {
      OwnStep(c, s, steps[0]);
      TicketsStep(c, s, steps[0]);
      StampedStep(c, s, steps[0]);
      StrandsNothing(c, s, steps[0]);
      RunOwn(c, Apply(c, s, steps[0]), steps[1..]);
    }
  }

  /** With a single worker nothing has to be assumed: through every crash, restart and failed command
      each push answered 201 stays held and each claim stays recoverable. */
  lemma OneWorkerNeverLoses(c: Config, s: Sys, steps: seq<Step>)
    requires c.settings.Valid() && Init(s) && |s.workers| == 1 && Run(c, s, steps)
    ensures forall id :: id in Final(c, s, steps).accepted ==> Held(Final(c, s, steps), id)
    ensures Final(c, s, steps).queue.claimed.Keys <= Final(c, s, steps).queue.stamps.Keys
  {
    RunOwn(c, s, steps);
    NoLoss(c, s, steps);
    ClaimsStayRecoverable(c, s, steps);
  }
}
