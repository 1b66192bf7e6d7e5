/** What every reachable state of the protocol keeps, with any number of workers, crashes and failed
    commands: copies of a job never drift from what the gate passed, attempts stay under the budget,
    and nothing ungated is reachable from the registry. */
module ProtocolSafety {
  import opened Basics
  import opened PromoteJob
  import opened Manifests
  import opened Protocol
  import V = Valkey

  // The two ways every proof about runs is built: a fact that holds at Init and that no enabled
  // step breaks holds wherever a run ends.

  // A copy of a job, wherever it is, is one a handler issued for a gated image.
  ghost predicate Copy(c: Config, s: Sys, j: Job) {
    && j.pushId in s.issued
    && SameCore(j, s.issued[j.pushId])
    && j.attempts <= c.settings.Budget()
  }

  ghost predicate IssuedOk(s: Sys, id: string)
    requires id in s.issued
  {
    && s.issued[id].pushId == id && id != "" && id in s.staged
    && s.issued[id].attempts == 0 && s.issued[id].manifest in s.gated
  }

  ghost predicate HandlerOk(c: Config, s: Sys, id: string)
    requires id in s.handlers
  {
    var h := s.handlers[id];
    && h.job.pushId == id && id != "" && id in s.staged
    && h.job.attempts == 0 && KindOf(c, h.job.manifest) == Some(Image)
    && (h.stage == Passed ==> h.job.manifest in s.gated)
    && (h.stage != Releasing ==> id !in s.issued)
  }

  ghost predicate Records(c: Config, s: Sys) {
    && (forall id :: id in s.issued ==> IssuedOk(s, id))
    && (forall id :: id in s.handlers ==> HandlerOk(c, s, id))
    && (forall raw :: raw in s.gated ==> KindOf(c, raw) == Some(Image))
    && s.accepted <= s.issued.Keys
  }

  // A copy in the queue has attempts left.
  ghost predicate Retryable(c: Config, s: Sys, p: V.Payload) {
    p.JobJson? && Copy(c, s, p.job) && p.job.attempts < c.settings.Budget()
  }

  ghost predicate QueueCopies(c: Config, s: Sys) {
    && (forall p :: p in s.queue.pending ==> Retryable(c, s, p))
    && (forall id :: id in s.queue.claimed ==>
          Retryable(c, s, s.queue.claimed[id]) && s.queue.claimed[id].job.pushId == id)
    && (forall id :: id in s.queue.stamps ==> s.queue.stamps[id].At?)
    && s.queue.dead == []
  }

  ghost predicate WorkerCopy(c: Config, s: Sys, w: nat)
    requires w < |s.workers|
  {
    var me := s.workers[w];
    me.Holding() ==>
      && Copy(c, s, me.job)
      && (me.pc.Working? || me.pc.Requeued? ==> me.job.attempts < c.settings.Budget())
  }

  ghost predicate Sound(c: Config, s: Sys) {
    && Records(c, s)
    && QueueCopies(c, s)
    && (forall w :: 0 <= w < |s.workers| ==> WorkerCopy(c, s, w))
  }

  // What a step leaves of the records that copies are checked against.
  ghost predicate Grows(s: Sys, t: Sys) {
    && (forall id :: id in s.issued ==> id in t.issued && t.issued[id] == s.issued[id])
    && s.staged <= t.staged && s.gated <= t.gated
  }

  lemma HandlerIssued(c: Config, s: Sys, h: HandlerStep, id: string)
    requires Records(c, s) && CanHandle(c, s, h)
    requires id in ApplyHandler(c, s, h).issued
    ensures IssuedOk(ApplyHandler(c, s, h), id)
  {
    assert id in s.issued ==> IssuedOk(s, id);
    assert id in s.handlers ==> HandlerOk(c, s, id);
  }

  lemma HandlerHandlers(c: Config, s: Sys, h: HandlerStep, id: string)
    requires Records(c, s) && CanHandle(c, s, h)
    requires id in ApplyHandler(c, s, h).handlers
    ensures HandlerOk(c, ApplyHandler(c, s, h), id)
  {
    assert id in s.handlers ==> HandlerOk(c, s, id);
    assert id in s.issued ==> IssuedOk(s, id);
  }

  lemma HandlerRecords(c: Config, s: Sys, h: HandlerStep)
    requires Records(c, s) && CanHandle(c, s, h)
    ensures Records(c, ApplyHandler(c, s, h)) && Grows(s, ApplyHandler(c, s, h))
  {
    var t := ApplyHandler(c, s, h);
    HandlerGrows(c, s, h);
    forall id | id in t.issued ensures IssuedOk(t, id) { HandlerIssued(c, s, h, id); }
    forall id | id in t.handlers ensures HandlerOk(c, t, id) { HandlerHandlers(c, s, h, id); }
  }

  lemma HandlerGrows(c: Config, s: Sys, h: HandlerStep)
    requires Records(c, s) && CanHandle(c, s, h)
    ensures Grows(s, ApplyHandler(c, s, h))
    ensures forall raw :: raw in ApplyHandler(c, s, h).gated ==> KindOf(c, raw) == Some(Image)
    ensures ApplyHandler(c, s, h).accepted <= ApplyHandler(c, s, h).issued.Keys
  {
    if h.GatePass? || h.Promote? || h.PromoteFails? {
      assert HandlerOk(c, s, h.id);
    }
  }

  lemma RetryableGrows(c: Config, s: Sys, t: Sys)
    requires Grows(s, t)
    ensures forall p :: Retryable(c, s, p) ==> Retryable(c, t, p)
  {
  }

  lemma CommandKeepsCopies(c: Config, s: Sys, cmd: Command, t: Sys)
    requires QueueCopies(c, s)
    requires cmd.ClaimNext? ==> Next(s).Got?
    requires cmd.PushJob? ==> Retryable(c, t, V.JobJson(cmd.job))
    requires t.queue == QueueAfter(s, cmd) && Grows(s, t)
    ensures QueueCopies(c, t)
  {
    RetryableGrows(c, s, t);
    match cmd {
      case ClaimNext =>
        var p := s.queue.pending[0];
        assert t.queue == s.queue.(pending := s.queue.pending[1..],
                                   claimed := s.queue.claimed[p.job.pushId := p],
                                   stamps := s.queue.stamps[p.job.pushId := V.At(s.now)]);
      case RequeueClaim(id) => RequeueKeepsCopies(c, s, id, t);
      case _ =>
    }
  }

  lemma RequeueKeepsCopies(c: Config, s: Sys, id: string, t: Sys)
    requires QueueCopies(c, s)
    requires forall p :: Retryable(c, s, p) ==> Retryable(c, t, p)
    requires t.queue == V.RequeueScript(s.queue, id)
    ensures QueueCopies(c, t)
  {
    forall p | p in t.queue.pending ensures Retryable(c, t, p) {
      if p !in s.queue.pending {
        assert id in s.queue.claimed && p == s.queue.claimed[id];
      }
    }
  }

  lemma HandlerSound(c: Config, s: Sys, h: HandlerStep)
    requires Sound(c, s) && CanHandle(c, s, h)
    ensures Sound(c, ApplyHandler(c, s, h))
  {
    var t := ApplyHandler(c, s, h);
    HandlerRecords(c, s, h);
    var cmd :=
      if h.Promote? || (h.PromoteFails? && h.applied) then PushJob(s.handlers[h.id].job) else NoCommand;
    CommandKeepsCopies(c, s, cmd, t);
    forall w | 0 <= w < |t.workers| ensures WorkerCopy(c, t, w) {
      assert WorkerCopy(c, s, w);
    }
  }

  lemma WorkerSound(c: Config, s: Sys, w: nat, a: WorkerStep)
    requires c.settings.Valid()
    requires Sound(c, s) && w < |s.workers| && CanWork(c, s, s.workers[w], a)
    ensures Sound(c, ApplyWorker(c, s, w, a))
  {
    var t := ApplyWorker(c, s, w, a);
    var me := s.workers[w];
    assert WorkerCopy(c, s, w);
    CommandKeepsCopies(c, s, CommandOf(me, a), t);
    forall v | 0 <= v < |t.workers| ensures WorkerCopy(c, t, v) {
      if v != w {
        assert WorkerCopy(c, s, v);
      } else {
        if a.Claim? { assert s.queue.pending[0] in s.queue.pending; }
        MoverSound(c, s, w, a);
      }
    }
  }

  lemma MoverSound(c: Config, s: Sys, w: nat, a: WorkerStep)
    requires c.settings.Valid()
    requires w < |s.workers| && CanWork(c, s, s.workers[w], a) && WorkerCopy(c, s, w)
    requires a.Claim? ==> Retryable(c, s, s.queue.pending[0])
    ensures WorkerCopy(c, ApplyWorker(c, s, w, a), w)
  {
    var me, t := s.workers[w], ApplyWorker(c, s, w, a);
    assert t.issued == s.issued && t.workers[w] == Move(c, s, me, a);
  }

  lemma SoundStep(c: Config, s: Sys, step: Step)
    requires c.settings.Valid()
    requires Sound(c, s) && Enabled(c, s, step)
    ensures Sound(c, Apply(c, s, step))
  {
    match step {
      case Tick(d) =>
        forall w | 0 <= w < |s.workers| ensures WorkerCopy(c, Apply(c, s, step), w) { assert WorkerCopy(c, s, w); }
      case ByHandler(h) => HandlerSound(c, s, h);
      case ByWorker(w, a) => WorkerSound(c, s, w, a);
    }
  }

  lemma InitSound(c: Config, s: Sys)
    requires Init(s)
    ensures Sound(c, s)
  {
  }

  lemma {:induction false} RunSound(c: Config, s: Sys, steps: seq<Step>)
    requires c.settings.Valid() && Sound(c, s) && Run(c, s, steps)
    ensures Sound(c, Final(c, s, steps))
    decreases |steps|
  {
    if steps != [] {
      SoundStep(c, s, steps[0]);
      RunSound(c, Apply(c, s, steps[0]), steps[1..]);
    }
  }

  /** With any number of workers sharing one budget, whatever crashes, fails or is recovered: a job in
      the queue always has attempts left, and the uint8 counter of a job being worked never wraps. */
  lemma AttemptBound(c: Config, s: Sys, steps: seq<Step>)
    requires c.settings.Valid() && Init(s) && Run(c, s, steps)
    ensures var t := Final(c, s, steps); var budget := c.settings.Budget();
            && (forall p :: p in t.queue.pending ==> p.JobJson? && p.job.attempts < budget)
            && (forall id :: id in t.queue.claimed ==>
                  t.queue.claimed[id].JobJson? && t.queue.claimed[id].job.attempts < budget)
            && (forall w :: 0 <= w < |t.workers| && t.workers[w].Holding() ==> t.workers[w].job.attempts <= budget)
            && (forall w :: 0 <= w < |t.workers| && t.workers[w].pc.Working? ==>
                  IncU8(t.workers[w].job.attempts) == t.workers[w].job.attempts + 1)
  {
    InitSound(c, s);
    RunSound(c, s, steps);
    var t := Final(c, s, steps);
    forall w | 0 <= w < |t.workers| && t.workers[w].Holding()
      ensures t.workers[w].job.attempts <= c.settings.Budget()
      ensures t.workers[w].pc.Working? ==> t.workers[w].job.attempts < c.settings.Budget()
    {
      assert WorkerCopy(c, t, w);
    }
  }

  /** Every copy in the queue is the job the handler issued, up to the attempt count and local paths,
      and what it would publish passed the gate. */
  lemma QueuedIsGated(c: Config, s: Sys, steps: seq<Step>)
    requires c.settings.Valid() && Init(s) && Run(c, s, steps)
    ensures var t := Final(c, s, steps);
            forall p :: p in t.queue.pending ==>
              && p.JobJson? && p.job.pushId in t.issued && SameCore(p.job, t.issued[p.job.pushId])
              && p.job.manifest in t.gated && KindOf(c, p.job.manifest) == Some(Image)
  {
    InitSound(c, s);
    RunSound(c, s, steps);
    var t := Final(c, s, steps);
    forall p | p in t.queue.pending
      ensures p.JobJson? && p.job.pushId in t.issued && SameCore(p.job, t.issued[p.job.pushId])
      ensures p.job.manifest in t.gated && KindOf(c, p.job.manifest) == Some(Image)
    {
      assert Retryable(c, t, p) && IssuedOk(t, p.job.pushId);
    }
  }
}
