/** The protocol's worker steps, run without interruption, are exactly one call of handle: the transition
    system and the sequential worker describe the same code. */
module HandleRefinement {
  import opened Basics
  import opened PromoteJob
  import opened WorkerSettings
  import opened Protocol
  import H = HandleSpec
  import V = Valkey

  function FirstOfAck(env: H.Env): WorkerStep {
    if env.ackClaim.Works? then AckClaim else AckClaimFails(env.ackClaim.applied)
  }

  // The step handle takes next, given how the world answers.
  function NextStep(c: Config, me: Worker, env: H.Env): WorkerStep
    requires me.Holding()
  {
    match me.pc
    case Working => if env.pusher.Some? then NoPusher else Attempt
    case Attempting =>
      (match H.Localized(me.job, env)
       case Ok(here) => LayoutReady(here.ociPath, here.scratchDir)
       case Err(cause) => LayoutFails(cause.terminal))
    case Ready => if env.push.None? then PushSucceeds else PushFails(env.push.value.terminal, env.landed)
    case Failing(terminal) =>
      if terminal || Spent(c, me.job) then Retire
      else if env.enqueue.Works? then Requeue else RequeueFails(env.enqueue.applied)
    case StampLeft(_) => if env.ackStamp.Works? then AckStamp else AckStampFails(env.ackStamp.applied)
    case Cleaning => Cleanup
    case _ => FirstOfAck(env)
  }

  function Rank(pc: Pc): nat {
    match pc
    case Working => 7
    case Attempting => 6
    case Ready => 5
    case Failing(_) => 4
    case StampLeft(_) => 2
    case Cleaning => 1
    case Idle => 0
    case Sweeping(_, _) => 0
    case _ => 3
  }

  lemma NextStepRuns(c: Config, s: Sys, me: Worker, env: H.Env)
    requires me.Holding()
    ensures CanWork(c, s, me, NextStep(c, me, env))
    ensures Rank(Move(c, s, me, NextStep(c, me, env)).pc) < Rank(me.pc)
    ensures !Move(c, s, me, NextStep(c, me, env)).pc.Sweeping?
  {
  }

  // What handle still has to do from each point; the two deletes of Ack are one effect there.
  function Remaining(c: Config, me: Worker, env: H.Env): seq<H.Effect>
    requires me.Holding() && !me.pc.StampLeft?
  {
    match me.pc
    case Working => H.HandleEffects(c.settings, me.job, env)
    case Attempting => H.AttemptEffects(c.settings, me.job, env)
    case Ready => H.PushEffects(c.settings, me.job, env)
    case Failing(terminal) => H.FailEffects(c.settings, me.job, H.Cause(terminal, ""), env)
    case Requeued => [H.AckOf(me.job, env)]
    case Cleaning => [H.CleanedUp(me.job)]
    case _ => [H.AckOf(me.job, env), H.CleanedUp(me.job)]
  }

  // What an effect changes outside the worker.
  function OnSys(s: Sys, e: H.Effect): Sys {
    s.(queue := H.OnQueue(s.queue, e),
       registry := if e.PushTried? && e.landed then s.registry + [Landed(e.job)] else s.registry,
       abandoned := if e.Finalized? && !e.ok then s.abandoned + {e.job.pushId} else s.abandoned,
       cleaned := if e.CleanedUp? then s.cleaned + multiset{e.job.pushId} else s.cleaned)
  }

  function AllOnSys(s: Sys, es: seq<H.Effect>): Sys
    decreases |es|
  {
    if es == [] then s else AllOnSys(OnSys(s, es[0]), es[1..])
  }

  // Everything outside the workers.
  ghost predicate SameWorld(a: Sys, b: Sys) { a.(workers := b.workers) == b }

  lemma {:induction false} SameWorldEffects(a: Sys, b: Sys, es: seq<H.Effect>)
    requires SameWorld(a, b)
    ensures SameWorld(AllOnSys(a, es), AllOnSys(b, es))
    decreases |es|
  {
    if es != [] { SameWorldEffects(OnSys(a, es[0]), OnSys(b, es[0]), es[1..]); }
  }

  lemma OneEffect(s: Sys, e: H.Effect, rest: seq<H.Effect>)
    ensures AllOnSys(s, [e] + rest) == AllOnSys(OnSys(s, e), rest)
  {
    assert ([e] + rest)[1..] == rest;
  }

  lemma DoesFirst(s: Sys, t: Sys, e: H.Effect, rest: seq<H.Effect>)
    requires SameWorld(OnSys(s, e), t)
    ensures SameWorld(AllOnSys(s, [e] + rest), AllOnSys(t, rest))
  {
    OneEffect(s, e, rest);
    SameWorldEffects(OnSys(s, e), t, rest);
  }

  function RemainingAt(c: Config, t: Sys, w: nat, env: H.Env): seq<H.Effect>
    requires w < |t.workers|
  {
    var me := t.workers[w];
    if me.Holding() && !me.pc.StampLeft? then Remaining(c, me, env) else []
  }

  function Stepped(c: Config, s: Sys, w: nat, env: H.Env): Sys
    requires w < |s.workers| && s.workers[w].Holding()
  {
    NextStepRuns(c, s, s.workers[w], env);
    ApplyWorker(c, s, w, NextStep(c, s.workers[w], env))
  }

  // One step does the first effect that is left, or none when it only moves the worker.
  ghost predicate StepDoes(c: Config, s: Sys, w: nat, env: H.Env)
    requires w < |s.workers| && s.workers[w].Holding()
  {
    var t := Stepped(c, s, w, env);
    SameWorld(AllOnSys(s, RemainingAt(c, s, w, env)), AllOnSys(t, RemainingAt(c, t, w, env)))
  }

  lemma PreparingDoes(c: Config, s: Sys, w: nat, env: H.Env)
    requires w < |s.workers| && (s.workers[w].pc.Attempting? || (s.workers[w].pc.Working? && env.pusher.None?))
    ensures StepDoes(c, s, w, env)
  {
    var t := Stepped(c, s, w, env);
    assert SameWorld(s, t);
    assert RemainingAt(c, t, w, env) == RemainingAt(c, s, w, env);
    SameWorldEffects(s, t, RemainingAt(c, s, w, env));
  }

  lemma NoPusherDoes(c: Config, s: Sys, w: nat, env: H.Env)
    requires w < |s.workers| && s.workers[w].pc.Working? && env.pusher.Some?
    ensures StepDoes(c, s, w, env)
  {
    var t := Stepped(c, s, w, env);
    assert RemainingAt(c, s, w, env) == [H.Finalized(s.workers[w].job, false)] + RemainingAt(c, t, w, env);
    DoesFirst(s, t, H.Finalized(s.workers[w].job, false), RemainingAt(c, t, w, env));
  }

  lemma PushDoes(c: Config, s: Sys, w: nat, env: H.Env)
    requires w < |s.workers| && s.workers[w].pc.Ready?
    ensures StepDoes(c, s, w, env)
  {
    var t, j := Stepped(c, s, w, env), s.workers[w].job;
    var rest := RemainingAt(c, t, w, env);
    match env.push {
      case Some(_) =>
        assert RemainingAt(c, s, w, env) == [H.PushTried(j, false, env.landed)] + rest;
        DoesFirst(s, t, H.PushTried(j, false, env.landed), rest);
      case None =>
        // The record of a success leaves no row, so both effects belong to this step.
        assert RemainingAt(c, s, w, env) == [H.PushTried(j, true, true)] + ([H.Finalized(j, true)] + rest);
        assert OnSys(t, H.Finalized(j, true)) == t;
        OneEffect(t, H.Finalized(j, true), rest);
        DoesFirst(s, t, H.PushTried(j, true, true), [H.Finalized(j, true)] + rest);
    }
  }

  lemma FailDoes(c: Config, s: Sys, w: nat, env: H.Env)
    requires w < |s.workers| && s.workers[w].pc.Failing?
    ensures StepDoes(c, s, w, env)
  {
    var t, j := Stepped(c, s, w, env), s.workers[w].job;
    var rest := RemainingAt(c, t, w, env);
    var e :=
      if s.workers[w].pc.terminal || Spent(c, j) then H.Finalized(j, false) else H.EnqueueTried(j, env.enqueue);
    assert RemainingAt(c, s, w, env) == [e] + rest;
    DoesFirst(s, t, e, rest);
  }

  lemma CleanupDoes(c: Config, s: Sys, w: nat, env: H.Env)
    requires w < |s.workers| && s.workers[w].pc.Cleaning?
    ensures StepDoes(c, s, w, env)
  {
    var t := Stepped(c, s, w, env);
    DoesFirst(s, t, H.CleanedUp(s.workers[w].job), []);
  }

  // Ack is one effect and one or two steps.
  function AfterBoth(c: Config, s: Sys, w: nat, env: H.Env): Sys
    requires w < |s.workers| && Acking(s.workers[w].pc)
  {
    var t := Stepped(c, s, w, env);
    if t.workers[w].pc.StampLeft? then Stepped(c, t, w, env) else t
  }

  lemma FirstDelete(c: Config, s: Sys, w: nat, env: H.Env)
    requires w < |s.workers| && Acking(s.workers[w].pc)
    ensures var t := Stepped(c, s, w, env); var id := s.workers[w].job.pushId;
            && |t.workers| == |s.workers| && t.workers[w].job == s.workers[w].job
            && t.workers[w].pc ==
                (if env.ackClaim.Works? then StampLeft(!s.workers[w].pc.Requeued?) else AfterAck(s.workers[w].pc))
            && SameWorld(s.(queue := if env.ackClaim.Took() then V.DelClaim(s.queue, id) else s.queue), t)
  {
  }

  lemma SecondDelete(c: Config, s: Sys, w: nat, env: H.Env)
    requires w < |s.workers| && s.workers[w].pc.StampLeft?
    ensures var t := Stepped(c, s, w, env); var id := s.workers[w].job.pushId;
            && |t.workers| == |s.workers| && t.workers[w].job == s.workers[w].job
            && t.workers[w].pc == AfterAck(s.workers[w].pc)
            && SameWorld(s.(queue := if env.ackStamp.Took() then V.DelStamp(s.queue, id) else s.queue), t)
  {
  }

  // What a whole Ack leaves behind it.
  ghost predicate AckDone(c: Config, s: Sys, w: nat, env: H.Env, t: Sys)
    requires w < |s.workers| && Acking(s.workers[w].pc)
  {
    && |t.workers| == |s.workers| && t.workers[w].pc == AfterAck(s.workers[w].pc)
    && t.workers[w].job == s.workers[w].job
    && SameWorld(s.(queue := V.Acked(s.queue, s.workers[w].job.pushId, env.ackClaim, env.ackStamp)), t)
  }

  lemma AckCutShort(c: Config, s: Sys, w: nat, env: H.Env)
    requires w < |s.workers| && Acking(s.workers[w].pc) && env.ackClaim.Fails?
    ensures !Stepped(c, s, w, env).workers[w].pc.StampLeft? && AckDone(c, s, w, env, Stepped(c, s, w, env))
  {
    FirstDelete(c, s, w, env);
  }

  lemma AckInFull(c: Config, s: Sys, w: nat, env: H.Env)
    requires w < |s.workers| && Acking(s.workers[w].pc) && env.ackClaim.Works?
    ensures Stepped(c, s, w, env).workers[w].pc.StampLeft?
    ensures AckDone(c, s, w, env, Stepped(c, Stepped(c, s, w, env), w, env))
  {
    FirstDelete(c, s, w, env);
    SecondDelete(c, Stepped(c, s, w, env), w, env);
  }

  lemma AckWorld(c: Config, s: Sys, w: nat, env: H.Env)
    requires w < |s.workers| && Acking(s.workers[w].pc)
    ensures var t := AfterBoth(c, s, w, env);
            && |t.workers| == |s.workers| && t.workers[w].pc == AfterAck(s.workers[w].pc)
            && t.workers[w].job == s.workers[w].job
            && SameWorld(OnSys(s, H.AckOf(s.workers[w].job, env)), t)
  {
    if env.ackClaim.Fails? {
      AckCutShort(c, s, w, env);
    } else {
      AckInFull(c, s, w, env);
    }
  }

  lemma AckDoes(c: Config, s: Sys, w: nat, env: H.Env)
    requires w < |s.workers| && Acking(s.workers[w].pc)
    ensures var t := AfterBoth(c, s, w, env);
            SameWorld(AllOnSys(s, RemainingAt(c, s, w, env)), AllOnSys(t, RemainingAt(c, t, w, env)))
  {
    AckWorld(c, s, w, env);
    AckRest(c, s, AfterBoth(c, s, w, env), w, env);
  }

  lemma AckRest(c: Config, s: Sys, t: Sys, w: nat, env: H.Env)
    requires w < |s.workers| && w < |t.workers| && Acking(s.workers[w].pc)
    requires t.workers[w].pc == AfterAck(s.workers[w].pc) && t.workers[w].job == s.workers[w].job
    requires SameWorld(OnSys(s, H.AckOf(s.workers[w].job, env)), t)
    ensures SameWorld(AllOnSys(s, RemainingAt(c, s, w, env)), AllOnSys(t, RemainingAt(c, t, w, env)))
  {
    var e := H.AckOf(s.workers[w].job, env);
    assert RemainingAt(c, s, w, env) == [e] + RemainingAt(c, t, w, env);
    DoesFirst(s, t, e, RemainingAt(c, t, w, env));
  }

  lemma EveryStepDoes(c: Config, s: Sys, w: nat, env: H.Env)
    requires w < |s.workers| && s.workers[w].Holding()
    requires !Acking(s.workers[w].pc) && !s.workers[w].pc.StampLeft?
    ensures StepDoes(c, s, w, env)
  {
    match s.workers[w].pc {
      case Ready => PushDoes(c, s, w, env);
      case Failing(_) => FailDoes(c, s, w, env);
      case Cleaning => CleanupDoes(c, s, w, env);
      case Working => if env.pusher.Some? { NoPusherDoes(c, s, w, env); } else { PreparingDoes(c, s, w, env); }
      case _ => PreparingDoes(c, s, w, env);
    }
  }

  // From anywhere inside handle but between Ack's deletes, w alone runs to the end of handle.
  lemma {:induction false} FinishesHandle(c: Config, s: Sys, w: nat, env: H.Env) returns (steps: seq<Step>)
    requires w < |s.workers| && !s.workers[w].pc.Sweeping? && !s.workers[w].pc.StampLeft?
    ensures Run(c, s, steps) && forall step :: step in steps ==> step.ByWorker? && step.w == w
    ensures var t := Final(c, s, steps);
            && |t.workers| == |s.workers| && t.workers[w].pc.Idle?
            && SameWorld(AllOnSys(s, RemainingAt(c, s, w, env)), t)
    decreases Rank(s.workers[w].pc)
  {
    var pc := s.workers[w].pc;
    if pc.Idle? { return []; }
    NextStepRuns(c, s, s.workers[w], env);
    var t := Stepped(c, s, w, env);
    if Acking(pc) {
      AckDoes(c, s, w, env);
      AckWorld(c, s, w, env);
      if t.workers[w].pc.StampLeft? {
        NextStepRuns(c, t, t.workers[w], env);
        var last := FinishesHandle(c, Stepped(c, t, w, env), w, env);
        steps := Before(c, t, w, env, last);
        steps := Before(c, s, w, env, steps);
        return;
      }
    } else {
      EveryStepDoes(c, s, w, env);
    }
    var more := FinishesHandle(c, t, w, env);
    steps := Before(c, s, w, env, more);
  }

  lemma Before(c: Config, s: Sys, w: nat, env: H.Env, more: seq<Step>) returns (steps: seq<Step>)
    requires w < |s.workers| && s.workers[w].Holding()
    requires Run(c, Stepped(c, s, w, env), more) && forall step :: step in more ==> step.ByWorker? && step.w == w
    ensures Run(c, s, steps) && Final(c, s, steps) == Final(c, Stepped(c, s, w, env), more)
    ensures forall step :: step in steps ==> step.ByWorker? && step.w == w
  {
    NextStepRuns(c, s, s.workers[w], env);
    steps := [ByWorker(w, NextStep(c, s.workers[w], env))] + more;
    assert steps[1..] == more;
  }

  lemma {:induction false} QueueOfEffects(s: Sys, es: seq<H.Effect>)
    ensures AllOnSys(s, es).queue == H.AllOnQueue(s.queue, es)
    decreases |es|
  {
    if es != [] { QueueOfEffects(OnSys(s, es[0]), es[1..]); }
  }

  /** A worker that has just claimed a job and then runs without interruption takes a run of protocol
      steps that ends with the worker idle and the queue, the registry, the abandonment records and
      the cleanups exactly as one call of handle leaves them. */
  lemma HandleIsARun(c: Config, s: Sys, w: nat, env: H.Env) returns (steps: seq<Step>)
    requires w < |s.workers| && s.workers[w].pc.Working?
    ensures Run(c, s, steps) && forall step :: step in steps ==> step.ByWorker? && step.w == w
    ensures var t := Final(c, s, steps); var es := H.HandleEffects(c.settings, s.workers[w].job, env);
            && w < |t.workers| && t.workers[w].pc.Idle?
            && t.queue == H.AllOnQueue(s.queue, es)
            && SameWorld(AllOnSys(s, es), t)
  {
    steps := FinishesHandle(c, s, w, env);
    QueueOfEffects(s, H.HandleEffects(c.settings, s.workers[w].job, env));
  }
}
