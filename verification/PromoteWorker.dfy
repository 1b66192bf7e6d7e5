/** The promotion worker run on its own (internal/promote/worker.go): handle, localize, fail, retire
    and Run as methods over the Valkey queue, with every outside effect appended to a log. */
module PromoteWorker {
  import opened Basics
  import opened PromoteJob
  import opened WorkerSettings
  import opened HandleSpec
  import opened DrainSpec
  import V = Valkey

  class Worker {
    const settings: Settings
    const queue: V.ValkeyQueue
    var log: seq<Effect>

    constructor (settings: Settings, queue: V.ValkeyQueue)
      ensures this.settings == settings && this.queue == queue && log == []
    {
      this.settings, this.queue := settings, queue;
      log := [];
    }

    method Retire(j: Job, env: Env)
      modifies this`log, queue
      ensures log == old(log) + RetireEffects(j, env)
      ensures queue.State() == AllOnQueue(old(queue.State()), RetireEffects(j, env))
    {
      log := log + [Finalized(j, false)];
      var _ := queue.Ack(j.pushId, env.ackClaim, env.ackStamp);
      log := log + [AckOf(j, env)];
      log := log + [CleanedUp(j)];
      Unfold(old(queue.State()), RetireEffects(j, env));
    }

    method Fail(j: Job, cause: Cause, env: Env)
      modifies this`log, queue
      ensures log == old(log) + FailEffects(settings, j, cause, env)
      ensures queue.State() == AllOnQueue(old(queue.State()), FailEffects(settings, j, cause, env))
    {
      if cause.terminal {
        Retire(j, env);
        return;
      }
      if j.attempts >= settings.Budget() {
        Retire(j, env);
        return;
      }
      var ok := queue.Enqueue(j, env.enqueue);
      log := log + [EnqueueTried(j, env.enqueue)];
      if !ok {
        // The claim is left for a later sweep.
        Unfold(old(queue.State()), [EnqueueTried(j, env.enqueue)]);
        return;
      }
      var _ := queue.Ack(j.pushId, env.ackClaim, env.ackStamp);
      log := log + [AckOf(j, env)];
      Unfold(old(queue.State()), [EnqueueTried(j, env.enqueue), AckOf(j, env)]);
    }

    // Localize: None means the job has already been failed.
    method MakeLocal(j: Job, env: Env) returns (here: Option<Job>)
      modifies this`log, queue
      ensures Localized(j, env).Ok? ==>
                here == Some(Localized(j, env).value) && log == old(log) && queue.State() == old(queue.State())
      ensures Localized(j, env).Err? ==>
                && here == None
                && log == old(log) + FailEffects(settings, j, Localized(j, env).error, env)
                && queue.State() ==
                    AllOnQueue(old(queue.State()), FailEffects(settings, j, Localized(j, env).error, env))
    {
      if !env.canLocalize { return Some(j); }
      if env.layoutHere { return Some(j); }
      match env.rebuild {
        case Err(cause) =>
          Fail(j, cause, env);
          return None;
        case Ok(paths) =>
          return Some(j.(ociPath := paths.0, scratchDir := paths.1));
      }
    }

    method Handle(claimed: Job, env: Env)
      modifies this`log, queue
      ensures log == old(log) + HandleEffects(settings, claimed, env)
      ensures queue.State() == AllOnQueue(old(queue.State()), HandleEffects(settings, claimed, env))
    {
      var j := claimed;
      if env.pusher.Some? {
        Retire(j, env);
        return;
      }
      j := j.(attempts := IncU8(j.attempts));
      var here := MakeLocal(j, env);
      if here.None? { return; }
      j := here.value;
      PushAndSettle(j, env);
    }

    // The rest of handle, once the layout is on this pod.
    method PushAndSettle(j: Job, env: Env)
      modifies this`log, queue
      ensures log == old(log) + PushEffects(settings, j, env)
      ensures queue.State() == AllOnQueue(old(queue.State()), PushEffects(settings, j, env))
    {
      if env.push.Some? {
        log := log + [PushTried(j, false, env.landed)];
        Fail(j, env.push.value, env);
        OnQueuePlus(old(queue.State()), [PushTried(j, false, env.landed)],
                FailEffects(settings, j, env.push.value, env));
        Unfold(old(queue.State()), [PushTried(j, false, env.landed)]);
        return;
      }
      log := log + [PushTried(j, true, true)];
      log := log + [Finalized(j, true)];
      var _ := queue.Ack(j.pushId, env.ackClaim, env.ackStamp);
      log := log + [AckOf(j, env)];
      log := log + [CleanedUp(j)];
      Unfold(old(queue.State()), [PushTried(j, true, true), Finalized(j, true), AckOf(j, env), CleanedUp(j)]);
    }

    // One claim and its handle, without faults.
    method TakeTurn(now: int, world: (Job, nat) -> Env, k: nat, ghost base: seq<Effect>, ghost turns: seq<Turn>)
      returns (turn: Turn)
      requires Faultless(world) && queue.pending != [] && Countable(queue.pending)
      requires k == |turns| && log == base + EffectsOf(settings, turns, world, 0)
      modifies this`log, queue
      ensures turn.job == old(queue.pending)[0].job
      ensures turn.verdict == VerdictOf(settings, turn.job, world(turn.job, k))
      ensures queue.pending == NextPending(old(queue.pending), turn.verdict)
      ensures queue.claimed.Keys == old(queue.claimed).Keys - {turn.job.pushId}
      ensures log == base + EffectsOf(settings, turns + [turn], world, 0)
    {
      assert queue.pending[0] in queue.pending;
      var r := queue.Claim(now, Works, Works);
      var j := r.job;
      ghost var claimed := queue.State();
      var env := world(j, k);
      Handle(j, env);
      VerdictOnQueue(settings, claimed, j, env);
      turn := Turn(j, VerdictOf(settings, j, env));
      EffectsSnoc(settings, turns, turn, world, 0);
      Appended(base, old(log), log, EffectsOf(settings, turns, world, 0), HandleEffects(settings, j, env));
    }

    // Claims and handles until the queue is empty: one worker, no faults, nothing arriving.
    method Drain(now: int, world: (Job, nat) -> Env) returns (turns: seq<Turn>)
      requires settings.Valid() && Faultless(world) && Countable(queue.pending)
      modifies this`log, queue
      ensures turns == DrainOf(settings, old(queue.pending), world, 0)
      ensures log == old(log) + EffectsOf(settings, turns, world, 0)
      ensures queue.pending == [] && queue.claimed.Keys <= old(queue.claimed).Keys
    {
      turns := [];
      while queue.pending != []
        invariant Countable(queue.pending) && queue.claimed.Keys <= old(queue.claimed).Keys
        invariant DrainOf(settings, old(queue.pending), world, 0) ==
                  turns + DrainOf(settings, queue.pending, world, |turns|)
        invariant log == old(log) + EffectsOf(settings, turns, world, 0)
        decreases WorkIn(settings, queue.pending)
      {
        TurnOfDrain(settings, queue.pending, world, |turns|, turns);
        var turn := TakeTurn(now, world, |turns|, old(log), turns);
        turns := turns + [turn];
      }
      NothingToDrain(settings, world, turns);
    }

    // The main loop for n iterations, after which the context is cancelled. Sleeps only move the clock,
    // so they are part of what `world` answers. `orders` is what each sweep requeued, and `states` where each
    // turn began.
    method Run(n: nat, started: int, world: nat -> Iteration)
      returns (ghost orders: seq<seq<string>>, ghost states: seq<Loop>)
      requires started <= world(0).now
      requires forall i: nat :: world(i).now <= world(i).afterSweep <= world(i + 1).now
      modifies this`log, queue
      ensures |orders| == n
      ensures var start := Loop(old(queue.State()), old(log), started);
              && queue.State() == LoopAfter(settings, start, world, orders).queue
              && log == LoopAfter(settings, start, world, orders).log
              && LegalOrders(settings, start, world, orders)
      ensures |old(log)| <= |log| && log[..|old(log)|] == old(log)
      ensures n > 0 ==> |log| > |old(log)| && log[|old(log)|] == Swept(world(0).now, settings.Window())
      ensures forall i :: |old(log)| <= i < |log| && log[i].Swept? ==> log[i].olderThan == settings.Window()
      ensures forall i, k :: |old(log)| <= i < k < |log| && log[i].Swept? && log[k].Swept? ==>
                log[k].at >= log[i].at + settings.SweepEvery()
      ensures |states| == n + 1 && states[0] == Loop(old(queue.State()), old(log), started)
      ensures states[n].queue == queue.State() && states[n].log == log
      ensures AllDone(settings, world, orders, states)
      ensures Quiet(settings, states[0].queue) && NothingFails(world) ==>
                LikeTheDrain(settings, states[0], world, n, states[n])
    {
      ghost var start := Loop(queue.State(), log, started);
      orders := Turns(n, started, world);
      states := StatesOf(settings, start, world, orders);
      TurnsDone(settings, start, world, orders);
      if Quiet(settings, start.queue) && NothingFails(world) { RunDrains(settings, start, world, orders); }
    }

    // The loop itself.
    method Turns(n: nat, started: int, world: nat -> Iteration) returns (ghost orders: seq<seq<string>>)
      requires started <= world(0).now
      requires forall i: nat :: world(i).now <= world(i).afterSweep <= world(i + 1).now
      modifies this`log, queue
      ensures |orders| == n
      ensures var start := Loop(old(queue.State()), old(log), started);
              && queue.State() == LoopAfter(settings, start, world, orders).queue
              && log == LoopAfter(settings, start, world, orders).log
              && LegalOrders(settings, start, world, orders)
      ensures |old(log)| <= |log| && log[..|old(log)|] == old(log)
      ensures n > 0 ==> |log| > |old(log)| && log[|old(log)|] == Swept(world(0).now, settings.Window())
      ensures forall i :: |old(log)| <= i < |log| && log[i].Swept? ==> log[i].olderThan == settings.Window()
      ensures forall i, k :: |old(log)| <= i < k < |log| && log[i].Swept? && log[k].Swept? ==>
                log[k].at >= log[i].at + settings.SweepEvery()
    {
      var nextRecover := started;
      ghost var start := Loop(queue.State(), log, started);
      orders := [];
      for i := 0 to n
        invariant |orders| == i
        invariant Loop(queue.State(), log, nextRecover) == LoopAfter(settings, start, world, orders)
        invariant LegalOrders(settings, start, world, orders)
      {
        ghost var order;
        nextRecover, order := Iterate(nextRecover, world(i));
        OneMoreOrder(settings, start, world, orders, order);
        orders := orders + [order];
      }
      RunSweeps(settings, start, world, orders);
    }

    method Iterate(nextRecover: int, it: Iteration) returns (next: int, ghost order: seq<string>)
      modifies this`log, queue
      ensures var st := Loop(old(queue.State()), old(log), nextRecover);
              && Loop(queue.State(), log, next) == After(settings, st, it, order)
              && SweepLegal(settings, st, it, order)
    {
      next, order := nextRecover, [];
      if it.now >= nextRecover {
        var jobs, ok;
        jobs, ok, order := queue.Recover(it.now, settings.Window(), it.readUp, it.scripts);
        log := log + [Swept(it.now, settings.Window())];
        next := it.afterSweep + settings.SweepEvery();
      }
      var r := queue.Claim(it.afterSweep, it.claim, it.park);
      if r.Got? { Handle(r.job, it.env); }
    }
  }

  // What one iteration of Run meets: the clock before and after a sweep, how the sweep's reading and its
  // scripts go, how the claim goes, and what its handle meets.
  datatype Iteration = Iteration(
    now: int, afterSweep: int, readUp: bool, scripts: nat -> Call, claim: Call, park: Call, env: Env)

  datatype Loop = Loop(queue: V.Queue, log: seq<Effect>, nextRecover: int)

  // One iteration: sweep if it is time, claim, and handle what was claimed.
  function After(s: Settings, st: Loop, it: Iteration, order: seq<string>): Loop {
    var due := it.now >= st.nextRecover;
    var (q, r) := V.ClaimReplied(if due then V.RequeueAll(st.queue, order) else st.queue,
                                           it.afterSweep, it.claim, it.park);
    var handled := if r.Got? then HandleEffects(s, r.job, it.env) else [];
    Loop(AllOnQueue(q, handled),
         st.log + (if due then [Swept(it.now, s.Window())] else []) + handled,
         if due then it.afterSweep + s.SweepEvery() else st.nextRecover)
  }

  function LoopAfter(s: Settings, st: Loop, world: nat -> Iteration, orders: seq<seq<string>>): Loop {
    if orders == [] then st
    else
      var i := |orders| - 1;
      After(s, LoopAfter(s, st, world, orders[..i]), world(i), orders[i])
  }

  /** What one turn owes, read off the log and the head of pending: its sweep comes first; a job that Claim
      hands out is brought to its end in this very turn, with nothing done for any other push; and a turn
      that is handed nothing does nothing more. */
  ghost predicate TurnDone(s: Settings, it: Iteration, a: Loop, order: seq<string>, b: Loop) {
    var due := it.now >= a.nextRecover;
    var front := a.log + if due then [Swept(it.now, s.Window())] else [];
    var pending := V.RequeueAll(a.queue, order).pending;
    && front <= b.log
    && b.nextRecover == (if due then it.afterSweep + s.SweepEvery() else a.nextRecover)
    && (if it.claim.Works? && pending != [] && pending[0].JobJson? && pending[0].job.pushId != "" then
          && (forall k :: |front| <= k < |b.log| ==> About(b.log[k], pending[0].job.pushId))
          && (exists k :: |front| <= k < |b.log| && Closes(b.log[k], pending[0].job.pushId))
        else b.log == front)
  }

  // Every turn of a run.
  ghost predicate AllDone(s: Settings, world: nat -> Iteration, orders: seq<seq<string>>, states: seq<Loop>) {
    && |states| == |orders| + 1
    && forall i :: 0 <= i < |orders| ==> TurnDone(s, world(i), states[i], orders[i], states[i + 1])
  }

  lemma HandledIsDone(s: Settings, it: Iteration, a: Loop, order: seq<string>, b: Loop, id: string, es: seq<Effect>)
    requires var due := it.now >= a.nextRecover;
             && b.log == a.log + (if due then [Swept(it.now, s.Window())] else []) + es
             && b.nextRecover == (if due then it.afterSweep + s.SweepEvery() else a.nextRecover)
    requires var pending := V.RequeueAll(a.queue, order).pending;
             if it.claim.Works? && V.Hands(pending) then
               && id == pending[0].job.pushId && (forall e :: e in es ==> About(e, id))
               && exists i :: 0 <= i < |es| && Closes(es[i], id)
             else es == []
    ensures TurnDone(s, it, a, order, b)
  {
    var front := a.log + if it.now >= a.nextRecover then [Swept(it.now, s.Window())] else [];
    forall k | |front| <= k < |b.log| ensures b.log[k] == es[k - |front|] && b.log[k] in es {}
    if i :| 0 <= i < |es| && Closes(es[i], id) { assert b.log[|front| + i] == es[i]; }
  }

  lemma AfterIsDone(s: Settings, a: Loop, it: Iteration, order: seq<string>)
    requires it.now < a.nextRecover ==> order == []
    ensures TurnDone(s, it, a, order, After(s, a, it, order))
  {
    var swept := V.RequeueAll(a.queue, order);
    V.HandsOut(swept, it.afterSweep, it.claim, it.park);
    if it.claim.Works? && V.Hands(swept.pending) {
      var j := swept.pending[0].job;
      HandleCloses(s, j, it.env);
      HandledIsDone(s, it, a, order, After(s, a, it, order), j.pushId, HandleEffects(s, j, it.env));
    } else {
      HandledIsDone(s, it, a, order, After(s, a, it, order), "", []);
    }
  }

  // Where each turn begins, and where the last one ends.
  ghost function StatesOf(s: Settings, start: Loop, world: nat -> Iteration, orders: seq<seq<string>>): seq<Loop> {
    seq(|orders| + 1, i requires 0 <= i <= |orders| => LoopAfter(s, start, world, orders[..i]))
  }

  lemma TurnIsDone(s: Settings, start: Loop, world: nat -> Iteration, orders: seq<seq<string>>, i: nat)
    requires LegalOrders(s, start, world, orders) && i < |orders|
    ensures TurnDone(s, world(i), LoopAfter(s, start, world, orders[..i]), orders[i],
                     LoopAfter(s, start, world, orders[..i + 1]))
  {
    var more := orders[..i + 1];
    assert more[..i] == orders[..i];
    var a := LoopAfter(s, start, world, more[..i]);
    assert SweepLegal(s, a, world(i), orders[i]);
    AfterIsDone(s, a, world(i), orders[i]);
  }

  lemma TurnsDone(s: Settings, start: Loop, world: nat -> Iteration, orders: seq<seq<string>>)
    requires LegalOrders(s, start, world, orders)
    ensures var states := StatesOf(s, start, world, orders);
            && states[0] == start && states[|orders|] == LoopAfter(s, start, world, orders)
            && AllDone(s, world, orders, states)
  {
    var states := StatesOf(s, start, world, orders);
    assert orders[..|orders|] == orders;
    forall i | 0 <= i < |orders| ensures TurnDone(s, world(i), states[i], orders[i], states[i + 1]) {
      TurnIsDone(s, start, world, orders, i);
    }
  }

  /* ---- without faults ---- */

  ghost predicate NothingFails(world: nat -> Iteration) {
    forall k :: world(k).claim.Works? && world(k).env.enqueue.Works?
      && world(k).env.ackClaim.Works? && world(k).env.ackStamp.Works?
  }

  // Only queued jobs, and none of them in anyone's hands.
  ghost predicate Quiet(s: Settings, q: V.Queue) {
    s.Valid() && Countable(q.pending) && q.claimed == map[] && q.stamps == map[]
  }

  // What each handle meets when the k-th turn answers it.
  function EachTurn(world: nat -> Iteration): (Job, nat) -> Env { (j: Job, k: nat) => world(k).env }

  function WithoutSweeps(log: seq<Effect>): seq<Effect> {
    if log == [] then []
    else WithoutSweeps(log[..|log| - 1]) + if log[|log| - 1].Swept? then [] else [log[|log| - 1]]
  }

  lemma {:induction false} WithoutSweepsPlus(a: seq<Effect>, b: seq<Effect>)
    ensures WithoutSweeps(a + b) == WithoutSweeps(a) + WithoutSweeps(b)
  {
    if b == [] {
      assert a + b == a;
    } else {
      var n := |b| - 1;
      assert (a + b)[..|a + b| - 1] == a + b[..n];
      WithoutSweepsPlus(a, b[..n]);
    }
  }

  lemma {:induction false} NoSweeps(es: seq<Effect>)
    requires forall e :: e in es ==> !e.Swept?
    ensures WithoutSweeps(es) == es
  {
    if es != [] {
      var n := |es| - 1;
      assert es[n] in es && es == es[..n] + [es[n]];
      NoSweeps(es[..n]);
    }
  }

  // One faultless turn is one turn of the drain, or nothing when there is nothing left.
  lemma QuietTurn(s: Settings, st: Loop, it: Iteration, order: seq<string>)
    requires Quiet(s, st.queue) && SweepLegal(s, st, it, order)
    requires it.claim.Works? && it.env.enqueue.Works? && it.env.ackClaim.Works? && it.env.ackStamp.Works?
    ensures var t := After(s, st, it, order);
            var sweep := if it.now >= st.nextRecover then [Swept(it.now, s.Window())] else [];
            if st.queue.pending == [] then t.queue == st.queue && t.log == st.log + sweep
            else
              var j := st.queue.pending[0].job;
              && t.queue.pending == NextPending(st.queue.pending, VerdictOf(s, j, it.env))
              && t.queue.claimed == map[] && t.queue.stamps == map[]
              && t.log == st.log + sweep + HandleEffects(s, j, it.env)
  {
    assert V.Expired(st.queue.stamps, it.now - s.Window()) == {};
    NothingIn(order);
    if st.queue.pending != [] {
      assert st.queue.pending[0] in st.queue.pending;
      var j := st.queue.pending[0].job;
      VerdictOnQueue(s, V.ClaimReplied(st.queue, it.afterSweep, it.claim, it.park).0, j, it.env);
    }
  }

  lemma NothingIn<T>(s: seq<T>)
    ensures Elements(s) == {} ==> s == []
  {
    if s != [] { assert s[0] in Elements(s); }
  }

  /** Apart from sweeps, n turns have done what the first n turns of the drain of these jobs do, and once there
      are as many turns as the drain takes, nothing is left pending, claimed or stamped. */
  ghost predicate LikeTheDrain(s: Settings, start: Loop, world: nat -> Iteration, n: nat, t: Loop)
    requires Quiet(s, start.queue)
  {
    var turns := DrainOf(s, start.queue.pending, EachTurn(world), 0);
    var m := if n < |turns| then n else |turns|;
    && start.log <= t.log
    && WithoutSweeps(t.log[|start.log|..]) == EffectsOf(s, turns[..m], EachTurn(world), 0)
    && t.queue.claimed == map[] && t.queue.stamps == map[]
    && (n >= |turns| ==> t.queue.pending == [])
  }

  // The same with what is left to do.
  ghost predicate Drained(s: Settings, start: Loop, world: nat -> Iteration, t: Loop, n: nat)
    requires Quiet(s, start.queue)
  {
    var turns := DrainOf(s, start.queue.pending, EachTurn(world), 0);
    var m := if n < |turns| then n else |turns|;
    && Quiet(s, t.queue)
    && turns == turns[..m] + DrainOf(s, t.queue.pending, EachTurn(world), m)
    && start.log <= t.log
    && WithoutSweeps(t.log[|start.log|..]) == EffectsOf(s, turns[..m], EachTurn(world), 0)
  }

  lemma CutFront<T>(base: seq<T>, was: seq<T>, a: seq<T>, b: seq<T>, log: seq<T>)
    requires base <= was && log == was + a + b
    ensures base <= log && log[|base|..] == was[|base|..] + (a + b)
  {
  }

  lemma SweptBetween(base: seq<Effect>, was: seq<Effect>, sweep: seq<Effect>, es: seq<Effect>, log: seq<Effect>)
    requires base <= was && log == was + sweep + es
    requires (forall e :: e in sweep ==> e.Swept?) && (forall e :: e in es ==> !e.Swept?)
    ensures base <= log && WithoutSweeps(log[|base|..]) == WithoutSweeps(was[|base|..]) + es
  {
    CutFront(base, was, sweep, es, log);
    WithoutSweepsPlus(was[|base|..], sweep + es);
    WithoutSweepsPlus(sweep, es);
    NoSweeps(es);
    OnlySweeps(sweep);
  }

  lemma {:induction false} OnlySweeps(es: seq<Effect>)
    requires forall e :: e in es ==> e.Swept?
    ensures WithoutSweeps(es) == []
  {
    if es != [] {
      assert es[|es| - 1] in es;
      OnlySweeps(es[..|es| - 1]);
    }
  }

  /** Over n turns without faults, the first one included, the loop does exactly what the drain does, turn by
      turn, with only sweeps in between. */
  lemma {:induction false} RunDrains(s: Settings, start: Loop, world: nat -> Iteration, orders: seq<seq<string>>)
    requires Quiet(s, start.queue) && NothingFails(world) && LegalOrders(s, start, world, orders)
    ensures var t := LoopAfter(s, start, world, orders);
            && Drained(s, start, world, t, |orders|)
            && LikeTheDrain(s, start, world, |orders|, t)
    decreases |orders|
  {
    if orders == [] {
      assert start.log[|start.log|..] == [];
    } else {
      var n := |orders| - 1;
      var st := LoopAfter(s, start, world, orders[..n]);
      FewerOrders(s, start, world, orders);
      RunDrains(s, start, world, orders[..n]);
      assert SweepLegal(s, st, world(n), orders[n]);
      DrainedMore(s, start, world, st, n, orders[n]);
    }
  }

  lemma FewerOrders(s: Settings, start: Loop, world: nat -> Iteration, orders: seq<seq<string>>)
    requires LegalOrders(s, start, world, orders) && orders != []
    ensures LegalOrders(s, start, world, orders[..|orders| - 1])
  {
    var front := orders[..|orders| - 1];
    forall i | 0 <= i < |front| ensures SweepLegal(s, LoopAfter(s, start, world, front[..i]), world(i), front[i]) {
      assert front[..i] == orders[..i];
      assert SweepLegal(s, LoopAfter(s, start, world, orders[..i]), world(i), orders[i]);
    }
  }

  lemma DrainedMore(s: Settings, start: Loop, world: nat -> Iteration, st: Loop, n: nat, order: seq<string>)
    requires Quiet(s, start.queue) && NothingFails(world) && Drained(s, start, world, st, n)
    requires SweepLegal(s, st, world(n), order)
    ensures Drained(s, start, world, After(s, st, world(n), order), n + 1)
  {
    var it := world(n);
    var t := After(s, st, it, order);
    var sweep := if it.now >= st.nextRecover then [Swept(it.now, s.Window())] else [];
    var turns := DrainOf(s, start.queue.pending, EachTurn(world), 0);
    var ps := st.queue.pending;
    QuietTurn(s, st, it, order);
    if ps == [] {
      assert DrainOf(s, ps, EachTurn(world), |turns|) == [];
      assert turns[..|turns|] == turns;
      assert t.log == st.log + sweep + [];
      SweptBetween(start.log, st.log, sweep, [], t.log);
    } else {
      var j := ps[0].job;
      var turn := Turn(j, VerdictOf(s, j, it.env));
      assert n < |turns|;
      TurnOfDrain(s, ps, EachTurn(world), n, turns[..n]);
      assert turns[..n] + [turn] == turns[..n + 1];
      EffectsSnoc(s, turns[..n], turn, EachTurn(world), 0);
      HandleNeverSweeps(s, j, it.env);
      SweptBetween(start.log, st.log, sweep, HandleEffects(s, j, it.env), t.log);
    }
  }

  // A sweep requeues only claims that outlived the window, and all of them when nothing fails and every
  // one of them can be read.
  ghost predicate SweepLegal(s: Settings, st: Loop, it: Iteration, order: seq<string>) {
    if it.now < st.nextRecover then order == []
    else
      var expired := V.Expired(st.queue.stamps, it.now - s.Window());
      && Distinct(order) && Elements(order) <= expired
      && (it.readUp && (forall k :: it.scripts(k).Works?)
          && (forall id :: id in expired && id in st.queue.claimed ==> st.queue.claimed[id].JobJson?)
          ==> Elements(order) == expired)
  }

  ghost predicate LegalOrders(s: Settings, st: Loop, world: nat -> Iteration, orders: seq<seq<string>>) {
    forall i :: 0 <= i < |orders| ==> SweepLegal(s, LoopAfter(s, st, world, orders[..i]), world(i), orders[i])
  }

  lemma OneMoreOrder(s: Settings, st: Loop, world: nat -> Iteration, orders: seq<seq<string>>, order: seq<string>)
    requires LegalOrders(s, st, world, orders)
    requires SweepLegal(s, LoopAfter(s, st, world, orders), world(|orders|), order)
    ensures LegalOrders(s, st, world, orders + [order])
    ensures LoopAfter(s, st, world, orders + [order])
        == After(s, LoopAfter(s, st, world, orders), world(|orders|), order)
  {
    var more := orders + [order];
    assert more[..|orders|] == orders;
    forall i | 0 <= i < |more| ensures SweepLegal(s, LoopAfter(s, st, world, more[..i]), world(i), more[i]) {
      assert i < |orders| ==> more[..i] == orders[..i];
    }
  }

  // The sweeps logged since `was` use the window and are a cadence apart, the next one included.
  ghost predicate Spaced(s: Settings, was: seq<Effect>, log: seq<Effect>, nextRecover: int) {
    && was <= log
    && (forall i :: |was| <= i < |log| && log[i].Swept? ==>
          log[i].olderThan == s.Window() && log[i].at + s.SweepEvery() <= nextRecover)
    && (forall i, k :: |was| <= i < k < |log| && log[i].Swept? && log[k].Swept? ==>
          log[k].at >= log[i].at + s.SweepEvery())
  }

  lemma SpacedMore(s: Settings, was: seq<Effect>, st: Loop, it: Iteration, order: seq<string>)
    requires Spaced(s, was, st.log, st.nextRecover) && it.now <= it.afterSweep
    ensures var t := After(s, st, it, order); Spaced(s, was, t.log, t.nextRecover)
    ensures it.now >= st.nextRecover ==>
              |After(s, st, it, order).log| > |st.log|
              && After(s, st, it, order).log[|st.log|] == Swept(it.now, s.Window())
    ensures st.log <= After(s, st, it, order).log
  {
    var t := After(s, st, it, order);
    var due := it.now >= st.nextRecover;
    var r := V.ClaimReplied(if due then V.RequeueAll(st.queue, order) else st.queue,
                                     it.afterSweep, it.claim, it.park).1;
    var handled := if r.Got? then HandleEffects(s, r.job, it.env) else [];
    var front := st.log + if due then [Swept(it.now, s.Window())] else [];
    if r.Got? { HandleNeverSweeps(s, r.job, it.env); }
    assert t.log == front + handled;
    forall i | |front| <= i < |t.log| ensures !t.log[i].Swept? {
      assert t.log[i] == handled[i - |front|] && t.log[i] in handled;
    }
  }

  // Over n turns: the first one sweeps, and the sweeps are spaced.
  lemma {:induction false} RunSweeps(s: Settings, start: Loop, world: nat -> Iteration, orders: seq<seq<string>>)
    requires start.nextRecover <= world(0).now
    requires forall i: nat :: world(i).now <= world(i).afterSweep <= world(i + 1).now
    ensures var t := LoopAfter(s, start, world, orders);
            && Spaced(s, start.log, t.log, t.nextRecover)
            && (orders != [] ==>
                  |t.log| > |start.log| && t.log[|start.log|] == Swept(world(0).now, s.Window()))
    decreases |orders|
  {
    if orders != [] {
      var n := |orders| - 1;
      var st := LoopAfter(s, start, world, orders[..n]);
      RunSweeps(s, start, world, orders[..n]);
      SpacedMore(s, start.log, st, world(n), orders[n]);
      if n == 0 { assert orders[..n] == []; }
    }
  }

  lemma HandleNeverSweeps(s: Settings, j: Job, env: Env)
    ensures forall e :: e in HandleEffects(s, j, env) ==> !e.Swept?
  {
  }
}
