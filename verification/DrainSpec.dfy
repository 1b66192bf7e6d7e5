/** How a lone worker drains the queue: how many handles it takes and how each job ends. */
module DrainSpec {
  import opened Basics
  import opened PromoteJob
  import opened WorkerSettings
  import opened HandleSpec
  import V = Valkey

  // How a faultless handle ends: the job is settled, or back at the tail with one attempt more.
  datatype Verdict = Settled(published: bool) | Retried(next: Job)

  datatype Turn = Turn(job: Job, verdict: Verdict)

  function VerdictOf(s: Settings, j: Job, env: Env): Verdict {
    if env.pusher.Some? then Settled(false)
    else match Failure(j, env)
      case None => Settled(true)
      case Some(cause) =>
        if cause.terminal || Prepared(j, env).attempts >= s.Budget() then Settled(false)
        else Retried(Prepared(j, env))
  }

  ghost predicate Faultless(world: (Job, nat) -> Env) {
    forall j: Job, k: nat :: world(j, k).enqueue.Works? && world(j, k).ackClaim.Works? && world(j, k).ackStamp.Works?
  }

  function Returned(q: V.Queue, v: Verdict): V.Queue { if v.Retried? then V.Push(q, v.next) else q }

  /** Without faults a handle releases exactly its own claim, and puts back exactly the retried job. */
  lemma VerdictOnQueue(s: Settings, q: V.Queue, j: Job, env: Env)
    requires env.enqueue.Works? && env.ackClaim.Works? && env.ackStamp.Works?
    ensures AllOnQueue(q, HandleEffects(s, j, env)) ==
            V.DelStamp(V.DelClaim(Returned(q, VerdictOf(s, j, env)), j.pushId), j.pushId)
  {
    var es := HandleEffects(s, j, env);
    assert |es| <= 4;
    Unfold(q, es);
  }

  /** A verdict says what the log says: settled exactly when the bytes are released, published exactly when a
      push worked, put back exactly otherwise, once the command works. */
  lemma VerdictOnLog(s: Settings, j: Job, env: Env)
    requires env.enqueue.Works?
    ensures var es, v := HandleEffects(s, j, env), VerdictOf(s, j, env);
            && (v.Settled? <==> Releases(es))
            && (v.Settled? ==> (v.published <==> PublishesFrom(es)))
            && (v.Settled? ==> exists e :: e in es && e.Finalized? && e.job.pushId == j.pushId && e.ok == v.published)
            && (v.Retried? <==> PutsBack(es))
            && (v.Retried? ==> exists e :: e in es && e == EnqueueTried(v.next, env.enqueue))
  {
    HandleOrder(s, j, env);
    var es := HandleEffects(s, j, env);
    if VerdictOf(s, j, env).Retried? {
      assert es[0].EnqueueTried? || es[1].EnqueueTried?;
    } else {
      assert es[0].Finalized? || es[1].Finalized?;
    }
  }

  /* ---- the drain ---- */

  // Jobs whose uint8 counter can still be raised; AttemptBound shows the protocol queues no others.
  ghost predicate Unsaturated(js: seq<Job>) { forall j :: j in js ==> j.attempts < U8 - 1 }

  function Chances(s: Settings, j: Job): nat { Max(1, s.Budget() - j.attempts) }

  function Work(s: Settings, js: seq<Job>): nat {
    if js == [] then 0 else Chances(s, js[0]) + Work(s, js[1..])
  }

  lemma {:induction false} WorkPlus(s: Settings, a: seq<Job>, b: seq<Job>)
    ensures Work(s, a + b) == Work(s, a) + Work(s, b)
  {
    if a == [] {
      assert a + b == b;
    } else {
      assert (a + b)[1..] == a[1..] + b;
      WorkPlus(s, a[1..], b);
    }
  }

  function AfterTurn(js: seq<Job>, v: Verdict): seq<Job>
    requires js != []
  {
    if v.Retried? then js[1..] + [v.next] else js[1..]
  }

  lemma RetriedJob(s: Settings, j: Job, env: Env)
    requires s.Valid() && j.attempts < U8 - 1 && VerdictOf(s, j, env).Retried?
    ensures var next := VerdictOf(s, j, env).next;
            && next.pushId == j.pushId && next.attempts == j.attempts + 1 < s.Budget()
            && Chances(s, next) == Chances(s, j) - 1
  {
    assert Prepared(j, env).attempts == IncU8(j.attempts) == j.attempts + 1;
  }

  lemma TurnWorks(s: Settings, js: seq<Job>, env: Env)
    requires s.Valid() && js != [] && Unsaturated(js)
    ensures var v := VerdictOf(s, js[0], env);
            && Unsaturated(AfterTurn(js, v))
            && Work(s, AfterTurn(js, v)) == Work(s, js) - (if v.Retried? then 1 else Chances(s, js[0]))
  {
    var v := VerdictOf(s, js[0], env);
    assert js[0] in js;
    if v.Retried? {
      RetriedJob(s, js[0], env);
      WorkPlus(s, js[1..], [v.next]);
      assert Work(s, [v.next]) == Chances(s, v.next) + Work(s, []);
    }
  }

  ghost function DrainLog(s: Settings, js: seq<Job>, world: (Job, nat) -> Env, k: nat): seq<Turn>
    requires s.Valid() && Unsaturated(js)
    decreases Work(s, js)
  {
    if js == [] then []
    else
      var v := VerdictOf(s, js[0], world(js[0], k));
      TurnWorks(s, js, world(js[0], k));
      [Turn(js[0], v)] + DrainLog(s, AfterTurn(js, v), world, k + 1)
  }

  // What these turns do, one handle after the other; turn i is answered by world(_, k + i).
  function EffectsOf(s: Settings, turns: seq<Turn>, world: (Job, nat) -> Env, k: nat): seq<Effect> {
    if turns == [] then []
    else
      var i := |turns| - 1;
      EffectsOf(s, turns[..i], world, k) + HandleEffects(s, turns[i].job, world(turns[i].job, k + i))
  }

  lemma Appended<T>(base: seq<T>, was: seq<T>, log: seq<T>, before: seq<T>, more: seq<T>)
    requires was == base + before && log == was + more
    ensures log == base + (before + more)
  {
  }

  lemma EffectsSnoc(s: Settings, turns: seq<Turn>, t: Turn, world: (Job, nat) -> Env, k: nat)
    ensures EffectsOf(s, turns + [t], world, k) ==
            EffectsOf(s, turns, world, k) + HandleEffects(s, t.job, world(t.job, k + |turns|))
  {
    assert (turns + [t])[..|turns|] == turns;
  }

  /* ---- counting by push ---- */

  function Mine(js: seq<Job>, id: string): seq<Job> {
    if js == [] then [] else (if js[0].pushId == id then [js[0]] else []) + Mine(js[1..], id)
  }

  lemma {:induction false} MinePlus(a: seq<Job>, b: seq<Job>, id: string)
    ensures Mine(a + b, id) == Mine(a, id) + Mine(b, id)
  {
    if a == [] {
      assert a + b == b;
    } else {
      assert (a + b)[1..] == a[1..] + b;
      MinePlus(a[1..], b, id);
    }
  }

  function Handles(turns: seq<Turn>, id: string): nat {
    if turns == [] then 0 else (if turns[0].job.pushId == id then 1 else 0) + Handles(turns[1..], id)
  }

  function Settlements(turns: seq<Turn>, id: string): nat {
    if turns == [] then 0
    else (if turns[0].job.pushId == id && turns[0].verdict.Settled? then 1 else 0) + Settlements(turns[1..], id)
  }

  // Entries of this push that ended abandoned.
  function Retirements(turns: seq<Turn>, id: string): nat {
    if turns == [] then 0
    else
      (if turns[0].job.pushId == id && turns[0].verdict == Settled(false) then 1 else 0) + Retirements(turns[1..], id)
  }

  // Every attempt at this push that is not its last one fails, and could be tried again.
  ghost predicate AlwaysFailsRetryably(world: (Job, nat) -> Env, id: string) {
    forall j: Job, k: nat :: j.pushId == id ==>
      world(j, k).pusher.None? && Failure(j, world(j, k)).Some? && !Failure(j, world(j, k)).value.terminal
  }

  // Every attempt at this push settles it: published, no tenant, or a terminal cause.
  ghost predicate SettlesAtOnce(world: (Job, nat) -> Env, id: string) {
    forall j: Job, k: nat :: j.pushId == id ==>
      world(j, k).pusher.Some? || Failure(j, world(j, k)).None? || Failure(j, world(j, k)).value.terminal
  }

  // How one turn moves the jobs of one push.
  lemma TurnOnMine(s: Settings, js: seq<Job>, env: Env, id: string)
    requires s.Valid() && js != [] && Unsaturated(js)
    ensures var v, mine := VerdictOf(s, js[0], env), Mine(js, id);
            var left := Mine(AfterTurn(js, v), id);
            if js[0].pushId != id then left == mine
            else if v.Retried? then |left| == |mine| && Work(s, left) == Work(s, mine) - 1
            else |left| == |mine| - 1 && Work(s, left) == Work(s, mine) - Chances(s, js[0])
  {
    var v := VerdictOf(s, js[0], env);
    assert js[0] in js;
    if v.Retried? {
      RetriedJob(s, js[0], env);
      MinePlus(js[1..], [v.next], id);
      assert Mine([v.next], id) == (if v.next.pushId == id then [v.next] else []) + Mine([], id);
      if js[0].pushId == id {
        assert Mine(AfterTurn(js, v), id) == Mine(js[1..], id) + [v.next];
        WorkPlus(s, [js[0]], Mine(js[1..], id));
        WorkPlus(s, Mine(js[1..], id), [v.next]);
        assert Work(s, [v.next]) == Chances(s, v.next) + Work(s, []);
        assert Work(s, [js[0]]) == Chances(s, js[0]) + Work(s, []);
      }
    } else if js[0].pushId == id {
      WorkPlus(s, [js[0]], Mine(js[1..], id));
      assert Work(s, [js[0]]) == Chances(s, js[0]) + Work(s, []);
    }
  }

  /** One worker, no faults, no arrivals: the drain ends, each queue entry settles exactly once, and a
      push takes at most the sum of its entries' remaining attempts; exactly that many, with every entry
      retired in the end, when every attempt fails retryably, and one handle an entry when every attempt
      settles it. */
  lemma {:induction false} DrainCounts(s: Settings, js: seq<Job>, world: (Job, nat) -> Env, k: nat, id: string)
    requires s.Valid() && Unsaturated(js)
    ensures var turns, mine := DrainLog(s, js, world, k), Mine(js, id);
            && Settlements(turns, id) == |mine|
            && |mine| <= Handles(turns, id) <= Work(s, mine)
            && (AlwaysFailsRetryably(world, id) ==>
                  Handles(turns, id) == Work(s, mine) && Retirements(turns, id) == |mine|)
            && (SettlesAtOnce(world, id) ==> Handles(turns, id) == |mine|)
    decreases Work(s, js)
  {
    if js != [] {
      var env := world(js[0], k);
      var v := VerdictOf(s, js[0], env);
      TurnWorks(s, js, env);
      assert js[0] in js;
      if v.Retried? { RetriedJob(s, js[0], env); }
      TurnOnMine(s, js, env, id);
      DrainCounts(s, AfterTurn(js, v), world, k + 1, id);
      var turns := DrainLog(s, js, world, k);
      assert turns[1..] == DrainLog(s, AfterTurn(js, v), world, k + 1);
      if js[0].pushId == id && AlwaysFailsRetryably(world, id) && v.Settled? {
        assert Chances(s, js[0]) == 1;
      }
    }
  }

  /** All pushes together: at most the sum over jobs of max(1, budget - attempts) handles. */
  lemma {:induction false} DrainTotal(s: Settings, js: seq<Job>, world: (Job, nat) -> Env, k: nat)
    requires s.Valid() && Unsaturated(js)
    ensures |js| <= |DrainLog(s, js, world, k)| <= Work(s, js)
    decreases Work(s, js)
  {
    if js != [] {
      var env := world(js[0], k);
      TurnWorks(s, js, env);
      DrainTotal(s, AfterTurn(js, VerdictOf(s, js[0], env)), world, k + 1);
    }
  }

  /* ---- the queue side ---- */

  ghost predicate Countable(ps: seq<V.Payload>) {
    forall p :: p in ps ==> p.JobJson? && p.job.pushId != "" && p.job.attempts < U8 - 1
  }

  function JobsIn(ps: seq<V.Payload>): seq<Job>
    requires forall p :: p in ps ==> p.JobJson?
  {
    seq(|ps|, i requires 0 <= i < |ps| => ps[i].job)
  }

  function NextPending(ps: seq<V.Payload>, v: Verdict): seq<V.Payload>
    requires ps != []
  {
    if v.Retried? then ps[1..] + [V.JobJson(v.next)] else ps[1..]
  }

  lemma CountableJobs(ps: seq<V.Payload>)
    requires Countable(ps)
    ensures Unsaturated(JobsIn(ps))
  {
  }

  ghost function DrainOf(s: Settings, ps: seq<V.Payload>, world: (Job, nat) -> Env, k: nat): seq<Turn>
    requires s.Valid() && Countable(ps)
  {
    CountableJobs(ps);
    DrainLog(s, JobsIn(ps), world, k)
  }

  ghost function WorkIn(s: Settings, ps: seq<V.Payload>): nat
    requires Countable(ps)
  {
    Work(s, JobsIn(ps))
  }

  lemma TurnOfDrain(s: Settings, ps: seq<V.Payload>, world: (Job, nat) -> Env, k: nat, before: seq<Turn>)
    requires s.Valid() && ps != [] && Countable(ps)
    ensures var j := ps[0].job; var v := VerdictOf(s, j, world(j, k));
            && Countable(NextPending(ps, v))
            && WorkIn(s, NextPending(ps, v)) < WorkIn(s, ps)
            && before + DrainOf(s, ps, world, k) ==
               (before + [Turn(j, v)]) + DrainOf(s, NextPending(ps, v), world, k + 1)
  {
    var j, js := ps[0].job, JobsIn(ps);
    var v := VerdictOf(s, j, world(j, k));
    assert ps[0] in ps;
    TurnWorks(s, js, world(j, k));
    if v.Retried? { RetriedJob(s, j, world(j, k)); }
    assert JobsIn(NextPending(ps, v)) == AfterTurn(js, v);
  }

  lemma NothingToDrain(s: Settings, world: (Job, nat) -> Env, turns: seq<Turn>)
    requires s.Valid()
    ensures turns + DrainOf(s, [], world, |turns|) == turns
  {
  }
}
