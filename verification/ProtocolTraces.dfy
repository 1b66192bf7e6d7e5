/** Runs, for every image push and every configuration that allows a retry, which show that the
    conditions of the protocol theorems cannot be dropped. */
module ProtocolTraces {
  import opened Basics
  import opened PromoteJob
  import opened Manifests
  import opened WorkerSettings
  import opened Protocol
  import opened ProtocolNoLoss
  import opened ProtocolOwnership
  import V = Valkey

  ghost predicate Fits(c: Config, j: Job) {
    j.pushId != "" && j.attempts == 0 && KindOf(c, j.manifest) == Some(Image) && c.settings.Budget() >= 2
  }

  function Nobody(j: Job): Worker { Worker(Idle, j, 0, 0) }

  function Start(j: Job): Sys {
    Sys(0, V.EmptyQueue, map[], map[], 0, [Nobody(j), Nobody(j)],
        map[], {}, map[], {}, {}, [], {}, multiset{})
  }

  // The push is accepted and has been claimed n times; q, the clock and the workers vary.
  function Two(j: Job, now: int, q: V.Queue, n: nat, w0: Worker, w1: Worker): Sys {
    var last: map<string, nat> := if n == 0 then map[] else map[j.pushId := n - 1];
    Sys(now, q, last, last, n, [w0, w1],
        map[], {j.pushId}, map[j.pushId := j], {j.pushId}, {j.manifest}, [], {}, multiset{})
  }

  function Waiting(j: Job): V.Queue { V.Queue([V.JobJson(j)], map[], map[], []) }

  function Taken(j: Job, at: int): V.Queue {
    V.Queue([], map[j.pushId := V.JobJson(j)], map[j.pushId := V.At(at)], [])
  }

  function Tried(j: Job): Job { j.(attempts := 1) }

  /* ---- runs through listed states ---- */

  ghost predicate Takes(c: Config, s: Sys, step: Step, t: Sys) { Enabled(c, s, step) && Apply(c, s, step) == t }

  ghost predicate Reaches(c: Config, s: Sys, steps: seq<Step>, t: Sys) { Run(c, s, steps) && Final(c, s, steps) == t }

  // No sweep has requeued anything yet.
  ghost predicate NoSweeps(steps: seq<Step>) { forall step :: step in steps ==> !(step.ByWorker? && step.a.SweepOne?) }

  lemma {:induction false} Extend(c: Config, s: Sys, steps: seq<Step>, t: Sys, step: Step, u: Sys)
    requires Reaches(c, s, steps, t) && Takes(c, t, step, u)
    ensures Reaches(c, s, steps + [step], u)
    decreases |steps|
  {
    if steps == [] {
      assert Run(c, u, []);
      assert [step][1..] == [];
    } else {
      assert (steps + [step])[1..] == steps[1..] + [step];
      Extend(c, Apply(c, s, steps[0]), steps[1..], t, step, u);
    }
  }

  lemma Accepted(c: Config, j: Job) returns (steps: seq<Step>)
    requires Fits(c, j)
    ensures Reaches(c, Start(j), steps, Two(j, 0, Waiting(j), 0, Nobody(j), Nobody(j))) && NoSweeps(steps)
  {
    var s0, id := Start(j), j.pushId;
    var s1 := s0.(staged := {id}, handlers := map[id := Handler(Staged, j)]);
    var s2 := s1.(handlers := map[id := Handler(Passed, j)], gated := {j.manifest});
    steps := [];
    Extend(c, s0, steps, s0, ByHandler(Stage(j)), s1);
    steps := steps + [ByHandler(Stage(j))];
    Extend(c, s0, steps, s1, ByHandler(GatePass(id)), s2);
    steps := steps + [ByHandler(GatePass(id))];
    assert map[id := Handler(Passed, j)] - {id} == map[];
    Extend(c, s0, steps, s2, ByHandler(Promote(id)), Two(j, 0, Waiting(j), 0, Nobody(j), Nobody(j)));
    steps := steps + [ByHandler(Promote(id))];
  }

  // Worker 0 has claimed the push, failed to push it and put it back, and has not acked yet.
  function PutBack(j: Job): Sys {
    Two(j, 0, Taken(j, 0).(pending := [V.JobJson(Tried(j))]), 1, Worker(Requeued, Tried(j), 0, 0), Nobody(j))
  }

  function Handling(j: Job, pc: Pc): Sys {
    Two(j, 0, Taken(j, 0), 1, Worker(pc, if pc.Working? then j else Tried(j), 0, 0), Nobody(j))
  }

  lemma UntilReady(c: Config, j: Job) returns (steps: seq<Step>)
    requires Fits(c, j)
    ensures Reaches(c, Start(j), steps, Handling(j, Ready)) && NoSweeps(steps)
  {
    steps := Accepted(c, j);
    Extend(c, Start(j), steps, Two(j, 0, Waiting(j), 0, Nobody(j), Nobody(j)),
           ByWorker(0, Claim), Handling(j, Working));
    steps := steps + [ByWorker(0, Claim)];
    Extend(c, Start(j), steps, Handling(j, Working), ByWorker(0, Attempt), Handling(j, Attempting));
    steps := steps + [ByWorker(0, Attempt)];
    var here := LayoutReady(j.ociPath, j.scratchDir);
    Extend(c, Start(j), steps, Handling(j, Attempting), ByWorker(0, here), Handling(j, Ready));
    steps := steps + [ByWorker(0, here)];
  }

  lemma UntilPutBack(c: Config, j: Job) returns (steps: seq<Step>)
    requires Fits(c, j)
    ensures Reaches(c, Start(j), steps, PutBack(j))
  {
    steps := UntilReady(c, j);
    Extend(c, Start(j), steps, Handling(j, Ready), ByWorker(0, PushFails(false, false)), Handling(j, Failing(false)));
    steps := steps + [ByWorker(0, PushFails(false, false))];
    Extend(c, Start(j), steps, Handling(j, Failing(false)), ByWorker(0, Requeue), PutBack(j));
    steps := steps + [ByWorker(0, Requeue)];
  }

  // The requeued copy is claimed by worker 1 before worker 0 has acked.
  function Overtaken(j: Job): Sys {
    Two(j, 0, V.Queue([], map[j.pushId := V.JobJson(Tried(j))], map[j.pushId := V.At(0)], []), 2,
        Worker(Requeued, Tried(j), 0, 0), Worker(Working, Tried(j), 1, 0))
  }

  lemma UntilOvertaken(c: Config, j: Job) returns (steps: seq<Step>)
    requires Fits(c, j)
    ensures Reaches(c, Start(j), steps, Overtaken(j))
  {
    steps := UntilPutBack(c, j);
    Extend(c, Start(j), steps, PutBack(j), ByWorker(1, Claim), Overtaken(j));
    steps := steps + [ByWorker(1, Claim)];
  }

  /** With two workers and one crash an accepted push can vanish: the requeued copy is claimed before
      the first worker acks, that ack deletes the second worker's claim, and the second one dies. */
  lemma TwoWorkersCanLose(c: Config, j: Job) returns (steps: seq<Step>, t: Sys)
    requires Fits(c, j)
    ensures Init(Start(j)) && Reaches(c, Start(j), steps, t)
    ensures j.pushId in t.accepted && !Held(t, j.pushId)
  {
    var q := V.Queue([], map[], map[j.pushId := V.At(0)], []);
    var acked, late := Worker(StampLeft(false), Tried(j), 0, 0), Worker(Working, Tried(j), 1, 0);
    var s2 := Two(j, 0, q, 2, acked, late);
    t := Two(j, 0, q, 2, acked, late.(pc := Idle));
    steps := UntilOvertaken(c, j);
    assert Overtaken(j).queue.claimed - {j.pushId} == map[];
    Extend(c, Start(j), steps, Overtaken(j), ByWorker(0, AckClaim), s2);
    steps := steps + [ByWorker(0, AckClaim)];
    Extend(c, Start(j), steps, s2, ByWorker(1, Crash), t);
    steps := steps + [ByWorker(1, Crash)];
  }

  // Worker 0 has deleted its claim entry but not yet the stamp; worker 1 has claimed the copy.
  function Between(j: Job): Sys {
    Two(j, 0, V.Queue([], map[j.pushId := V.JobJson(Tried(j))], map[j.pushId := V.At(0)], []), 2,
        Worker(StampLeft(false), Tried(j), 0, 0), Worker(Working, Tried(j), 1, 0))
  }

  lemma UntilBetween(c: Config, j: Job) returns (steps: seq<Step>)
    requires Fits(c, j)
    ensures Reaches(c, Start(j), steps, Between(j))
  {
    var s1 := Two(j, 0, V.Queue([V.JobJson(Tried(j))], map[], map[j.pushId := V.At(0)], []), 1,
                  Worker(StampLeft(false), Tried(j), 0, 0), Nobody(j));
    steps := UntilPutBack(c, j);
    assert PutBack(j).queue.claimed - {j.pushId} == map[];
    Extend(c, Start(j), steps, PutBack(j), ByWorker(0, AckClaim), s1);
    steps := steps + [ByWorker(0, AckClaim)];
    Extend(c, Start(j), steps, s1, ByWorker(1, Claim), Between(j));
    steps := steps + [ByWorker(1, Claim)];
  }

  // Then worker 0 deletes the stamp, which is worker 1's.
  function Unstamped(j: Job, w1: Pc): Sys {
    Two(j, 0, V.EmptyQueue.(claimed := map[j.pushId := V.JobJson(Tried(j))]), 2,
        Worker(Idle, Tried(j), 0, 0), Worker(w1, Tried(j), 1, 0))
  }

  lemma UntilUnstamped(c: Config, j: Job) returns (steps: seq<Step>)
    requires Fits(c, j)
    ensures Reaches(c, Start(j), steps, Unstamped(j, Working))
  {
    steps := UntilBetween(c, j);
    assert Between(j).queue.stamps - {j.pushId} == map[];
    Extend(c, Start(j), steps, Between(j), ByWorker(0, AckStamp), Unstamped(j, Working));
    steps := steps + [ByWorker(0, AckStamp)];
  }

  /** Ack's second delete can also come late: it removes the stamp of a claim made in between, and when
      that worker dies the claim has no stamp, so no sweep will ever look at it. */
  lemma TwoWorkersCanStrand(c: Config, j: Job) returns (steps: seq<Step>, t: Sys)
    requires Fits(c, j)
    ensures Init(Start(j)) && Reaches(c, Start(j), steps, t)
    ensures j.pushId in t.accepted && !Settled(t, j.pushId)
    ensures t.queue == V.EmptyQueue.(claimed := map[j.pushId := V.JobJson(Tried(j))])
    ensures forall me :: me in t.workers ==> me.pc.Idle?
  {
    t := Unstamped(j, Idle);
    steps := UntilUnstamped(c, j);
    Extend(c, Start(j), steps, Unstamped(j, Working), ByWorker(1, Crash), t);
    steps := steps + [ByWorker(1, Crash)];
  }

  // Two workers have read the stamp of a claim nobody holds, just when it expires.
  function BothRead(c: Config, j: Job, w0: Pc, w1: Pc): Sys {
    Two(j, c.settings.Window(), Taken(j, 0), 1, Nobody(j).(pc := w0), Nobody(j).(pc := w1))
  }

  function Reading(j: Job): Pc { Sweeping(map[j.pushId := V.At(0)], 0) }

  lemma UntilBothRead(c: Config, j: Job) returns (steps: seq<Step>)
    requires Fits(c, j)
    ensures Reaches(c, Start(j), steps, BothRead(c, j, Reading(j), Reading(j)))
  {
    var s1 := Two(j, 0, Taken(j, 0), 1, Nobody(j), Nobody(j));
    steps := Accepted(c, j);
    Extend(c, Start(j), steps, Two(j, 0, Waiting(j), 0, Nobody(j), Nobody(j)), ByWorker(0, ClaimReplyLost), s1);
    steps := steps + [ByWorker(0, ClaimReplyLost)];
    Extend(c, Start(j), steps, s1, Tick(c.settings.Window()), BothRead(c, j, Idle, Idle));
    steps := steps + [Tick(c.settings.Window())];
    steps := ReadBoth(c, j, steps);
  }

  lemma ReadBoth(c: Config, j: Job, before: seq<Step>) returns (steps: seq<Step>)
    requires Reaches(c, Start(j), before, BothRead(c, j, Idle, Idle))
    ensures Reaches(c, Start(j), steps, BothRead(c, j, Reading(j), Reading(j)))
  {
    steps := before;
    Extend(c, Start(j), steps, BothRead(c, j, Idle, Idle), ByWorker(0, SweepRead), BothRead(c, j, Reading(j), Idle));
    steps := steps + [ByWorker(0, SweepRead)];
    Extend(c, Start(j), steps, BothRead(c, j, Reading(j), Idle), ByWorker(1, SweepRead),
           BothRead(c, j, Reading(j), Reading(j)));
    steps := steps + [ByWorker(1, SweepRead)];
  }

  // Worker 1 has swept the job back into the queue; worker 0 still holds what it read.
  function SweptByOther(c: Config, j: Job, w1: Pc): Sys {
    Two(j, c.settings.Window(), Waiting(j), 1, Nobody(j).(pc := Reading(j)), Nobody(j).(pc := w1))
  }

  lemma UntilSwept(c: Config, j: Job) returns (steps: seq<Step>)
    requires Fits(c, j)
    ensures Reaches(c, Start(j), steps, SweptByOther(c, j, Idle))
  {
    var s5 := SweptByOther(c, j, Sweeping(map[], 0));
    steps := UntilBothRead(c, j);
    assert Reading(j).read - {j.pushId} == map[] && Taken(j, 0).claimed - {j.pushId} == map[];
    Extend(c, Start(j), steps, BothRead(c, j, Reading(j), Reading(j)), ByWorker(1, SweepOne(j.pushId)), s5);
    steps := steps + [ByWorker(1, SweepOne(j.pushId))];
    Extend(c, Start(j), steps, s5, ByWorker(1, SweepStop), SweptByOther(c, j, Idle));
    steps := steps + [ByWorker(1, SweepStop)];
  }

  function Reclaimed(c: Config, j: Job): Sys {
    var window := c.settings.Window();
    Two(j, window, Taken(j, window), 2, Nobody(j).(pc := Reading(j)), Worker(Working, j, 1, window))
  }

  lemma UntilReclaimed(c: Config, j: Job) returns (steps: seq<Step>)
    requires Fits(c, j)
    ensures Reaches(c, Start(j), steps, Reclaimed(c, j))
  {
    steps := UntilSwept(c, j);
    Extend(c, Start(j), steps, SweptByOther(c, j, Idle), ByWorker(1, Claim), Reclaimed(c, j));
    steps := steps + [ByWorker(1, Claim)];
  }

  /** So a sweep can take a live claim, here because another sweep came between: it reads an expired stamp, another
      sweep requeues the job, a worker claims it afresh, and then the first sweep requeues it as well. */
  lemma TwoSweepsCanSteal(c: Config, j: Job) returns (steps: seq<Step>, t: Sys)
    requires Fits(c, j)
    ensures Init(Start(j)) && Reaches(c, Start(j), steps, t)
    ensures Enabled(c, t, ByWorker(0, SweepOne(j.pushId)))
    ensures StepCommand(t, ByWorker(0, SweepOne(j.pushId))) == RequeueClaim(j.pushId)
    ensures Live(c, t, j.pushId)
    ensures |t.workers| == 2 && t.workers[1].pc.Working? && t.workers[1].job == j
  {
    steps := UntilReclaimed(c, j);
    t := Reclaimed(c, j);
  }

  // Worker 0 overran the window before its push failed; worker 1 has read its stamp by now.
  function Overdue(c: Config, j: Job, pc: Pc, sweeping: bool): Sys {
    Two(j, c.settings.Window(), Taken(j, 0), 1, Worker(pc, Tried(j), 0, 0),
        Nobody(j).(pc := if sweeping then Reading(j) else Idle))
  }

  lemma UntilOverdue(c: Config, j: Job) returns (steps: seq<Step>)
    requires Fits(c, j)
    ensures Reaches(c, Start(j), steps, Overdue(c, j, Failing(false), true)) && NoSweeps(steps)
  {
    steps := UntilReady(c, j);
    Extend(c, Start(j), steps, Handling(j, Ready), Tick(c.settings.Window()), Overdue(c, j, Ready, false));
    steps := steps + [Tick(c.settings.Window())];
    Extend(c, Start(j), steps, Overdue(c, j, Ready, false), ByWorker(1, SweepRead), Overdue(c, j, Ready, true));
    steps := steps + [ByWorker(1, SweepRead)];
    Extend(c, Start(j), steps, Overdue(c, j, Ready, true), ByWorker(0, PushFails(false, false)),
           Overdue(c, j, Failing(false), true));
    steps := steps + [ByWorker(0, PushFails(false, false))];
  }

  // It puts its job back and acks, and the sweep still holds what it read.
  function OverdueAcks(c: Config, j: Job, q: V.Queue, pc: Pc): Sys {
    Two(j, c.settings.Window(), q, 1, Worker(pc, Tried(j), 0, 0), Nobody(j).(pc := Reading(j)))
  }

  lemma UntilOverdueAcked(c: Config, j: Job) returns (steps: seq<Step>)
    requires Fits(c, j)
    ensures Reaches(c, Start(j), steps, OverdueAcks(c, j, Waiting(Tried(j)), Idle)) && NoSweeps(steps)
  {
    var put := Taken(j, 0).(pending := [V.JobJson(Tried(j))]);
    var half := put.(claimed := map[]);
    steps := UntilOverdue(c, j);
    Extend(c, Start(j), steps, Overdue(c, j, Failing(false), true), ByWorker(0, Requeue),
           OverdueAcks(c, j, put, Requeued));
    steps := steps + [ByWorker(0, Requeue)];
    assert put.claimed - {j.pushId} == map[];
    Extend(c, Start(j), steps, OverdueAcks(c, j, put, Requeued), ByWorker(0, AckClaim),
           OverdueAcks(c, j, half, StampLeft(false)));
    steps := steps + [ByWorker(0, AckClaim)];
    assert half.stamps - {j.pushId} == map[];
    Extend(c, Start(j), steps, OverdueAcks(c, j, half, StampLeft(false)), ByWorker(0, AckStamp),
           OverdueAcks(c, j, Waiting(Tried(j)), Idle));
    steps := steps + [ByWorker(0, AckStamp)];
  }

  // The next claim of the job is fresh.
  function ClaimedAfresh(c: Config, j: Job): Sys {
    var window := c.settings.Window();
    Two(j, window, Taken(Tried(j), window), 2, Worker(Working, Tried(j), 1, window), Nobody(j).(pc := Reading(j)))
  }

  lemma UntilClaimedAfresh(c: Config, j: Job) returns (steps: seq<Step>)
    requires Fits(c, j)
    ensures Reaches(c, Start(j), steps, ClaimedAfresh(c, j)) && NoSweeps(steps)
  {
    steps := UntilOverdueAcked(c, j);
    Extend(c, Start(j), steps, OverdueAcks(c, j, Waiting(Tried(j)), Idle), ByWorker(0, Claim), ClaimedAfresh(c, j));
    steps := steps + [ByWorker(0, Claim)];
  }

  /** One sweep is enough when a handle has overrun the window: the sweep reads its stamp, the handle puts
      its job back and acks, the next claim of the job is fresh, and the sweep requeues that one. */
  lemma OneSweepCanSteal(c: Config, j: Job) returns (steps: seq<Step>, t: Sys)
    requires Fits(c, j)
    ensures Init(Start(j)) && Reaches(c, Start(j), steps, t)
    ensures Enabled(c, t, ByWorker(1, SweepOne(j.pushId))) && Steals(c, t, ByWorker(1, SweepOne(j.pushId)), j.pushId)
    ensures NoSweeps(steps)
    ensures |t.workers| == 2 && t.workers[0].pc.Working? && t.workers[0].job == Tried(j)
  {
    steps := UntilClaimedAfresh(c, j);
    t := ClaimedAfresh(c, j);
  }
}
