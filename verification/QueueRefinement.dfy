/** The Valkey queue simulates the in-process queue, command by command and over whole runs. */
module QueueRefinement {
  import opened Basics
  import opened PromoteJob
  import V = Valkey
  import M = MemoryQueue

  function JobsIn(ps: seq<V.Payload>): seq<Job>
    requires forall p :: p in ps ==> p.JobJson?
  {
    seq(|ps|, i requires 0 <= i < |ps| => ps[i].job)
  }

  // What the four keys mean: the payloads decoded, each claim with its own stamp. Stamps left
  // over by a crash between Ack's two deletes mean nothing.
  function Abs(q: V.Queue): M.Mem
    requires V.WellFormed(q)
  {
    M.Mem(JobsIn(q.pending), map id | id in q.claimed :: M.Held(q.claimed[id].job, q.stamps[id].t))
  }

  // One call, and how it ended. AckCut is an Ack whose process died between the two deletes;
  // a sweep carries the order in which the hash happened to be read.
  datatype Call =
    | Enqueue(job: Job)
    | Claim(now: int)
    | Ack(id: string)
    | AckCut(id: string)
    | Recover(now: int, olderThan: int, order: seq<string>)
    | Depth

  datatype Answer = Unit | Handed(job: Option<Job>) | Jobs(jobs: seq<Job>) | Count(n: nat)

  ghost predicate Legal(q: V.Queue, c: Call) {
    match c
    case Enqueue(j) => j.pushId != ""
    case Recover(now, olderThan, order) =>
      Distinct(order) && Elements(order) == V.Expired(q.stamps, now - olderThan)
    case _ => true
  }

  // The answers are read off the Valkey functions; on well-formed queues no call fails.
  ghost function Do(q: V.Queue, c: Call): (V.Queue, Answer)
    requires V.WellFormed(q)
  {
    match c
    case Enqueue(j) => (V.Push(q, j), Unit)
    case Claim(now) =>
      var (q1, r) := V.ClaimResult(q, now);
      (q1, Handed(if r.Got? then Some(r.job) else None))
    case Ack(id) => (V.DelStamp(V.DelClaim(q, id), id), Unit)
    case AckCut(id) => (V.DelClaim(q, id), Unit)
    case Recover(_, _, order) =>
      V.ReclaimedJobs(q, order);
      (V.RequeueAll(q, order), Jobs(JobsIn(V.Reclaimed(q.claimed, order))))
    case Depth => (q, Count(|q.pending|))
  }

  // The ids a sweep of `order` meets that still have a claim.
  function Live(claimed: map<string, V.Payload>, order: seq<string>): seq<string> {
    if order == [] then []
    else
      var id := order[|order| - 1];
      Live(claimed, order[..|order| - 1]) + (if id in claimed then [id] else [])
  }

  lemma {:induction false} LiveElements(claimed: map<string, V.Payload>, order: seq<string>)
    ensures Elements(Live(claimed, order)) == Elements(order) * claimed.Keys
    ensures Distinct(order) ==> Distinct(Live(claimed, order))
  {
    if order != [] {
      var n := |order| - 1;
      var id, front := order[n], order[..n];
      LiveElements(claimed, front);
      assert order == front + [id];
      ElementsPlus(front, [id]);
      if id in claimed {
        ElementsPlus(Live(claimed, front), [id]);
        if Distinct(order) {
          assert id !in front;
          assert id !in Elements(front);
          Snoc(Live(claimed, front), id);
        }
      } else {
        assert Live(claimed, order) == Live(claimed, front);
      }
    }
  }

  ghost predicate MemLegal(m: M.Mem, c: Call) {
    c.Recover? ==> Distinct(c.order) && Elements(c.order) == M.Stale(m.claimed, c.now - c.olderThan)
  }

  ghost function MemDo(m: M.Mem, c: Call): (M.Mem, Answer)
    requires MemLegal(m, c)
  {
    match c
    case Enqueue(j) => (M.Append(m, j), Unit)
    case Claim(now) => var (m1, r) := M.Take(m, now); (m1, Handed(r))
    case Ack(id) => (M.Drop(m, id), Unit)
    case AckCut(id) => (M.Drop(m, id), Unit)
    case Recover(_, _, order) => (M.Swept(m, order), Jobs(M.ClaimedJobs(m.claimed, order)))
    case Depth => (m, Count(|m.pending|))
  }

  // The same call on the in-process queue: its sweep never sees a stamp without a claim.
  function MemCall(q: V.Queue, c: Call): Call {
    if c.Recover? then c.(order := Live(q.claimed, c.order)) else c
  }

  /** Claimed keys stay a subset of the stamp keys through every call, an Ack cut off between its
      two deletes included, so a sweep finds every abandoned claim. */
  lemma CallsKeepWellFormed(q: V.Queue, c: Call)
    requires V.WellFormed(q) && Legal(q, c)
    ensures V.WellFormed(Do(q, c).0)
  {
    match c {
      case Recover(_, _, order) =>
        V.RequeueAllMoves(q, order);
        V.ReclaimedJobs(q, order);
        ReverseMultiset(V.Reclaimed(q.claimed, order));
        forall p | p in V.RequeueAll(q, order).pending ensures p.JobJson? && p.job.pushId != "" {
          if p !in q.pending {
            assert p in multiset(Reverse(V.Reclaimed(q.claimed, order)));
          }
        }
      case _ =>
    }
  }

  lemma SweepFindsJobs(q: V.Queue, order: seq<string>)
    requires V.WellFormed(q)
    ensures Elements(Live(q.claimed, order)) <= Abs(q).claimed.Keys
    ensures forall p :: p in V.Reclaimed(q.claimed, order) ==> p.JobJson?
  {
    LiveElements(q.claimed, order);
    V.ReclaimedJobs(q, order);
  }

  lemma {:induction false} SweepsAgree(q: V.Queue, order: seq<string>)
    requires V.WellFormed(q)
    ensures Elements(Live(q.claimed, order)) <= Abs(q).claimed.Keys
    ensures forall p :: p in V.Reclaimed(q.claimed, order) ==> p.JobJson?
    ensures JobsIn(V.Reclaimed(q.claimed, order)) == M.ClaimedJobs(Abs(q).claimed, Live(q.claimed, order))
  {
    SweepFindsJobs(q, order);
    if order != [] {
      var n := |order| - 1;
      var id, front := order[n], order[..n];
      SweepsAgree(q, front);
      if id in q.claimed {
        var live := Live(q.claimed, order);
        assert live[..|live| - 1] == Live(q.claimed, front);
        assert JobsIn(V.Reclaimed(q.claimed, order)) ==
               JobsIn(V.Reclaimed(q.claimed, front)) + [q.claimed[id].job];
      } else {
        assert Live(q.claimed, order) == Live(q.claimed, front);
        assert V.Reclaimed(q.claimed, order) == V.Reclaimed(q.claimed, front);
      }
    }
  }

  lemma {:induction false} JobsInReverse(ps: seq<V.Payload>)
    requires forall p :: p in ps ==> p.JobJson?
    ensures forall p :: p in Reverse(ps) ==> p.JobJson?
    ensures JobsIn(Reverse(ps)) == Reverse(JobsIn(ps))
  {
    if ps != [] {
      JobsInReverse(ps[1..]);
      assert JobsIn(ps)[1..] == JobsIn(ps[1..]);
    }
  }

  /** One call on the Valkey queue is the same call on the in-process queue, with the same answer. */
  lemma CallSimulates(q: V.Queue, c: Call)
    requires V.WellFormed(q) && Legal(q, c)
    ensures V.WellFormed(Do(q, c).0)
    ensures MemLegal(Abs(q), MemCall(q, c))
    ensures MemDo(Abs(q), MemCall(q, c)) == (Abs(Do(q, c).0), Do(q, c).1)
  {
    CallsKeepWellFormed(q, c);
    match c {
      case Enqueue(j) =>
        assert JobsIn(q.pending + [V.JobJson(j)]) == JobsIn(q.pending) + [j];
      case Claim(now) =>
        if q.pending != [] {
          var j := q.pending[0].job;
          assert JobsIn(q.pending)[1..] == JobsIn(q.pending[1..]);
          assert Abs(Do(q, c).0).claimed == Abs(q).claimed[j.pushId := M.Held(j, now)];
        }
      case Recover(now, olderThan, order) => SweepSimulates(q, now, olderThan, order);
      case Ack(id) =>
        assert Abs(Do(q, c).0).claimed == Abs(q).claimed - {id};
      case AckCut(id) =>
        assert Abs(Do(q, c).0).claimed == Abs(q).claimed - {id};
      case Depth =>
    }
  }

  lemma SweepSimulates(q: V.Queue, now: int, olderThan: int, order: seq<string>)
    requires V.WellFormed(q) && Legal(q, Recover(now, olderThan, order))
    ensures V.WellFormed(Do(q, Recover(now, olderThan, order)).0)
    ensures MemLegal(Abs(q), Recover(now, olderThan, Live(q.claimed, order)))
    ensures MemDo(Abs(q), Recover(now, olderThan, Live(q.claimed, order))) ==
            (Abs(Do(q, Recover(now, olderThan, order)).0), Do(q, Recover(now, olderThan, order)).1)
  {
    CallsKeepWellFormed(q, Recover(now, olderThan, order));
    LiveElements(q.claimed, order);
    StaleAreLive(q, now - olderThan, order);
    SweepsAgree(q, order);
    SweptIsRequeued(q, order);
  }

  lemma StaleAreLive(q: V.Queue, cutoff: int, order: seq<string>)
    requires V.WellFormed(q) && Elements(order) == V.Expired(q.stamps, cutoff)
    ensures Elements(order) * q.claimed.Keys == M.Stale(Abs(q).claimed, cutoff)
  {
  }

  lemma SweptIsRequeued(q: V.Queue, order: seq<string>)
    requires V.WellFormed(q) && Distinct(order)
    requires Elements(Live(q.claimed, order)) <= Abs(q).claimed.Keys
    requires V.WellFormed(V.RequeueAll(q, order))
    ensures M.Swept(Abs(q), Live(q.claimed, order)) == Abs(V.RequeueAll(q, order))
  {
    V.RequeueAllMoves(q, order);
    V.ReclaimedJobs(q, order);
    SweepsAgree(q, order);
    LiveElements(q.claimed, order);
    var taken := V.Reclaimed(q.claimed, order);
    JobsInReverse(taken);
    JobsInPlus(Reverse(taken), q.pending);
    ClaimsLeft(q, V.RequeueAll(q, order), order);
  }

  lemma JobsInPlus(a: seq<V.Payload>, b: seq<V.Payload>)
    requires forall p :: p in a ==> p.JobJson?
    requires forall p :: p in b ==> p.JobJson?
    ensures JobsIn(a + b) == JobsIn(a) + JobsIn(b)
  {
  }

  lemma ClaimsLeft(q: V.Queue, r: V.Queue, order: seq<string>)
    requires V.WellFormed(q) && V.WellFormed(r)
    requires r.claimed == q.claimed - Elements(order) && r.stamps == q.stamps - Elements(order)
    requires Elements(Live(q.claimed, order)) == Elements(order) * q.claimed.Keys
    ensures Abs(r).claimed == Abs(q).claimed - Elements(Live(q.claimed, order))
  {
  }

  /* ---- whole runs ---- */

  ghost predicate LegalRun(q: V.Queue, cs: seq<Call>)
    requires V.WellFormed(q)
    decreases |cs|
  {
    cs == [] || (Legal(q, cs[0]) && V.WellFormed(Do(q, cs[0]).0) && LegalRun(Do(q, cs[0]).0, cs[1..]))
  }

  ghost function Answers(q: V.Queue, cs: seq<Call>): seq<Answer>
    requires V.WellFormed(q) && LegalRun(q, cs)
    decreases |cs|
  {
    if cs == [] then [] else [Do(q, cs[0]).1] + Answers(Do(q, cs[0]).0, cs[1..])
  }

  ghost predicate SameCalls(cs: seq<Call>, ds: seq<Call>) {
    && |cs| == |ds|
    && forall i :: 0 <= i < |cs| ==>
         (cs[i] == ds[i] || (cs[i].Recover? && ds[i].Recover? && ds[i] == cs[i].(order := ds[i].order)))
  }

  ghost predicate MemAnswers(m: M.Mem, ds: seq<Call>, answers: seq<Answer>)
    decreases |ds|
  {
    if ds == [] then answers == []
    else
      && answers != [] && MemLegal(m, ds[0])
      && MemDo(m, ds[0]).1 == answers[0]
      && MemAnswers(MemDo(m, ds[0]).0, ds[1..], answers[1..])
  }

  /** Every run of the Valkey queue is, answer for answer, a run of the in-process queue that makes
      the same calls (its sweeps may meet the claims in some order of their own). */
  lemma {:induction false} RunSimulates(q: V.Queue, cs: seq<Call>) returns (ds: seq<Call>)
    requires V.WellFormed(q) && LegalRun(q, cs)
    ensures SameCalls(cs, ds)
    ensures MemAnswers(Abs(q), ds, Answers(q, cs))
    decreases |cs|
  {
    if cs == [] { return []; }
    CallSimulates(q, cs[0]);
    var rest := RunSimulates(Do(q, cs[0]).0, cs[1..]);
    ds := [MemCall(q, cs[0])] + rest;
    assert ds[1..] == rest;
    assert Answers(q, cs)[1..] == Answers(Do(q, cs[0]).0, cs[1..]);
  }

  /* ---- parked payloads ---- */

  function Alone(p: V.Payload): V.Queue { V.EmptyQueue.(pending := [p]) }

  // One claim of the only pending payload, then a sweep of these ids.
  function ClaimThenSweep(q: V.Queue, now: int, order: seq<string>): V.Queue {
    V.RequeueAll(V.ClaimResult(q, now).0, order)
  }

  /** A parked payload comes back with the next sweep that finds its claim expired if and only if the
      script could read an id from it. */
  lemma ParkedComesBackExactly(p: V.Payload, now: int, order: seq<string>)
    requires V.Parked(p)
    requires Distinct(order) && Elements(order) == V.Expired(V.ClaimResult(Alone(p), now).0.stamps, now)
    ensures ClaimThenSweep(Alone(p), now, order).pending == if V.KeyOf(p).Some? then [p] else []
    ensures ClaimThenSweep(Alone(p), now, order).dead == [p]
    ensures ClaimThenSweep(Alone(p), now, order).claimed == map[]
  {
    var q1 := V.ClaimResult(Alone(p), now).0;
    V.WhatBecomesOfAPayload(Alone(p), now);
    V.RequeueAllMoves(q1, order);
    match V.KeyOf(p) {
      case None =>
        assert V.Expired(q1.stamps, now) == {};
        forall i | 0 <= i < |order| ensures order[i] in Elements(order) {}
      case Some(id) =>
        assert V.Expired(q1.stamps, now) == {id};
        OnlyElement(order, id);
    }
  }

  lemma OnlyElement(order: seq<string>, id: string)
    requires Distinct(order) && Elements(order) == {id}
    ensures order == [id]
  {
    assert id in Elements(order);
    forall i | 0 <= i < |order| ensures order[i] == id { assert order[i] in Elements(order); }
    DistinctCounts(order);
  }

  function Rounds(q: V.Queue, now: int, id: string, n: nat): V.Queue {
    if n == 0 then q else ClaimThenSweep(Rounds(q, now, id, n - 1), now, [id])
  }

  /** So every such payload, whether its push ID is empty or it does not unmarshal at all, is parked by
      every Claim and put back by every sweep: it never leaves pending and the dead list grows by one each
      round. */
  lemma {:induction false} KeyedParkedNeverDrains(p: V.Payload, id: string, now: int, n: nat)
    requires V.Parked(p) && V.KeyOf(p) == Some(id)
    ensures var q := Rounds(Alone(p), now, id, n);
            q.pending == [p] && q.claimed == map[] && q.stamps == map[] && q.dead == seq(n, i => p)
    ensures V.Expired(V.ClaimResult(Rounds(Alone(p), now, id, n), now).0.stamps, now) == {id}
  {
    if n > 0 {
      KeyedParkedNeverDrains(p, id, now, n - 1);
      var q := Rounds(Alone(p), now, id, n - 1);
      var c := V.ClaimResult(q, now).0;
      assert [id][..0] == [];
      assert V.RequeueAll(c, [id]) == V.RequeueScript(c, id);
      assert c.claimed - {id} == map[] && c.stamps - {id} == map[];
    }
  }

  /** In particular a job with an empty push ID, which is said not to be tracked. */
  lemma EmptyPushIdNeverDrains(j: Job, now: int, n: nat)
    requires j.pushId == ""
    ensures var q := Rounds(V.Push(V.EmptyQueue, j), now, "", n);
            q.pending == [V.JobJson(j)] && q.claimed == map[] && q.stamps == map[] &&
            q.dead == seq(n, i => V.JobJson(j))
  {
    assert V.Push(V.EmptyQueue, j) == Alone(V.JobJson(j));
    KeyedParkedNeverDrains(V.JobJson(j), "", now, n);
  }
}
