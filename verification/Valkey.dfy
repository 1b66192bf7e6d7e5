/** The durable promotion queue (internal/promote/valkey.go): each Valkey command or
    script as one function on the four keys, and the Go methods as a class over them. */
module Valkey {
  import opened Basics
  import opened PromoteJob

  // What can stand in a list or hash slot. JobJson is what Enqueue writes; the other two are
  // foreign bytes: JSON that does not unmarshal into a Job, with the push_id the script reads
  // from it if any, and bytes on which the script raises, as anything that is not JSON.
  datatype Payload =
    | JobJson(job: Job)
    | OtherJson(id: Option<string>, text: string)
    | NotJson(text: string)

  // A claim time as stored; Garbled is a stamp time.Parse rejects.
  datatype Stamp = At(t: int) | Garbled {
    predicate After(cutoff: int) { At? && t > cutoff }
  }

  datatype Queue = Queue(
    pending: seq<Payload>,
    claimed: map<string, Payload>,
    stamps: map<string, Stamp>,
    dead: seq<Payload>)

  const EmptyQueue := Queue([], map[], map[], [])

  /* ---- commands ---- */

  function Push(q: Queue, j: Job): Queue { q.(pending := q.pending + [JobJson(j)]) }

  datatype Reply = Nothing | ScriptError | Popped(payload: Payload)

  // claimScript. LPOP has already happened when cjson.decode raises, and Valkey does not
  // roll a script back. In Lua only nil is false, so an empty push_id still keys a claim.
  function ClaimScript(q: Queue, now: int): (Queue, Reply) {
    if q.pending == [] then (q, Nothing)
    else
      var p := q.pending[0];
      var q1 := q.(pending := q.pending[1..]);
      match p
      case NotJson(_) => (q1, ScriptError)
      case OtherJson(None, _) => (q1, Popped(p))
      case OtherJson(Some(id), _) =>
        (q1.(claimed := q.claimed[id := p], stamps := q.stamps[id := At(now)]), Popped(p))
      case JobJson(j) =>
        (q1.(claimed := q.claimed[j.pushId := p], stamps := q.stamps[j.pushId := At(now)]), Popped(p))
  }

  function DelClaim(q: Queue, id: string): Queue { q.(claimed := q.claimed - {id}) }

  function DelStamp(q: Queue, id: string): Queue { q.(stamps := q.stamps - {id}) }

  function RequeueScript(q: Queue, id: string): Queue {
    var cleared := DelStamp(DelClaim(q, id), id);
    if id in q.claimed then cleared.(pending := [q.claimed[id]] + q.pending) else cleared
  }

  /* ---- Claim, as its Go caller sees it ---- */

  datatype Claimed = NoJob | Got(job: Job) | Failed

  function Park(q: Queue, p: Payload): Queue { q.(dead := q.dead + [p]) }

  // A payload Claim can read but not hand out: it does not unmarshal, or its push ID is empty.
  predicate Parked(p: Payload) { p.OtherJson? || (p.JobJson? && p.job.pushId == "") }

  // The id the script keys a payload by; only an absent one leaves it unkeyed.
  function KeyOf(p: Payload): Option<string> {
    match p
    case JobJson(j) => Some(j.pushId)
    case OtherJson(id, _) => id
    case NotJson(_) => None
  }

  /** The id a payload is keyed by is its push ID, an empty one included, or whatever the script reads from JSON
      that is not a job; and only a job with a push ID is not parked. */
  lemma KeyedAndParked(p: Payload, id: string)
    ensures KeyOf(p) == Some(id) <==>
              (p.JobJson? && p.job.pushId == id) || exists text :: p == OtherJson(Some(id), text)
    ensures Parked(p) <==> !p.NotJson? && !(p.JobJson? && p.job.pushId != "")
  {
    if p.OtherJson? && p.id == Some(id) { assert p == OtherJson(Some(id), p.text); }
  }

  // `call` is how the script call goes and `park` how the append to the dead list goes.
  function ClaimReplied(q: Queue, now: int, call: Call, park: Call): (Queue, Claimed) {
    var (q1, reply) := ClaimScript(q, now);
    if call.Fails? then (if call.applied then q1 else q, Failed)
    else match reply
      case Nothing => (q1, NoJob)
      case ScriptError => (q1, Failed)
      case Popped(p) =>
        if p.JobJson? && p.job.pushId != "" then (q1, Got(p.job))
        else (if park.Took() then Park(q1, p) else q1, Failed)
  }

  // Claim has a job to hand out.
  predicate Hands(pending: seq<Payload>) { pending != [] && pending[0].JobJson? && pending[0].job.pushId != "" }

  lemma HandsOut(q: Queue, now: int, call: Call, park: Call)
    ensures var r := ClaimReplied(q, now, call, park).1;
            (r.Got? <==> call.Works? && Hands(q.pending)) && (r.Got? ==> r.job == q.pending[0].job)
  {
  }

  function ClaimResult(q: Queue, now: int): (Queue, Claimed) { ClaimReplied(q, now, Works, Works) }

  // Ack's two deletes, the second tried only when the first worked.
  function Acked(q: Queue, id: string, first: Call, second: Call): Queue {
    var q1 := if first.Took() then DelClaim(q, id) else q;
    if first.Works? && second.Took() then DelStamp(q1, id) else q1
  }

  /* ---- Recover ---- */

  // The claims a sweep that read `stamps` treats as abandoned.
  function Expired(stamps: map<string, Stamp>, cutoff: int): set<string> {
    set id | id in stamps && !stamps[id].After(cutoff)
  }

  /** Those written at or before the cutoff, and those whose stamp cannot be read; a claim inside the window is
      never one of them. */
  lemma ExpiredMeans(stamps: map<string, Stamp>, cutoff: int, id: string)
    ensures id in Expired(stamps, cutoff) <==> id in stamps && (stamps[id] == Garbled || stamps[id].t <= cutoff)
  {
  }

  // requeueScript run once for each id, in the order the map iteration produced them.
  function RequeueAll(q: Queue, order: seq<string>): Queue {
    if order == [] then q else RequeueScript(RequeueAll(q, order[..|order| - 1]), order[|order| - 1])
  }

  // The payloads those runs return, in the same order.
  function Reclaimed(claimed: map<string, Payload>, order: seq<string>): seq<Payload> {
    if order == [] then []
    else
      var id := order[|order| - 1];
      Reclaimed(claimed, order[..|order| - 1]) + (if id in claimed then [claimed[id]] else [])
  }

  function AsPayloads(js: seq<Job>): seq<Payload> { seq(|js|, i requires 0 <= i < |js| => JobJson(js[i])) }

  /** Whatever order the hash is read in, requeueing distinct ids moves exactly their claims to
      the front of pending, most recently requeued first, clears exactly their stamps and
      leaves every other claim, stamp and pending job as it was. */
  lemma {:induction false} RequeueAllMoves(q: Queue, order: seq<string>)
    requires Distinct(order)
    ensures RequeueAll(q, order) ==
            Queue(Reverse(Reclaimed(q.claimed, order)) + q.pending,
                  q.claimed - Elements(order), q.stamps - Elements(order), q.dead)
  {
    if order != [] {
      var n := |order| - 1;
      var id, front := order[n], order[..n];
      RequeueAllMoves(q, front);
      assert order == front + [id];
      MinusTwice(q.claimed, front, id);
      MinusTwice(q.stamps, front, id);
      assert id !in front;
      RequeueOneMore(q, Reclaimed(q.claimed, front), Elements(front), id);
      if id in q.claimed {
        ReverseSnoc(Reclaimed(q.claimed, front), q.claimed[id]);
      } else {
        assert Reclaimed(q.claimed, front) + [] == Reclaimed(q.claimed, front);
      }
    }
  }

  lemma RequeueOneMore(q: Queue, taken: seq<Payload>, ids: set<string>, id: string)
    requires id !in ids
    ensures RequeueScript(Queue(Reverse(taken) + q.pending, q.claimed - ids, q.stamps - ids, q.dead), id) ==
            Queue((if id in q.claimed then [q.claimed[id]] + Reverse(taken) else Reverse(taken)) + q.pending,
                  q.claimed - ids - {id}, q.stamps - ids - {id}, q.dead)
  {
    if id in q.claimed {
      assert [q.claimed[id]] + (Reverse(taken) + q.pending) == [q.claimed[id]] + Reverse(taken) + q.pending;
    }
  }

  lemma MinusTwice<V>(m: map<string, V>, front: seq<string>, id: string)
    ensures m - Elements(front) - {id} == m - Elements(front + [id])
  {
    assert Elements(front + [id]) == Elements(front) + {id};
  }

  // A Valkey queue holding only what Enqueue and Claim write for jobs with a push ID.
  ghost predicate WellFormed(q: Queue) {
    && (forall p :: p in q.pending ==> p.JobJson? && p.job.pushId != "")
    && (forall id :: id in q.claimed ==>
          q.claimed[id].JobJson? && q.claimed[id].job.pushId == id && id != "" && id in q.stamps)
    && (forall id :: id in q.stamps ==> q.stamps[id].At?)
  }

  lemma {:induction false} ReclaimedJobs(q: Queue, order: seq<string>)
    requires WellFormed(q)
    ensures forall p :: p in Reclaimed(q.claimed, order) ==>
        p.JobJson? && p.job.pushId != "" && p.job.pushId in q.claimed
  {
    if order != [] {
      ReclaimedJobs(q, order[..|order| - 1]);
    }
  }

  class ValkeyQueue {
    var pending: seq<Payload>
    var claimed: map<string, Payload>
    var stamps: map<string, Stamp>
    var dead: seq<Payload>

    function State(): Queue
      reads this
    {
      Queue(pending, claimed, stamps, dead)
    }

    constructor ()
      ensures State() == EmptyQueue
    {
      pending, claimed, stamps, dead := [], map[], map[], [];
    }

    method Enqueue(j: Job, call: Call) returns (ok: bool)
      modifies this
      ensures ok == call.Works?
      ensures State() == if call.Took() then Push(old(State()), j) else old(State())
    {
      if call.Took() { pending := pending + [JobJson(j)]; }
      ok := call.Works?;
    }

    method Claim(now: int, call: Call, park: Call) returns (r: Claimed)
      modifies this
      ensures (State(), r) == ClaimReplied(old(State()), now, call, park)
    {
      if !call.Took() { return Failed; }
      var reply := RunClaimScript(now);
      if call.Fails? { return Failed; }
      match reply {
        case Nothing => return NoJob;
        case ScriptError => return Failed;
        case Popped(p) =>
          if p.JobJson? && p.job.pushId != "" { return Got(p.job); }
          if park.Took() { dead := dead + [p]; }
          return Failed;
      }
    }

    method RunClaimScript(now: int) returns (reply: Reply)
      modifies this
      ensures (State(), reply) == ClaimScript(old(State()), now)
    {
      if pending == [] { return Nothing; }
      var p := pending[0];
      pending := pending[1..];
      if p.NotJson? { return ScriptError; }
      var id := KeyOf(p);
      if id.Some? { claimed, stamps := claimed[id.value := p], stamps[id.value := At(now)]; }
      return Popped(p);
    }

    method Ack(id: string, first: Call, second: Call) returns (ok: bool)
      modifies this
      ensures ok == (first.Works? && second.Works?)
      ensures State() == Acked(old(State()), id, first, second)
    {
      if first.Took() { claimed := claimed - {id}; }
      if first.Fails? { return false; }
      if second.Took() { stamps := stamps - {id}; }
      return second.Works?;
    }

    method Depth(up: bool) returns (n: Option<nat>)
      ensures n == if up then Some(|State().pending|) else None
    {
      n := if up then Some(|pending|) else None;
    }

    method RunRequeueScript(id: string) returns (payload: Option<Payload>)
      modifies this
      ensures State() == RequeueScript(old(State()), id)
      ensures payload == if id in old(claimed) then Some(old(claimed)[id]) else None
    {
      payload := if id in claimed then Some(claimed[id]) else None;
      claimed, stamps := claimed - {id}, stamps - {id};
      if payload.Some? {
        pending := [payload.value] + pending;
      }
    }

    // Sweeps once. `order` is the order the hash iteration met the expired ids in, as far as their
    // scripts were applied; the sweep stops at a script call that fails and at a payload that does
    // not unmarshal, which it has requeued by then.
    method Recover(now: int, olderThan: int, readUp: bool, scripts: nat -> Call)
      returns (out: seq<Job>, ok: bool, ghost order: seq<string>)
      modifies this
      ensures Distinct(order)
      ensures State() == RequeueAll(old(State()), order)
      ensures Elements(order) <= Expired(old(stamps), now - olderThan)
      ensures !readUp ==> !ok && order == []
      ensures ok ==> Elements(order) == Expired(old(stamps), now - olderThan)
      ensures ok ==> AsPayloads(out) == Reclaimed(old(claimed), order)
      ensures ok ==> forall id :: id in order && id in old(claimed) ==> old(claimed)[id].JobJson?
      ensures !ok ==> !readUp || (exists k :: scripts(k).Fails?)
                      || exists id :: id in order && id in old(claimed) && !old(claimed)[id].JobJson?
    {
      ghost var before := State();
      out, order, ok := [], [], false;
      if !readUp { return; }
      var read := stamps;
      var cutoff := now - olderThan;
      var todo := read.Keys;
      var k := 0;
      while todo != {}
        invariant todo <= read.Keys
        invariant Distinct(order)
        invariant Elements(order) == Expired(read, cutoff) - todo
        invariant State() == RequeueAll(before, order)
        invariant AsPayloads(out) == Reclaimed(before.claimed, order)
        invariant forall id :: id in order && id in before.claimed ==> before.claimed[id].JobJson?
        decreases todo
      {
        var id :| id in todo;
        todo := todo - {id};
        if read[id].After(cutoff) { continue; }
        RequeueAllMoves(before, order);
        assert id !in Elements(order);
        if !scripts(k).Took() { return; }
        Snoc(order, id);
        ghost var front := order;
        order := order + [id];
        assert order[..|front|] == front;
        var payload := RunRequeueScript(id);
        if scripts(k).Fails? { return; }
        k := k + 1;
        if payload.None? { continue; }
        if !payload.value.JobJson? {
          assert id in order;
          return;
        }
        assert AsPayloads(out + [payload.value.job]) == AsPayloads(out) + [payload.value];
        out := out + [payload.value.job];
      }
      ok := true;
    }
  }

  /* ---- order ---- */

  function PushAll(q: Queue, js: seq<Job>): Queue
    decreases |js|
  {
    if js == [] then q else PushAll(Push(q, js[0]), js[1..])
  }

  // So many claims in a row, and the jobs they hand out.
  function ClaimMany(q: Queue, n: nat, now: int): (Queue, seq<Job>)
    decreases n
  {
    if n == 0 then (q, [])
    else
      var (q1, r) := ClaimResult(q, now);
      var (q2, js) := ClaimMany(q1, n - 1, now);
      (q2, (if r.Got? then [r.job] else []) + js)
  }

  lemma {:induction false} PushedAtTheTail(q: Queue, js: seq<Job>)
    ensures PushAll(q, js) == q.(pending := q.pending + AsPayloads(js))
    decreases |js|
  {
    if js == [] {
      assert q.pending + AsPayloads(js) == q.pending;
    } else {
      PushedAtTheTail(Push(q, js[0]), js[1..]);
      assert q.pending + [JobJson(js[0])] + AsPayloads(js[1..]) == q.pending + AsPayloads(js);
    }
  }

  lemma {:induction false} ClaimedFromTheHead(q: Queue, js: seq<Job>, now: int)
    requires q.pending == AsPayloads(js) && forall j :: j in js ==> j.pushId != ""
    ensures ClaimMany(q, |js|, now).1 == js && ClaimMany(q, |js|, now).0.pending == []
    decreases |js|
  {
    if js != [] {
      assert q.pending[0] == JobJson(js[0]) && js[0] in js;
      assert q.pending[1..] == AsPayloads(js[1..]);
      ClaimedFromTheHead(ClaimResult(q, now).0, js[1..], now);
    }
  }

  /** First in, first out: while no sweep puts anything back, jobs are handed out in the order they were
      enqueued. */
  lemma FirstInFirstOut(js: seq<Job>, now: int)
    requires forall j :: j in js ==> j.pushId != ""
    ensures ClaimMany(PushAll(EmptyQueue, js), |js|, now).1 == js
    ensures ClaimMany(PushAll(EmptyQueue, js), |js|, now).0.pending == []
  {
    PushedAtTheTail(EmptyQueue, js);
    assert PushAll(EmptyQueue, js).pending == AsPayloads(js);
    ClaimedFromTheHead(PushAll(EmptyQueue, js), js, now);
  }

  /* ---- what becomes of a payload ---- */

  /** Every payload at the head of pending, when Claim meets it and its commands work: handed out, parked,
      or gone. The comments say a parked payload is not tracked; it leaves a claim entry, and a sweep of
      that entry puts it back at the head, if and only if the script could read an id from it, and an
      empty id is one. */
  lemma WhatBecomesOfAPayload(q: Queue, now: int)
    requires q.pending != []
    ensures var p := q.pending[0]; var (q1, r) := ClaimResult(q, now);
            && q1.pending == q.pending[1..]
            && (r.Got? <==> p.JobJson? && !Parked(p))
            && q1.dead == (if Parked(p) then q.dead + [p] else q.dead)
            && ((exists id :: id in q1.claimed && q1.claimed[id] == p) <==>
                  KeyOf(p).Some? || exists id :: id in q.claimed && q.claimed[id] == p)
            && (KeyOf(p).None? ==> q1.claimed == q.claimed && q1.stamps == q.stamps)
            && (KeyOf(p).Some? ==>
                  && q1.claimed == q.claimed[KeyOf(p).value := p] && q1.stamps == q.stamps[KeyOf(p).value := At(now)]
                  && RequeueScript(q1, KeyOf(p).value).pending == [p] + q1.pending)
  {
    var p := q.pending[0];
    var q1 := ClaimResult(q, now).0;
    if KeyOf(p).Some? {
      assert KeyOf(p).value in q1.claimed && q1.claimed[KeyOf(p).value] == p;
    } else if id :| id in q.claimed && q.claimed[id] == p {
      assert id in q1.claimed && q1.claimed[id] == p;
    }
  }
}
