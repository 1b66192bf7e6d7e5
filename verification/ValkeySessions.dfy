/** The session store on Valkey (internal/staging/valkey.go): offsets, completion flags and reference
    counters as expiring keys, that they agree with the in-process store while nothing expires, and that
    nothing it writes is immortal. */
module ValkeySessions {
  import opened Basics
  import opened StagingSpec

  datatype Key = OffsetKey(id: string) | CompleteKey(digest: string) | RefKey(digest: string) {
    function Name(): string {
      match this
      case OffsetKey(id) => "merlin:upload:" + id + ":offset"
      case CompleteKey(digest) => "merlin:blob:" + digest + ":complete"
      case RefKey(digest) => "merlin:blob:" + digest + ":refs"
    }
  }

  /** No two keys are written the same way, whatever characters upload IDs and digests contain. */
  lemma KeyNamesDiffer(a: Key, b: Key)
    requires a.Name() == b.Name()
    ensures a == b
  {
    var x, y := a.Name(), b.Name();
    assert x[7] == (if a.OffsetKey? then 'u' else 'b') && y[7] == (if b.OffsetKey? then 'u' else 'b');
    assert x[|x| - 1] == (match a case OffsetKey(_) => 't' case CompleteKey(_) => 'e' case RefKey(_) => 's');
    assert y[|y| - 1] == (match b case OffsetKey(_) => 't' case CompleteKey(_) => 'e' case RefKey(_) => 's');
    match a {
      case OffsetKey(id) => assert x[14..|x| - 7] == id && y[14..|y| - 7] == b.id;
      case CompleteKey(digest) => assert x[12..|x| - 9] == digest && y[12..|y| - 9] == b.digest;
      case RefKey(digest) => assert x[12..|x| - 5] == digest && y[12..|y| - 5] == b.digest;
    }
  }

  // A value and when it expires; None never does.
  datatype Entry = Entry(value: int, expires: Option<int>)

  type Keys = map<Key, Entry>

  predicate Live(keys: Keys, k: Key, now: int) {
    k in keys && (keys[k].expires.None? || now < keys[k].expires.value)
  }

  function Get(keys: Keys, k: Key, now: int): Option<int> { if Live(keys, k, now) then Some(keys[k].value) else None }

  function SetFor(keys: Keys, k: Key, value: int, now: int, ttl: int): Keys { keys[k := Entry(value, Some(now + ttl))] }

  // casScript, which keeps the expiry.
  function Cas(keys: Keys, id: string, expected: int, next: int, now: int): (Keys, bool) {
    var k := OffsetKey(id);
    if Get(keys, k, now) == Some(expected) then (keys[k := keys[k].(value := next)], true) else (keys, false)
  }

  // INCR: a missing key starts at zero, without an expiry.
  function Incr(keys: Keys, k: Key, now: int): Keys {
    if Live(keys, k, now) then keys[k := keys[k].(value := keys[k].value + 1)] else keys[k := Entry(1, None)]
  }

  function Expire(keys: Keys, k: Key, now: int, ttl: int): Keys {
    if Live(keys, k, now) then keys[k := keys[k].(expires := Some(now + ttl))] else keys
  }

  // decrScript: -1 when there is no counter, which means unknown and not zero.
  function Decr(keys: Keys, k: Key, now: int): (Keys, int) {
    if !Live(keys, k, now) then (keys, -1)
    else
      var n := keys[k].value - 1;
      if n <= 0 then (keys - {k}, 0) else (keys[k := keys[k].(value := n)], n)
  }

  // INCR and then, as a second and best-effort command, the expiry.
  function IncrThenExpire(keys: Keys, k: Key, now: int, ttl: int, incr: Call, expire: Call): Keys {
    var counted := if incr.Took() then Incr(keys, k, now) else keys;
    if incr.Works? && expire.Took() then Expire(counted, k, now, ttl) else counted
  }

  class ValkeySessionStore {
    const ttl: int
    var keys: Keys

    // A lifetime that is not positive falls back to the default of a day.
    constructor (configured: int)
      ensures ttl > 0 && (configured > 0 ==> ttl == configured) && keys == map[]
    {
      ttl := if configured <= 0 then 86_400_000_000_000 else configured;
      keys := map[];
    }

    method Begin(id: string, now: int, call: Call) returns (ok: bool)
      modifies this
      ensures ok == call.Works?
      ensures keys == if call.Took() then SetFor(old(keys), OffsetKey(id), 0, now, ttl) else old(keys)
    {
      if call.Took() { keys := keys[OffsetKey(id) := Entry(0, Some(now + ttl))]; }
      ok := call.Works?;
    }

    method CompareAndSetOffset(id: string, expected: int, next: int, now: int, call: Call) returns (r: Option<bool>)
      modifies this
      ensures keys == if call.Took() then Cas(old(keys), id, expected, next, now).0 else old(keys)
      ensures r == if call.Works? then Some(Cas(old(keys), id, expected, next, now).1) else None
    {
      var ok := false;
      if call.Took() { ok := RunCasScript(id, expected, next, now); }
      r := if call.Works? then Some(ok) else None;
    }

    method RunCasScript(id: string, expected: int, next: int, now: int) returns (ok: bool)
      modifies this
      ensures (keys, ok) == Cas(old(keys), id, expected, next, now)
    {
      var k := OffsetKey(id);
      if k !in keys { return false; }
      if keys[k].expires.Some? && now >= keys[k].expires.value { return false; }
      if keys[k].value != expected { return false; }
      keys := keys[k := Entry(next, keys[k].expires)];
      return true;
    }

    method MarkComplete(digest: string, now: int, call: Call) returns (ok: bool)
      modifies this
      ensures ok == call.Works?
      ensures keys == if call.Took() then SetFor(old(keys), CompleteKey(digest), 1, now, ttl) else old(keys)
    {
      if call.Took() { keys := keys[CompleteKey(digest) := Entry(1, Some(now + ttl))]; }
      ok := call.Works?;
    }

    // One lookup a digest, up to the first that fails or finds nothing; None is a failed lookup.
    method AllComplete(digests: seq<string>, now: int, up: nat -> bool) returns (r: Option<bool>)
      ensures r == Some(true) <==> forall i :: 0 <= i < |digests| ==> up(i) && Live(keys, CompleteKey(digests[i]), now)
      ensures r.None? <==> exists i :: 0 <= i < |digests| && !up(i)
                             && forall k :: 0 <= k < i ==> up(k) && Live(keys, CompleteKey(digests[k]), now)
    {
      for i := 0 to |digests|
        invariant forall k :: 0 <= k < i ==> up(k) && Live(keys, CompleteKey(digests[k]), now)
      {
        if !up(i) { return None; }
        if !Live(keys, CompleteKey(digests[i]), now) { return Some(false); }
      }
      return Some(true);
    }

    method Clear(id: string, call: Call) returns (ok: bool)
      modifies this
      ensures keys == (if call.Took() then old(keys) - {OffsetKey(id)} else old(keys)) && ok == call.Works?
    {
      if call.Took() { keys := keys - {OffsetKey(id)}; }
      ok := call.Works?;
    }

    method IncBlobRef(digest: string, now: int, incr: Call, expire: Call) returns (ok: bool)
      modifies this
      ensures keys == IncrThenExpire(old(keys), RefKey(digest), now, ttl, incr, expire) && ok == incr.Works?
    {
      var k := RefKey(digest);
      if incr.Took() {
        if Live(keys, k, now) {
          keys := keys[k := Entry(keys[k].value + 1, keys[k].expires)];
        } else {
          keys := keys[k := Entry(1, None)];
        }
      }
      if incr.Fails? { return false; }
      if expire.Took() { keys := keys[k := Entry(keys[k].value, Some(now + ttl))]; }
      return true;
    }

    // None is an error: the script failed, or there is no counter.
    method DecBlobRef(digest: string, now: int, call: Call) returns (left: Option<nat>)
      modifies this
      ensures keys == if call.Took() then Decr(old(keys), RefKey(digest), now).0 else old(keys)
      ensures var n := Decr(old(keys), RefKey(digest), now).1;
              left == if call.Fails? || n < 0 then None else Some(n)
    {
      var n := -1;
      if call.Took() { n := RunDecrScript(digest, now); }
      if call.Fails? || n < 0 { return None; }
      return Some(n);
    }

    method RunDecrScript(digest: string, now: int) returns (n: int)
      modifies this
      ensures (keys, n) == Decr(old(keys), RefKey(digest), now)
    {
      var k := RefKey(digest);
      if !Live(keys, k, now) { return -1; }
      n := keys[k].value - 1;
      if n <= 0 {
        keys := keys - {k};
        return 0;
      }
      keys := keys[k := Entry(n, keys[k].expires)];
    }
  }

  /* ---- agreement with the in-process store ---- */

  // The live keys say what the in-process store holds.
  ghost predicate Mirrors(keys: Keys, now: int, b: Backends) {
    && (forall id :: Get(keys, OffsetKey(id), now) == if id in b.sessions then Some(b.sessions[id]) else None)
    && (forall d :: Live(keys, CompleteKey(d), now) <==> d in b.complete)
    && (forall d :: Get(keys, RefKey(d), now) == if d in b.refs then Some(b.refs[d]) else None)
  }

  // One operation on either store, and how its command on Valkey goes.
  datatype Op =
    | Begin(id: string, call: Call)
    | Advance(id: string, expected: int, next: int, call: Call)
    | Mark(digest: string, call: Call)
    | Clear(id: string, call: Call)
    | Inc(digest: string, call: Call, expire: Call)
    | Dec(digest: string, call: Call)

  datatype Reply = Done | Failed | NoUpload | Advanced(ok: bool) | Left(n: Option<nat>)

  function Effect(keys: Keys, op: Op, now: int, ttl: int): Keys {
    match op
    case Begin(id, _) => SetFor(keys, OffsetKey(id), 0, now, ttl)
    case Advance(id, expected, next, _) => Cas(keys, id, expected, next, now).0
    case Mark(digest, _) => SetFor(keys, CompleteKey(digest), 1, now, ttl)
    case Clear(id, _) => keys - {OffsetKey(id)}
    case Inc(digest, call, expire) => IncrThenExpire(keys, RefKey(digest), now, ttl, call, expire)
    case Dec(digest, _) => Decr(keys, RefKey(digest), now).0
  }

  function OnValkey(keys: Keys, op: Op, now: int, ttl: int): Keys {
    if op.call.Took() then Effect(keys, op, now, ttl) else keys
  }

  function ValkeyReply(keys: Keys, op: Op, now: int): Reply {
    if op.call.Fails? then Failed
    else match op
      case Advance(id, expected, next, _) => Advanced(Cas(keys, id, expected, next, now).1)
      case Dec(digest, _) =>
        var n := Decr(keys, RefKey(digest), now).1;
        Left(if n < 0 then None else Some(n))
      case _ => Done
  }

  function InProcess(b: Backends, op: Op): Backends {
    match op
    case Begin(id, _) => b.(sessions := b.sessions[id := 0])
    case Advance(id, expected, next, _) =>
      if id in b.sessions && b.sessions[id] == expected then b.(sessions := b.sessions[id := next]) else b
    case Mark(digest, _) => b.(complete := b.complete + {digest})
    case Clear(id, _) => b.(sessions := b.sessions - {id})
    case Inc(digest, _, _) => IncRef(b, digest)
    case Dec(digest, _) => DecRef(b, digest).0
  }

  // In process, advancing an upload that does not exist is an error.
  function InProcessReply(b: Backends, op: Op): Reply {
    match op
    case Advance(id, expected, _, _) => if id !in b.sessions then NoUpload else Advanced(b.sessions[id] == expected)
    case Dec(digest, _) => Left(DecRef(b, digest).1)
    case _ => Done
  }

  // The answers are the same, but for an unknown upload, which Valkey can only call out of order.
  predicate SameAnswer(valkey: Reply, inProcess: Reply) {
    if inProcess.NoUpload? then valkey == Advanced(false) else valkey == inProcess
  }

  lemma OffsetOpsAgree(keys: Keys, b: Backends, op: Op, now: int, ttl: int)
    requires Mirrors(keys, now, b) && ttl > 0 && op.call.Works? && (op.Begin? || op.Advance? || op.Clear?)
    ensures Mirrors(OnValkey(keys, op, now, ttl), now, InProcess(b, op))
    ensures SameAnswer(ValkeyReply(keys, op, now), InProcessReply(b, op))
  {
    assert Get(keys, OffsetKey(op.id), now) == if op.id in b.sessions then Some(b.sessions[op.id]) else None;
    OffsetMirrors(keys, b, op.id, OnValkey(keys, op, now, ttl), InProcess(b, op), now);
  }

  // A change to one offset alone.
  lemma OffsetMirrors(keys: Keys, b: Backends, id: string, after: Keys, b1: Backends, now: int)
    requires Mirrors(keys, now, b)
    requires b1.complete == b.complete && b1.refs == b.refs
    requires forall k :: k != OffsetKey(id) ==> (k in after <==> k in keys) && (k in keys ==> after[k] == keys[k])
    requires forall x :: x != id ==>
        (x in b1.sessions <==> x in b.sessions) && (x in b.sessions ==> b1.sessions[x] == b.sessions[x])
    requires Get(after, OffsetKey(id), now) == if id in b1.sessions then Some(b1.sessions[id]) else None
    ensures Mirrors(after, now, b1)
  {
    forall x ensures Get(after, OffsetKey(x), now) == if x in b1.sessions then Some(b1.sessions[x]) else None {
      assert Get(keys, OffsetKey(x), now) == if x in b.sessions then Some(b.sessions[x]) else None;
    }
  }

  // A change to one counter alone.
  lemma CounterMirrors(keys: Keys, b: Backends, d: string, after: Keys, b1: Backends, now: int)
    requires Mirrors(keys, now, b)
    requires b1.sessions == b.sessions && b1.complete == b.complete
    requires forall k :: k != RefKey(d) ==> (k in after <==> k in keys) && (k in keys ==> after[k] == keys[k])
    requires forall x :: x != d ==> (x in b1.refs <==> x in b.refs) && (x in b.refs ==> b1.refs[x] == b.refs[x])
    requires Get(after, RefKey(d), now) == if d in b1.refs then Some(b1.refs[d]) else None
    ensures Mirrors(after, now, b1)
  {
    forall x ensures Get(after, RefKey(x), now) == if x in b1.refs then Some(b1.refs[x]) else None {
      assert Get(keys, RefKey(x), now) == if x in b.refs then Some(b.refs[x]) else None;
    }
  }

  lemma IncsAgree(keys: Keys, b: Backends, op: Op, now: int, ttl: int)
    requires Mirrors(keys, now, b) && ttl > 0 && op.call.Works? && op.Inc?
    ensures Mirrors(OnValkey(keys, op, now, ttl), now, InProcess(b, op))
    ensures SameAnswer(ValkeyReply(keys, op, now), InProcessReply(b, op))
  {
    assert Get(keys, RefKey(op.digest), now) == if op.digest in b.refs then Some(b.refs[op.digest]) else None;
    CounterMirrors(keys, b, op.digest, OnValkey(keys, op, now, ttl), InProcess(b, op), now);
  }

  lemma DecsAgree(keys: Keys, b: Backends, op: Op, now: int, ttl: int)
    requires Mirrors(keys, now, b) && ttl > 0 && op.call.Works? && op.Dec?
    ensures Mirrors(OnValkey(keys, op, now, ttl), now, InProcess(b, op))
    ensures SameAnswer(ValkeyReply(keys, op, now), InProcessReply(b, op))
  {
    assert Get(keys, RefKey(op.digest), now) == if op.digest in b.refs then Some(b.refs[op.digest]) else None;
    CounterMirrors(keys, b, op.digest, OnValkey(keys, op, now, ttl), InProcess(b, op), now);
  }

  lemma OpsAgree(keys: Keys, b: Backends, op: Op, now: int, ttl: int)
    requires Mirrors(keys, now, b) && ttl > 0 && op.call.Works?
    ensures Mirrors(OnValkey(keys, op, now, ttl), now, InProcess(b, op))
    ensures SameAnswer(ValkeyReply(keys, op, now), InProcessReply(b, op))
  {
    if op.Inc? {
      IncsAgree(keys, b, op, now, ttl);
    } else if op.Dec? {
      DecsAgree(keys, b, op, now, ttl);
    } else if !op.Mark? {
      OffsetOpsAgree(keys, b, op, now, ttl);
    }
  }

  // An operation and the time it is made at.
  datatype Timed = Timed(op: Op, at: int)

  // Nothing has expired between one operation and the next.
  ghost predicate Kept(keys: Keys, now: int, later: int) { forall k :: Live(keys, k, now) <==> Live(keys, k, later) }

  ghost predicate InTime(keys: Keys, now: int, ops: seq<Timed>, ttl: int)
    decreases |ops|
  {
    ops == []
    || (Kept(keys, now, ops[0].at) && ops[0].op.call.Works?
        && InTime(OnValkey(keys, ops[0].op, ops[0].at, ttl), ops[0].at, ops[1..], ttl))
  }

  // Operation by operation, the two stores' answers.
  ghost predicate SameAnswers(keys: Keys, b: Backends, ops: seq<Timed>, ttl: int)
    decreases |ops|
  {
    ops == []
    || (SameAnswer(ValkeyReply(keys, ops[0].op, ops[0].at), InProcessReply(b, ops[0].op))
        && SameAnswers(OnValkey(keys, ops[0].op, ops[0].at, ttl), InProcess(b, ops[0].op), ops[1..], ttl))
  }

  /** Over every run in which no command fails and no key expires the two stores give the same answers,
      except that an unknown upload is an error in process and a refusal on Valkey. */
  lemma {:induction false} StoresAgree(keys: Keys, b: Backends, now: int, ops: seq<Timed>, ttl: int)
    requires Mirrors(keys, now, b) && ttl > 0 && InTime(keys, now, ops, ttl)
    ensures SameAnswers(keys, b, ops, ttl)
    decreases |ops|
  {
    if ops != [] {
      var at := ops[0].at;
      forall id ensures Get(keys, OffsetKey(id), at) == Get(keys, OffsetKey(id), now) {
        assert Live(keys, OffsetKey(id), now) <==> Live(keys, OffsetKey(id), at);
      }
      forall d ensures Get(keys, RefKey(d), at) == Get(keys, RefKey(d), now) {
        assert Live(keys, RefKey(d), now) <==> Live(keys, RefKey(d), at);
      }
      OpsAgree(keys, b, ops[0].op, at, ttl);
      StoresAgree(OnValkey(keys, ops[0].op, at, ttl), InProcess(b, ops[0].op), at, ops[1..], ttl);
    }
  }

  /* ---- what is immortal ---- */

  predicate Immortal(keys: Keys, k: Key) { k in keys && keys[k].expires.None? }

  // A counter that is created, or re-created after it expired, and whose expiry is not set.
  predicate MakesImmortal(keys: Keys, k: Key, t: Timed) {
    && t.op.Inc? && k == RefKey(t.op.digest) && !Live(keys, k, t.at)
    && t.op.call.Took() && !(t.op.call.Works? && t.op.expire.Took())
  }

  // A later increment sets the expiry, or the last reference goes.
  predicate EndsImmortal(keys: Keys, k: Key, t: Timed)
    requires k in keys
  {
    || (t.op.Inc? && k == RefKey(t.op.digest) && t.op.call.Works? && t.op.expire.Took())
    || (t.op.Dec? && k == RefKey(t.op.digest) && t.op.call.Took() && keys[k].value <= 1)
  }

  // An immortal key is a counter: no other key is ever written without an expiry.
  ghost predicate OnlyCounters(keys: Keys) { forall k :: Immortal(keys, k) ==> k.RefKey? }

  /** One operation, whatever fails: a key becomes immortal exactly when it is a counter that is not there,
      is incremented, and does not get its expiry; an immortal counter ends exactly with the expiry of a
      later increment or with its last reference. An increment of a live counter without a new expiry
      keeps the one it has. */
  lemma ImmortalExactly(keys: Keys, t: Timed, ttl: int, k: Key)
    requires OnlyCounters(keys)
    ensures var after := OnValkey(keys, t.op, t.at, ttl);
            && (!Immortal(keys, k) ==> (Immortal(after, k) <==> MakesImmortal(keys, k, t)))
            && (Immortal(keys, k) ==> (!Immortal(after, k) <==> EndsImmortal(keys, k, t)))
            && OnlyCounters(after)
  {
    var after := OnValkey(keys, t.op, t.at, ttl);
    assert Immortal(keys, k) ==> k.RefKey?;
    forall x | Immortal(after, x) ensures x.RefKey? {
      if Immortal(keys, x) { assert x.RefKey?; }
    }
  }

  function KeysAfter(keys: Keys, ops: seq<Timed>, ttl: int): Keys
    decreases |ops|
  {
    if ops == [] then keys else KeysAfter(OnValkey(keys, ops[0].op, ops[0].at, ttl), ops[1..], ttl)
  }

  // No operation of the run ends an immortal k.
  ghost predicate NothingEnds(keys: Keys, k: Key, ops: seq<Timed>, ttl: int)
    decreases |ops|
  {
    ops == []
    || (k in keys && !EndsImmortal(keys, k, ops[0])
        && NothingEnds(OnValkey(keys, ops[0].op, ops[0].at, ttl), k, ops[1..], ttl))
  }

  // Some operation of the run makes k immortal and nothing after it ends that.
  ghost predicate MadeAndLeft(keys: Keys, k: Key, ops: seq<Timed>, ttl: int)
    decreases |ops|
  {
    ops != []
    && var after := OnValkey(keys, ops[0].op, ops[0].at, ttl);
       (!Immortal(keys, k) && MakesImmortal(keys, k, ops[0]) && NothingEnds(after, k, ops[1..], ttl))
       || MadeAndLeft(after, k, ops[1..], ttl)
  }

  ghost predicate LeavesImmortal(keys: Keys, ops: seq<Timed>, ttl: int) {
    exists k :: MadeAndLeft(keys, k, ops, ttl)
  }

  /** Over every run: a key is immortal at the end exactly if it was so from the start and nothing ended it,
      or some operation made it so and nothing has ended it since. */
  lemma {:induction false} ImmortalAtTheEnd(keys: Keys, ops: seq<Timed>, ttl: int, k: Key)
    requires OnlyCounters(keys)
    ensures Immortal(KeysAfter(keys, ops, ttl), k) <==>
            (Immortal(keys, k) && NothingEnds(keys, k, ops, ttl)) || MadeAndLeft(keys, k, ops, ttl)
    decreases |ops|
  {
    if ops != [] {
      ImmortalExactly(keys, ops[0], ttl, k);
      ImmortalAtTheEnd(OnValkey(keys, ops[0].op, ops[0].at, ttl), ops[1..], ttl, k);
    }
  }

  // Every key expires, none later than a lifetime after the last operation.
  ghost predicate Mortal(keys: Keys, now: int, ttl: int) {
    forall k :: k in keys ==> keys[k].expires.Some? && keys[k].expires.value <= now + ttl
  }

  // No expiry lies further ahead than a lifetime.
  ghost predicate NearExpiries(keys: Keys, now: int, ttl: int) {
    forall k :: k in keys && keys[k].expires.Some? ==> keys[k].expires.value <= now + ttl
  }

  ghost predicate Forward(now: int, ops: seq<Timed>)
    decreases |ops|
  {
    ops == [] || (now <= ops[0].at && Forward(ops[0].at, ops[1..]))
  }

  function LastAt(now: int, ops: seq<Timed>): int { if ops == [] then now else ops[|ops| - 1].at }

  lemma {:induction false} ExpiriesStayNear(keys: Keys, now: int, ops: seq<Timed>, ttl: int)
    requires ttl > 0 && NearExpiries(keys, now, ttl) && Forward(now, ops)
    ensures NearExpiries(KeysAfter(keys, ops, ttl), LastAt(now, ops), ttl)
    decreases |ops|
  {
    if ops != [] {
      var at := ops[0].at;
      var after := OnValkey(keys, ops[0].op, at, ttl);
      assert NearExpiries(after, at, ttl);
      ExpiriesStayNear(after, at, ops[1..], ttl);
      assert LastAt(at, ops[1..]) == LastAt(now, ops);
    }
  }

  /** From keys that all expire: everything there is goes away on its own within a lifetime of the last
      operation if and only if no counter was left without an expiry. Advancing an offset never clears one. */
  lemma NoImmortalKeys(keys: Keys, now: int, ops: seq<Timed>, ttl: int)
    requires ttl > 0 && Mortal(keys, now, ttl) && Forward(now, ops)
    ensures Mortal(KeysAfter(keys, ops, ttl), LastAt(now, ops), ttl) <==> !LeavesImmortal(keys, ops, ttl)
  {
    var after := KeysAfter(keys, ops, ttl);
    ExpiriesStayNear(keys, now, ops, ttl);
    forall k ensures Immortal(after, k) <==> MadeAndLeft(keys, k, ops, ttl) {
      assert !Immortal(keys, k);
      ImmortalAtTheEnd(keys, ops, ttl, k);
    }
    MortalIsNoImmortal(after, LastAt(now, ops), ttl);
    if LeavesImmortal(keys, ops, ttl) {
      var k :| MadeAndLeft(keys, k, ops, ttl);
      assert Immortal(after, k);
    } else {
      forall k ensures !Immortal(after, k) { assert !MadeAndLeft(keys, k, ops, ttl); }
    }
  }

  lemma MortalIsNoImmortal(keys: Keys, now: int, ttl: int)
    requires NearExpiries(keys, now, ttl)
    ensures Mortal(keys, now, ttl) <==> forall k :: !Immortal(keys, k)
  {
    if forall k :: !Immortal(keys, k) {
      forall k | k in keys ensures keys[k].expires.Some? { assert !Immortal(keys, k); }
    }
  }

  /** One such counter, whether the expiry or the reply to the increment was lost. */
  lemma CounterWithoutExpiryStays(digest: string, at: int, ttl: int, call: Call, expire: Call, later: int)
    requires call.Took() && !(call.Works? && expire.Took())
    ensures var keys := KeysAfter(map[], [Timed(Inc(digest, call, expire), at)], ttl);
            Live(keys, RefKey(digest), later) && Decr(keys, RefKey(digest), later) == (map[], 0)
  {
    var ops := [Timed(Inc(digest, call, expire), at)];
    assert ops[1..] == [];
    var keys := OnValkey(map[], ops[0].op, at, ttl);
    assert keys == map[RefKey(digest) := Entry(1, None)];
    assert keys - {RefKey(digest)} == map[];
    assert KeysAfter(map[], ops, ttl) == KeysAfter(keys, ops[1..], ttl);
  }
}
