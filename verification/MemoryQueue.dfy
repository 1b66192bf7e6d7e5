/** The in-process promotion queue (internal/promote/memory.go). */
module MemoryQueue {
  import opened Basics
  import opened PromoteJob

  datatype Held = Held(job: Job, at: int)

  datatype Mem = Mem(pending: seq<Job>, claimed: map<string, Held>)

  function Append(m: Mem, j: Job): Mem { m.(pending := m.pending + [j]) }

  function Take(m: Mem, now: int): (Mem, Option<Job>) {
    if m.pending == [] then (m, None)
    else
      var j := m.pending[0];
      (Mem(m.pending[1..], m.claimed[j.pushId := Held(j, now)]), Some(j))
  }

  function Drop(m: Mem, id: string): Mem { m.(claimed := m.claimed - {id}) }

  function Stale(claimed: map<string, Held>, cutoff: int): set<string> {
    set id | id in claimed && claimed[id].at <= cutoff
  }

  function ClaimedJobs(claimed: map<string, Held>, order: seq<string>): (r: seq<Job>)
    requires Elements(order) <= claimed.Keys
    ensures |r| == |order|
  {
    if order == [] then []
    else
      assert Elements(order[..|order| - 1]) <= Elements(order);
      assert order[|order| - 1] in Elements(order);
      ClaimedJobs(claimed, order[..|order| - 1]) + [claimed[order[|order| - 1]].job]
  }

  // A sweep that met the stale claims in this order.
  function Swept(m: Mem, order: seq<string>): Mem
    requires Elements(order) <= m.claimed.Keys
  {
    Mem(Reverse(ClaimedJobs(m.claimed, order)) + m.pending, m.claimed - Elements(order))
  }

  lemma SweptOneMore(m: Mem, front: seq<string>, id: string)
    requires Distinct(front) && Elements(front) <= m.claimed.Keys
    requires id in m.claimed && id !in Elements(front)
    ensures Distinct(front + [id]) && Elements(front + [id]) == Elements(front) + {id}
    ensures ClaimedJobs(m.claimed, front + [id]) == ClaimedJobs(m.claimed, front) + [m.claimed[id].job]
    ensures Swept(m, front + [id]).pending == [m.claimed[id].job] + Swept(m, front).pending
    ensures Swept(m, front + [id]).claimed == Swept(m, front).claimed - {id}
  {
    Snoc(front, id);
    var order := front + [id];
    assert order[..|order| - 1] == front;
    ReverseSnoc(ClaimedJobs(m.claimed, front), m.claimed[id].job);
  }

  class InProcessQueue {
    var pending: seq<Job>
    var claimed: map<string, Held>

    function State(): Mem
      reads this
    {
      Mem(pending, claimed)
    }

    constructor ()
      ensures State() == Mem([], map[])
    {
      pending, claimed := [], map[];
    }

    method Enqueue(j: Job)
      modifies this
      ensures State() == Append(old(State()), j)
    {
      pending := pending + [j];
    }

    method Claim(now: int) returns (r: Option<Job>)
      modifies this
      ensures (State(), r) == Take(old(State()), now)
    {
      if pending == [] { return None; }
      var j := pending[0];
      pending := pending[1..];
      claimed := claimed[j.pushId := Held(j, now)];
      return Some(j);
    }

    method Ack(id: string)
      modifies this
      ensures State() == Drop(old(State()), id)
    {
      claimed := claimed - {id};
    }

    method Depth() returns (n: nat)
      ensures n == |State().pending|
    {
      n := |pending|;
    }

    // Go ranges over the claimed map while deleting from it: any order, every key once.
    method Recover(now: int, olderThan: int) returns (out: seq<Job>, ghost order: seq<string>)
      modifies this
      ensures Distinct(order) && Elements(order) == Stale(old(claimed), now - olderThan)
      ensures State() == Swept(old(State()), order)
      ensures out == ClaimedJobs(old(claimed), order)
    {
      var cutoff := now - olderThan;
      ghost var before := State();
      var todo := claimed.Keys;
      out, order := [], [];
      assert before.claimed - Elements(order) == before.claimed;
      while todo != {}
        invariant todo <= claimed.Keys <= before.claimed.Keys
        invariant Distinct(order)
        invariant Elements(order) == Stale(before.claimed, cutoff) - todo
        invariant State() == Swept(before, order)
        invariant out == ClaimedJobs(before.claimed, order)
        decreases todo
      {
        var id :| id in todo;
        todo := todo - {id};
        var c := claimed[id];
        assert c == before.claimed[id];
        if c.at > cutoff { continue; }
        SweptOneMore(before, order, id);
        order := order + [id];
        claimed := claimed - {id};
        pending := [c.job] + pending;
        out := out + [c.job];
      }
    }
  }
}
