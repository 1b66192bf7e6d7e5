/** What the promotion worker does with one job (internal/promote/worker.go), as the sequence of its
    outside effects, and the ordering argument made in the comment on handle. */
module HandleSpec {
  import opened Basics
  import opened PromoteJob
  import opened WorkerSettings
  import V = Valkey

  // Why something failed; Terminal() is what fail asks of the error chain.
  datatype Cause = Cause(terminal: bool, text: string)

  // How the outside world answers during one handle.
  datatype Env = Env(
    pusher: Option<Cause>,                    // Some: the tenant prefix does not resolve
    canLocalize: bool,                        // Worker.Localize is set
    layoutHere: bool,                         // os.Stat finds OCIPath
    rebuild: Result<(string, string), Cause>, // what Localize returns
    push: Option<Cause>,                      // None: the registry took the image
    landed: bool,                             // a push that reports an error reached the registry all the same
    enqueue: Call,
    ackClaim: Call,
    ackStamp: Call)

  datatype Effect =
    | PushTried(job: Job, ok: bool, landed: bool)
    | Finalized(job: Job, ok: bool)
    | EnqueueTried(job: Job, call: Call)
    | AckTried(id: string, first: Call, second: Call)
    | CleanedUp(job: Job)
    | Swept(at: int, olderThan: int)

  /* ---- what one handle does, in order ---- */

  function AckOf(j: Job, env: Env): Effect { AckTried(j.pushId, env.ackClaim, env.ackStamp) }

  function RetireEffects(j: Job, env: Env): seq<Effect> { [Finalized(j, false), AckOf(j, env), CleanedUp(j)] }

  function FailEffects(s: Settings, j: Job, cause: Cause, env: Env): seq<Effect> {
    if cause.terminal || j.attempts >= s.Budget() then RetireEffects(j, env)
    else if env.enqueue.Fails? then [EnqueueTried(j, env.enqueue)]
    else [EnqueueTried(j, env.enqueue), AckOf(j, env)]
  }

  function PushEffects(s: Settings, j: Job, env: Env): seq<Effect> {
    match env.push
    case Some(cause) => [PushTried(j, false, env.landed)] + FailEffects(s, j, cause, env)
    case None => [PushTried(j, true, true), Finalized(j, true), AckOf(j, env), CleanedUp(j)]
  }

  // The job with a layout on this pod, or why there is none.
  function Localized(j: Job, env: Env): Result<Job, Cause> {
    if !env.canLocalize || env.layoutHere then Ok(j)
    else match env.rebuild
      case Ok(paths) => Ok(j.(ociPath := paths.0, scratchDir := paths.1))
      case Err(cause) => Err(cause)
  }

  function AttemptEffects(s: Settings, j: Job, env: Env): seq<Effect> {
    match Localized(j, env)
    case Ok(here) => PushEffects(s, here, env)
    case Err(cause) => FailEffects(s, j, cause, env)
  }

  function Counted(j: Job): Job { j.(attempts := IncU8(j.attempts)) }

  function HandleEffects(s: Settings, j: Job, env: Env): seq<Effect> {
    if env.pusher.Some? then RetireEffects(j, env) else AttemptEffects(s, Counted(j), env)
  }

  // What the effects leave of the queue. A command that failed may have been applied all the same.
  function OnQueue(q: V.Queue, e: Effect): V.Queue {
    match e
    case EnqueueTried(j, call) => if call.Took() then V.Push(q, j) else q
    case AckTried(id, first, second) => V.Acked(q, id, first, second)
    case _ => q
  }

  function AllOnQueue(q: V.Queue, es: seq<Effect>): V.Queue
    decreases |es|
  {
    if es == [] then q else AllOnQueue(OnQueue(q, es[0]), es[1..])
  }

  lemma {:induction false} OnQueuePlus(q: V.Queue, a: seq<Effect>, b: seq<Effect>)
    ensures AllOnQueue(q, a + b) == AllOnQueue(AllOnQueue(q, a), b)
    decreases |a|
  {
    if a == [] {
      assert a + b == b;
    } else {
      assert (a + b)[1..] == a[1..] + b;
      OnQueuePlus(OnQueue(q, a[0]), a[1..], b);
    }
  }

  /* ---- the ordering argument ---- */

  ghost predicate Releases(es: seq<Effect>) { exists e :: e in es && e.CleanedUp? }

  ghost predicate PutsBack(es: seq<Effect>) { exists e :: e in es && e.EnqueueTried? && e.call.Works? }

  ghost predicate PublishesFrom(es: seq<Effect>) { exists e :: e in es && e.PushTried? && e.ok }

  // Cleanup only as the last effect, right after Ack, right after the outcome was recorded.
  ghost predicate AckBeforeCleanup(es: seq<Effect>) {
    forall i :: 0 <= i < |es| && es[i].CleanedUp? ==>
      i == |es| - 1 && i >= 2 && es[i - 1].AckTried? && es[i - 2].Finalized?
  }

  // An Ack follows the record of a settled outcome or a successful Enqueue of the next attempt.
  ghost predicate NothingAckedEarly(es: seq<Effect>) {
    forall i :: 0 <= i < |es| && es[i].AckTried? ==>
      i >= 1 && (es[i - 1].Finalized? || (es[i - 1].EnqueueTried? && es[i - 1].call.Works?))
  }

  // The entry a handle of this push ends on: its outcome is recorded, or its next attempt is put back.
  predicate Closes(e: Effect, id: string) { (e.Finalized? || e.EnqueueTried?) && e.job.pushId == id }

  // The push every entry is about.
  predicate About(e: Effect, id: string) { if e.AckTried? then e.id == id else !e.Swept? && e.job.pushId == id }

  /** Whatever the world answers, a handle does something for its own push alone, never sweeps, and ends its
      push exactly once: recorded or put back. */
  lemma HandleCloses(s: Settings, j: Job, env: Env)
    ensures var es := HandleEffects(s, j, env);
            && (forall e :: e in es ==> About(e, j.pushId))
            && (exists i :: 0 <= i < |es| && Closes(es[i], j.pushId))
            && (forall i, k :: 0 <= i < |es| && 0 <= k < |es| && Closes(es[i], j.pushId) && Closes(es[k], j.pushId)
                  ==> i == k)
  {
    var es := HandleEffects(s, j, env);
    assert Closes(es[0], j.pushId) || Closes(es[1], j.pushId);
  }

  lemma FailOrder(s: Settings, j: Job, cause: Cause, env: Env)
    ensures var es := FailEffects(s, j, cause, env);
            && AckBeforeCleanup(es) && NothingAckedEarly(es) && !PublishesFrom(es)
            && (Releases(es) <==> cause.terminal || j.attempts >= s.Budget())
            && !(Releases(es) && PutsBack(es))
            && (forall e :: e in es && e.EnqueueTried? ==> e.job == j)
  {
    var es := FailEffects(s, j, cause, env);
    if cause.terminal || j.attempts >= s.Budget() {
      assert es[2].CleanedUp?;
    }
  }

  lemma PrefixedOrder(e: Effect, es: seq<Effect>)
    requires !e.CleanedUp? && !e.AckTried?
    requires AckBeforeCleanup(es) && NothingAckedEarly(es)
    ensures AckBeforeCleanup([e] + es) && NothingAckedEarly([e] + es)
    ensures forall x :: x in [e] + es <==> x == e || x in es
  {
  }

  // The job as it is pushed: counted, and with the paths of a layout on this pod.
  function Prepared(j: Job, env: Env): Job {
    match Localized(Counted(j), env) case Ok(here) => here case Err(_) => Counted(j)
  }

  // What ends an attempt that resolved its pusher, if anything.
  function Failure(j: Job, env: Env): Option<Cause> {
    match Localized(Counted(j), env) case Ok(_) => env.push case Err(cause) => Some(cause)
  }

  lemma PushOrder(s: Settings, j: Job, env: Env)
    ensures var es := PushEffects(s, j, env);
            && AckBeforeCleanup(es) && NothingAckedEarly(es)
            && !(Releases(es) && PutsBack(es))
            && (PublishesFrom(es) <==> env.push.None?)
            && (Releases(es) <==> env.push.None? || env.push.value.terminal || j.attempts >= s.Budget())
            && (forall e :: e in es && e.EnqueueTried? ==> e.job == j)
  {
    match env.push {
      case None =>
        assert PushEffects(s, j, env)[0].ok && PushEffects(s, j, env)[3].CleanedUp?;
      case Some(cause) =>
        FailOrder(s, j, cause, env);
        PrefixedOrder(PushTried(j, false, env.landed), FailEffects(s, j, cause, env));
    }
  }

  /** The ordering handle's comment argues from, for every job and every way the world can answer:
      Ack comes before Cleanup, the outcome or the requeued copy comes before Ack, a push that will
      be retried keeps its staged bytes, and a push is given up only when it was published, when its
      tenant does not resolve, when the cause is terminal or when the budget is spent. */
  lemma HandleOrder(s: Settings, j: Job, env: Env)
    ensures var es := HandleEffects(s, j, env);
            && AckBeforeCleanup(es) && NothingAckedEarly(es)
            && !(Releases(es) && PutsBack(es))
            && (PublishesFrom(es) <==> env.pusher.None? && Failure(j, env).None?)
            && (Releases(es) <==>
                  env.pusher.Some? || Failure(j, env).None? || Failure(j, env).value.terminal
                  || Prepared(j, env).attempts >= s.Budget())
            && (forall e :: e in es && e.EnqueueTried? ==> e.job == Prepared(j, env))
            && SameCore(Prepared(j, env), j) && Prepared(j, env).attempts == IncU8(j.attempts)
  {
    if env.pusher.Some? {
      assert RetireEffects(j, env)[2].CleanedUp?;
    } else {
      match Localized(Counted(j), env) {
        case Err(cause) => FailOrder(s, Counted(j), cause, env);
        case Ok(here) => PushOrder(s, here, env);
      }
    }
  }

  /** The same read off the world: the job is pushed when its tenant resolves and a layout is on this pod, from
      the path Localize returned if it had to rebuild one, with one attempt more; the copy that is recorded,
      put back or cleaned up is that same job, so a rebuilt layout is cleaned up where Localize put it; and
      what decides how it ends is the rebuild that failed, or else the push. */
  lemma HandleFollowsTheWorld(s: Settings, j: Job, env: Env)
    ensures var es := HandleEffects(s, j, env);
            var rebuilds := env.canLocalize && !env.layoutHere;
            var local := !rebuilds || env.rebuild.Ok?;
            var counted := j.(attempts := (j.attempts + 1) % 0x100);
            var here := if rebuilds && local
                        then counted.(ociPath := env.rebuild.value.0, scratchDir := env.rebuild.value.1) else counted;
            var cause := if local then env.push else Some(env.rebuild.error);
            && ((exists e :: e in es && e.PushTried?) <==> env.pusher.None? && local)
            && (PublishesFrom(es) <==> env.pusher.None? && local && env.push.None?)
            && (Releases(es) <==>
                  env.pusher.Some? || cause.None? || cause.value.terminal || here.attempts >= s.Budget())
            && (PutsBack(es) <==>
                  env.pusher.None? && cause.Some? && !cause.value.terminal && here.attempts < s.Budget()
                  && env.enqueue.Works?)
            && (forall e :: e in es && (e.PushTried? || e.EnqueueTried?) ==> e.job == here)
            && (forall e :: e in es && (e.Finalized? || e.CleanedUp?) ==> e.job == if env.pusher.Some? then j else here)
            && (forall e :: e in es && e.Finalized? ==> (e.ok <==> PublishesFrom(es)))
  {
    var es := HandleEffects(s, j, env);
    HandleOrder(s, j, env);
    if env.pusher.None? && (!env.canLocalize || env.layoutHere || env.rebuild.Ok?) { assert es[0].PushTried?; }
    if env.pusher.None? && Failure(j, env).Some? && !Releases(es) {
      assert es[0].EnqueueTried? || es[1].EnqueueTried?;
    }
  }

  // At most four effects: enough unfoldings to read off what they do to the queue.
  lemma Unfold(q: V.Queue, es: seq<Effect>)
    requires |es| <= 4
    ensures AllOnQueue(q, es) ==
            var q1 := if |es| > 0 then OnQueue(q, es[0]) else q;
            var q2 := if |es| > 1 then OnQueue(q1, es[1]) else q1;
            var q3 := if |es| > 2 then OnQueue(q2, es[2]) else q2;
            if |es| > 3 then OnQueue(q3, es[3]) else q3
  {
    if |es| > 0 {
      var q1, a := OnQueue(q, es[0]), es[1..];
      assert AllOnQueue(q, es) == AllOnQueue(q1, a);
      if |es| > 1 {
        var q2, b := OnQueue(q1, a[0]), a[1..];
        assert AllOnQueue(q1, a) == AllOnQueue(q2, b);
        if |es| > 2 {
          var q3, d := OnQueue(q2, b[0]), b[1..];
          assert AllOnQueue(q2, b) == AllOnQueue(q3, d);
          if |es| > 3 {
            assert d[1..] == [];
            assert AllOnQueue(q3, d) == OnQueue(q3, d[0]);
          }
        }
      }
    }
  }
}
