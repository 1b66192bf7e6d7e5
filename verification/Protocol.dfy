/** The whole promotion protocol as one transition system: request handlers that gate and enqueue,
    worker goroutines on any number of pods that claim, push, retry, retire, sweep and crash, one
    Valkey and one registry. Every Valkey command is one step, so any interleaving and a crash
    between any two commands is a run of this system. */
module Protocol {
  import opened Basics
  import opened PromoteJob
  import opened Manifests
  import opened WorkerSettings
  import V = Valkey

  datatype Config = Config(
    settings: Settings,
    parse: Bytes -> Option<Parsed>,
    digestOf: Bytes -> string)

  // Where a worker stands. From Working to Cleaning it is inside handle, with `job` its local copy.
  datatype Pc =
    | Idle
    | Working                     // claimed; the pusher is not resolved yet
    | Attempting                  // the attempt is counted; the layout is not local yet
    | Ready                       // about to push
    | Failing(terminal: bool)     // in fail, with a terminal or a retryable cause
    | Pushed                      // the push succeeded; Ack is next
    | Requeued                    // Enqueue succeeded; Ack is next
    | Retired                     // recorded as abandoned; Ack is next
    | StampLeft(settled: bool)    // the first of Ack's two deletes is done
    | Cleaning                    // Ack returned; Cleanup is next
    | Sweeping(read: map<string, V.Stamp>, cutoff: int)

  // ticket and since identify the Claim the worker is handling.
  datatype Worker = Worker(pc: Pc, job: Job, ticket: nat, since: int) {
    predicate Holding() { !pc.Idle? && !pc.Sweeping? }
  }

  datatype Stage = Staged | Passed | Releasing

  // A manifest PUT in progress: its image is assembled and the handler owes it a cleanup.
  datatype Handler = Handler(stage: Stage, job: Job)

  datatype Entry = Entry(target: string, raw: Bytes)

  datatype Sys = Sys(
    now: int,
    queue: V.Queue,
    // History: which Claim wrote the present claim entry, and the present stamp, of an id.
    owner: map<string, nat>,
    stampOwner: map<string, nat>,
    nextTicket: nat,
    workers: seq<Worker>,
    handlers: map<string, Handler>,
    staged: set<string>,          // every push that was ever assembled
    issued: map<string, Job>,     // every job a handler passed to Enqueue
    accepted: set<string>,        // Promote returned nil, so the client was answered 201
    gated: set<Bytes>,            // manifests the gate passed
    registry: seq<Entry>,         // manifests the registry accepted, in order
    abandoned: set<string>,       // pushes with an abandonment row in the audit log
    cleaned: multiset<string>)    // Cleanup calls

  // What request handlers do. A failed command may still have been applied by the server.
  datatype HandlerStep =
    | Stage(job: Job)
    | GatePass(id: string)
    | GateStop(id: string)                            // rejected, infra error or client gone
    | Promote(id: string)
    | PromoteFails(id: string, applied: bool)
    | SyncPublish(id: string, landed: bool)           // no promoter configured
    | Release(id: string)
    | HandlerCrash(id: string)
    | ForwardIndex(raw: Bytes, target: string)
    | ForwardAttestation(raw: Bytes, target: string)

  // What a worker goroutine does, one command or one decision at a time.
  datatype WorkerStep =
    | Claim
    | ClaimReplyLost                                  // the script ran, its reply never arrived
    | NoPusher
    | Attempt
    | LayoutReady(ociPath: string, scratchDir: string)
    | LayoutFails(terminal: bool)
    | PushSucceeds
    | PushFails(terminal: bool, landed: bool)
    | Requeue
    | RequeueFails(applied: bool)
    | Retire
    | AckClaim
    | AckClaimFails(applied: bool)
    | AckStamp
    | AckStampFails(applied: bool)
    | Cleanup
    | Crash
    | SweepRead
    | SweepOne(id: string)
    | SweepStop

  datatype Step =
    | Tick(d: nat)
    | ByHandler(h: HandlerStep)
    | ByWorker(w: nat, a: WorkerStep)

  function KindOf(c: Config, raw: Bytes): Option<Kind> {
    match c.parse(raw) case None => None case Some(m) => Some(Classify(m))
  }

  function Refs(c: Config, raw: Bytes): seq<string> {
    match c.parse(raw)
    case None => []
    case Some(m) => seq(|m.manifests|, i requires 0 <= i < |m.manifests| => m.manifests[i].digest)
  }

  // The registry's own check at PUT: everything the manifest references is already there.
  ghost predicate Resolves(c: Config, registry: seq<Entry>, raw: Bytes) {
    forall d :: d in Refs(c, raw) ==> exists e :: e in registry && c.digestOf(e.raw) == d
  }

  ghost predicate Has(c: Config, registry: seq<Entry>, d: string) {
    exists k :: 0 <= k < |registry| && c.digestOf(registry[k].raw) == d
  }

  /** On the manifest itself: the check passes exactly when each of the manifests it lists, first to last, is
      the digest of something already there. */
  lemma ResolvesMeans(c: Config, registry: seq<Entry>, raw: Bytes, m: Parsed)
    requires c.parse(raw) == Some(m)
    ensures Resolves(c, registry, raw) <==>
              forall i :: 0 <= i < |m.manifests| ==> Has(c, registry, m.manifests[i].digest)
  {
    if Resolves(c, registry, raw) {
      forall i | 0 <= i < |m.manifests| ensures Has(c, registry, m.manifests[i].digest) {
        assert Refs(c, raw)[i] == m.manifests[i].digest && Refs(c, raw)[i] in Refs(c, raw);
        var e :| e in registry && c.digestOf(e.raw) == m.manifests[i].digest;
        var k :| 0 <= k < |registry| && registry[k] == e;
      }
    } else {
      var d :| d in Refs(c, raw) && !exists e :: e in registry && c.digestOf(e.raw) == d;
      var i :| 0 <= i < |Refs(c, raw)| && Refs(c, raw)[i] == d;
      forall k | 0 <= k < |registry| ensures c.digestOf(registry[k].raw) != m.manifests[i].digest {
        assert registry[k] in registry;
      }
    }
  }

  /* ---- Valkey commands, with the history of who wrote what ---- */

  datatype Command =
    | NoCommand
    | PushJob(job: Job)
    | ClaimNext
    | DelClaim(id: string)
    | DelStamp(id: string)
    | RequeueClaim(id: string)

  function Next(s: Sys): V.Claimed { V.ClaimResult(s.queue, s.now).1 }

  function QueueAfter(s: Sys, cmd: Command): V.Queue {
    match cmd
    case NoCommand => s.queue
    case PushJob(j) => V.Push(s.queue, j)
    case ClaimNext => V.ClaimResult(s.queue, s.now).0
    case DelClaim(id) => V.DelClaim(s.queue, id)
    case DelStamp(id) => V.DelStamp(s.queue, id)
    case RequeueClaim(id) => V.RequeueScript(s.queue, id)
  }

  function Execute(s: Sys, cmd: Command): Sys
    requires cmd.ClaimNext? ==> Next(s).Got?
  {
    s.(queue := QueueAfter(s, cmd),
       nextTicket := if cmd.ClaimNext? then s.nextTicket + 1 else s.nextTicket,
       owner := if cmd.ClaimNext? then s.owner[Next(s).job.pushId := s.nextTicket] else s.owner,
       stampOwner := if cmd.ClaimNext? then s.stampOwner[Next(s).job.pushId := s.nextTicket] else s.stampOwner)
  }

  /* ---- workers ---- */

  predicate Acking(pc: Pc) { pc.Pushed? || pc.Requeued? || pc.Retired? }

  predicate Spent(c: Config, j: Job) { j.attempts >= c.settings.Budget() }

  predicate CanWork(c: Config, s: Sys, me: Worker, a: WorkerStep) {
    match a
    case Claim => me.pc.Idle? && Next(s).Got?
    case ClaimReplyLost => me.pc.Idle? && Next(s).Got?
    case NoPusher => me.pc.Working?
    case Attempt => me.pc.Working?
    case LayoutReady(_, _) => me.pc.Attempting?
    case LayoutFails(_) => me.pc.Attempting?
    case PushSucceeds => me.pc.Ready?
    case PushFails(_, _) => me.pc.Ready?
    case Requeue => me.pc == Failing(false) && !Spent(c, me.job)
    case RequeueFails(_) => me.pc == Failing(false) && !Spent(c, me.job)
    case Retire => me.pc == Failing(true) || (me.pc == Failing(false) && Spent(c, me.job))
    case AckClaim => Acking(me.pc)
    case AckClaimFails(_) => Acking(me.pc)
    case AckStamp => me.pc.StampLeft?
    case AckStampFails(_) => me.pc.StampLeft?
    case Cleanup => me.pc.Cleaning?
    case Crash => true
    case SweepRead => me.pc.Idle?
    case SweepOne(id) => me.pc.Sweeping? && id in me.pc.read
    case SweepStop => me.pc.Sweeping?
  }

  function CommandOf(me: Worker, a: WorkerStep): Command
    requires a.SweepOne? ==> me.pc.Sweeping? && a.id in me.pc.read
  {
    match a
    case Claim => ClaimNext
    case ClaimReplyLost => ClaimNext
    case Requeue => PushJob(me.job)
    case RequeueFails(applied) => if applied then PushJob(me.job) else NoCommand
    case AckClaim => DelClaim(me.job.pushId)
    case AckClaimFails(applied) => if applied then DelClaim(me.job.pushId) else NoCommand
    case AckStamp => DelStamp(me.job.pushId)
    case AckStampFails(applied) => if applied then DelStamp(me.job.pushId) else NoCommand
    case SweepOne(id) => if me.pc.read[id].After(me.pc.cutoff) then NoCommand else RequeueClaim(id)
    case _ => NoCommand
  }

  // After Ack, however it ended: a settled push is cleaned up, a requeued one is left alone.
  function AfterAck(pc: Pc): Pc { if pc.Requeued? || pc == StampLeft(false) then Idle else Cleaning }

  function Move(c: Config, s: Sys, me: Worker, a: WorkerStep): Worker
    requires CanWork(c, s, me, a)
  {
    match a
    case Claim => Worker(Working, Next(s).job, s.nextTicket, s.now)
    case ClaimReplyLost => me
    case NoPusher => me.(pc := Retired)
    case Attempt => me.(pc := Attempting, job := me.job.(attempts := IncU8(me.job.attempts)))
    case LayoutReady(ociPath, scratchDir) =>
      me.(pc := Ready, job := me.job.(ociPath := ociPath, scratchDir := scratchDir))
    case LayoutFails(terminal) => me.(pc := Failing(terminal))
    case PushSucceeds => me.(pc := Pushed)
    case PushFails(terminal, _) => me.(pc := Failing(terminal))
    case Requeue => me.(pc := Requeued)
    case RequeueFails(_) => me.(pc := Idle)
    case Retire => me.(pc := Retired)
    case AckClaim => me.(pc := StampLeft(!me.pc.Requeued?))
    case AckClaimFails(_) => me.(pc := AfterAck(me.pc))
    case AckStamp => me.(pc := AfterAck(me.pc))
    case AckStampFails(_) => me.(pc := AfterAck(me.pc))
    case Cleanup => me.(pc := Idle)
    case Crash => me.(pc := Idle)
    case SweepRead => me.(pc := Sweeping(s.queue.stamps, s.now - c.settings.Window()))
    case SweepOne(id) => me.(pc := Sweeping(me.pc.read - {id}, me.pc.cutoff))
    case SweepStop => me.(pc := Idle)
  }

  function Landed(j: Job): Entry { Entry(j.target, j.manifest) }

  function ApplyWorker(c: Config, s: Sys, w: nat, a: WorkerStep): Sys
    requires w < |s.workers| && CanWork(c, s, s.workers[w], a)
  {
    var me := s.workers[w];
    Execute(s, CommandOf(me, a)).(
      workers := s.workers[w := Move(c, s, me, a)],
      registry := if a.PushSucceeds? || (a.PushFails? && a.landed) then s.registry + [Landed(me.job)] else s.registry,
      abandoned := if a.NoPusher? || a.Retire? then s.abandoned + {me.job.pushId} else s.abandoned,
      cleaned := if a.Cleanup? then s.cleaned + multiset{me.job.pushId} else s.cleaned)
  }

  /* ---- handlers ---- */

  ghost predicate CanHandle(c: Config, s: Sys, h: HandlerStep) {
    match h
    case Stage(j) => j.pushId != "" && j.pushId !in s.staged && j.attempts == 0 && KindOf(c, j.manifest) == Some(Image)
    case GatePass(id) => id in s.handlers && s.handlers[id].stage == Staged
    case GateStop(id) => id in s.handlers && s.handlers[id].stage == Staged
    case Promote(id) => id in s.handlers && s.handlers[id].stage == Passed
    case PromoteFails(id, _) => id in s.handlers && s.handlers[id].stage == Passed
    case SyncPublish(id, _) => id in s.handlers && s.handlers[id].stage == Passed
    case Release(id) => id in s.handlers && s.handlers[id].stage == Releasing
    case HandlerCrash(id) => id in s.handlers
    case ForwardIndex(raw, _) => KindOf(c, raw) == Some(Index) && Resolves(c, s.registry, raw)
    case ForwardAttestation(raw, _) => KindOf(c, raw) == Some(Attestation)
  }

  function SetStage(s: Sys, id: string, stage: Stage): map<string, Handler>
    requires id in s.handlers
  {
    s.handlers[id := s.handlers[id].(stage := stage)]
  }

  ghost function ApplyHandler(c: Config, s: Sys, h: HandlerStep): Sys
    requires CanHandle(c, s, h)
  {
    match h
    case Stage(j) => s.(staged := s.staged + {j.pushId}, handlers := s.handlers[j.pushId := Handler(Staged, j)])
    case GatePass(id) => s.(handlers := SetStage(s, id, Passed), gated := s.gated + {s.handlers[id].job.manifest})
    case GateStop(id) => s.(handlers := SetStage(s, id, Releasing))
    case Promote(id) =>
      Execute(s, PushJob(s.handlers[id].job)).(
        handlers := s.handlers - {id},
        issued := s.issued[id := s.handlers[id].job],
        accepted := s.accepted + {id})
    case PromoteFails(id, applied) =>
      Execute(s, if applied then PushJob(s.handlers[id].job) else NoCommand).(
        handlers := SetStage(s, id, Releasing),
        issued := s.issued[id := s.handlers[id].job])
    case SyncPublish(id, landed) =>
      s.(handlers := SetStage(s, id, Releasing),
         registry := if landed then s.registry + [Landed(s.handlers[id].job)] else s.registry)
    case Release(id) => s.(handlers := s.handlers - {id}, cleaned := s.cleaned + multiset{id})
    case HandlerCrash(id) => s.(handlers := s.handlers - {id})
    case ForwardIndex(raw, target) => s.(registry := s.registry + [Entry(target, raw)])
    case ForwardAttestation(raw, target) => s.(registry := s.registry + [Entry(target, raw)])
  }

  /* ---- steps and runs ---- */

  ghost predicate Enabled(c: Config, s: Sys, step: Step) {
    match step
    case Tick(_) => true
    case ByHandler(h) => CanHandle(c, s, h)
    case ByWorker(w, a) => w < |s.workers| && CanWork(c, s, s.workers[w], a)
  }

  ghost function Apply(c: Config, s: Sys, step: Step): Sys
    requires Enabled(c, s, step)
  {
    match step
    case Tick(d) => s.(now := s.now + d)
    case ByHandler(h) => ApplyHandler(c, s, h)
    case ByWorker(w, a) => ApplyWorker(c, s, w, a)
  }

  ghost predicate Init(s: Sys) {
    && s.queue == V.EmptyQueue
    && s.owner == map[] && s.stampOwner == map[]
    && (forall w :: 0 <= w < |s.workers| ==> s.workers[w].pc == Idle)
    && s.handlers == map[] && s.staged == {} && s.issued == map[] && s.accepted == {}
    && s.gated == {} && s.registry == [] && s.abandoned == {} && s.cleaned == multiset{}
  }

  ghost predicate Run(c: Config, s: Sys, steps: seq<Step>)
    decreases |steps|
  {
    steps == [] || (Enabled(c, s, steps[0]) && Run(c, Apply(c, s, steps[0]), steps[1..]))
  }

  ghost function Final(c: Config, s: Sys, steps: seq<Step>): Sys
    requires Run(c, s, steps)
    decreases |steps|
  {
    if steps == [] then s else Final(c, Apply(c, s, steps[0]), steps[1..])
  }

  /* ---- where a push can be found ---- */

  ghost predicate Pending(s: Sys, id: string) {
    exists i :: 0 <= i < |s.queue.pending| && s.queue.pending[i].JobJson? && s.queue.pending[i].job.pushId == id
  }

  ghost predicate Published(s: Sys, id: string) {
    id in s.issued && Entry(s.issued[id].target, s.issued[id].manifest) in s.registry
  }

  ghost predicate Settled(s: Sys, id: string) { Published(s, id) || id in s.abandoned }

  ghost predicate Queued(s: Sys, id: string) { Pending(s, id) || id in s.queue.claimed }
}
