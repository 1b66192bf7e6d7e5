/** The handler's side of an image push (internal/ingress/docker/manifest.go and outcome.go) and the row
    that contradicts it when the promotion is abandoned (internal/promote/promote.go). */
module GateHandler {
  import opened Basics
  import opened PromoteJob
  import opened PolicyEngine
  import opened GateSpec
  import opened Protocol
  import V = Valkey

  datatype Detail =
    | NoDetail
    | GateDetail(error: GateError)
    | PublishDetail
    | AbandonedAfter(attempts: nat, cause: string)

  // One decision row of the append-only audit store.
  datatype Row = Row(
    pushId: string,
    repo: string,
    tag: string,
    digest: string,
    identity: string,
    passed: bool,
    infraError: bool,
    detail: Detail,
    failedPolicies: seq<string>,
    reasons: seq<string>,
    scannerDb: string,
    durationMs: nat,
    age: Option<AgeRow>)

  datatype AgeRow = AgeRow(created: int, days: nat, threshold: nat)

  datatype Decision = Decision(status: int, infraError: bool, report: string)

  function ClampU16(n: int): (r: nat)
    ensures r < 0x1_0000 && (0 <= n < 0x1_0000 ==> r == n) && (n < 0 ==> r == 0) && (n > 0xFFFF ==> r == 0xFFFF)
  {
    if n < 0 then 0 else if n > 65535 then 65535 else n
  }

  function AgeOf(age: Option<AgeInfo>): (r: Option<AgeRow>)
    ensures r.Some? <==> age.Some? && age.value.known
    ensures r.Some? ==> r.value.created == age.value.created
    ensures r.Some? && 0 <= age.value.ageDays < 0x1_0000 ==> r.value.days == age.value.ageDays
    ensures r.Some? && 0 <= age.value.thresholdDays < 0x1_0000 ==> r.value.threshold == age.value.thresholdDays
  {
    if age.Some? && age.value.known
    then Some(AgeRow(age.value.created, ClampU16(age.value.ageDays), ClampU16(age.value.thresholdDays)))
    else None
  }

  // Whole milliseconds of a duration in nanoseconds, in 32 bits.
  function Millis(ns: nat): (ms: nat)
    ensures ms < 0x1_0000_0000
    ensures ns < 0x1_0000_0000 * 1_000_000 ==> ms * 1_000_000 <= ns < (ms + 1) * 1_000_000
  {
    ns / 1_000_000 % 0x1_0000_0000
  }

  // The reasons given under these names, one name after the other.
  function ReasonsOf(verdicts: map<string, Verdict>, names: seq<string>): seq<string>
    requires forall n :: n in names ==> n in verdicts
  {
    if names == [] then []
    else ReasonsOf(verdicts, names[..|names| - 1]) + verdicts[names[|names| - 1]].reasons
  }

  // The row an ending owes the audit store.
  predicate RowSays(row: Row, e: Ending)
    requires !e.Abandoned?
  {
    && (row.passed <==> e.Status() == 201)
    && (row.infraError <==> e.Status() in {500, 502, 503})
    && row.detail == (match e
        case Stopped(error) => GateDetail(error) case PublishFailed => PublishDetail case _ => NoDetail)
  }

  // The row's explanation is read off the verdicts: exactly the rejecting names, each once, their
  // reasons, and whatever went unenforced.
  ghost predicate RowExplains(row: Row, res: GateResult) {
    && Elements(row.failedPolicies) == RejectedNames(res.verdicts)
    && Distinct(row.failedPolicies)
    && (forall n :: n in row.failedPolicies ==> n in res.verdicts)
    && row.reasons == ReasonsOf(res.verdicts, row.failedPolicies) + res.unenforced
    && row.scannerDb == res.scannerDb && row.age == AgeOf(res.age)
  }

  predicate RowNames(row: Row, id: string, j: Job) {
    row.pushId == id && row.repo == j.repo && row.tag == j.tag && row.digest == j.digest && row.identity == j.identity
  }

  /** With distinctly named policies, a row names exactly the policies that ran and rejected the image. */
  lemma RowNamesTheRejections(row: Row, answers: seq<Answer>)
    requires RowExplains(row, ResultOf(answers)) && DistinctNames(answers)
    ensures Elements(row.failedPolicies) == Rejecting(answers) && |row.failedPolicies| == |Rejecting(answers)|
  {
    WhatTheResultMeans(answers);
    RejectionsAreNamed(answers, ResultOf(answers).verdicts);
    DistinctCounts(row.failedPolicies);
  }

  lemma {:induction false} ReasonsAre(verdicts: map<string, Verdict>, names: seq<string>)
    requires forall n :: n in names ==> n in verdicts
    ensures forall x :: x in ReasonsOf(verdicts, names) <==> exists n :: n in names && x in verdicts[n].reasons
  {
    if names != [] {
      var k := |names| - 1;
      ReasonsAre(verdicts, names[..k]);
      assert names == names[..k] + [names[k]];
      assert forall n :: n in names <==> n in names[..k] || n == names[k];
    }
  }

  /** And gives every reason of every rejecting verdict, with whatever went unenforced, and no other. */
  lemma RowGivesTheReasons(row: Row, res: GateResult)
    requires RowExplains(row, res)
    ensures forall x :: x in row.reasons <==>
              || x in res.unenforced
              || exists n :: n in res.verdicts && !res.verdicts[n].passed && x in res.verdicts[n].reasons
  {
    ReasonsAre(res.verdicts, row.failedPolicies);
    forall n ensures n in row.failedPolicies <==> n in res.verdicts && !res.verdicts[n].passed {
      assert n in row.failedPolicies <==> n in Elements(row.failedPolicies);
    }
  }

  class Recorder {
    var rows: seq<Row>
    var findings: seq<seq<Finding>>   // recorded with each row

    constructor ()
      ensures rows == [] && findings == []
    {
      rows, findings := [], [];
    }

    method Record(row: Row, found: seq<Finding>)
      modifies this
      ensures rows == old(rows) + [row] && findings == old(findings) + [found]
    {
      rows, findings := rows + [row], findings + [found];
    }
  }

  class Registry {
    var entries: seq<Entry>

    method Push(j: Job, call: Call) returns (ok: bool)
      modifies this
      ensures ok == call.Works?
      ensures entries == if call.Took() then old(entries) + [Landed(j)] else old(entries)
    {
      if call.Took() { entries := entries + [Landed(j)]; }
      ok := call.Works?;
    }
  }

  // How a passed push reaches the registry: at once, or by way of the queue, which then owes the cleanup.
  class Publication {
    const deferred: bool
    const job: Job
    const queue: V.ValkeyQueue
    const registry: Registry
    var handedOff: bool
    ghost var ran: nat

    constructor (deferred: bool, job: Job, queue: V.ValkeyQueue, registry: Registry)
      ensures this.deferred == deferred && this.job == job && this.queue == queue && this.registry == registry
      ensures !handedOff && ran == 0
    {
      this.deferred, this.job, this.queue, this.registry := deferred, job, queue, registry;
      handedOff, ran := false, 0;
    }

    method Run(call: Call) returns (ok: bool)
      modifies this, queue, registry
      ensures ok == call.Works? && ran == old(ran) + 1
      ensures handedOff == (old(handedOff) || (deferred && ok))
      ensures queue.State() == if deferred && call.Took() then V.Push(old(queue.State()), job) else old(queue.State())
      ensures registry.entries ==
          if !deferred && call.Took() then old(registry.entries) + [Landed(job)] else old(registry.entries)
    {
      ran := ran + 1;
      if !deferred {
        ok := registry.Push(job, call);
        return;
      }
      ok := queue.Enqueue(job, call);
      if !ok { return; }
      handedOff := true;
    }
  }

  class Outcome {
    const reportBase: string
    const recorder: Recorder
    const recording: bool         // false: no recorder is configured

    constructor (reportBase: string, recorder: Recorder, recording: bool)
      ensures this.reportBase == reportBase && this.recorder == recorder && this.recording == recording
    {
      this.reportBase, this.recorder, this.recording := reportBase, recorder, recording;
    }

    // The row that was added, when one was.
    method RecordDecision(id: string, j: Job, res: GateResult, passed: bool, durationMs: nat, detail: Detail)
      returns (ghost row: Row)
      modifies recorder
      ensures !recording ==> recorder.rows == old(recorder.rows) && recorder.findings == old(recorder.findings)
      ensures recording ==>
                && recorder.rows == old(recorder.rows) + [row]
                && recorder.findings == old(recorder.findings) + [res.findings]
                && RowNames(row, id, j) && RowExplains(row, res) && row.durationMs == durationMs
                && row.passed == passed && row.detail == detail && row.infraError == !detail.NoDetail?
    {
      row := Row(id, "", "", "", "", passed, false, detail, [], [], "", 0, None);
      if !recording { return; }
      var failed: seq<string>, reasons: seq<string> := [], [];
      var todo := res.verdicts.Keys;
      while todo != {}
        invariant todo <= res.verdicts.Keys
        invariant Distinct(failed) && forall n :: n in failed ==> n in res.verdicts
        invariant Elements(failed) == RejectedNames(res.verdicts) - todo
        invariant reasons == ReasonsOf(res.verdicts, failed)
        invariant recorder.rows == old(recorder.rows) && recorder.findings == old(recorder.findings)
        decreases todo
      {
        var n :| n in todo;
        todo := todo - {n};
        if !res.verdicts[n].passed {
          assert n !in Elements(failed);
          Snoc(failed, n);
          assert (failed + [n])[..|failed|] == failed;
          failed := failed + [n];
          reasons := reasons + res.verdicts[n].reasons;
        }
      }
      reasons := reasons + res.unenforced;
      var decision := Row(id, j.repo, j.tag, j.digest, j.identity, passed, !detail.NoDetail?, detail, failed, reasons,
                          res.scannerDb, durationMs, AgeOf(res.age));
      recorder.Record(decision, res.findings);
      row := decision;
    }

    // `fresh` is what the ID generator would issue.
    method Apply(givenId: string, freshId: string, pub: Publication, j: Job, res: GateResult,
                 error: Option<GateError>, scanNs: nat, call: Call)
      returns (d: Decision, ghost row: Row)
      requires pub.ran == 0 && !pub.handedOff
      modifies recorder, pub, pub.queue, pub.registry
      ensures var e := Judge(error, res, call); var id := if givenId == "" then freshId else givenId;
              && d == Decision(e.Status(), e.Status() in {500, 502, 503}, reportBase + "/" + id)
              && (recording ==>
                    && recorder.rows == old(recorder.rows) + [row]
                    && recorder.findings == old(recorder.findings) + [res.findings]
                    && RowNames(row, id, j) && RowSays(row, e) && RowExplains(row, res)
                    && row.durationMs == Millis(scanNs))
              && (!recording ==> recorder.rows == old(recorder.rows) && recorder.findings == old(recorder.findings))
      ensures d.status ==
                if error == Some(Saturated) then 503
                else if error.Some? then 500
                else if !res.passed then 400
                else if call.Fails? then 502
                else 201
      ensures recording ==> row.passed == (d.status == 201)
      ensures pub.ran == 1 <==> error.None? && res.passed
      ensures var e := Judge(error, res, call); var took := Publishes(e) && call.Took();
              && pub.ran == (if Publishes(e) then 1 else 0)
              && pub.handedOff == (pub.deferred && e.Published?)
              && pub.queue.State() ==
                   (if pub.deferred && took then V.Push(old(pub.queue.State()), pub.job) else old(pub.queue.State()))
              && pub.registry.entries ==
                   (if !pub.deferred && took then old(pub.registry.entries) + [Landed(pub.job)]
                    else old(pub.registry.entries))
    {
      var id := if givenId == "" then freshId else givenId;
      var report := reportBase + "/" + id;
      var ms := scanNs / 1_000_000 % 0x1_0000_0000;
      if error.Some? {
        row := RecordDecision(id, j, res, false, ms, GateDetail(error.value));
        return Decision(if error.value.Saturated? then 503 else 500, true, report), row;
      }
      if !res.passed {
        row := RecordDecision(id, j, res, false, ms, NoDetail);
        return Decision(400, false, report), row;
      }
      var ok := pub.Run(call);
      if !ok {
        row := RecordDecision(id, j, res, false, ms, PublishDetail);
        return Decision(502, true, report), row;
      }
      row := RecordDecision(id, j, res, true, ms, NoDetail);
      return Decision(201, false, report), row;
    }
  }

  class AuditFinalizer {
    const recorder: Recorder
    const recording: bool

    constructor (recorder: Recorder, recording: bool)
      ensures this.recorder == recorder && this.recording == recording
    {
      this.recorder, this.recording := recorder, recording;
    }

    // Only an abandoned promotion is written: the row contradicts the handler's, under the same push ID.
    method FinalizePromotion(j: Job, ok: bool, cause: string) returns (ghost row: Row)
      modifies recorder
      ensures ok || !recording ==> recorder.rows == old(recorder.rows) && recorder.findings == old(recorder.findings)
      ensures !ok && recording ==>
                && recorder.rows == old(recorder.rows) + [row] && recorder.findings == old(recorder.findings) + [[]]
                && RowNames(row, j.pushId, j) && !row.passed && row.infraError
                && row.detail == AbandonedAfter(j.attempts, cause) && row.failedPolicies == [] && row.reasons == []
    {
      var detail := AbandonedAfter(j.attempts, cause);
      var decision := Row(j.pushId, j.repo, j.tag, j.digest, j.identity, false, true, detail, [], [], "", 0, None);
      row := decision;
      if !recording || ok { return; }
      recorder.Record(decision, []);
    }
  }

  // What the store made of the pushed manifest.
  datatype StageResult = Incomplete | NoRoom | Broken | Assembled

  /** What a client whose image was assembled is answered, read off the policies alone: nothing if it left,
      503 if no slot came free, 500 if a policy could not run, 400 if one rejected, else as the publication
      went. */
  ghost function StatusOf(policies: seq<Policy>, img: StagedImage, slot: Slot, publish: Call): Option<int> {
    match slot
    case ClientGone => None
    case Full => Some(503)
    case Granted =>
      if exists i :: 0 <= i < |policies| && policies[i].evaluate(img).Err? then Some(500)
      else if exists i :: 0 <= i < |policies| && !policies[i].evaluate(img).value.passed then Some(400)
      else Some(if publish.Fails? then 502 else 201)
  }

  lemma StatusIs(policies: seq<Policy>, img: StagedImage, slot: Slot, publish: Call)
    ensures var e := EndingOf(World(slot, AnswersOf(policies, img), publish));
            StatusOf(policies, img, slot, publish) == if e.Abandoned? then None else Some(e.Status())
  {
    WhatPoliciesSay(policies, img);
  }

  class Handler {
    const engine: Engine
    const outcome: Outcome
    const queue: V.ValkeyQueue
    const registry: Registry
    const deferred: bool          // a promoter is configured
    const countsPending: bool     // and it exposes its backlog
    const maxPending: int         // below 1: no bound
    var cleaned: seq<Job>         // Cleanup calls

    constructor (engine: Engine, outcome: Outcome, queue: V.ValkeyQueue, registry: Registry,
                 deferred: bool, countsPending: bool, maxPending: int)
      ensures this.engine == engine && this.outcome == outcome && this.queue == queue && this.registry == registry
      ensures this.deferred == deferred && this.countsPending == countsPending && this.maxPending == maxPending
      ensures cleaned == []
    {
      this.engine, this.outcome, this.queue, this.registry := engine, outcome, queue, registry;
      this.deferred, this.countsPending, this.maxPending := deferred, countsPending, maxPending;
      cleaned := [];
    }

    predicate Sheds(depthUp: bool)
      reads queue
    {
      maxPending >= 1 && deferred && countsPending && depthUp && |queue.pending| >= maxPending
    }

    // A backlog that cannot be read admits the push, as does a promoter that has none to show.
    method BacklogFull(depthUp: bool) returns (full: bool)
      ensures full == Sheds(depthUp)
      ensures full <==> maxPending >= 1 && deferred && countsPending && depthUp && |queue.pending| >= maxPending
    {
      if maxPending < 1 || !deferred { return false; }
      if !countsPending { return false; }
      var depth := queue.Depth(depthUp);
      if depth.None? { return false; }
      return depth.value >= maxPending;
    }

    // An image push that got as far as its manifest. `j` is the job it would become.
    method HandleImage(j: Job, img: StagedImage, depthUp: bool, stage: StageResult,
        slot: Slot, scanNs: nat, publish: Call)
      returns (status: Option<int>, ghost row: Row)
      modifies this, queue, registry, outcome.recorder
      ensures old(Sheds(depthUp)) ==> status == Some(503)
      ensures !old(Sheds(depthUp)) && !stage.Assembled? ==> status == Some(if stage.Incomplete? then 400 else 500)
      ensures old(Sheds(depthUp)) || !stage.Assembled? ==>
                && queue.State() == old(queue.State()) && registry.entries == old(registry.entries)
                && outcome.recorder.rows == old(outcome.recorder.rows)
                && cleaned == if !old(Sheds(depthUp)) && stage.Broken? then old(cleaned) + [j] else old(cleaned)
      ensures !old(Sheds(depthUp)) && stage.Assembled? ==>
                var w := World(slot, AnswersOf(engine.policies, img), publish); var e := EndingOf(w);
                && status == (if e.Abandoned? then None else Some(e.Status()))
                && queue.State() == QueueAfterPush(deferred, old(queue.State()), j, w)
                && registry.entries == RegistryAfterPush(deferred, old(registry.entries), j, w)
                && cleaned == (if HandedOff(deferred, w) then old(cleaned) else old(cleaned) + [j])
                && (e.Abandoned? || !outcome.recording ==> outcome.recorder.rows == old(outcome.recorder.rows))
                && (!e.Abandoned? && outcome.recording ==>
                      && outcome.recorder.rows == old(outcome.recorder.rows) + [row]
                      && RowNames(row, j.pushId, j) && RowSays(row, e) && RowExplains(row, ResultSeen(w)))
      ensures !old(Sheds(depthUp)) && stage.Assembled? ==>
                status == StatusOf(engine.policies, img, slot, publish)
    {
      row := Row(j.pushId, "", "", "", "", false, false, NoDetail, [], [], "", 0, None);
      StatusIs(engine.policies, img, slot, publish);
      var full := BacklogFull(depthUp);
      if full { return Some(503), row; }
      match stage {
        case Incomplete => return Some(400), row;
        case NoRoom => return Some(500), row;
        case Broken =>
          cleaned := cleaned + [j];
          return Some(500), row;
        case Assembled =>
      }
      if slot.ClientGone? {
        cleaned := cleaned + [j];
        return None, row;
      }
      var res, error, spent := CLEAN.(passed := false), Some(Saturated), 0;
      if slot.Granted? {
        var errors;
        res, errors := engine.Run(img);
        error := if errors == [] then None else Some(CouldNotRun(errors));
        spent := scanNs;
      }
      var pub := new Publication(deferred, j, queue, registry);
      var d;
      d, row := outcome.Apply(j.pushId, j.pushId, pub, j, res, error, spent, publish);
      if !pub.handedOff { cleaned := cleaned + [j]; }
      return Some(d.status), row;
    }
  }
}
