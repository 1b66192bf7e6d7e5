/** How a gated push ends (internal/ingress/docker/manifest.go and outcome.go), and that the handler's
    course is a run of the promotion protocol. */
module GateSpec {
  import opened Basics
  import opened PromoteJob
  import opened PolicyEngine
  import opened Protocol
  import V = Valkey

  // Waiting for a scan slot: got one (or there is no pool), the deadline passed, or the client left.
  datatype Slot = Granted | Full | ClientGone

  // How the world answers during one image push, once the image is assembled.
  datatype World = World(slot: Slot, answers: seq<Answer>, publish: Call)

  datatype GateError = Saturated | CouldNotRun(errors: seq<(string, string)>)

  datatype Ending = Abandoned | Stopped(error: GateError) | Rejected | PublishFailed | Published {
    function Status(): int
      requires !Abandoned?
    {
      match this
      case Stopped(Saturated) => 503
      case Stopped(CouldNotRun(_)) => 500
      case Rejected => 400
      case PublishFailed => 502
      case Published => 201
    }
  }

  function GateErrorOf(w: World): Option<GateError> {
    if w.slot.Full? then Some(Saturated)
    else if Errors(w.answers) != [] then Some(CouldNotRun(Errors(w.answers)))
    else None
  }

  // The result Apply is given: the zero Result when the pool never let the scan start.
  function ResultSeen(w: World): GateResult {
    if w.slot.Full? then CLEAN.(passed := false) else ResultOf(w.answers)
  }

  function Judge(error: Option<GateError>, res: GateResult, publish: Call): Ending {
    match error
    case Some(e) => Stopped(e)
    case None => if !res.passed then Rejected else if publish.Fails? then PublishFailed else Published
  }

  function EndingOf(w: World): Ending {
    if w.slot.ClientGone? then Abandoned else Judge(GateErrorOf(w), ResultSeen(w), w.publish)
  }

  predicate Publishes(e: Ending) { e.PublishFailed? || e.Published? }

  /** The publish action is reached exactly when a slot was granted and every policy ran and passed;
      201 needs nothing more than that it worked. */
  lemma PublishedOnlyIfAllPassed(w: World)
    ensures Publishes(EndingOf(w)) <==> w.slot.Granted? && AllPass(w.answers)
    ensures EndingOf(w).Published? <==> w.slot.Granted? && AllPass(w.answers) && w.publish.Works?
    ensures EndingOf(w).Rejected? <==> w.slot.Granted? && AllRan(w.answers) && !AllPass(w.answers)
  {
    WhatTheResultMeans(w.answers);
    ErrorsBlock(w.answers);
  }

  /* ---- the same push in the promotion protocol ---- */

  // What the handler does after assembling `j`, with a promotion queue or publishing inline.
  function StepsOf(deferred: bool, id: string, w: World): seq<HandlerStep> {
    var e := EndingOf(w);
    if !Publishes(e) then [GateStop(id), Release(id)]
    else if !deferred then [GatePass(id), SyncPublish(id, w.publish.Took()), Release(id)]
    else if e.Published? then [GatePass(id), Promote(id)]
    else [GatePass(id), PromoteFails(id, w.publish.applied), Release(id)]
  }

  ghost predicate Course(c: Config, s: Sys, hs: seq<HandlerStep>)
    decreases |hs|
  {
    hs == [] || (CanHandle(c, s, hs[0]) && Course(c, ApplyHandler(c, s, hs[0]), hs[1..]))
  }

  ghost function After(c: Config, s: Sys, hs: seq<HandlerStep>): Sys
    requires Course(c, s, hs)
    decreases |hs|
  {
    if hs == [] then s else After(c, ApplyHandler(c, s, hs[0]), hs[1..])
  }

  lemma StepFirst(c: Config, s: Sys, h: HandlerStep, hs: seq<HandlerStep>)
    requires CanHandle(c, s, h) && Course(c, ApplyHandler(c, s, h), hs)
    ensures Course(c, s, [h] + hs)
    ensures After(c, s, [h] + hs) == After(c, ApplyHandler(c, s, h), hs)
  {
    assert ([h] + hs)[1..] == hs;
  }

  function QueueAfterPush(deferred: bool, q: V.Queue, j: Job, w: World): V.Queue {
    if deferred && Publishes(EndingOf(w)) && w.publish.Took() then V.Push(q, j) else q
  }

  function RegistryAfterPush(deferred: bool, r: seq<Entry>, j: Job, w: World): seq<Entry> {
    if !deferred && Publishes(EndingOf(w)) && w.publish.Took() then r + [Landed(j)] else r
  }

  predicate HandedOff(deferred: bool, w: World) { deferred && EndingOf(w).Published? }

  // A push whose image is assembled and waits for its verdict.
  ghost predicate Waiting(s: Sys, id: string) { id in s.handlers && s.handlers[id].stage.Staged? }

  lemma StopCourse(c: Config, s: Sys, id: string)
    requires Waiting(s, id)
    ensures var hs := [GateStop(id), Release(id)];
            && Course(c, s, hs)
            && After(c, s, hs) == s.(handlers := s.handlers - {id}, cleaned := s.cleaned + multiset{id})
  {
    var s1 := ApplyHandler(c, s, GateStop(id));
    assert s1.handlers - {id} == s.handlers - {id};
    StepFirst(c, s1, Release(id), []);
    StepFirst(c, s, GateStop(id), [Release(id)] + []);
    assert [GateStop(id), Release(id)] == [GateStop(id)] + ([Release(id)] + []);
  }

  lemma HandOffCourse(c: Config, s: Sys, id: string)
    requires Waiting(s, id)
    ensures var hs := [GatePass(id), Promote(id)];
            var j := s.handlers[id].job;
            && Course(c, s, hs)
            && After(c, s, hs) == s.(handlers := s.handlers - {id}, gated := s.gated + {j.manifest},
                                     queue := V.Push(s.queue, j), issued := s.issued[id := j],
                                     accepted := s.accepted + {id})
  {
    var s1 := ApplyHandler(c, s, GatePass(id));
    assert s1.handlers - {id} == s.handlers - {id};
    StepFirst(c, s1, Promote(id), []);
    StepFirst(c, s, GatePass(id), [Promote(id)] + []);
    assert [GatePass(id), Promote(id)] == [GatePass(id)] + ([Promote(id)] + []);
  }

  // After a pass, a publication that leaves the push with the handler.
  lemma KeptCourse(c: Config, s: Sys, id: string, h: HandlerStep)
    requires Waiting(s, id) && ((h.SyncPublish? && h.id == id) || (h.PromoteFails? && h.id == id))
    ensures var hs := [GatePass(id), h, Release(id)];
            var j := s.handlers[id].job;
            && Course(c, s, hs)
            && After(c, s, hs) ==
               s.(handlers := s.handlers - {id}, gated := s.gated + {j.manifest},
                  queue := if h.PromoteFails? && h.applied then V.Push(s.queue, j) else s.queue,
                  issued := if h.PromoteFails? then s.issued[id := j] else s.issued,
                  registry := if h.SyncPublish? && h.landed then s.registry + [Landed(j)] else s.registry,
                  cleaned := s.cleaned + multiset{id})
  {
    var s1 := ApplyHandler(c, s, GatePass(id));
    var s2 := ApplyHandler(c, s1, h);
    assert s2.handlers - {id} == s.handlers - {id};
    StepFirst(c, s2, Release(id), []);
    StepFirst(c, s1, h, [Release(id)] + []);
    StepFirst(c, s, GatePass(id), [h] + ([Release(id)] + []));
    assert [GatePass(id), h, Release(id)] == [GatePass(id)] + ([h] + ([Release(id)] + []));
  }

  // What the whole system looks like after one image push.
  ghost predicate PushDone(s: Sys, t: Sys, j: Job, deferred: bool, w: World) {
    && t.queue == QueueAfterPush(deferred, s.queue, j, w)
    && t.registry == RegistryAfterPush(deferred, s.registry, j, w)
    && t.gated == s.gated + (if w.slot.Granted? && AllPass(w.answers) then {j.manifest} else {})
    && t.accepted == s.accepted + (if HandedOff(deferred, w) then {j.pushId} else {})
    && t.cleaned == s.cleaned + (if HandedOff(deferred, w) then multiset{} else multiset{j.pushId})
    && t.handlers == s.handlers && t.workers == s.workers
  }

  /** However the push ends, the handler's course is a course of the protocol: its manifest is marked gated
      exactly when every policy ran and passed, it is accepted exactly when it was handed off, and it is
      released by the handler exactly when it was not. */
  lemma HandlerIsACourse(c: Config, s: Sys, j: Job, deferred: bool, w: World)
    requires CanHandle(c, s, Stage(j)) && j.pushId !in s.handlers
    ensures var hs := [Stage(j)] + StepsOf(deferred, j.pushId, w);
            Course(c, s, hs) && PushDone(s, After(c, s, hs), j, deferred, w)
  {
    PublishedOnlyIfAllPassed(w);
    var id := j.pushId;
    var s1 := ApplyHandler(c, s, Stage(j));
    assert s1.handlers - {id} == s.handlers;
    if !Publishes(EndingOf(w)) {
      StopCourse(c, s1, id);
    } else if !deferred {
      KeptCourse(c, s1, id, SyncPublish(id, w.publish.Took()));
    } else if EndingOf(w).Published? {
      HandOffCourse(c, s1, id);
    } else {
      KeptCourse(c, s1, id, PromoteFails(id, w.publish.applied));
    }
    StepFirst(c, s, Stage(j), StepsOf(deferred, id, w));
  }
}
