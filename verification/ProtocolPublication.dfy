/** What is in the registry. Images get there only through the gate; an index only once everything it
    references is there, so nothing ungated can be reached from any published reference. */
module ProtocolPublication {
  import opened Basics
  import opened PromoteJob
  import opened Manifests
  import opened Protocol
  import opened ProtocolSafety

  ghost predicate Admitted(c: Config, s: Sys, i: nat)
    requires i < |s.registry|
  {
    var raw := s.registry[i].raw;
    match KindOf(c, raw)
    case None => false
    case Some(Image) => raw in s.gated
    case Some(Index) => Resolves(c, s.registry[..i], raw)
    case Some(Attestation) => true
  }

  ghost predicate RegistryOk(c: Config, s: Sys) {
    forall i :: 0 <= i < |s.registry| ==> Admitted(c, s, i)
  }

  lemma AppendAdmitted(c: Config, s: Sys, t: Sys, e: Entry)
    requires RegistryOk(c, s) && s.gated <= t.gated && t.registry == s.registry + [e]
    requires match KindOf(c, e.raw)
             case None => false
             case Some(Image) => e.raw in t.gated
             case Some(Index) => Resolves(c, s.registry, e.raw)
             case Some(Attestation) => true
    ensures RegistryOk(c, t)
  {
    forall i | 0 <= i < |t.registry| ensures Admitted(c, t, i) {
      if i < |s.registry| {
        assert Admitted(c, s, i);
        assert t.registry[..i] == s.registry[..i];
      } else {
        assert t.registry[..i] == s.registry;
      }
    }
  }

  lemma SameAdmitted(c: Config, s: Sys, t: Sys)
    requires RegistryOk(c, s) && s.gated <= t.gated && t.registry == s.registry
    ensures RegistryOk(c, t)
  {
    forall i | 0 <= i < |t.registry| ensures Admitted(c, t, i) {
      assert Admitted(c, s, i);
    }
  }

  lemma RegistryStep(c: Config, s: Sys, step: Step)
    requires Sound(c, s) && RegistryOk(c, s) && Enabled(c, s, step)
    ensures RegistryOk(c, Apply(c, s, step))
  {
    var t := Apply(c, s, step);
    match step {
      case Tick(_) => SameAdmitted(c, s, t);
      case ByHandler(h) =>
        match h {
          case SyncPublish(id, landed) =>
            assert HandlerOk(c, s, id);
            if landed { AppendAdmitted(c, s, t, Landed(s.handlers[id].job)); } else { SameAdmitted(c, s, t); }
          case ForwardIndex(raw, target) => AppendAdmitted(c, s, t, Entry(target, raw));
          case ForwardAttestation(raw, target) => AppendAdmitted(c, s, t, Entry(target, raw));
          case _ => SameAdmitted(c, s, t);
        }
      case ByWorker(w, a) =>
        if a.PushSucceeds? || (a.PushFails? && a.landed) {
          var j := s.workers[w].job;
          assert WorkerCopy(c, s, w) && IssuedOk(s, j.pushId);
          AppendAdmitted(c, s, t, Landed(j));
        } else {
          SameAdmitted(c, s, t);
        }
    }
  }

  lemma {:induction false} RunRegistry(c: Config, s: Sys, steps: seq<Step>)
    requires c.settings.Valid() && Sound(c, s) && RegistryOk(c, s) && Run(c, s, steps)
    ensures Sound(c, Final(c, s, steps)) && RegistryOk(c, Final(c, s, steps))
    decreases |steps|
  {
    if steps != [] {
      SoundStep(c, s, steps[0]);
      RegistryStep(c, s, steps[0]);
      RunRegistry(c, Apply(c, s, steps[0]), steps[1..]);
    }
  }

  // What the gate has to scan: no index by its list or its media type, and not made of in-toto layers only.
  predicate Scannable(m: Parsed) {
    && m.manifests == []
    && m.mediaType != "application/vnd.oci.image.index.v1+json"
    && m.mediaType != "application/vnd.docker.distribution.manifest.list.v2+json"
    && (m.layers == [] || exists l :: 0 <= l < |m.layers| && m.layers[l].mediaType != "application/vnd.in-toto+json")
  }

  // Everything that can be reached from the i-th published manifest by following references: it passed the
  // gate if there is anything to scan, each manifest it lists has something behind it, and whatever that
  // is, it is an older entry and safe too.
  ghost predicate Safe(c: Config, s: Sys, i: nat)
    requires i < |s.registry|
    decreases i, 1
  {
    match c.parse(s.registry[i].raw)
    case None => false
    case Some(m) =>
      && (Scannable(m) ==> s.registry[i].raw in s.gated)
      && forall q :: 0 <= q < |m.manifests| ==> Grounded(c, s, i, m.manifests[q].digest)
  }

  // Something with this digest is older than the i-th entry, and all of it is safe.
  ghost predicate Grounded(c: Config, s: Sys, i: nat, d: string)
    requires i < |s.registry|
    decreases i, 0
  {
    && (exists k :: 0 <= k < i && c.digestOf(s.registry[k].raw) == d)
    && (forall k :: 0 <= k < i && c.digestOf(s.registry[k].raw) == d ==> Safe(c, s, k))
  }

  lemma {:induction false} AdmittedIsSafe(c: Config, s: Sys, i: nat)
    requires RegistryOk(c, s) && i < |s.registry|
    ensures Safe(c, s, i)
    decreases i
  {
    var raw := s.registry[i].raw;
    assert Admitted(c, s, i);
    var m := c.parse(raw).value;
    KindsByMediaType(m);
    forall k | 0 <= k < i ensures Safe(c, s, k) {
      AdmittedIsSafe(c, s, k);
    }
    if m.manifests != [] {
      ResolvesMeans(c, s.registry[..i], raw, m);
      forall q | 0 <= q < |m.manifests| ensures Grounded(c, s, i, m.manifests[q].digest) {
        assert Has(c, s.registry[..i], m.manifests[q].digest);
        var k :| 0 <= k < i && c.digestOf(s.registry[..i][k].raw) == m.manifests[q].digest;
        assert s.registry[k] == s.registry[..i][k];
      }
    }
  }

  /** Over every interleaving of manifest PUTs, index and attestation forwards, promotions, retries,
      sweeps, failures and crashes: whatever is in the registry parses; unless it is an index by its list
      or its media type or has in-toto layers only, it passed the gate; and each manifest it lists is the
      digest of an older entry, every one of which is safe in the same way, down to the leaves. */
  lemma PublicationSafety(c: Config, s: Sys, steps: seq<Step>, i: nat)
    requires c.settings.Valid() && Init(s) && Run(c, s, steps)
    requires i < |Final(c, s, steps).registry|
    ensures Safe(c, Final(c, s, steps), i)
    ensures var t := Final(c, s, steps); var raw := t.registry[i].raw;
            && c.parse(raw).Some?
            && var m := c.parse(raw).value;
            && (m.manifests == []
                && m.mediaType != "application/vnd.oci.image.index.v1+json"
                && m.mediaType != "application/vnd.docker.distribution.manifest.list.v2+json"
                && (m.layers == []
                    || exists l :: 0 <= l < |m.layers| && m.layers[l].mediaType != "application/vnd.in-toto+json")
                ==> raw in t.gated)
            && (forall q :: 0 <= q < |m.manifests| ==> Has(c, t.registry[..i], m.manifests[q].digest))
            && (forall q, k ::
                  0 <= q < |m.manifests| && 0 <= k < i && c.digestOf(t.registry[k].raw) == m.manifests[q].digest
                  ==> Safe(c, t, k))
  {
    InitSound(c, s);
    RunRegistry(c, s, steps);
    var t := Final(c, s, steps);
    AdmittedIsSafe(c, t, i);
    var m := c.parse(t.registry[i].raw).value;
    forall q | 0 <= q < |m.manifests|
      ensures Grounded(c, t, i, m.manifests[q].digest) && Has(c, t.registry[..i], m.manifests[q].digest)
    {
      assert Grounded(c, t, i, m.manifests[q].digest);
      var k :| 0 <= k < i && c.digestOf(t.registry[k].raw) == m.manifests[q].digest;
      assert t.registry[..i][k] == t.registry[k];
    }
  }

  /* ---- what the gate's mark means ---- */

  /** A manifest is marked as gated by a push of it that passes, and by nothing else. */
  lemma OnlyPassingGates(c: Config, s: Sys, step: Step, raw: Bytes)
    requires Enabled(c, s, step)
    ensures raw in Apply(c, s, step).gated <==>
              || raw in s.gated
              || exists id :: step == ByHandler(GatePass(id)) && s.handlers[id].job.manifest == raw
  {
    if step.ByHandler? && step.h.GatePass? { assert step == ByHandler(GatePass(step.h.id)); }
  }

  // The manifests of the pushes that passed during a run.
  ghost function PassedIn(c: Config, s: Sys, steps: seq<Step>): set<Bytes>
    requires Run(c, s, steps)
    decreases |steps|
  {
    if steps == [] then {}
    else
      (match steps[0] case ByHandler(GatePass(id)) => {s.handlers[id].job.manifest} case _ => {})
      + PassedIn(c, Apply(c, s, steps[0]), steps[1..])
  }

  /** So over every run the marked manifests are exactly those of the pushes that passed in it. */
  lemma {:induction false} GatedExactly(c: Config, s: Sys, steps: seq<Step>)
    requires Run(c, s, steps)
    ensures Final(c, s, steps).gated == s.gated + PassedIn(c, s, steps)
    decreases |steps|
  {
    if steps != [] { GatedExactly(c, Apply(c, s, steps[0]), steps[1..]); }
  }
}
