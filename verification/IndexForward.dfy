/** Forwarding indexes and attestations (internal/ingress/docker/manifest.go): the bounded wait for
    references that are still being promoted, and what reaches the registry. */
module IndexForward {
  import opened Basics
  import opened Manifests
  import opened Digests
  import opened Protocol
  import opened Staging
  import opened StagingSpec

  // What a registry PUT answers. MissingReference means a referenced object is not there yet.
  datatype Refusal = MissingReference | Other

  // What happens between the attempts of one forward. Attempt k + 1 follows the k-th sleep.
  datatype World = World(
    slept: nat -> int,                // the k-th sleep and the attempt after it
    arrived: nat -> seq<Entry>,       // what others published before the next attempt
    left: nat -> bool,                // the client left instead of the k-th sleep ending
    refused: nat -> bool)             // the attempt after the k-th sleep fails for another reason

  const DEFAULT_WAIT: int := 90_000_000_000
  const DEFAULT_POLL: int := 500_000_000

  // indexReferenceWait and indexReferencePoll, in nanoseconds.
  function WaitOf(configured: int): (w: int)
    ensures w > 0 && (configured > 0 ==> w == configured) && (configured <= 0 ==> w == 90 * 1_000_000_000)
  {
    if configured <= 0 then DEFAULT_WAIT else configured
  }

  function PollOf(configured: int): (p: int)
    ensures p > 0 && (configured > 0 ==> p == configured) && (configured <= 0 ==> p == 500 * 1_000_000)
  {
    if configured <= 0 then DEFAULT_POLL else configured
  }

  function Slept(w: World, k: nat): int { if k == 0 then 0 else Slept(w, k - 1) + w.slept(k - 1) }

  // The registry when the attempt after k sleeps is made, nothing of ours having been accepted.
  function Seen(w: World, start: seq<Entry>, k: nat): seq<Entry> {
    if k == 0 then start else Seen(w, start, k - 1) + w.arrived(k - 1)
  }

  ghost predicate Lands(c: Config, w: World, start: seq<Entry>, raw: Bytes, k: nat)
    requires k > 0
  {
    !w.refused(k - 1) && Resolves(c, Seen(w, start, k), raw)
  }

  // The first k retries are made and all find a reference missing.
  ghost predicate StillWaiting(c: Config, w: World, start: seq<Entry>, raw: Bytes, wait: int, k: nat) {
    forall i :: 0 <= i < k ==> Tries(w, wait, i) && MissesAt(c, w, start, raw, i)
  }

  // There is time for another sleep after i of them, and the client is still there at its end.
  predicate Tries(w: World, wait: int, i: nat) { Slept(w, i) < wait && !w.left(i) }

  // The attempt after sleep i finds a reference missing.
  ghost predicate MissesAt(c: Config, w: World, start: seq<Entry>, raw: Bytes, i: nat) {
    !w.refused(i) && !Resolves(c, Seen(w, start, i + 1), raw)
  }

  // Retry k is made, after k - 1 that found a reference missing, and is accepted.
  ghost predicate AcceptedAt(c: Config, w: World, start: seq<Entry>, raw: Bytes, wait: int, k: nat)
    requires k > 0
  {
    StillWaiting(c, w, start, raw, wait, k - 1) && Tries(w, wait, k - 1) && Lands(c, w, start, raw, k)
  }

  ghost predicate SleepsAtLeast(w: World, poll: int) { forall k :: w.slept(k) >= poll }

  lemma {:induction false} SleptAtLeast(w: World, poll: int, k: nat)
    requires SleepsAtLeast(w, poll)
    ensures Slept(w, k) >= k * poll
  {
    if k > 0 { SleptAtLeast(w, poll, k - 1); }
  }

  // ceil(wait / poll)
  function MostRetries(wait: int, poll: int): int
    requires poll > 0
  {
    (wait + poll - 1) / poll
  }

  lemma RetriesBounded(w: World, wait: int, poll: int, k: nat)
    requires poll > 0 && SleepsAtLeast(w, poll) && Slept(w, k) < wait
    ensures k + 1 <= MostRetries(wait, poll) && (MostRetries(wait, poll) - 1) * poll < wait
  {
    SleptAtLeast(w, poll, k);
    var m := MostRetries(wait, poll);
    assert wait + poll - 1 == m * poll + (wait + poll - 1) % poll;
    FewerSteps(k, m, poll);
  }

  lemma FewerSteps(k: int, m: int, poll: int)
    requires poll > 0 && k * poll < m * poll
    ensures k < m
  {
    if m <= k { MulMono(m, k, poll); }
  }

  lemma MulMono(a: int, b: int, p: int)
    requires a <= b && p >= 0
    ensures a * p <= b * p
  {
  }

  ghost function PutAnswer(c: Config, entries: seq<Entry>, raw: Bytes, refused: bool): Option<Refusal> {
    if refused then Some(Other) else if Resolves(c, entries, raw) then None else Some(MissingReference)
  }

  /** A registry that answers takes a manifest exactly when every manifest it lists, by position, is the digest
      of an entry it has, and otherwise says that a reference is missing. */
  lemma PutExactly(c: Config, entries: seq<Entry>, raw: Bytes, m: Parsed)
    requires c.parse(raw) == Some(m)
    ensures PutAnswer(c, entries, raw, false) ==
              if forall i :: 0 <= i < |m.manifests| ==> Has(c, entries, m.manifests[i].digest) then None
              else Some(MissingReference)
  {
    ResolvesMeans(c, entries, raw, m);
  }

  class Registry {
    var entries: seq<Entry>

    constructor ()
      ensures entries == []
    {
      entries := [];
    }

    // `resolves` is the registry's own check of the references.
    method PushManifest(c: Config, raw: Bytes, target: string, refused: bool) returns (r: Option<Refusal>)
      modifies this
      ensures r == PutAnswer(c, old(entries), raw, refused)
      ensures entries == if r.None? then old(entries) + [Entry(target, raw)] else old(entries)
    {
      if refused { return Some(Other); }
      var resolves := CheckReferences(c, raw);
      if !resolves { return Some(MissingReference); }
      entries := entries + [Entry(target, raw)];
      return None;
    }

    method CheckReferences(c: Config, raw: Bytes) returns (resolves: bool)
      ensures resolves <==> Resolves(c, entries, raw)
    {
      var refs := Refs(c, raw);
      for i := 0 to |refs|
        invariant forall k :: 0 <= k < i ==> Has(c, entries, refs[k])
      {
        var found := false;
        for j := 0 to |entries|
          invariant found ==> Has(c, entries, refs[i])
          invariant !found ==> forall k :: 0 <= k < j ==> c.digestOf(entries[k].raw) != refs[i]
        {
          if c.digestOf(entries[j].raw) == refs[i] { found := true; }
        }
        if !found {
          assert refs[i] in refs;
          return false;
        }
      }
      forall d | d in refs ensures exists e :: e in entries && c.digestOf(e.raw) == d {
        assert Has(c, entries, d);
        var i :| 0 <= i < |entries| && c.digestOf(entries[i].raw) == d;
        assert entries[i] in entries;
      }
      return true;
    }

    method Receive(others: seq<Entry>)
      modifies this
      ensures entries == old(entries) + others
    {
      entries := entries + others;
    }

    /** Retries only after a missing reference, at most ceil(wait / poll) times, and succeeds exactly when
        some retry it reaches finds every reference there. */
    method AwaitIndexReferences(c: Config, raw: Bytes, target: string, first: Refusal, wait: int, poll: int, w: World)
      returns (r: Option<Refusal>, retries: nat)
      requires wait > 0 && poll > 0 && SleepsAtLeast(w, poll)
      modifies this
      ensures first.Other? ==> r == Some(Other) && retries == 0 && entries == old(entries)
      ensures retries <= MostRetries(wait, poll)
      ensures first.MissingReference? ==>
                && StillWaiting(c, w, old(entries), raw, wait, if retries == 0 then 0 else retries - 1)
                && (r.None? <==> exists k :: k > 0 && AcceptedAt(c, w, old(entries), raw, wait, k))
                && (r.None? ==> retries > 0 && AcceptedAt(c, w, old(entries), raw, wait, retries)
                                && entries == Seen(w, old(entries), retries) + [Entry(target, raw)])
                && (r.Some? ==> entries == Seen(w, old(entries), retries))
    {
      retries := 0;
      if first.Other? { return Some(Other), 0; }
      ghost var start := entries;
      var elapsed := 0;
      r := Some(MissingReference);
      while true
        invariant retries <= MostRetries(wait, poll)
        invariant elapsed == Slept(w, retries)
        invariant r == Some(MissingReference) && entries == Seen(w, start, retries)
        invariant StillWaiting(c, w, start, raw, wait, retries)
        decreases MostRetries(wait, poll) - retries
      {
        if elapsed >= wait {
          NeverAccepted(c, w, start, raw, wait, retries);
          return;
        }
        if w.left(retries) {
          NeverAccepted(c, w, start, raw, wait, retries);
          return;
        }
        RetriesBounded(w, wait, poll, retries);
        Receive(w.arrived(retries));
        elapsed := elapsed + w.slept(retries);
        retries := retries + 1;
        assert Tries(w, wait, retries - 1);
        r := PushManifest(c, raw, target, w.refused(retries - 1));
        if r.None? {
          assert AcceptedAt(c, w, start, raw, wait, retries);
          return;
        }
        if r.value.Other? {
          NeverAcceptedAfter(c, w, start, raw, wait, retries);
          return;
        }
        assert MissesAt(c, w, start, raw, retries - 1);
      }
    }
  }

  lemma NeverAccepted(c: Config, w: World, start: seq<Entry>, raw: Bytes, wait: int, k: nat)
    requires StillWaiting(c, w, start, raw, wait, k) && !Tries(w, wait, k)
    ensures !exists n :: n > 0 && AcceptedAt(c, w, start, raw, wait, n)
  {
    forall n | n > 0 ensures !AcceptedAt(c, w, start, raw, wait, n) {
      if n <= k {
        assert MissesAt(c, w, start, raw, n - 1);
      } else {
        assert StillWaiting(c, w, start, raw, wait, n - 1) && k < n - 1 ==> Tries(w, wait, k);
      }
    }
  }

  lemma NeverAcceptedAfter(c: Config, w: World, start: seq<Entry>, raw: Bytes, wait: int, k: nat)
    requires k > 0 && StillWaiting(c, w, start, raw, wait, k - 1) && w.refused(k - 1)
    ensures !exists n :: n > 0 && AcceptedAt(c, w, start, raw, wait, n)
  {
    var last: nat := k - 1;
    forall n | n > 0 ensures !AcceptedAt(c, w, start, raw, wait, n) {
      if n < k {
        assert MissesAt(c, w, start, raw, n - 1);
      } else if n > k {
        assert StillWaiting(c, w, start, raw, wait, n - 1) ==> MissesAt(c, w, start, raw, last);
      }
    }
  }

  ghost predicate Absent(c: Config, entries: seq<Entry>, d: string) {
    forall e :: e in entries ==> c.digestOf(e.raw) != d
  }

  lemma {:induction false} StaysAbsent(c: Config, w: World, start: seq<Entry>, d: string, k: nat)
    requires Absent(c, start, d) && forall i :: Absent(c, w.arrived(i), d)
    ensures Absent(c, Seen(w, start, k), d)
  {
    if k > 0 {
      StaysAbsent(c, w, start, d, k - 1);
      assert Absent(c, w.arrived(k - 1), d);
    }
  }

  /** If some referenced manifest never arrives, as for an image the gate rejected, no retry is ever
      accepted: waiting changes how long the refusal takes, not whether it holds. */
  lemma RejectedImageIsNeverReferenced(c: Config, w: World, start: seq<Entry>, raw: Bytes, wait: int, m: Parsed, i: nat)
    requires c.parse(raw) == Some(m) && i < |m.manifests|
    requires forall e :: e in start ==> c.digestOf(e.raw) != m.manifests[i].digest
    requires forall k, e :: e in w.arrived(k) ==> c.digestOf(e.raw) != m.manifests[i].digest
    ensures !exists k :: k > 0 && AcceptedAt(c, w, start, raw, wait, k)
  {
    var d := m.manifests[i].digest;
    forall k: nat | k > 0 ensures !AcceptedAt(c, w, start, raw, wait, k) {
      StaysAbsent(c, w, start, d, k);
      ResolvesMeans(c, Seen(w, start, k), raw, m);
      assert !Has(c, Seen(w, start, k), m.manifests[i].digest);
    }
  }

  // One of the entries a retry after k sleeps can find: there from the start, or arrived in the meantime.
  ghost predicate Arrives(c: Config, w: World, start: seq<Entry>, k: nat, d: string) {
    Has(c, start, d) || exists j :: 0 <= j < k && Has(c, w.arrived(j), d)
  }

  lemma {:induction false} SeenHas(c: Config, w: World, start: seq<Entry>, k: nat, d: string)
    ensures Has(c, Seen(w, start, k), d) <==> Arrives(c, w, start, k, d)
  {
    if k > 0 {
      SeenHas(c, w, start, k - 1, d);
      HasPlus(c, Seen(w, start, k - 1), w.arrived(k - 1), d);
    }
  }

  lemma HasPlus(c: Config, a: seq<Entry>, b: seq<Entry>, d: string)
    ensures Has(c, a + b, d) <==> Has(c, a, d) || Has(c, b, d)
  {
    if i :| 0 <= i < |a| && c.digestOf(a[i].raw) == d { assert (a + b)[i] == a[i]; }
    if i :| 0 <= i < |b| && c.digestOf(b[i].raw) == d { assert (a + b)[|a| + i] == b[i]; }
  }

  lemma {:induction false} SleptAtMost(w: World, most: int, k: nat)
    requires forall i :: 0 <= i < k ==> w.slept(i) <= most
    ensures Slept(w, k) <= k * most
  {
    if k > 0 { SleptAtMost(w, most, k - 1); }
  }

  /** And if everything the index lists has arrived by retry k, and k - 1 sleeps fit into the wait, a client
      that stays and a registry that answers get the index accepted by then. */
  lemma ArrivesInTime(c: Config, w: World, start: seq<Entry>, raw: Bytes, wait: int, m: Parsed, k: nat, most: int)
    requires c.parse(raw) == Some(m) && k > 0
    requires forall i :: 0 <= i < |m.manifests| ==> Arrives(c, w, start, k, m.manifests[i].digest)
    requires most >= 0 && (k - 1) * most < wait && forall i :: 0 <= i < k ==> w.slept(i) <= most
    requires forall i :: 0 <= i < k ==> !w.left(i) && !w.refused(i)
    ensures exists n :: 0 < n <= k && AcceptedAt(c, w, start, raw, wait, n)
  {
    forall i | 0 <= i < |m.manifests| ensures Has(c, Seen(w, start, k), m.manifests[i].digest) {
      SeenHas(c, w, start, k, m.manifests[i].digest);
    }
    ResolvesMeans(c, Seen(w, start, k), raw, m);
    forall i | 0 <= i < k ensures Tries(w, wait, i) {
      SleptAtMost(w, most, i);
      MulMono(i, k - 1, most);
    }
    FirstAccepted(c, w, start, raw, wait, k);
  }

  // The first retry that finds everything there is the one that is accepted.
  lemma {:induction false} FirstAccepted(c: Config, w: World, start: seq<Entry>, raw: Bytes, wait: int, k: nat)
    requires k > 0 && Lands(c, w, start, raw, k)
    requires forall i :: 0 <= i < k ==> Tries(w, wait, i) && !w.refused(i)
    ensures exists n :: 0 < n <= k && AcceptedAt(c, w, start, raw, wait, n)
  {
    if StillWaiting(c, w, start, raw, wait, k - 1) {
      assert AcceptedAt(c, w, start, raw, wait, k);
    } else {
      var i :| 0 <= i < k - 1 && !MissesAt(c, w, start, raw, i);
      FirstAccepted(c, w, start, raw, wait, i + 1);
    }
  }

  /* ---- the whole forward ---- */

  datatype Alias = Alias(repo: string, tag: string, digest: string)

  predicate ByDigest(ref: string) { |ref| >= 7 && ref[..7] == "sha256:" }

  // By digest when the client addressed the manifest by digest, else by tag.
  function TargetRef(registry: string, repo: string, ref: string): string {
    registry + "/" + repo + (if ByDigest(ref) then "@" else ":") + ref
  }

  function AliasesFor(repo: string, tag: string, manifests: seq<Descriptor>): seq<Alias> {
    if manifests == [] then []
    else
      var d := manifests[|manifests| - 1].digest;
      AliasesFor(repo, tag, manifests[..|manifests| - 1]) + if d == "" then [] else [Alias(repo, tag, d)]
  }

  // The blobs an attestation needs in the registry before itself.
  function BlobsOf(m: Parsed): seq<string> {
    (if m.config.digest != "" then [m.config.digest] else [])
    + seq(|m.layers|, i requires 0 <= i < |m.layers| => m.layers[i].digest)
  }

  /** Which are its config, if it names one, and every one of its layers. */
  lemma BlobsAre(m: Parsed, d: string)
    ensures d in BlobsOf(m) <==>
              (d == m.config.digest && d != "") || exists l :: 0 <= l < |m.layers| && m.layers[l].digest == d
  {
    var ds := seq(|m.layers|, i requires 0 <= i < |m.layers| => m.layers[i].digest);
    if l :| 0 <= l < |m.layers| && m.layers[l].digest == d { assert ds[l] == d; }
  }

  /** An alias for every manifest of the index that has a digest, and none besides. */
  lemma {:induction false} AliasesAre(repo: string, tag: string, manifests: seq<Descriptor>, a: Alias)
    ensures a in AliasesFor(repo, tag, manifests) <==>
              && a.repo == repo && a.tag == tag && a.digest != ""
              && exists i :: 0 <= i < |manifests| && manifests[i].digest == a.digest
    ensures |AliasesFor(repo, tag, manifests)| <= |manifests|
  {
    if manifests != [] {
      var n := |manifests| - 1;
      AliasesAre(repo, tag, manifests[..n], a);
      if i :| 0 <= i < |manifests| && manifests[i].digest == a.digest {
        assert i < n ==> manifests[..n][i].digest == a.digest;
      }
    }
  }

  // The registry was given bytes under this digest that hash to it.
  predicate Seeded(h: Hash, blobs: map<string, Bytes>, d: string) {
    d in blobs && |d| >= 7 && d[..7] == "sha256:" && Lower(d[7..]) == h(blobs[d])
  }

  class Forwarder {
    const config: Config
    const hash: Hash
    const host: string
    const registry: Registry
    const store: Store
    var blobs: map<string, Bytes>      // blobs pushed to the registry, under the digest they were fetched by
    var aliases: seq<Alias>

    constructor (config: Config, hash: Hash, host: string, registry: Registry, store: Store)
      ensures this.config == config && this.hash == hash && this.host == host
      ensures this.registry == registry && this.store == store && blobs == map[] && aliases == []
    {
      this.config, this.hash, this.host, this.registry, this.store := config, hash, host, registry, store;
      blobs, aliases := map[], [];
    }

    // Every blob an attestation needs is staged, verifies, and is taken by the registry.
    ghost predicate Seedable(m: Parsed, fetches: nat -> Read, takes: nat -> bool)
      reads store.blobs, store.sessions
    {
      forall i :: 0 <= i < |BlobsOf(m)| ==>
          takes(i) && FetchWith(hash, store.State().data, BlobsOf(m)[i], fetches(i)).Ok?
    }

    // Stops at the first blob that cannot be fetched, does not verify or is not taken.
    method SeedBlobs(m: Parsed, fetches: nat -> Read, takes: nat -> bool) returns (ok: bool)
      modifies this`blobs
      ensures ok <==> Seedable(m, fetches, takes)
      ensures ok ==> forall d :: d in BlobsOf(m) ==> Seeded(hash, blobs, d)
    {
      var ds := BlobsOf(m);
      for i := 0 to |ds|
        invariant forall k :: 0 <= k < i ==> takes(k) && FetchWith(hash, store.State().data, ds[k], fetches(k)).Ok?
        invariant forall k :: 0 <= k < i ==> Seeded(hash, blobs, ds[k])
      {
        var raw := store.FetchVerified(hash, ds[i], fetches(i));
        if raw.Err? { return false; }
        if !takes(i) { return false; }
        FetchMeans(hash, store.State().data, ds[i], fetches(i));
        blobs := blobs[ds[i] := raw.value];
      }
      return true;
    }

    method RecordAliases(repo: string, tag: string, manifests: seq<Descriptor>)
      modifies this`aliases
      ensures aliases == old(aliases) + AliasesFor(repo, tag, manifests)
    {
      for i := 0 to |manifests|
        invariant aliases == old(aliases) + AliasesFor(repo, tag, manifests[..i])
      {
        assert manifests[..i + 1][..i] == manifests[..i];
        if manifests[i].digest == "" { continue; }
        aliases := aliases + [Alias(repo, tag, manifests[i].digest)];
      }
      assert manifests[..|manifests|] == manifests;
    }

    /** Answers 201 exactly when the manifest was published; an index only after everything it references,
        an attestation only after its verified blobs. A refused forward publishes nothing of its own. */
    method Forward(repo: string, ref: string, raw: Bytes, m: Parsed,
        kind: Kind, fetches: nat -> Read, takes: nat -> bool,
                   firstRefused: bool, wait: int, poll: int, w: World) returns (status: int, ghost seen: nat)
      requires kind.Index? || kind.Attestation?
      requires SleepsAtLeast(w, PollOf(poll))
      modifies this, registry
      ensures status == 201 || status == 400
      ensures var before := Seen(w, old(registry.entries), seen);
              && registry.entries ==
                  (if status == 201 then before + [Entry(TargetRef(host, repo, ref), raw)] else before)
              && (status == 201 ==> Resolves(config, before, raw))
              && (status == 201 && config.parse(raw) == Some(m) ==>
                    forall i :: 0 <= i < |m.manifests| ==> Has(config, before, m.manifests[i].digest))
      ensures config.parse(raw) == Some(m) && kind.Index? && !firstRefused
              && (forall i :: 0 <= i < |m.manifests| ==> Has(config, old(registry.entries), m.manifests[i].digest))
              ==> status == 201
      ensures var lands := !firstRefused && Resolves(config, old(registry.entries), raw);
              && (kind.Attestation? ==> (status == 201 <==> lands && Seedable(m, fetches, takes)))
              && (kind.Index? ==>
                    (status == 201 <==>
                       || lands
                       || (!firstRefused
                          && exists k :: k > 0 && AcceptedAt(config, w, old(registry.entries), raw, WaitOf(wait), k))))
      ensures kind.Attestation? ==> seen == 0
      ensures kind.Attestation? && status == 201 ==>
          && (m.config.digest != "" ==> Seeded(hash, blobs, m.config.digest))
          && (forall l :: 0 <= l < |m.layers| ==> Seeded(hash, blobs, m.layers[l].digest))
      ensures aliases == old(aliases) +
                if status == 201 && kind.Index? && !ByDigest(ref) then AliasesFor(repo, ref, m.manifests) else []
      ensures status == 201 ==>
                registry.entries[|registry.entries| - 1] ==
                Entry(host + "/" + repo + (if |ref| >= 7 && ref[..7] == "sha256:" then "@" else ":") + ref, raw)
    {
      seen := 0;
      if kind.Attestation? {
        var seeded := SeedBlobs(m, fetches, takes);
        if !seeded { return 400, 0; }
        BlobsAre(m, m.config.digest);
        forall l | 0 <= l < |m.layers| ensures m.layers[l].digest in BlobsOf(m) { BlobsAre(m, m.layers[l].digest); }
      }
      ghost var before := registry.entries;
      if config.parse(raw) == Some(m) { ResolvesMeans(config, before, raw, m); }
      var target := TargetRef(host, repo, ref);
      var err := registry.PushManifest(config, raw, target, firstRefused);
      if err.Some? && kind.Index? {
        ghost var start := registry.entries;
        var retries;
        err, retries := registry.AwaitIndexReferences(config, raw, target, err.value, WaitOf(wait), PollOf(poll), w);
        seen := retries;
        before := Seen(w, start, retries);
        if config.parse(raw) == Some(m) { ResolvesMeans(config, before, raw, m); }
      }
      if err.Some? { return 400, seen; }
      if kind.Index? && !ByDigest(ref) { RecordAliases(repo, ref, m.manifests); }
      return 201, seen;
    }
  }
}
