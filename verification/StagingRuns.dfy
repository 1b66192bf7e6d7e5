/** What the staging store keeps over whole runs: content addressing whatever fails, uploads that are the
    concatenation of their accepted chunks, and reference counts that equal the outstanding holds. */
module StagingRuns {
  import opened Basics
  import opened Digests
  import opened StagingSpec

  // One call on the store. A release names the digests of the manifest it cleans up after.
  datatype Op =
    | Begin(id: string, call: Call)
    | Write(id: string, offset: int, buf: Bytes, wcalls: WriteCalls)
    | Complete(id: string, digest: string, last: Bytes, ccalls: CompleteCalls)
    | Abandon(id: string, delete: Call, clear: Call)
    | Release(digests: seq<string>, rcalls: nat -> ReleaseCalls)

  function Do(h: Hash, b: Backends, op: Op): Backends {
    match op
    case Begin(id, call) => StagingSpec.Begin(b, id, call)
    case Write(id, offset, buf, calls) => StagingSpec.WriteChunk(b, id, offset, buf, calls).0
    case Complete(id, digest, last, calls) => CompleteBlob(h, b, id, digest, last, calls).0
    case Abandon(id, delete, clear) => StagingSpec.Abandon(b, id, delete, clear)
    case Release(digests, calls) => ReleaseAll(b, digests, calls)
  }

  function DoAll(h: Hash, b: Backends, ops: seq<Op>): Backends
    decreases |ops|
  {
    if ops == [] then b else DoAll(h, Do(h, b, ops[0]), ops[1..])
  }

  /* ---- content addressing ---- */

  ghost predicate Addressed(h: Hash, b: Backends) {
    forall d :: BlobKey(d) in b.data ==> Matches(h, b.data[BlobKey(d)], d)
  }

  lemma {:induction false} ReleaseOnlyDeletes(b: Backends, digests: seq<string>, calls: nat -> ReleaseCalls)
    ensures forall k :: k in ReleaseAll(b, digests, calls).data ==>
        k in b.data && ReleaseAll(b, digests, calls).data[k] == b.data[k]
  {
    if digests != [] { ReleaseOnlyDeletes(b, digests[..|digests| - 1], calls); }
  }

  lemma CompleteAddressed(h: Hash, b: Backends, id: string, digest: string, last: Bytes, calls: CompleteCalls)
    requires Addressed(h, b)
    ensures Addressed(h, CompleteBlob(h, b, id, digest, last, calls).0)
  {
    var all := ReadIfExists(b, calls.get, UploadKey(id));
    if all.Some? && Matches(h, all.value + last, digest) {
      var b1 := PutIf(b, calls.put.Took(), BlobKey(digest), all.value + last);
      assert Addressed(h, b1);
      var b2 := StoreVerified(b, id, digest, all.value + last, calls).0;
      assert b2.data == b1.data || b2.data == b1.data - {UploadKey(id)};
    }
  }

  lemma AddressedStep(h: Hash, b: Backends, op: Op)
    requires Addressed(h, b)
    ensures Addressed(h, Do(h, b, op))
  {
    match op {
      case Release(digests, calls) => ReleaseOnlyDeletes(b, digests, calls);
      case Complete(id, digest, last, calls) => CompleteAddressed(h, b, id, digest, last, calls);
      case _ =>
    }
  }

  /** Whatever backend calls fail, applied or not, and in whatever order operations come: every value the
      store has ever put under a blob key hashes to that key's digest. */
  lemma {:induction false} ContentAddressed(h: Hash, b: Backends, ops: seq<Op>)
    requires Addressed(h, b)
    ensures Addressed(h, DoAll(h, b, ops))
    decreases |ops|
  {
    if ops != [] {
      AddressedStep(h, b, ops[0]);
      ContentAddressed(h, Do(h, b, ops[0]), ops[1..]);
    }
  }

  /** Which is to say: its key is "sha256:" and, in some letter case, the hash of the value. */
  lemma BlobsAreTheirDigests(h: Hash, b: Backends, ops: seq<Op>, d: string)
    requires Addressed(h, b) && BlobKey(d) in DoAll(h, b, ops).data
    ensures |d| >= 7 && d[..7] == "sha256:" && Lower(d[7..]) == h(DoAll(h, b, ops).data[BlobKey(d)])
  {
    ContentAddressed(h, b, ops);
    MatchesMeans(h, DoAll(h, b, ops).data[BlobKey(d)], d);
  }

  lemma {:induction false} FilesVerified(h: Hash, data: map<Key, Bytes>, digests: seq<string>, d: string)
    requires HexHash(h) && d in digests
    requires forall x :: x in digests ==> Fetch(h, data, x).Ok?
    ensures LayoutName(d) in FilesOf(data, digests)
    ensures FilesOf(data, digests)[LayoutName(d)] == Fetch(h, data, d).value
  {
    var n := |digests| - 1;
    var x := digests[n];
    assert Fetch(h, data, x).Ok? && Fetch(h, data, d).Ok?;
    if LayoutName(d) == LayoutName(x) {
      VerifiedNamesDiffer(h, data[BlobKey(d)], d, data[BlobKey(x)], x);
    } else {
      assert digests == digests[..n] + [x];
      FilesVerified(h, data, digests[..n], d);
    }
  }

  // Every required blob of an image that was assembled was there and verified.
  lemma AssembledAreFetched(h: Hash, data: map<Key, Bytes>, mr: ManifestRef, calls: AssembleCalls)
    requires CanAssemble(h, data, mr, calls)
    ensures forall d :: d in Required(mr) ==> Fetch(h, data, d).Ok?
  {
    forall i | 0 <= i < |mr.layerDigests| ensures Fetch(h, data, mr.layerDigests[i]).Ok? {
      assert Placed(h, data, mr.layerDigests[i], Configs(mr) + i, true, calls);
    }
  }

  /** Conversely: when everything the manifest names is there under its own hash and nothing fails, the image
      is assembled. */
  lemma AssemblesWhatIsThere(h: Hash, data: map<Key, Bytes>, mr: ManifestRef, calls: AssembleCalls)
    requires calls.dirs && calls.index && forall k :: calls.fetches(k).Reads? && calls.writes(k)
    requires forall d :: d in mr.layerDigests || (d == mr.configDigest && d != "") ==>
               && |d| >= 7 && d[..7] == "sha256:"
               && BlobKey(d) in data && Lower(d[7..]) == h(data[BlobKey(d)])
    requires forall d :: d in mr.layerDigests ==> calls.unpacks(data[BlobKey(d)])
    ensures CanAssemble(h, data, mr, calls)
  {
    if mr.configDigest != "" { FetchMeans(h, data, mr.configDigest, calls.fetches(0)); }
    forall i | 0 <= i < |mr.layerDigests|
      ensures Placed(h, data, mr.layerDigests[i], Configs(mr) + i, true, calls)
    {
      FetchMeans(h, data, mr.layerDigests[i], calls.fetches(Configs(mr) + i));
    }
  }

  // The manifest's own digest names it among verified digests.
  lemma ManifestMatches(h: Hash, manifest: Bytes)
    requires HexHash(h)
    ensures Matches(h, manifest, "sha256:" + h(manifest))
  {
    var x := h(manifest);
    var md := "sha256:" + x;
    assert md == "sha256" + ":" + x;
    CutJoined("sha256", x);
    LowerHex(x);
  }

  lemma {:induction false} LowerHex(x: string)
    requires forall c :: c in x ==> '0' <= c <= '9' || 'a' <= c <= 'f'
    ensures Lower(x) == x
  {
    if x != "" {
      assert x[0] in x;
      assert forall c :: c in x[1..] ==> c in x;
      LowerHex(x[1..]);
    }
  }

  /** And whatever the blob backend holds, altered behind the store's back included: under the name of each
      required digest the assembled layout holds bytes that hash to that digest, and its index points at
      the manifest's own bytes. */
  lemma LayoutVerified(h: Hash, data: map<Key, Bytes>, mr: ManifestRef, calls: AssembleCalls, d: string)
    requires HexHash(h) && CanAssemble(h, data, mr, calls)
    requires d in mr.layerDigests || (d == mr.configDigest && d != "")
    ensures var layout := LayoutOf(h, data, mr);
            && |d| > 7 && d[..7] == "sha256:" && d[7..] in layout.blobs
            && Lower(d[7..]) == h(layout.blobs[d[7..]])
            && layout.index == "sha256:" + h(mr.manifest)
            && h(mr.manifest) in layout.blobs && layout.blobs[h(mr.manifest)] == mr.manifest
  {
    AssembledAreFetched(h, data, mr, calls);
    FilesVerified(h, data, Required(mr), d);
    var md := "sha256:" + h(mr.manifest);
    ManifestMatches(h, mr.manifest);
    if LayoutName(d) == LayoutName(md) { VerifiedNamesDiffer(h, Fetch(h, data, d).value, d, mr.manifest, md); }
    MatchesMeans(h, Fetch(h, data, d).value, d);
    assert md[7..] == h(mr.manifest);
  }

  /* ---- uploads ---- */

  // The open uploads and the bytes each has so far: what a client believes it is building.
  type Uploads = map<string, Bytes>

  function Staged(b: Backends, id: string): Bytes { if UploadKey(id) in b.data then b.data[UploadKey(id)] else [] }

  function AbsUploads(b: Backends): Uploads { map id | id in b.sessions :: Staged(b, id) }

  // Offsets are lengths, and no staged bytes are left without a session.
  ghost predicate UploadsOk(b: Backends) {
    && (forall id :: id in b.sessions ==> b.sessions[id] == |Staged(b, id)|)
    && (forall id :: UploadKey(id) in b.data ==> id in b.sessions)
  }

  // Every backend call works, and an upload ID is never issued while it is in use.
  ghost predicate Smooth(b: Backends, op: Op) {
    match op
    case Begin(id, call) => call.Works? && id !in b.sessions
    case Write(_, _, _, calls) => calls == SMOOTH_WRITE
    case Complete(_, _, _, calls) => calls == SMOOTH_COMPLETE
    case Abandon(_, delete, clear) => delete.Works? && clear.Works?
    case Release(_, calls) => forall i :: calls(i) == ReleaseCalls(Works, Works)
  }

  datatype Reply = Fine | Next(offset: int) | Refused(error: Error)

  function ReplyTo(h: Hash, b: Backends, op: Op): Reply {
    match op
    case Write(id, offset, buf, calls) =>
      (match StagingSpec.WriteChunk(b, id, offset, buf, calls).1 case Ok(n) => Next(n) case Err(e) => Refused(e))
    case Complete(id, digest, last, calls) =>
      (match CompleteBlob(h, b, id, digest, last, calls).1 case None => Fine case Some(e) => Refused(e))
    case _ => Fine
  }

  // The same operation on what the client believes.
  function OnUploads(h: Hash, u: Uploads, op: Op): (Uploads, Reply) {
    match op
    case Begin(id, _) => (u[id := []], Fine)
    case Write(id, offset, buf, _) =>
      if id !in u then (u, Refused(NoSuchUpload))
      else if offset != |u[id]| then (u, Refused(OutOfOrder))
      else (u[id := u[id] + buf], Next(|u[id]| + |buf|))
    case Complete(id, digest, last, _) =>
      var all := (if id in u then u[id] else []) + last;
      if |digest| >= 7 && digest[..7] == "sha256:" && Lower(digest[7..]) == h(all) then (u - {id}, Fine)
      else (u, Refused(Mismatch))
    case Abandon(id, _, _) => (u - {id}, Fine)
    case Release(_, _) => (u, Fine)
  }

  lemma {:induction false} ReleaseSparesUploads(b: Backends, digests: seq<string>, calls: nat -> ReleaseCalls)
    ensures var r := ReleaseAll(b, digests, calls);
            && r.sessions == b.sessions && r.complete == b.complete
            && forall id :: (UploadKey(id) in r.data <==> UploadKey(id) in b.data) && Staged(r, id) == Staged(b, id)
  {
    if digests != [] { ReleaseSparesUploads(b, digests[..|digests| - 1], calls); }
  }

  // What one operation on the store owes the client's view of it.
  ghost predicate Refines(h: Hash, b: Backends, op: Op) {
    && UploadsOk(Do(h, b, op))
    && (AbsUploads(Do(h, b, op)), ReplyTo(h, b, op)) == OnUploads(h, AbsUploads(b), op)
    && (ReplyTo(h, b, op).Refused? ==> Do(h, b, op) == b)
  }

  lemma WriteStep(b: Backends, id: string, offset: int, buf: Bytes)
    requires UploadsOk(b)
    ensures var (b1, r) := StagingSpec.WriteChunk(b, id, offset, buf, SMOOTH_WRITE);
            && UploadsOk(b1)
            && (r.Ok? <==> id in b.sessions && offset == |Staged(b, id)|)
            && (r.Ok? ==> r.value == offset + |buf| && AbsUploads(b1) == AbsUploads(b)[id := Staged(b, id) + buf])
            && (r.Err? ==> b1 == b && r.error == if id in b.sessions then OutOfOrder else NoSuchUpload)
  {
    var (b1, r) := StagingSpec.WriteChunk(b, id, offset, buf, SMOOTH_WRITE);
    if r.Ok? {
      assert Staged(b1, id) == Staged(b, id) + buf;
      forall other | other != id ensures Staged(b1, other) == Staged(b, other) {}
      assert AbsUploads(b1) == AbsUploads(b)[id := Staged(b, id) + buf];
    }
  }

  lemma CompleteVerified(h: Hash, b: Backends, id: string, digest: string, last: Bytes)
    requires UploadsOk(b)
    ensures var (b1, e) := CompleteBlob(h, b, id, digest, last, SMOOTH_COMPLETE);
            var all := Staged(b, id) + last;
            && UploadsOk(b1)
            && (e.None? <==> Matches(h, all, digest))
            && (e.Some? ==> b1 == b && e == Some(Mismatch))
            && (e.None? ==> AbsUploads(b1) == AbsUploads(b) - {id} && b1.complete == b.complete + {digest}
                            && BlobKey(digest) in b1.data && b1.data[BlobKey(digest)] == all)
  {
    var (b1, e) := CompleteBlob(h, b, id, digest, last, SMOOTH_COMPLETE);
    if e.None? {
      forall other | other != id ensures Staged(b1, other) == Staged(b, other) {}
      assert AbsUploads(b1) == AbsUploads(b) - {id};
    }
  }

  lemma CompleteStep(h: Hash, b: Backends, id: string, digest: string, last: Bytes)
    requires UploadsOk(b)
    ensures var (b1, e) := CompleteBlob(h, b, id, digest, last, SMOOTH_COMPLETE);
            var all := Staged(b, id) + last;
            && UploadsOk(b1)
            && (e.None? <==> |digest| >= 7 && digest[..7] == "sha256:" && Lower(digest[7..]) == h(all))
            && (e.Some? ==> b1 == b && e == Some(Mismatch))
            && (e.None? ==> AbsUploads(b1) == AbsUploads(b) - {id} && b1.complete == b.complete + {digest}
                            && BlobKey(digest) in b1.data && b1.data[BlobKey(digest)] == all)
  {
    CompleteVerified(h, b, id, digest, last);
    MatchesMeans(h, Staged(b, id) + last, digest);
  }

  // Counters after `digest` may have been counted once more.
  ghost predicate OneMoreCount(b: Backends, b1: Backends, digest: string) {
    && digest in b1.refs && b1.refs[digest] == (if digest in b.refs then b.refs[digest] else 0) + 1
    && b1.refs - {digest} == b.refs - {digest}
  }

  lemma StoreOrder(b: Backends, id: string, digest: string, all: Bytes, calls: CompleteCalls)
    ensures var (b1, e) := StoreVerified(b, id, digest, all, calls);
            && (b1.complete != b.complete ==>
                  b1.complete == b.complete + {digest} && BlobKey(digest) in b1.data && b1.data[BlobKey(digest)] == all)
            && (b1.refs != b.refs ==> digest in b1.complete && OneMoreCount(b, b1, digest))
            && (e.Some? ==> b1.sessions == b.sessions && Staged(b1, id) == Staged(b, id))
            && (e.None? ==> OneMoreCount(b, b1, digest))
  {
  }

  /** Whatever fails, applied or not: a digest is flagged only once bytes with that hash are stored under it,
      counted only once it is flagged, and a client that gets an error still has its upload to try again. */
  lemma CompleteOrder(h: Hash, b: Backends, id: string, digest: string, last: Bytes, calls: CompleteCalls)
    ensures var (b1, e) := CompleteBlob(h, b, id, digest, last, calls);
            && (b1.complete != b.complete ==>
                  && b1.complete == b.complete + {digest} && BlobKey(digest) in b1.data
                  && |digest| >= 7 && digest[..7] == "sha256:" && Lower(digest[7..]) == h(b1.data[BlobKey(digest)]))
            && (b1.refs != b.refs ==> digest in b1.complete && OneMoreCount(b, b1, digest))
            && (e.Some? ==> b1.sessions == b.sessions && Staged(b1, id) == Staged(b, id))
            && (e.None? ==> OneMoreCount(b, b1, digest))
  {
    var existing := ReadIfExists(b, calls.get, UploadKey(id));
    if existing.Some? {
      MatchesMeans(h, existing.value + last, digest);
      StoreOrder(b, id, digest, existing.value + last, calls);
    }
  }

  lemma BeginRefines(h: Hash, b: Backends, op: Op)
    requires UploadsOk(b) && Smooth(b, op) && op.Begin?
    ensures Refines(h, b, op)
  {
    assert AbsUploads(Do(h, b, op)) == AbsUploads(b)[op.id := []];
  }

  lemma AbandonRefines(h: Hash, b: Backends, op: Op)
    requires UploadsOk(b) && Smooth(b, op) && op.Abandon?
    ensures Refines(h, b, op)
  {
    var b1 := Do(h, b, op);
    forall other | other != op.id ensures Staged(b1, other) == Staged(b, other) {}
    assert AbsUploads(b1) == AbsUploads(b) - {op.id};
  }

  lemma ReleaseStep(h: Hash, b: Backends, op: Op)
    requires UploadsOk(b) && op.Release?
    ensures Refines(h, b, op)
  {
    ReleaseSparesUploads(b, op.digests, op.rcalls);
    assert AbsUploads(Do(h, b, op)) == AbsUploads(b);
  }

  lemma WriteRefines(h: Hash, b: Backends, op: Op)
    requires UploadsOk(b) && op.Write? && Smooth(b, op)
    ensures Refines(h, b, op)
  {
    WriteStep(b, op.id, op.offset, op.buf);
  }

  lemma CompleteRefines(h: Hash, b: Backends, op: Op)
    requires UploadsOk(b) && op.Complete? && Smooth(b, op)
    ensures Refines(h, b, op)
  {
    CompleteStep(h, b, op.id, op.digest, op.last);
  }

  /** One operation on the store is one operation on the client's view, with the same answer: a chunk is
      accepted exactly at the current length and then appended, a refused one changes nothing, and
      completion succeeds exactly when everything accepted plus the last chunk hashes to the digest. */
  lemma UploadStep(h: Hash, b: Backends, op: Op)
    requires UploadsOk(b) && Smooth(b, op)
    ensures Refines(h, b, op)
  {
    if op.Release? {
      ReleaseStep(h, b, op);
    } else if op.Write? {
      WriteRefines(h, b, op);
    } else if op.Complete? {
      CompleteRefines(h, b, op);
    } else if op.Begin? {
      BeginRefines(h, b, op);
    } else {
      AbandonRefines(h, b, op);
    }
  }

  ghost predicate SmoothRun(h: Hash, b: Backends, ops: seq<Op>)
    decreases |ops|
  {
    ops == [] || (Smooth(b, ops[0]) && SmoothRun(h, Do(h, b, ops[0]), ops[1..]))
  }

  function Replies(h: Hash, b: Backends, ops: seq<Op>): seq<Reply>
    decreases |ops|
  {
    if ops == [] then [] else [ReplyTo(h, b, ops[0])] + Replies(h, Do(h, b, ops[0]), ops[1..])
  }

  function UploadsAfter(h: Hash, u: Uploads, ops: seq<Op>): (Uploads, seq<Reply>)
    decreases |ops|
  {
    if ops == [] then (u, [])
    else
      var (u1, r) := OnUploads(h, u, ops[0]);
      var (u2, rs) := UploadsAfter(h, u1, ops[1..]);
      (u2, [r] + rs)
  }

  /** Over a whole run with working backends and fresh upload IDs, the store answers every request, and
      ends up with every open upload, exactly as the client's own view of its uploads says. */
  lemma {:induction false} UploadsRefined(h: Hash, b: Backends, ops: seq<Op>)
    requires UploadsOk(b) && SmoothRun(h, b, ops)
    ensures UploadsOk(DoAll(h, b, ops))
    ensures UploadsAfter(h, AbsUploads(b), ops) == (AbsUploads(DoAll(h, b, ops)), Replies(h, b, ops))
    decreases |ops|
  {
    if ops != [] {
      UploadStep(h, b, ops[0]);
      UploadsRefined(h, Do(h, b, ops[0]), ops[1..]);
    }
  }

  /** From a store with nothing in it: offsets are the lengths of what is staged after every run of working
      backends, and every blob is under its own digest after every run whatsoever. */
  lemma FromEmpty(h: Hash, ops: seq<Op>)
    ensures forall d :: BlobKey(d) in DoAll(h, EMPTY, ops).data ==>
              |d| >= 7 && d[..7] == "sha256:" && Lower(d[7..]) == h(DoAll(h, EMPTY, ops).data[BlobKey(d)])
    ensures SmoothRun(h, EMPTY, ops) ==>
              UploadsOk(DoAll(h, EMPTY, ops)) && UploadsAfter(h, map[], ops).0 == AbsUploads(DoAll(h, EMPTY, ops))
  {
    forall d | BlobKey(d) in DoAll(h, EMPTY, ops).data
      ensures |d| >= 7 && d[..7] == "sha256:" && Lower(d[7..]) == h(DoAll(h, EMPTY, ops).data[BlobKey(d)])
    {
      BlobsAreTheirDigests(h, EMPTY, ops, d);
    }
    if SmoothRun(h, EMPTY, ops) {
      assert AbsUploads(EMPTY) == map[];
      UploadsRefined(h, EMPTY, ops);
    }
  }

  // The chunks of one upload that were accepted, put together.
  function AcceptedBytes(id: string, ops: seq<Op>, replies: seq<Reply>): Bytes
    requires |ops| == |replies|
    decreases |ops|
  {
    if ops == [] then []
    else
      (if ops[0].Write? && ops[0].id == id && replies[0].Next? then ops[0].buf else [])
      + AcceptedBytes(id, ops[1..], replies[1..])
  }

  ghost predicate LeavesOpen(id: string, op: Op) {
    !(op.Begin? && op.id == id) && !(op.Complete? && op.id == id) && !(op.Abandon? && op.id == id)
  }

  lemma {:induction false} RepliesLength(h: Hash, u: Uploads, ops: seq<Op>)
    ensures |UploadsAfter(h, u, ops).1| == |ops|
    decreases |ops|
  {
    if ops != [] { RepliesLength(h, OnUploads(h, u, ops[0]).0, ops[1..]); }
  }

  /** While an upload stays open its bytes are what it had plus the accepted chunks in order, whatever
      other uploads, completions and cleanups happen in between. */
  lemma {:induction false} UploadIsConcatenation(h: Hash, u: Uploads, ops: seq<Op>, id: string)
    requires id in u && forall op :: op in ops ==> LeavesOpen(id, op)
    ensures |UploadsAfter(h, u, ops).1| == |ops|
    ensures id in UploadsAfter(h, u, ops).0
    ensures UploadsAfter(h, u, ops).0[id] == u[id] + AcceptedBytes(id, ops, UploadsAfter(h, u, ops).1)
    decreases |ops|
  {
    RepliesLength(h, u, ops);
    if ops != [] {
      assert LeavesOpen(id, ops[0]);
      var u1 := OnUploads(h, u, ops[0]).0;
      UploadIsConcatenation(h, u1, ops[1..], id);
      var rs := UploadsAfter(h, u, ops).1;
      assert rs[1..] == UploadsAfter(h, u1, ops[1..]).1;
      var own := if ops[0].Write? && ops[0].id == id && rs[0].Next? then ops[0].buf else [];
      assert u1[id] == u[id] + own;
      assert u[id] + (own + AcceptedBytes(id, ops[1..], rs[1..])) == u1[id] + AcceptedBytes(id, ops[1..], rs[1..]);
    }
  }

  /* ---- reference counts ---- */

  // The counters and the blobs agree with the outstanding holds.
  ghost predicate CountsHolds(b: Backends, held: multiset<string>) {
    && (forall d :: d in b.refs <==> held[d] > 0)
    && (forall d :: d in b.refs ==> b.refs[d] == held[d])
    && (forall d :: BlobKey(d) in b.data <==> held[d] > 0)
  }

  lemma ReleaseOneCounts(b: Backends, held: multiset<string>, d: string)
    requires CountsHolds(b, held)
    ensures CountsHolds(ReleaseOne(b, d, ReleaseCalls(Works, Works)), held - multiset{d})
  {
  }

  lemma {:induction false} ReleaseCounts(b: Backends, held: multiset<string>, digests: seq<string>,
        calls: nat -> ReleaseCalls)
    requires CountsHolds(b, held) && forall i :: calls(i) == ReleaseCalls(Works, Works)
    ensures CountsHolds(ReleaseAll(b, digests, calls), held - multiset(digests))
  {
    if digests == [] {
      assert held - multiset(digests) == held;
    } else {
      var n := |digests| - 1;
      var before := ReleaseAll(b, digests[..n], calls);
      ReleaseCounts(b, held, digests[..n], calls);
      ReleaseOneCounts(before, held - multiset(digests[..n]), digests[n]);
      assert ReleaseAll(b, digests, calls) == ReleaseOne(before, digests[n], ReleaseCalls(Works, Works));
      assert held - multiset(digests) == held - multiset(digests[..n]) - multiset{digests[n]} by {
        assert digests == digests[..n] + [digests[n]];
      }
    }
  }

  /** Cleanup, for every list of digests: it takes each one off the holds as often as it is listed, and a
      blob is left exactly if it is held more often than it was listed. A digest nobody holds costs
      nothing: its missing counter is an error, and the blob store is not touched. */
  lemma CleanupCounts(b: Backends, held: multiset<string>, digests: seq<string>, calls: nat -> ReleaseCalls)
    requires CountsHolds(b, held) && forall i :: calls(i) == ReleaseCalls(Works, Works)
    ensures CountsHolds(ReleaseAll(b, digests, calls), held - multiset(digests))
    ensures forall d :: BlobKey(d) in ReleaseAll(b, digests, calls).data <==> held[d] > multiset(digests)[d]
  {
    ReleaseCounts(b, held, digests, calls);
  }

  /** A finished push gives back each layer as often as its manifest lists it, and its config once if it has
      one: the counter drops by that much, and the blob goes exactly if nothing is left. */
  lemma CleanupGivesBack(b: Backends, held: multiset<string>, mr: ManifestRef, calls: nat -> ReleaseCalls, d: string)
    requires CountsHolds(b, held) && forall i :: calls(i) == ReleaseCalls(Works, Works)
    ensures var after := ReleaseAll(b, ToRelease(mr), calls);
            var listed := multiset(mr.layerDigests)[d] + if d == mr.configDigest && d != "" then 1 else 0;
            && (BlobKey(d) in after.data <==> held[d] > listed)
            && (d in after.refs <==> held[d] > listed)
            && (held[d] > listed ==> after.refs[d] == held[d] - listed)
  {
    CleanupCounts(b, held, ToRelease(mr), calls);
  }

  /** And one release, whatever fails: a blob is deleted only on a count that was read and has run out. An
      unknown count leaks the blob. */
  lemma LeaksOnUnknownCount(b: Backends, d: string, calls: ReleaseCalls, x: string)
    requires BlobKey(x) in b.data
    ensures BlobKey(x) !in ReleaseOne(b, d, calls).data <==>
              x == d && calls.dec.Works? && d in b.refs && b.refs[d] <= 1 && calls.delete.Took()
  {
  }

  /** So what a push releases spares every blob others hold exactly when no such blob is listed as often
      as everyone together holds it; listing no digest more often than the push itself holds it is
      enough, and listing one layer twice after uploading it once is not. */
  lemma CleanupSparesOthers(b: Backends, mine: multiset<string>, others: multiset<string>,
        digests: seq<string>, calls: nat -> ReleaseCalls)
    requires CountsHolds(b, mine + others) && forall i :: calls(i) == ReleaseCalls(Works, Works)
    ensures (forall d :: others[d] > 0 ==> BlobKey(d) in ReleaseAll(b, digests, calls).data)
       <==> (forall d :: others[d] > 0 ==> multiset(digests)[d] < mine[d] + others[d])
    ensures multiset(digests) <= mine ==>
              CountsHolds(ReleaseAll(b, digests, calls), (mine - multiset(digests)) + others)
  {
    CleanupCounts(b, mine + others, digests, calls);
    if multiset(digests) <= mine {
      assert mine + others - multiset(digests) == (mine - multiset(digests)) + others;
    }
  }

  lemma LayerListedTwice(b: Backends, d: string, calls: nat -> ReleaseCalls)
    requires CountsHolds(b, multiset{d} + multiset{d}) && forall i :: calls(i) == ReleaseCalls(Works, Works)
    ensures BlobKey(d) in b.data && BlobKey(d) !in ReleaseAll(b, [d, d], calls).data
  {
    CleanupCounts(b, multiset{d, d}, [d, d], calls);
    assert multiset([d, d]) == multiset{d, d};
  }

  lemma CompleteCounts(h: Hash, b: Backends, held: multiset<string>, id: string, digest: string, last: Bytes)
    requires CountsHolds(b, held)
    ensures var (b1, e) := CompleteBlob(h, b, id, digest, last, SMOOTH_COMPLETE);
            CountsHolds(b1, if e.None? then held + multiset{digest} else held)
  {
  }

  // An operation, and whether it belongs to the push being watched.
  datatype Owned = Owned(op: Op, own: bool)

  // The holds of the watched push and of all others.
  datatype Ledger = Ledger(mine: multiset<string>, others: multiset<string>)

  ghost function Book(h: Hash, b: Backends, l: Ledger, o: Owned): Ledger {
    match o.op
    case Complete(_, digest, _, _) =>
      if ReplyTo(h, b, o.op).Refused? then l
      else if o.own then l.(mine := l.mine + multiset{digest}) else l.(others := l.others + multiset{digest})
    case Release(digests, _) =>
      if o.own then l.(mine := l.mine - multiset(digests)) else l.(others := l.others - multiset(digests))
    case _ => l
  }

  // A cleanup lists no digest more often than its own side holds it.
  ghost predicate Fair(l: Ledger, o: Owned) {
    o.op.Release? ==> multiset(o.op.digests) <= if o.own then l.mine else l.others
  }

  ghost predicate FairRun(h: Hash, b: Backends, l: Ledger, os: seq<Owned>)
    decreases |os|
  {
    os == [] || (Smooth(b, os[0].op) && Fair(l, os[0]) && FairRun(h, Do(h, b, os[0].op), Book(h, b, l, os[0]), os[1..]))
  }

  ghost function Ends(h: Hash, b: Backends, l: Ledger, os: seq<Owned>): (Backends, Ledger)
    decreases |os|
  {
    if os == [] then (b, l) else Ends(h, Do(h, b, os[0].op), Book(h, b, l, os[0]), os[1..])
  }

  lemma FairRelease(h: Hash, b: Backends, l: Ledger, o: Owned)
    requires CountsHolds(b, l.mine + l.others) && Smooth(b, o.op) && Fair(l, o) && o.op.Release?
    ensures var l1 := Book(h, b, l, o); CountsHolds(Do(h, b, o.op), l1.mine + l1.others)
  {
    var ds := multiset(o.op.digests);
    CleanupCounts(b, l.mine + l.others, o.op.digests, o.op.rcalls);
    assert o.own ==> l.mine + l.others - ds == (l.mine - ds) + l.others;
    assert !o.own ==> l.mine + l.others - ds == l.mine + (l.others - ds);
  }

  lemma FairComplete(h: Hash, b: Backends, l: Ledger, o: Owned)
    requires CountsHolds(b, l.mine + l.others) && Smooth(b, o.op) && o.op.Complete?
    ensures var l1 := Book(h, b, l, o); CountsHolds(Do(h, b, o.op), l1.mine + l1.others)
  {
    var d := multiset{o.op.digest};
    CompleteCounts(h, b, l.mine + l.others, o.op.id, o.op.digest, o.op.last);
    assert l.mine + l.others + d == (l.mine + d) + l.others == l.mine + (l.others + d);
  }

  lemma FairStep(h: Hash, b: Backends, l: Ledger, o: Owned)
    requires CountsHolds(b, l.mine + l.others) && Smooth(b, o.op) && Fair(l, o)
    ensures var l1 := Book(h, b, l, o); CountsHolds(Do(h, b, o.op), l1.mine + l1.others)
  {
    if o.op.Complete? {
      FairComplete(h, b, l, o);
    } else if o.op.Release? {
      FairRelease(h, b, l, o);
    }
  }

  /** Over every such run, the counter of a digest is the number of holds on it, and whatever the watched
      push still holds is there: no cleanup of anyone else has deleted it. */
  lemma {:induction false} HoldsKeepBlobs(h: Hash, b: Backends, l: Ledger, os: seq<Owned>)
    requires CountsHolds(b, l.mine + l.others) && FairRun(h, b, l, os)
    ensures var (b1, l1) := Ends(h, b, l, os);
            && CountsHolds(b1, l1.mine + l1.others)
            && forall d :: l1.mine[d] > 0 ==> BlobKey(d) in b1.data && d in b1.refs && b1.refs[d] >= l1.mine[d]
    decreases |os|
  {
    if os != [] {
      FairStep(h, b, l, os[0]);
      HoldsKeepBlobs(h, Do(h, b, os[0].op), Book(h, b, l, os[0]), os[1..]);
    }
  }

  /** Cleanup's decrement and its delete are two calls. When another push completes the same blob between
      them, the late delete takes it away: counted once, held once, and gone. */
  lemma DeleteAfterSomeoneCompletes(h: Hash, b: Backends, d: string, id: string, all: Bytes)
    requires CountsHolds(b, multiset{d}) && Matches(h, all, d) && UploadKey(id) !in b.data
    ensures var (b1, left) := DecRef(b, d);
            var (b2, e) := CompleteBlob(h, b1, id, d, all, SMOOTH_COMPLETE);
            var b3 := DeleteIf(b2, true, BlobKey(d));
            && left == Some(0) && e.None?
            && d in b3.refs && b3.refs[d] == 1 && BlobKey(d) !in b3.data
  {
    assert [] + all == all;
  }
}
