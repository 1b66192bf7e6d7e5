/** What each staging operation does to the two backends (internal/staging/staging.go, memory.go and
    assemble.go), with every backend call free to fail, applied or not. */
module StagingSpec {
  import opened Basics
  import opened Digests

  // What the two backends hold.
  datatype Backends = Backends(
    data: map<Key, Bytes>,        // blob store
    sessions: map<string, int>,      // upload ID -> offset
    complete: set<string>,
    refs: map<string, nat>)

  const EMPTY := Backends(map[], map[], {}, map[])

  // How reading a value goes: it works, the lookup fails, or the bytes stop part-way.
  datatype Read = Reads | Refuses | Breaks

  datatype Error = NoSuchUpload | OutOfOrder | Mismatch | Backend | Incomplete | Missing(key: Key) | Unpack

  // The calls one operation makes, in the order it makes them.
  datatype WriteCalls = WriteCalls(cas: Call, get: Read, put: Call)
  datatype CompleteCalls = CompleteCalls(get: Read, put: Call, mark: Call, inc: Call, delete: Call, clear: Call)
  datatype ReleaseCalls = ReleaseCalls(dec: Call, delete: Call)

  const SMOOTH_WRITE := WriteCalls(Works, Reads, Works)
  const SMOOTH_COMPLETE := CompleteCalls(Reads, Works, Works, Works, Works, Works)

  function PutIf(b: Backends, took: bool, key: Key, v: Bytes): Backends {
    if took then b.(data := b.data[key := v]) else b
  }

  function DeleteIf(b: Backends, took: bool, key: Key): Backends {
    if took then b.(data := b.data - {key}) else b
  }

  // A failed lookup is treated as nothing staged yet; bytes that stop part-way are an error.
  function ReadIfExists(b: Backends, read: Read, key: Key): Option<Bytes> {
    if read.Refuses? || key !in b.data then Some([])
    else if read.Breaks? then None
    else Some(b.data[key])
  }

  function Begin(b: Backends, id: string, call: Call): Backends {
    if call.Took() then b.(sessions := b.sessions[id := 0]) else b
  }

  function WriteChunk(b: Backends, id: string, offset: int, buf: Bytes, calls: WriteCalls): (Backends,
        Result<int, Error>) {
    if id !in b.sessions then (b, Err(NoSuchUpload))
    else if b.sessions[id] != offset then (b, Err(if calls.cas.Works? then OutOfOrder else Backend))
    else
      var next := offset + |buf|;
      var b1 := if calls.cas.Took() then b.(sessions := b.sessions[id := next]) else b;
      if calls.cas.Fails? then (b1, Err(Backend))
      else match ReadIfExists(b1, calls.get, UploadKey(id))
        case None => (b1, Err(Backend))
        case Some(existing) =>
          (PutIf(b1, calls.put.Took(), UploadKey(id), existing + buf),
           if calls.put.Works? then Ok(next) else Err(Backend))
  }

  function IncRef(b: Backends, digest: string): Backends {
    b.(refs := b.refs[digest := if digest in b.refs then b.refs[digest] + 1 else 1])
  }

  function CompleteBlob(h: Hash, b: Backends, id: string, digest: string, last: Bytes, calls: CompleteCalls):
    (Backends, Option<Error>)
  {
    match ReadIfExists(b, calls.get, UploadKey(id))
    case None => (b, Some(Backend))
    case Some(existing) =>
      if Matches(h, existing + last, digest) then StoreVerified(b, id, digest, existing + last, calls)
      else (b, Some(Mismatch))
  }

  // The steps once the bytes have been verified.
  function StoreVerified(b: Backends, id: string, digest: string, all: Bytes, calls: CompleteCalls): (Backends,
        Option<Error>) {
    var b1 := PutIf(b, calls.put.Took(), BlobKey(digest), all);
    if calls.put.Fails? then (b1, Some(Backend))
    else
      var b2 := if calls.mark.Took() then b1.(complete := b1.complete + {digest}) else b1;
      if calls.mark.Fails? then (b2, Some(Backend))
      else
        var b3 := if calls.inc.Took() then IncRef(b2, digest) else b2;
        if calls.inc.Fails? then (b3, Some(Backend))
        else
          var b4 := DeleteIf(b3, calls.delete.Took(), UploadKey(id));
          (if calls.clear.Took() then b4.(sessions := b4.sessions - {id}) else b4, None)
  }

  function Abandon(b: Backends, id: string, delete: Call, clear: Call): Backends {
    var b1 := DeleteIf(b, delete.Took(), UploadKey(id));
    if clear.Took() then b1.(sessions := b1.sessions - {id}) else b1
  }

  // DecBlobRef: None when the counter is missing, which means unknown, not zero.
  function DecRef(b: Backends, digest: string): (Backends, Option<nat>) {
    if digest !in b.refs then (b, None)
    else if b.refs[digest] <= 1 then (b.(refs := b.refs - {digest}), Some(0))
    else (b.(refs := b.refs[digest := b.refs[digest] - 1]), Some(b.refs[digest] - 1))
  }

  function ReleaseOne(b: Backends, digest: string, calls: ReleaseCalls): Backends {
    var (b1, left) := if calls.dec.Took() then DecRef(b, digest) else (b, None);
    if calls.dec.Fails? || left.None? || left.value > 0 then b1
    else DeleteIf(b1, calls.delete.Took(), BlobKey(digest))
  }

  function ReleaseAll(b: Backends, digests: seq<string>, calls: nat -> ReleaseCalls): Backends {
    if digests == [] then b
    else ReleaseOne(ReleaseAll(b, digests[..|digests| - 1], calls), digests[|digests| - 1], calls(|digests| - 1))
  }

  datatype ManifestRef
    = ManifestRef(repo: string, ref: string, manifest: Bytes, configDigest: string, layerDigests: seq<string>)

  function ToRelease(mr: ManifestRef): seq<string> {
    if mr.configDigest != "" then mr.layerDigests + [mr.configDigest] else mr.layerDigests
  }

  function Required(mr: ManifestRef): seq<string> {
    if mr.configDigest != "" then [mr.configDigest] + mr.layerDigests else mr.layerDigests
  }

  // fetchVerified, whatever the blob store now holds.
  function Fetch(h: Hash, data: map<Key, Bytes>, digest: string): Result<Bytes, Error> {
    if BlobKey(digest) !in data then Err(Missing(BlobKey(digest)))
    else if Matches(h, data[BlobKey(digest)], digest) then Ok(data[BlobKey(digest)])
    else Err(Mismatch)
  }

  // The same with the lookup or the reading free to fail.
  function FetchWith(h: Hash, data: map<Key, Bytes>, digest: string, read: Read): Result<Bytes, Error> {
    if read.Refuses? then Err(Backend)
    else if read.Breaks? && BlobKey(digest) in data then Err(Backend)
    else Fetch(h, data, digest)
  }

  /** Only bytes that are there, were read to the end and hash to the digest are ever returned. */
  lemma FetchMeans(h: Hash, data: map<Key, Bytes>, digest: string, read: Read)
    ensures var r := FetchWith(h, data, digest, read);
            && (r.Ok? <==>
                  && read.Reads? && BlobKey(digest) in data
                  && |digest| >= 7 && digest[..7] == "sha256:" && Lower(digest[7..]) == h(data[BlobKey(digest)]))
            && (r.Ok? ==> r.value == data[BlobKey(digest)])
            && (r.Err? ==> r.error == if read.Refuses? || (read.Breaks? && BlobKey(digest) in data) then Backend
                                      else if BlobKey(digest) in data then Mismatch else Missing(BlobKey(digest)))
  {
    if BlobKey(digest) in data { MatchesMeans(h, data[BlobKey(digest)], digest); }
  }

  // How assembling goes: the directories, the k-th blob's reading and writing (the manifest's last), the
  // unpacking of a layer, and the layout's marker and index.
  datatype AssembleCalls
    = AssembleCalls(dirs: bool, fetches: nat -> Read, writes: nat -> bool, unpacks: Bytes -> bool, index: bool)

  // A layout directory: file name under blobs/sha256 -> bytes, and what index.json points at.
  datatype Layout = Layout(blobs: map<string, Bytes>, index: string)

  // The files written for these digests, in order.
  function FilesOf(data: map<Key, Bytes>, digests: seq<string>): map<string, Bytes> {
    if digests == [] then map[]
    else
      var d := digests[|digests| - 1];
      FilesOf(data, digests[..|digests| - 1])[LayoutName(d) := if BlobKey(d) in data then data[BlobKey(d)] else []]
  }

  function LayoutOf(h: Hash, data: map<Key, Bytes>, mr: ManifestRef): Layout {
    var md := "sha256:" + h(mr.manifest);
    Layout(FilesOf(data, Required(mr))[LayoutName(md) := mr.manifest], md)
  }

  lemma FilesOfSnoc(data: map<Key, Bytes>, done: seq<string>, d: string)
    ensures FilesOf(data, done + [d]) ==
            FilesOf(data, done)[LayoutName(d) := if BlobKey(d) in data then data[BlobKey(d)] else []]
  {
    assert (done + [d])[..|done|] == done;
  }

  lemma FilesOfLayer(data: map<Key, Bytes>, done: seq<string>, layers: seq<string>, i: nat)
    requires i < |layers|
    ensures FilesOf(data, done + layers[..i + 1]) ==
            FilesOf(data, done + layers[..i])[LayoutName(layers[i]) :=
                if BlobKey(layers[i]) in data then data[BlobKey(layers[i])] else []]
  {
    FilesOfSnoc(data, done + layers[..i], layers[i]);
    assert done + layers[..i + 1] == done + layers[..i] + [layers[i]];
  }

  // The k-th required blob is there, verifies, is written, and unpacks if it is a layer.
  predicate Placed(h: Hash, data: map<Key, Bytes>, d: string, k: nat, layer: bool, calls: AssembleCalls) {
    var raw := FetchWith(h, data, d, calls.fetches(k));
    raw.Ok? && calls.writes(k) && (layer ==> calls.unpacks(raw.value))
  }

  // All layers are placed, the first of them as the blob numbered `first`.
  predicate LayersPlaced(h: Hash, data: map<Key, Bytes>, layers: seq<string>, first: nat, calls: AssembleCalls) {
    forall i :: 0 <= i < |layers| ==> Placed(h, data, layers[i], first + i, true, calls)
  }

  lemma LayersPlacedSnoc(h: Hash, data: map<Key, Bytes>, layers: seq<string>, first: nat, calls: AssembleCalls, i: nat)
    requires i < |layers|
    ensures LayersPlaced(h, data, layers[..i + 1], first, calls) <==>
            LayersPlaced(h, data, layers[..i], first, calls) && Placed(h, data, layers[i], first + i, true, calls)
    ensures LayersPlaced(h, data, layers, first, calls) ==> Placed(h, data, layers[i], first + i, true, calls)
  {
    assert layers[..i + 1] == layers[..i] + [layers[i]];
    if LayersPlaced(h, data, layers[..i + 1], first, calls) {
      forall k | 0 <= k < i ensures Placed(h, data, layers[..i][k], first + k, true, calls) {
        assert layers[..i + 1][k] == layers[k];
      }
      assert layers[..i + 1][i] == layers[i];
    }
  }

  function Configs(mr: ManifestRef): nat { if mr.configDigest != "" then 1 else 0 }

  predicate CanAssemble(h: Hash, data: map<Key, Bytes>, mr: ManifestRef, calls: AssembleCalls) {
    && calls.dirs && calls.index && calls.writes(|Required(mr)|)
    && (mr.configDigest != "" ==> Placed(h, data, mr.configDigest, 0, false, calls))
    && LayersPlaced(h, data, mr.layerDigests, Configs(mr), calls)
  }
}
