/** The staging store over its in-memory backends (internal/staging/staging.go, memory.go and
    assemble.go): chunked uploads, content-addressed blobs and reference-counted cleanup. */
module Staging {
  import opened Basics
  import opened Digests
  import opened StagingSpec

  class MemoryBlobs {
    var data: map<Key, Bytes>

    constructor ()
      ensures data == map[]
    {
      data := map[];
    }

    method Put(key: Key, v: Bytes, call: Call) returns (ok: bool)
      modifies this
      ensures data == (if call.Took() then old(data)[key := v] else old(data)) && ok == call.Works?
    {
      if call.Took() { data := data[key := v]; }
      ok := call.Works?;
    }

    method Get(key: Key) returns (r: Result<Bytes, Error>)
      ensures r == if key in data then Ok(data[key]) else Err(Missing(key))
    {
      if key !in data { return Err(Missing(key)); }
      return Ok(data[key]);
    }

    method Delete(key: Key, call: Call)
      modifies this
      ensures data == if call.Took() then old(data) - {key} else old(data)
    {
      if call.Took() { data := data - {key}; }
    }
  }

  class MemorySessions {
    var sessions: map<string, int>
    var complete: set<string>
    var refs: map<string, nat>

    constructor ()
      ensures sessions == map[] && complete == {} && refs == map[]
    {
      sessions, complete, refs := map[], {}, map[];
    }

    method Begin(id: string, call: Call) returns (ok: bool)
      modifies this`sessions
      ensures sessions == (if call.Took() then old(sessions)[id := 0] else old(sessions)) && ok == call.Works?
    {
      if call.Took() { sessions := sessions[id := 0]; }
      ok := call.Works?;
    }

    method CompareAndSetOffset(id: string, expected: int, next: int, call: Call) returns (r: Result<bool, Error>)
      modifies this`sessions
      ensures id !in old(sessions) ==> r == Err(NoSuchUpload) && sessions == old(sessions)
      ensures id in old(sessions) && old(sessions)[id] != expected ==>
                r == (if call.Works? then Ok(false) else Err(Backend)) && sessions == old(sessions)
      ensures id in old(sessions) && old(sessions)[id] == expected ==>
                && r == (if call.Works? then Ok(true) else Err(Backend))
                && sessions == if call.Took() then old(sessions)[id := next] else old(sessions)
    {
      if id !in sessions { return Err(NoSuchUpload); }
      if sessions[id] == expected && call.Took() {
        sessions := sessions[id := next];
        r := Ok(true);
      } else {
        r := Ok(false);
      }
      if call.Fails? { r := Err(Backend); }
    }

    method MarkComplete(digest: string, call: Call) returns (ok: bool)
      modifies this`complete
      ensures complete == (if call.Took() then old(complete) + {digest} else old(complete)) && ok == call.Works?
    {
      if call.Took() { complete := complete + {digest}; }
      ok := call.Works?;
    }

    method AllComplete(digests: seq<string>) returns (all: bool)
      ensures all <==> forall d :: d in digests ==> d in complete
    {
      for i := 0 to |digests|
        invariant forall d :: d in digests[..i] ==> d in complete
      {
        if digests[i] !in complete { return false; }
      }
      return true;
    }

    method Clear(id: string, call: Call)
      modifies this`sessions
      ensures sessions == if call.Took() then old(sessions) - {id} else old(sessions)
    {
      if call.Took() { sessions := sessions - {id}; }
    }

    method IncBlobRef(digest: string, call: Call) returns (ok: bool)
      modifies this`refs
      ensures refs == (if !call.Took() then old(refs)
                       else old(refs)[digest := if digest in old(refs) then old(refs)[digest] + 1 else 1])
      ensures ok == call.Works?
    {
      if call.Took() {
        var n := if digest in refs then refs[digest] else 0;
        refs := refs[digest := n + 1];
      }
      ok := call.Works?;
    }

    method DecBlobRef(digest: string, call: Call) returns (left: Option<nat>)
      modifies this`refs
      ensures var b := Backends(map[], map[], {}, old(refs));
              && refs == (if call.Took() then DecRef(b, digest).0.refs else old(refs))
              && left == if call.Works? then DecRef(b, digest).1 else None
    {
      if !call.Took() { return None; }
      if digest !in refs { return None; }
      var n := refs[digest] as int - 1;
      if n <= 0 {
        refs := refs - {digest};
        left := Some(0);
      } else {
        refs := refs[digest := n];
        left := Some(n);
      }
      if call.Fails? { left := None; }
    }
  }

  class Store {
    const blobs: MemoryBlobs
    const sessions: MemorySessions

    constructor (blobs: MemoryBlobs, sessions: MemorySessions)
      ensures this.blobs == blobs && this.sessions == sessions
    {
      this.blobs, this.sessions := blobs, sessions;
    }

    function State(): Backends
      reads blobs, sessions
    {
      Backends(blobs.data, sessions.sessions, sessions.complete, sessions.refs)
    }

    method BeginUpload(id: string, call: Call) returns (ok: bool)
      modifies blobs, sessions
      ensures State() == Begin(old(State()), id, call) && ok == call.Works?
    {
      ok := sessions.Begin(id, call);
    }

    method ReadStaged(key: Key, read: Read) returns (v: Option<Bytes>)
      ensures v == ReadIfExists(State(), read, key)
    {
      if read.Refuses? { return Some([]); }
      var r := blobs.Get(key);
      if r.Err? { return Some([]); }
      return if read.Breaks? then None else Some(r.value);
    }

    method WriteChunk(id: string, offset: int, buf: Bytes, calls: WriteCalls) returns (r: Result<int, Error>)
      modifies blobs, sessions
      ensures (State(), r) == StagingSpec.WriteChunk(old(State()), id, offset, buf, calls)
    {
      var next := offset + |buf|;
      var cas := sessions.CompareAndSetOffset(id, offset, next, calls.cas);
      if cas.Err? { return Err(cas.error); }
      if !cas.value { return Err(OutOfOrder); }
      var existing := ReadStaged(UploadKey(id), calls.get);
      if existing.None? { return Err(Backend); }
      var ok := blobs.Put(UploadKey(id), existing.value + buf, calls.put);
      if !ok { return Err(Backend); }
      return Ok(next);
    }

    method CompleteBlob(h: Hash, id: string, digest: string, last: Bytes,
          calls: CompleteCalls) returns (e: Option<Error>)
      modifies blobs, sessions
      ensures (State(), e) == StagingSpec.CompleteBlob(h, old(State()), id, digest, last, calls)
      ensures var before := old(State()).data; var had := UploadKey(id) in before;
              var all := (if had && calls.get.Reads? then before[UploadKey(id)] else []) + last;
              && (e.None? <==>
                    && !(had && calls.get.Breaks?)
                    && |digest| >= 7 && digest[..7] == "sha256:" && Lower(digest[7..]) == h(all)
                    && calls.put.Works? && calls.mark.Works? && calls.inc.Works?)
              && (e.None? ==> BlobKey(digest) in State().data && State().data[BlobKey(digest)] == all
                              && digest in State().complete && digest in State().refs)
    {
      var existing := ReadStaged(UploadKey(id), calls.get);
      if existing.None? { return Some(Backend); }
      var all := existing.value + last;
      MatchesMeans(h, all, digest);
      if !Matches(h, all, digest) { return Some(Mismatch); }
      var ok := blobs.Put(BlobKey(digest), all, calls.put);
      if !ok { return Some(Backend); }
      ok := sessions.MarkComplete(digest, calls.mark);
      if !ok { return Some(Backend); }
      ok := sessions.IncBlobRef(digest, calls.inc);
      if !ok { return Some(Backend); }
      blobs.Delete(UploadKey(id), calls.delete);
      sessions.Clear(id, calls.clear);
      return None;
    }

    // Only the session's error is reported.
    method AbandonUpload(id: string, delete: Call, clear: Call) returns (ok: bool)
      modifies blobs, sessions
      ensures State() == Abandon(old(State()), id, delete, clear) && ok == clear.Works?
    {
      blobs.Delete(UploadKey(id), delete);
      sessions.Clear(id, clear);
      ok := clear.Works?;
    }

    method PutManifest(repo: string, ref: string, manifest: Bytes, configDigest: string, layerDigests: seq<string>,
        lookUp: bool)
      returns (r: Result<ManifestRef, Error>)
      ensures var mr := ManifestRef(repo, ref, manifest, configDigest, layerDigests);
              r == if !lookUp then Err(Backend)
                   else if forall d :: d in Required(mr) ==> d in State().complete then Ok(mr)
                   else Err(Incomplete)
      ensures r.Ok? <==>
                && lookUp
                && (configDigest != "" ==> configDigest in State().complete)
                && forall i :: 0 <= i < |layerDigests| ==> layerDigests[i] in State().complete
    {
      var required := layerDigests;
      if configDigest != "" { required := [configDigest] + layerDigests; }
      assert required == Required(ManifestRef(repo, ref, manifest, configDigest, layerDigests));
      if !lookUp { return Err(Backend); }
      var all := sessions.AllComplete(required);
      if !all { return Err(Incomplete); }
      return Ok(ManifestRef(repo, ref, manifest, configDigest, layerDigests));
    }

    // fetchVerified and GetStagedBlob.
    method FetchVerified(h: Hash, digest: string, read: Read) returns (r: Result<Bytes, Error>)
      ensures r == FetchWith(h, State().data, digest, read)
    {
      if read.Refuses? { return Err(Backend); }
      var got := blobs.Get(BlobKey(digest));
      if got.Err? { return got; }
      if read.Breaks? { return Err(Backend); }
      if !Matches(h, got.value, digest) { return Err(Mismatch); }
      return got;
    }

    // Builds the OCI layout; unpacking a layer into the root filesystem (gunzip and tar) is a parameter.
    method Assemble(h: Hash, mr: ManifestRef, calls: AssembleCalls) returns (r: Result<Layout, Error>)
      ensures r.Ok? <==> CanAssemble(h, State().data, mr, calls)
      ensures r.Ok? ==> r.value == LayoutOf(h, State().data, mr)
    {
      if !calls.dirs { return Err(Backend); }
      var files: map<string, Bytes>, k := map[], 0;
      ghost var done: seq<string> := [];
      if mr.configDigest != "" {
        var raw := FetchVerified(h, mr.configDigest, calls.fetches(0));
        if raw.Err? { return Err(raw.error); }
        if !calls.writes(0) { return Err(Backend); }
        files, k := files[LayoutName(mr.configDigest) := raw.value], 1;
        done := [mr.configDigest];
        FilesOfSnoc(State().data, [], mr.configDigest);
        assert [] + [mr.configDigest] == done;
      }
      assert files == FilesOf(State().data, done);
      var layers := WriteLayers(h, mr.layerDigests, k, files, done, calls);
      if layers.Err? { return Err(layers.error); }
      assert done + mr.layerDigests == Required(mr);
      if !calls.writes(k + |mr.layerDigests|) { return Err(Backend); }
      if !calls.index { return Err(Backend); }
      var md := "sha256:" + h(mr.manifest);
      return Ok(Layout(layers.value[LayoutName(md) := mr.manifest], md));
    }

    // Each layer goes into the layout as it is, then into the root filesystem.
    method WriteLayers(h: Hash, layers: seq<string>, first: nat, config: map<string, Bytes>, ghost done: seq<string>,
                       calls: AssembleCalls)
      returns (r: Result<map<string, Bytes>, Error>)
      requires config == FilesOf(State().data, done)
      ensures r.Ok? <==> LayersPlaced(h, State().data, layers, first, calls)
      ensures r.Ok? ==> r.value == FilesOf(State().data, done + layers)
    {
      var files := config;
      assert done + layers[..0] == done;
      for i := 0 to |layers|
        invariant LayersPlaced(h, State().data, layers[..i], first, calls)
        invariant files == FilesOf(State().data, done + layers[..i])
      {
        var d := layers[i];
        LayersPlacedSnoc(h, State().data, layers, first, calls, i);
        FilesOfLayer(State().data, done, layers, i);
        var raw := FetchVerified(h, d, calls.fetches(first + i));
        if raw.Err? { return Err(raw.error); }
        if !calls.writes(first + i) { return Err(Backend); }
        files := files[LayoutName(d) := raw.value];
        if !calls.unpacks(raw.value) { return Err(Unpack); }
      }
      assert layers[..|layers|] == layers;
      return Ok(files);
    }

    // Only the error of removing the scratch directory is reported.
    method Cleanup(mr: ManifestRef, calls: nat -> ReleaseCalls, scratchRemoved: bool) returns (ok: bool)
      modifies blobs, sessions
      ensures State() == ReleaseAll(old(State()), ToRelease(mr), calls) && ok == scratchRemoved
    {
      var digests := mr.layerDigests;
      if mr.configDigest != "" { digests := digests + [mr.configDigest]; }
      assert digests == ToRelease(mr);
      var i := 0;
      while i < |digests|
        invariant 0 <= i <= |digests|
        invariant State() == ReleaseAll(old(State()), digests[..i], calls)
      {
        assert digests[..i + 1][..i] == digests[..i];
        Release(digests[i], calls(i));
        i := i + 1;
      }
      assert digests[..i] == digests;
      return scratchRemoved;
    }

    method Release(digest: string, calls: ReleaseCalls)
      modifies blobs, sessions
      ensures State() == ReleaseOne(old(State()), digest, calls)
    {
      var left := sessions.DecBlobRef(digest, calls.dec);
      if left.None? { return; }
      if left.value <= 0 { blobs.Delete(BlobKey(digest), calls.delete); }
    }
  }
}
