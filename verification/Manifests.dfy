/** Manifest classification (internal/ingress/docker/classify.go). */
module Manifests {
  import opened Basics

  datatype Descriptor = Descriptor(mediaType: string, digest: string)

  datatype Parsed = Parsed(
    mediaType: string,
    config: Descriptor,
    layers: seq<Descriptor>,
    manifests: seq<Descriptor>)

  datatype Kind = Image | Index | Attestation

  const INDEX_MEDIA_TYPES: set<string> := {
    "application/vnd.oci.image.index.v1+json",
    "application/vnd.docker.distribution.manifest.list.v2+json"
  }

  const NON_FILESYSTEM_LAYER_TYPES: set<string> := { "application/vnd.in-toto+json" }

  predicate NonFilesystem(layers: seq<Descriptor>) {
    forall l :: l in layers ==> l.mediaType in NON_FILESYSTEM_LAYER_TYPES
  }

  function Classify(m: Parsed): Kind {
    if m.manifests != [] || m.mediaType in INDEX_MEDIA_TYPES then Index
    else if m.layers != [] && NonFilesystem(m.layers) then Attestation
    else Image
  }

  /** The rules by media type: an index has manifests or says it is one, an attestation has layers and every
      one of them is in-toto, and whatever else there is, unknown layer types included, is an image. */
  lemma KindsByMediaType(m: Parsed)
    ensures Classify(m) == Index <==>
              || m.manifests != []
              || m.mediaType == "application/vnd.oci.image.index.v1+json"
              || m.mediaType == "application/vnd.docker.distribution.manifest.list.v2+json"
    ensures Classify(m) == Attestation <==>
              && m.manifests == []
              && m.mediaType != "application/vnd.oci.image.index.v1+json"
              && m.mediaType != "application/vnd.docker.distribution.manifest.list.v2+json"
              && m.layers != []
              && forall i :: 0 <= i < |m.layers| ==> m.layers[i].mediaType == "application/vnd.in-toto+json"
  {
    if m.layers != [] && NonFilesystem(m.layers) {
      forall i | 0 <= i < |m.layers| ensures m.layers[i].mediaType == "application/vnd.in-toto+json" {
        assert m.layers[i] in m.layers;
      }
    }
  }

  // json.Unmarshal is a parameter: the body is rejected exactly when it does not parse.
  method ClassifyManifest(body: Bytes, parse: Bytes -> Option<Parsed>) returns (r: Option<(Parsed, Kind)>)
    ensures r.None? <==> parse(body).None?
    ensures r.Some? ==> parse(body) == Some(r.value.0) && r.value.1 == Classify(r.value.0)
    ensures r.Some? ==>
              var m := r.value.0;
              r.value.1 ==
                if m.manifests != []
                   || m.mediaType == "application/vnd.oci.image.index.v1+json"
                   || m.mediaType == "application/vnd.docker.distribution.manifest.list.v2+json" then Index
                else if m.layers != []
                   && (forall i :: 0 <= i < |m.layers| ==> m.layers[i].mediaType == "application/vnd.in-toto+json")
                then Attestation
                else Image
  {
    var p := parse(body);
    if p.None? { return None; }
    var m := p.value;
    KindsByMediaType(m);
    if |m.manifests| > 0 || m.mediaType in INDEX_MEDIA_TYPES { return Some((m, Index)); }
    if |m.layers| > 0 {
      var allNonFs := true;
      var i := 0;
      while i < |m.layers|
        invariant 0 <= i <= |m.layers|
        invariant allNonFs && NonFilesystem(m.layers[..i])
      {
        if m.layers[i].mediaType !in NON_FILESYSTEM_LAYER_TYPES {
          allNonFs := false;
          assert m.layers[i] in m.layers;
          break;
        }
        assert m.layers[..i + 1] == m.layers[..i] + [m.layers[i]];
        i := i + 1;
      }
      if allNonFs {
        assert m.layers[..i] == m.layers;
        return Some((m, Attestation));
      }
    }
    return Some((m, Image));
  }
}
