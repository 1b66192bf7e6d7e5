/** Digests and store keys (internal/staging/digest.go, internal/staging/staging.go). The hash itself is
    a parameter everywhere: any function from bytes to lower-case hex. */
module Digests {
  import opened Basics

  type Hash = Bytes -> string

  ghost predicate HexHash(h: Hash) {
    forall b :: h(b) != "" && forall c :: c in h(b) ==> '0' <= c <= '9' || 'a' <= c <= 'f'
  }

  function LowerChar(c: char): char { if 'A' <= c <= 'Z' then c - 'A' + 'a' else c }

  function Lower(s: string): string { if s == "" then "" else [LowerChar(s[0])] + Lower(s[1..]) }

  // strings.Cut at the first colon.
  function CutColon(s: string): Option<(string, string)> {
    if s == "" then None
    else if s[0] == ':' then Some(("", s[1..]))
    else match CutColon(s[1..])
      case None => None
      case Some(parts) => Some(([s[0]] + parts.0, parts.1))
  }

  // VerifyDigest accepts the bytes.
  predicate Matches(h: Hash, b: Bytes, claimed: string) {
    match CutColon(claimed)
    case None => false
    case Some(parts) => parts.0 == "sha256" && h(b) == Lower(parts.1)
  }

  // What the blob store is keyed by, and the string each key is written as.
  datatype Key = UploadKey(id: string) | BlobKey(digest: string) {
    function Name(): string {
      match this
      case UploadKey(id) => "upload/" + id
      case BlobKey(digest) => "blob/" + digest
    }
  }

  /** No two keys are written the same way: an upload ID can never name a blob. */
  lemma KeysNeverCollide(a: Key, b: Key)
    requires a.Name() == b.Name()
    ensures a == b
  {
    assert a.Name()[0] == if a.UploadKey? then 'u' else 'b';
    assert b.Name()[0] == if b.UploadKey? then 'u' else 'b';
    if a.UploadKey? {
      assert a.Name()[7..] == a.id && b.Name()[7..] == b.id;
    } else {
      assert a.Name()[5..] == a.digest && b.Name()[5..] == b.digest;
    }
  }

  // The file name of a blob in an OCI layout.
  function LayoutName(digest: string): string {
    if |digest| > 7 && digest[..7] == "sha256:" then digest[7..] else digest
  }

  lemma {:induction false} CutColonJoins(s: string)
    ensures CutColon(s).Some? ==> s == CutColon(s).value.0 + ":" + CutColon(s).value.1
  {
    if s != "" && s[0] != ':' {
      CutColonJoins(s[1..]);
      assert s == [s[0]] + s[1..];
    }
  }

  /** Each capital letter on its own becomes the small one, and nothing else is touched. */
  lemma {:induction false} LowerIs(s: string)
    ensures |Lower(s)| == |s|
    ensures forall i :: 0 <= i < |s| ==> Lower(s)[i] == if 'A' <= s[i] <= 'Z' then s[i] - 'A' + 'a' else s[i]
  {
    if s != "" { LowerIs(s[1..]); }
  }

  lemma {:induction false} CutJoined(a: string, x: string)
    requires ':' !in a
    ensures CutColon(a + ":" + x) == Some((a, x))
  {
    var s := a + ":" + x;
    if a == "" {
      assert s[1..] == x;
    } else {
      assert s[0] == a[0] && a[0] in a;
      assert forall c :: c in a[1..] ==> c in a;
      assert s[1..] == a[1..] + ":" + x;
      CutJoined(a[1..], x);
      assert [a[0]] + a[1..] == a;
    }
  }

  /** Bytes are accepted under exactly the digests that name their hash, in any letter case. */
  lemma MatchesMeans(h: Hash, b: Bytes, d: string)
    ensures Matches(h, b, d) <==> |d| >= 7 && d[..7] == "sha256:" && Lower(d[7..]) == h(b)
  {
    if Matches(h, b, d) {
      CutColonJoins(d);
      assert d[..7] == "sha256:" && d[7..] == CutColon(d).value.1;
    }
    if |d| >= 7 && d[..7] == "sha256:" {
      assert d == "sha256" + ":" + d[7..];
      CutJoined("sha256", d[7..]);
    }
  }

  /** Digests that verify against something keep their own file names in a layout. */
  lemma VerifiedNamesDiffer(h: Hash, a: Bytes, da: string, b: Bytes, db: string)
    requires HexHash(h) && Matches(h, a, da) && Matches(h, b, db)
    requires LayoutName(da) == LayoutName(db)
    ensures da == db
  {
    CutColonJoins(da);
    CutColonJoins(db);
    LowerIs(CutColon(da).value.1);
    LowerIs(CutColon(db).value.1);
    assert da[..7] == "sha256:" && db[..7] == "sha256:";
    assert da == da[..7] + da[7..] && db == db[..7] + db[7..];
  }
}
