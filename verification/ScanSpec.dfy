/** The vulnerability-scan policy on values (internal/policies/grype/grype.go and reportcache.go): which
    cached reports may be reused, what is stored, and the verdict a report gets. */
module ScanSpec {
  import opened Basics
  import opened PolicyEngine

  // dbBuilt is None when the scanner did not say when its database was built.
  datatype Report = Report(findings: seq<Finding>, dbVersion: string, dbBuilt: Option<int>)

  datatype Envelope = Envelope(version: int, report: Report, storedAt: int)

  // How envelopes are written and read; writing can fail, and not everything can be read.
  datatype Codec = Codec(encode: Envelope -> Option<Bytes>, decode: Bytes -> Option<Envelope>)

  ghost predicate RoundTrips(codec: Codec) {
    forall e :: codec.encode(e).Some? ==> codec.decode(codec.encode(e).value) == Some(e)
  }

  const VERSION: int := 1
  const MAX_BYTES: int := 1048576
  const DAY: int := 86_400_000_000_000

  // One policy's configuration. cached is false when no store is configured.
  datatype Settings = Settings(threshold: string, observe: bool, cached: bool, maxDbAge: int) {
    function Window(): (w: int)
      ensures w > 0 && (maxDbAge > 0 ==> w == maxDbAge) && (maxDbAge <= 0 ==> w == 24 * 3_600_000_000_000)
    {
      if maxDbAge <= 0 then DAY else maxDbAge
    }
  }

  // A stored value and the instant the store drops it.
  datatype Stored = Stored(raw: Bytes, expires: int)

  type Entries = map<string, Stored>

  function CacheKey(digest: string): string { "merlin:scan:v1:" + digest }

  lemma CacheKeysDiffer(a: string, b: string)
    requires CacheKey(a) == CacheKey(b)
    ensures a == b
  {
    assert CacheKey(a)[15..] == a && CacheKey(b)[15..] == b;
  }

  predicate Fresh(rep: Report, window: int, now: int) {
    rep.dbBuilt.Some? && now - rep.dbBuilt.value < window
  }

  function Ttl(built: int, window: int, now: int): int { built + window - now }

  function Found(entries: Entries, key: string, now: int): Option<Bytes> {
    if key in entries && now < entries[key].expires then Some(entries[key].raw) else None
  }

  function Lookup(codec: Codec, s: Settings, entries: Entries, digest: string, now: int, up: bool): Option<Report> {
    if !s.cached || digest == "" || !up then None
    else match Found(entries, CacheKey(digest), now)
      case None => None
      case Some(raw) =>
        match codec.decode(raw)
        case None => None
        case Some(e) => if e.version == VERSION && Fresh(e.report, s.Window(), now) then Some(e.report) else None
  }

  // The envelope that would be written for a report, if any.
  function ToStore(codec: Codec, s: Settings, digest: string, rep: Report, now: int): Option<Bytes> {
    if !s.cached || digest == "" || rep.dbBuilt.None? || Ttl(rep.dbBuilt.value, s.Window(), now) <= 0 then None
    else match codec.encode(Envelope(VERSION, rep, now))
      case None => None
      case Some(raw) => if |raw| > MAX_BYTES then None else Some(raw)
  }

  // The time to live is computed at `now`; the store starts counting at `setAt`.
  function Store(codec: Codec, s: Settings, entries: Entries, digest: string, rep: Report, now: int,
        setAt: int, call: Call): Entries {
    match ToStore(codec, s, digest, rep, now)
    case None => entries
    case Some(raw) =>
      if call.Took() then entries[CacheKey(digest) := Stored(raw, setAt + Ttl(rep.dbBuilt.value, s.Window(), now))]
      else entries
  }

  // How the world answers during one evaluation.
  datatype World = World(
    lookedAt: int, getUp: bool, scan: Result<Report, string>, storedAt: int, setAt: int, setCall: Call)

  // What one evaluation used: a report it scanned for or reused.
  datatype Used = Reused(report: Report) | Scanned(report: Report) | NoReport

  function ScanOrReuse(codec: Codec, s: Settings, entries: Entries, digest: string, w: World): (Entries, Used) {
    match Lookup(codec, s, entries, digest, w.lookedAt, w.getUp)
    case Some(rep) => (entries, Reused(rep))
    case None =>
      match w.scan
      case Err(_) => (entries, NoReport)
      case Ok(rep) => (Store(codec, s, entries, digest, rep, w.storedAt, w.setAt, w.setCall), Scanned(rep))
  }

  /* ---- the verdict ---- */

  function Upper(s: string): string {
    if s == "" then "" else [if 'a' <= s[0] <= 'z' then s[0] - 'a' + 'A' else s[0]] + Upper(s[1..])
  }

  const RANKS: map<string, int> :=
    map["UNKNOWN" := 0, "NEGLIGIBLE" := 1, "LOW" := 2, "MEDIUM" := 3, "HIGH" := 4, "CRITICAL" := 5]

  function Rank(severity: string): Option<int> {
    if Upper(severity) in RANKS then Some(RANKS[Upper(severity)]) else None
  }

  // A threshold that names no severity blocks at the lowest one.
  function Least(threshold: string): int { match Rank(threshold) case Some(r) => r case None => 0 }

  predicate Blocks(threshold: string, f: Finding) {
    match Rank(f.severity) case Some(r) => r >= Least(threshold) case None => true
  }

  function Text(f: Finding): string {
    f.cve
    + (if Rank(f.severity).Some? then " (" + f.severity + ")" else " (unrecognized severity \"" + f.severity + "\")")
    + " in " + f.pkg + " " + f.version
  }

  function Reasons(threshold: string, findings: seq<Finding>): seq<string> {
    if findings == [] then []
    else
      var f := findings[|findings| - 1];
      Reasons(threshold, findings[..|findings| - 1]) + if Blocks(threshold, f) then [Text(f)] else []
  }

  const NOT_ENFORCED: string := "not enforced: "

  function Prefixed(reasons: seq<string>): seq<string> {
    seq(|reasons|, i requires 0 <= i < |reasons| => NOT_ENFORCED + reasons[i])
  }

  function VerdictOf(s: Settings, rep: Report): Verdict {
    var reasons := Reasons(s.threshold, rep.findings);
    Verdict(s.observe || reasons == [], if s.observe then Prefixed(reasons) else reasons,
            rep.findings, rep.dbVersion, None)
  }

  ghost predicate Blocked(threshold: string,
        findings: seq<Finding>) { exists f :: f in findings && Blocks(threshold, f) }

  lemma {:induction false} ReasonsIffBlocked(threshold: string, findings: seq<Finding>)
    ensures Reasons(threshold, findings) != [] <==> Blocked(threshold, findings)
    ensures |Reasons(threshold, findings)| <= |findings|
  {
    if findings != [] {
      var n := |findings| - 1;
      ReasonsIffBlocked(threshold, findings[..n]);
      assert findings == findings[..n] + [findings[n]];
      assert forall f :: f in findings <==> f in findings[..n] || f == findings[n];
    }
  }

  /** Letters of any case count the same: each small letter becomes its capital, and nothing else is touched. */
  lemma {:induction false} UpperIs(s: string)
    ensures |Upper(s)| == |s|
    ensures forall i :: 0 <= i < |s| ==> Upper(s)[i] == if 'a' <= s[i] <= 'z' then s[i] - 'a' + 'A' else s[i]
  {
    if s != "" { UpperIs(s[1..]); }
  }

  // A finding that stops an image, by name: its severity is none of the six, or stands in their list at or
  // after the threshold. A threshold that is none of the six is before all of them.
  ghost predicate Stops(threshold: string, severity: string) {
    var names := ["UNKNOWN", "NEGLIGIBLE", "LOW", "MEDIUM", "HIGH", "CRITICAL"];
    || Upper(severity) !in names
    || Upper(threshold) !in names
    || exists p, q :: 0 <= p <= q < 6 && names[p] == Upper(threshold) && names[q] == Upper(severity)
  }

  /** The order of the severities: UNKNOWN, NEGLIGIBLE, LOW, MEDIUM, HIGH, CRITICAL, and nothing unknown is let
      through. */
  lemma BlocksByName(threshold: string, f: Finding)
    ensures Blocks(threshold, f) <==> Stops(threshold, f.severity)
  {
    var names := ["UNKNOWN", "NEGLIGIBLE", "LOW", "MEDIUM", "HIGH", "CRITICAL"];
    RanksAreNames(Upper(threshold));
    RanksAreNames(Upper(f.severity));
    if Blocks(threshold, f) && Rank(threshold).Some? && Rank(f.severity).Some? {
      var p, q := Rank(threshold).value, Rank(f.severity).value;
      assert names[p] == Upper(threshold) && names[q] == Upper(f.severity);
    }
  }

  lemma RanksAreNames(s: string)
    ensures var names := ["UNKNOWN", "NEGLIGIBLE", "LOW", "MEDIUM", "HIGH", "CRITICAL"];
            && (s in RANKS <==> s in names)
            && (forall i :: 0 <= i < 6 && names[i] == s ==> s in RANKS && RANKS[s] == i)
            && (s in RANKS ==> 0 <= RANKS[s] < 6 && names[RANKS[s]] == s)
  {
    var names := ["UNKNOWN", "NEGLIGIBLE", "LOW", "MEDIUM", "HIGH", "CRITICAL"];
    assert s in names <==> exists i :: 0 <= i < 6 && names[i] == s;
  }

  /** So a CRITICAL finding, in any letter case, stops an image whatever the threshold, and of two thresholds
      that name severities the earlier one stops whatever the later one does. */
  lemma CriticalAlwaysStops(threshold: string, severity: string)
    requires Upper(severity) == "CRITICAL"
    ensures Stops(threshold, severity)
  {
    var names := ["UNKNOWN", "NEGLIGIBLE", "LOW", "MEDIUM", "HIGH", "CRITICAL"];
    assert names[5] == Upper(severity);
    if Upper(threshold) in names { var p :| 0 <= p < 6 && names[p] == Upper(threshold); }
  }

  /** Enforcing, an image passes exactly when no finding is at or above the threshold and none has an
      unrecognized severity. Observing, it always passes, and its reasons still tell it from a clean one.
      A threshold that names no severity lets nothing through that has a finding at all. */
  lemma WhatTheVerdictMeans(s: Settings, rep: Report)
    ensures VerdictOf(s, rep).passed <==> s.observe || !Blocked(s.threshold, rep.findings)
    ensures VerdictOf(s, rep).reasons != [] <==> Blocked(s.threshold, rep.findings)
    ensures Rank(s.threshold).None? && !s.observe ==> (VerdictOf(s, rep).passed <==> rep.findings == [])
  {
    ReasonsIffBlocked(s.threshold, rep.findings);
    if Rank(s.threshold).None? {
      forall f | f in rep.findings ensures Blocks(s.threshold, f) {}
      if rep.findings != [] { assert rep.findings[0] in rep.findings; }
    }
  }

  // The findings that stop an image, in order.
  ghost function Stopping(threshold: string, findings: seq<Finding>): seq<Finding> {
    if findings == [] then []
    else (if Stops(threshold, findings[0].severity) then [findings[0]] else []) + Stopping(threshold, findings[1..])
  }

  lemma {:induction false} StoppingSnoc(threshold: string, fs: seq<Finding>, f: Finding)
    ensures Stopping(threshold, fs + [f]) ==
            Stopping(threshold, fs) + if Stops(threshold, f.severity) then [f] else []
  {
    if fs != [] {
      assert (fs + [f])[1..] == fs[1..] + [f];
      StoppingSnoc(threshold, fs[1..], f);
    } else {
      assert ([f])[1..] == [];
    }
  }

  lemma TextNames(f: Finding)
    ensures f.cve <= Text(f)
  {
  }

  /** One reason for each of them, in order. */
  lemma {:induction false} OneReasonEach(threshold: string, findings: seq<Finding>)
    ensures var rs, fs := Reasons(threshold, findings), Stopping(threshold, findings);
            && |rs| == |fs|
            && forall i :: 0 <= i < |fs| ==> rs[i] == Text(fs[i])
  {
    if findings != [] {
      var n := |findings| - 1;
      OneReasonEach(threshold, findings[..n]);
      assert findings == findings[..n] + [findings[n]];
      StoppingSnoc(threshold, findings[..n], findings[n]);
      BlocksByName(threshold, findings[n]);
    }
  }

  /** Observing, every one of them is marked as not enforced. */
  lemma ObservedReasons(s: Settings, rep: Report)
    ensures var rs, fs := VerdictOf(s, rep).reasons, Stopping(s.threshold, rep.findings);
            && |rs| == |fs|
            && forall i :: 0 <= i < |fs| ==> rs[i] == (if s.observe then "not enforced: " else "") + Text(fs[i])
  {
    OneReasonEach(s.threshold, rep.findings);
    if !s.observe {
      forall i | 0 <= i < |Reasons(s.threshold, rep.findings)|
        ensures "" + Text(Stopping(s.threshold, rep.findings)[i]) == Reasons(s.threshold, rep.findings)[i] {}
    }
  }

  lemma VerdictByName(s: Settings, rep: Report)
    ensures VerdictOf(s, rep).passed <==>
              s.observe || forall f :: f in rep.findings ==> !Stops(s.threshold, f.severity)
    ensures VerdictOf(s, rep).reasons != [] <==> exists f :: f in rep.findings && Stops(s.threshold, f.severity)
  {
    WhatTheVerdictMeans(s, rep);
    forall f | f in rep.findings ensures Blocks(s.threshold, f) <==> Stops(s.threshold, f.severity) {
      BlocksByName(s.threshold, f);
    }
  }

  /** A stricter threshold, one that stands earlier in the list, rejects whatever a laxer one does. */
  lemma EarlierThresholdRejectsMore(p: nat, q: nat, lax: string, strict: string, findings: seq<Finding>)
    requires var names := ["UNKNOWN", "NEGLIGIBLE", "LOW", "MEDIUM", "HIGH", "CRITICAL"];
             p <= q < 6 && Upper(strict) == names[p] && Upper(lax) == names[q]
    ensures Reasons(lax, findings) != [] ==> Reasons(strict, findings) != []
  {
    RanksAreNames(Upper(strict));
    RanksAreNames(Upper(lax));
    StricterRejectsMore(lax, strict, findings);
  }

  // The same on ranks.
  lemma StricterRejectsMore(lax: string, strict: string, findings: seq<Finding>)
    requires Least(strict) <= Least(lax)
    ensures Reasons(lax, findings) != [] ==> Reasons(strict, findings) != []
  {
    ReasonsIffBlocked(lax, findings);
    ReasonsIffBlocked(strict, findings);
    if Blocked(lax, findings) {
      var f :| f in findings && Blocks(lax, f);
      assert Blocks(strict, f);
    }
  }

  /* ---- freshness ---- */

  /** One clock and one window: an entry is still in the store exactly while its report is fresh, and a
      report is stored at all only if it is fresh. */
  lemma ExpiryIsFreshness(codec: Codec, s: Settings, entries: Entries, digest: string, rep: Report, now: int,
        later: int)
    requires ToStore(codec, s, digest, rep, now).Some?
    ensures Fresh(rep, s.Window(), now)
    ensures var stored := Store(codec, s, entries, digest, rep, now, now, Works);
            Found(stored, CacheKey(digest), later).Some? <==> Fresh(rep, s.Window(), later)
  {
  }

  /** A report is stored exactly when there is a store and a digest to store it under, its database's build
      time is known and inside the window, and it can be written in a megabyte. */
  lemma StoresExactly(codec: Codec, s: Settings, entries: Entries, digest: string, rep: Report, now: int)
    ensures var after := Store(codec, s, entries, digest, rep, now, now, Works);
            var raw := codec.encode(Envelope(1, rep, now));
            if s.cached && digest != "" && rep.dbBuilt.Some? && now - rep.dbBuilt.value < s.Window()
               && raw.Some? && |raw.value| <= 1024 * 1024
            then after == entries["merlin:scan:v1:" + digest := Stored(raw.value, rep.dbBuilt.value + s.Window())]
            else after == entries
  {
  }

  /** So a report that was stored is answered from the store until its database has reached the window,
      and scanned for afterwards. */
  lemma StoredIsReusedWhileFresh(codec: Codec, s: Settings, entries: Entries, digest: string, rep: Report,
        now: int, w: World)
    requires RoundTrips(codec) && w.getUp
    requires s.cached && digest != "" && rep.dbBuilt.Some? && now - rep.dbBuilt.value < s.Window()
    requires var raw := codec.encode(Envelope(1, rep, now)); raw.Some? && |raw.value| <= 1024 * 1024
    ensures var stored := Store(codec, s, entries, digest, rep, now, now, Works);
            && (ScanOrReuse(codec, s, stored, digest, w).1.Reused? <==> w.lookedAt - rep.dbBuilt.value < s.Window())
            && (w.lookedAt - rep.dbBuilt.value < s.Window() ==>
                  ScanOrReuse(codec, s, stored, digest, w) == (stored, Reused(rep)))
  {
    ExpiryIsFreshness(codec, s, entries, digest, rep, now, w.lookedAt);
    assert codec.decode(codec.encode(Envelope(VERSION, rep, now)).value) == Some(Envelope(VERSION, rep, now));
  }

  /* ---- whole runs ---- */

  // An evaluation by some replica with its own configuration, or something happening to the store.
  datatype Event =
    | Evaluation(settings: Settings, digest: string, world: World)
    | Dropped(key: string)
    | Garbled(key: string, entry: Stored)

  // A scan that was really made.
  datatype Scan = Scan(digest: string, report: Report)

  datatype State = State(entries: Entries, scans: set<Scan>)

  function UsedIn(codec: Codec, st: State, e: Event): Used {
    if e.Evaluation? then ScanOrReuse(codec, e.settings, st.entries, e.digest, e.world).1 else NoReport
  }

  function Next(codec: Codec, st: State, e: Event): State {
    match e
    case Evaluation(s, digest, w) =>
      var (entries, used) := ScanOrReuse(codec, s, st.entries, digest, w);
      State(entries, if used.Scanned? then st.scans + {Scan(digest, used.report)} else st.scans)
    case Dropped(key) => st.(entries := st.entries - {key})
    case Garbled(key, entry) => st.(entries := st.entries[key := entry])
  }

  // Bytes nobody can mistake for an entry: they do not decode, or are of another version.
  predicate NotAnEntry(codec: Codec, raw: Bytes) {
    match codec.decode(raw) case None => true case Some(e) => e.version != VERSION
  }

  // The store loses and garbles entries but does not make up reports.
  predicate Honest(codec: Codec, e: Event) { e.Garbled? ==> NotAnEntry(codec, e.entry.raw) }

  // Every readable entry is the report of a real scan of that digest.
  ghost predicate Genuine(codec: Codec, st: State) {
    forall digest :: CacheKey(digest) in st.entries ==>
      NotAnEntry(codec, st.entries[CacheKey(digest)].raw)
      || Scan(digest, codec.decode(st.entries[CacheKey(digest)].raw).value.report) in st.scans
  }

  lemma StoreGenuine(codec: Codec, st: State, s: Settings, digest: string, rep: Report, w: World)
    requires RoundTrips(codec) && Genuine(codec, st)
    ensures Genuine(codec,
        State(Store(codec, s, st.entries, digest, rep, w.storedAt, w.setAt, w.setCall), st.scans + {Scan(digest, rep)}))
  {
    var after := Store(codec, s, st.entries, digest, rep, w.storedAt, w.setAt, w.setCall);
    forall d | CacheKey(d) in after
      ensures NotAnEntry(codec, after[CacheKey(d)].raw)
              || Scan(d, codec.decode(after[CacheKey(d)].raw).value.report) in st.scans + {Scan(digest, rep)}
    {
      if CacheKey(d) == CacheKey(digest) {
        CacheKeysDiffer(d, digest);
        var e := Envelope(VERSION, rep, w.storedAt);
        assert codec.encode(e).Some? ==> codec.decode(codec.encode(e).value) == Some(e);
      }
    }
  }

  lemma GenuineStep(codec: Codec, st: State, e: Event)
    requires RoundTrips(codec) && Genuine(codec, st) && Honest(codec, e)
    ensures Genuine(codec, Next(codec, st, e)) && st.scans <= Next(codec, st, e).scans
  {
    match e {
      case Evaluation(s, digest, w) =>
        if UsedIn(codec, st, e).Scanned? { StoreGenuine(codec, st, s, digest, w.scan.value, w); }
      case Dropped(key) =>
      case Garbled(key, entry) =>
    }
  }

  // What an evaluation may rely on.
  ghost predicate SoundUse(codec: Codec, st: State, e: Event) {
    e.Evaluation? ==>
      var used := UsedIn(codec, st, e);
      && (used.Reused? ==>
            && Scan(e.digest, used.report) in st.scans
            && used.report.dbBuilt.Some? && e.world.lookedAt - used.report.dbBuilt.value < e.settings.Window())
      && (used.Scanned? ==> e.world.scan == Ok(used.report))
      && (used.NoReport? ==> e.world.scan.Err?)
  }

  ghost predicate AllSound(codec: Codec, st: State, es: seq<Event>)
    decreases |es|
  {
    es == [] || (SoundUse(codec, st, es[0]) && AllSound(codec, Next(codec, st, es[0]), es[1..]))
  }

  /** Over every run of evaluations by replicas with any configurations, at any clock readings, with failing
      stores, lost, garbled and outdated entries: a reused report came from a real scan of that digest with
      a database younger than the reader's window, and every other evaluation scanned. */
  lemma {:induction false} CacheSoundness(codec: Codec, st: State, es: seq<Event>)
    requires RoundTrips(codec) && Genuine(codec, st) && forall e :: e in es ==> Honest(codec, e)
    ensures AllSound(codec, st, es)
    decreases |es|
  {
    if es != [] {
      GenuineStep(codec, st, es[0]);
      CacheSoundness(codec, Next(codec, st, es[0]), es[1..]);
    }
  }
}
