/** The vulnerability-scan policy over a shared report store (internal/policies/grype/grype.go and
    reportcache.go). */
module ScanPolicy {
  import opened Basics
  import opened PolicyEngine
  import S = ScanSpec

  class ReportStore {
    var entries: S.Entries

    constructor ()
      ensures entries == map[]
    {
      entries := map[];
    }

    method Get(key: string, now: int, up: bool) returns (r: Result<Option<Bytes>, ()>)
      ensures r == if up then Ok(S.Found(entries, key, now)) else Err(())
    {
      if !up { return Err(()); }
      if key !in entries { return Ok(None); }
      if now >= entries[key].expires { return Ok(None); }
      return Ok(Some(entries[key].raw));
    }

    method Set(key: string, raw: Bytes, ttl: int, now: int, call: Call)
      modifies this
      ensures entries == if call.Took() then old(entries)[key := S.Stored(raw, now + ttl)] else old(entries)
    {
      if call.Took() { entries := entries[key := S.Stored(raw, now + ttl)]; }
    }
  }

  class Policy {
    const settings: S.Settings
    const codec: S.Codec
    const store: ReportStore

    constructor (settings: S.Settings, codec: S.Codec, store: ReportStore)
      ensures this.settings == settings && this.codec == codec && this.store == store
    {
      this.settings, this.codec, this.store := settings, codec, store;
    }

    method LookupReport(digest: string, now: int, up: bool) returns (r: Option<S.Report>)
      ensures r == S.Lookup(codec, settings, store.entries, digest, now, up)
    {
      if !settings.cached || digest == "" { return None; }
      var got := store.Get(S.CacheKey(digest), now, up);
      if got.Err? { return None; }
      if got.value.None? { return None; }
      var entry := codec.decode(got.value.value);
      if entry.None? { return None; }
      if entry.value.version != S.VERSION { return None; }
      var rep := entry.value.report;
      if rep.dbBuilt.None? { return None; }
      if now - rep.dbBuilt.value >= settings.Window() { return None; }
      return Some(rep);
    }

    method StoreReport(digest: string, rep: S.Report, now: int, setAt: int, call: Call)
      modifies store
      ensures store.entries == S.Store(codec, settings, old(store.entries), digest, rep, now, setAt, call)
    {
      if !settings.cached || digest == "" { return; }
      if rep.dbBuilt.None? { return; }
      var ttl := rep.dbBuilt.value + settings.Window() - now;
      if ttl <= 0 { return; }
      var raw := codec.encode(S.Envelope(S.VERSION, rep, now));
      if raw.None? { return; }
      if |raw.value| > S.MAX_BYTES { return; }
      store.Set(S.CacheKey(digest), raw.value, ttl, setAt, call);
    }

    method ScanOrReuse(digest: string, w: S.World) returns (r: Result<S.Report, string>, ghost used: S.Used)
      modifies store
      ensures (store.entries, used) == S.ScanOrReuse(codec, settings, old(store.entries), digest, w)
      ensures r == match used
          case NoReport => Err(w.scan.error) case Reused(rep) => Ok(rep) case Scanned(rep) => Ok(rep)
    {
      var hit := LookupReport(digest, w.lookedAt, w.getUp);
      if hit.Some? { return Ok(hit.value), S.Reused(hit.value); }
      if w.scan.Err? { return w.scan, S.NoReport; }
      StoreReport(digest, w.scan.value, w.storedAt, w.setAt, w.setCall);
      return w.scan, S.Scanned(w.scan.value);
    }

    /** The verdict is the present configuration applied to the report, reused or not. */
    method Evaluate(ociPath: string, digest: string, w: S.World) returns (r: Result<Verdict, string>,
          ghost used: S.Used)
      modifies store
      ensures ociPath == "" ==> r.Err? && store.entries == old(store.entries)
      ensures ociPath != "" ==> (store.entries, used) == S.ScanOrReuse(codec, settings, old(store.entries), digest, w)
      ensures ociPath != "" ==> (r.Err? <==> used.NoReport?)
      ensures r.Ok? ==> r.value == S.VerdictOf(settings, used.report)
      ensures r.Ok? ==>
                && r.value.findings == used.report.findings && r.value.scannerDb == used.report.dbVersion
                && (r.value.passed <==>
                      settings.observe
                      || forall f :: f in used.report.findings ==> !S.Stops(settings.threshold, f.severity))
                && (r.value.reasons != [] <==>
                      exists f :: f in used.report.findings && S.Stops(settings.threshold, f.severity))
    {
      used := S.NoReport;
      if ociPath == "" { return Err("grype scan: empty OCI path for image"), used; }
      var got;
      got, used := ScanOrReuse(digest, w);
      if got.Err? { return Err(got.error), used; }
      var rep := got.value;
      var v := Judge(rep);
      S.VerdictByName(settings, rep);
      return Ok(v), used;
    }

    // The verdict on one report.
    method Judge(rep: S.Report) returns (v: Verdict)
      ensures v == S.VerdictOf(settings, rep)
    {
      var threshold := S.Upper(settings.threshold);
      var least := if threshold in S.RANKS then S.RANKS[threshold] else 0;
      var reasons: seq<string> := [];
      for i := 0 to |rep.findings|
        invariant reasons == S.Reasons(settings.threshold, rep.findings[..i])
      {
        var f := rep.findings[i];
        assert rep.findings[..i + 1][..i] == rep.findings[..i];
        var severity := S.Upper(f.severity);
        if severity !in S.RANKS {
          reasons := reasons + [S.Text(f)];
          continue;
        }
        if S.RANKS[severity] >= least { reasons := reasons + [S.Text(f)]; }
      }
      assert rep.findings[..|rep.findings|] == rep.findings;
      if settings.observe {
        ghost var plain := reasons;
        for i := 0 to |reasons|
          invariant |reasons| == |plain|
          invariant forall k :: 0 <= k < i ==> reasons[k] == S.NOT_ENFORCED + plain[k]
          invariant forall k :: i <= k < |reasons| ==> reasons[k] == plain[k]
        {
          reasons := reasons[i := S.NOT_ENFORCED + reasons[i]];
        }
        assert reasons == S.Prefixed(plain);
        return Verdict(true, reasons, rep.findings, rep.dbVersion, None);
      }
      return Verdict(|reasons| == 0, reasons, rep.findings, rep.dbVersion, None);
    }
  }
}
