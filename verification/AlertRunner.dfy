/** The alert runner (internal/alert/runner.go) over a notification table and a notifier. */
module AlertRunner {
  import opened Basics
  import opened AlertSpec
  import opened CooldownSpec
  import AlertDetect

  // The notification table is append-only, and reading it takes the latest row of each key.
  class Cooldowns {
    const precision: int
    var rows: seq<Note>

    function Table(): CooldownSpec.Table
      requires precision > 0
      reads this
    {
      TableOf(rows, precision)
    }

    constructor (precision: int)
      requires precision > 0
      ensures this.precision == precision && rows == []
    {
      this.precision := precision;
      rows := [];
    }

    method LastNotified(up: bool) returns (last: Option<CooldownSpec.Table>)
      requires precision > 0
      ensures last == if up then Some(Table()) else None
    {
      if !up { return None; }
      var table: CooldownSpec.Table := map[];
      for i := 0 to |rows|
        invariant table == TableOf(rows[..i], precision)
      {
        assert rows[..i + 1][..i] == rows[..i];
        var at := rows[i].at - rows[i].at % precision;
        if rows[i].key !in table || table[rows[i].key] < at { table := table[rows[i].key := at]; }
      }
      assert rows[..|rows|] == rows;
      return Some(table);
    }

    method RecordNotified(f: Finding, at: int, call: Call) returns (ok: bool)
      requires precision > 0
      modifies this
      ensures ok == call.Works?
      ensures rows == if call.Took() then old(rows) + [Note(CooldownKey(f), at)] else old(rows)
      ensures Table() == if call.Took() then Announced(old(Table()), CooldownKey(f), at, precision) else old(Table())
    {
      if call.Took() {
        rows := rows + [Note(CooldownKey(f), at)];
        assert rows[..|rows| - 1] == old(rows);
      }
      ok := call.Works?;
    }
  }

  class Runner {
    const config: Config
    const sig: Normalize
    const killed: string -> bool
    const cooldowns: Cooldowns
    var sent: seq<Sent>

    constructor (config: Config, sig: Normalize, killed: string -> bool, cooldowns: Cooldowns)
      ensures this.config == config && this.sig == sig && this.killed == killed
          && this.cooldowns == cooldowns && sent == []
    {
      this.config, this.sig, this.killed, this.cooldowns := config, sig, killed, cooldowns;
      sent := [];
    }

    // Four queries, up to the first that fails.
    method Ask(source: Source, now: int) returns (v: Option<View>)
      ensures v == Asked(WithDefaults(config), source, now)
    {
      var cfg := WithDefaults(config);
      var since := now - cfg.recentWindow;
      var before := since - cfg.baselineWindow;
      var recent := source.details(since, now, cfg.detailLimit);
      if recent.None? { return None; }
      var baseline := source.details(before, since, cfg.detailLimit);
      if baseline.None? { return None; }
      var counts := source.counts(since, now);
      if counts.None? { return None; }
      var base := source.counts(before, since);
      if base.None? { return None; }
      return Some(View(recent.value, baseline.value, counts.value, base.value));
    }

    method Evaluate(source: Source, now: int) returns (findings: Option<seq<Finding>>)
      requires !killed("")
      ensures findings == FindingsOf(WithDefaults(config), sig, killed, source, now)
    {
      var cfg := WithDefaults(config);
      var asked := Ask(source, now);
      if asked.None? { return None; }
      var v := asked.value;
      var novel, _ := AlertDetect.NovelErrors(sig, v.recent, v.baseline, cfg.maxNovel);
      var killedScans := AlertDetect.KilledScans(killed, v.recent, cfg.killedThreshold);
      return Some(novel + AsSeq(InfraErrorStepChange(v.counts, v.base, cfg.rate)) + AsSeq(killedScans));
    }

    // `ok` is false when a query, the load, a delivery or a record failed.
    method RunOnce(source: Source, now: int, loads: bool, a: Answers) returns (ok: bool)
      requires !killed("") && cooldowns.precision > 0
      modifies this, cooldowns
      ensures var found := FindingsOf(WithDefaults(config), sig, killed, source, now);
              var st := State(old(cooldowns.Table()), old(sent));
              State(cooldowns.Table(), sent) ==
                if found.None? || !loads then st
                else CooldownSpec.Evaluate(st, Evaluation(now, found.value, a),
                                           WithDefaults(config).cooldown, cooldowns.precision)
      ensures var found := FindingsOf(WithDefaults(config), sig, killed, source, now);
              ok <==> found.Some?
                      && (found.value != [] ==>
                            loads && AllWell(found.value, old(cooldowns.Table()), now,
                                                                WithDefaults(config).cooldown, a))
      ensures var found := FindingsOf(WithDefaults(config), sig, killed, source, now);
              var last := old(cooldowns.Table());
              ok <==> && found.Some?
                      && (found.value != [] ==> loads)
                      && forall i :: 0 <= i < |found.value| ==>
                           var key := CooldownKey(found.value[i]);
                           (key in last ==> now - last[key] >= WithDefaults(config).cooldown) ==>
                             a.delivered(i) && a.record(i).Works?
    {
      var cfg := WithDefaults(config);
      var found := Evaluate(source, now);
      if found.None? { return false; }
      var fs := found.value;
      if |fs| == 0 {
        return true;
      }
      var last := cooldowns.LastNotified(loads);
      if last.None? { return false; }
      ok := Announce(fs, last.value, now, cfg.cooldown, a);
    }

    method Announce(fs: seq<Finding>, last: CooldownSpec.Table, now: int, cooldown: int, a: Answers) returns (ok: bool)
      requires cooldowns.precision > 0 && cooldowns.Table() == last
      modifies this, cooldowns
      ensures var o := Deliver(fs, last, now, cooldown, cooldowns.precision, a);
              cooldowns.Table() == o.table && sent == old(sent) + o.sent
      ensures ok <==> AllWell(fs, last, now, cooldown, a)
    {
      ok := true;
      ghost var o := Deliver(fs[..0], last, now, cooldown, cooldowns.precision, a);
      for i := 0 to |fs|
        invariant o == Deliver(fs[..i], last, now, cooldown, cooldowns.precision, a)
        invariant cooldowns.Table() == o.table && sent == old(sent) + o.sent
        invariant ok <==> AllWell(fs[..i], last, now, cooldown, a)
      {
        DeliverSnoc(fs, i, last, now, cooldown, cooldowns.precision, a);
        AllWellSnoc(fs, i, last, now, cooldown, a);
        AppendsOnce(old(sent), o.sent, Sent(CooldownKey(fs[i]), now, a.record(i).Took()));
        var well := AnnounceOne(fs[i], i, last, now, cooldown, a);
        ok := ok && well;
        o := Deliver(fs[..i + 1], last, now, cooldown, cooldowns.precision, a);
      }
      assert fs[..|fs|] == fs;
    }

    method AnnounceOne(f: Finding, i: nat, last: CooldownSpec.Table, now: int, cooldown: int, a: Answers)
      returns (well: bool)
      requires cooldowns.precision > 0
      modifies this, cooldowns
      ensures var key := CooldownKey(f);
              if Due(last, key, now, cooldown) && a.delivered(i) then
                && sent == old(sent) + [Sent(key, now, a.record(i).Took())]
                && cooldowns.Table() ==
                   (if a.record(i).Took() then Announced(old(cooldowns.Table()), key, now, cooldowns.precision)
                    else old(cooldowns.Table()))
              else sent == old(sent) && cooldowns.Table() == old(cooldowns.Table())
      ensures well <==> Well(f, i, last, now, cooldown, a)
    {
      var key := CooldownKey(f);
      if key in last && now - last[key] < cooldown { return true; }
      if !a.delivered(i) { return false; }
      sent := sent + [Sent(key, now, a.record(i).Took())];
      well := cooldowns.RecordNotified(f, now, a.record(i));
    }
  }

  lemma AppendsOnce(before: seq<Sent>, sent: seq<Sent>, s: Sent)
    ensures (before + sent) + [s] == before + (sent + [s])
  {
  }
}
