/** Properties of the reconciliation that relate several calls: what a
    written record reads back as, how many writes it takes to settle, and the
    quirks of the comparison (order matters, a later check overrides the
    country list, an IP-only change writes no country list). */
module ReconcilerProperties {
  import opened Wrappers
  import opened Records
  import opened Reconciler

  /** Two country lists stored the same way are the same list. */
  lemma WrapInjective(a: seq<string>, b: seq<string>)
    requires Wrap(a) == Wrap(b)
    ensures a == b
  {
    assert |a| == |b|;
    forall k | 0 <= k < |a| ensures a[k] == b[k] {
      assert Wrap(a)[k] == Str(a[k]);
      assert Wrap(b)[k] == Str(b[k]);
    }
  }

  /** Reading back an answer that an update wrote: the metadata asks for no
      further write exactly when the written list is the desired one, and
      otherwise asks for the desired list. */
  lemma UpdatedAnswerVerdict(ip: string, use: Option<seq<string>>, countries: seq<string>)
    ensures ProcessAnswer(UpdatedAnswer(ip, use), countries) ==
              if use == Some(countries) then MetaVerdict(false, None) else MetaVerdict(true, Some(countries))
  {
    if use.Some? && StoresCountries(CountryValue(use), countries) {
      WrapInjective(use.value, countries);
    }
  }

  /** A record this service wrote, by a create or an update, matches the IP it
      was written with, whatever the record held before. */
  lemma WrittenRecordMatchesIp(zone: string, domain: string, ip: string, countries: seq<string>,
                               rec: Record, use: Option<seq<string>>)
    ensures CheckIP(ip, CreateRecord(zone, domain, ip, countries)) == Ok(true)
    ensures CheckIP(ip, UpdateRecord(rec, UpdatedAnswer(ip, use))) == Ok(true)
    ensures forall other :: other != ip ==> CheckIP(other, CreateRecord(zone, domain, ip, countries)) == Ok(false)
    ensures forall other :: other != ip ==> CheckIP(other, UpdateRecord(rec, UpdatedAnswer(ip, use))) == Ok(false)
  {
  }

  /** A record the provider does not return, for whatever reason, is always
      created, never updated; the created record has one answer carrying the
      current IP, `up: true`, and a country list only when there is one. */
  lemma FetchFailureCreates(domain: string, ip: string, zone: string, countries: seq<string>, err: FetchError)
    ensures var d := Decide(domain, ip, zone, countries, FetchFailed(err));
            && d.Create?
            && |d.rec.answers| == 1
            && d.rec.answers[0].rdata == [ip]
            && d.rec.answers[0].meta.Some?
            && d.rec.answers[0].meta.value.up == UpTrue
            && (d.rec.answers[0].meta.value.country != Nil <==> countries != [])
  {
  }

  /** A found record with no answers reaches the index panic whatever the IP
      and the desired countries are. */
  lemma NoAnswersCrashes(domain: string, ip: string, zone: string, countries: seq<string>, rec: Record)
    requires rec.answers == []
    ensures !CheckIP(ip, rec).value
    ensures Decide(domain, ip, zone, countries, Found(rec)) == Crash
  {
  }

  /** For a record with answers, a write happens if and only if the IP does
      not match or the metadata asks for one; the write replaces all answers
      by a single answer with the current IP, `up: true` and the countries
      the metadata comparison chose. */
  lemma WriteIffMismatch(domain: string, ip: string, zone: string, countries: seq<string>, rec: Record)
    requires |rec.answers| > 0
    ensures var d := Decide(domain, ip, zone, countries, Found(rec));
            var v := ProcessAnswer(rec.answers[0], countries);
            && (d.Update? <==> !CheckIP(ip, rec).value || v.shouldUpdate)
            && (d.Update? ==> d.rec.answers == [Answer([ip], Some(Meta(UpTrue, CountryValue(v.countriesToUse))))])
            && (d.Update? ==> d.rec.zone == rec.zone && d.rec.domain == rec.domain && d.rec.rtype == rec.rtype)
            && (!d.Update? ==> d.NoOp?)
  {
  }

  /** Countries are compared as ordered sequences: the same two codes in the
      other order ask for a rewrite with the desired list. */
  lemma CountryOrderMatters(rdata: seq<string>)
    ensures var stored := Answer(rdata, Some(Meta(UpTrue, List([Str("CA"), Str("US")]))));
            ProcessAnswer(stored, ["US", "CA"]) == MetaVerdict(true, Some(["US", "CA"]))
  {
    var v := List([Str("CA"), Str("US")]);
    ConvertsToIff(v, ["US", "CA"]);
    assert SliceFromInterface(v).strs == ["CA", "US"];
  }

  /** An `up` flag that is not `true` always asks for a write, and the list to
      write is the stored one, never the desired one, even when the stored list
      also differs from the desired one. */
  lemma DownKeepsStoredCountries(rdata: seq<string>, stored: seq<string>, up: Value, countries: seq<string>)
    requires up != UpTrue
    ensures ProcessAnswer(Answer(rdata, Some(Meta(up, List(Wrap(stored))))), countries) == MetaVerdict(true, Some(stored))
  {
    ConvertsToIff(List(Wrap(stored)), stored);
  }

  /** When the stored country value does not convert and `up` is not `true`,
      the last check wins and the list to write is empty, not the desired one. */
  lemma DownWithMalformedCountriesWritesEmpty(rdata: seq<string>, country: Value, up: Value, countries: seq<string>)
    requires up != UpTrue
    requires SliceFromInterface(country).err.Some?
    ensures ProcessAnswer(Answer(rdata, Some(Meta(up, country))), countries) == MetaVerdict(true, Some([]))
  {
  }

  /** When only the IP differs, the comparison keeps no country list and the
      update writes the answer without one. */
  lemma IpOnlyChangeDropsCountries(domain: string, ip: string, zone: string, countries: seq<string>, rec: Record)
    requires |rec.answers| > 0
    requires rec.answers[0].meta == Some(Meta(UpTrue, List(Wrap(countries))))
    requires |rec.answers[0].rdata| == 0 || rec.answers[0].rdata[0] != ip
    ensures Decide(domain, ip, zone, countries, Found(rec)) == Update(rec.(answers := [Answer([ip], Some(Meta(UpTrue, Nil)))]))
  {
  }

  /** A record created with a non-empty country list, read back with the same
      IP and list, needs nothing further. */
  lemma {:induction false} CreateThenNoOp(domain: string, ip: string, zone: string, countries: seq<string>)
    requires countries != []
    ensures Decide(domain, ip, zone, countries, Found(CreateRecord(zone, domain, ip, countries))) == NoOp
  {
    ConvertsToIff(CountryValue(Some(countries)), countries);
  }

  /** A record created with an empty country list carries no country value, so
      reading it back asks for an update writing the empty list. */
  lemma CreateWithoutCountriesIsRewritten(domain: string, ip: string, zone: string)
    ensures var rec := CreateRecord(zone, domain, ip, []);
            Decide(domain, ip, zone, [], Found(rec)) == Update(rec.(answers := [Answer([ip], Some(Meta(UpTrue, List([]))))]))
  {
  }

  /** The record after one reconciliation step, assuming the write took effect. */
  function Settle(domain: string, ip: string, zone: string, countries: seq<string>, rec: Record): (r: Record)
    ensures |rec.answers| > 0 ==> |r.answers| > 0
  {
    match Decide(domain, ip, zone, countries, Found(rec))
    case Update(written) => written
    case _ => rec
  }

  /** A record rewritten once is either settled or needs one more write, and
      that write puts the desired list in place. */
  lemma {:induction false} SecondUpdateWritesDesired(domain: string, ip: string, zone: string, countries: seq<string>, rec: Record)
    requires |rec.answers| > 0
    requires Decide(domain, ip, zone, countries, Found(rec)).Update?
    ensures var r1 := Settle(domain, ip, zone, countries, rec);
            var d := Decide(domain, ip, zone, countries, Found(r1));
            d.NoOp? || d == Update(r1.(answers := [UpdatedAnswer(ip, Some(countries))]))
  {
    var v := ProcessAnswer(rec.answers[0], countries);
    UpdatedAnswerVerdict(ip, v.countriesToUse, countries);
  }

  /** An existing record settles after at most two writes: whatever it held,
      two reconciliation steps with the same IP and list leave nothing to do. */
  lemma {:induction false} SettlesWithinTwoWrites(domain: string, ip: string, zone: string, countries: seq<string>, rec: Record)
    requires |rec.answers| > 0
    ensures var r2 := Settle(domain, ip, zone, countries, Settle(domain, ip, zone, countries, rec));
            Decide(domain, ip, zone, countries, Found(r2)) == NoOp
  {
    var r1 := Settle(domain, ip, zone, countries, rec);
    if Decide(domain, ip, zone, countries, Found(rec)).Update? {
      SecondUpdateWritesDesired(domain, ip, zone, countries, rec);
      if Decide(domain, ip, zone, countries, Found(r1)).Update? {
        UpdatedAnswerVerdict(ip, Some(countries), countries);
      }
    }
  }

  /** A missing record settles after at most one write beyond its creation. */
  lemma {:induction false} CreatedRecordSettles(domain: string, ip: string, zone: string, countries: seq<string>)
    ensures var r := Settle(domain, ip, zone, countries, CreateRecord(zone, domain, ip, countries));
            Decide(domain, ip, zone, countries, Found(r)) == NoOp
  {
    var created := CreateRecord(zone, domain, ip, countries);
    if countries == [] {
      CreateWithoutCountriesIsRewritten(domain, ip, zone);
      UpdatedAnswerVerdict(ip, Some([]), []);
    } else {
      CreateThenNoOp(domain, ip, zone, countries);
    }
  }

  /** The stored form of the default list `["US", "CA"]`. */
  lemma WrapUsCa()
    ensures Wrap(["US", "CA"]) == [Str("US"), Str("CA")]
  {
    var w := Wrap(["US", "CA"]);
    assert w[0] == Str("US") && w[1] == Str("CA");
  }

  /** No record for `home.example.com`: it is created with the current IP, `up`
      and the desired list. */
  lemma ScenarioCreateHome()
    ensures Decide("home.example.com", "203.0.113.5", "example.com", ["US", "CA"], FetchFailed(NotFound))
            == Create(Record("example.com", "home.example.com", "A",
                             [Answer(["203.0.113.5"], Some(Meta(UpTrue, List([Str("US"), Str("CA")]))))]))
  {
    WrapUsCa();
  }

  /** A stale IP with matching metadata is updated to the current IP, and
      without a country list. */
  lemma ScenarioStaleIp()
    ensures var rec := Record("example.com", "home.example.com", "A",
                              [Answer(["198.51.100.1"], Some(Meta(UpTrue, List([Str("US"), Str("CA")]))))]);
            Decide("home.example.com", "203.0.113.9", "example.com", ["US", "CA"], Found(rec))
            == Update(rec.(answers := [Answer(["203.0.113.9"], Some(Meta(UpTrue, Nil)))]))
  {
    var rec := Record("example.com", "home.example.com", "A",
                      [Answer(["198.51.100.1"], Some(Meta(UpTrue, List([Str("US"), Str("CA")]))))]);
    WrapUsCa();
    IpOnlyChangeDropsCountries("home.example.com", "203.0.113.9", "example.com", ["US", "CA"], rec);
  }

  /** Test mode reports exactly what the real run does: it says "would
      create" where the real run creates and issues the create call, "would
      update" where the real run updates and issues the update call, and in
      every other case both runs report the same and issue nothing. */
  lemma TestModeMirrorsRealRun(d: Decision, domain: string, ip: string)
    ensures var dry := Apply(d, domain, ip, true);
            var live := Apply(d, domain, ip, false);
            && dry.calls == []
            && (dry.outcome.WouldCreate? <==> live.outcome.Created?)
            && (dry.outcome.WouldUpdate? <==> live.outcome.Updated?)
            && (live.outcome.Created? ==> live.calls == [CreateCall(live.outcome.rec)])
            && (live.outcome.Updated? ==> live.calls == [UpdateCall(live.outcome.rec)])
            && (!d.Create? && !d.Update? ==> dry == live && live.calls == [])
  {
  }
}
