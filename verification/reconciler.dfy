/** The per-subdomain reconciliation: comparing the current IP and the desired
    country list with the record the provider returned, deciding between
    leaving it, creating it and updating it, building the answer to write,
    and applying the decision with or without test mode. */
module Reconciler {
  import opened Wrappers
  import opened Records

  /** Why the provider did not return a record. The decision treats both the same. */
  datatype FetchError = NotFound | Transport(msg: string)

  /** The provider's answer to a record lookup. */
  datatype Fetched = Found(rec: Record) | FetchFailed(err: FetchError)

  /** What the metadata comparison concluded: whether a write is needed, and
      the country list to write (`None` is Go's nil slice). */
  datatype MetaVerdict = MetaVerdict(shouldUpdate: bool, countriesToUse: Option<seq<string>>)

  /** The decision for one subdomain. `Crash` is the index panic the source
      hits on a record that has no answers. */
  datatype Decision = NoOp | Create(rec: Record) | Update(rec: Record) | Crash

  /** A mutating call to the provider. */
  datatype Call = CreateCall(rec: Record) | UpdateCall(rec: Record)

  /** What processing one subdomain reported. */
  datatype Outcome =
    | Unchanged
    | WouldCreate(domain: string, ip: string)
    | Created(rec: Record)
    | WouldUpdate(domain: string, ip: string)
    | Updated(rec: Record)
    | Panicked

  /** An outcome together with the mutating calls issued to reach it. */
  datatype Applied = Applied(outcome: Outcome, calls: seq<Call>)

  /** The metadata value `up: true`. */
  const UpTrue := Bool(true)

  /** The value stored under `country` is exactly the list `cs`, in order. */
  predicate StoresCountries(v: Value, cs: seq<string>) {
    v == List(Wrap(cs))
  }

  /** Whether the current IP equals the first rdata entry of the first answer.
      It never fails: a record without answers, or a first answer without
      rdata, is a mismatch. */
  function CheckIP(myIP: string, rec: Record): (r: Result<bool, string>)
    ensures r.Ok?
    ensures r.value <==> && |rec.answers| > 0
                         && |rec.answers[0].rdata| > 0
                         && rec.answers[0].rdata[0] == myIP
  {
    if |rec.answers| == 0 then Ok(false)
    else if |rec.answers[0].rdata| == 0 then Ok(false)
    else Ok(rec.answers[0].rdata[0] == myIP)
  }

  /** The metadata comparison. Its three checks run in order and a later one
      overrides the country list an earlier one chose: a missing metadata
      block, a country value that does not convert, or a converted list
      that differs from `countries` as an ordered sequence each ask for the
      desired list; an `up` flag that is not the boolean `true` asks for the
      stored list instead, which is empty when it did not convert. */
  function ProcessAnswer(a: Answer, countries: seq<string>): (v: MetaVerdict)
    ensures a.meta.None? ==> v == MetaVerdict(true, Some(countries))
    ensures !v.shouldUpdate <==> && a.meta.Some?
                                 && StoresCountries(a.meta.value.country, countries)
                                 && a.meta.value.up == UpTrue
    ensures !v.shouldUpdate ==> v.countriesToUse.None?
    ensures a.meta.Some? && a.meta.value.up != UpTrue ==>
              v == MetaVerdict(true, Some(SliceFromInterface(a.meta.value.country).strs))
    ensures a.meta.Some? && a.meta.value.up == UpTrue && v.shouldUpdate ==>
              v.countriesToUse == Some(countries)
  {
    match a.meta
    case None => MetaVerdict(true, Some(countries))
    case Some(m) =>
      var countryMeta := SliceFromInterface(m.country);
      ConvertsToIff(m.country, countries);
      var afterConversion :=
        if countryMeta.err.Some? then MetaVerdict(true, Some(countries)) else MetaVerdict(false, None);
      var afterCompare :=
        if countryMeta.strs != countries then MetaVerdict(true, Some(countries)) else afterConversion;
      if m.up != UpTrue then MetaVerdict(true, Some(countryMeta.strs)) else afterCompare
  }

  /** The answer a create writes: the current IP as the only rdata, `up`
      set, and the country list only when it is non-empty. */
  function CreatedAnswer(ip: string, countries: seq<string>): (a: Answer)
    ensures a.rdata == [ip]
    ensures a.meta.Some? && a.meta.value.up == UpTrue
    ensures a.meta.value.country == Nil <==> countries == []
    ensures countries != [] ==> StoresCountries(a.meta.value.country, countries)
  {
    var data := if |countries| > 0 then Meta(UpTrue, CountryValue(Some(countries))) else Meta(UpTrue, Nil);
    Answer([ip], Some(data))
  }

  /** The new `A` record for `domain` in `zone`, holding exactly one answer. */
  function CreateRecord(zone: string, domain: string, ip: string, countries: seq<string>): (r: Record)
    ensures r.zone == zone && r.domain == domain && r.rtype == "A"
    ensures r.answers == [CreatedAnswer(ip, countries)]
  {
    Record(zone, domain, "A", [CreatedAnswer(ip, countries)])
  }

  /** The answer an update writes: the current IP as the only rdata, `up`
      set, and the chosen country list (nothing when it is nil). */
  function UpdatedAnswer(ip: string, use: Option<seq<string>>): (a: Answer)
    ensures a.rdata == [ip]
    ensures a.meta.Some? && a.meta.value.up == UpTrue
    ensures use.None? ==> a.meta.value.country == Nil
    ensures use.Some? ==> StoresCountries(a.meta.value.country, use.value)
  {
    Answer([ip], Some(Meta(UpTrue, CountryValue(use))))
  }

  /** The record an update sends: every answer replaced by the single new one,
      everything else as fetched. */
  function UpdateRecord(rec: Record, a: Answer): (r: Record)
    ensures r.answers == [a]
    ensures r.(answers := rec.answers) == rec
  {
    rec.(answers := [a])
  }

  /** The decision for `domain`. Any lookup failure means create; a found
      record with no answers crashes; otherwise the record is rewritten when
      the IP does not match or the metadata asks for it, and left alone
      otherwise. */
  function Decide(domain: string, currentIP: string, zone: string, countries: seq<string>, fetched: Fetched): (d: Decision)
    ensures d.Create? <==> fetched.FetchFailed?
    ensures d.Create? ==> d.rec == CreateRecord(zone, domain, currentIP, countries)
    ensures d.Crash? <==> fetched.Found? && fetched.rec.answers == []
    ensures d.Update? ==> && fetched.Found?
                          && d.rec == UpdateRecord(fetched.rec, UpdatedAnswer(currentIP, ProcessAnswer(fetched.rec.answers[0], countries).countriesToUse))
    ensures d.NoOp? <==> && fetched.Found?
                         && |fetched.rec.answers| > 0
                         && CheckIP(currentIP, fetched.rec).value
                         && !ProcessAnswer(fetched.rec.answers[0], countries).shouldUpdate
  {
    match fetched
    case FetchFailed(_) => Create(CreateRecord(zone, domain, currentIP, countries))
    case Found(rec) =>
      var ipMatches := CheckIP(currentIP, rec).value;
      if |rec.answers| == 0 then Crash
      else
        var v := ProcessAnswer(rec.answers[0], countries);
        if !ipMatches || v.shouldUpdate then
          Update(UpdateRecord(rec, UpdatedAnswer(currentIP, v.countriesToUse)))
        else
          NoOp
  }

  /** Carries out a decision. In test mode no call is issued and the outcome
      says what would have been done; otherwise a create or an update issues
      exactly one call carrying the decided record. */
  function Apply(d: Decision, domain: string, currentIP: string, test: bool): (ap: Applied)
    ensures test || d.NoOp? || d.Crash? ==> ap.calls == []
    ensures !test && d.Create? ==> ap.calls == [CreateCall(d.rec)] && ap.outcome == Created(d.rec)
    ensures !test && d.Update? ==> ap.calls == [UpdateCall(d.rec)] && ap.outcome == Updated(d.rec)
    ensures test && d.Create? ==> ap.outcome == WouldCreate(domain, currentIP)
    ensures test && d.Update? ==> ap.outcome == WouldUpdate(domain, currentIP)
    ensures d.NoOp? ==> ap.outcome == Unchanged
    ensures ap.outcome.Panicked? <==> d.Crash?
  {
    match d
    case NoOp => Applied(Unchanged, [])
    case Crash => Applied(Panicked, [])
    case Create(r) => if test then Applied(WouldCreate(domain, currentIP), []) else Applied(Created(r), [CreateCall(r)])
    case Update(r) => if test then Applied(WouldUpdate(domain, currentIP), []) else Applied(Updated(r), [UpdateCall(r)])
  }

  /** One subdomain end to end, given the provider's answer to the lookup. */
  function ProcessSubdomain(domain: string, currentIP: string, zone: string, fetched: Fetched,
                            countries: seq<string>, test: bool): (ap: Applied)
    ensures |ap.calls| <= 1
    ensures test ==> ap.calls == []
    ensures fetched.FetchFailed? && !test ==> ap.calls == [CreateCall(CreateRecord(zone, domain, currentIP, countries))]
    ensures fetched.FetchFailed? ==> forall k :: 0 <= k < |ap.calls| ==> ap.calls[k].CreateCall?
  {
    Apply(Decide(domain, currentIP, zone, countries, fetched), domain, currentIP, test)
  }
}
