/** One run over the configured domains: the default country list, the skip
    rules for a failed zone lookup and a failed IP resolution, the
    per-subdomain reconciliation against the provider's records, and the
    panic that ends the run. Domains are visited in the order given (the
    source iterates a map, whose order is unspecified). */
module Orchestrator {
  import opened Wrappers
  import opened Records
  import opened Resolver
  import opened Reconciler
  import opened ReconcilerProperties

  /** The settings of one domain that the reconciliation reads. */
  datatype DomainConfig = DomainConfig(test: bool, debug: bool, timeout: int, delay: int,
                                       allowedCountries: seq<string>, hosts: seq<Host>)

  /** The country list used when a domain configures none. */
  const DefaultAllowedCountries: seq<string> := ["US", "CA"]

  /** The timeout, in seconds, a provider client uses when none is configured. */
  const DefaultTimeout := 30

  /** A domain's allowed countries, replaced by the default list when empty. */
  function DefaultCountries(cs: seq<string>): (r: seq<string>)
    ensures r != []
    ensures cs != [] ==> r == cs
    ensures cs == [] ==> r == DefaultAllowedCountries
  {
    if |cs| == 0 then DefaultAllowedCountries else cs
  }

  /** The timeout a provider client is built with: positive always, and the
      configured value whenever that is itself positive. */
  function ClampTimeout(t: int): (r: int)
    ensures r >= 1
    ensures t >= 1 ==> r == t
    ensures t < 1 ==> r == DefaultTimeout
  {
    if t < 1 then DefaultTimeout else t
  }

  /** The provider's records, by zone and fully-qualified name. */
  datatype Provider = Provider(records: map<(string, string), Record>)

  /** The provider's answer to a lookup of `fqdn` in `zone`. */
  function GetRecord(p: Provider, zone: string, fqdn: string): (f: Fetched)
    ensures f.Found? <==> (zone, fqdn) in p.records
    ensures f.Found? ==> f.rec == p.records[(zone, fqdn)]
  {
    if (zone, fqdn) in p.records then Found(p.records[(zone, fqdn)]) else FetchFailed(NotFound)
  }

  /** The provider after the calls issued for `fqdn` took effect: the record
      of the last call is stored under that name, and nothing else changes. */
  function Commit(p: Provider, zone: string, fqdn: string, calls: seq<Call>): (q: Provider)
    ensures calls == [] ==> q == p
    ensures calls != [] ==> q.records == p.records[(zone, fqdn) := calls[|calls| - 1].rec]
  {
    if calls == [] then p else Provider(p.records[(zone, fqdn) := calls[|calls| - 1].rec])
  }

  /** What a run reports. */
  datatype Event =
    | Processed(fqdn: string, outcome: Outcome)
    | HostSkipped(host: string, err: IPError)
    | ZoneSkipped(domain: string, msg: string)

  /** The state of a run: the provider's records, the report so far, every
      mutating call issued, and whether a panic has ended the run. */
  datatype RunState = RunState(provider: Provider, events: seq<Event>, calls: seq<Call>, halted: bool)

  /** `r` continues `s`: it keeps the report and the calls of `s` as prefixes,
      and a run that had ended stays as it was. */
  predicate Continues(s: RunState, r: RunState) {
    && |s.events| <= |r.events| && r.events[..|s.events|] == s.events
    && |s.calls| <= |r.calls| && r.calls[..|s.calls|] == s.calls
    && (s.halted ==> r == s)
  }

  /** Continuing is transitive: prefixes of prefixes are prefixes. */
  lemma ContinuesTransitive(a: RunState, b: RunState, c: RunState)
    requires Continues(a, b) && Continues(b, c)
    ensures Continues(a, c)
  {
    assert c.events[..|a.events|] == b.events[..|a.events|];
    assert c.calls[..|a.calls|] == b.calls[..|a.calls|];
  }

  /** The last event of the report is a panic. */
  predicate EndsInPanic(s: RunState) {
    |s.events| > 0 && s.events[|s.events| - 1].Processed? && s.events[|s.events| - 1].outcome.Panicked?
  }

  /** Reconciles one subdomain of a host against the provider's current
      records, reports its outcome, and stores whatever was written. */
  function Visit(s: RunState, domain: string, zone: string, ip: string, sub: string,
                 countries: seq<string>, test: bool): (r: RunState)
    ensures |r.events| == |s.events| + 1 && r.events[..|s.events|] == s.events
    ensures r.events[|s.events|].Processed? && r.events[|s.events|].fqdn == FullSubdomain(domain, sub)
    ensures |s.calls| <= |r.calls| <= |s.calls| + 1 && r.calls[..|s.calls|] == s.calls
    ensures test ==> r.calls == s.calls && r.provider == s.provider
    ensures r.halted <==> EndsInPanic(r)
    ensures var fqdn := FullSubdomain(domain, sub);
            var d := Decide(fqdn, ip, zone, countries, GetRecord(s.provider, zone, fqdn));
            && (d.NoOp? || d.Crash? ==> r.provider == s.provider)
            && (d.NoOp? ==> r.events[|s.events|] == Processed(fqdn, Unchanged))
            && (r.halted <==> d.Crash?)
            && (!test && (d.Create? || d.Update?) ==> r.provider.records == s.provider.records[(zone, fqdn) := d.rec])
  {
    var fqdn := FullSubdomain(domain, sub);
    var ap := ProcessSubdomain(fqdn, ip, zone, GetRecord(s.provider, zone, fqdn), countries, test);
    RunState(Commit(s.provider, zone, fqdn, ap.calls), s.events + [Processed(fqdn, ap.outcome)],
             s.calls + ap.calls, ap.outcome.Panicked?)
  }

  /** Reconciles the subdomains `labels` of one host, in order, against the
      provider as it evolves. Each label adds one event and at most one call;
      test mode adds no call and leaves the provider alone; a panic ends the
      run at that label. */
  function ProcessSubdomains(s: RunState, domain: string, zone: string, ip: string, labels: seq<string>,
                             countries: seq<string>, test: bool): (r: RunState)
    ensures Continues(s, r)
    ensures !s.halted ==> |r.events| <= |s.events| + |labels|
    ensures |r.calls| <= |s.calls| + |labels|
    ensures test ==> r.calls == s.calls && r.provider == s.provider
    ensures r.halted && !s.halted ==> EndsInPanic(r)
    decreases |labels|
  {
    if s.halted || labels == [] then s
    else
      var next := Visit(s, domain, zone, ip, labels[0], countries, test);
      var r := ProcessSubdomains(next, domain, zone, ip, labels[1..], countries, test);
      ContinuesTransitive(s, next, r);
      r
  }

  /** Reconciles the hosts of one domain in order. A host whose IP cannot be
      resolved is reported and its subdomains skipped; the others proceed. */
  function ProcessHosts(s: RunState, domain: string, zone: string, hosts: seq<Host>, net: Network,
                        countries: seq<string>, test: bool): (r: RunState)
    ensures Continues(s, r)
    ensures test ==> r.calls == s.calls && r.provider == s.provider
    ensures r.halted && !s.halted ==> EndsInPanic(r)
    decreases |hosts|
  {
    if s.halted || hosts == [] then s
    else
      var h := hosts[0];
      var next := match GetIP(h, net)
        case Err(e) => s.(events := s.events + [HostSkipped(h.name, e)])
        case Ok(ip) => ProcessSubdomains(s, domain, zone, ip, h.subdomains, countries, test);
      var r := ProcessHosts(next, domain, zone, hosts[1..], net, countries, test);
      ContinuesTransitive(s, next, r);
      r
  }

  /** Reconciles one domain: a failed zone lookup is reported and skips all its
      hosts; otherwise its hosts run with the defaulted country list. */
  function ProcessDomain(s: RunState, domain: string, conf: DomainConfig, zone: Result<string, string>,
                         net: Network): (r: RunState)
    ensures Continues(s, r)
    ensures conf.test ==> r.calls == s.calls && r.provider == s.provider
    ensures zone.Err? && !s.halted ==> r == s.(events := s.events + [ZoneSkipped(domain, zone.error)])
    ensures r.halted && !s.halted ==> EndsInPanic(r)
  {
    if s.halted then s
    else
      match zone
      case Err(msg) => s.(events := s.events + [ZoneSkipped(domain, msg)])
      case Ok(z) => ProcessHosts(s, domain, z, conf.hosts, net, DefaultCountries(conf.allowedCountries), conf.test)
  }

  /** A whole run over the configured domains, in the given order. */
  function Run(s: RunState, domains: seq<(string, DomainConfig)>, zones: string -> Result<string, string>,
               net: Network): (r: RunState)
    ensures Continues(s, r)
    ensures r.halted && !s.halted ==> EndsInPanic(r)
    decreases |domains|
  {
    if s.halted || domains == [] then s
    else
      var next := ProcessDomain(s, domains[0].0, domains[0].1, zones(domains[0].0), net);
      var r := Run(next, domains[1..], zones, net);
      ContinuesTransitive(s, next, r);
      r
  }

  /** Every domain runs in test mode. */
  predicate AllTest(domains: seq<(string, DomainConfig)>) {
    forall k :: 0 <= k < |domains| ==> domains[k].1.test
  }

  /** When every domain is in test mode, a whole run issues no mutating call
      and leaves the provider's records exactly as they were. */
  lemma {:induction false} DryRunChangesNothing(s: RunState, domains: seq<(string, DomainConfig)>,
                                                zones: string -> Result<string, string>, net: Network)
    requires AllTest(domains)
    ensures Run(s, domains, zones, net).calls == s.calls
    ensures Run(s, domains, zones, net).provider == s.provider
    decreases |domains|
  {
    if !s.halted && domains != [] {
      var next := ProcessDomain(s, domains[0].0, domains[0].1, zones(domains[0].0), net);
      assert domains[0].1.test;
      assert AllTest(domains[1..]) by {
        forall k | 0 <= k < |domains[1..]| ensures domains[1..][k].1.test {
          assert domains[1..][k] == domains[k + 1];
        }
      }
      DryRunChangesNothing(next, domains[1..], zones, net);
    }
  }

  /** A host whose IP cannot be resolved issues no call and leaves the
      provider alone; only its failure is reported, and the next host runs
      from the same provider state. */
  lemma HostFailureSkipsSubdomains(s: RunState, domain: string, zone: string, hosts: seq<Host>, net: Network,
                                   countries: seq<string>, test: bool)
    requires !s.halted && hosts != []
    requires GetIP(hosts[0], net).Err?
    ensures ProcessHosts(s, domain, zone, hosts, net, countries, test)
            == ProcessHosts(s.(events := s.events + [HostSkipped(hosts[0].name, GetIP(hosts[0], net).error)]),
                            domain, zone, hosts[1..], net, countries, test)
  {
  }

  /** A host whose IP resolves runs its subdomains, in order, with that IP,
      and the next host runs from the state they leave. */
  lemma HostSuccessRunsSubdomains(s: RunState, domain: string, zone: string, hosts: seq<Host>, net: Network,
                                  countries: seq<string>, test: bool)
    requires !s.halted && hosts != []
    requires GetIP(hosts[0], net).Ok?
    ensures ProcessHosts(s, domain, zone, hosts, net, countries, test)
            == ProcessHosts(ProcessSubdomains(s, domain, zone, GetIP(hosts[0], net).value, hosts[0].subdomains,
                                              countries, test),
                            domain, zone, hosts[1..], net, countries, test)
  {
  }

  /** A domain whose zone is found runs its hosts in that zone, in test mode
      exactly when the domain is configured so, with the allowed countries
      defaulted to `["US", "CA"]` when none are configured. */
  lemma ZoneFoundRunsHosts(s: RunState, domain: string, conf: DomainConfig, zone: string, net: Network)
    requires !s.halted
    ensures ProcessDomain(s, domain, conf, Ok(zone), net)
            == ProcessHosts(s, domain, zone, conf.hosts, net,
                            if conf.allowedCountries == [] then DefaultAllowedCountries else conf.allowedCountries,
                            conf.test)
  {
  }

  /** The domains run in the given order: the first one, then the rest from
      the state it leaves. */
  lemma RunFirstDomain(s: RunState, domains: seq<(string, DomainConfig)>, zones: string -> Result<string, string>,
                       net: Network)
    requires !s.halted && domains != []
    ensures Run(s, domains, zones, net)
            == Run(ProcessDomain(s, domains[0].0, domains[0].1, zones(domains[0].0), net), domains[1..], zones, net)
  {
  }

  /** A panic on one subdomain ends the run: the remaining domains are not
      visited. */
  lemma PanicEndsRun(s: RunState, domains: seq<(string, DomainConfig)>, zones: string -> Result<string, string>,
                     net: Network)
    requires s.halted
    ensures Run(s, domains, zones, net) == s
  {
  }

  /** The record the provider holds for a subdomain after one visit outside
      test mode: the created record, the settled record, or the one it held. */
  lemma VisitStores(s: RunState, domain: string, zone: string, ip: string, sub: string, countries: seq<string>)
    requires !s.halted
    requires var f := GetRecord(s.provider, zone, FullSubdomain(domain, sub)); !(f.Found? && f.rec.answers == [])
    ensures var fqdn := FullSubdomain(domain, sub);
            var r := Visit(s, domain, zone, ip, sub, countries, false);
            && !r.halted
            && match GetRecord(s.provider, zone, fqdn)
               case FetchFailed(_) => GetRecord(r.provider, zone, fqdn) == Found(CreateRecord(zone, fqdn, ip, countries))
               case Found(rec) => GetRecord(r.provider, zone, fqdn) == Found(Settle(fqdn, ip, zone, countries, rec))
  {
  }

  /** The first label of a host is visited first, then the rest. */
  lemma ProcessFirstLabel(s: RunState, domain: string, zone: string, ip: string, labels: seq<string>,
                          countries: seq<string>, test: bool)
    requires !s.halted && labels != []
    ensures ProcessSubdomains(s, domain, zone, ip, labels, countries, test)
            == ProcessSubdomains(Visit(s, domain, zone, ip, labels[0], countries, test), domain, zone, ip,
                                 labels[1..], countries, test)
  {
  }

  /** Two visits of a subdomain outside test mode leave a record that needs
      nothing further, unless the provider held a record with no answers. */
  lemma {:induction false} TwoVisitsSettle(s: RunState, domain: string, zone: string, ip: string, sub: string,
                                           countries: seq<string>)
    requires !s.halted
    requires var f := GetRecord(s.provider, zone, FullSubdomain(domain, sub)); !(f.Found? && f.rec.answers == [])
    ensures var s1 := Visit(s, domain, zone, ip, sub, countries, false);
            var s2 := Visit(s1, domain, zone, ip, sub, countries, false);
            var fqdn := FullSubdomain(domain, sub);
            && !s1.halted && !s2.halted
            && Decide(fqdn, ip, zone, countries, GetRecord(s2.provider, zone, fqdn)) == NoOp
  {
    var fqdn := FullSubdomain(domain, sub);
    VisitStores(s, domain, zone, ip, sub, countries);
    var s1 := Visit(s, domain, zone, ip, sub, countries, false);
    VisitStores(s1, domain, zone, ip, sub, countries);
    match GetRecord(s.provider, zone, fqdn)
    case FetchFailed(_) =>
      CreatedRecordSettles(fqdn, ip, zone, countries);
    case Found(rec) =>
      SettlesWithinTwoWrites(fqdn, ip, zone, countries, rec);
  }

  /** Reconciling the same subdomain three times in a row, outside test mode
      and with the same IP and countries, leaves nothing to do the third
      time, whatever the provider held, unless it held a record with no
      answers. */
  lemma {:induction false} ThirdVisitUnchanged(s: RunState, domain: string, zone: string, ip: string, sub: string,
                                               countries: seq<string>)
    requires !s.halted
    requires var f := GetRecord(s.provider, zone, FullSubdomain(domain, sub)); !(f.Found? && f.rec.answers == [])
    ensures var r := ProcessSubdomains(s, domain, zone, ip, [sub, sub, sub], countries, false);
            && !r.halted
            && |r.events| == |s.events| + 3
            && r.events[|r.events| - 1] == Processed(FullSubdomain(domain, sub), Unchanged)
  {
    TwoVisitsSettle(s, domain, zone, ip, sub, countries);
    var s1 := Visit(s, domain, zone, ip, sub, countries, false);
    var s2 := Visit(s1, domain, zone, ip, sub, countries, false);
    var s3 := Visit(s2, domain, zone, ip, sub, countries, false);
    ProcessFirstLabel(s, domain, zone, ip, [sub, sub, sub], countries, false);
    assert [sub, sub, sub][1..] == [sub, sub];
    ProcessFirstLabel(s1, domain, zone, ip, [sub, sub], countries, false);
    assert [sub, sub][1..] == [sub];
    ProcessFirstLabel(s2, domain, zone, ip, [sub], countries, false);
    assert ProcessSubdomains(s3, domain, zone, ip, [], countries, false) == s3;
    assert ProcessSubdomains(s2, domain, zone, ip, [sub], countries, false) == s3;
    assert ProcessSubdomains(s1, domain, zone, ip, [sub, sub], countries, false) == s3;
    assert ProcessSubdomains(s, domain, zone, ip, [sub, sub, sub], countries, false) == s3;
  }
}
