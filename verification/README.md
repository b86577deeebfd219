# NS1 dynamic DNS reconciliation, modelled in Dafny

This project models the reconciliation core of a small Go service. The
service keeps NS1 `A` records for configured subdomains pointing at the
current public IP of the host that owns them. For one fully-qualified
subdomain, the core decides whether the record is left alone, created or
updated. It also builds the answer payload to write: the IP as the only
rdata, `up: true`, and the allowed-country list. Test mode turns a create
or update into a "would create / would update" report.

Modules (all in one Go file, `main.go`):

- `Wrappers` (`wrappers.dfy`): `Option` and `Result`, standing in for nil pointers and `(value, error)` pairs.
- `Records` (`records.dfy`): the record, answer and metadata shapes; the untyped metadata `Value`; `SliceFromInterface`; `FullSubdomain`.
- `Resolver` (`resolver.dfy`): `GetIP`'s dispatch on the method tag, the cloud-instance "first IPv4 address" rule, and the external probe's status, decoding and white-space trimming. White space is Go's `unicode.IsSpace` set, the Unicode White_Space property, listed by code point in `IsSpace`.
- `Reconciler` (`reconciler.dfy`): `CheckIP`, `ProcessAnswer`, answer and record construction, the `Decide` function (`NoOp | Create | Update | Crash`) and `Apply` with its test-mode gate.
- `ReconcilerProperties` (`reconciler_properties.dfy`): lemmas that relate several calls. They cover read-back of written records, settling within two writes, and the comparison's quirks.
- `Orchestrator` (`orchestrator.dfy`): the run over domains, hosts and subdomains against an evolving provider state. Covers the default country list, the skip rules, the panic that ends the run, test mode's "no calls", and settling after repeated visits.

Modelling choices:

- The SDK's `Meta.Up` and `Meta.Country` are untyped (`interface{}`). The model uses `Value` in the form the provider's client decodes from JSON. So `Up != true` becomes `up != Bool(true)`.
- For the chosen list `countriesToUse`, a Go nil slice is kept apart from an empty one. It is nil when the metadata asks for no write. It is modelled as `Option<seq<string>>`, where `None` is nil. A nil list is written as no country value (`Nil`).
- Records the service writes are assumed to come back from the provider exactly as written. A written `[]string` comes back as a `List` of `Str` values (`Wrap`). This assumption underlies the read-back and settling lemmas.
- A record with no answers passes `checkIP` and then panics on `record.Answers[0]`. The model has a distinct `Crash` decision for this. In the orchestration the panic ends the whole run.
- The provider is a map from (zone, fully-qualified name) to a record. A lookup finds the record stored under that key and otherwise fails with "not found" (`GetRecord`). A create or update stores the record of the call under that key and changes nothing else (`Commit`).
- `checkIP` never returns an error (`CheckIP` is always `Ok`). So the error branch in `processSubdomain` cannot be reached and has no counterpart.

The model keeps these behaviours of the code, some of them surprising:

- Country lists are compared as ordered sequences, not as sets. `["CA","US"]` against `["US","CA"]` asks for a rewrite (`CountryOrderMatters`).
- If `up` is not `true`, the stored list is written even when it differs from the desired one. When the stored value did not convert, that stored list is empty (`DownKeepsStoredCountries`, `DownWithMalformedCountriesWritesEmpty`).
- If only the IP changed, the update writes no country list, not the desired one (`IpOnlyChangeDropsCountries`, `ScenarioStaleIp`).
- Every lookup error leads to a create, whether it was "not found" or a transport failure (`FetchFailureCreates`).
- A record with zero answers crashes. `checkIP` reports it as a mismatch, but the index `record.Answers[0]` (main.go:373) panics before any update is built (`NoAnswersCrashes`).
- A create with an empty country list omits the country value. Reading it back therefore asks for one more update (`CreateWithoutCountriesIsRewritten`).
- The method tags are `LinodeAPI` and `external`, matched exactly and case-sensitively (`CapitalisedExternalIsUnknown`).

## Model

| member | source | states |
|---|---|---|
| Records.FullSubdomain | main.go:268-276 | `@` gives the zone itself and is the only label that does; any other label gives `label + "." + zone`; the result always ends with the zone |
| Records.ConvertFrom | main.go:253-262 | the element loop keeps every string in order and stops at the first non-string, reporting its index with an empty list |
| Records.SliceFromInterface | main.go:251-266 | succeeds iff the value is a list of strings; on success the same length and order; on any failure an empty list plus an error (not a list, or the first non-string index) |
| Records.ConvertsToIff | main.go:252-265 | a value converts to exactly `cs` iff it is the untyped list of the strings of `cs`, in order |
| Records.Wrap | main.go:221 | the untyped form of a written `[]string` has the same length and holds each string at the same index |
| Records.CountryValue | main.go:378-385 | a nil list is written as no country value, which reads back as a "not a list" conversion failure; any other list is written so that the conversion reads it back as exactly itself |
| Resolver.LeadingSpaces | main.go:151 | counts exactly the white space at the start |
| Resolver.TrailingSpaces | main.go:151 | counts exactly the white space at the end |
| Resolver.TrimSpace | main.go:151 | the result is an infix of the input with only white space cut off either end, and neither starts nor ends with white space; empty iff the input is all white space |
| Resolver.TrimSpaceIdempotent | main.go:151 | trimming a trimmed string changes nothing |
| Resolver.LinodeAPICheck | main.go:98-115 | succeeds iff the instance lookup succeeded with at least one IPv4 address, and then returns the first; zero addresses give the no-IPv4 error |
| Resolver.ExternalWAN | main.go:136-151 | succeeds iff the probe replied 200 with a decodable body, returning the trimmed IP; any other status is an error carrying that status |
| Resolver.GetIP | main.go:154-170 | `LinodeAPI` uses the cloud lookup, `external` the probe; the unknown-method error occurs exactly for every other tag |
| Resolver.CapitalisedExternalIsUnknown | main.go:162-168 | the tag `External` is rejected as unknown |
| Reconciler.CheckIP | main.go:172-196 | never fails; true iff there is an answer, it has rdata, and its first rdata equals the current IP |
| Reconciler.ProcessAnswer | main.go:308-341 | no write is asked for iff metadata exists, stores exactly the desired list in order, and `up` is `true`; absent metadata gives `(true, desired)`; `up` not `true` gives `(true, stored list)`; otherwise a write carries the desired list and a no-write carries nil |
| Reconciler.CreatedAnswer | main.go:215-233 | rdata is `[ip]` and `up` is `true`; the country value is present iff the list is non-empty, and is then that list |
| Reconciler.CreateRecord | main.go:213-241 | an `A` record for the given zone and name holding exactly the one created answer |
| Reconciler.UpdatedAnswer | main.go:378-385 | rdata is `[ip]` and `up` is `true`; the country value is absent for a nil list and is the chosen list otherwise |
| Reconciler.UpdateRecord | main.go:198-202 | every answer is replaced by the single new one and every other field is kept |
| Reconciler.Decide | main.go:343-388 | create iff the lookup failed; crash iff the record has no answers; no-op iff the IP matches and the metadata asks for nothing; an update rewrites the fetched record with the single updated answer |
| Reconciler.Apply | main.go:348-403 | test mode, no-op and crash issue no call; otherwise create or update issue exactly one call carrying the decided record; test mode reports would-create or would-update with name and IP |
| Reconciler.ProcessSubdomain | main.go:344-406 | at most one call; none in test mode; a failed lookup outside test mode issues exactly the create call |
| ReconcilerProperties.WrapInjective | main.go:325 | two lists with the same stored form are the same list |
| ReconcilerProperties.UpdatedAnswerVerdict | main.go:308-341 | reading back an updated answer asks for nothing iff the written list was the desired one, and otherwise asks for the desired list |
| ReconcilerProperties.WrittenRecordMatchesIp | main.go:186-195 | a created or updated record matches exactly the IP it was written with and no other |
| ReconcilerProperties.FetchFailureCreates | main.go:346-358 | any lookup error gives a create (never an update) of one answer with `[ip]`, `up: true`, and a country value iff the list is non-empty |
| ReconcilerProperties.NoAnswersCrashes | main.go:173-178 | a record with no answers is an IP mismatch and then crashes on the first-answer index |
| ReconcilerProperties.WriteIffMismatch | main.go:378-403 | for a record with answers, a write happens iff the IP mismatches or the metadata asks for one; it writes exactly one answer with `[ip]`, `up: true` and the chosen countries, and keeps the record's zone, name and type |
| ReconcilerProperties.CountryOrderMatters | main.go:325-330 | `["CA","US"]` against `["US","CA"]` gives `(true, ["US","CA"])` |
| ReconcilerProperties.DownKeepsStoredCountries | main.go:332-337 | `up` not `true` gives `(true, stored list)` even when the stored list differs from the desired one |
| ReconcilerProperties.DownWithMalformedCountriesWritesEmpty | main.go:318-337 | `up` not `true` with an unconvertible country value gives `(true, [])` |
| ReconcilerProperties.IpOnlyChangeDropsCountries | main.go:378-385 | an IP change with otherwise matching metadata updates to `[ip]`, `up: true` and no country value |
| ReconcilerProperties.CreateThenNoOp | main.go:218-222 | a record created with a non-empty list, read back with the same IP and list, is a no-op |
| ReconcilerProperties.CreateWithoutCountriesIsRewritten | main.go:223-227 | a record created with an empty list, read back, is updated to carry the empty list |
| ReconcilerProperties.Settle | main.go:389-403 | a record with answers still has answers after one step |
| ReconcilerProperties.SecondUpdateWritesDesired | main.go:378-403 | after one update, a record either needs nothing or needs one update that writes the desired list |
| ReconcilerProperties.SettlesWithinTwoWrites | main.go:378-403 | any record with answers needs nothing after at most two writes with the same IP and list |
| ReconcilerProperties.CreatedRecordSettles | main.go:346-403 | a created record needs nothing after at most one further write |
| ReconcilerProperties.ScenarioCreateHome | main.go:214-240 | no record for `home.example.com` creates one answer `["203.0.113.5"]`, `up: true`, countries `["US","CA"]` |
| ReconcilerProperties.ScenarioStaleIp | main.go:378-385 | a stale `198.51.100.1` with matching metadata is updated to `["203.0.113.9"]`, `up: true`, without a country value |
| ReconcilerProperties.TestModeMirrorsRealRun | main.go:350-403 | test mode issues no call, and reports "would create" / "would update" exactly where the real run creates / updates with one call carrying the decided record; for a no-op or a crash both runs report the same and issue nothing |
| Orchestrator.DefaultCountries | main.go:418-421 | the list is never empty: an empty list becomes `["US","CA"]` and any other is kept |
| Orchestrator.ClampTimeout | main.go:48-51 | the client timeout is always positive and equals the configured one whenever that is positive, else 30 |
| Orchestrator.Visit | main.go:448-456 | one subdomain adds one event for its full name and at most one call; test mode changes nothing; the run halts iff the decision crashed; a write stores the decided record |
| Orchestrator.ProcessSubdomains | main.go:447-458 | subdomains in order; each adds at most one call; test mode adds none and leaves the provider alone; the report only grows; a halt ends in a panic |
| Orchestrator.ProcessHosts | main.go:432-462 | test mode adds no call; the report only grows; a halt ends in a panic |
| Orchestrator.ProcessDomain | main.go:411-430 | a failed zone lookup only reports and skips the domain; test mode adds no call and leaves the provider alone |
| Orchestrator.Run | main.go:408-471 | the report and the calls only grow, a halted run stays halted, and a halt ends in a panic |
| Orchestrator.DryRunChangesNothing | main.go:350-358 | with every domain in test mode, a whole run issues no call and leaves every record as it was |
| Orchestrator.HostSuccessRunsSubdomains | main.go:440-455 | a host whose IP resolves runs its subdomains in order with that IP, and the next host runs from the state they leave |
| Orchestrator.ZoneFoundRunsHosts | main.go:418-432 | a domain whose zone is found runs its hosts in that zone, with its own test flag and the allowed countries defaulted to `["US","CA"]` when none are configured |
| Orchestrator.RunFirstDomain | main.go:408-412 | the domains run one after another in the order given (standing for the map iteration order), each from the state the previous one left |
| Orchestrator.HostFailureSkipsSubdomains | main.go:440-445 | a host whose IP cannot be resolved adds only its failure, and the next host runs from the same provider state |
| Orchestrator.PanicEndsRun | main.go:373 | after a panic nothing further runs |
| Orchestrator.VisitStores | main.go:346-403 | after one visit outside test mode the provider holds the created record, or the record after one step |
| Orchestrator.ProcessFirstLabel | main.go:448-453 | a host's first label is visited before the rest |
| Orchestrator.TwoVisitsSettle | main.go:346-403 | two visits outside test mode leave a record that needs nothing, unless the record had no answers |
| Orchestrator.ThirdVisitUnchanged | main.go:346-403 | a third visit of the same subdomain with the same IP and list reports no change, unless the record had no answers |

## Left out

- NS1 and Linode client construction, the oauth2 token source, HTTP transports and debug logging (main.go:48-96) are SDK calls. Only the timeout default (`ClampTimeout`) is kept.
- The network side of IP resolution is not modelled. The instance lookup and the probe reply are inputs (`Network`). This covers the SDK call, the HTTP GET, JSON decoding and the `rand.Intn` choice among three fixed endpoints (main.go:122-140).
- The host key's `strconv.Atoi`, with its error ignored (main.go:102), belongs to the cloud-provider call. The model keys the instance lookup by the host-key string.
- YAML configuration loading and the fatal exits (main.go:279-306) are file I/O and third-party parsing. The configuration arrives as a sequence of `(domain, DomainConfig)` in some order. This stands in for Go's unordered map iteration.
- The zone lookup (main.go:424-428) is an input of type `Result`. Only its failure rule is kept.
- The desired country list is a plain `seq<string>` and is never nil. That is safe because main.go:419-421 makes every domain's list non-empty before any host runs (`DefaultCountries`, `ZoneFoundRunsHosts`). The model reads an empty desired list as a non-nil empty slice. In the code, a nil desired list would be copied into `countriesToUse` (main.go:315, 322, 329) and written as `country: null`, so every update would ask for the same write again and never settle. The settling lemmas do not cover that case.
- All logging and printing, and `time.Sleep` between subdomains (main.go:456), are I/O and timing. The external probe uses the unclamped configured timeout (main.go:134, 166); timeouts are not modelled.
- The outcome of a provider create or update call (main.go:204-207, 242-245) is only logged by the source. The model assumes every write takes effect.
- A lookup of a record the provider holds never fails in the run model (`GetRecord`). Transport failures of the lookup (main.go:346-348) are modelled only in the per-subdomain decision, where every failure leads to a create (`Decide`, `FetchFailureCreates`).
- The record's tags and blocked tags (main.go:235-239) are always empty and are not modelled.
- The re-check `len(updatedAnswer.Rdata) == 0` (main.go:392-394) can never be true, because the answer's rdata is always `[currentIP]`. It has no counterpart.
