/** IP resolution for one host: the dispatch on the host's method tag, the
    cloud-instance strategy's "first IPv4 address" rule and the external
    probe's status, decoding and trimming rules. The network replies
    themselves are inputs. */
module Resolver {
  import opened Wrappers

  /** One host of a domain's configuration. */
  datatype Host = Host(name: string, tag: string, apiKey: string, hostKey: string, subdomains: seq<string>)

  /** What the cloud provider answered for an instance lookup. */
  datatype InstanceLookup = InstanceFailed(msg: string) | Instance(ipv4: seq<string>)

  /** What the randomly chosen IP-echo endpoint answered: a transport failure,
      or a status with the decoded `ip` field (`None` when the body did not
      decode). */
  datatype ProbeReply = ProbeFailed(msg: string) | ProbeResponse(status: int, ip: Option<string>)

  /** The ways resolving a host's IP can fail. */
  datatype IPError =
    | InstanceError(msg: string)
    | NoIPv4
    | ProbeError(msg: string)
    | ProbeStatus(status: int)
    | ProbeDecodeError
    | UnknownMethod(tag: string)

  /** The network as seen by the resolver: the cloud provider's answer per
      host key, and the echo endpoint's answer to the call made for each host
      name (standing for whichever endpoint the random choice picked). */
  datatype Network = Network(instance: string -> InstanceLookup, probe: string -> ProbeReply)

  /** The HTTP status the probe accepts. */
  const StatusOK := 200

  /** White space as Unicode defines it (the White_Space property), by code point. */
  predicate IsSpace(c: char) {
    var n := c as int;
    || (0x09 <= n <= 0x0D) || n == 0x20 || n == 0x85 || n == 0xA0
    || n == 0x1680 || (0x2000 <= n <= 0x200A)
    || n == 0x2028 || n == 0x2029 || n == 0x202F || n == 0x205F || n == 0x3000
  }

  /** The number of white-space characters that begin `s`. */
  function LeadingSpaces(s: string): (n: nat)
    ensures n <= |s|
    ensures forall k :: 0 <= k < n ==> IsSpace(s[k])
    ensures n < |s| ==> !IsSpace(s[n])
  {
    if s == [] || !IsSpace(s[0]) then 0 else 1 + LeadingSpaces(s[1..])
  }

  /** The number of white-space characters that end `s`. */
  function TrailingSpaces(s: string): (n: nat)
    ensures n <= |s|
    ensures forall k :: |s| - n <= k < |s| ==> IsSpace(s[k])
    ensures n < |s| ==> !IsSpace(s[|s| - n - 1])
  {
    if s == [] || !IsSpace(s[|s| - 1]) then 0 else 1 + TrailingSpaces(s[..|s| - 1])
  }

  /** `s` without its leading and trailing white space: the longest infix of
      `s` that neither begins nor ends with white space, with only white space
      cut on either side. */
  function TrimSpace(s: string): (r: string)
    ensures |r| <= |s|
    ensures r != [] ==> !IsSpace(r[0]) && !IsSpace(r[|r| - 1])
    ensures r == [] <==> forall k :: 0 <= k < |s| ==> IsSpace(s[k])
    ensures var lo := LeadingSpaces(s);
            && lo + |r| <= |s|
            && r == s[lo..lo + |r|]
            && forall k :: lo + |r| <= k < |s| ==> IsSpace(s[k])
  {
    var lo := LeadingSpaces(s);
    if lo == |s| then []
    else
      var t := TrailingSpaces(s);
      assert t < |s| - lo;
      s[lo..|s| - t]
  }

  /** Trimming is idempotent: a trimmed string has nothing left to trim. */
  lemma TrimSpaceIdempotent(s: string)
    ensures TrimSpace(TrimSpace(s)) == TrimSpace(s)
  {
    var r := TrimSpace(s);
    if r != [] {
      assert LeadingSpaces(r) == 0;
      assert TrailingSpaces(r) == 0;
      assert r[0..][..|r|] == r;
    }
  }

  /** The cloud-instance strategy: the first IPv4 address of the instance,
      failing when the lookup failed or the instance has no IPv4 address. */
  function LinodeAPICheck(lookup: InstanceLookup): (r: Result<string, IPError>)
    ensures r.Ok? <==> lookup.Instance? && |lookup.ipv4| > 0
    ensures r.Ok? ==> r.value == lookup.ipv4[0]
    ensures lookup.Instance? && lookup.ipv4 == [] ==> r == Err(NoIPv4)
    ensures lookup.InstanceFailed? ==> r.Err? && r.error.InstanceError?
  {
    match lookup
    case InstanceFailed(msg) => Err(InstanceError(msg))
    case Instance(ips) => if |ips| < 1 then Err(NoIPv4) else Ok(ips[0])
  }

  /** The external-probe strategy: succeeds only on a 200 reply whose body
      decoded, and returns the echoed address with surrounding white space
      removed. */
  function ExternalWAN(reply: ProbeReply): (r: Result<string, IPError>)
    ensures r.Ok? <==> reply.ProbeResponse? && reply.status == StatusOK && reply.ip.Some?
    ensures r.Ok? ==> r.value == TrimSpace(reply.ip.value)
    ensures reply.ProbeResponse? && reply.status != StatusOK ==> r == Err(ProbeStatus(reply.status))
  {
    match reply
    case ProbeFailed(msg) => Err(ProbeError(msg))
    case ProbeResponse(status, ip) =>
      if status != StatusOK then Err(ProbeStatus(status))
      else if ip.None? then Err(ProbeDecodeError)
      else Ok(TrimSpace(ip.value))
  }

  /** The host's current IP by its method tag: `LinodeAPI` asks the cloud
      provider, `external` asks an echo endpoint, and every other tag (the
      match is exact and case-sensitive) is an error naming the tag. */
  function GetIP(host: Host, net: Network): (r: Result<string, IPError>)
    ensures host.tag == "LinodeAPI" ==> r == LinodeAPICheck(net.instance(host.hostKey))
    ensures host.tag == "external" ==> r == ExternalWAN(net.probe(host.name))
    ensures r == Err(UnknownMethod(host.tag)) <==> host.tag != "LinodeAPI" && host.tag != "external"
  {
    match host.tag
    case "LinodeAPI" => LinodeAPICheck(net.instance(host.hostKey))
    case "external" => ExternalWAN(net.probe(host.name))
    case _ => Err(UnknownMethod(host.tag))
  }

  /** The tag is matched exactly: a capitalised `External` is not a method. */
  lemma CapitalisedExternalIsUnknown(host: Host, net: Network)
    requires host.tag == "External"
    ensures GetIP(host, net) == Err(UnknownMethod("External"))
  {
  }
}
