/** The DNS provider's record shapes and the two pure helpers over them:
    converting an untyped country-metadata value to a string list, and
    building a fully-qualified name from a zone and a label. */
module Records {
  import opened Wrappers

  /** An untyped metadata value (Go's `interface{}`) in the form the provider's
      client decodes it from JSON. `Other` stands for numbers, objects and
      anything else that is neither a string, a boolean nor a list. */
  datatype Value = Nil | Bool(b: bool) | Str(s: string) | List(items: seq<Value>) | Other

  /** Answer metadata: the availability flag and the allowed-country list,
      both untyped. */
  datatype Meta = Meta(up: Value, country: Value)

  /** One answer of a record: its rdata strings and optional metadata
      (`None` is a nil metadata pointer). */
  datatype Answer = Answer(rdata: seq<string>, meta: Option<Meta>)

  /** One record of a zone, with its answers in order. */
  datatype Record = Record(zone: string, domain: string, rtype: string, answers: seq<Answer>)

  /** Why a conversion to a string list failed. */
  datatype ConvError = NotAList | NotAString(index: nat)

  /** The pair returned by the conversion: the list (empty on failure) and the error, if any. */
  datatype Conversion = Conversion(strs: seq<string>, err: Option<ConvError>)

  /** Every element of `items` holds a string. */
  predicate AllStrings(items: seq<Value>) {
    forall k :: 0 <= k < |items| ==> items[k].Str?
  }

  /** The untyped list holding exactly the strings of `cs`, in order: how a
      written `[]string` comes back from the provider. */
  function Wrap(cs: seq<string>): (vs: seq<Value>)
    ensures |vs| == |cs|
    ensures forall k :: 0 <= k < |cs| ==> vs[k] == Str(cs[k])
  {
    if cs == [] then [] else [Str(cs[0])] + Wrap(cs[1..])
  }

  /** The country value a write carries: a nil list is written as nothing,
      and a list is written so that it reads back as itself. */
  function CountryValue(cs: Option<seq<string>>): (v: Value)
    ensures cs.None? <==> v == Nil
    ensures cs.Some? ==> SliceFromInterface(v) == Conversion(cs.value, None)
    ensures cs.None? ==> SliceFromInterface(v) == Conversion([], Some(NotAList))
  {
    match cs
    case None => Nil
    case Some(l) =>
      ConvertsToIff(List(Wrap(l)), l);
      List(Wrap(l))
  }

  /** The element loop of the conversion from index `idx` on, with the strings
      before `idx` already collected in `acc`. It stops at the first element
      that is not a string. */
  function ConvertFrom(items: seq<Value>, idx: nat, acc: seq<string>): (c: Conversion)
    requires idx <= |items| && |acc| == idx
    requires forall k :: 0 <= k < idx ==> items[k] == Str(acc[k])
    ensures c.err.None? ==> |c.strs| == |items|
    ensures c.err.None? ==> forall k :: 0 <= k < |items| ==> items[k] == Str(c.strs[k])
    ensures c.err.Some? ==> c.strs == [] && c.err.value.NotAString?
    ensures c.err.Some? ==> idx <= c.err.value.index < |items| && !items[c.err.value.index].Str?
    ensures c.err.Some? ==> forall k :: idx <= k < c.err.value.index ==> items[k].Str?
    decreases |items| - idx
  {
    if idx == |items| then Conversion(acc, None)
    else if items[idx].Str? then ConvertFrom(items, idx + 1, acc + [items[idx].s])
    else Conversion([], Some(NotAString(idx)))
  }

  /** Converts an untyped country value to a string list. It succeeds exactly
      when the value is a list of strings, and then keeps length and order; on
      failure the list is empty and the error names the first offending
      element, or says the value was not a list at all. */
  function SliceFromInterface(v: Value): (c: Conversion)
    ensures c.err.None? <==> v.List? && AllStrings(v.items)
    ensures c.err.None? ==> |c.strs| == |v.items|
    ensures c.err.None? ==> forall k :: 0 <= k < |v.items| ==> v.items[k] == Str(c.strs[k])
    ensures c.err.Some? ==> c.strs == []
    ensures !v.List? ==> c.err == Some(NotAList)
    ensures v.List? && c.err.Some? ==>
              && c.err.value.NotAString?
              && c.err.value.index < |v.items|
              && !v.items[c.err.value.index].Str?
              && forall k :: 0 <= k < c.err.value.index ==> v.items[k].Str?
  {
    match v
    case List(items) => ConvertFrom(items, 0, [])
    case _ => Conversion([], Some(NotAList))
  }

  /** Converting a value succeeds with exactly `cs` if and only if the value is
      the untyped list of the strings of `cs`, in the same order. */
  lemma {:induction false} ConvertsToIff(v: Value, cs: seq<string>)
    ensures SliceFromInterface(v) == Conversion(cs, None) <==> v == List(Wrap(cs))
  {
    var c := SliceFromInterface(v);
    if c == Conversion(cs, None) {
      assert v.items == Wrap(cs) by {
        assert |v.items| == |Wrap(cs)|;
        forall k | 0 <= k < |v.items| ensures v.items[k] == Wrap(cs)[k] {
          assert v.items[k] == Str(c.strs[k]);
        }
      }
    }
    if v == List(Wrap(cs)) {
      assert AllStrings(v.items);
      assert c.strs == cs by {
        assert |c.strs| == |cs|;
        forall k | 0 <= k < |cs| ensures c.strs[k] == cs[k] {
          assert v.items[k] == Str(c.strs[k]);
          assert v.items[k] == Str(cs[k]);
        }
      }
    }
  }

  /** The fully-qualified name for `sub` in zone `core`: `@` names the apex
      itself, any other label is prefixed to the zone with a dot. */
  function FullSubdomain(core: string, sub: string): (fqdn: string)
    ensures fqdn == core <==> sub == "@"
    ensures |core| <= |fqdn| && fqdn[|fqdn| - |core|..] == core
    ensures sub != "@" ==> |fqdn| == |sub| + 1 + |core|
    ensures sub != "@" ==> fqdn[..|sub|] == sub && fqdn[|sub|] == '.'
  {
    if sub == "@" then core else sub + "." + core
  }
}
