/**
 * `Event.create_properties` (fake_web_events/event.py): turning the property
 * specs of a custom event into concrete values, dispatching on each spec's
 * `type`. The values come from Faker; each draw is an input here, within the
 * range the Faker call promises. Every failure inside the loop surfaces as the
 * one exception "Property paramaters not correctly configured".
 */
module Properties {
  import opened Wrappers
  import opened Config

  /** A generated property value; `VForeign` and `VGeo` stand for Faker's opaque results. */
  datatype PropValue =
    | VLit(lit: Literal)                     // a `string` property: one of the listed values
    | VInt(i: int)
    | VFloat(x: real)
    | VForeign(kind: string, token: string)  // date, datetime, email, phone number, address
    | VGeo(country: Values, token: string)   // `local_latlng(country_code=...)`

  /**
   * The random outcomes one property may consume: the index `random_choices`
   * picked, the integer `random_int` returned, the successive `pyfloat`
   * results, and the token standing for any other Faker value.
   */
  datatype Draw = Draw(pick: nat, integer: int, tries: seq<real>, token: string)

  datatype PropertyFailure =
    | NotConfigured  // the exception "Property paramaters not correctly configured"
    | NoExit         // the `float` rejection loop has not produced a value in range

  /** The `type` names the dispatch recognises; any other type adds no key. */
  const KnownKinds: set<string> :=
    {"string", "boolean", "int", "float", "date", "datetime", "email", "phone", "phone_number", "address", "geolocation"}

  /** `values[0]` and `values[-1]` when both are integers. */
  function IntBounds(v: Values): Option<(int, int)> {
    if v.Items? && |v.items| > 0 && v.items[0].LInt? && v.items[|v.items| - 1].LInt?
    then Some((v.items[0].i, v.items[|v.items| - 1].i))
    else None
  }

  function AsReal(l: Literal): Option<real> {
    match l
    case LInt(i) => Some(i as real)
    case LReal(x) => Some(x)
    case LStr(_) => None
  }

  /** `values[0]` and `values[-1]` when both are numbers. */
  function FloatBounds(v: Values): Option<(real, real)> {
    if v.Items? && |v.items| > 0 && AsReal(v.items[0]).Some? && AsReal(v.items[|v.items| - 1]).Some?
    then Some((AsReal(v.items[0]).value, AsReal(v.items[|v.items| - 1]).value))
    else None
  }

  /** `math.ceil`. */
  function Ceil(x: real): (r: int)
    ensures x <= r as real < x + 1.0
  {
    -((-x).Floor)
  }

  /** The draws are ones Faker can return for this spec. */
  predicate Fits(spec: PropSpec, d: Draw) {
    && (spec.kind == Some("string") && spec.values.Items? && spec.values.items != [] ==>
          d.pick < |spec.values.items|)
    && (spec.kind == Some("int") && IntBounds(spec.values).Some? ==>
          var (lo, hi) := IntBounds(spec.values).value;
          lo <= hi ==> lo <= d.integer <= hi)
    && (spec.kind == Some("float") && FloatBounds(spec.values).Some? ==>
          var (lo, hi) := FloatBounds(spec.values).value;
          forall k :: 0 <= k < |d.tries| ==> lo.Floor as real <= d.tries[k] <= Ceil(hi) as real)
  }

  predicate InRange(x: real, lo: real, hi: real) {
    lo <= x <= hi
  }

  /** The first candidate within [lo, hi]: where the rejection loop stops. */
  function FirstInRange(tries: seq<real>, lo: real, hi: real): (r: Option<real>)
    ensures r.Some? ==> InRange(r.value, lo, hi) && r.value in tries
    ensures r.None? <==> forall k :: 0 <= k < |tries| ==> !InRange(tries[k], lo, hi)
  {
    if tries == [] then None
    else if InRange(tries[0], lo, hi) then Some(tries[0])
    else
      var r := FirstInRange(tries[1..], lo, hi);
      assert forall k :: 1 <= k < |tries| ==> tries[k] == tries[1..][k - 1];
      r
  }

  /** When the candidates before `m` are rejected and `tries[m]` is accepted, the loop yields `tries[m]`. */
  lemma {:induction false} FirstInRangeAt(tries: seq<real>, lo: real, hi: real, m: int)
    requires 0 <= m < |tries| && InRange(tries[m], lo, hi)
    requires forall k :: 0 <= k < m ==> !InRange(tries[k], lo, hi)
    ensures FirstInRange(tries, lo, hi) == Some(tries[m])
  {
    if m > 0 {
      assert tries[1..][m - 1] == tries[m];
      FirstInRangeAt(tries[1..], lo, hi, m - 1);
    }
  }

  /**
   * The `float` branch's `while` loop: start below `min_` and draw again until
   * a candidate lies in [min_, max_]. `None` when the supplied candidates run
   * out first.
   */
  method RejectionSample(lo: real, hi: real, tries: seq<real>) returns (r: Option<real>)
    ensures r.Some? ==> lo <= r.value <= hi
    ensures r == FirstInRange(tries, lo, hi)
  {
    var x := lo.Floor as real - 1.0;
    var i := 0;
    while x < lo || x > hi
      invariant 0 <= i <= |tries|
      invariant x == if i == 0 then lo.Floor as real - 1.0 else tries[i - 1]
      invariant forall k :: 0 <= k < i - 1 ==> !InRange(tries[k], lo, hi)
      decreases |tries| - i
    {
      if i == |tries| {
        assert forall k :: 0 <= k < |tries| ==> !InRange(tries[k], lo, hi);
        return None;
      }
      x := tries[i];
      i := i + 1;
    }
    FirstInRangeAt(tries, lo, hi, i - 1);
    return Some(x);
  }

  /** One property: `Ok(None)` when its type is unknown and it adds no key. */
  function PropertyValue(spec: PropSpec, d: Draw): (r: Result<Option<PropValue>, PropertyFailure>)
    requires Fits(spec, d)
    ensures spec.kind == Some("string") && r.Ok? ==>
              spec.values.Items? && r.value.Some? && r.value.value.VLit? && r.value.value.lit in spec.values.items
    ensures spec.kind == Some("int") && r.Ok? ==>
              IntBounds(spec.values).Some? && r.value.Some? && r.value.value.VInt?
              && IntBounds(spec.values).value.0 <= r.value.value.i <= IntBounds(spec.values).value.1
    ensures spec.kind == Some("float") && r.Ok? ==>
              FloatBounds(spec.values).Some? && r.value.Some? && r.value.value.VFloat?
              && FloatBounds(spec.values).value.0 <= r.value.value.x <= FloatBounds(spec.values).value.1
    ensures r == Ok(None) <==> spec.kind.Some? && spec.kind.value !in KnownKinds
    ensures r.Err? && r.error == NoExit ==> spec.kind == Some("float")
  {
    if spec.kind.None? then Err(NotConfigured)
    else
      var kind := spec.kind.value;
      var values := spec.values;
      if kind == "string" then
        if values.Items? && values.items != [] then Ok(Some(VLit(values.items[d.pick])))
        else Err(NotConfigured)
      else if kind == "boolean" then
        // `props[prop] == self.boolean()` reads a key that was never set
        Err(NotConfigured)
      else if kind == "int" then
        match IntBounds(values)
        case Some((lo, hi)) => if lo <= hi then Ok(Some(VInt(d.integer))) else Err(NotConfigured)
        case None => Err(NotConfigured)
      else if kind == "float" then
        match FloatBounds(values)
        case Some((lo, hi)) =>
          (match FirstInRange(d.tries, lo, hi)
           case Some(x) => Ok(Some(VFloat(x)))
           case None => Err(NoExit))
        case None => Err(NotConfigured)
      else if kind == "date" || kind == "datetime" then
        if values.Items? && values.items != [] && values.items[0].LStr? && values.items[|values.items| - 1].LStr?
        then Ok(Some(VForeign(kind, d.token)))
        else Err(NotConfigured)
      else if kind == "email" || kind == "address" then
        Ok(Some(VForeign(kind, d.token)))
      else if kind == "phone" || kind == "phone_number" then
        Ok(Some(VForeign("phone_number", d.token)))
      else if kind == "geolocation" then
        if values.Missing? then Err(NotConfigured)
        else if values.Null? then Ok(Some(VGeo(Scalar(LStr("US")), d.token)))
        else Ok(Some(VGeo(values, d.token)))
      else
        Ok(None)
  }

  predicate DrawsFit(specs: PropSpecs, draws: seq<Draw>) {
    |draws| == |specs| && forall i :: 0 <= i < |specs| ==> Fits(specs[i].1, draws[i])
  }

  /** The properties dict after the loop has run over `specs` in order; the first failure ends it. */
  function ResolveAll(specs: PropSpecs, draws: seq<Draw>): Result<map<string, PropValue>, PropertyFailure>
    requires DrawsFit(specs, draws)
    decreases |specs|
  {
    if specs == [] then Ok(map[])
    else
      var n := |specs| - 1;
      match ResolveAll(specs[..n], draws[..n])
      case Err(e) => Err(e)
      case Ok(m) =>
        match PropertyValue(specs[n].1, draws[n])
        case Err(e) => Err(e)
        case Ok(None) => Ok(m)
        case Ok(Some(v)) => Ok(m[specs[n].0 := v])
  }

  predicate DrawsFitAll(properties: Option<PropSpecs>, draws: seq<Draw>) {
    properties.Some? ==> DrawsFit(properties.value, draws)
  }

  /** What `create_properties(properties)` returns or raises. */
  function Resolve(properties: Option<PropSpecs>, draws: seq<Draw>): Result<map<string, PropValue>, PropertyFailure>
    requires DrawsFitAll(properties, draws)
  {
    if properties.None? then Ok(map[]) else ResolveAll(properties.value, draws)
  }

  /** One turn of the loop in `create_properties`: the value for a single property. */
  method ResolveOne(spec: PropSpec, d: Draw) returns (value: Result<Option<PropValue>, PropertyFailure>)
    requires Fits(spec, d)
    ensures value == PropertyValue(spec, d)
  {
    if spec.kind == Some("float") && FloatBounds(spec.values).Some? {
      var (lo, hi) := FloatBounds(spec.values).value;
      var x := RejectionSample(lo, hi, d.tries);
      value := if x.Some? then Ok(Some(VFloat(x.value))) else Err(NoExit);
    } else {
      value := PropertyValue(spec, d);
    }
  }

  /** Extending the prefix by one property adds that property's value, or its failure. */
  lemma ResolveAllNext(specs: PropSpecs, draws: seq<Draw>, i: int)
    requires DrawsFit(specs, draws) && 0 <= i < |specs|
    ensures ResolveAll(specs[..i + 1], draws[..i + 1]) ==
              match ResolveAll(specs[..i], draws[..i])
              case Err(e) => Err(e)
              case Ok(m) =>
                match PropertyValue(specs[i].1, draws[i])
                case Err(e) => Err(e)
                case Ok(None) => Ok(m)
                case Ok(Some(v)) => Ok(m[specs[i].0 := v])
  {
    assert specs[..i + 1][..i] == specs[..i] && draws[..i + 1][..i] == draws[..i];
  }

  /** `create_properties`: fill a dict property by property. */
  method CreateProperties(properties: Option<PropSpecs>, draws: seq<Draw>)
    returns (r: Result<map<string, PropValue>, PropertyFailure>)
    requires DrawsFitAll(properties, draws)
    ensures r == Resolve(properties, draws)
  {
    if properties.None? || |properties.value| == 0 {
      return Ok(map[]);
    }
    var specs := properties.value;
    var props: map<string, PropValue> := map[];
    for i := 0 to |specs|
      invariant ResolveAll(specs[..i], draws[..i]) == Ok(props)
    {
      ResolveAllNext(specs, draws, i);
      var value := ResolveOne(specs[i].1, draws[i]);
      match value {
        case Err(e) =>
          FailureIsFinal(specs, draws, i + 1);
          return Err(e);
        case Ok(None) =>
        case Ok(Some(v)) =>
          props := props[specs[i].0 := v];
      }
    }
    assert specs[..|specs|] == specs && draws[..|draws|] == draws;
    return Ok(props);
  }

  /** Once a property has failed, the properties after it change nothing: the exception propagates. */
  lemma {:induction false} FailureIsFinal(specs: PropSpecs, draws: seq<Draw>, i: int)
    requires DrawsFit(specs, draws) && 0 <= i <= |specs|
    requires ResolveAll(specs[..i], draws[..i]).Err?
    ensures ResolveAll(specs, draws) == ResolveAll(specs[..i], draws[..i])
    decreases |specs| - i
  {
    if i < |specs| {
      var n := |specs| - 1;
      assert specs[..n][..i] == specs[..i] && draws[..n][..i] == draws[..i];
      FailureIsFinal(specs[..n], draws[..n], i);
    } else {
      assert specs[..i] == specs && draws[..i] == draws;
    }
  }

  /**
   * When the loop completes, each property's own result decides its key:
   * a value is stored under its name, an unknown type stores nothing.
   */
  lemma {:induction false} ResolvedEntry(specs: PropSpecs, draws: seq<Draw>, i: int)
    requires DrawsFit(specs, draws) && DistinctKeys(specs) && 0 <= i < |specs|
    requires ResolveAll(specs, draws).Ok?
    ensures PropertyValue(specs[i].1, draws[i]).Ok?
    ensures var m := ResolveAll(specs, draws).value;
            var v := PropertyValue(specs[i].1, draws[i]).value;
            (v.Some? ==> specs[i].0 in m && m[specs[i].0] == v.value)
            && (v.None? ==> specs[i].0 !in m)
    decreases |specs|
  {
    var n := |specs| - 1;
    assert DrawsFit(specs[..n], draws[..n]);
    assert DistinctKeys(specs[..n]);
    if i < n {
      assert specs[..n][i] == specs[i] && draws[..n][i] == draws[i];
      ResolvedEntry(specs[..n], draws[..n], i);
      assert specs[n].0 != specs[i].0;
    } else if ResolveAll(specs[..n], draws[..n]).Ok? {
      KeysFromSpecs(specs[..n], draws[..n]);
      forall k | 0 <= k < n ensures specs[..n][k].0 != specs[n].0 {
        assert specs[..n][k] == specs[k];
      }
    }
  }

  /** Every key of the result is the name of one of the specs. */
  lemma {:induction false} KeysFromSpecs(specs: PropSpecs, draws: seq<Draw>)
    requires DrawsFit(specs, draws) && ResolveAll(specs, draws).Ok?
    ensures forall k :: k in ResolveAll(specs, draws).value ==> k in Names(specs)
    decreases |specs|
  {
    if specs != [] {
      var n := |specs| - 1;
      assert DrawsFit(specs[..n], draws[..n]);
      KeysFromSpecs(specs[..n], draws[..n]);
      forall k | k in Names(specs[..n]) ensures k in Names(specs) {
        var j :| 0 <= j < n && specs[..n][j].0 == k;
        assert specs[j].0 == k;
      }
    }
  }

  /** An absent or empty properties spec gives `{}`. */
  lemma NoSpecsGiveEmptyProps(properties: Option<PropSpecs>, draws: seq<Draw>)
    requires properties.None? || properties.value == []
    requires DrawsFitAll(properties, draws)
    ensures Resolve(properties, draws) == Ok(map[])
  {
  }

  /** A property of an unknown type adds no key. */
  lemma UnknownTypeAddsNoKey(specs: PropSpecs, draws: seq<Draw>, i: int)
    requires DrawsFit(specs, draws) && DistinctKeys(specs) && 0 <= i < |specs|
    requires specs[i].1.kind.Some? && specs[i].1.kind.value !in KnownKinds
    requires ResolveAll(specs, draws).Ok?
    ensures specs[i].0 !in ResolveAll(specs, draws).value
  {
    ResolvedEntry(specs, draws, i);
  }

  /** An `int` property's value lies in [values[0], values[-1]]. */
  lemma IntPropertyInBounds(specs: PropSpecs, draws: seq<Draw>, i: int)
    requires DrawsFit(specs, draws) && DistinctKeys(specs) && 0 <= i < |specs|
    requires specs[i].1.kind == Some("int") && ResolveAll(specs, draws).Ok?
    ensures var m := ResolveAll(specs, draws).value;
            var v := specs[i].1.values;
            && v.Items? && |v.items| > 0 && v.items[0].LInt? && v.items[|v.items| - 1].LInt?
            && specs[i].0 in m && m[specs[i].0].VInt?
            && v.items[0].i <= m[specs[i].0].i <= v.items[|v.items| - 1].i
  {
    ResolvedEntry(specs, draws, i);
  }

  /** A `float` property's value lies in [values[0], values[-1]]. */
  lemma FloatPropertyInBounds(specs: PropSpecs, draws: seq<Draw>, i: int)
    requires DrawsFit(specs, draws) && DistinctKeys(specs) && 0 <= i < |specs|
    requires specs[i].1.kind == Some("float") && ResolveAll(specs, draws).Ok?
    ensures var m := ResolveAll(specs, draws).value;
            var v := specs[i].1.values;
            && FloatBounds(v).Some?
            && specs[i].0 in m && m[specs[i].0].VFloat?
            && FloatBounds(v).value.0 <= m[specs[i].0].x <= FloatBounds(v).value.1
  {
    ResolvedEntry(specs, draws, i);
  }

  /** A `boolean` property always makes `create_properties` raise. */
  lemma BooleanPropertyFails(specs: PropSpecs, draws: seq<Draw>, i: int)
    requires DrawsFit(specs, draws) && DistinctKeys(specs) && 0 <= i < |specs|
    requires specs[i].1.kind == Some("boolean")
    ensures ResolveAll(specs, draws).Err?
  {
    if ResolveAll(specs, draws).Ok? {
      ResolvedEntry(specs, draws, i);
    }
  }

  /** With `values[0] > values[-1]` no candidate is ever accepted: the `float` loop cannot exit. */
  lemma ReversedFloatBoundsNeverExit(spec: PropSpec, d: Draw)
    requires spec.kind == Some("float") && FloatBounds(spec.values).Some?
    requires FloatBounds(spec.values).value.0 > FloatBounds(spec.values).value.1
    requires Fits(spec, d)
    ensures PropertyValue(spec, d) == Err(NoExit)
  {
  }
}
