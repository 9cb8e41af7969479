/**
 * The WMS request parameters of the `wms-base` source mixin: the normaliser
 * `cleanExtParams` (upper-case every key of the free-form `extParams` bag,
 * then drop the managed keys), the `params` object that `createSource`
 * hands to the tile source, and the parameters given to the feature-info
 * URL builder.
 */
module WmsParams {
  import opened Ascii

  datatype Option<T> = None | Some(value: T)

  /**
   * A parameter value. `Undefined` is JavaScript's `undefined` (what an
   * unset `styles` prop contributes), `Str` a string, and `Other` any other
   * value (number, boolean, object), which this layer only passes along.
   */
  datatype Value<X> = Undefined | Str(s: string) | Other(x: X)

  /** A parameter object as its entries, in JavaScript iteration order. */
  type Bag<X> = seq<(string, Value<X>)>

  /** A parameter map, as the tile source keeps it. */
  type Params<X> = map<string, Value<X>>

  /** The parameter names the mixin manages through its own props. */
  const Reserved: set<string> := {"LAYERS", "VERSION", "STYLES"}

  /** The value that the `styles` prop contributes to the request. */
  function StylesValue<X>(styles: Option<string>): (v: Value<X>)
    ensures styles.None? <==> v.Undefined?
    ensures styles.Some? ==> v == Str(styles.value)
  {
    match styles
    case None => Undefined
    case Some(s) => Str(s)
  }

  // ----- what the bag says about one upper-cased name -----

  /** Some entry of `b` has a key whose upper-case form is `k`. */
  ghost predicate Mentions<X>(b: Bag<X>, k: string) {
    exists i :: 0 <= i < |b| && ToUpper(b[i].0) == k
  }

  /**
   * `v` is the value of the LAST entry of `b` whose key upper-cases to `k`:
   * later entries overwrite earlier ones that collide with them.
   */
  ghost predicate LastValue<X>(b: Bag<X>, k: string, v: Value<X>) {
    exists i :: 0 <= i < |b| && ToUpper(b[i].0) == k && b[i].1 == v &&
      forall j :: i < j < |b| ==> ToUpper(b[j].0) != k
  }

  // ----- the normaliser -----

  /**
   * `mapKeys(toUpperCase)`: builds a new object by visiting the entries in
   * order and storing each value under its upper-cased key.
   */
  function MapKeysToUpperCase<X>(b: Bag<X>): (r: Params<X>)
    ensures forall k :: k in r ==> IsUpper(k)
    decreases |b|
  {
    if b == [] then map[] else MapKeysToUpperCase(b[..|b| - 1])[ToUpper(b[|b| - 1].0) := b[|b| - 1].1]
  }

  /** What one more entry adds to `Mentions`. */
  lemma MentionsSnoc<X>(b: Bag<X>, k: string)
    requires b != []
    ensures Mentions(b, k) <==> Mentions(b[..|b| - 1], k) || ToUpper(b[|b| - 1].0) == k
  {
    var front := b[..|b| - 1];
    if Mentions(b, k) {
      var i :| 0 <= i < |b| && ToUpper(b[i].0) == k;
      if i < |front| { assert ToUpper(front[i].0) == k; }
    }
    if Mentions(front, k) {
      var i :| 0 <= i < |front| && ToUpper(front[i].0) == k;
      assert ToUpper(b[i].0) == k;
    }
  }

  /** The keys of `mapKeys(toUpperCase)` are the upper-cased input keys, and nothing else. */
  lemma {:induction false} MapKeysDomain<X>(b: Bag<X>, k: string)
    ensures k in MapKeysToUpperCase(b) <==> Mentions(b, k)
    ensures k in MapKeysToUpperCase(b) ==> IsUpper(k)
    decreases |b|
  {
    if b != [] {
      MapKeysDomain(b[..|b| - 1], k);
      MentionsSnoc(b, k);
    }
  }

  /** A later entry whose key upper-cases differently leaves `LastValue` as it was. */
  lemma LastValueSnoc<X>(front: Bag<X>, last: (string, Value<X>), k: string, v: Value<X>)
    requires LastValue(front, k, v) && ToUpper(last.0) != k
    ensures LastValue(front + [last], k, v)
  {
    var b := front + [last];
    var i :| 0 <= i < |front| && ToUpper(front[i].0) == k && front[i].1 == v &&
      forall j :: i < j < |front| ==> ToUpper(front[j].0) != k;
    assert b[i] == front[i];
    forall j | i < j < |b| ensures ToUpper(b[j].0) != k {
      if j < |front| { assert b[j] == front[j]; }
    }
  }

  /** Each key of `mapKeys(toUpperCase)` holds the value of its last input entry. */
  lemma {:induction false} MapKeysLastWins<X>(b: Bag<X>, k: string)
    requires k in MapKeysToUpperCase(b)
    ensures LastValue(b, k, MapKeysToUpperCase(b)[k])
    decreases |b|
  {
    var n := |b| - 1;
    var front, last := b[..n], b[n];
    assert b == front + [last];
    if ToUpper(last.0) == k {
      assert ToUpper(b[n].0) == k && b[n].1 == MapKeysToUpperCase(b)[k];
    } else {
      MapKeysLastWins(front, k);
      LastValueSnoc(front, last, k, MapKeysToUpperCase(front)[k]);
    }
  }

  /**
   * `cleanExtParams`: the extra parameters with upper-cased keys and without
   * `LAYERS`, `VERSION` and `STYLES` (whatever their casing in the input).
   * An absent `extParams` is the empty bag.
   */
  function CleanExtParams<X>(b: Bag<X>): (r: Params<X>)
    ensures r.Keys !! Reserved
    ensures forall k :: k in r ==> IsUpper(k)
    ensures forall k :: k in r <==> k !in Reserved && Mentions(b, k)
    ensures forall k :: k in r ==> LastValue(b, k, r[k])
  {
    var upper := MapKeysToUpperCase(b);
    forall k ensures (k in upper <==> Mentions(b, k)) && (k in upper ==> IsUpper(k) && LastValue(b, k, upper[k])) {
      MapKeysDomain(b, k);
      if k in upper { MapKeysLastWins(b, k); }
    }
    upper - Reserved
  }

  // ----- idempotence -----

  /** `Object.fromEntries`: the object that has the entries of `b`, later ones winning. */
  function FromEntries<X>(b: Bag<X>): (m: Params<X>)
    decreases |b|
  {
    if b == [] then map[] else FromEntries(b[..|b| - 1])[b[|b| - 1].0 := b[|b| - 1].1]
  }

  /** No key is listed twice. */
  ghost predicate DistinctKeys<X>(b: Bag<X>) {
    forall i, j :: 0 <= i < j < |b| ==> b[i].0 != b[j].0
  }

  /**
   * `b` lists the entries of the object `m`, each key once: what walking a
   * JavaScript object yields, in whatever order.
   */
  ghost predicate Enumerates<X>(b: Bag<X>, m: Params<X>) {
    DistinctKeys(b) && FromEntries(b) == m
  }

  /** Every parameter map can be walked: some bag enumerates it. */
  ghost function Entries<X>(m: Params<X>): (b: Bag<X>)
    ensures Enumerates(b, m)
    ensures forall i :: 0 <= i < |b| ==> b[i].0 in m
    decreases |m|
  {
    if m == map[] then []
    else
      var k :| k in m;
      var rest := m - {k};
      assert |rest| == |m| - 1 by { assert rest.Keys == m.Keys - {k}; }
      var front := Entries(rest);
      var b := front + [(k, m[k])];
      assert b[..|b| - 1] == front;
      assert forall i :: 0 <= i < |front| ==> b[i] == front[i];
      assert m == rest[k := m[k]];
      b
  }

  /** Upper-casing the keys of a walk over an upper-case object rebuilds that object. */
  lemma {:induction false} MapKeysOfUpperObject<X>(q: Bag<X>)
    requires forall k :: k in FromEntries(q) ==> IsUpper(k)
    ensures MapKeysToUpperCase(q) == FromEntries(q)
    decreases |q|
  {
    if q != [] {
      var front, last := q[..|q| - 1], q[|q| - 1];
      assert FromEntries(q) == FromEntries(front)[last.0 := last.1];
      MapKeysOfUpperObject(front);
      UpperFixed(last.0);
    }
  }

  /** A walk over an object with upper-case, unreserved keys normalises to that object. */
  lemma CleanOfCleanObject<X>(q: Bag<X>, m: Params<X>)
    requires Enumerates(q, m)
    requires forall k :: k in m ==> IsUpper(k)
    requires m.Keys !! Reserved
    ensures CleanExtParams(q) == m
  {
    MapKeysOfUpperObject(q);
    assert (m - Reserved).Keys == m.Keys;
  }

  /**
   * Normalising a normalised object again changes nothing, in whatever
   * order its entries are visited.
   */
  lemma CleanIdempotent<X>(p: Bag<X>, q: Bag<X>)
    requires Enumerates(q, CleanExtParams(p))
    ensures CleanExtParams(q) == CleanExtParams(p)
  {
    CleanOfCleanObject(q, CleanExtParams(p));
  }

  /** The same for the normaliser's canonical walk `Entries`. */
  lemma CleanIdempotentOnEntries<X>(p: Bag<X>)
    ensures CleanExtParams(Entries(CleanExtParams(p))) == CleanExtParams(p)
  {
    CleanIdempotent(p, Entries(CleanExtParams(p)));
  }

  // ----- the params of createSource -----

  /**
   * The `params` object of `createSource`: the cleaned extra parameters,
   * then `LAYERS`, `STYLES` and `VERSION` from the managed props.
   */
  function EffectiveParams<X>(ext: Bag<X>, layers: string, styles: Option<string>, version: string): (r: Params<X>)
    ensures r.Keys == CleanExtParams(ext).Keys + Reserved
    ensures r["LAYERS"] == Str(layers)
    ensures r["STYLES"] == StylesValue(styles)
    ensures r["VERSION"] == Str(version)
    ensures forall k :: k !in Reserved ==> (k in r <==> Mentions(ext, k))
    ensures forall k :: k in r && k !in Reserved ==> r[k] == CleanExtParams(ext)[k]
  {
    CleanExtParams(ext) + map["LAYERS" := Str(layers), "STYLES" := StylesValue(styles), "VERSION" := Str(version)]
  }

  /**
   * The managed values win over every case variant of the managed names in
   * `extParams`, and the order of the spread is irrelevant: the cleaned
   * extra parameters never share a key with the managed ones.
   */
  lemma ManagedOverrideAnyOrder<X>(ext: Bag<X>, layers: string, styles: Option<string>, version: string)
    ensures var managed := map["LAYERS" := Str(layers), "STYLES" := StylesValue(styles), "VERSION" := Str(version)];
      EffectiveParams(ext, layers, styles, version) == managed + CleanExtParams(ext)
  {
  }

  // ----- getGetFeatureInfoUrl -----

  /**
   * What `getGetFeatureInfoUrl` hands to the source's feature-info URL
   * builder: the converted point, the resolution, the projection and the
   * cleaned caller parameters. `C` and `R` are the coordinate and resolution
   * types, which this layer does not inspect.
   */
  datatype FeatureInfoCall<C, R, X> = FeatureInfoCall(point: C, resolution: R, projection: string, params: Params<X>)

  /**
   * The call that `getGetFeatureInfoUrl` makes; `pointFromLonLat` is the
   * coordinate conversion from EPSG:4326. A caller-supplied `version`, in
   * any casing, never reaches the builder, and neither do `layers` and
   * `styles`; all other parameters do, upper-cased.
   */
  function FeatureInfoRequest<C, R, X>(coordinate: C, resolution: R, projection: string, params: Bag<X>,
                                      pointFromLonLat: (C, string) -> C): (call: FeatureInfoCall<C, R, X>)
    ensures call.params == CleanExtParams(params)
    ensures "VERSION" !in call.params && "LAYERS" !in call.params && "STYLES" !in call.params
    ensures forall k :: k !in Reserved ==> (k in call.params <==> Mentions(params, k))
    ensures call.point == pointFromLonLat(coordinate, projection)
    ensures call.resolution == resolution && call.projection == projection
  {
    FeatureInfoCall(pointFromLonLat(coordinate, projection), resolution, projection, CleanExtParams(params))
  }
}
