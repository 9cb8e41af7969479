/**
 * Worked instances of the parameter rules, on concrete bags. Values that
 * are not strings are modelled as `Other(n)` with an integer `n`.
 */
module WmsExamples {
  import opened Ascii
  import opened WmsParams

  /** `{layers: 'x', Layers: 'y', LAYERS: 'z'}` normalises to the empty object. */
  lemma ReservedInEveryCasing()
    ensures CleanExtParams<int>([("layers", Str("x")), ("Layers", Str("y")), ("LAYERS", Str("z"))]) == map[]
  {
    var b: Bag<int> := [("layers", Str("x")), ("Layers", Str("y")), ("LAYERS", Str("z"))];
    ToUpperPointwise("layers", "LAYERS");
    ToUpperPointwise("Layers", "LAYERS");
    ToUpperPointwise("LAYERS", "LAYERS");
    forall k | Mentions(b, k) ensures k == "LAYERS" {
      var i :| 0 <= i < |b| && ToUpper(b[i].0) == k;
      assert i == 0 || i == 1 || i == 2;
    }
  }

  /** Two keys that upper-case alike: the later one's value is kept. */
  lemma CollidingPair<X>(key1: string, key2: string, upper: string, v1: Value<X>, v2: Value<X>)
    requires ToUpper(key1) == upper && ToUpper(key2) == upper && upper !in Reserved
    ensures CleanExtParams([(key1, v1), (key2, v2)]) == map[upper := v2]
  {
    var b := [(key1, v1), (key2, v2)];
    var r := CleanExtParams(b);
    forall k | Mentions(b, k) ensures k == upper {
      var i :| 0 <= i < |b| && ToUpper(b[i].0) == k;
      assert i == 0 || i == 1;
    }
    assert Mentions(b, upper) by { assert ToUpper(b[1].0) == upper; }
    var i :| 0 <= i < |b| && ToUpper(b[i].0) == upper && b[i].1 == r[upper] &&
      forall j :: i < j < |b| ==> ToUpper(b[j].0) != upper;
  }

  /** `{format: 'a', FORMAT: 'b'}` normalises to `{FORMAT: 'b'}`. */
  lemma CollidingKeysLastWins()
    ensures CleanExtParams<int>([("format", Str("a")), ("FORMAT", Str("b"))]) == map["FORMAT" := Str("b")]
  {
    ToUpperPointwise("format", "FORMAT");
    ToUpperPointwise("FORMAT", "FORMAT");
    CollidingPair<int>("format", "FORMAT", "FORMAT", Str("a"), Str("b"));
  }

  /**
   * Replacing `extParams` `{foo: 1}` by `{bar: 2}` patches `{BAR: 2}` only;
   * the live source keeps `FOO`.
   */
  lemma ExtParamsSwapKeepsOldKey(layers: string, styles: Option<string>, version: string)
    ensures CleanExtParams<int>([("bar", Other(2))]) == map["BAR" := Other(2)]
    ensures var live := EffectiveParams<int>([("foo", Other(1))], layers, styles, version) + CleanExtParams([("bar", Other(2))]);
      "FOO" in live && live["FOO"] == Other(1) && live["BAR"] == Other(2)
  {
    SingleEntry("bar", "BAR", Other(2));
    SingleEntry("foo", "FOO", Other(1));
  }

  /** A one-entry bag normalises to its upper-cased entry, if not reserved. */
  lemma SingleEntry(key: string, upper: string, v: Value<int>)
    requires ToUpper(key) == upper && upper !in Reserved
    ensures CleanExtParams([(key, v)]) == map[upper := v]
  {
    var b: Bag<int> := [(key, v)];
    var r := CleanExtParams(b);
    forall k | Mentions(b, k) ensures k == upper {
      var i :| 0 <= i < |b| && ToUpper(b[i].0) == k;
    }
    assert Mentions(b, upper) by { assert ToUpper(b[0].0) == upper; }
    assert LastValue(b, upper, r[upper]);
  }

  /** A reserved key beside an ordinary one: only the ordinary one is kept. */
  lemma ReservedBesideOrdinary<X>(key1: string, key2: string, upper: string, v1: Value<X>, v2: Value<X>)
    requires ToUpper(key1) in Reserved && ToUpper(key2) == upper && upper !in Reserved
    ensures CleanExtParams([(key1, v1), (key2, v2)]) == map[upper := v2]
  {
    var b := [(key1, v1), (key2, v2)];
    var r := CleanExtParams(b);
    forall k | Mentions(b, k) && k !in Reserved ensures k == upper {
      var i :| 0 <= i < |b| && ToUpper(b[i].0) == k;
      assert i == 0 || i == 1;
    }
    assert Mentions(b, upper) by { assert ToUpper(b[1].0) == upper; }
    var i :| 0 <= i < |b| && ToUpper(b[i].0) == upper && b[i].1 == r[upper] &&
      forall j :: i < j < |b| ==> ToUpper(b[j].0) != upper;
  }

  /** `{version: '1.1.0', info_format: 'text/plain'}` normalises to `{INFO_FORMAT: 'text/plain'}`. */
  lemma CallerVersionDropped()
    ensures CleanExtParams<int>([("version", Str("1.1.0")), ("info_format", Str("text/plain"))])
            == map["INFO_FORMAT" := Str("text/plain")]
  {
    ToUpperPointwise("version", "VERSION");
    ToUpperPointwise("info_format", "INFO_FORMAT");
    ReservedBesideOrdinary<int>("version", "info_format", "INFO_FORMAT", Str("1.1.0"), Str("text/plain"));
  }

  /** The same bag given to `getGetFeatureInfoUrl` reaches the URL builder as `{INFO_FORMAT: 'text/plain'}`. */
  lemma FeatureInfoDropsCallerVersion<C, R>(coordinate: C, resolution: R, projection: string, pointFromLonLat: (C, string) -> C)
    ensures FeatureInfoRequest(coordinate, resolution, projection,
                               [("version", Str("1.1.0")), ("info_format", Str("text/plain"))],
                               pointFromLonLat).params
            == map["INFO_FORMAT" := Value<int>.Str("text/plain")]
  {
    CallerVersionDropped();
  }
}
