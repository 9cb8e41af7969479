/**
 * The stateful half of the `wms-base` mixin: the live tile source, built
 * once by `createSource`, and the four watchers that push parameter patches
 * into it through `updateParams` instead of rebuilding it.
 */
module WmsBase {
  import opened WmsParams

  /** The protocol version used when the `version` prop is not set. */
  const WMS_VERSION: string := "1.3.0"

  /**
   * The live map entries `eff` are all present in `live` with the same
   * values; `live` may hold more.
   */
  ghost predicate Covers<X>(live: Params<X>, eff: Params<X>) {
    forall k :: k in eff ==> k in live && live[k] == eff[k]
  }

  /** `a` and `b` have the same keys and values, except perhaps at `key`. */
  ghost predicate AgreeExcept<X>(a: Params<X>, b: Params<X>, key: string) {
    forall k :: k != key ==> (k in a <==> k in b) && (k in a ==> a[k] == b[k])
  }

  /** Merging a one-key patch is writing that key. */
  lemma MergeOneKey<X>(live: Params<X>, key: string, v: Value<X>)
    ensures live + map[key := v] == live[key := v]
    ensures AgreeExcept(live[key := v], live, key)
  {
  }

  /** Patching one key on both sides keeps the cover. */
  lemma CoversUpdate<X>(live: Params<X>, eff: Params<X>, k: string, v: Value<X>)
    requires Covers(live, eff)
    ensures Covers(live[k := v], eff[k := v])
  {
  }

  /** Changing `layers` changes the effective parameters at `LAYERS` alone. */
  lemma EffectiveNewLayers<X>(ext: Bag<X>, layers: string, styles: Option<string>, version: string, layers': string)
    ensures EffectiveParams(ext, layers', styles, version) == EffectiveParams(ext, layers, styles, version)["LAYERS" := Str(layers')]
  {
    var e, e' := EffectiveParams(ext, layers, styles, version), EffectiveParams(ext, layers', styles, version);
    assert e'.Keys == e["LAYERS" := Str(layers')].Keys;
  }

  /** Changing `styles` changes the effective parameters at `STYLES` alone. */
  lemma EffectiveNewStyles<X>(ext: Bag<X>, layers: string, styles: Option<string>, version: string, styles': Option<string>)
    ensures EffectiveParams(ext, layers, styles', version) == EffectiveParams(ext, layers, styles, version)["STYLES" := StylesValue(styles')]
  {
    var e, e' := EffectiveParams(ext, layers, styles, version), EffectiveParams(ext, layers, styles', version);
    assert e'.Keys == e["STYLES" := StylesValue(styles')].Keys;
  }

  /** Changing `version` changes the effective parameters at `VERSION` alone. */
  lemma EffectiveNewVersion<X>(ext: Bag<X>, layers: string, styles: Option<string>, version: string, version': string)
    ensures EffectiveParams(ext, layers, styles, version') == EffectiveParams(ext, layers, styles, version)["VERSION" := Str(version')]
  {
    var e, e' := EffectiveParams(ext, layers, styles, version), EffectiveParams(ext, layers, styles, version');
    assert e'.Keys == e["VERSION" := Str(version')].Keys;
  }

  /**
   * The tiling engine's WMS tile source, reduced to its request parameters.
   * Its `updateParams` merges a patch over the current parameters.
   */
  class TileWms<X> {
    var params: Params<X>

    constructor (params: Params<X>)
      ensures this.params == params
    {
      this.params := params;
    }

    /** Override-merge: every key of `patch` takes the patch's value, the rest stay. */
    method UpdateParams(patch: Params<X>)
      modifies this
      ensures params == old(params) + patch
    {
      params := params + patch;
    }
  }

  /**
   * One WMS source component: its managed props, its `extParams` bag and
   * the live source (absent until the component has created it).
   */
  class WmsSource<X> {
    var layers: string
    var version: string
    var styles: Option<string>
    var extParams: Bag<X>
    var source: TileWms?<X>

    /** The request parameters that the current props call for. */
    function Effective(): Params<X>
      reads this
    {
      EffectiveParams(extParams, layers, styles, version)
    }

    /**
     * Once the live source exists, it carries every parameter the props
     * call for; it may also keep extra keys from earlier `extParams`.
     */
    ghost predicate Valid()
      reads this, source
    {
      source != null ==> Covers(source.params, Effective())
    }

    /** `layers` is required; `version` defaults to `WMS_VERSION`. */
    constructor (layers: string, version: string := WMS_VERSION, styles: Option<string> := None, extParams: Bag<X> := [])
      ensures this.layers == layers && this.version == version
      ensures this.styles == styles && this.extParams == extParams
      ensures source == null
      ensures Valid()
    {
      this.layers := layers;
      this.version := version;
      this.styles := styles;
      this.extParams := extParams;
      source := null;
    }

    /** `createSource`: a new tile source whose parameters are exactly the effective ones. */
    method CreateSource() returns (s: TileWms<X>)
      ensures fresh(s)
      ensures s.params == EffectiveParams(extParams, layers, styles, version)
    {
      s := new TileWms(EffectiveParams(extParams, layers, styles, version));
    }

    /** Creating the live source when the component comes up. */
    method Mount()
      requires source == null
      modifies this
      ensures source != null && fresh(source)
      ensures source.params == Effective()
      ensures layers == old(layers) && version == old(version)
      ensures styles == old(styles) && extParams == old(extParams)
      ensures Valid()
    {
      source := CreateSource();
    }

    /** `updateParams`: a no-op while there is no live source. */
    method UpdateParams(patch: Params<X>)
      modifies source
      ensures source != null ==> source.params == old(source.params) + patch
    {
      if source != null {
        source.UpdateParams(patch);
      }
    }

    /** Watcher of `layers`: patches `LAYERS` alone. */
    method OnLayersChanged(value: string)
      requires Valid()
      modifies this, source
      ensures layers == value && version == old(version)
      ensures styles == old(styles) && extParams == old(extParams)
      ensures source == old(source)
      ensures source != null ==> source.params == old(source.params)["LAYERS" := Str(value)]
      ensures source != null ==> AgreeExcept(source.params, old(source.params), "LAYERS")
      ensures Valid()
    {
      ghost var eff := Effective();
      layers := value;
      UpdateParams(map["LAYERS" := Str(value)]);
      EffectiveNewLayers(extParams, old(layers), styles, version, value);
      if source != null {
        MergeOneKey(old(source.params), "LAYERS", Str(value));
        CoversUpdate(old(source.params), eff, "LAYERS", Str(value));
      }
    }

    /** Watcher of `version`: patches `VERSION` alone. */
    method OnVersionChanged(value: string)
      requires Valid()
      modifies this, source
      ensures version == value && layers == old(layers)
      ensures styles == old(styles) && extParams == old(extParams)
      ensures source == old(source)
      ensures source != null ==> source.params == old(source.params)["VERSION" := Str(value)]
      ensures source != null ==> AgreeExcept(source.params, old(source.params), "VERSION")
      ensures Valid()
    {
      ghost var eff := Effective();
      version := value;
      UpdateParams(map["VERSION" := Str(value)]);
      EffectiveNewVersion(extParams, layers, styles, old(version), value);
      if source != null {
        MergeOneKey(old(source.params), "VERSION", Str(value));
        CoversUpdate(old(source.params), eff, "VERSION", Str(value));
      }
    }

    /** Watcher of `styles`: patches `STYLES` alone (with `undefined` when unset). */
    method OnStylesChanged(value: Option<string>)
      requires Valid()
      modifies this, source
      ensures styles == value && layers == old(layers)
      ensures version == old(version) && extParams == old(extParams)
      ensures source == old(source)
      ensures source != null ==> source.params == old(source.params)["STYLES" := StylesValue(value)]
      ensures source != null ==> AgreeExcept(source.params, old(source.params), "STYLES")
      ensures Valid()
    {
      ghost var eff := Effective();
      styles := value;
      UpdateParams(map["STYLES" := StylesValue(value)]);
      EffectiveNewStyles(extParams, layers, old(styles), version, value);
      if source != null {
        MergeOneKey(old(source.params), "STYLES", StylesValue(value));
        CoversUpdate(old(source.params), eff, "STYLES", StylesValue(value));
      }
    }

    /**
     * Watcher of `extParams`: merges the normalised new bag. The managed
     * parameters are left as they are, and extra keys the new bag does not
     * mention keep their old values.
     */
    method OnExtParamsChanged(value: Bag<X>)
      requires Valid()
      modifies this, source
      ensures extParams == value && layers == old(layers)
      ensures version == old(version) && styles == old(styles)
      ensures source == old(source)
      ensures source != null ==> source.params == old(source.params) + CleanExtParams(value)
      ensures source != null ==> forall k :: k in Reserved ==>
        k in source.params && source.params[k] == old(source.params)[k]
      ensures source != null ==> forall k :: k in old(source.params) && k !in CleanExtParams(value) ==>
        k in source.params && source.params[k] == old(source.params)[k]
      ensures Valid()
    {
      extParams := value;
      UpdateParams(CleanExtParams(value));
    }

    /**
     * `getGetFeatureInfoUrl`: the call handed to the live source's
     * feature-info URL builder. That builder lays the caller's parameters
     * over the live ones; since `VERSION` and `LAYERS` never come from the
     * caller, the request keeps the component's own values. Before the live
     * source exists, `this.source.getFeatureInfoUrl` dereferences a missing
     * source, which throws: that outcome is `None`.
     */
    method GetFeatureInfoUrl<C, R>(coordinate: C, resolution: R, projection: string, params: Bag<X>,
                                   pointFromLonLat: (C, string) -> C) returns (r: Option<FeatureInfoCall<C, R, X>>)
      requires Valid()
      ensures r.None? <==> source == null
      ensures r.Some? ==> r.value == FeatureInfoRequest(coordinate, resolution, projection, params, pointFromLonLat)
      ensures r.Some? ==> (source.params + r.value.params)["VERSION"] == Str(version)
      ensures r.Some? ==> (source.params + r.value.params)["LAYERS"] == Str(layers)
      ensures r.Some? ==> (source.params + r.value.params)["STYLES"] == StylesValue(styles)
    {
      if source == null {
        r := None;
      } else {
        r := Some(FeatureInfoRequest(coordinate, resolution, projection, params, pointFromLonLat));
      }
    }
  }

  /**
   * A managed-field patch and an `extParams` patch touch disjoint keys, so
   * the order in which the two watchers run does not matter.
   */
  lemma ManagedAndExtPatchesCommute<X>(live: Params<X>, key: string, v: Value<X>, ext: Bag<X>)
    requires key in Reserved
    ensures live[key := v] + CleanExtParams(ext) == (live + CleanExtParams(ext))[key := v]
  {
  }
}
