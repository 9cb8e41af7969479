# WMS source parameters: a Dafny model

This project models the parameter handling of the `wms-base` source mixin of
vuelayers (`src/components/source/wms-base.js`), the Vue component base that
backs a WMS (Web Map Service) tile layer. It has three parts:

- **normaliser** (`cleanExtParams`): the free-form `extParams` object gets
  every key upper-cased. Then `LAYERS`, `VERSION` and `STYLES` are dropped,
  because the component manages those three through its own props.
- **source binder** (`createSource`): the live tile source starts from the
  cleaned extra parameters. `LAYERS`, `STYLES` and `VERSION` are then written
  over them from the props.
- **synchroniser** (the four watchers): each change of `layers`, `version`,
  `styles` or `extParams` sends a patch to the live source through
  `updateParams`. The source is never rebuilt.

The parameters that `getGetFeatureInfoUrl` hands to the feature-info URL
builder are modelled too.

Files and modules:

- `ascii.dfy`, module `Ascii`: ASCII upper-casing of keys.
- `wms_params.dfy`, module `WmsParams`: the pure map transforms.
  - A raw parameter object is a `Bag`: its entries as a sequence of
    (key, value) pairs, in iteration order.
  - `mapKeys(toUpperCase)` is a left fold of that sequence into a `map`, so
    a later key that upper-cases to the same name wins.
  - This module also holds the `params` of `createSource` and the call made
    by `getGetFeatureInfoUrl`.
- `wms_base.dfy`, module `WmsBase`: the state.
  - `TileWms` is the live tile source, reduced to its mutable `params` map.
  - `WmsSource` is the component, with the managed props, the
    `extParams` bag, the live source, and one method per watcher.
  - `WmsSource.Valid()` is the invariant the watchers keep: the live
    parameters contain every effective parameter the current props call for.
    The live source can also keep extra keys left by earlier `extParams`.
- `wms_examples.dfy`, module `WmsExamples`: worked cases on concrete bags.

Assumptions about code outside this file:

- The inherited `updateParams` (from `tile-base`, not part of this model) is
  a no-op while there is no live source. Otherwise it is an override-merge
  (`params := params + patch`).
- The feature-info URL builder lays the caller's parameters over the live
  ones. Only `WmsSource.GetFeatureInfoUrl` relies on this, for its
  `VERSION`/`LAYERS`/`STYLES` postconditions.
- `WMS_VERSION` is `"1.3.0"`. The constant lives in the OpenLayers wrapper
  module, which is not part of this model.
- `mapKeys` visits entries in the object's iteration order, and a later
  write under the same key replaces an earlier one.
- A key's upper-case form is its ASCII upper-case form.

Where the description of the system and the code differ:

- The description calls `layers` a non-empty string. The code
  (`wms-base.js:9-12`) only marks it `required`, with no non-emptiness check,
  so the model requires nothing of it.
- The description says `getFeatureInfoUrl` returns `undefined` when the
  source is not yet initialized. The code (`wms-base.js:79`) calls
  `this.source.getFeatureInfoUrl(...)` unguarded, so before the live source
  exists the call throws. `WmsSource.GetFeatureInfoUrl` follows the code and
  returns `None` for that error path.

## Model

| member | source | states |
|---|---|---|
| Ascii.ToUpper | src/components/source/wms-base.js:42 | upper-casing keeps the length and leaves no lower-case letter |
| Ascii.ToUpperPointwise | src/components/source/wms-base.js:42 | a string that matches `s` upper-cased character by character is `ToUpper(s)`, the reference definition of upper-casing |
| Ascii.UpperFixed | src/components/source/wms-base.js:42 | an already upper-case key is left unchanged by `toUpperCase` |
| Ascii.ToUpperIdempotent | src/components/source/wms-base.js:42 | upper-casing twice equals upper-casing once |
| WmsParams.MapKeysToUpperCase | src/components/source/wms-base.js:43 | every key of the re-keyed object is upper-case; its exact keys and values are given by `MapKeysDomain` and `MapKeysLastWins` below |
| WmsParams.MapKeysDomain | src/components/source/wms-base.js:43 | a key is in `mapKeysToUpperCase(p)` exactly when it is the upper-casing of some key of `p`, and every such key is upper-case |
| WmsParams.MapKeysLastWins | src/components/source/wms-base.js:43 | each key of `mapKeysToUpperCase(p)` holds the value of the LAST entry of `p` whose key upper-cases to it |
| WmsParams.CleanExtParams | src/components/source/wms-base.js:44 | the cleaned map has no `LAYERS`/`VERSION`/`STYLES` key; all its keys are upper-case; it holds exactly the other upper-cased input keys, each with its last input value |
| WmsParams.MapKeysOfUpperObject | src/components/source/wms-base.js:43 | walking an object whose keys are already upper-case and re-keying it rebuilds that object |
| WmsParams.CleanOfCleanObject | src/components/source/wms-base.js:44 | any walk over an object with upper-case, unreserved keys normalises back to that object |
| WmsParams.CleanIdempotent | src/components/source/wms-base.js:44 | `cleanExtParams(cleanExtParams(p)) == cleanExtParams(p)`, whatever order the second pass visits the entries in |
| WmsParams.CleanIdempotentOnEntries | src/components/source/wms-base.js:44 | the same idempotence holds on a concrete walk of the cleaned object, so the hypothesis above can be met |
| WmsParams.StylesValue | src/components/source/wms-base.js:17 | an unset `styles` prop contributes `undefined`, a set one its string |
| WmsParams.EffectiveParams | src/components/source/wms-base.js:51-56 | `createSource`'s `params` carry `LAYERS`, `STYLES`, `VERSION` from the props, even when `extParams` has any case variant of them; every other key and value is exactly the cleaned `extParams` entry |
| WmsParams.ManagedOverrideAnyOrder | src/components/source/wms-base.js:51-56 | spreading the managed keys before or after the cleaned extras gives the same object, because the two never share a key |
| WmsParams.FeatureInfoRequest | src/components/source/wms-base.js:78-85 | the builder gets the converted point, the resolution, the projection and `cleanExtParams(params)`: no `VERSION`/`LAYERS`/`STYLES` in any casing, every other caller key upper-cased |
| WmsBase.TileWms.constructor | src/components/source/wms-base.js:48-56 | the live source starts with exactly the given parameters |
| WmsBase.TileWms.UpdateParams | src/components/source/wms-base.js:90-92 | the live parameters become the old ones overridden by the patch (the assumed semantics of `updateParams`) |
| WmsBase.WmsSource.constructor | src/components/source/wms-base.js:8-22 | `layers` must be given; `version` defaults to `WMS_VERSION`, `styles` to unset, `extParams` to empty; there is no live source yet, and the invariant holds |
| WmsBase.WmsSource.CreateSource | src/components/source/wms-base.js:47-68 | a fresh source whose parameters are exactly the effective parameters of the current props |
| WmsBase.WmsSource.Mount | src/components/source/wms-base.js:47-68 | storing `createSource()`'s result: the component then has a fresh live source whose parameters are exactly `Effective()`; the props and `extParams` are unchanged; the invariant holds |
| WmsBase.WmsSource.UpdateParams | src/components/source/wms-base.js:90-92 | forwards a patch to the live source as an override-merge, or does nothing when there is none |
| WmsBase.WmsSource.OnLayersChanged | src/components/source/wms-base.js:89-93 | `layers` takes the new value; the live parameters change at `LAYERS` alone, to the new value; every other live key and value is unchanged; the invariant is kept |
| WmsBase.WmsSource.OnVersionChanged | src/components/source/wms-base.js:94-98 | the same for `version` and `VERSION` |
| WmsBase.WmsSource.OnStylesChanged | src/components/source/wms-base.js:99-103 | the same for `styles` and `STYLES` (`undefined` when unset) |
| WmsBase.WmsSource.OnExtParamsChanged | src/components/source/wms-base.js:104-106 | the live parameters become the old ones merged with `cleanExtParams(value)`; `LAYERS`/`VERSION`/`STYLES` keep their live values; old extra keys not in the new cleaned bag stay; the invariant is kept |
| WmsBase.WmsSource.GetFeatureInfoUrl | src/components/source/wms-base.js:75-85 | with no live source the call fails (`None`), and only then; otherwise the call handed to the builder is the cleaned request above, and laid over the live parameters it leaves `VERSION`, `LAYERS` and `STYLES` at the component's own values |
| WmsBase.EffectiveNewLayers | src/components/source/wms-base.js:51-56 | changing only `layers` changes the effective parameters at `LAYERS` alone |
| WmsBase.EffectiveNewStyles | src/components/source/wms-base.js:51-56 | changing only `styles` changes the effective parameters at `STYLES` alone |
| WmsBase.EffectiveNewVersion | src/components/source/wms-base.js:51-56 | changing only `version` changes the effective parameters at `VERSION` alone |
| WmsBase.ManagedAndExtPatchesCommute | src/components/source/wms-base.js:88-107 | a managed-field patch and an `extParams` patch commute, so the order in which two watchers fire in one update does not matter |
| WmsExamples.ReservedInEveryCasing | src/components/source/wms-base.js:44 | `{layers: 'x', Layers: 'y', LAYERS: 'z'}` normalises to `{}` |
| WmsExamples.CollidingKeysLastWins | src/components/source/wms-base.js:43-44 | `{format: 'a', FORMAT: 'b'}` normalises to `{FORMAT: 'b'}` (later key wins) |
| WmsExamples.CollidingPair | src/components/source/wms-base.js:43-44 | any two keys that upper-case to the same unreserved name keep the second value |
| WmsExamples.ExtParamsSwapKeepsOldKey | src/components/source/wms-base.js:104-106 | replacing `extParams` `{foo: 1}` by `{bar: 2}` patches `{BAR: 2}`; the live `FOO` remains |
| WmsExamples.CallerVersionDropped | src/components/source/wms-base.js:83 | `{version: '1.1.0', info_format: 'text/plain'}` normalises to `{INFO_FORMAT: 'text/plain'}` |
| WmsExamples.FeatureInfoDropsCallerVersion | src/components/source/wms-base.js:75-85 | that bag reaches the feature-info builder as `{INFO_FORMAT: 'text/plain'}` |

## Left out

- The `ol.source.TileWMS` constructor options other than `params` are not modelled, because they are pass-through values for a foreign library. These are `attributions`, `cacheSize`, `crossOrigin`, `gutter`, `hidpi`, `logo`, `tileGrid`, `projection`, `reprojectionErrorThreshold`, `serverType`, `wrapX` and `url`/`replaceUrlTokens()`. For the same reason the `gutter`, `hidpi` and `serverType` props are not modelled.
- OpenLayers assembles the feature-info URL itself, which is not modelled. This includes defaulting `QUERY_LAYERS` to the current `LAYERS` and the `undefined` result. The model stops at the call that `getGetFeatureInfoUrl` makes.
- The default arguments of `getGetFeatureInfoUrl` are not applied: `view.getResolution()` and `currentProjection` come from outside this file. The caller passes the resolution and projection explicitly.
- `coordHelper.pointFromLonLat` is a floating-point reprojection. It is a function parameter with no properties.
- The Vue machinery is not modelled: prop validation, the identity `computed` getters, when watchers fire and mixin composition. Each `On…Changed` method does the prop assignment and the watcher's reaction together.
- Only ASCII upper-casing is modelled. JavaScript's full Unicode `toUpperCase` (for example `ß` becomes `SS`, which changes the length) is not.
- JavaScript's own object key order (integer-like keys first) is not modelled. A `Bag` is taken to be already in iteration order. An `undefined` `extParams` is the empty bag.
- The refresh that OpenLayers' `updateParams` triggers on the live source (its change event and tile reload) is not modelled. Only the parameter merge is.
- The mounting step that stores the result of `createSource` belongs to `tile-base`, which is not part of this model. `WmsSource.Mount` stands for it: it only stores a fresh source built by `CreateSource`.
- WmsSource.GetFeatureInfoUrl: a call before the live source exists throws a `TypeError` in JavaScript (`this.source` is missing at `wms-base.js:79`). The model returns the error outcome `None` instead, and does not model the exception itself.
