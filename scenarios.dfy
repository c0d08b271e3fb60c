/**
 * The registry's unit tests replayed on the model: each such method builds
 * the same registry and assets, lets WordPress run the hooks, and asserts
 * the calls the test expects. Three further scenarios have no PHPUnit
 * counterpart: PreloadLastCallWins (on an asset alone, no registry),
 * PreloadAfterRegister and RegisterAssetErrors.
 */
module Scenarios {
  import opened Wrappers
  import opened Enums
  import opened Strings
  import opened Assets
  import opened Registry

  /** A loader-src filter that hands back the url, as the tests' mocks do. */
  function UrlAsHref(hook: string, url: string, version: string, handle: string): (href: string)
  {
    url
  }

  /** One asset's enqueue callback alone in its queue. */
  lemma SingleEnqueueCallback(asset: Asset)
    ensures EnqueuePhaseEffects([asset]) == EnqueueEffects(asset.descriptor, asset.shouldBePreloaded)
    ensures PreloadRequested([asset]) == if asset.shouldBePreloaded then [asset] else []
  {
    assert [asset][..0] == [];
  }

  /** One asset's preload callback alone in its queue. */
  lemma SingleHeadCallback(asset: Asset, loaderSrc: LoaderSrc)
    ensures HeadPhaseEffects([asset], loaderSrc) == PreloadEffects(asset.descriptor,
      loaderSrc(asset.descriptor.Type() + LOADER_SRC_SUFFIX, asset.descriptor.url,
        asset.descriptor.version, asset.descriptor.handle))
    ensures ScriptsOf([asset]) == if asset.descriptor.kind.ScriptKind? then [asset] else []
  {
    HeadPhaseStep([asset], 0, loaderSrc);
    assert [asset][..1] == [asset];
  }

  /** A new registry with one registered asset, after wp_enqueue_scripts has run. */
  method EnqueuedRegistry(directory: string, baseUrl: string, asset: Asset) returns (registry: AssetRegistry)
    ensures fresh(registry) && registry.Valid()
    ensures registry.effects
      == [AddAction(ENQUEUE_HOOK, DEFAULT_PRIORITY)] + EnqueueEffects(asset.descriptor, asset.shouldBePreloaded)
    ensures registry.headCallbacks == if asset.shouldBePreloaded then [asset] else []
    ensures registry.enqueueCallbacks == [] && registry.tagFilters == []
  {
    registry := new AssetRegistry(directory, baseUrl);
    registry.Register(asset);
    SingleEnqueueCallback(asset);
    registry.FireEnqueueScripts();
  }

  method EnqueueStyleWhenRegistered(directory: string, baseUrl: string,
    handle: string, url: string, version: string, dependencies: seq<string>)
  {
    var d := Descriptor(handle, url, version, dependencies, StyleKind(All));
    var delivered := EnqueueStyle(handle, url, dependencies, version, ALL);
    assert EnqueueEffects(d, false) == [delivered];
    var style := new Asset(d);
    var registry := EnqueuedRegistry(directory, baseUrl, style);
    assert registry.effects == [AddAction(ENQUEUE_HOOK, DEFAULT_PRIORITY), delivered];
    assert registry.headCallbacks == [];
  }

  method PreloadStyle(directory: string, baseUrl: string,
    handle: string, url: string, version: string, dependencies: seq<string>)
  {
    var d := Descriptor(handle, url, version, dependencies, StyleKind(All));
    var delivered := EnqueueStyle(handle, url, dependencies, version, ALL);
    var scheduled := AddAction(HEAD_HOOK, PRELOAD_PRIORITY);
    assert EnqueueEffects(d, true) == [delivered, scheduled];
    var filtered := ApplyFilters(STYLE + LOADER_SRC_SUFFIX, handle);
    var rendered := RenderTemplate(PRELOAD_TEMPLATE, url, STYLE);
    assert PreloadEffects(d, url) == [filtered, rendered];
    var style := new Asset(d);
    style.Preload();
    var registry := EnqueuedRegistry(directory, baseUrl, style);
    assert registry.effects == [AddAction(ENQUEUE_HOOK, DEFAULT_PRIORITY), delivered, scheduled];
    assert registry.headCallbacks == [style];
    ghost var enqueued := registry.effects;
    SingleHeadCallback(style, UrlAsHref);
    registry.FireHead(UrlAsHref);
    assert registry.effects == enqueued + [filtered, rendered];
    assert registry.tagFilters == [];
  }

  method EnqueueScriptWhenRegistered(directory: string, baseUrl: string,
    handle: string, url: string, version: string, dependencies: seq<string>)
  {
    var d := Descriptor(handle, url, version, dependencies, ScriptKind(Footer));
    var delivered := EnqueueScript(handle, url, dependencies, version, true);
    assert EnqueueEffects(d, false) == [delivered];
    var script := new Asset(d);
    var registry := EnqueuedRegistry(directory, baseUrl, script);
    assert registry.effects == [AddAction(ENQUEUE_HOOK, DEFAULT_PRIORITY), delivered];
    assert registry.headCallbacks == [];
  }

  method PreloadScript(directory: string, baseUrl: string,
    handle: string, url: string, version: string, dependencies: seq<string>)
  {
    var d := Descriptor(handle, url, version, dependencies, ScriptKind(Footer));
    var delivered := EnqueueScript(handle, url, dependencies, version, true);
    var scheduled := AddAction(HEAD_HOOK, PRELOAD_PRIORITY);
    assert EnqueueEffects(d, true) == [delivered, scheduled];
    var filtered := ApplyFilters(SCRIPT + LOADER_SRC_SUFFIX, handle);
    var deferFilter := AddFilter(SCRIPT_TAG_FILTER, DEFAULT_PRIORITY, TAG_FILTER_ARGS);
    var rendered := RenderTemplate(PRELOAD_TEMPLATE, url, SCRIPT);
    assert PreloadEffects(d, url) == [filtered, deferFilter, rendered];
    var script := new Asset(d);
    script.Preload();
    var registry := EnqueuedRegistry(directory, baseUrl, script);
    assert registry.effects == [AddAction(ENQUEUE_HOOK, DEFAULT_PRIORITY), delivered, scheduled];
    assert registry.headCallbacks == [script];
    ghost var enqueued := registry.effects;
    SingleHeadCallback(script, UrlAsHref);
    registry.FireHead(UrlAsHref);
    assert registry.effects == enqueued + [filtered, deferFilter, rendered];
    assert registry.tagFilters == [script];
  }

  /** The defer filter a preloaded script leaves behind rewrites its own tag only. */
  method PreloadScriptDefersItsTag(directory: string, baseUrl: string,
    handle: string, url: string, version: string, dependencies: seq<string>, otherHandle: string, tag: string)
    requires otherHandle != handle
  {
    var script := new Asset(Descriptor(handle, url, version, dependencies, ScriptKind(Footer)));
    script.Preload();
    var registry := EnqueuedRegistry(directory, baseUrl, script);
    SingleHeadCallback(script, UrlAsHref);
    registry.FireHead(UrlAsHref);
    assert registry.tagFilters == [script];
    assert Descriptors(registry.tagFilters) == [script.descriptor];
    assert CountHandle([script.descriptor], handle) == 1;
    assert CountHandle([script.descriptor], otherHandle) == 0;
    // For `<script></script>` this is `<script defer></script>` (AddDeferEmptyElement).
    var deferred := registry.FilterScriptLoaderTag(tag, handle);
    assert deferred == AddDefer(tag);
    var untouched := registry.FilterScriptLoaderTag(tag, otherHandle);
    assert untouched == tag;
  }

  /** `preload()` sets the flag, `preload(false)` clears it; the last call wins and the descriptor stays. */
  method PreloadLastCallWins(handle: string, url: string, version: string, dependencies: seq<string>)
  {
    var r := NewScript(handle, url, version, dependencies);
    DefaultScript(handle, url, version);
    assert r.Success?;
    var script := r.value;
    assert !script.shouldBePreloaded;
    script.Preload();
    assert script.shouldBePreloaded;
    script.Preload(false);
    script.Preload(false);
    assert !script.shouldBePreloaded;
    assert script.descriptor == Descriptor(handle, url, version, dependencies, ScriptKind(Footer));
  }

  /** The flag is read when wp_enqueue_scripts runs, so preloading after registering still counts. */
  method PreloadAfterRegister(directory: string, baseUrl: string,
    handle: string, url: string, version: string)
  {
    var registry := new AssetRegistry(directory, baseUrl);
    var style := new Asset(Descriptor(handle, url, version, [], StyleKind(Print)));
    registry.Register(style);
    style.Preload();
    assert registry.enqueueCallbacks == [style] && registry.headCallbacks == [];
    SingleEnqueueCallback(style);
    assert PreloadRequested(registry.enqueueCallbacks) == [style];
    registry.FireEnqueueScripts();
    assert registry.headCallbacks == [style];
  }

  /** The style's manifest may list dependencies; the style is built without them. */
  method RegisterStyleFromAssetFile(directory: string, baseUrl: string,
    handle: string, name: string, version: string, dependencies: seq<string>)
  {
    var path := ManifestPath(TrimTrailingSlashes(directory), name);
    var manifest := map[path := ManifestEntry(Some(version), Some(dependencies))];
    var url := TrimTrailingSlashes(baseUrl) + "/" + name + ".css";
    var d := Descriptor(handle, url, version, [], StyleKind(All));
    assert ResolveAsset(TrimTrailingSlashes(directory), TrimTrailingSlashes(baseUrl),
      AssetTypeRaw(STYLE), handle, name, manifest) == Success(d);
    var delivered := EnqueueStyle(handle, url, [], version, ALL);
    assert EnqueueEffects(d, false) == [delivered];
    var registry := new AssetRegistry(directory, baseUrl);
    var r := registry.RegisterAsset(AssetTypeRaw(STYLE), handle, name, manifest);
    assert r.Success? && r.value.descriptor == d;
    SingleEnqueueCallback(r.value);
    registry.FireEnqueueScripts();
    assert registry.effects == [AddAction(ENQUEUE_HOOK, DEFAULT_PRIORITY), delivered];
  }

  method RegisterScriptFromAssetFile(directory: string, baseUrl: string,
    handle: string, name: string, version: string, dependencies: seq<string>)
  {
    var path := ManifestPath(TrimTrailingSlashes(directory), name);
    var manifest := map[path := ManifestEntry(Some(version), Some(dependencies))];
    var url := TrimTrailingSlashes(baseUrl) + "/" + name + ".js";
    var d := Descriptor(handle, url, version, dependencies, ScriptKind(Footer));
    assert ResolveAsset(TrimTrailingSlashes(directory), TrimTrailingSlashes(baseUrl),
      AssetTypeValue(AssetType.Script), handle, name, manifest) == Success(d);
    var delivered := EnqueueScript(handle, url, dependencies, version, true);
    assert EnqueueEffects(d, false) == [delivered];
    var registry := new AssetRegistry(directory, baseUrl);
    var r := registry.RegisterAsset(AssetTypeValue(AssetType.Script), handle, name, manifest);
    assert r.Success? && r.value.descriptor == d;
    SingleEnqueueCallback(r.value);
    registry.FireEnqueueScripts();
    assert registry.effects == [AddAction(ENQUEUE_HOOK, DEFAULT_PRIORITY), delivered];
  }

  /** An unknown type string and a missing manifest file both register nothing. */
  method RegisterAssetErrors(directory: string, baseUrl: string, handle: string, name: string)
  {
    var registry := new AssetRegistry(directory, baseUrl);
    var r := registry.RegisterAsset(AssetTypeRaw("font"), handle, name, map[]);
    assert r == Failure(InvalidAssetType(InvalidVariant("font")));
    r := registry.RegisterAsset(AssetTypeRaw(SCRIPT), handle, name, map[]);
    assert r == Failure(ManifestNotFound(ManifestPath(TrimTrailingSlashes(directory), name)));
    assert registry.effects == [] && registry.enqueueCallbacks == [];
  }
}
