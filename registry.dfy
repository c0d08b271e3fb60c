/**
 * Asset_Registry. It never stores assets: every call into WordPress is
 * recorded as an Effect on a trace, and every closure it hands to WordPress
 * is kept in the queue of the hook it was added to, capturing its asset.
 * The Fire... methods stand for WordPress running those hooks; they drain a
 * queue in the order the callbacks were added.
 */
module Registry {
  import opened Wrappers
  import opened Enums
  import opened Strings
  import opened Assets

  const ENQUEUE_HOOK: string := "wp_enqueue_scripts"
  const HEAD_HOOK: string := "wp_head"
  const SCRIPT_TAG_FILTER: string := "script_loader_tag"
  const LOADER_SRC_SUFFIX: string := "_loader_src"
  const PRELOAD_TEMPLATE: string := "assets/preload-link"
  /** WordPress's default priority for add_action and add_filter. */
  const DEFAULT_PRIORITY: int := 10
  /** The priority of the preload callback on wp_head. */
  const PRELOAD_PRIORITY: int := 2
  /** The defer filter receives the tag and the handle. */
  const TAG_FILTER_ARGS: int := 2

  /** One call from the registry into WordPress or into the template engine. */
  datatype Effect =
    | AddAction(hook: string, priority: int)
    | AddFilter(hook: string, priority: int, acceptedArgs: int)
    | ApplyFilters(hook: string, handle: string)
    | EnqueueStyle(handle: string, url: string, dependencies: seq<string>, version: string, media: string)
    | EnqueueScript(handle: string, url: string, dependencies: seq<string>, version: string, inFooter: bool)
    | RenderTemplate(template: string, href: string, assetType: string)

  /** The array a `{name}.asset.php` file returns; either key may be missing. */
  datatype ManifestEntry = ManifestEntry(version: Option<string>, dependencies: Option<seq<string>>)

  /** The manifest files on disk, by path. */
  type Manifest = map<string, ManifestEntry>

  datatype RegistryError =
    | InvalidAssetType(error: EnumError)
    | ManifestNotFound(path: string)
    | ManifestKeyMissing(path: string, key: string)

  /** The filter that turns `url?ver=version` into the preload href (add_query_arg and apply_filters). */
  type LoaderSrc = (string, string, string, string) -> string

  /** The file name suffix of an asset's manifest. */
  const MANIFEST_SUFFIX: string := ".asset.php"

  /**
   * `{directory}/{name}.asset.php`: the directory, a slash, the name as
   * given and the manifest suffix, so the name can be read back from the path.
   */
  function ManifestPath(directory: string, name: string): (path: string)
    ensures |path| == |directory| + 1 + |name| + |MANIFEST_SUFFIX|
    ensures path[..|directory|] == directory && path[|directory|] == '/'
    ensures path[|directory| + 1..|directory| + 1 + |name|] == name
    ensures path[|directory| + 1 + |name|..] == MANIFEST_SUFFIX
  {
    var path := directory + "/" + name + MANIFEST_SUFFIX;
    assert path[|directory| + 1..|directory| + 1 + |name|] == name;
    path
  }

  /** In one directory, distinct asset names have distinct manifest files. */
  lemma ManifestPathInjective(directory: string, name: string, other: string)
    ensures ManifestPath(directory, name) == ManifestPath(directory, other) ==> name == other
  {
  }

  /**
   * `create_style_asset`: url `{baseUrl}/{name}.css`, the manifest's version,
   * no dependencies whatever the manifest lists, media type `all`.
   */
  function CreateStyleDescriptor(
    directory: string, baseUrl: string, handle: string, name: string, manifest: Manifest): (r: Result<Descriptor, RegistryError>)
    ensures ManifestPath(directory, name) !in manifest ==> r == Failure(ManifestNotFound(ManifestPath(directory, name)))
    ensures r.Success? <==>
      ManifestPath(directory, name) in manifest && manifest[ManifestPath(directory, name)].version.Some?
    ensures r.Success? ==>
      r.value == Descriptor(handle, baseUrl + "/" + name + ".css",
        manifest[ManifestPath(directory, name)].version.value, [], StyleKind(All))
  {
    var path := ManifestPath(directory, name);
    if path !in manifest then Failure(ManifestNotFound(path))
    else if manifest[path].version.None? then Failure(ManifestKeyMissing(path, "version"))
    else
      var url, version := baseUrl + "/" + name + ".css", manifest[path].version.value;
      DefaultStyle(handle, url, version);
      Success(StyleDescriptor(handle, url, version, []).value)
  }

  /**
   * `create_script_asset`: url `{baseUrl}/{name}.js`, the manifest's version
   * and dependencies, target location FOOTER.
   */
  function CreateScriptDescriptor(
    directory: string, baseUrl: string, handle: string, name: string, manifest: Manifest): (r: Result<Descriptor, RegistryError>)
    ensures ManifestPath(directory, name) !in manifest ==> r == Failure(ManifestNotFound(ManifestPath(directory, name)))
    ensures r.Success? <==>
      && ManifestPath(directory, name) in manifest
      && manifest[ManifestPath(directory, name)].version.Some?
      && manifest[ManifestPath(directory, name)].dependencies.Some?
    ensures r.Success? ==>
      r.value == Descriptor(handle, baseUrl + "/" + name + ".js",
        manifest[ManifestPath(directory, name)].version.value,
        manifest[ManifestPath(directory, name)].dependencies.value, ScriptKind(Footer))
  {
    var path := ManifestPath(directory, name);
    if path !in manifest then Failure(ManifestNotFound(path))
    else if manifest[path].version.None? then Failure(ManifestKeyMissing(path, "version"))
    else if manifest[path].dependencies.None? then Failure(ManifestKeyMissing(path, "dependencies"))
    else
      var url, version, dependencies :=
        baseUrl + "/" + name + ".js", manifest[path].version.value, manifest[path].dependencies.value;
      DefaultScript(handle, url, version);
      Success(ScriptDescriptor(handle, url, version, dependencies).value)
  }

  /** `create_asset`: a Style exactly for the `style` type, a Script for every other. */
  function CreateDescriptor(
    directory: string, baseUrl: string, assetType: AssetType, handle: string, name: string,
    manifest: Manifest): (r: Result<Descriptor, RegistryError>)
    ensures r == if assetType == AssetType.Style
      then CreateStyleDescriptor(directory, baseUrl, handle, name, manifest)
      else CreateScriptDescriptor(directory, baseUrl, handle, name, manifest)
    ensures r.Success? ==> r.value.AssetTypeOf() == assetType && r.value.handle == handle
  {
    ValueInjective();
    if assetType.Value() == STYLE then CreateStyleDescriptor(directory, baseUrl, handle, name, manifest)
    else CreateScriptDescriptor(directory, baseUrl, handle, name, manifest)
  }

  /** What `register_asset` builds before registering: normalise the type, then create. */
  function ResolveAsset(
    directory: string, baseUrl: string, assetType: AssetTypeOrString, handle: string, name: string,
    manifest: Manifest): (r: Result<Descriptor, RegistryError>)
    ensures NormaliseAssetType(assetType).Failure? ==> r == Failure(InvalidAssetType(NormaliseAssetType(assetType).error))
    ensures NormaliseAssetType(assetType).Success? ==>
      r == CreateDescriptor(directory, baseUrl, NormaliseAssetType(assetType).value, handle, name, manifest)
    ensures r.Success? && assetType.AssetTypeRaw? ==> r.value.Type() == assetType.raw
  {
    match NormaliseAssetType(assetType)
    case Failure(e) => Failure(InvalidAssetType(e))
    case Success(t) => CreateDescriptor(directory, baseUrl, t, handle, name, manifest)
  }

  /**
   * The WordPress call `enqueue_asset` makes for an asset: exactly one
   * wp_enqueue_style for a Style, exactly one wp_enqueue_script for a Script,
   * loaded in the footer exactly when its target location is FOOTER.
   */
  function DeliveryEffects(d: Descriptor): (r: seq<Effect>)
    ensures |r| == 1
    ensures r[0].EnqueueStyle? <==> d.kind.StyleKind?
    ensures r[0].EnqueueScript? <==> d.kind.ScriptKind?
    ensures d.kind.StyleKind? ==>
      r[0] == EnqueueStyle(d.handle, d.url, d.dependencies, d.version, d.kind.mediaType.Value())
    ensures d.kind.ScriptKind? ==>
      r[0] == EnqueueScript(d.handle, d.url, d.dependencies, d.version, d.kind.targetLocation == Footer)
  {
    ValueInjective();
    (if d.kind.StyleKind?
     then [EnqueueStyle(d.handle, d.url, d.dependencies, d.version, d.kind.mediaType.Value())]
     else [])
    + (if d.kind.ScriptKind?
       then [EnqueueScript(d.handle, d.url, d.dependencies, d.version, d.kind.targetLocation.Value() == FOOTER)]
       else [])
  }

  /** All calls `enqueue_asset` makes: delivery, then a wp_head action exactly when preloading. */
  function EnqueueEffects(d: Descriptor, preload: bool): (r: seq<Effect>)
    ensures |r| == 2 <==> preload
    ensures 1 <= |r| <= 2 && r[..1] == DeliveryEffects(d)
    ensures |r| == 2 ==> r[1] == AddAction(HEAD_HOOK, PRELOAD_PRIORITY)
  {
    DeliveryEffects(d) + (if preload then [AddAction(HEAD_HOOK, PRELOAD_PRIORITY)] else [])
  }

  /**
   * The calls `preload_asset` makes: the loader-src filter keyed by the
   * asset's type, one script_loader_tag filter exactly for a Script, and the
   * preload-link template rendered with that type.
   */
  function PreloadEffects(d: Descriptor, href: string): (r: seq<Effect>)
    ensures |r| == 3 <==> d.kind.ScriptKind?
    ensures |r| == 2 <==> d.kind.StyleKind?
    ensures r[0] == ApplyFilters(d.AssetTypeOf().Value() + LOADER_SRC_SUFFIX, d.handle)
    ensures |r| == 3 ==> r[1] == AddFilter(SCRIPT_TAG_FILTER, DEFAULT_PRIORITY, TAG_FILTER_ARGS)
    ensures r[|r| - 1] == RenderTemplate(PRELOAD_TEMPLATE, href, d.AssetTypeOf().Value())
  {
    var assetType := d.Type();
    [ApplyFilters(assetType + LOADER_SRC_SUFFIX, d.handle)]
    + (if d.kind.ScriptKind? then [AddFilter(SCRIPT_TAG_FILTER, DEFAULT_PRIORITY, TAG_FILTER_ARGS)] else [])
    + [RenderTemplate(PRELOAD_TEMPLATE, href, assetType)]
  }

  /**
   * `defer_script`: another handle's tag passes through untouched; this
   * script's tag gets ` defer` before every `><`, which can be undone, and
   * changes exactly when the tag has a `><`.
   */
  function DeferScript(script: Descriptor, tag: string, handle: string): (r: string)
    requires script.kind.ScriptKind?
    ensures handle != script.handle ==> r == tag
    ensures handle == script.handle ==> r == AddDefer(tag) && RemoveDefer(r) == tag
    ensures handle == script.handle ==> (r == tag <==> !Contains(tag, TAG_BOUNDARY))
  {
    if handle != script.handle then tag
    else
      RemoveDeferAddDefer(tag);
      ReplaceAllUnchangedIff(tag, TAG_BOUNDARY, DEFERRED_BOUNDARY);
      AddDefer(tag)
  }

  /** The descriptors of a sequence of assets. */
  function Descriptors(assets: seq<Asset>): (r: seq<Descriptor>)
    ensures |r| == |assets|
    ensures forall i :: 0 <= i < |assets| ==> r[i] == assets[i].descriptor
  {
    if assets == [] then [] else Descriptors(assets[..|assets| - 1]) + [assets[|assets| - 1].descriptor]
  }

  predicate AllScripts(scripts: seq<Descriptor>)
  {
    forall i :: 0 <= i < |scripts| ==> scripts[i].kind.ScriptKind?
  }

  /** The script_loader_tag filters run in the order they were added. */
  function FilterChain(scripts: seq<Descriptor>, tag: string, handle: string): (r: string)
    requires AllScripts(scripts)
  {
    if scripts == [] then tag
    else DeferScript(scripts[|scripts| - 1], FilterChain(scripts[..|scripts| - 1], tag, handle), handle)
  }

  /** How many of the scripts have the given handle. */
  function CountHandle(scripts: seq<Descriptor>, handle: string): (n: nat)
  {
    if scripts == [] then 0
    else CountHandle(scripts[..|scripts| - 1], handle) + (if scripts[|scripts| - 1].handle == handle then 1 else 0)
  }

  /** The defer rewrite applied `n` times. */
  function AddDeferTimes(tag: string, n: nat): (r: string)
  {
    if n == 0 then tag else AddDefer(AddDeferTimes(tag, n - 1))
  }

  /** A tag is rewritten once per deferring filter whose script has the tag's handle. */
  lemma {:induction false} FilterChainDefersPerMatch(scripts: seq<Descriptor>, tag: string, handle: string)
    requires AllScripts(scripts)
    ensures FilterChain(scripts, tag, handle) == AddDeferTimes(tag, CountHandle(scripts, handle))
    decreases |scripts|
  {
    if scripts != [] {
      var init, last := scripts[..|scripts| - 1], scripts[|scripts| - 1];
      FilterChainDefersPerMatch(init, tag, handle);
      var before := FilterChain(init, tag, handle);
      assert FilterChain(scripts, tag, handle) == DeferScript(last, before, handle);
      if last.handle == handle {
        assert CountHandle(scripts, handle) == CountHandle(init, handle) + 1;
      } else {
        assert CountHandle(scripts, handle) == CountHandle(init, handle);
      }
    }
  }

  /** No deferring filter for this handle: the tag is untouched; exactly one: deferred once. */
  lemma FilterChainOneOrNone(scripts: seq<Descriptor>, tag: string, handle: string)
    requires AllScripts(scripts)
    ensures CountHandle(scripts, handle) == 0 ==> FilterChain(scripts, tag, handle) == tag
    ensures CountHandle(scripts, handle) == 1 ==> FilterChain(scripts, tag, handle) == AddDefer(tag)
  {
    FilterChainDefersPerMatch(scripts, tag, handle);
  }

  /** The calls the wp_enqueue_scripts callbacks make when the hook runs. */
  ghost function EnqueuePhaseEffects(assets: seq<Asset>): (r: seq<Effect>)
    reads assets
  {
    if assets == [] then []
    else
      var last := assets[|assets| - 1];
      EnqueuePhaseEffects(assets[..|assets| - 1]) + EnqueueEffects(last.descriptor, last.shouldBePreloaded)
  }

  /** The assets whose preload flag is set, in order. */
  ghost function PreloadRequested(assets: seq<Asset>): (r: seq<Asset>)
    reads assets
  {
    if assets == [] then []
    else
      var last := assets[|assets| - 1];
      PreloadRequested(assets[..|assets| - 1]) + (if last.shouldBePreloaded then [last] else [])
  }

  /** Running one more enqueue callback extends the phase's calls and preload list. */
  lemma EnqueuePhaseStep(queue: seq<Asset>, i: nat)
    requires i < |queue|
    ensures EnqueuePhaseEffects(queue[..i + 1])
      == EnqueuePhaseEffects(queue[..i]) + EnqueueEffects(queue[i].descriptor, queue[i].shouldBePreloaded)
    ensures PreloadRequested(queue[..i + 1])
      == PreloadRequested(queue[..i]) + (if queue[i].shouldBePreloaded then [queue[i]] else [])
  {
    assert queue[..i + 1][..i] == queue[..i];
  }

  /** The calls the wp_head callbacks make when the hook runs. */
  function HeadPhaseEffects(assets: seq<Asset>, loaderSrc: LoaderSrc): (r: seq<Effect>)
  {
    if assets == [] then []
    else
      var d := assets[|assets| - 1].descriptor;
      HeadPhaseEffects(assets[..|assets| - 1], loaderSrc)
      + PreloadEffects(d, loaderSrc(d.Type() + LOADER_SRC_SUFFIX, d.url, d.version, d.handle))
  }

  lemma AppendAssoc<T>(a: seq<T>, b: seq<T>, c: seq<T>)
    ensures a + (b + c) == (a + b) + c
  {
  }

  lemma HeadPhaseStep(queue: seq<Asset>, i: nat, loaderSrc: LoaderSrc)
    requires i < |queue|
    ensures HeadPhaseEffects(queue[..i + 1], loaderSrc) == HeadPhaseEffects(queue[..i], loaderSrc)
      + PreloadEffects(queue[i].descriptor, loaderSrc(queue[i].descriptor.Type() + LOADER_SRC_SUFFIX,
          queue[i].descriptor.url, queue[i].descriptor.version, queue[i].descriptor.handle))
    ensures ScriptsOf(queue[..i + 1])
      == ScriptsOf(queue[..i]) + (if queue[i].descriptor.kind.ScriptKind? then [queue[i]] else [])
  {
    assert queue[..i + 1][..i] == queue[..i];
  }

  /** The scripts among the assets, in order. */
  function ScriptsOf(assets: seq<Asset>): (r: seq<Asset>)
  {
    if assets == [] then []
    else
      var last := assets[|assets| - 1];
      ScriptsOf(assets[..|assets| - 1]) + (if last.descriptor.kind.ScriptKind? then [last] else [])
  }

  class AssetRegistry {
    /** Asset root directory, without trailing slashes. */
    const assetsDirectory: string
    /** Asset root URL, without trailing slashes. */
    const assetsUrl: string
    /** Every call made into WordPress and the template engine, oldest first. */
    var effects: seq<Effect>
    /** The assets captured by callbacks added to wp_enqueue_scripts and not yet run. */
    var enqueueCallbacks: seq<Asset>
    /** The assets captured by callbacks added to wp_head and not yet run. */
    var headCallbacks: seq<Asset>
    /** The scripts captured by the defer filters added to script_loader_tag. */
    var tagFilters: seq<Asset>

    /** `defer_script` takes a Script: only scripts are captured by the tag filters. */
    ghost predicate Valid()
      reads this
    {
      AllScripts(Descriptors(tagFilters))
    }

    /** `__construct`: both bases lose their trailing slashes; nothing is scheduled. */
    constructor (assetsDirectory: string, assetsUrl: string)
      ensures Valid()
      ensures this.assetsDirectory == TrimTrailingSlashes(assetsDirectory)
      ensures this.assetsUrl == TrimTrailingSlashes(assetsUrl)
      ensures effects == [] && enqueueCallbacks == [] && headCallbacks == [] && tagFilters == []
    {
      this.assetsDirectory := TrimTrailingSlashes(assetsDirectory);
      this.assetsUrl := TrimTrailingSlashes(assetsUrl);
      effects, enqueueCallbacks, headCallbacks, tagFilters := [], [], [], [];
    }

    /** `register`: one wp_enqueue_scripts callback for this asset and nothing else. */
    method Register(asset: Asset)
      requires Valid()
      modifies this
      ensures Valid()
      ensures effects == old(effects) + [AddAction(ENQUEUE_HOOK, DEFAULT_PRIORITY)]
      ensures enqueueCallbacks == old(enqueueCallbacks) + [asset]
      ensures headCallbacks == old(headCallbacks) && tagFilters == old(tagFilters)
    {
      effects := effects + [AddAction(ENQUEUE_HOOK, DEFAULT_PRIORITY)];
      enqueueCallbacks := enqueueCallbacks + [asset];
    }

    /**
     * `register_asset`: builds the asset ResolveAsset describes, registers
     * it and returns that same asset; on an error nothing is registered.
     */
    method RegisterAsset(assetType: AssetTypeOrString, handle: string, name: string, manifest: Manifest)
      returns (r: Result<Asset, RegistryError>)
      requires Valid()
      modifies this
      ensures Valid()
      ensures r.Success? <==> ResolveAsset(assetsDirectory, assetsUrl, assetType, handle, name, manifest).Success?
      ensures r.Failure? ==> r.error == ResolveAsset(assetsDirectory, assetsUrl, assetType, handle, name, manifest).error
      ensures r.Success? ==> fresh(r.value) && !r.value.shouldBePreloaded
      ensures r.Success? ==>
        r.value.descriptor == ResolveAsset(assetsDirectory, assetsUrl, assetType, handle, name, manifest).value
      ensures r.Success? ==> enqueueCallbacks == old(enqueueCallbacks) + [r.value]
      ensures r.Success? ==> effects == old(effects) + [AddAction(ENQUEUE_HOOK, DEFAULT_PRIORITY)]
      ensures r.Failure? ==> enqueueCallbacks == old(enqueueCallbacks) && effects == old(effects)
      ensures headCallbacks == old(headCallbacks) && tagFilters == old(tagFilters)
    {
      match ResolveAsset(assetsDirectory, assetsUrl, assetType, handle, name, manifest)
      case Failure(e) =>
        r := Failure(e);
      case Success(d) =>
        var asset := new Asset(d);
        Register(asset);
        r := Success(asset);
    }

    /**
     * `enqueue_asset`: deliver the asset and, when its preload flag is set at
     * this moment, add the wp_head callback that preloads it.
     */
    method EnqueueAsset(asset: Asset)
      requires Valid()
      modifies this
      ensures Valid()
      ensures effects == old(effects) + EnqueueEffects(asset.descriptor, asset.shouldBePreloaded)
      ensures headCallbacks == old(headCallbacks) + (if asset.shouldBePreloaded then [asset] else [])
      ensures enqueueCallbacks == old(enqueueCallbacks) && tagFilters == old(tagFilters)
    {
      effects := effects + DeliveryEffects(asset.descriptor);
      if asset.shouldBePreloaded {
        effects := effects + [AddAction(HEAD_HOOK, PRELOAD_PRIORITY)];
        headCallbacks := headCallbacks + [asset];
      }
    }

    /**
     * `preload_asset`: compute the href through the loader-src filter, add the
     * defer filter for a Script, and render the preload link.
     */
    method PreloadAsset(asset: Asset, loaderSrc: LoaderSrc)
      requires Valid()
      modifies this
      ensures Valid()
      ensures effects == old(effects) + PreloadEffects(asset.descriptor,
        loaderSrc(asset.descriptor.Type() + LOADER_SRC_SUFFIX, asset.descriptor.url,
          asset.descriptor.version, asset.descriptor.handle))
      ensures tagFilters == old(tagFilters) + (if asset.descriptor.kind.ScriptKind? then [asset] else [])
      ensures enqueueCallbacks == old(enqueueCallbacks) && headCallbacks == old(headCallbacks)
    {
      var d := asset.descriptor;
      var assetType := d.Type();
      var href := loaderSrc(assetType + LOADER_SRC_SUFFIX, d.url, d.version, d.handle);
      effects := effects + [ApplyFilters(assetType + LOADER_SRC_SUFFIX, d.handle)];
      if d.kind.ScriptKind? {
        effects := effects + [AddFilter(SCRIPT_TAG_FILTER, DEFAULT_PRIORITY, TAG_FILTER_ARGS)];
        tagFilters := tagFilters + [asset];
      }
      effects := effects + [RenderTemplate(PRELOAD_TEMPLATE, href, assetType)];
    }

    /**
     * WordPress runs wp_enqueue_scripts: every pending callback, in the order
     * added, each reading its asset's preload flag as it stands when the hook runs.
     */
    method FireEnqueueScripts()
      requires Valid()
      modifies this
      ensures Valid()
      ensures enqueueCallbacks == []
      ensures effects == old(effects) + old(EnqueuePhaseEffects(enqueueCallbacks))
      ensures headCallbacks == old(headCallbacks) + old(PreloadRequested(enqueueCallbacks))
      ensures tagFilters == old(tagFilters)
    {
      var queue := enqueueCallbacks;
      forall i | 0 <= i < |queue|
        ensures old(EnqueuePhaseEffects(queue[..i + 1])) == old(EnqueuePhaseEffects(queue[..i]))
          + EnqueueEffects(queue[i].descriptor, old(queue[i].shouldBePreloaded))
        ensures old(PreloadRequested(queue[..i + 1])) == old(PreloadRequested(queue[..i]))
          + (if old(queue[i].shouldBePreloaded) then [queue[i]] else [])
      {
        EnqueuePhaseStep(queue, i);
      }
      enqueueCallbacks := [];
      var i := 0;
      while i < |queue|
        invariant 0 <= i <= |queue|
        invariant Valid() && enqueueCallbacks == [] && tagFilters == old(tagFilters)
        invariant effects == old(effects) + old(EnqueuePhaseEffects(queue[..i]))
        invariant headCallbacks == old(headCallbacks) + old(PreloadRequested(queue[..i]))
      {
        AppendAssoc(old(effects), old(EnqueuePhaseEffects(queue[..i])),
          EnqueueEffects(queue[i].descriptor, queue[i].shouldBePreloaded));
        AppendAssoc(old(headCallbacks), old(PreloadRequested(queue[..i])),
          if queue[i].shouldBePreloaded then [queue[i]] else []);
        EnqueueAsset(queue[i]);
        i := i + 1;
      }
      assert queue[..i] == queue;
    }

    /** WordPress runs wp_head: every pending preload callback, in the order added. */
    method FireHead(loaderSrc: LoaderSrc)
      requires Valid()
      modifies this
      ensures Valid()
      ensures headCallbacks == []
      ensures effects == old(effects) + HeadPhaseEffects(old(headCallbacks), loaderSrc)
      ensures tagFilters == old(tagFilters) + ScriptsOf(old(headCallbacks))
      ensures enqueueCallbacks == old(enqueueCallbacks)
    {
      var queue := headCallbacks;
      headCallbacks := [];
      var i := 0;
      while i < |queue|
        invariant 0 <= i <= |queue|
        invariant Valid() && headCallbacks == [] && enqueueCallbacks == old(enqueueCallbacks)
        invariant effects == old(effects) + HeadPhaseEffects(queue[..i], loaderSrc)
        invariant tagFilters == old(tagFilters) + ScriptsOf(queue[..i])
      {
        var d := queue[i].descriptor;
        HeadPhaseStep(queue, i, loaderSrc);
        AppendAssoc(old(effects), HeadPhaseEffects(queue[..i], loaderSrc),
          PreloadEffects(d, loaderSrc(d.Type() + LOADER_SRC_SUFFIX, d.url, d.version, d.handle)));
        AppendAssoc(old(tagFilters), ScriptsOf(queue[..i]), if d.kind.ScriptKind? then [queue[i]] else []);
        PreloadAsset(queue[i], loaderSrc);
        i := i + 1;
      }
      assert queue[..i] == queue;
    }

    /**
     * WordPress filters a script tag through script_loader_tag: each defer
     * filter added so far runs on the tag in turn.
     */
    method FilterScriptLoaderTag(tag: string, handle: string) returns (r: string)
      requires Valid()
      ensures AllScripts(Descriptors(tagFilters))
      ensures r == AddDeferTimes(tag, CountHandle(Descriptors(tagFilters), handle))
    {
      ghost var scripts := Descriptors(tagFilters);
      r := tag;
      var i := 0;
      while i < |tagFilters|
        invariant 0 <= i <= |tagFilters|
        invariant AllScripts(scripts[..i])
        invariant r == FilterChain(scripts[..i], tag, handle)
      {
        assert scripts[..i + 1][..i] == scripts[..i];
        r := DeferScript(tagFilters[i].descriptor, r, handle);
        i := i + 1;
      }
      assert scripts[..i] == scripts;
      FilterChainDefersPerMatch(scripts, tag, handle);
    }
  }
}
