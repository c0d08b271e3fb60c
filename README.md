# Asset registry for WordPress, modelled in Dafny

This project models the core of the `moonwalkingbits/wordpress-assets` package.

`Asset_Registry` takes stylesheets and scripts (`Style` and `Script`, both built on `Abstract_Asset`) and delivers them through WordPress:

- `register` adds a `wp_enqueue_scripts` action for the asset.
- When that action runs, `enqueue_asset` calls `wp_enqueue_style` or `wp_enqueue_script`. When the asset asks to be preloaded, it also adds a `wp_head` action at priority 2.
- That action runs `preload_asset`. It passes the asset's url through the `{type}_loader_src` filter and renders the `assets/preload-link` template. For a script, it also adds a `script_loader_tag` filter that writes ` defer` into that script's tag.
- `register_asset` is a convenience entry point. It reads `{name}.asset.php` from the asset directory for the version and dependencies, and builds `{url}/{name}.css` or `{url}/{name}.js`.
- The three enums `Asset_Type`, `Media_Type` and `Target_Location` are closed sets of string constants.

The model is split into these modules:

- `Wrappers` (`wrappers.dfy`): `Option` and `Result`.
- `Enums` (`enums.dfy`):
  - the three closed sets, with `Value()` and a partial parse (`...From`);
  - the `variant|string` arguments of the constructors and of `register_asset`;
  - the normalisation `$x instanceof T ? $x : T::from($x)`.
- `Strings` (`strings.dfy`):
  - `rtrim($s, '/')`;
  - `str_replace` for one search string;
  - the ` defer` rewrite, with its inverse and what it does to an empty element.
- `Assets` (`assets.dfy`):
  - The asset classes are split in two. The fields that are set once by the constructor form an immutable `Descriptor` datatype, which also holds the Style/Script kind and its enum.
  - The preload flag, which `preload()` updates in place, is a `var` field of the class `Asset`.
  - `NewStyle` and `NewScript` are the two constructors.
  - `Translation` is a plain record.
- `Registry` (`registry.dfy`): the class `AssetRegistry`.
  - Every call into WordPress or the template engine is appended to an `effects` trace.
  - Every closure handed to WordPress is kept, with the asset it captures, in the queue of its hook: `enqueueCallbacks`, `headCallbacks` and `tagFilters`.
  - `FireEnqueueScripts`, `FireHead` and `FilterScriptLoaderTag` stand for WordPress running those hooks. Each is a loop proved against a specification function: `EnqueuePhaseEffects`, `HeadPhaseEffects` and `FilterChain`/`AddDeferTimes`.
- `Scenarios` (`scenarios.dfy`): the registry's unit tests replayed as assertions, over arbitrary handles, urls, versions and dependencies, plus three further scenarios with no PHPUnit counterpart: `PreloadLastCallWins`, `PreloadAfterRegister` and `RegisterAssetErrors`.
  - Registered styles and scripts are enqueued with the expected arguments.
  - Preloading adds the `wp_head` action, the loader-src filter, the defer filter (scripts only) and the rendered link.
  - The defer filter rewrites its own script's tag and leaves every other handle's tag alone.
  - Preloading after `register` but before the hook runs still counts.
  - `preload(false)` undoes `preload()`.
  - Styles and scripts are built from an asset file.
  - An invalid type string or a missing asset file registers nothing.

## Model

| member | source | states |
|---|---|---|
| Enums.AssetType.Value | src/class-asset-type.php:23-24 | the variant's constant, which `from` parses back to the same variant |
| Enums.AssetTypeFrom | src/class-asset-type.php:21-25 | succeeds exactly on `style` and `script`; otherwise the error names the raw string |
| Enums.MediaType.Value | src/class-media-type.php:23-26 | the variant's constant, which `from` parses back to the same variant |
| Enums.MediaTypeFrom | src/class-media-type.php:21-27 | succeeds exactly on `screen`, `print`, `speech`, `all`; otherwise the error names the raw string |
| Enums.TargetLocation.Value | src/class-target-location.php:23-24 | the variant's constant, which `from` parses back to the same variant |
| Enums.TargetLocationFrom | src/class-target-location.php:21-25 | succeeds exactly on `HEADER` and `FOOTER`; otherwise the error names the raw string |
| Enums.ParseThenValue | src/class-media-type.php:23-26 | for all three enums, parsing a declared constant and reading `value()` back gives the same string |
| Enums.ValueInjective | src/class-target-location.php:23-24 | `value()` is injective on each enum, so the footer test at the dispatch site holds for exactly one variant |
| Enums.NormaliseAssetType | src/class-asset-registry.php:84-86 | a variant is kept as given; a raw string succeeds exactly when it is declared, and then names that string |
| Enums.NormaliseMediaType | src/class-style.php:54-56 | a variant is kept as given; a raw string succeeds exactly when it is declared, and then names that string |
| Enums.NormaliseTargetLocation | src/class-script.php:54-56 | a variant is kept as given; a raw string succeeds exactly when it is declared, and then names that string |
| Strings.TrimTrailingSlashes | src/class-asset-registry.php:56-57 | the result is a prefix of the input that does not end in `/`; everything cut off is `/` |
| Strings.TrimTrailingSlashesUnique | src/class-asset-registry.php:56-57 | any prefix with those three properties is the trimmed string, so they define `rtrim` completely |
| Strings.TrimTrailingSlashesIdempotent | src/class-asset-registry.php:56-57 | trimming a trimmed base changes nothing |
| Strings.CountOccurrencesPositive | src/class-asset-registry.php:214 | `str_replace` finds an occurrence exactly when the search string occurs in the subject |
| Strings.ReplaceAll | src/class-asset-registry.php:214 | `str_replace` for one search string: each occurrence replaced changes the length by the replacement's length minus the search string's length |
| Strings.ReplaceAllNoOccurrence | src/class-asset-registry.php:214 | with no occurrence the subject comes back unchanged |
| Strings.ReplaceAllUnchangedIff | src/class-asset-registry.php:214 | when the replacement differs in length, the subject is unchanged exactly when the search string does not occur in it |
| Strings.AddDefer | src/class-asset-registry.php:214 | rewriting `><` to ` defer><` makes the tag six characters longer per `><` it contains |
| Strings.RemoveDeferAddDefer | src/class-asset-registry.php:214 | replacing every ` defer><` by `><` undoes the defer rewrite on every tag |
| Strings.AddDeferPrefix | src/class-asset-registry.php:214 | text without `>` passes through the defer rewrite untouched |
| Strings.AddDeferEmptyElement | test/class-asset-registry-test.php:184 | `<name></name>` becomes `<name defer></name>`, e.g. `<script defer></script>` |
| Assets.Descriptor.Type | src/class-style.php:27 | `TYPE` is `style` exactly for a Style and equals the Asset_Type value of the asset's kind |
| Assets.StyleDescriptor | src/class-style.php:45-57 | stores the arguments as given; the media type is normalised; an invalid media string gives the parse error |
| Assets.ScriptDescriptor | src/class-script.php:45-57 | stores the arguments as given; the target location is normalised; an invalid target string gives the parse error |
| Assets.DefaultStyle | src/class-style.php:49-50 | with the defaults: no dependencies and media type `all` |
| Assets.DefaultScript | src/class-script.php:49-50 | with the defaults: no dependencies and target FOOTER |
| Assets.Asset.constructor | src/class-abstract-asset.php:81-93 | stores the fields and the preload flag, which defaults to false |
| Assets.Asset.Preload | src/class-abstract-asset.php:152-154 | the flag becomes exactly the argument (default true); the descriptor is a constant |
| Assets.NewStyle | src/class-style.php:45-57 | a fresh Style over StyleDescriptor's fields that is not preloaded, or that function's error |
| Assets.NewScript | src/class-script.php:45-57 | a fresh Script over ScriptDescriptor's fields that is not preloaded, or that function's error |
| Registry.ManifestPath | src/class-asset-registry.php:123 | the asset file path is the directory, `/`, the name and `.asset.php`, each part at its own position |
| Registry.ManifestPathInjective | src/class-asset-registry.php:139 | in one directory, different names read different asset files |
| Registry.CreateStyleDescriptor | src/class-asset-registry.php:122-126 | url `{base}/{name}.css` with the name as given, the manifest's version, no dependencies and media `all`; fails for a missing file or version |
| Registry.CreateScriptDescriptor | src/class-asset-registry.php:135-142 | url `{base}/{name}.js`, the manifest's version and dependencies, target FOOTER; fails for a missing file, version or dependencies |
| Registry.CreateDescriptor | src/class-asset-registry.php:107-113 | a Style exactly for the `style` type and a Script otherwise; the result has the requested type and handle |
| Registry.ResolveAsset | src/class-asset-registry.php:83-92 | normalises the type (an invalid string fails), then creates; the created asset's `TYPE` is the given string |
| Registry.DeliveryEffects | src/class-asset-registry.php:149-168 | exactly one call: `wp_enqueue_style` with the media value for a Style, or `wp_enqueue_script` with `in_footer` true exactly for FOOTER for a Script |
| Registry.EnqueueEffects | src/class-asset-registry.php:149-173 | the delivery call, then one `wp_head` action at priority 2 exactly when the flag is set |
| Registry.PreloadEffects | src/class-asset-registry.php:180-199 | the `{type}_loader_src` filter, one `script_loader_tag` filter exactly for a Script, then the preload link rendered with the href and `TYPE` |
| Registry.DeferScript | src/class-asset-registry.php:209-215 | another handle's tag is returned as is; the own tag is rewritten, reversibly, and changes exactly when it contains `><` |
| Registry.FilterChainDefersPerMatch | src/class-asset-registry.php:188-194 | the chain of defer filters rewrites a tag once per filter whose script has the tag's handle |
| Registry.FilterChainOneOrNone | src/class-asset-registry.php:188-194 | with no matching filter the tag is untouched; with one it is deferred once |
| Registry.AssetRegistry.constructor | src/class-asset-registry.php:51-59 | both bases are stored without trailing slashes; nothing is scheduled |
| Registry.AssetRegistry.Register | src/class-asset-registry.php:67-69 | one `wp_enqueue_scripts` action capturing the asset, and nothing else |
| Registry.AssetRegistry.RegisterAsset | src/class-asset-registry.php:83-97 | on success returns the fresh, not-preloaded asset it registered; on an error registers nothing and returns that error |
| Registry.AssetRegistry.EnqueueAsset | src/class-asset-registry.php:149-173 | appends EnqueueEffects for the flag as it stands; the `wp_head` callback is queued exactly when the flag is set |
| Registry.AssetRegistry.PreloadAsset | src/class-asset-registry.php:180-199 | appends PreloadEffects; the defer filter is queued exactly for a Script |
| Registry.AssetRegistry.FireEnqueueScripts | src/class-asset-registry.php:68 | runs every queued enqueue callback in order, reading each flag at that moment; the calls and the queued preloads are EnqueuePhaseEffects and PreloadRequested of the queue |
| Registry.AssetRegistry.FireHead | src/class-asset-registry.php:171 | runs every queued preload callback in order; the calls are HeadPhaseEffects and the new defer filters are the queue's scripts |
| Registry.AssetRegistry.FilterScriptLoaderTag | src/class-asset-registry.php:189-194 | the filtered tag is the tag deferred once per queued defer filter with the same handle |

## Left out

- The WordPress functions (`add_action`, `add_filter`, `apply_filters`, `add_query_arg`, `wp_enqueue_style`, `wp_enqueue_script`) are not modelled. Each call is recorded as an `Effect` value, except `add_query_arg`, which is folded into the href parameter (next line); the `ApplyFilters` effect records the hook and handle but not the value passed to the filter. WordPress running a hook is one of the `Fire...` methods, or `FilterScriptLoaderTag`.
- Registry.AssetRegistry.PreloadAsset: the preload href comes from a function parameter `(hook, url, version, handle) -> href`. It stands for `add_query_arg` plus whatever the `{type}_loader_src` filters do, so the model does not state the `?ver=` query string.
- Registry.AssetRegistry.FireHead: it runs only the `preload_asset` callbacks that `enqueue_asset` queued. Other plugins' callbacks on the same hooks are outside the model, as is WordPress's ordering by priority across hooks.
- Registry.AssetRegistry.FireEnqueueScripts: each hook is assumed to fire once per request. WordPress never removes a callback after running it, so a second `do_action` would run the same callbacks again; the model's `FireEnqueueScripts` and `FireHead` empty their queues instead.
- Registry.AssetRegistry.RegisterAsset: a missing asset file is a fatal error in PHP, because `require` at src/class-asset-registry.php:123 and :139 aborts the request. The `ManifestNotFound` failure stands for that aborted request; it is not an error a caller can recover from.
- Reading `{name}.asset.php` with `require` is file I/O. The files are a map from path to the returned array, with either key possibly missing. A missing file is `ManifestNotFound`. A missing key is `ManifestKeyMissing`: PHP would pass `null` on to a typed parameter and fail there.
- Registry.AssetRegistry.RegisterAsset: it normalises the type once. The second `Asset_Type::from` guard in `register_asset` can never fire, so it is not modelled.
- The template engine and the `echo` of its output are not modelled. Rendering is recorded as a `RenderTemplate(template, href, type)` effect.
- `Abstract_Enum` is not part of this model. `from()` is assumed to accept exactly the declared constants, case-sensitively. Anything else fails with `InvalidVariant`.
- `Abstract_Asset::TYPE` (`abstract`) is left out: an asset is always a Style or a Script.
- The getters of the asset classes and of `Translation` are the fields of `Descriptor` and `Translation`. No setters exist, so they cannot change after construction.
- `Asset_Registry_Interface` (`enqueue_assets`, iteration) is not modelled, because `Asset_Registry` does not implement it. The shown code has no stored collection, no deregistration and no translation delivery.
- The PHPUnit tests are not modelled as tests; `Scenarios` replays them as assertions, beside three scenarios of its own. Their mocks run every callback immediately; the model queues callbacks and drains them later, which makes the same calls in the same order.
- A script preloaded twice, by registering the same asset twice, gets ` defer` written twice into its tag. The code does this as written, and FilterChainDefersPerMatch states it; the model does not prevent it.
