/**
 * The asset value types: Abstract_Asset with its two concrete kinds, Style
 * and Script, and the Translation record.
 *
 * An asset's handle, url, version, dependencies and kind-specific enum are
 * set once by its constructor and only read afterwards, so they form an
 * immutable Descriptor held in a `const` field; the preload flag is the one
 * field `preload()` updates in place, so it is a `var` of the Asset class.
 */
module Assets {
  import opened Wrappers
  import opened Enums

  // The TYPE constants of the concrete asset classes.
  const STYLE_TYPE: string := "style"
  const SCRIPT_TYPE: string := "script"

  /** What a Style or a Script adds to Abstract_Asset. */
  datatype Kind = StyleKind(mediaType: MediaType) | ScriptKind(targetLocation: TargetLocation)

  /** The fields of an asset that never change after construction. */
  datatype Descriptor = Descriptor(
    handle: string,
    url: string,
    version: string,
    dependencies: seq<string>,
    kind: Kind)
  {
    /** The asset-type variant this asset's class stands for. */
    function AssetTypeOf(): (t: AssetType)
    {
      if kind.StyleKind? then AssetType.Style else AssetType.Script
    }

    /** `$asset::TYPE`: agrees with the Asset_Type constant of its kind. */
    function Type(): (t: string)
      ensures t == AssetTypeOf().Value()
      ensures t == STYLE <==> kind.StyleKind?
    {
      match kind
      case StyleKind(_) => STYLE_TYPE
      case ScriptKind(_) => SCRIPT_TYPE
    }
  }

  /** The default `$media_type` of the Style constructor: the string 'all'. */
  const DEFAULT_MEDIA_TYPE: MediaTypeOrString := MediaTypeRaw(ALL)

  /** The default `$target_location` of the Script constructor: the string 'FOOTER'. */
  const DEFAULT_TARGET_LOCATION: TargetLocationOrString := TargetLocationRaw(FOOTER)

  /**
   * What `new Style(...)` stores: the given fields and the normalised media
   * type, or the InvalidVariant error `Media_Type::from` throws.
   */
  function StyleDescriptor(
    handle: string, url: string, version: string,
    dependencies: seq<string> := [],
    mediaType: MediaTypeOrString := DEFAULT_MEDIA_TYPE): (r: Result<Descriptor, EnumError>)
    ensures r.Success? <==> NormaliseMediaType(mediaType).Success?
    ensures r.Failure? ==> r.error == NormaliseMediaType(mediaType).error
    ensures r.Success? ==>
      && r.value.handle == handle && r.value.url == url && r.value.version == version
      && r.value.dependencies == dependencies
      && r.value.kind == StyleKind(NormaliseMediaType(mediaType).value)
  {
    match NormaliseMediaType(mediaType)
    case Success(m) => Success(Descriptor(handle, url, version, dependencies, StyleKind(m)))
    case Failure(e) => Failure(e)
  }

  /**
   * What `new Script(...)` stores: the given fields and the normalised target
   * location, or the InvalidVariant error `Target_Location::from` throws.
   */
  function ScriptDescriptor(
    handle: string, url: string, version: string,
    dependencies: seq<string> := [],
    targetLocation: TargetLocationOrString := DEFAULT_TARGET_LOCATION): (r: Result<Descriptor, EnumError>)
    ensures r.Success? <==> NormaliseTargetLocation(targetLocation).Success?
    ensures r.Failure? ==> r.error == NormaliseTargetLocation(targetLocation).error
    ensures r.Success? ==>
      && r.value.handle == handle && r.value.url == url && r.value.version == version
      && r.value.dependencies == dependencies
      && r.value.kind == ScriptKind(NormaliseTargetLocation(targetLocation).value)
  {
    match NormaliseTargetLocation(targetLocation)
    case Success(l) => Success(Descriptor(handle, url, version, dependencies, ScriptKind(l)))
    case Failure(e) => Failure(e)
  }

  /** A Style built with the defaults has no dependencies and media type `all`. */
  lemma DefaultStyle(handle: string, url: string, version: string)
    ensures StyleDescriptor(handle, url, version).Success?
    ensures StyleDescriptor(handle, url, version).value.dependencies == []
    ensures StyleDescriptor(handle, url, version).value.kind == StyleKind(All)
    ensures All.Value() == ALL
  {
  }

  /** A Script built with the defaults has no dependencies and loads in the footer. */
  lemma DefaultScript(handle: string, url: string, version: string)
    ensures ScriptDescriptor(handle, url, version).Success?
    ensures ScriptDescriptor(handle, url, version).value.dependencies == []
    ensures ScriptDescriptor(handle, url, version).value.kind == ScriptKind(Footer)
  {
  }

  /** Abstract_Asset: an immutable descriptor and the mutable preload flag. */
  class Asset {
    const descriptor: Descriptor
    var shouldBePreloaded: bool

    /** `Abstract_Asset::__construct`; the preload flag defaults to false. */
    constructor (descriptor: Descriptor, shouldBePreloaded: bool := false)
      ensures this.descriptor == descriptor
      ensures this.shouldBePreloaded == shouldBePreloaded
    {
      this.descriptor := descriptor;
      this.shouldBePreloaded := shouldBePreloaded;
    }

    /** `preload($should_be_preloaded = true)`: sets the flag, touches nothing else. */
    method Preload(shouldBePreloaded: bool := true)
      modifies this
      ensures this.shouldBePreloaded == shouldBePreloaded
    {
      this.shouldBePreloaded := shouldBePreloaded;
    }
  }

  /**
   * `new Style(...)`: a fresh, not-preloaded asset over StyleDescriptor, or
   * the error the media-type normalisation raises.
   */
  method NewStyle(
    handle: string, url: string, version: string,
    dependencies: seq<string> := [],
    mediaType: MediaTypeOrString := DEFAULT_MEDIA_TYPE) returns (r: Result<Asset, EnumError>)
    ensures r.Success? <==> StyleDescriptor(handle, url, version, dependencies, mediaType).Success?
    ensures r.Success? ==> fresh(r.value) && !r.value.shouldBePreloaded
    ensures r.Success? ==> r.value.descriptor == StyleDescriptor(handle, url, version, dependencies, mediaType).value
    ensures r.Failure? ==> r.error == StyleDescriptor(handle, url, version, dependencies, mediaType).error
  {
    match StyleDescriptor(handle, url, version, dependencies, mediaType)
    case Success(d) =>
      var asset := new Asset(d);
      r := Success(asset);
    case Failure(e) =>
      r := Failure(e);
  }

  /**
   * `new Script(...)`: a fresh, not-preloaded asset over ScriptDescriptor, or
   * the error the target-location normalisation raises.
   */
  method NewScript(
    handle: string, url: string, version: string,
    dependencies: seq<string> := [],
    targetLocation: TargetLocationOrString := DEFAULT_TARGET_LOCATION) returns (r: Result<Asset, EnumError>)
    ensures r.Success? <==> ScriptDescriptor(handle, url, version, dependencies, targetLocation).Success?
    ensures r.Success? ==> fresh(r.value) && !r.value.shouldBePreloaded
    ensures r.Success? ==> r.value.descriptor == ScriptDescriptor(handle, url, version, dependencies, targetLocation).value
    ensures r.Failure? ==> r.error == ScriptDescriptor(handle, url, version, dependencies, targetLocation).error
  {
    match ScriptDescriptor(handle, url, version, dependencies, targetLocation)
    case Success(d) =>
      var asset := new Asset(d);
      r := Success(asset);
    case Failure(e) =>
      r := Failure(e);
  }

  /** Translation: a text domain and an optional path to translation files. */
  datatype Translation = Translation(domain: string, path: Option<string>)
}
