/**
 * The three closed sets of the asset package: Asset_Type, Media_Type and
 * Target_Location. Each variant carries the string constant the source
 * declares for it; `Value()` reads that string back and the `...From`
 * functions parse a raw string, failing with InvalidVariant on anything that
 * is not a declared constant (the behaviour assumed of the enum base class).
 */
module Enums {
  import opened Wrappers

  /** Raised by `from()` when the raw string names no declared constant. */
  datatype EnumError = InvalidVariant(raw: string)

  // Asset_Type constants.
  const STYLE: string := "style"
  const SCRIPT: string := "script"

  // Media_Type constants.
  const SCREEN: string := "screen"
  const PRINT: string := "print"
  const SPEECH: string := "speech"
  const ALL: string := "all"

  // Target_Location constants.
  const HEADER: string := "HEADER"
  const FOOTER: string := "FOOTER"

  /** Asset_Type: {style, script}. */
  datatype AssetType = Style | Script {
    /** The underlying constant; parsing it gives the variant back. */
    function Value(): (s: string)
      ensures AssetTypeFrom(s) == Success(this)
    {
      match this
      case Style => STYLE
      case Script => SCRIPT
    }
  }

  /** `Asset_Type::from(raw)`. */
  function AssetTypeFrom(raw: string): (r: Result<AssetType, EnumError>)
    ensures r.Success? <==> raw in {STYLE, SCRIPT}
    ensures r.Failure? ==> r.error == InvalidVariant(raw)
  {
    if raw == STYLE then Success(Style)
    else if raw == SCRIPT then Success(Script)
    else Failure(InvalidVariant(raw))
  }

  /** Media_Type: {screen, print, speech, all}. */
  datatype MediaType = Screen | Print | Speech | All {
    /** The underlying constant; parsing it gives the variant back. */
    function Value(): (s: string)
      ensures MediaTypeFrom(s) == Success(this)
    {
      match this
      case Screen => SCREEN
      case Print => PRINT
      case Speech => SPEECH
      case All => ALL
    }
  }

  /** `Media_Type::from(raw)`. */
  function MediaTypeFrom(raw: string): (r: Result<MediaType, EnumError>)
    ensures r.Success? <==> raw in {SCREEN, PRINT, SPEECH, ALL}
    ensures r.Failure? ==> r.error == InvalidVariant(raw)
  {
    if raw == SCREEN then Success(Screen)
    else if raw == PRINT then Success(Print)
    else if raw == SPEECH then Success(Speech)
    else if raw == ALL then Success(All)
    else Failure(InvalidVariant(raw))
  }

  /** Target_Location: {HEADER, FOOTER}. */
  datatype TargetLocation = Header | Footer {
    /** The underlying constant; parsing it gives the variant back. */
    function Value(): (s: string)
      ensures TargetLocationFrom(s) == Success(this)
    {
      match this
      case Header => HEADER
      case Footer => FOOTER
    }
  }

  /** `Target_Location::from(raw)`. */
  function TargetLocationFrom(raw: string): (r: Result<TargetLocation, EnumError>)
    ensures r.Success? <==> raw in {HEADER, FOOTER}
    ensures r.Failure? ==> r.error == InvalidVariant(raw)
  {
    if raw == HEADER then Success(Header)
    else if raw == FOOTER then Success(Footer)
    else Failure(InvalidVariant(raw))
  }

  /** Parsing a declared constant and reading its value back gives the same string. */
  lemma ParseThenValue(raw: string)
    ensures AssetTypeFrom(raw).Success? ==> AssetTypeFrom(raw).value.Value() == raw
    ensures MediaTypeFrom(raw).Success? ==> MediaTypeFrom(raw).value.Value() == raw
    ensures TargetLocationFrom(raw).Success? ==> TargetLocationFrom(raw).value.Value() == raw
  {
  }

  /** `value()` is injective on every enum, so comparing values compares variants. */
  lemma ValueInjective()
    ensures forall a: AssetType, b: AssetType :: a.Value() == b.Value() ==> a == b
    ensures forall a: MediaType, b: MediaType :: a.Value() == b.Value() ==> a == b
    ensures forall a: TargetLocation, b: TargetLocation :: a.Value() == b.Value() ==> a == b
  {
  }

  /**
   * A parameter typed `Variant|string` in the source: either an enum object
   * already, or a raw string still to be parsed.
   */
  datatype AssetTypeOrString = AssetTypeValue(assetType: AssetType) | AssetTypeRaw(raw: string)
  datatype MediaTypeOrString = MediaTypeValue(mediaType: MediaType) | MediaTypeRaw(raw: string)
  datatype TargetLocationOrString = TargetLocationValue(location: TargetLocation) | TargetLocationRaw(raw: string)

  /** `$x instanceof Asset_Type ? $x : Asset_Type::from($x)`. */
  function NormaliseAssetType(arg: AssetTypeOrString): (r: Result<AssetType, EnumError>)
    ensures arg.AssetTypeValue? ==> r == Success(arg.assetType)
    ensures arg.AssetTypeRaw? ==> (r.Success? <==> arg.raw in {STYLE, SCRIPT})
    ensures arg.AssetTypeRaw? && r.Success? ==> r.value.Value() == arg.raw
  {
    match arg
    case AssetTypeValue(t) => Success(t)
    case AssetTypeRaw(raw) => AssetTypeFrom(raw)
  }

  /** `$x instanceof Media_Type ? $x : Media_Type::from($x)`. */
  function NormaliseMediaType(arg: MediaTypeOrString): (r: Result<MediaType, EnumError>)
    ensures arg.MediaTypeValue? ==> r == Success(arg.mediaType)
    ensures arg.MediaTypeRaw? ==> (r.Success? <==> arg.raw in {SCREEN, PRINT, SPEECH, ALL})
    ensures arg.MediaTypeRaw? && r.Success? ==> r.value.Value() == arg.raw
  {
    match arg
    case MediaTypeValue(m) => Success(m)
    case MediaTypeRaw(raw) => MediaTypeFrom(raw)
  }

  /** `$x instanceof Target_Location ? $x : Target_Location::from($x)`. */
  function NormaliseTargetLocation(arg: TargetLocationOrString): (r: Result<TargetLocation, EnumError>)
    ensures arg.TargetLocationValue? ==> r == Success(arg.location)
    ensures arg.TargetLocationRaw? ==> (r.Success? <==> arg.raw in {HEADER, FOOTER})
    ensures arg.TargetLocationRaw? && r.Success? ==> r.value.Value() == arg.raw
  {
    match arg
    case TargetLocationValue(l) => Success(l)
    case TargetLocationRaw(raw) => TargetLocationFrom(raw)
  }
}
