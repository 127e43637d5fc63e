/**
 * Style helpers shared by the UI packages
 * (qp-common-ui/src/styles/stylesheet.ts): merging named styles and the
 * string forms of aspect ratios and image types used in image URLs.
 */
module Stylesheet {
  import opened Wrappers
  import Js

  /** Named styles: style name to style object. */
  type NamedStyles = Js.Object

  /** `mixin`: the overrides are spread over the base. */
  function Mixin(base: NamedStyles, overrides: NamedStyles): (r: NamedStyles)
    ensures r.Keys == base.Keys + overrides.Keys
    ensures forall k :: k in overrides ==> r[k] == overrides[k]
    ensures forall k :: k in base && k !in overrides ==> r[k] == base[k]
  {
    Js.Spread(base, overrides)
  }

  /** `createStyles`: both arguments default to no styles (`StyleSheet.create` returns its argument's styles). */
  function CreateStyles(baseStyles: Option<NamedStyles>, overrides: Option<NamedStyles>): (r: NamedStyles)
    ensures baseStyles.None? && overrides.None? ==> r == map[]
    ensures baseStyles.None? && overrides.Some? ==> r == overrides.value
    ensures baseStyles.Some? && overrides.None? ==> r == baseStyles.value
  {
    var base := if baseStyles.Some? then baseStyles.value else map[];
    var over := if overrides.Some? then overrides.value else map[];
    assert map[] + over == over;
    assert base + map[] == base;
    Mixin(base, over)
  }

  /** Mixing in the same overrides twice changes nothing more. */
  lemma MixinIdempotent(base: NamedStyles, overrides: NamedStyles)
    ensures Mixin(Mixin(base, overrides), overrides) == Mixin(base, overrides)
  {
  }

  datatype AspectRatio = A1by1 | A2by3 | A3by4 | A3by1 | A16by9 | A18by12

  /** The numeric value of each enum member (width over height, as the enum declares it). */
  function Ratio(a: AspectRatio): real
  {
    match a
    case A1by1 => 1.0
    case A2by3 => 2.0 / 3.0
    case A3by4 => 3.0 / 4.0
    case A3by1 => 3.0
    case A16by9 => 16.0 / 9.0
    case A18by12 => 18.0 / 12.0
  }

  /** The six members have distinct values, so switching on the number distinguishes them all. */
  lemma RatiosDistinct(a: AspectRatio, b: AspectRatio)
    requires a != b
    ensures Ratio(a) != Ratio(b)
  {
  }

  /** `AspectRatioUtil.fromString`: an unknown string is read as 1x1. */
  function FromString(s: string): (a: AspectRatio)
    ensures s == "1x1" ==> a == A1by1
    ensures s == "2x3" ==> a == A2by3
    ensures s == "4x3" ==> a == A3by4
    ensures s == "3x1" ==> a == A3by1
    ensures s == "16x9" ==> a == A16by9
    ensures s == "18x12" ==> a == A18by12
    ensures s !in {"1x1", "2x3", "4x3", "3x1", "16x9", "18x12"} ==> a == A1by1
  {
    if s == "2x3" then A2by3
    else if s == "4x3" then A3by4
    else if s == "3x1" then A3by1
    else if s == "16x9" then A16by9
    else if s == "18x12" then A18by12
    else A1by1
  }

  /** `AspectRatioUtil.asString` (3/4 is written '4x3'; the unreachable default 'Unknown' has no member to hit it). */
  function AsString(a: AspectRatio): string
  {
    match a
    case A1by1 => "1x1"
    case A2by3 => "2x3"
    case A3by4 => "4x3"
    case A3by1 => "3x1"
    case A16by9 => "16x9"
    case A18by12 => "18x12"
  }

  /** Reading back the string form gives the same aspect ratio, for all six. */
  lemma AspectRatioRoundTrip(a: AspectRatio)
    ensures FromString(AsString(a)) == a
  {
  }

  /** Distinct aspect ratios print differently. */
  lemma AsStringInjective(a: AspectRatio, b: AspectRatio)
    requires AsString(a) == AsString(b)
    ensures a == b
  {
    AspectRatioRoundTrip(a);
    AspectRatioRoundTrip(b);
  }

  datatype ImageType = Poster | Cover | Banner | Logo | LogoSponsor | LogoHeader | Background

  /** `ImageTypeUtil.asString`: the three card image types by index, every logo or background as '3'. */
  function ImageTypeAsString(t: ImageType): (r: string)
    ensures t == Poster <==> r == "0"
    ensures t == Cover <==> r == "1"
    ensures t == Banner <==> r == "2"
    ensures !(t == Poster || t == Cover || t == Banner) <==> r == "3"
  {
    match t
    case Poster => "0"
    case Cover => "1"
    case Banner => "2"
    case _ => "3"
  }
}
