/** The `Badge` value object: a caption and a color that is either a `Color` case or a
    plain string, with `label()` and `color()` accessors. */
module Badges {
  import opened Colors

  /** What `Badge` accepts for its color: a `ColorInterface` value (the `Color` enum is
      the one implementation in view) or a string. */
  datatype ColorChoice = EnumColor(color: Color) | PlainColor(name: string)

  /** The constructor only stores its two arguments; the color defaults to 'primary'. */
  datatype Badge = Badge(caption: string, color: ColorChoice := PlainColor("primary")) {

    /** `label()`: the caption as given. */
    function Label(): (r: string)
      ensures r == caption
    {
      caption
    }

    /** `color()`: the backing string of an enum color, a string color unchanged. */
    function ColorName(): (r: string)
      ensures color.EnumColor? ==> r == Value(color.color)
      ensures color.PlainColor? ==> r == color.name
    {
      match color
      case EnumColor(c) => Value(c)
      case PlainColor(s) => s
    }
  }

  /** A badge built without a color reports 'primary'; a badge built with a `Color` case
      reports the same color as one built with that case's backing string. */
  lemma ColorResolution(caption: string, c: Color)
    ensures Badge(caption).ColorName() == "primary"
    ensures Badge(caption, EnumColor(c)).ColorName() == Badge(caption, PlainColor(Value(c))).ColorName()
    ensures Badge(caption, EnumColor(c)).Label() == caption
  {
  }

  /** The color a badge reports is a theme color name exactly when it was built from a
      `Color` case or from that case's backing string. */
  lemma {:induction false} ColorNameIsTheme(b: Badge)
    ensures TryFrom(b.ColorName()).Some? <==> b.color.EnumColor? || TryFrom(b.color.name).Some?
  {
    if b.color.EnumColor? {
      TryFromValue(b.color.color, "");
    }
  }
}
