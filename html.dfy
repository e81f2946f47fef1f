/** `HtmlHelper::tag` as an uninterpreted constructor: the element name, its content and
    its attributes in the order given. Attribute rendering and escaping are not modelled. */
module HtmlTags {

  datatype AttrValue = AText(text: string) | AInt(n: int)

  datatype Attr = Attr(name: string, value: AttrValue)

  /** Markup: literal text, or an element. A `null` content is the empty sequence; a
      string content built with `.=` from several pieces is the sequence of those pieces. */
  datatype Html = Text(text: string) | Tag(name: string, content: seq<Html>, attrs: seq<Attr>)

}
