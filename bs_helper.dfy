/** `BsHelper`: Bootstrap badges, alerts, progress bars, spinners and dropdowns. The
    markup is built with `HtmlHelper::tag`, kept here as an uninterpreted element. */
module Bs {
  import opened Php
  import opened Colors
  import opened Badges
  import opened HtmlTags
  import opened StringTemplates
  import opened MenuItems
  import opened MenuTemplates
  import opened MenuRender
  import opened Menu

  const BadgeDefault := "badge"
  const BadgePillType := "badge-pill"

  /** What `badge` calls on its argument: `label()`, `color()` and `text()`; `text` is
      `None` for an object that has no such method. */
  datatype BadgeObject = BadgeObject(caption: string, color: string, text: Option<string>)

  /** A `Badge` seen through the methods `badge` calls: it has no `text()`. */
  function FromBadge(b: Badge): (r: BadgeObject)
    ensures r.caption == b.Label() && r.color == b.ColorName() && r.text.None?
  {
    BadgeObject(b.Label(), b.ColorName(), None)
  }

  /** The class attribute of a badge: 'badge', the text-background color and the pill
      class, joined by spaces; a type other than 'badge-pill' leaves an empty last part. */
  function BadgeClass(color: string, badgeType: string): string
  {
    Join(" ", ["badge", "text-bg-" + color, if badgeType == BadgePillType then "rounded-pill" else ""])
  }

  /** `badge`: a span with the object's `text()` and the badge classes. An object without
      `text()`, such as every `Badge`, makes the call fail. */
  function BadgeHtml(b: BadgeObject, badgeType: string := BadgeDefault): (r: Result<Html>)
    ensures r.Err? <==> b.text.None?
    ensures r.Err? ==> r.error == UndefinedMethod("Badge", "text")
    ensures r.Ok? ==> r.value.Tag? && r.value.name == "span" && r.value.content == [Text(b.text.value)]
    ensures r.Ok? ==> r.value.attrs == [Attr("class", AText(BadgeClass(b.color, badgeType)))]
  {
    match b.text
    case None => Err(UndefinedMethod("Badge", "text"))
    case Some(t) =>
      Ok(Tag("span", [Text(t)], [Attr("class", AText(BadgeClass(b.color, badgeType)))]))
  }

  /** `badgePill`: `badge` with the type 'badge-pill', whose class ends in
      ' rounded-pill'. */
  function BadgePillHtml(b: BadgeObject): (r: Result<Html>)
    ensures r == BadgeHtml(b, BadgePillType)
    ensures r.Err? <==> b.text.None?
    ensures r.Ok? ==> r.value.attrs == [Attr("class", AText("badge text-bg-" + b.color + " rounded-pill"))]
  {
    BadgeClassText(b.color, BadgePillType);
    BadgeHtml(b, BadgePillType)
  }

  /** The badge class written out: a pill ends in ' rounded-pill', any other type in a
      lone trailing space. */
  lemma BadgeClassText(color: string, badgeType: string)
    ensures badgeType == BadgePillType ==> BadgeClass(color, badgeType) == "badge text-bg-" + color + " rounded-pill"
    ensures badgeType != BadgePillType ==> BadgeClass(color, badgeType) == "badge text-bg-" + color + " "
  {
    JoinThree(" ", "badge", "text-bg-" + color, if badgeType == BadgePillType then "rounded-pill" else "");
  }

  /** Read back as a space-separated class list, the badge class is exactly the three
      parts it was built from, provided the color has no space. */
  lemma {:induction false} BadgeClassParts(color: string, badgeType: string)
    requires ' ' !in color
    ensures Split(BadgeClass(color, badgeType), ' ') ==
      ["badge", "text-bg-" + color, if badgeType == BadgePillType then "rounded-pill" else ""]
  {
    var parts := ["badge", "text-bg-" + color, if badgeType == BadgePillType then "rounded-pill" else ""];
    assert ' ' !in "text-bg-" + color by {
      assert forall i :: 0 <= i < |"text-bg-" + color| ==> ("text-bg-" + color)[i] != ' ' by {
        forall i | 0 <= i < |"text-bg-" + color| ensures ("text-bg-" + color)[i] != ' ' {
          if i >= 8 {
            assert ("text-bg-" + color)[i] == color[i - 8];
          }
        }
      }
    }
    SplitJoin(parts, ' ');
  }

  /** Only the type 'badge-pill' changes a badge that renders; every other type renders
      like the default one. */
  lemma BadgeTypes(b: BadgeObject, badgeType: string)
    requires b.text.Some?
    ensures BadgeHtml(b, badgeType) == BadgeHtml(b, BadgeDefault) <==> badgeType != BadgePillType
  {
    if badgeType == BadgePillType {
      BadgeClassText(b.color, badgeType);
      BadgeClassText(b.color, BadgeDefault);
      assert BadgeClass(b.color, badgeType)[|BadgeClass(b.color, badgeType)| - 1] == 'l';
    }
  }

  /** A `Badge` given to `badge` or `badgePill` always ends in the undefined-method
      error, whatever its label and color. */
  lemma UtilityBadgeFails(b: Badge, badgeType: string)
    ensures BadgeHtml(FromBadge(b), badgeType) == Err(UndefinedMethod("Badge", "text"))
    ensures BadgePillHtml(FromBadge(b)) == Err(UndefinedMethod("Badge", "text"))
  {
  }

  // ------------------------------------------------------------------

  /** A `ColorInterface` argument: a `Color` case, which PHP cannot use as a string, or
      another implementation whose string conversion gives `text`. */
  datatype ColorObject = EnumCase(color: Color) | StringableColor(text: string)

  /** The `ColorInterface|string|null` argument of `progress` and `spinner`. */
  datatype ColorParam = NoColor | ObjectColor(obj: ColorObject) | ColorText(text: string)

  /** `isset($o[$k]) && $o[$k]`: the option is given, not null, and truthy. */
  predicate OptionSet(options: map<string, Value>, k: string)
  {
    k in options && Truthy(options[k])
  }

  /** The close button a dismissible alert gets. */
  const CloseButton := Tag("button", [], [
    Attr("type", AText("button")), Attr("class", AText("btn-close")),
    Attr("data-bs-dismiss", AText("alert")), Attr("aria-label", AText("Close"))])

  /** `alert`: the message, followed by one close button exactly when 'dismissible' is
      set, in a div with class 'alert alert-<color>' and role 'alert'. A `Color` case
      cannot be turned into a string, so the call fails for one. */
  method Alert(message: string, color: ColorObject, options: map<string, Value> := map[]) returns (r: Result<Html>)
    ensures r.Err? <==> color.EnumCase?
    ensures r.Err? ==> r.error == NotStringable("Color")
    ensures r.Ok? ==> r.value.Tag? && r.value.name == "div"
    ensures r.Ok? ==> r.value.attrs == [Attr("class", AText("alert alert-" + color.text)), Attr("role", AText("alert"))]
    ensures r.Ok? ==> |r.value.content| == (if OptionSet(options, "dismissible") then 2 else 1)
    ensures r.Ok? ==> r.value.content[0] == Text(message)
    ensures r.Ok? && OptionSet(options, "dismissible") ==> r.value.content[1] == CloseButton
  {
    var content := [Text(message)];
    if "dismissible" in options && Truthy(options["dismissible"]) {
      content := content + [CloseButton];
    }
    match color
    case EnumCase(_) =>
      r := Err(NotStringable("Color"));
    case StringableColor(text) =>
      r := Ok(Tag("div", content, [Attr("class", AText("alert alert-" + text)), Attr("role", AText("alert"))]));
  }

  // ------------------------------------------------------------------

  /** The bar classes of a progress bar: 'progress-bar', then the striped class when
      striped, then the animated class when animated. */
  function ProgressClasses(striped: bool, animated: bool): (r: seq<string>)
    ensures |r| >= 1 && r[0] == "progress-bar"
    ensures "progress-bar-striped" in r <==> striped
    ensures "progress-bar-animated" in r <==> animated
    ensures striped && animated ==> r[1] == "progress-bar-striped" && r[2] == "progress-bar-animated"
    ensures |r| == 1 + (if striped then 1 else 0) + (if animated then 1 else 0)
  {
    ["progress-bar"] + (if striped then ["progress-bar-striped"] else [])
      + (if animated then ["progress-bar-animated"] else [])
  }

  /** The bar's class attribute reads back as exactly the class list it was joined from. */
  lemma ProgressClassList(striped: bool, animated: bool)
    ensures Split(Join(" ", ProgressClasses(striped, animated)), ' ') == ProgressClasses(striped, animated)
  {
    var r := ProgressClasses(striped, animated);
    forall i | 0 <= i < |r| ensures ' ' !in r[i] {
      assert r[i] in {"progress-bar", "progress-bar-striped", "progress-bar-animated"};
    }
    SplitJoin(r, ' ');
  }

  /** `progress`: a div of class 'progress' around the bar; the bar carries the classes,
      the role 'progressbar' and the value range, which runs to 100 unless the caller
      gives another maximum. The width style is not modelled. */
  method Progress(value: int, max: int := 100, color: ColorParam := NoColor, options: map<string, Value> := map[])
    returns (r: Html)
    ensures r == Tag("div", [Tag("div", [], [
        Attr("class", AText(Join(" ", ProgressClasses(OptionSet(options, "striped"), OptionSet(options, "animated"))))),
        Attr("role", AText("progressbar")),
        Attr("aria-valuenow", AInt(value)), Attr("aria-valuemin", AInt(0)), Attr("aria-valuemax", AInt(max))])],
      [Attr("class", AText("progress"))])
  {
    var opts := UnionLeft(options, map["striped" := Bool(false), "animated" := Bool(false)]);
    var classes := ["progress-bar"];
    if Truthy(opts["striped"]) {
      classes := classes + ["progress-bar-striped"];
    }
    assert Truthy(opts["striped"]) == OptionSet(options, "striped");
    assert classes == ["progress-bar"] + (if OptionSet(options, "striped") then ["progress-bar-striped"] else []);
    if Truthy(opts["animated"]) {
      classes := classes + ["progress-bar-animated"];
    }
    assert Truthy(opts["animated"]) == OptionSet(options, "animated");
    assert classes == ProgressClasses(OptionSet(options, "striped"), OptionSet(options, "animated"));
    r := Tag("div", [Tag("div", [], [
        Attr("class", AText(Join(" ", classes))),
        Attr("role", AText("progressbar")),
        Attr("aria-valuenow", AInt(value)), Attr("aria-valuemin", AInt(0)), Attr("aria-valuemax", AInt(max))])],
      [Attr("class", AText("progress"))]);
  }

  /** `progress($value)` with every other argument left out: a plain bar whose range
      runs from 0 to 100. */
  method DefaultProgress(value: int) returns (r: Html)
    ensures r == Tag("div", [Tag("div", [], [
        Attr("class", AText("progress-bar")), Attr("role", AText("progressbar")),
        Attr("aria-valuenow", AInt(value)), Attr("aria-valuemin", AInt(0)), Attr("aria-valuemax", AInt(100))])],
      [Attr("class", AText("progress"))])
  {
    r := Progress(value);
    assert ProgressClasses(false, false) == ["progress-bar"];
  }

  /** The spinner classes: 'spinner-border', then 'spinner-border-<size>' when a truthy
      size is given, then 'border-<border>' when a truthy border is given. */
  function SpinnerClasses(options: map<string, Value>): (r: seq<string>)
    ensures |r| >= 1 && r[0] == "spinner-border"
    ensures |r| == 1 + (if OptionSet(options, "size") then 1 else 0) + (if OptionSet(options, "border") then 1 else 0)
    ensures OptionSet(options, "size") ==> r[1] == "spinner-border-" + ValueToString(options["size"])
    ensures OptionSet(options, "border") ==> r[|r| - 1] == "border-" + ValueToString(options["border"])
  {
    ["spinner-border"]
      + (if OptionSet(options, "size") then ["spinner-border-" + ValueToString(options["size"])] else [])
      + (if OptionSet(options, "border") then ["border-" + ValueToString(options["border"])] else [])
  }

  /** `spinner`: an empty div with the spinner classes and the role 'status'. */
  method Spinner(color: ColorParam := NoColor, options: map<string, Value> := map[]) returns (r: Html)
    ensures r == Tag("div", [], [Attr("class", AText(Join(" ", SpinnerClasses(options)))), Attr("role", AText("status"))])
  {
    var opts := UnionLeft(options, map["size" := Null, "border" := Null]);
    var classes := ["spinner-border"];
    if Truthy(opts["size"]) {
      classes := classes + ["spinner-border-" + ValueToString(opts["size"])];
    }
    assert Truthy(opts["size"]) == OptionSet(options, "size");
    assert classes == ["spinner-border"]
      + (if OptionSet(options, "size") then ["spinner-border-" + ValueToString(options["size"])] else []);
    if Truthy(opts["border"]) {
      classes := classes + ["border-" + ValueToString(opts["border"])];
    }
    assert Truthy(opts["border"]) == OptionSet(options, "border");
    assert classes == SpinnerClasses(options);
    r := Tag("div", [], [Attr("class", AText(Join(" ", classes))), Attr("role", AText("status"))]);
  }

  // ------------------------------------------------------------------

  /** The templates `dropdown` supplies: names the menu renderer never looks up, with
      single-brace placeholders the template engine does not fill. */
  const DropdownTemplates: map<string, Template> := map[
    "menu" := [Lit("<ul class=\"dropdown-menu\">{items}</ul>")],
    "item" := [Lit("<li class=\"dropdown-item\">{link}</li>")],
    "itemWrapper" := [],
    "nest" := [Lit("<ul class=\"dropdown-menu\">{items}</ul>")]]

  /** `$options += ['templates' => ...]`: the dropdown templates only when the caller
      gave none. */
  function DropdownOptions(options: RenderOptions): (r: RenderOptions)
    ensures options.templates.Some? ==> r == options
    ensures options.templates.None? ==> r == options.(templates := Some(DropdownTemplates))
  {
    if options.templates.Some? then options else options.(templates := Some(DropdownTemplates))
  }

  /** `dropdown`: renders the items through the menu helper with the defaulted options.
      The markup is what `render` gives for the caller's options alone, since the
      supplied templates are under names the renderer does not use. */
  method Dropdown(menu: MenuHelper, items: seq<MenuItem>, options: RenderOptions, url: string -> string)
    returns (html: string)
    modifies menu
    ensures menu.activeKeys ==
      if options.activeItem.Some? then Split(options.activeItem.value, '.') else old(menu.activeKeys)
    ensures menu.templates == old(menu.templates) + MergedTemplates(DropdownOptions(options))
    ensures html == MenuHtml(Ctx(menu.activeKeys, Select(MergedTemplates(options)), Resolve(options), url), items)
  {
    var opts := DropdownOptions(options);
    html := menu.Render(items, opts, url);
    DropdownTemplatesInert(options);
  }

  /** None of the names `dropdown` supplies is one the renderer looks up. */
  lemma DropdownNamesUnused()
    ensures DropdownTemplates.Keys !! Names
  {
    assert DropdownTemplates.Keys == {"menu", "item", "itemWrapper", "nest"};
    assert "icon" != "menu" && "icon" != "item" && "icon" != "nest";
  }

  /** The supplied dropdown templates never reach the output: the renderer selects the
      same patterns with or without them. */
  lemma DropdownTemplatesInert(options: RenderOptions)
    ensures Select(MergedTemplates(DropdownOptions(options))) == Select(MergedTemplates(options))
  {
    if options.templates.None? {
      DropdownNamesUnused();
      assert MergedTemplates(options) == DefaultMap;
      assert MergedTemplates(DropdownOptions(options)) == DefaultMap + DropdownTemplates;
      DefaultMapComplete();
      SelectIgnoresOtherNames(DefaultMap, DropdownTemplates);
    }
  }
}
