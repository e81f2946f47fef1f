/** What `MenuHelper::render` produces, as functions of the items, the resolved
    configuration, the active path and the template set. The `MenuHelper` class computes
    the same strings step by step and is proved equal to these functions. */
module MenuRender {
  import opened Php
  import opened StringTemplates
  import opened MenuItems
  import opened MenuTemplates

  /** The configuration a render works with, after the caller's options are merged in. */
  datatype Config = Config(
    menuClass: Option<string>,
    dropdownClass: CssValue,
    activeClass: CssValue,
    dropdownOpenClass: CssValue,
    defaultIcon: DefaultIcon)

  /** `$_defaultConfig` without its templates. */
  const DefaultConfig := Config(
    Some("nav nav-pills"), ClassString("dropdown"), ClassString("active"), ClassString("dropdown-open"),
    NoDefaultIcon)

  /** The `$options` a caller passes to `render`; `None` is a key left out. A `menuClass`
      of `Some(None)` is an explicit null. */
  datatype RenderOptions = RenderOptions(
    menuClass: Option<Option<string>>,
    dropdownClass: Option<CssValue>,
    activeClass: Option<CssValue>,
    dropdownOpenClass: Option<CssValue>,
    defaultIcon: Option<DefaultIcon>,
    activeItem: Option<string>,
    templates: Option<map<string, Template>>)

  /** No options at all. */
  const NoOptions := RenderOptions(None, None, None, None, None, None, None)

  /** The configuration merged with the caller's options: every key the caller gives
      replaces the default, every other key keeps it. */
  function Resolve(o: RenderOptions): (c: Config)
    ensures c.menuClass == (if o.menuClass.Some? then o.menuClass.value else DefaultConfig.menuClass)
    ensures c.dropdownClass == o.dropdownClass.GetOr(DefaultConfig.dropdownClass)
    ensures c.activeClass == o.activeClass.GetOr(DefaultConfig.activeClass)
    ensures c.dropdownOpenClass == o.dropdownOpenClass.GetOr(DefaultConfig.dropdownOpenClass)
    ensures c.defaultIcon == o.defaultIcon.GetOr(DefaultConfig.defaultIcon)
  {
    Config(
      o.menuClass.GetOr(DefaultConfig.menuClass),
      o.dropdownClass.GetOr(DefaultConfig.dropdownClass),
      o.activeClass.GetOr(DefaultConfig.activeClass),
      o.dropdownOpenClass.GetOr(DefaultConfig.dropdownOpenClass),
      o.defaultIcon.GetOr(DefaultConfig.defaultIcon))
  }

  /** The `templates` entry after the merge: the configured templates, each replaced by
      the caller's pattern of the same name, plus the caller's other names. */
  function MergedTemplates(o: RenderOptions): (m: map<string, Template>)
    ensures Names <= m.Keys
    ensures forall n :: n in m <==> n in DefaultMap || (o.templates.Some? && n in o.templates.value)
    ensures o.templates.Some? ==> forall n :: n in o.templates.value ==> m[n] == o.templates.value[n]
    ensures forall n :: n in DefaultMap && !(o.templates.Some? && n in o.templates.value) ==> m[n] == DefaultMap[n]
  {
    DefaultMapComplete();
    DefaultMap + o.templates.GetOr(map[])
  }

  /** Everything a render reads besides the items. `url` stands for `UrlHelper::build`. */
  datatype Ctx = Ctx(activeKeys: seq<string>, t: TemplateSet, config: Config, url: string -> string)

  /** The `icon` placeholder's value: the icon template filled with the resolved icon,
      or "" when the resolved icon is empty. */
  function IconFragment(t: TemplateSet, icon: Icon): (r: string)
    ensures IconIsEmpty(icon) ==> r == ""
    ensures !IconIsEmpty(icon) ==> r == Format(t.icon, map["icon" := IconString(icon)])
  {
    if IconIsEmpty(icon) then "" else Format(t.icon, map["icon" := IconString(icon)])
  }

  /** The link template for a depth and for whether the item has children. */
  function LinkTemplate(t: TemplateSet, level: nat, nested: bool): Template
  {
    if level > 0 then (if nested then t.dropdownItemLinkNest else t.dropdownItemLink)
    else (if nested then t.menuItemLinkNest else t.menuItemLink)
  }

  /** The class fragment an item gets for being active: the normalised `activeClass`
      option when it is active, "" when it is not. */
  function ActiveClassFor(c: Ctx, item: MenuItem, level: nat): (r: string)
    ensures !IsActive(c.activeKeys, item, level) ==> r == ""
    ensures IsActive(c.activeKeys, item, level) ==> r == CssClass(c.config.activeClass)
  {
    CssClass(if IsActive(c.activeKeys, item, level) then c.config.activeClass else NoClass)
  }

  /** The icon fragment of an item at a depth. */
  function ItemIcon(c: Ctx, item: MenuItem, level: nat): string
  {
    IconFragment(c.t, ResolveIcon(item.icon, c.config.defaultIcon, level))
  }

  /** The URL of an item, '#' when it has none, passed through the URL builder. */
  function ItemUrl(c: Ctx, item: MenuItem): string
  {
    c.url(item.url.GetOr("#"))
  }

  /** The values the link template is filled with. */
  function LinkVars(c: Ctx, item: MenuItem, level: nat): map<string, string>
  {
    map[
      "url" := ItemUrl(c, item),
      "icon" := ItemIcon(c, item, level),
      "text" := item.caption,
      "activeClass" := ActiveClassFor(c, item, level),
      "linkClass" := CssClass(item.linkClass)]
  }

  /** The `$link` of a plain link item. */
  function LinkHtml(c: Ctx, item: MenuItem, level: nat): string
  {
    Format(LinkTemplate(c.t, level, HasChildren(item)), LinkVars(c, item, level))
  }

  /** The values the item container is filled with, given the link and the nest. */
  function ContainerVars(c: Ctx, item: MenuItem, level: nat, link: string, nest: string): map<string, string>
  {
    var active := IsActive(c.activeKeys, item, level);
    map[
      "class" := CssClass(item.itemClass),
      "activeClass" := ActiveClassFor(c, item, level),
      "dropdownClass" := CssClass(if HasChildren(item) then c.config.dropdownClass else NoClass),
      "dropdownOpenClass" := CssClass(if active then c.config.dropdownOpenClass else NoClass),
      "text" := link,
      "nest" := nest]
  }

  /** No item of the list is shown. */
  predicate AllHidden(items: seq<MenuItem>)
  {
    forall i :: 0 <= i < |items| ==> !ItemShow(items[i])
  }

  /** The nested list of an item with children, rendered one level deeper. An item
      without children has none; an item whose children are all hidden still gets the
      empty dropdown container, since only the presence of children is tested. */
  function NestHtml(c: Ctx, item: MenuItem, level: nat): (r: string)
    decreases item, 0
    ensures !HasChildren(item) ==> r == ""
    ensures HasChildren(item) && AllHidden(item.children.items) ==>
      r == Format(c.t.dropdownContainer, map["items" := ""])
  {
    if HasChildren(item)
    then Format(c.t.dropdownContainer, map["items" := ItemsHtml(c, item.children.items, level + 1)])
    else ""
  }

  /** `buildMenuItem`: the markup of one shown item at depth `level`. A title and a
      disabled item pass their caption alone: their templates' `icon` and `class` slots
      stay empty whatever the item carries, and a divider passes nothing at all. */
  function ItemHtml(c: Ctx, item: MenuItem, level: nat): (r: string)
    decreases item, 1
    ensures TypeOf(item) == TypeTitle ==>
      r == Format(c.t.menuTitle, map["text" := item.caption, "icon" := ""])
    ensures TypeOf(item) == TypeDivider ==> r == Format(c.t.divider, map[])
    ensures TypeOf(item) != TypeTitle && TypeOf(item) != TypeDivider && ItemDisabled(item) ==>
      r == Format(if level > 0 then c.t.dropdownItemDisabled else c.t.menuItemDisabled,
                  map["text" := item.caption, "icon" := "", "class" := ""])
  {
    var ty := TypeOf(item);
    var captionOnly := map["text" := item.caption];
    if ty == TypeTitle then
      FormatIgnoresOtherNames(c.t.menuTitle, captionOnly, captionOnly["icon" := ""]);
      Format(c.t.menuTitle, captionOnly)
    else if ty == TypeDivider then Format(c.t.divider, map[])
    else if ItemDisabled(item) then
      var t := if level > 0 then c.t.dropdownItemDisabled else c.t.menuItemDisabled;
      FormatIgnoresOtherNames(t, captionOnly, captionOnly["icon" := ""]["class" := ""]);
      Format(t, captionOnly)
    else
      Format(if level > 0 then c.t.dropdownItem else c.t.menuItem,
             ContainerVars(c, item, level, LinkHtml(c, item, level), NestHtml(c, item, level)))
  }

  /** What one entry of a list contributes: its markup when it is shown, nothing when
      it is not. */
  function ShownHtml(c: Ctx, item: MenuItem, level: nat): string
    decreases item, 2
  {
    if ItemShow(item) then ItemHtml(c, item, level) else ""
  }

  /** `buildMenuItems`: the markup of the shown items, in order, concatenated. A list
      of hidden items renders as nothing. */
  function ItemsHtml(c: Ctx, items: seq<MenuItem>, level: nat): (r: string)
    decreases items
    ensures AllHidden(items) ==> r == ""
  {
    if |items| == 0 then ""
    else
      var last := items[|items| - 1];
      ItemsHtml(c, items[..|items| - 1], level) + ShownHtml(c, last, level)
  }

  /** `render`'s result: the menu container around the top-level items. The container
      is produced even when no item is shown. */
  function MenuHtml(c: Ctx, items: seq<MenuItem>): (r: string)
    ensures AllHidden(items) ==>
      r == Format(c.t.menuContainer, map["menuClass" := c.config.menuClass.GetOr(""), "items" := ""])
  {
    Format(c.t.menuContainer, map["menuClass" := c.config.menuClass.GetOr(""), "items" := ItemsHtml(c, items, 0)])
  }
}
