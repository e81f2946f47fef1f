/** What the default templates make of each kind of item, and the properties of a render
    that callers rely on: order, hidden subtrees, the active path, nesting. */
module MenuProperties {
  import opened Php
  import opened StringTemplates
  import opened MenuItems
  import opened MenuTemplates
  import opened MenuRender
  import opened Menu

  // The default templates, filled in.

  lemma FormatMenuItem(v: map<string, string>)
    ensures Format(MenuItemDefault, v) ==
      Concat(["<li class=\"nav-item", Var(v, "class"), Var(v, "dropdownClass"), "\">", Var(v, "text"), Var(v, "nest"), "</li>"])
  {
    FormatIsConcat(MenuItemDefault, v);
    assert Fills(MenuItemDefault, v) ==
      ["<li class=\"nav-item", Var(v, "class"), Var(v, "dropdownClass"), "\">", Var(v, "text"), Var(v, "nest"), "</li>"];
  }

  lemma FormatMenuTitle(v: map<string, string>)
    ensures Format(MenuTitleDefault, v) == Concat(["<li class=\"nav-header\">", Var(v, "icon"), Var(v, "text"), "</li>"])
  {
    FormatIsConcat(MenuTitleDefault, v);
    assert Fills(MenuTitleDefault, v) == ["<li class=\"nav-header\">", Var(v, "icon"), Var(v, "text"), "</li>"];
  }

  /** A title item, at any depth, shows its label in the title template and nothing
      else: no icon, no link, none of its children. */
  lemma TitleItem(c: Ctx, item: MenuItem, level: nat)
    requires c.t == Defaults
    requires TypeOf(item) == TypeTitle
    ensures ItemHtml(c, item, level) == Concat(["<li class=\"nav-header\">", "", item.caption, "</li>"])
  {
    FormatMenuTitle(map["text" := item.caption]);
  }

  lemma FormatMenuItemLink(v: map<string, string>)
    ensures Format(MenuItemLinkDefault, v) ==
      Concat(["<a class=\"nav-link", Var(v, "linkClass"), Var(v, "activeClass"), "\" href=\"", Var(v, "url"),
              "\">", Var(v, "icon"), Var(v, "text"), "</a>"])
  {
    FormatIsConcat(MenuItemLinkDefault, v);
    assert Fills(MenuItemLinkDefault, v) ==
      ["<a class=\"nav-link", Var(v, "linkClass"), Var(v, "activeClass"), "\" href=\"", Var(v, "url"),
       "\">", Var(v, "icon"), Var(v, "text"), "</a>"];
  }

  lemma FormatMenuItemLinkNest(v: map<string, string>)
    ensures Format(MenuItemLinkNestDefault, v) ==
      Concat(["<a class=\"nav-link dropdown-toggle", Var(v, "linkClass"), Var(v, "activeClass"), "\" href=\"",
              Var(v, "url"), "\" role=\"button\" data-bs-toggle=\"dropdown\" aria-expanded=\"false\">",
              Var(v, "icon"), Var(v, "text"), "</a>"])
  {
    FormatIsConcat(MenuItemLinkNestDefault, v);
    assert Fills(MenuItemLinkNestDefault, v) ==
      ["<a class=\"nav-link dropdown-toggle", Var(v, "linkClass"), Var(v, "activeClass"), "\" href=\"",
       Var(v, "url"), "\" role=\"button\" data-bs-toggle=\"dropdown\" aria-expanded=\"false\">",
       Var(v, "icon"), Var(v, "text"), "</a>"];
  }

  lemma FormatMenuItemDisabled(v: map<string, string>)
    ensures Format(MenuItemDisabledDefault, v) ==
      Concat(["<li class=\"nav-item", Var(v, "class"), "\"><a class=\"nav-link disabled\" aria-disabled=\"true\">",
              Var(v, "icon"), Var(v, "text"), "</a></li>"])
  {
    FormatIsConcat(MenuItemDisabledDefault, v);
    assert Fills(MenuItemDisabledDefault, v) ==
      ["<li class=\"nav-item", Var(v, "class"), "\"><a class=\"nav-link disabled\" aria-disabled=\"true\">",
       Var(v, "icon"), Var(v, "text"), "</a></li>"];
  }

  /** The nested item container; the nested disabled template has the same pattern. */
  lemma FormatDropdownItem(v: map<string, string>)
    ensures Format(DropdownItemDefault, v) == Concat(["<li>", Var(v, "text"), Var(v, "nest"), "</li>"])
    ensures Format(DropdownItemDisabledDefault, v) == Format(DropdownItemDefault, v)
  {
    SharedNestedPatterns();
    FormatIsConcat(DropdownItemDefault, v);
    assert Fills(DropdownItemDefault, v) == ["<li>", Var(v, "text"), Var(v, "nest"), "</li>"];
  }

  /** The nested link; the nested link of an item with children has the same pattern. */
  lemma FormatDropdownItemLink(v: map<string, string>)
    ensures Format(DropdownItemLinkDefault, v) ==
      Concat(["<a class=\"dropdown-item", Var(v, "linkClass"), Var(v, "activeClass"), "\" href=\"", Var(v, "url"),
              "\">", Var(v, "icon"), Var(v, "text"), "</a>"])
    ensures Format(DropdownItemLinkNestDefault, v) == Format(DropdownItemLinkDefault, v)
  {
    SharedNestedPatterns();
    FormatIsConcat(DropdownItemLinkDefault, v);
    assert Fills(DropdownItemLinkDefault, v) ==
      ["<a class=\"dropdown-item", Var(v, "linkClass"), Var(v, "activeClass"), "\" href=\"", Var(v, "url"),
       "\">", Var(v, "icon"), Var(v, "text"), "</a>"];
  }

  lemma FormatDropdownContainer(v: map<string, string>)
    ensures Format(DropdownContainerDefault, v) == Concat(["<ul class=\"dropdown-menu\">", Var(v, "items"), "</ul>"])
  {
    FormatIsConcat(DropdownContainerDefault, v);
    assert Fills(DropdownContainerDefault, v) == ["<ul class=\"dropdown-menu\">", Var(v, "items"), "</ul>"];
  }

  lemma FormatMenuContainer(v: map<string, string>)
    ensures Format(MenuContainerDefault, v) ==
      Concat(["<ul class=\"", Var(v, "menuClass"), "\">", Var(v, "items"), "</ul>"])
  {
    FormatIsConcat(MenuContainerDefault, v);
    assert Fills(MenuContainerDefault, v) == ["<ul class=\"", Var(v, "menuClass"), "\">", Var(v, "items"), "</ul>"];
  }

  lemma FormatIcon(v: map<string, string>)
    ensures Format(IconDefault, v) == Concat(["<i class=\"", Var(v, "icon"), "\"></i>"])
  {
    FormatIsConcat(IconDefault, v);
    assert Fills(IconDefault, v) == ["<i class=\"", Var(v, "icon"), "\"></i>"];
  }

  // Items under the default templates.

  /** A divider, at any depth and whatever else it carries, is the fixed divider
      fragment; the type is looked at before `disabled`. */
  lemma DividerItem(c: Ctx, item: MenuItem, level: nat)
    requires c.t == Defaults
    requires TypeOf(item) == TypeDivider
    ensures ItemHtml(c, item, level) == "<li><hr class=\"dropdown-divider\"></li>"
  {
    FormatIsConcat(DividerDefault, map[]);
    assert Fills(DividerDefault, map[]) == ["<li><hr class=\"dropdown-divider\"></li>"];
  }

  /** A disabled top-level item is a disabled nav link holding only its caption: no URL,
      no icon, no item class and none of its children. */
  lemma DisabledTopLevelItem(c: Ctx, item: MenuItem)
    requires c.t == Defaults
    requires TypeOf(item) != TypeTitle && TypeOf(item) != TypeDivider && ItemDisabled(item)
    ensures ItemHtml(c, item, 0) ==
      Concat(["<li class=\"nav-item", "", "\"><a class=\"nav-link disabled\" aria-disabled=\"true\">", "",
              item.caption, "</a></li>"])
  {
    FormatMenuItemDisabled(map["text" := item.caption]);
  }

  /** A disabled nested item is its bare caption in a list element. */
  lemma DisabledNestedItem(c: Ctx, item: MenuItem, level: nat)
    requires c.t == Defaults && level > 0
    requires TypeOf(item) != TypeTitle && TypeOf(item) != TypeDivider && ItemDisabled(item)
    ensures ItemHtml(c, item, level) == Concat(["<li>", item.caption, "", "</li>"])
  {
    FormatDropdownItem(map["text" := item.caption]);
  }

  /** The link of a top-level item without children: a nav link carrying the link class,
      the active class, the URL, the icon and the caption. */
  lemma TopLevelLinkText(c: Ctx, item: MenuItem)
    requires c.t == Defaults && !HasChildren(item)
    ensures LinkHtml(c, item, 0) ==
      Concat(["<a class=\"nav-link", CssClass(item.linkClass), ActiveClassFor(c, item, 0), "\" href=\"",
              ItemUrl(c, item), "\">", ItemIcon(c, item, 0), item.caption, "</a>"])
  {
    FormatMenuItemLink(LinkVars(c, item, 0));
  }

  /** The link of a top-level item with children: a dropdown toggle. */
  lemma TopLevelToggleText(c: Ctx, item: MenuItem)
    requires c.t == Defaults && HasChildren(item)
    ensures LinkHtml(c, item, 0) ==
      Concat(["<a class=\"nav-link dropdown-toggle", CssClass(item.linkClass), ActiveClassFor(c, item, 0),
              "\" href=\"", ItemUrl(c, item),
              "\" role=\"button\" data-bs-toggle=\"dropdown\" aria-expanded=\"false\">",
              ItemIcon(c, item, 0), item.caption, "</a>"])
  {
    FormatMenuItemLinkNest(LinkVars(c, item, 0));
  }

  /** The link of a nested item: a dropdown item, with or without children. */
  lemma NestedLinkText(c: Ctx, item: MenuItem, level: nat)
    requires c.t == Defaults && level > 0
    ensures LinkHtml(c, item, level) ==
      Concat(["<a class=\"dropdown-item", CssClass(item.linkClass), ActiveClassFor(c, item, level),
              "\" href=\"", ItemUrl(c, item), "\">", ItemIcon(c, item, level), item.caption, "</a>"])
  {
    FormatDropdownItemLink(LinkVars(c, item, level));
  }

  /** Proof step of the item lemmas below: a link item is its container template
      filled with the container values. */
  lemma LinkItemIsContainer(c: Ctx, item: MenuItem, level: nat)
    requires TypeOf(item) != TypeTitle && TypeOf(item) != TypeDivider && !ItemDisabled(item)
    ensures ItemHtml(c, item, level) ==
      Format(if level > 0 then c.t.dropdownItem else c.t.menuItem,
             ContainerVars(c, item, level, LinkHtml(c, item, level), NestHtml(c, item, level)))
  {
  }

  /** Proof step of the item lemmas below: the container values the default item
      templates read. */
  lemma ContainerValues(c: Ctx, item: MenuItem, level: nat, link: string, nest: string)
    ensures Var(ContainerVars(c, item, level, link, nest), "class") == CssClass(item.itemClass)
    ensures Var(ContainerVars(c, item, level, link, nest), "dropdownClass") ==
      CssClass(if HasChildren(item) then c.config.dropdownClass else NoClass)
    ensures Var(ContainerVars(c, item, level, link, nest), "text") == link
    ensures Var(ContainerVars(c, item, level, link, nest), "nest") == nest
  {
  }

  /** A top-level link without children: the nav item (see `TopLevelLinkText`) with
      the item class, and no dropdown class and no nest. The active class is not on the
      list element; it is on the link only. */
  lemma TopLevelLeaf(c: Ctx, item: MenuItem)
    requires c.t == Defaults
    requires TypeOf(item) != TypeTitle && TypeOf(item) != TypeDivider && !ItemDisabled(item)
    requires !HasChildren(item)
    ensures ItemHtml(c, item, 0) ==
      Concat(["<li class=\"nav-item", CssClass(item.itemClass), "", "\">", LinkHtml(c, item, 0), "", "</li>"])
  {
    LinkItemIsContainer(c, item, 0);
    ContainerValues(c, item, 0, LinkHtml(c, item, 0), NestHtml(c, item, 0));
    FormatMenuItem(ContainerVars(c, item, 0, LinkHtml(c, item, 0), NestHtml(c, item, 0)));
  }

  /** A top-level item with children: the dropdown class on the nav item, a dropdown
      toggle as the link (see `TopLevelToggleText`), and the nested list (see
      `NestList`) after it. */
  lemma TopLevelNest(c: Ctx, item: MenuItem)
    requires c.t == Defaults
    requires TypeOf(item) != TypeTitle && TypeOf(item) != TypeDivider && !ItemDisabled(item)
    requires HasChildren(item)
    ensures ItemHtml(c, item, 0) ==
      Concat(["<li class=\"nav-item", CssClass(item.itemClass), CssClass(c.config.dropdownClass), "\">",
              LinkHtml(c, item, 0), NestHtml(c, item, 0), "</li>"])
  {
    LinkItemIsContainer(c, item, 0);
    ContainerValues(c, item, 0, LinkHtml(c, item, 0), NestHtml(c, item, 0));
    FormatMenuItem(ContainerVars(c, item, 0, LinkHtml(c, item, 0), NestHtml(c, item, 0)));
  }

  /** A nested link: its dropdown link (see `NestedLinkText`) in a list element,
      followed by the nested list (see `NestList`), which is empty for an item without
      children. */
  lemma NestedLink(c: Ctx, item: MenuItem, level: nat)
    requires c.t == Defaults && level > 0
    requires TypeOf(item) != TypeTitle && TypeOf(item) != TypeDivider && !ItemDisabled(item)
    ensures ItemHtml(c, item, level) == Concat(["<li>", LinkHtml(c, item, level), NestHtml(c, item, level), "</li>"])
  {
    LinkItemIsContainer(c, item, level);
    ContainerValues(c, item, level, LinkHtml(c, item, level), NestHtml(c, item, level));
    FormatDropdownItem(ContainerVars(c, item, level, LinkHtml(c, item, level), NestHtml(c, item, level)));
  }

  /** The nested list under the default templates: a dropdown menu around the children
      rendered one level deeper, and nothing for an item without children. */
  lemma NestList(c: Ctx, item: MenuItem, level: nat)
    requires c.t == Defaults
    ensures HasChildren(item) ==>
      NestHtml(c, item, level) == Concat(["<ul class=\"dropdown-menu\">", ItemsHtml(c, item.children.items, level + 1), "</ul>"])
    ensures !HasChildren(item) ==> NestHtml(c, item, level) == ""
  {
    if HasChildren(item) {
      FormatDropdownContainer(map["items" := ItemsHtml(c, item.children.items, level + 1)]);
    }
  }

  /** The menu container under the default templates. */
  lemma MenuContainer(c: Ctx, items: seq<MenuItem>)
    requires c.t == Defaults
    ensures MenuHtml(c, items) == Concat(["<ul class=\"", c.config.menuClass.GetOr(""), "\">", ItemsHtml(c, items, 0), "</ul>"])
  {
    FormatMenuContainer(map["menuClass" := c.config.menuClass.GetOr(""), "items" := ItemsHtml(c, items, 0)]);
  }

  /** An icon renders as an `<i>` element carrying the icon's classes. */
  lemma IconElement(c: Ctx, item: MenuItem, level: nat)
    requires c.t == Defaults
    requires !IconIsEmpty(ResolveIcon(item.icon, c.config.defaultIcon, level))
    ensures ItemIcon(c, item, level) ==
      Concat(["<i class=\"", IconString(ResolveIcon(item.icon, c.config.defaultIcon, level)), "\"></i>"])
  {
    FormatIcon(map["icon" := IconString(ResolveIcon(item.icon, c.config.defaultIcon, level))]);
  }

  // The item list, for any templates.

  /** A one-item list is the item's markup when it is shown and nothing when it is not. */
  lemma ItemsSingle(c: Ctx, x: MenuItem, level: nat)
    ensures ItemsHtml(c, [x], level) == if ItemShow(x) then ItemHtml(c, x, level) else ""
  {
    assert [x][..0] == [];
  }

  /** The markup of a list is the markup of its first part followed by that of the rest:
      items are rendered in order, each on its own. */
  lemma {:induction false} ItemsAppend(c: Ctx, a: seq<MenuItem>, b: seq<MenuItem>, level: nat)
    ensures ItemsHtml(c, a + b, level) == ItemsHtml(c, a, level) + ItemsHtml(c, b, level)
    decreases |b|
  {
    if |b| == 0 {
      assert a + b == a;
    } else {
      var last := b[|b| - 1];
      var front := b[..|b| - 1];
      assert (a + b)[..|a + b| - 1] == a + front;
      assert (a + b)[|a + b| - 1] == last;
      ItemsAppend(c, a, front, level);
    }
  }

  /** A hidden item contributes nothing, whatever its children: removing it leaves the
      markup unchanged. */
  lemma HiddenItemSkipped(c: Ctx, a: seq<MenuItem>, x: MenuItem, b: seq<MenuItem>, level: nat)
    requires !ItemShow(x)
    ensures ItemsHtml(c, a + [x] + b, level) == ItemsHtml(c, a + b, level)
  {
    ItemsAppend(c, a + [x], b, level);
    ItemsAppend(c, a, [x], level);
    ItemsSingle(c, x, level);
    ItemsAppend(c, a, b, level);
  }

  /** An empty `children` array is treated as no children at all. */
  lemma EmptyChildrenLikeAbsent(c: Ctx, item: MenuItem, level: nat)
    ensures ItemHtml(c, item.(children := ChildList([])), level) == ItemHtml(c, item.(children := NoChildren), level)
  {
    var a := item.(children := ChildList([]));
    var b := item.(children := NoChildren);
    assert LinkVars(c, a, level) == LinkVars(c, b, level);
    assert ContainerVars(c, a, level, LinkHtml(c, a, level), "") == ContainerVars(c, b, level, LinkHtml(c, b, level), "");
  }

  // The active path.

  /** `activeItem('<p>.<q>')` makes `p` the active key of the top level and `q` that of
      the second, when neither contains a dot. */
  lemma ActivePathLevels(p: string, q: string)
    requires '.' !in p && '.' !in q
    ensures Split(p + "." + q, '.') == [p, q]
  {
    assert p + "." + q == p + ['.'] + q;
    SplitPrefix(p, q, '.');
    SplitPiece(q, '.');
  }

  /** Only the key of the item's own level is compared: a second-level item keyed
      'shoes' is active under any parent, not only under 'products'; a top-level item
      keyed 'shoes' is not. */
  lemma ActivePerLevelOnly(item: MenuItem)
    requires item.key == StrKey("shoes") && item.active.Absent?
    ensures IsActive(["products", "shoes"], item, 1)
    ensures !IsActive(["products", "shoes"], item, 0)
    ensures !IsActive(["products", "shoes"], item, 2)
  {
  }

  /** An integer key matches the active key written in decimal. */
  lemma IntKeyActive(item: MenuItem)
    requires item.key == IntKey(12) && item.active.Absent?
    ensures IsActive(["12"], item, 0)
    ensures !IsActive(["012"], item, 0)
  {
    assert NatToString(12) == "12";
  }

  // Rendering with the default configuration.

  /** Without options, the menu is a `nav nav-pills` list of the top-level items under
      the default templates. */
  lemma DefaultRender(keys: seq<string>, url: string -> string, items: seq<MenuItem>)
    ensures Select(MergedTemplates(NoOptions)) == Defaults
    ensures MenuHtml(Ctx(keys, Select(MergedTemplates(NoOptions)), Resolve(NoOptions), url), items) ==
      Concat(["<ul class=\"", "nav nav-pills", "\">", ItemsHtml(Ctx(keys, Defaults, DefaultConfig, url), items, 0), "</ul>"])
  {
    assert MergedTemplates(NoOptions) == DefaultMap;
    DefaultMapComplete();
    assert Resolve(NoOptions) == DefaultConfig;
    MenuContainer(Ctx(keys, Defaults, DefaultConfig, url), items);
  }

  /** A falsy class value, string or array, gives no class at all. */
  lemma CssClassFalsy()
    ensures CssClass(ClassString("0")) == ""
    ensures CssClass(ClassList(["", "0"])) == ""
  {
  }

  /** How the grouping of the icon expression plays out. */
  lemma IconPrecedence()
    // An item's own icon is replaced by a string default icon.
    ensures ResolveIcon(Some("bi bi-house"), IconName("bi bi-circle"), 0) == IconText("bi bi-circle")
    // An item's own icon is replaced by a default icon table as a whole.
    ensures ResolveIcon(Some("bi bi-house"), IconTable([IconEntry(LevelKey(0), "bi bi-dot")]), 0)
      == IconArray([IconEntry(LevelKey(0), "bi bi-dot")])
    // An item without an icon gets its level's entry of a table, or the 'default' one.
    ensures ResolveIcon(None, IconTable([IconEntry(LevelKey(0), "bi bi-dot"), IconEntry(DefaultKey, "bi bi-x")]), 0)
      == IconText("bi bi-dot")
    ensures ResolveIcon(None, IconTable([IconEntry(LevelKey(0), "bi bi-dot"), IconEntry(DefaultKey, "bi bi-x")]), 1)
      == IconText("bi bi-x")
    // An empty icon with a string default takes one character of it at the item's level.
    ensures ResolveIcon(Some(""), IconName("bi bi-circle"), 1) == IconText("i")
    // With no default icon, an item's own icon is replaced by null: it never shows.
    ensures ResolveIcon(Some("bi bi-house"), NoDefaultIcon, 0) == NoIcon
  {
  }

  // The helper object across renders.

  /** An active path given to one render stays in force for the next render on the same
      helper, which passes no `activeItem`: both produce the same markup. */
  method ActivePathOutlivesRender(items: seq<MenuItem>, url: string -> string) returns (first: string, second: string)
    ensures first == MenuHtml(Ctx(["about"], Defaults, DefaultConfig, url), items)
    ensures second == first
  {
    var helper := new MenuHelper();
    SplitPiece("about", '.');
    assert MergedTemplates(NoOptions.(activeItem := Some("about"))) == DefaultMap;
    assert MergedTemplates(NoOptions) == DefaultMap;
    DefaultMapComplete();
    first := helper.Render(items, NoOptions.(activeItem := Some("about")), url);
    second := helper.Render(items, NoOptions, url);
  }
}
