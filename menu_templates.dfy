/** The thirteen templates `MenuHelper` formats, with their default patterns, and the
    template set a render looks them up in. */
module MenuTemplates {
  import opened StringTemplates

  /** One pattern per template name the renderer uses. */
  datatype TemplateSet = TemplateSet(
    menuContainer: Template,
    menuItem: Template,
    menuItemDisabled: Template,
    menuItemLink: Template,
    menuItemLinkNest: Template,
    dropdownContainer: Template,
    dropdownItem: Template,
    dropdownItemDisabled: Template,
    dropdownItemLink: Template,
    dropdownItemLinkNest: Template,
    icon: Template,
    divider: Template,
    menuTitle: Template)

  /** The default patterns, split into literal text and `{{slot}}`s. */
  const MenuContainerDefault: Template :=
    [Lit("<ul class=\""), Slot("menuClass"), Lit("\">"), Slot("items"), Lit("</ul>")]
  const MenuItemDefault: Template :=
    [Lit("<li class=\"nav-item"), Slot("class"), Slot("dropdownClass"), Lit("\">"),
     Slot("text"), Slot("nest"), Lit("</li>")]
  const MenuItemDisabledDefault: Template :=
    [Lit("<li class=\"nav-item"), Slot("class"), Lit("\"><a class=\"nav-link disabled\" aria-disabled=\"true\">"),
     Slot("icon"), Slot("text"), Lit("</a></li>")]
  const MenuItemLinkDefault: Template :=
    [Lit("<a class=\"nav-link"), Slot("linkClass"), Slot("activeClass"), Lit("\" href=\""),
     Slot("url"), Lit("\">"), Slot("icon"), Slot("text"), Lit("</a>")]
  const MenuItemLinkNestDefault: Template :=
    [Lit("<a class=\"nav-link dropdown-toggle"), Slot("linkClass"), Slot("activeClass"), Lit("\" href=\""),
     Slot("url"), Lit("\" role=\"button\" data-bs-toggle=\"dropdown\" aria-expanded=\"false\">"),
     Slot("icon"), Slot("text"), Lit("</a>")]
  const DropdownContainerDefault: Template :=
    [Lit("<ul class=\"dropdown-menu\">"), Slot("items"), Lit("</ul>")]
  const DropdownItemDefault: Template :=
    [Lit("<li>"), Slot("text"), Slot("nest"), Lit("</li>")]
  const DropdownItemDisabledDefault: Template :=
    [Lit("<li>"), Slot("text"), Slot("nest"), Lit("</li>")]
  const DropdownItemLinkDefault: Template :=
    [Lit("<a class=\"dropdown-item"), Slot("linkClass"), Slot("activeClass"), Lit("\" href=\""),
     Slot("url"), Lit("\">"), Slot("icon"), Slot("text"), Lit("</a>")]
  const DropdownItemLinkNestDefault: Template :=
    [Lit("<a class=\"dropdown-item"), Slot("linkClass"), Slot("activeClass"), Lit("\" href=\""),
     Slot("url"), Lit("\">"), Slot("icon"), Slot("text"), Lit("</a>")]
  const IconDefault: Template :=
    [Lit("<i class=\""), Slot("icon"), Lit("\"></i>")]
  const DividerDefault: Template :=
    [Lit("<li><hr class=\"dropdown-divider\"></li>")]
  const MenuTitleDefault: Template :=
    [Lit("<li class=\"nav-header\">"), Slot("icon"), Slot("text"), Lit("</li>")]

  const Defaults := TemplateSet(
    MenuContainerDefault, MenuItemDefault, MenuItemDisabledDefault, MenuItemLinkDefault,
    MenuItemLinkNestDefault, DropdownContainerDefault, DropdownItemDefault,
    DropdownItemDisabledDefault, DropdownItemLinkDefault, DropdownItemLinkNestDefault,
    IconDefault, DividerDefault, MenuTitleDefault)

  /** The names the renderer looks up. */
  const Names: set<string> := {
    "menuContainer", "menuItem", "menuItemDisabled", "menuItemLink", "menuItemLinkNest",
    "dropdownContainer", "dropdownItem", "dropdownItemDisabled", "dropdownItemLink",
    "dropdownItemLinkNest", "icon", "divider", "menuTitle"}

  /** The `templates` entry of the default configuration, by name. */
  const DefaultMap: map<string, Template> := map[
    "menuContainer" := Defaults.menuContainer,
    "menuItem" := Defaults.menuItem,
    "menuItemDisabled" := Defaults.menuItemDisabled,
    "menuItemLink" := Defaults.menuItemLink,
    "menuItemLinkNest" := Defaults.menuItemLinkNest,
    "dropdownContainer" := Defaults.dropdownContainer,
    "dropdownItem" := Defaults.dropdownItem,
    "dropdownItemDisabled" := Defaults.dropdownItemDisabled,
    "dropdownItemLink" := Defaults.dropdownItemLink,
    "dropdownItemLinkNest" := Defaults.dropdownItemLinkNest,
    "icon" := Defaults.icon,
    "divider" := Defaults.divider,
    "menuTitle" := Defaults.menuTitle]

  /** The patterns a templater holding `m` formats under the renderer's names. */
  function Select(m: map<string, Template>): TemplateSet
    requires Names <= m.Keys
  {
    TemplateSet(
      m["menuContainer"], m["menuItem"], m["menuItemDisabled"], m["menuItemLink"], m["menuItemLinkNest"],
      m["dropdownContainer"], m["dropdownItem"], m["dropdownItemDisabled"], m["dropdownItemLink"],
      m["dropdownItemLinkNest"], m["icon"], m["divider"], m["menuTitle"])
  }

  /** The default map holds exactly the renderer's names, and selecting from it gives
      the default patterns. */
  lemma DefaultMapComplete()
    ensures DefaultMap.Keys == Names
    ensures Select(DefaultMap) == Defaults
  {
    DefaultMapNames();
    assert Select(DefaultMap) == Defaults;
  }

  /** The default map is keyed by exactly the renderer's names. */
  lemma DefaultMapNames()
    ensures DefaultMap.Keys == Names
  {
  }

  /** Once a set of templates covering every name is added on top, what was there before
      no longer shows: the renderer sees only the added patterns. */
  lemma SelectAfterOverride(before: map<string, Template>, added: map<string, Template>)
    requires Names <= added.Keys
    ensures Names <= (before + added).Keys
    ensures Select(before + added) == Select(added)
  {
  }

  /** Templates under names the renderer never looks up do not change what it formats. */
  lemma SelectIgnoresOtherNames(m: map<string, Template>, extra: map<string, Template>)
    requires Names <= m.Keys
    requires extra.Keys !! Names
    ensures Names <= (m + extra).Keys
    ensures Select(m + extra) == Select(m)
  {
  }

  /** The default top-level item container has no slot for `activeClass` or
      `dropdownOpenClass`: the values computed for them are dropped. */
  lemma MenuItemDropsActiveClass()
    ensures "activeClass" !in Slots(MenuItemDefault) && "dropdownOpenClass" !in Slots(MenuItemDefault)
  {
    NotASlot(MenuItemDefault, "activeClass");
    NotASlot(MenuItemDefault, "dropdownOpenClass");
  }

  /** The same holds of the default nested item container. */
  lemma DropdownItemDropsActiveClass()
    ensures "activeClass" !in Slots(DropdownItemDefault) && "dropdownOpenClass" !in Slots(DropdownItemDefault)
  {
    NotASlot(DropdownItemDefault, "activeClass");
    NotASlot(DropdownItemDefault, "dropdownOpenClass");
  }

  /** The nested templates that share a pattern: a disabled nested item looks like any
      nested item, and a nested link with children like one without. */
  lemma SharedNestedPatterns()
    ensures DropdownItemDisabledDefault == DropdownItemDefault
    ensures DropdownItemLinkNestDefault == DropdownItemLinkDefault
  {
  }

  /** Every default link template has an `activeClass` slot. */
  lemma LinksShowActiveClass()
    ensures "activeClass" in Slots(MenuItemLinkDefault)
    ensures "activeClass" in Slots(MenuItemLinkNestDefault)
    ensures "activeClass" in Slots(DropdownItemLinkDefault)
    ensures "activeClass" in Slots(DropdownItemLinkNestDefault)
  {
    assert MenuItemLinkDefault[2] == Slot("activeClass");
    assert MenuItemLinkNestDefault[2] == Slot("activeClass");
    assert DropdownItemLinkDefault[2] == Slot("activeClass");
  }
}
