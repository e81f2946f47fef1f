# cakephp-bs-utils in Dafny

A model of the view helpers of the CakePHP plugin `BsUtils`, with proofs about them:

- **`MenuHelper`** renders a nested array of menu items as Bootstrap navigation markup.
  - Each item is shown or hidden, disabled, active or not.
  - A title or a divider item renders its own fixed fragment.
  - Active matching compares the item's key with the key of its own depth in the active path (`activeItem('a.b')`).
  - Class values are normalised by `cssClass`.
  - Items get an icon from `defaultIcon`.
  - Every fragment comes from a named string template.
- **`BsHelper`** builds badges, alerts, progress bars and spinners with `HtmlHelper::tag`, and renders dropdowns through `MenuHelper`.
- **`Badge`** is a value object with a label and a color.
- **`Color`** is a backed enum of the eight Bootstrap theme colors.

## Layout

The modules, one per file:

| module | file | what it holds |
|---|---|---|
| `Php` | `php.dfy` | The PHP behaviour the helpers rely on: truthiness, `(string)` of integers, `implode`, `explode` on one character, `trim`, `array_filter`, the array union `+`, and runtime errors as a `Result`. |
| `Colors` | `color.dfy` | The `Color` enum. |
| `Badges` | `badge.dfy` | The `Badge` value object. |
| `HtmlTags` | `html.dfy` | `HtmlHelper::tag` as an uninterpreted element `Tag(name, content, attrs)`. |
| `StringTemplates` | `templates.dfy` | The string template engine: a template is a sequence of literal pieces and `{{name}}` slots, and filling a slot with no value gives "". |
| `MenuTemplates` | `menu_templates.dfy` | The thirteen default menu templates, and the name-to-pattern map the templater holds. |
| `MenuItems` | `menu_items.dfy` | The menu item, plus `itemShow`, `itemDisabled`, `isActiveItem`, `cssClass` and icon resolution. |
| `MenuRender` | `menu_render.dfy` | How options merge, and what `buildMenuItem`, `buildMenuItems` and `render` produce, written as functions. |
| `Menu` | `menu_helper.dfy` | The `MenuHelper` class. |
| `MenuProperties` | `menu_properties.dfy` | Lemmas about rendering. |
| `Bs` | `bs_helper.dfy` | `BsHelper`. |

### How `MenuHelper` is modelled

- `MenuHelper` is a class with two fields.
  - `activeKeys` is the active path.
  - `templates` holds the templater's patterns.
- `Render`, `BuildMenuItems` and `BuildMenuItem` are methods that compute the markup the way the PHP does: a loop over the items, and early returns for titles, dividers and disabled items.
- Each method is proved equal to the matching function of `MenuRender`. So each of these operations appears twice on purpose: the function is the specification, and the method is the step-by-step computation proved to meet it.
- `Bs.Progress` and `Bs.Spinner` work the same way: they build their class lists by conditional appends, as the PHP does, and are proved to give `Bs.ProgressClasses` and `Bs.SpinnerClasses`.
- The lemmas of `MenuProperties` state what those functions produce.

The model follows the code in three places where a reader might expect otherwise:

- **Icon resolution.** The icon expression is modelled as PHP groups it: `($item['icon'] ?? is_string($d)) ? $d : ($d[$level] ?? $d['default'] ?? null)`.
- **Active matching.** Only the key of the item's own level is compared with the active path.
- **The active path persists.** It stays in the helper from one `render` to the next. A call that passes no `activeItem` still highlights the previous path.

## Model

| member | source | states |
|---|---|---|
| Colors.Value | src/Enum/Color.php:19-22 | The backing string of a case is a non-empty run of lower-case letters, so it fits into a class name with no space. Its partners are `TryFromValue` and `ValueInjective`. |
| Colors.EightCases | src/Enum/Color.php:8-17 | The enum has exactly eight cases, each listed once. |
| Colors.TryFrom | src/Enum/Color.php:10-17 | Looking up a backing string finds only a case with that backing string. |
| Colors.TryFromValue | src/Enum/Color.php:10-22 | A case's `value()` looked up again gives the same case. Lookup fails exactly for strings that back no case. |
| Colors.ValueInjective | src/Enum/Color.php:10-17 | Distinct cases have distinct backing strings. |
| Badges.Badge.Label | src/Utility/Badge.php:16-28 | `label()` returns the label given to the constructor, unchanged. |
| Badges.Badge.ColorName | src/Utility/Badge.php:33-40 | `color()` gives the backing string of an enum color and returns a string color unchanged. |
| Badges.ColorResolution | src/Utility/Badge.php:16-40 | Without a color a badge reports 'primary'. A badge built from a case reports the same color as one built from that case's backing string. |
| Badges.ColorNameIsTheme | src/Utility/Badge.php:33-40 | The reported color is a theme color exactly when the badge was built from a case or from a case's backing string. |
| Bs.FromBadge | src/View/Helper/BsHelper.php:35-48 | A `Badge` offers `label()` and `color()` to `badge`, but no `text()`. |
| Bs.BadgeHtml | src/View/Helper/BsHelper.php:35-48 | `badge` fails with an undefined-method error exactly when the object has no `text()`. Otherwise it gives a span with that text and the badge class. |
| Bs.BadgePillHtml | src/View/Helper/BsHelper.php:50-53 | `badgePill(b)` is `badge(b, 'badge-pill')`, and its class ends in ' rounded-pill'. |
| Bs.BadgeClassText | src/View/Helper/BsHelper.php:41-45 | The class is 'badge text-bg-<color>' followed by ' rounded-pill' for a pill, and by a lone trailing space for any other type. |
| Bs.BadgeClassParts | src/View/Helper/BsHelper.php:41-45 | For a color without a space, the class read back as a space-separated list is exactly its three parts, the last one possibly empty. A color with a space would split into more parts. |
| Bs.BadgeTypes | src/View/Helper/BsHelper.php:44 | A type renders like the default exactly when it is not 'badge-pill'. |
| Bs.UtilityBadgeFails | src/View/Helper/BsHelper.php:39 | Every `Badge` passed to `badge` or `badgePill` ends in the undefined-method error. |
| Bs.Alert | src/View/Helper/BsHelper.php:55-78 | A `Color` case fails, because it cannot be used as a string. Otherwise the result is a div of class 'alert alert-<color>' with role 'alert'. It holds the message, then exactly one close button when 'dismissible' is set and truthy, and nothing else. |
| Bs.ProgressClasses | src/View/Helper/BsHelper.php:87-93 | 'progress-bar' comes first. 'progress-bar-striped' is present iff striped, and 'progress-bar-animated' iff animated, in that order. |
| Bs.ProgressClassList | src/View/Helper/BsHelper.php:101 | The bar's class attribute reads back as exactly its class list. |
| Bs.Progress | src/View/Helper/BsHelper.php:80-113 | `max` defaults to 100, the color to null and the options to none. Both options default to false. The result is an outer div of class 'progress' around a bar that carries the classes, role 'progressbar', aria-valuenow = value, aria-valuemin = 0 and aria-valuemax = max. |
| Bs.DefaultProgress | src/View/Helper/BsHelper.php:80 | `progress($value)` alone gives a plain bar whose range runs from 0 to 100. |
| Bs.SpinnerClasses | src/View/Helper/BsHelper.php:122-128 | 'spinner-border' comes first. 'spinner-border-<size>' is present iff size is truthy, then 'border-<border>' iff border is truthy. |
| Bs.Spinner | src/View/Helper/BsHelper.php:115-138 | The result is an empty div with the spinner classes and role 'status'. It does not depend on the color argument. |
| Bs.DropdownOptions | src/View/Helper/BsHelper.php:142-149 | The dropdown templates are supplied only when the caller gave no `templates`. |
| Bs.DropdownNamesUnused | src/View/Helper/BsHelper.php:143-148 | None of the names `dropdown` supplies is one of the thirteen the renderer reads. |
| Bs.DropdownTemplatesInert | src/View/Helper/BsHelper.php:142-149 | The renderer selects the same patterns with or without the supplied templates. |
| Bs.Dropdown | src/View/Helper/BsHelper.php:140-152 | `dropdown` delegates to `render`. It produces exactly what `render` gives for the caller's options alone, and sets the active path as `render` does. |
| Menu.MenuHelper.constructor | src/View/Helper/MenuHelper.php:54-86 | A fresh helper has an empty active path and the default templates. |
| Menu.MenuHelper.ActiveItem | src/View/Helper/MenuHelper.php:115-118 | The active path is the argument split on '.'. Joined again with '.', it gives back the argument. |
| Menu.MenuHelper.Render | src/View/Helper/MenuHelper.php:93-109 | A given `activeItem` replaces the active path; otherwise the previous path stays. The merged templates are added to the templater. The markup is the menu container around the built items. |
| Menu.MenuHelper.BuildMenuItems | src/View/Helper/MenuHelper.php:126-138 | The loop appends the markup of every shown item, in order. |
| Menu.MenuHelper.BuildMenuItem | src/View/Helper/MenuHelper.php:146-202 | One item is rendered as the title, divider, disabled, link and nest rules say. |
| MenuItems.KeyString | src/View/Helper/MenuHelper.php:133 | A string key is used as it is. A non-negative integer key becomes its decimal digits, and a negative one a '-' followed by the digits of its magnitude. |
| MenuItems.ItemShow | src/View/Helper/MenuHelper.php:208-219 | An item is hidden exactly when `show` is literal false or a callable returning falsy. |
| MenuItems.ItemDisabled | src/View/Helper/MenuHelper.php:225-239 | An item is disabled exactly when its type is 'disabled', `disabled` is literal true, or `disabled` is a callable returning truthy. |
| MenuItems.ActiveKeyAt | src/View/Helper/MenuHelper.php:256 | The active key of a level, or "" past the end of the path. |
| MenuItems.IsActive | src/View/Helper/MenuHelper.php:246-262 | An item is active exactly when `active` is true, or a callable returning truthy, or the active key of its own level equals its key. |
| MenuItems.CssClass | src/View/Helper/MenuHelper.php:268-279 | The result is "" exactly for an empty class value. Otherwise it is a leading space and the trimmed class; an array is space-joined without its falsy elements first. |
| MenuItems.ClassListTruthy | src/View/Helper/MenuHelper.php:270-274 | A joined array is falsy exactly when all its elements are falsy. |
| MenuItems.IconLookup | src/View/Helper/MenuHelper.php:172-173 | A table lookup finds an entry exactly when the key is present, and returns that entry's icon. |
| MenuItems.LevelIcon | src/View/Helper/MenuHelper.php:172-174 | The per-level icon comes from the level's entry, else the 'default' entry, else nothing. On a string it is the character at that offset. |
| MenuItems.ResolveIcon | src/View/Helper/MenuHelper.php:170-174 | An item without an icon takes a string default whole. A truthy item icon is replaced by the whole default. The per-level lookup runs only when the condition is falsy. |
| MenuRender.Resolve | src/View/Helper/MenuHelper.php:30-45 | Each option the caller gives replaces the default; every other option keeps its default. |
| MenuRender.MergedTemplates | src/View/Helper/MenuHelper.php:95-103 | The merged templates hold the thirteen names, the defaults' names and the caller's, and no others. A name the caller gives has the caller's pattern. A default name the caller leaves out keeps its default pattern. |
| MenuRender.IconFragment | src/View/Helper/MenuHelper.php:180 | An empty icon gives ""; any other icon goes through the icon template. |
| MenuRender.ActiveClassFor | src/View/Helper/MenuHelper.php:182-196 | An active item gets the normalised active class; any other item gets "". |
| MenuRender.ItemHtml | src/View/Helper/MenuHelper.php:146-202 | A title is its template filled with the caption alone, so the title's `icon` slot stays empty. A divider is its template with no values. A disabled item is its level's disabled template filled with the caption alone, so its `icon` and `class` slots stay empty whatever the item carries. |
| MenuRender.NestHtml | src/View/Helper/MenuHelper.php:186-191 | An item without children has no nest. An item whose children are all hidden still gets an empty dropdown container, because only the presence of children is tested. |
| MenuRender.ItemsHtml | src/View/Helper/MenuHelper.php:126-138 | A list in which no item is shown renders as nothing. |
| MenuRender.MenuHtml | src/View/Helper/MenuHelper.php:105-108 | The menu container is produced even when no item is shown, with the menu class and an empty item list. |
| MenuTemplates.DefaultMapComplete | src/View/Helper/MenuHelper.php:50-75 | The default map has exactly the thirteen names, and the renderer selects the default patterns from it. |
| MenuTemplates.SelectAfterOverride | src/View/Helper/MenuHelper.php:101-103 | After a full set of templates is added, earlier patterns no longer show. |
| MenuTemplates.SelectIgnoresOtherNames | src/View/Helper/MenuHelper.php:101-103 | Templates under other names do not change what the renderer formats. |
| MenuTemplates.MenuItemDropsActiveClass | src/View/Helper/MenuHelper.php:55 | The default top-level item has no `activeClass` slot and no `dropdownOpenClass` slot. |
| MenuTemplates.DropdownItemDropsActiveClass | src/View/Helper/MenuHelper.php:64 | The same holds for the default nested item. |
| MenuTemplates.SharedNestedPatterns | src/View/Helper/MenuHelper.php:64-67 | The disabled nested item has the nested item's pattern. The nested link with children has the nested link's pattern. |
| MenuTemplates.DefaultMapNames | src/View/Helper/MenuHelper.php:50-75 | The default templates are keyed by exactly the thirteen names the renderer reads. |
| MenuTemplates.LinksShowActiveClass | src/View/Helper/MenuHelper.php:57-67 | Every default link template has an `activeClass` slot. |
| MenuProperties.FormatMenuContainer | src/View/Helper/MenuHelper.php:54 | What the default menu container renders, for any values. |
| MenuProperties.FormatMenuItem | src/View/Helper/MenuHelper.php:55 | What the default top-level item renders, for any values. |
| MenuProperties.FormatMenuItemDisabled | src/View/Helper/MenuHelper.php:56 | What the default disabled top-level item renders, for any values. |
| MenuProperties.FormatMenuItemLink | src/View/Helper/MenuHelper.php:57 | What the default top-level link renders, for any values. |
| MenuProperties.FormatMenuItemLinkNest | src/View/Helper/MenuHelper.php:58 | What the default top-level dropdown toggle renders, for any values. |
| MenuProperties.FormatDropdownContainer | src/View/Helper/MenuHelper.php:63 | What the default nested list renders, for any values. |
| MenuProperties.FormatDropdownItem | src/View/Helper/MenuHelper.php:64-65 | What the default nested item renders. The disabled nested item renders the same. |
| MenuProperties.FormatDropdownItemLink | src/View/Helper/MenuHelper.php:66-67 | What the default nested link renders. The nested link with children renders the same. |
| MenuProperties.FormatIcon | src/View/Helper/MenuHelper.php:72 | What the default icon renders, for any values. |
| MenuProperties.FormatMenuTitle | src/View/Helper/MenuHelper.php:74 | What the default title renders, for any values. |
| MenuProperties.TitleItem | src/View/Helper/MenuHelper.php:152-156 | A title item at any depth is its label in the title template, with no icon, no link and no children. |
| MenuProperties.DividerItem | src/View/Helper/MenuHelper.php:158-160 | A divider at any depth is the fixed divider fragment, whatever else it carries, even `disabled`. |
| MenuProperties.DisabledTopLevelItem | src/View/Helper/MenuHelper.php:162-167 | A disabled top-level item is a disabled nav link holding only its label. |
| MenuProperties.DisabledNestedItem | src/View/Helper/MenuHelper.php:162-167 | A disabled nested item is its bare label in a list element. |
| MenuProperties.TopLevelLinkText | src/View/Helper/MenuHelper.php:175-184 | A top-level link without children is a nav link carrying the link class, the active class, the URL, the icon and the label. |
| MenuProperties.TopLevelToggleText | src/View/Helper/MenuHelper.php:175-184 | A top-level link with children is a dropdown toggle carrying the same values. |
| MenuProperties.NestedLinkText | src/View/Helper/MenuHelper.php:175-184 | A nested link is a dropdown item carrying the same values, with or without children. |
| MenuProperties.TopLevelLeaf | src/View/Helper/MenuHelper.php:193-201 | A top-level link without children is a nav item with the item class around its link, with no dropdown class and no nest. The list element gets no active class. |
| MenuProperties.TopLevelNest | src/View/Helper/MenuHelper.php:186-201 | A top-level item with children gets the item class and the dropdown class on its list element, then its link, then the nested list. |
| MenuProperties.NestedLink | src/View/Helper/MenuHelper.php:186-201 | A nested link item is a bare list element holding its link, then its nested list. |
| MenuProperties.NestList | src/View/Helper/MenuHelper.php:186-191 | The nested list holds the children rendered one level deeper. An item without children has none. |
| MenuProperties.MenuContainer | src/View/Helper/MenuHelper.php:105-108 | The menu is the default container around the top-level items. |
| MenuProperties.IconElement | src/View/Helper/MenuHelper.php:180 | A non-empty icon renders as an `<i>` element carrying the icon. |
| MenuProperties.ItemsSingle | src/View/Helper/MenuHelper.php:129-135 | A one-item list is the item's markup when it is shown, and nothing otherwise. |
| MenuProperties.ItemsAppend | src/View/Helper/MenuHelper.php:126-138 | The markup of a concatenated list is the concatenation of the parts' markups. |
| MenuProperties.HiddenItemSkipped | src/View/Helper/MenuHelper.php:130-132 | A hidden item contributes nothing, children included. |
| MenuProperties.EmptyChildrenLikeAbsent | src/View/Helper/MenuHelper.php:148-197 | An empty `children` array renders like no children at all. |
| MenuProperties.ActivePathLevels | src/View/Helper/MenuHelper.php:115-118 | `activeItem('p.q')` makes `p` the first-level key and `q` the second-level key, for any dot-free `p` and `q`. |
| MenuProperties.ActivePerLevelOnly | src/View/Helper/MenuHelper.php:256-259 | A second-level 'shoes' item is active under any parent. A top-level item with the same key is not. |
| MenuProperties.IntKeyActive | src/View/Helper/MenuHelper.php:256-259 | An integer key is compared in its decimal form: key 12 matches the active key '12' but not '012'. |
| MenuProperties.DefaultRender | src/View/Helper/MenuHelper.php:93-109 | Without options, the menu is a 'nav nav-pills' list under the default templates. |
| MenuProperties.CssClassFalsy | src/View/Helper/MenuHelper.php:274-276 | A falsy string or an all-falsy array gives no class. |
| MenuProperties.IconPrecedence | src/View/Helper/MenuHelper.php:170-174 | Concrete cases of icon resolution. An item's own icon is replaced by the default, whether a string or a table. With no default it is replaced by null. An empty icon with a string default takes one character of it. |
| MenuProperties.ActivePathOutlivesRender | src/View/Helper/MenuHelper.php:86-99 | A second render without `activeItem` on the same helper still uses the first render's active path. |
| Php.Split | src/View/Helper/MenuHelper.php:117 | `explode`: at least one piece, no piece holds the delimiter, and the pieces joined again give the input. |
| Php.SplitJoin | src/View/Helper/MenuHelper.php:117 | Splitting a join of delimiter-free pieces gives the pieces back. |
| Php.Trim | src/View/Helper/MenuHelper.php:278 | `trim` removes exactly the leading and trailing whitespace characters. |
| Php.TrimUntouched | src/View/Helper/MenuHelper.php:278 | A string with no whitespace character at either end is its own trim. |
| Php.KeepTruthy | src/View/Helper/MenuHelper.php:271 | `array_filter` keeps exactly the truthy elements and no others. One element is kept exactly when it is truthy. |
| Php.KeepTruthyAppend | src/View/Helper/MenuHelper.php:271 | Filtering a concatenation filters each part, so the kept elements stay in their order, each as often as it occurs. |
| Php.Join | src/View/Helper/BsHelper.php:101 | `implode` of no pieces is "", and of one piece is that piece. Its partner is `Split`, through `SplitJoin`. |
| Php.JoinThree | src/View/Helper/BsHelper.php:41-45 | Three pieces joined have the separator between each pair. |
| Php.IntToString | src/View/Helper/MenuHelper.php:133 | `(string)` of an integer is its decimal form, and reads back as the same number. |
| Php.UnionLeft | src/View/Helper/BsHelper.php:82-85 | `$options += $defaults` keeps every given option and adds the defaults for the missing ones. |
| StringTemplates.FormatAppend | src/View/Helper/MenuHelper.php:105-108 | Filling a concatenation of templates fills each part. |
| StringTemplates.FormatIgnoresOtherNames | src/View/Helper/MenuHelper.php:194-201 | Values for names that are not slots of a template do not change its output. |
| StringTemplates.FormatIsConcat | src/View/Helper/MenuHelper.php:105-108 | A filled template is the concatenation of its pieces, each slot replaced by its value or "". |

## Left out

- `UrlHelper::build` (src/View/Helper/MenuHelper.php:179) is a call into CakePHP. The model takes it as a function parameter `url`, so routing arrays are not modelled, only URL strings.
- `HtmlHelper::tag` is kept as an uninterpreted element. Attribute serialisation, HTML escaping and the CakePHP `StringTemplate` engine behind it are not modelled.
- Template strings are given already split into literal pieces and `{{name}}` slots. Compiling a pattern string into those pieces is not modelled, and neither are the engine's other placeholder features (`templateVars`, attribute formatting). A caller's template is taken in the same pre-split form.
- `Hash::merge` is modelled for the option keys `render` reads:
  - A given option replaces the default.
  - `templates` merges name by name.
  - Deeper merges are not modelled. These would be an array `defaultIcon` merged into an array default, or an array class merged into an array class. The defaults have no such arrays.
  - Helper-level configuration, as passed to the helper's constructor or `setConfig`, is not modelled. The configuration is always the class default.
- Callables in `show`, `active` and `disabled` are modelled by the truthiness of what they return. Whether a given value is a callable is an input of the model. A string naming a global function is also a PHP callable; the model leaves that classification to the caller.
- A missing `label` renders as "". PHP's undefined-key warning is not modelled.
- Item keys are stored on the items. That PHP array keys are unique, and that numeric strings become integer keys, is not enforced.
- MenuItems.IconString: when a truthy item icon is replaced by an array `defaultIcon`, the array's values are concatenated. The model does not pin down how the CakePHP template engine prints an array.
- Bs.Progress: the `style` attribute `width: <value / max * 100>%` is left out, because it needs floating-point division.
- Bs.Progress: for `max` = 0, PHP 8 throws `DivisionByZeroError` at src/View/Helper/BsHelper.php:103 and returns no markup. The model still returns the markup in that case, because the division is not modelled.
- MenuItems.LevelIcon: a PHP string offset `$d[$level]` reads one byte, while the model reads one character. The two differ on a non-ASCII `defaultIcon`. For example, with `defaultIcon` 'é' (bytes C3 A9), an empty item icon and level 0, PHP gives the byte C3 and the model gives 'é'. PHP strings are byte strings, and the model treats them as character sequences throughout.
- Bs.Alert: `__('Close')` is a translation call. The model takes it as the constant 'Close'.
- Bs.Alert: a `ColorInterface` other than the enum is modelled by the string it converts to. `ColorInterface` itself is not part of this model.
- `BadgeInterface` has only the two signatures `label()` and `color()`. They are folded into `Bs.BadgeObject`, together with the `text()` that `badge` calls.
- The `TYPE_*` constants of `BsHelper` are never used by its methods, and are left out.
- `ModalHelper` and the `BsHelper` test case have no behaviour to model: the test case only sets up and tears down.
