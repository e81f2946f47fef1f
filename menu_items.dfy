/** The menu tree `MenuHelper` renders, and the per-item decisions it makes: whether an
    item is shown, disabled or active, how class fragments are normalised and which icon
    an item gets. */
module MenuItems {
  import opened Php

  const TypeLink := "link"
  const TypeDivider := "divider"
  const TypeDisabled := "disabled"
  const TypeTitle := "title"

  /** A key of the PHP array holding the items: an integer or a string. */
  datatype Key = IntKey(n: int) | StrKey(s: string)

  /** A `show`, `active` or `disabled` entry: not set (or null), a boolean literal, a
      zero-argument callable (by the truthiness of what it returns), or any other
      value, which none of the three checks ever treats as true or false. */
  datatype Flag = Absent | Literal(b: bool) | Supplier(result: bool) | OtherValue

  /** A class entry: null or missing, a string, or an array of strings. */
  datatype CssValue = NoClass | ClassString(s: string) | ClassList(parts: seq<string>)

  /** A key of the `defaultIcon` array: a depth level or 'default'. */
  datatype IconKey = LevelKey(level: int) | DefaultKey

  datatype IconEntry = IconEntry(key: IconKey, icon: string)

  /** The `defaultIcon` option: null, one icon class for every level, or an array of
      icons by level with an optional 'default' entry. */
  datatype DefaultIcon = NoDefaultIcon | IconName(name: string) | IconTable(entries: seq<IconEntry>)

  /** What the `$item['icon']` expression leaves in the item: nothing, a string, or the
      whole `defaultIcon` array. */
  datatype Icon = NoIcon | IconText(text: string) | IconArray(entries: seq<IconEntry>)

  /** An item's `children`: missing (or null), or an array of items. */
  datatype Children = NoChildren | ChildList(items: seq<MenuItem>)

  /** One menu item, with the key it has in its parent array. A missing `label` is the
      empty caption; the other optional entries are `None`, `Absent` or `NoClass`. */
  datatype MenuItem = MenuItem(
    key: Key,
    caption: string,
    url: Option<string>,
    icon: Option<string>,
    itemType: Option<string>,
    children: Children,
    itemClass: CssValue,
    linkClass: CssValue,
    show: Flag,
    active: Flag,
    disabled: Flag)

  /** `(string) $key`: the key as `buildMenuItems` stamps it onto the item. */
  function KeyString(k: Key): (r: string)
    ensures k.StrKey? ==> r == k.s
    ensures k.IntKey? && k.n >= 0 ==> r == NatToString(k.n)
    ensures k.IntKey? && k.n < 0 ==> r == "-" + NatToString(-k.n)
  {
    match k
    case IntKey(n) => IntToString(n)
    case StrKey(s) => s
  }

  /** The item's type, 'link' when none is given. */
  function TypeOf(item: MenuItem): string
  {
    item.itemType.GetOr(TypeLink)
  }

  /** `!empty($item['children'])`. */
  predicate HasChildren(item: MenuItem)
  {
    item.children.ChildList? && |item.children.items| > 0
  }

  /** `itemShow`: an item is hidden only by a literal `false` or by a callable that
      returns something falsy; a missing entry and every other value leave it shown. */
  function ItemShow(item: MenuItem): (r: bool)
    ensures !r <==> item.show == Literal(false) || item.show == Supplier(false)
    ensures item.show.Absent? || item.show.OtherValue? || item.show == Literal(true) ==> r
  {
    if item.show == Literal(false) then false
    else if item.show.Supplier? && !item.show.result then false
    else true
  }

  /** `itemDisabled`: the 'disabled' type, a literal `true`, or a callable returning
      something truthy. */
  function ItemDisabled(item: MenuItem): (r: bool)
    ensures r <==> TypeOf(item) == TypeDisabled || item.disabled == Literal(true) || item.disabled == Supplier(true)
    ensures item.disabled.OtherValue? ==> (r <==> TypeOf(item) == TypeDisabled)
  {
    if item.itemType == Some(TypeDisabled) then true
    else if item.disabled == Literal(true) || (item.disabled.Supplier? && item.disabled.result) then true
    else false
  }

  /** `(string) ($this->activeKeys[$level] ?? null)`: the active key of a level, "" for
      a level the active path does not reach. */
  function ActiveKeyAt(activeKeys: seq<string>, level: nat): (r: string)
    ensures level < |activeKeys| ==> r == activeKeys[level]
    ensures level >= |activeKeys| ==> r == ""
  {
    if level < |activeKeys| then activeKeys[level] else ""
  }

  /** `isActiveItem`: a literal `true`, a callable returning something truthy, or the
      active key of the item's own level equal to the item's key. Only that level's key
      is compared; the keys of the item's ancestors play no part. */
  function IsActive(activeKeys: seq<string>, item: MenuItem, level: nat): (r: bool)
    ensures r <==> item.active == Literal(true) || item.active == Supplier(true)
                   || ActiveKeyAt(activeKeys, level) == KeyString(item.key)
  {
    if item.active == Literal(true) then true
    else if item.active.Supplier? && item.active.result then true
    else ActiveKeyAt(activeKeys, level) == KeyString(item.key)
  }

  /** A class value that `cssClass` normalises to nothing: null, a falsy string, or an
      array whose elements are all falsy. */
  predicate IsEmptyClass(v: CssValue)
  {
    match v
    case NoClass => true
    case ClassString(s) => !TruthyString(s)
    case ClassList(parts) => forall i :: 0 <= i < |parts| ==> !TruthyString(parts[i])
  }

  /** `cssClass`: "" for an empty class value; otherwise one leading space and the
      trimmed class string, an array being first space-joined without its falsy elements. */
  function CssClass(v: CssValue): (r: string)
    ensures r == "" <==> IsEmptyClass(v)
    ensures r != "" ==> r[0] == ' '
    ensures v.ClassString? && TruthyString(v.s) ==> r == " " + Trim(v.s)
    ensures v.ClassList? && !IsEmptyClass(v) ==> r == " " + Trim(Join(" ", KeepTruthy(v.parts)))
  {
    var s := match v
      case NoClass => ""
      case ClassString(s) => s
      case ClassList(parts) => Join(" ", KeepTruthy(parts));
    ClassListTruthy(v);
    if !TruthyString(s) then "" else " " + Trim(s)
  }

  /** An array class value joins to a truthy string exactly when one of its elements
      is truthy. */
  lemma ClassListTruthy(v: CssValue)
    ensures v.ClassList? ==> (TruthyString(Join(" ", KeepTruthy(v.parts))) <==> !IsEmptyClass(v))
  {
    if v.ClassList? {
      JoinTruthy(" ", KeepTruthy(v.parts));
      if !IsEmptyClass(v) {
        var i :| 0 <= i < |v.parts| && TruthyString(v.parts[i]);
        assert v.parts[i] in KeepTruthy(v.parts);
      }
    }
  }

  /** The first entry of an icon table with the given key (`$defaultIcon[$key] ?? ...`). */
  function IconLookup(entries: seq<IconEntry>, key: IconKey): (r: Option<string>)
    ensures r.Some? <==> exists i :: 0 <= i < |entries| && entries[i].key == key
    ensures r.Some? ==> IconEntry(key, r.value) in entries
  {
    if |entries| == 0 then None
    else if entries[0].key == key then Some(entries[0].icon)
    else
      var r := IconLookup(entries[1..], key);
      assert forall i :: 1 <= i < |entries| ==> entries[i] == entries[1..][i - 1];
      r
  }

  /** The whole `defaultIcon` as the item's icon. */
  function WholeDefault(d: DefaultIcon): Icon
  {
    match d
    case NoDefaultIcon => NoIcon
    case IconName(s) => IconText(s)
    case IconTable(e) => IconArray(e)
  }

  /** `$defaultIcon[$level] ?? $defaultIcon['default'] ?? null`. On a string this reads a
      string offset: the one character at position `level`, if there is one; a string
      has no 'default' offset. */
  function LevelIcon(d: DefaultIcon, level: nat): (r: Icon)
    ensures d.NoDefaultIcon? ==> r == NoIcon
    ensures d.IconName? ==> r == if level < |d.name| then IconText([d.name[level]]) else NoIcon
    ensures d.IconTable? && IconLookup(d.entries, LevelKey(level)).Some? ==>
      r == IconText(IconLookup(d.entries, LevelKey(level)).value)
    ensures d.IconTable? && IconLookup(d.entries, LevelKey(level)).None? ==>
      r == if IconLookup(d.entries, DefaultKey).Some? then IconText(IconLookup(d.entries, DefaultKey).value) else NoIcon
  {
    match d
    case NoDefaultIcon => NoIcon
    case IconName(s) => if level < |s| then IconText([s[level]]) else NoIcon
    case IconTable(e) =>
      match IconLookup(e, LevelKey(level))
      case Some(i) => IconText(i)
      case None =>
        match IconLookup(e, DefaultKey)
        case Some(i) => IconText(i)
        case None => NoIcon
  }

  /** The icon lines of `buildMenuItem` as PHP groups them:
      `($item['icon'] ?? is_string($d)) ? $d : ($d[$level] ?? $d['default'] ?? null)`.
      So an item without an icon takes a string `defaultIcon` whole; an item with a
      truthy icon takes `defaultIcon` whole in place of its own; the per-level lookup is
      reached only when the condition is falsy. */
  function ResolveIcon(itemIcon: Option<string>, d: DefaultIcon, level: nat): (r: Icon)
    ensures itemIcon.None? && d.IconName? ==> r == IconText(d.name)
    ensures itemIcon.Some? && TruthyString(itemIcon.value) ==> r == WholeDefault(d)
    ensures itemIcon.None? && !d.IconName? ==> r == LevelIcon(d, level)
    ensures itemIcon.Some? && !TruthyString(itemIcon.value) ==> r == LevelIcon(d, level)
    ensures r.IconText? && itemIcon.Some? && r.text == itemIcon.value ==>
      d.IconName? || d.IconTable?
  {
    var condition := match itemIcon
      case Some(s) => TruthyString(s)
      case None => d.IconName?;
    if condition then WholeDefault(d) else LevelIcon(d, level)
  }

  /** `empty($item['icon'])` after resolution. */
  predicate IconIsEmpty(i: Icon)
  {
    match i
    case NoIcon => true
    case IconText(s) => !TruthyString(s)
    case IconArray(e) => |e| == 0
  }

  /** The string a resolved icon puts in the `icon` template. An array is joined without
      separator, as the template engine does with array values. */
  function IconString(i: Icon): string
  {
    match i
    case NoIcon => ""
    case IconText(s) => s
    case IconArray(e) => IconValues(e)
  }

  function IconValues(e: seq<IconEntry>): string
  {
    if |e| == 0 then "" else e[0].icon + IconValues(e[1..])
  }
}
