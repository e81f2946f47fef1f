/** The `MenuHelper` object: the active path and the templater's templates are instance
    state that `render` and `activeItem` update and that outlives a render call. */
module Menu {
  import opened Php
  import opened StringTemplates
  import opened MenuItems
  import opened MenuTemplates
  import opened MenuRender

  class MenuHelper {
    /** `$activeKeys`: one key per depth level, set by `activeItem`. */
    var activeKeys: seq<string>
    /** The templater's patterns by name, as `setTemplates` leaves them. */
    var templates: map<string, Template>

    /** A fresh helper: no active path, the default templates. */
    constructor ()
      ensures activeKeys == []
      ensures templates == DefaultMap
    {
      activeKeys := [];
      templates := DefaultMap;
    }

    /** `activeItem`: the active path is the argument split on '.'. */
    method ActiveItem(keys: string)
      modifies this`activeKeys
      ensures activeKeys == Split(keys, '.')
      ensures Join(".", activeKeys) == keys
    {
      activeKeys := Split(keys, '.');
    }

    /** `render`: merges the options into the configuration, takes over a given
        `activeItem` (an earlier active path stays otherwise), adds the merged templates
        to the templater, and wraps the built items in the menu container. */
    method Render(items: seq<MenuItem>, options: RenderOptions, url: string -> string) returns (html: string)
      modifies this
      ensures activeKeys == if options.activeItem.Some? then Split(options.activeItem.value, '.') else old(activeKeys)
      ensures templates == old(templates) + MergedTemplates(options)
      ensures html == MenuHtml(Ctx(activeKeys, Select(MergedTemplates(options)), Resolve(options), url), items)
    {
      var config := Resolve(options);
      if options.activeItem.Some? {
        ActiveItem(options.activeItem.value);
      }
      // The configuration always carries `templates`, so the merged options always do.
      templates := templates + MergedTemplates(options);
      SelectAfterOverride(old(templates), MergedTemplates(options));
      var t := Select(templates);
      var body := BuildMenuItems(items, config, t, url, 0);
      html := Format(t.menuContainer, map["menuClass" := config.menuClass.GetOr(""), "items" := body]);
    }

    /** `buildMenuItems`: appends the markup of every shown item, in order. */
    method BuildMenuItems(items: seq<MenuItem>, config: Config, t: TemplateSet, url: string -> string, level: nat)
      returns (result: string)
      ensures result == ItemsHtml(Ctx(activeKeys, t, config, url), items, level)
      decreases items
    {
      result := "";
      var i := 0;
      while i < |items|
        invariant 0 <= i <= |items|
        invariant result == ItemsHtml(Ctx(activeKeys, t, config, url), items[..i], level)
      {
        var item := items[i];
        assert items[..i + 1][..i] == items[..i];
        if ItemShow(item) {
          var piece := BuildMenuItem(item, config, t, url, level);
          result := result + piece;
        }
        i := i + 1;
      }
      assert items[..|items|] == items;
    }

    /** `buildMenuItem`: title, divider and disabled items first, then the link with the
        resolved icon and, for an item with children, the nested list one level deeper. */
    method BuildMenuItem(item: MenuItem, config: Config, t: TemplateSet, url: string -> string, level: nat)
      returns (html: string)
      ensures html == ItemHtml(Ctx(activeKeys, t, config, url), item, level)
      decreases item
    {
      var hasChildren := HasChildren(item);
      var isChild := level > 0;
      var itemType := item.itemType.GetOr(TypeLink);
      if itemType == TypeTitle {
        return Format(t.menuTitle, map["text" := item.caption]);
      }
      if itemType == TypeDivider {
        return Format(t.divider, map[]);
      }
      if ItemDisabled(item) {
        var disabledItem := if isChild then t.dropdownItemDisabled else t.menuItemDisabled;
        return Format(disabledItem, map["text" := item.caption]);
      }
      var isActiveItem := IsActive(activeKeys, item, level);
      var icon := ResolveIcon(item.icon, config.defaultIcon, level);
      var itemLink := if isChild then t.dropdownItemLink else t.menuItemLink;
      var itemLinkNest := if isChild then t.dropdownItemLinkNest else t.menuItemLinkNest;
      var template := if hasChildren then itemLinkNest else itemLink;
      var activeClass := CssClass(if isActiveItem then config.activeClass else NoClass);
      var link := Format(template, map[
        "url" := url(item.url.GetOr("#")),
        "icon" := IconFragment(t, icon),
        "text" := item.caption,
        "activeClass" := activeClass,
        "linkClass" := CssClass(item.linkClass)]);
      var nest := "";
      if hasChildren {
        var children := BuildMenuItems(item.children.items, config, t, url, level + 1);
        nest := Format(t.dropdownContainer, map["items" := children]);
      }
      var containerTemplate := if isChild then t.dropdownItem else t.menuItem;
      html := Format(containerTemplate, map[
        "class" := CssClass(item.itemClass),
        "activeClass" := activeClass,
        "dropdownClass" := CssClass(if hasChildren then config.dropdownClass else NoClass),
        "dropdownOpenClass" := CssClass(if isActiveItem then config.dropdownOpenClass else NoClass),
        "text" := link,
        "nest" := nest]);
    }
  }
}
