/**
 * A column header (`outerbase-th`): its option lists (read-only variant,
 * plugin entry spliced in at index 2, trailing revert), the dispatch of menu
 * choices to column and plugin events with their error cases, click-to-sort,
 * and the resize handlers, with widths in whole pixels.
 *
 * As for cells, the `MutableElement` base class is not part of this model: a
 * header is assumed dirty exactly when its `value` getter's text differs
 * from its `originalValue` getter's text, and its change notification is the header's own
 * `dispatchChangedEvent`.
 */
module Headers {
  import opened Wrappers
  import opened JsValues
  import opened Events
  import opened Menus

  const SortAscending := "sort:alphabetical:ascending"
  const MissingOriginalMessage := "missing OG value"

  /** The header's base menu: sort both ways, hide, rename unless read-only, delete. */
  function HeaderOptions(readonly: bool): (r: seq<MenuOption>)
    ensures Values(r) == if readonly then [SortAscending, "sort:alphabetical:descending", "hide", "delete"]
                         else [SortAscending, "sort:alphabetical:descending", "hide", "rename", "delete"]
    ensures forall i :: 0 <= i < |r| ==> r[i].options.None? && r[i].caption.Text?
    ensures r[|r| - 1].classes == Some("text-red-600")
  {
    var front := [Leaf("Sort A-Z", SortAscending), Leaf("Sort Z-A", "sort:alphabetical:descending"), Leaf("Hide Column", "hide")];
    var delete := MenuOption(Text("Delete Column"), "delete", None, Some("text-red-600"));
    if readonly then front + [delete] else front + [Leaf("Rename Column", "rename"), delete]
  }

  /** The read-only list is the writable one without `rename`, which sits at index 3. */
  lemma ReadonlyDropsRename()
    ensures HeaderOptions(true) == HeaderOptions(false)[..3] + HeaderOptions(false)[4..]
    ensures HeaderOptions(false)[3].value == "rename"
  {
  }

  /** `plugins.filter((p) => !p.isDefault)`, with an absent list read as empty. */
  function NonDefault(plugins: seq<ColumnPlugin>): (r: seq<ColumnPlugin>)
    ensures |r| <= |plugins|
    ensures forall i :: 0 <= i < |r| ==> !r[i].isDefault && r[i] in plugins
    ensures forall p :: p in plugins && !p.isDefault ==> p in r
  {
    if plugins == [] then []
    else (if plugins[0].isDefault then [] else [plugins[0]]) + NonDefault(plugins[1..])
  }

  /** Filtering keeps the order: a plugin added at the end lands at the end, if it is kept. */
  lemma {:induction false} NonDefaultAppend(plugins: seq<ColumnPlugin>, p: ColumnPlugin)
    ensures NonDefault(plugins + [p]) == NonDefault(plugins) + (if p.isDefault then [] else [p])
  {
    if plugins != [] {
      assert (plugins + [p])[1..] == plugins[1..] + [p];
      NonDefaultAppend(plugins[1..], p);
    } else {
      assert NonDefault([p]) == (if p.isDefault then [] else [p]) + NonDefault([]);
    }
  }

  /** One plugin option per entry: label `displayName`, value `tagName`. */
  function PluginEntries(plugins: seq<ColumnPlugin>): (r: seq<MenuOption>)
    ensures |r| == |plugins|
    ensures forall i :: 0 <= i < |r| ==> r[i] == Leaf(plugins[i].displayName, plugins[i].tagName)
  {
    if plugins == [] then [] else [Leaf(plugins[0].displayName, plugins[0].tagName)] + PluginEntries(plugins[1..])
  }

  /** `willUpdate`'s `_pluginOptions`: the non-default plugins, in order, as menu options. */
  function PluginOptions(plugins: Option<seq<ColumnPlugin>>): (r: seq<MenuOption>)
    ensures plugins.None? ==> r == []
    ensures plugins.Some? ==> r == PluginEntries(NonDefault(plugins.value))
  {
    match plugins
    case None => []
    case Some(ps) => PluginEntries(NonDefault(ps))
  }

  /** A plugin contributes an option exactly when it is not a default plugin. */
  lemma PluginOfferedIffNotDefault(plugins: seq<ColumnPlugin>, p: ColumnPlugin)
    requires p in plugins
    ensures !p.isDefault ==> Leaf(p.displayName, p.tagName) in PluginOptions(Some(plugins))
    ensures (forall q :: q in plugins && q.tagName == p.tagName ==> q.isDefault) ==>
              forall o :: o in PluginOptions(Some(plugins)) ==> o.value != p.tagName
  {
    var kept := NonDefault(plugins);
    var opts := PluginOptions(Some(plugins));
    if !p.isDefault {
      var i :| 0 <= i < |kept| && kept[i] == p;
      assert opts[i] == Leaf(p.displayName, p.tagName);
    }
    forall o | o in opts
      ensures exists q :: q in kept && o.value == q.tagName
    {
      var i :| 0 <= i < |opts| && opts[i] == o;
      assert o.value == kept[i].tagName;
    }
  }

  /** `xs.splice(at, 0, x)` on a copy: the entry goes at `at`, or at the end when the list is shorter. */
  function InsertAt<T>(xs: seq<T>, at: nat, x: T): (r: seq<T>)
    ensures |r| == |xs| + 1
    ensures var k := if at <= |xs| then at else |xs|;
            r[..k] == xs[..k] && r[k] == x && r[k + 1..] == xs[k..]
  {
    var k := if at <= |xs| then at else |xs|;
    xs[..k] + [x] + xs[k..]
  }

  /** Taking the entry back out again gives the original list. */
  lemma RemoveInserted<T>(xs: seq<T>, at: nat, x: T)
    ensures var k := if at <= |xs| then at else |xs|;
            InsertAt(xs, at, x)[..k] + InsertAt(xs, at, x)[k + 1..] == xs
  {
    var k := if at <= |xs| then at else |xs|;
    assert xs[..k] + xs[k..] == xs;
  }

  /** Whether the column has an installed plugin that is not the default one. */
  predicate HasPlugin(installed: map<string, Installation>, name: string) {
    name in installed && !installed[name].isDefaultPlugin
  }

  /** The revert entry, showing the original value. */
  function RevertEntry(originalValue: Option<string>): MenuOption {
    MenuOption(RevertTo(OfOptional(originalValue)), "reset", None, None)
  }

  /** The entry spliced in when plugins exist: remove the installed plugin, or choose one. */
  function PluginEntry(hasPlugin: bool, pluginOptions: seq<MenuOption>): MenuOption {
    if hasPlugin then MenuOption(RemovePlugin, "uninstall-column-plugin", None, None)
    else MenuOption(PluginsSubmenu, "plugins", Some(pluginOptions), None)
  }

  /** The options `render` hands to the header menu. */
  function HeaderMenu(options: seq<MenuOption>, dirty: bool, originalValue: Option<string>,
                      pluginOptions: seq<MenuOption>, hasPlugin: bool): (r: seq<MenuOption>)
    ensures var base := if dirty then options + [RevertEntry(originalValue)] else options;
            && (pluginOptions == [] ==> r == base)
            && (pluginOptions != [] ==> r == InsertAt(base, 2, PluginEntry(hasPlugin, pluginOptions)))
  {
    var base := if dirty then options + [RevertEntry(originalValue)] else options;
    if |pluginOptions| > 0 then InsertAt(base, 2, PluginEntry(hasPlugin, pluginOptions)) else base
  }

  /** With plugins the third entry is the plugin entry; a dirty header's list ends with the revert entry. */
  lemma HeaderMenuLayout(readonly: bool, dirty: bool, originalValue: Option<string>,
                         pluginOptions: seq<MenuOption>, hasPlugin: bool)
    ensures var base := HeaderOptions(readonly);
            var r := HeaderMenu(base, dirty, originalValue, pluginOptions, hasPlugin);
            && |r| == |base| + (if dirty then 1 else 0) + (if pluginOptions == [] then 0 else 1)
            && (pluginOptions != [] ==> r[2] == PluginEntry(hasPlugin, pluginOptions) && r[..2] == base[..2])
            && (dirty ==> r[|r| - 1] == RevertEntry(originalValue))
  {
    var base := HeaderOptions(readonly);
    var withReset := if dirty then base + [RevertEntry(originalValue)] else base;
    var r := HeaderMenu(base, dirty, originalValue, pluginOptions, hasPlugin);
    assert |base| >= 4;
    if pluginOptions != [] {
      assert r == withReset[..2] + [PluginEntry(hasPlugin, pluginOptions)] + withReset[2..];
      assert r[|r| - 1] == withReset[|withReset| - 1];
    }
  }

  /** The entries of a spliced list are those of the list and the inserted one. */
  lemma InsertedMembers<T>(xs: seq<T>, at: nat, x: T)
    ensures forall o :: o in InsertAt(xs, at, x) <==> o in xs || o == x
  {
    var k := if at <= |xs| then at else |xs|;
    assert xs == xs[..k] + xs[k..];
  }

  lemma NoResetInHeaderOptions(readonly: bool)
    ensures forall o :: o in HeaderOptions(readonly) ==> o.value != "reset"
  {
    var base := HeaderOptions(readonly);
    assert forall i :: 0 <= i < |base| ==> base[i].value == Values(base)[i];
  }

  /** "reset" is offered exactly when the header is dirty. */
  lemma HeaderResetIffDirty(readonly: bool, dirty: bool, originalValue: Option<string>,
                            pluginOptions: seq<MenuOption>, hasPlugin: bool)
    ensures var r := HeaderMenu(HeaderOptions(readonly), dirty, originalValue, pluginOptions, hasPlugin);
            dirty <==> exists i :: 0 <= i < |r| && r[i].value == "reset"
  {
    var base := HeaderOptions(readonly);
    var withReset := if dirty then base + [RevertEntry(originalValue)] else base;
    var entry := PluginEntry(hasPlugin, pluginOptions);
    var r := HeaderMenu(base, dirty, originalValue, pluginOptions, hasPlugin);
    NoResetInHeaderOptions(readonly);
    InsertedMembers(withReset, 2, entry);
    assert forall o :: o in r ==> o in withReset || o == entry;
    assert RevertEntry(originalValue) in r <== dirty;
    assert forall o :: o in r && o.value == "reset" ==> dirty;
  }

  /** `this.plugins?.find(({ tagName }) => value === tagName)` */
  function FindPlugin(plugins: seq<ColumnPlugin>, tagName: string): (r: Option<ColumnPlugin>)
    ensures r.None? <==> forall p :: p in plugins ==> p.tagName != tagName
    ensures r.Some? ==> r.value in plugins && r.value.tagName == tagName
    ensures r.Some? ==> exists i :: 0 <= i < |plugins| && plugins[i] == r.value &&
                                    forall j :: 0 <= j < i ==> plugins[j].tagName != tagName
  {
    if plugins == [] then None
    else if plugins[0].tagName == tagName then Some(plugins[0])
    else
      var r := FindPlugin(plugins[1..], tagName);
      assert r.Some? ==> exists i :: 1 <= i < |plugins| && plugins[i] == r.value &&
                                     forall j :: 0 <= j < i ==> plugins[j].tagName != tagName by {
        if r.Some? {
          var i :| 0 <= i < |plugins[1..]| && plugins[1..][i] == r.value &&
                   forall j :: 0 <= j < i ==> plugins[1..][j].tagName != tagName;
          assert plugins[i + 1] == r.value;
          assert forall j :: 0 <= j < i + 1 ==> plugins[j].tagName != tagName by {
            forall j | 0 <= j < i + 1
              ensures plugins[j].tagName != tagName
            {
              if j > 0 { assert plugins[j] == plugins[1..][j - 1]; }
            }
          }
        }
      }
      r
  }

  /** A menu choice as the header's `onMenuSelection` tells them apart. */
  datatype HeaderChoice =
    | PickPlugin(plugin: ColumnPlugin)
    | PickUninstall
    | PickHide
    | PickRename
    | PickDelete
    | PickReset
    | PickOther(action: string)

  /** A plugin's tag name takes precedence over every fixed value. */
  function ChoiceOf(plugins: Option<seq<ColumnPlugin>>, value: string): (c: HeaderChoice)
    ensures c.PickPlugin? <==> plugins.Some? && FindPlugin(plugins.value, value).Some?
    ensures c.PickPlugin? ==> c.plugin == FindPlugin(plugins.value, value).value
    ensures !c.PickPlugin? ==>
              && (c == PickUninstall <==> value == "uninstall-column-plugin")
              && (c == PickHide <==> value == "hide")
              && (c == PickRename <==> value == "rename")
              && (c == PickDelete <==> value == "delete")
              && (c == PickReset <==> value == "reset")
              && (c.PickOther? ==> c.action == value)
  {
    var found := if plugins.Some? then FindPlugin(plugins.value, value) else None;
    if found.Some? then PickPlugin(found.value)
    else if value == "uninstall-column-plugin" then PickUninstall
    else if value == "hide" then PickHide
    else if value == "rename" then PickRename
    else if value == "delete" then PickDelete
    else if value == "reset" then PickReset
    else PickOther(value)
  }

  /** `originalValue ?? value ?? ''` */
  function ColumnName(originalValue: Option<string>, value: Option<string>): (name: string)
    ensures originalValue.Some? ==> name == originalValue.value
    ensures originalValue.None? && value.Some? ==> name == value.value
    ensures originalValue.None? && value.None? ==> name == ""
  {
    originalValue.GetOr(value.GetOr(""))
  }

  /** `{ name, data: { action } }` of a `column-updated` event. */
  function ActionEvent(name: string, action: string): Notification {
    ColumnUpdated(ColumnAttributes(name, Some(map["action" := Str(action)])))
  }

  /** What a menu choice does: the events, in order, a new `value` if one is newValue, and `isEditing`. */
  datatype HeaderEffect = HeaderEffect(events: seq<Notification>, newValue: Option<string>, isEditing: bool)

  /** The effect of `choice` on a header whose texts are `originalValue` and `value`. */
  function SelectionEffect(choice: HeaderChoice, originalValue: Option<string>, value: Option<string>,
                           isEditing: bool, installed: map<string, Installation>): (r: Result<HeaderEffect>)
    ensures r.Raised? ==> choice in {PickUninstall, PickHide, PickDelete}
    ensures r.Ok? ==> r.value.isEditing == (isEditing || choice == PickRename)
    ensures r.Ok? ==> (r.value.newValue.Some? <==> choice == PickReset)
  {
    var name := ColumnName(originalValue, value);
    match choice
    case PickPlugin(p) => Ok(HeaderEffect([ColumnPluginActivated(name, PluginActivation(p, name))], None, isEditing))
    case PickUninstall =>
      if name !in installed then Raised("Attempting to uninstall a non-existent plugin on " + name)
      else Ok(HeaderEffect([ColumnPluginDeactivated(name, installed[name]), ActionEvent(name, "uninstall-column-plugin")], None, isEditing))
    case PickHide =>
      if !TruthyString(originalValue) then Raised(MissingOriginalMessage)
      else Ok(HeaderEffect([ColumnHidden(ColumnAttributes(originalValue.value, None))], None, isEditing))
    case PickRename => Ok(HeaderEffect([], None, true))
    case PickDelete =>
      if !TruthyString(originalValue) then Raised(MissingOriginalMessage)
      else Ok(HeaderEffect([ColumnRemoved(ColumnAttributes(originalValue.value, None))], None, isEditing))
    case PickReset =>
      Ok(HeaderEffect([ColumnRename(ColumnAttributes(originalValue.GetOr(""), Some(map["value" := OfOptional(value)])))],
                      Some(originalValue.GetOr("")), isEditing))
    case PickOther(action) => Ok(HeaderEffect([ActionEvent(name, action)], None, isEditing))
  }

  /**
   * The error cases (an uninstall with nothing installed, hide or delete
   * without an original name) and, otherwise, the events of each choice.
   */
  lemma SelectionOutcomes(choice: HeaderChoice, originalValue: Option<string>, value: Option<string>,
                          isEditing: bool, installed: map<string, Installation>)
    ensures var r := SelectionEffect(choice, originalValue, value, isEditing, installed);
            var name := ColumnName(originalValue, value);
            && (r.Raised? <==> (choice == PickUninstall && name !in installed)
                               || (choice in {PickHide, PickDelete} && !TruthyString(originalValue)))
            && (r.Raised? && choice == PickUninstall ==> r.message == "Attempting to uninstall a non-existent plugin on " + name)
            && (r.Raised? && choice != PickUninstall ==> r.message == MissingOriginalMessage)
            && (r.Ok? ==> r.value.isEditing == (isEditing || choice == PickRename))
            && (r.Ok? ==> (r.value.newValue.Some? <==> choice == PickReset))
            // a plugin activation, and nothing else
            && (choice.PickPlugin? ==>
                  r == Ok(HeaderEffect([ColumnPluginActivated(name, PluginActivation(choice.plugin, name))], None, isEditing)))
            // deactivation, then the fall-through `column-updated`
            && (choice == PickUninstall && r.Ok? ==>
                  r.value.events == [ColumnPluginDeactivated(name, installed[name]), ActionEvent(name, "uninstall-column-plugin")])
            && (choice == PickHide && r.Ok? ==> r.value.events == [ColumnHidden(ColumnAttributes(originalValue.value, None))])
            && (choice == PickDelete && r.Ok? ==> r.value.events == [ColumnRemoved(ColumnAttributes(originalValue.value, None))])
            && (choice == PickRename ==> r == Ok(HeaderEffect([], None, true)))
            && (choice == PickReset ==>
                  r == Ok(HeaderEffect([ColumnRename(ColumnAttributes(originalValue.GetOr(""), Some(map["value" := OfOptional(value)])))],
                                       Some(originalValue.GetOr("")), isEditing)))
            && (choice.PickOther? ==> r == Ok(HeaderEffect([ActionEvent(name, choice.action)], None, isEditing)))
  {
  }

  /** Every choice that does not raise emits at most two events, and only uninstalling emits two. */
  lemma EventsPerChoice(plugins: Option<seq<ColumnPlugin>>, v: string, originalValue: Option<string>, value: Option<string>,
                        isEditing: bool, installed: map<string, Installation>)
    ensures var c := ChoiceOf(plugins, v);
            var r := SelectionEffect(c, originalValue, value, isEditing, installed);
            r.Ok? ==> |r.value.events| == (if c == PickUninstall then 2 else if c == PickRename then 0 else 1)
  {
  }

  /** A sort chosen from the menu reaches the table as a `column-updated` carrying that action. */
  lemma MenuSortPassesThrough(plugins: Option<seq<ColumnPlugin>>, originalValue: Option<string>, value: Option<string>,
                              isEditing: bool, installed: map<string, Installation>)
    requires plugins.None? || forall p :: p in plugins.value ==> p.tagName != SortAscending
    ensures SelectionEffect(ChoiceOf(plugins, SortAscending), originalValue, value, isEditing, installed)
            == Ok(HeaderEffect([ActionEvent(ColumnName(originalValue, value), SortAscending)], None, isEditing))
  {
    assert ChoiceOf(plugins, SortAscending) == PickOther(SortAscending);
  }

  /** The event a click on the header dispatches, if any. */
  function SortClick(hasTrigger: bool, onResizer: bool, originalValue: Option<string>, value: Option<string>): (r: Option<Notification>)
    ensures r.Some? <==> !hasTrigger && !onResizer && TruthyString(if originalValue.Some? then originalValue else value)
    ensures r.Some? ==> r.value == ActionEvent(ColumnName(originalValue, value), SortAscending)
  {
    var name := if originalValue.Some? then originalValue else value;
    if !hasTrigger && TruthyString(name) && !onResizer then Some(ActionEvent(name.value, SortAscending)) else None
  }

  /** `dispatchChangedEvent`: a rename event from the original name, unless that is not a string. */
  function ChangedEvent(originalValue: Option<string>, value: Option<string>): (r: Option<Notification>)
    ensures r.None? <==> originalValue.None?
    ensures r.Some? ==> r.value.ColumnRename? && r.value.column == ColumnAttributes(originalValue.value, Some(map["name" := OfOptional(value)]))
  {
    match originalValue
    case None => None
    case Some(orig) => Some(ColumnRename(ColumnAttributes(orig, Some(map["name" := OfOptional(value)]))))
  }

  function EventList(n: Option<Notification>): seq<Notification> {
    match n
    case None => []
    case Some(e) => [e]
  }

  class TH {
    /** The `outerbase-th-menu` in the header's shadow root. */
    const menu: Menu
    /** `_value` and `_originalValue`, read through their `?.toString()` getters. */
    var stored: Value
    const storedOriginal: Value
    var isEditing: bool
    var readonly: bool
    const blank: bool
    const hasMenu: bool
    const installedPlugins: map<string, Installation>
    var plugins: Option<seq<ColumnPlugin>>
    var options: seq<MenuOption>
    var pluginOptions: seq<MenuOption>
    /** The width in pixels (the source keeps it as a `px` string); `None` when unset. */
    var width: Option<int>
    var previousWidth: int
    /** Events dispatched by the header, oldest first. */
    var log: seq<Notification>
    /** Lit recorded a change of `readonly`, resp. `plugins`, for the next update. */
    var readonlyChanged: bool
    var pluginsChanged: bool

    ghost predicate Valid()
      reads this`readonly, this`readonlyChanged, this`options, this`plugins, this`pluginsChanged, this`pluginOptions, menu
    {
      && menu.Valid()
      && (!readonlyChanged ==> options == HeaderOptions(readonly))
      && (!pluginsChanged ==> pluginOptions == PluginOptions(plugins))
    }

    /** The `value` getter. */
    function ValueText(): Option<string>
      reads this
    {
      OptionalText(stored)
    }

    /** The `originalValue` getter. */
    function OriginalText(): Option<string>
      reads this
    {
      OptionalText(storedOriginal)
    }

    /** Assumed: the base class's `dirty`, comparing `value` with `originalValue` through their getters. */
    predicate Dirty()
      reads this
    {
      ValueText() != OriginalText()
    }

    /** The option list bound to the header menu. */
    function RenderedOptions(): seq<MenuOption>
      reads this
    {
      HeaderMenu(options, Dirty(), OriginalText(), pluginOptions,
                 HasPlugin(installedPlugins, ColumnName(OriginalText(), ValueText())))
    }

    /** The header menu is rendered only on a non-blank header with a menu, outside editing. */
    predicate MenuShown()
      reads this
    {
      hasMenu && !blank && !isEditing
    }

    /** A new header: read-only by default, with the writable list until the first update replaces it. */
    constructor (menu: Menu, stored: Value, storedOriginal: Value, blank: bool, hasMenu: bool,
                 plugins: Option<seq<ColumnPlugin>>, installedPlugins: map<string, Installation>)
      requires menu.Valid()
      ensures Valid() && this.menu == menu
      ensures this.stored == stored && this.storedOriginal == storedOriginal && this.blank == blank && this.hasMenu == hasMenu
      ensures this.plugins == plugins && this.installedPlugins == installedPlugins
      ensures readonly && !isEditing && options == HeaderOptions(false) && pluginOptions == []
      ensures width.None? && previousWidth == 0 && log == [] && readonlyChanged && pluginsChanged
    {
      this.menu := menu;
      this.stored, this.storedOriginal, this.blank, this.hasMenu := stored, storedOriginal, blank, hasMenu;
      this.plugins, this.installedPlugins := plugins, installedPlugins;
      readonly, isEditing := true, false;
      options, pluginOptions := HeaderOptions(false), [];
      width, previousWidth, log := None, 0, [];
      readonlyChanged, pluginsChanged := true, true;
    }

    /** The `value` setter; the getter reads the string back. */
    method SetValue(s: string)
      modifies this`stored
      ensures stored == Str(s) && ValueText() == Some(s)
    {
      stored := Str(s);
    }

    method SetReadonly(v: bool)
      requires Valid()
      modifies this`readonly, this`readonlyChanged
      ensures Valid()
      ensures readonly == v && readonlyChanged == (old(readonlyChanged) || v != old(readonly))
    {
      if v != readonly {
        readonly := v;
        readonlyChanged := true;
      }
    }

    /** Assigning the `plugins` property (Lit compares by identity, so every assignment counts). */
    method SetPlugins(ps: Option<seq<ColumnPlugin>>)
      requires Valid()
      modifies this`plugins, this`pluginsChanged
      ensures Valid() && plugins == ps && pluginsChanged
    {
      plugins := ps;
      pluginsChanged := true;
    }

    /** `willUpdate`: rebuild the plugin options, resp. the base menu, when their inputs changed. */
    method Update()
      requires Valid()
      modifies this`options, this`pluginOptions, this`readonlyChanged, this`pluginsChanged
      ensures !readonlyChanged && !pluginsChanged
      ensures options == HeaderOptions(readonly) && pluginOptions == PluginOptions(plugins)
      ensures Valid()
    {
      if pluginsChanged {
        pluginOptions := PluginOptions(plugins);
      }
      if readonlyChanged {
        options := HeaderOptions(readonly);
      }
      readonlyChanged, pluginsChanged := false, false;
    }

    method DispatchChangedEvent()
      modifies this`log
      ensures log == old(log) + EventList(ChangedEvent(OriginalText(), ValueText()))
    {
      var orig := OriginalText();
      if orig.None? {
        return;
      }
      log := log + [ColumnRename(ColumnAttributes(orig.value, Some(map["name" := OfOptional(ValueText())])))];
    }

    method RemoveColumn() returns (outcome: Outcome)
      modifies this`log
      ensures outcome.Threw? <==> !TruthyString(OriginalText())
      ensures outcome.Threw? ==> outcome.message == MissingOriginalMessage && log == old(log)
      ensures outcome.Done? ==> log == old(log) + [ColumnRemoved(ColumnAttributes(OriginalText().value, None))]
    {
      var orig := OriginalText();
      if !TruthyString(orig) {
        return Threw(MissingOriginalMessage);
      }
      log := log + [ColumnRemoved(ColumnAttributes(orig.value, None))];
      outcome := Done;
    }

    method HideColumn() returns (outcome: Outcome)
      modifies this`log
      ensures outcome.Threw? <==> !TruthyString(OriginalText())
      ensures outcome.Threw? ==> outcome.message == MissingOriginalMessage && log == old(log)
      ensures outcome.Done? ==> log == old(log) + [ColumnHidden(ColumnAttributes(OriginalText().value, None))]
    {
      var orig := OriginalText();
      if !TruthyString(orig) {
        return Threw(MissingOriginalMessage);
      }
      log := log + [ColumnHidden(ColumnAttributes(orig.value, None))];
      outcome := Done;
    }

    /** A `menu-selection` event from the header menu; its propagation is always stopped. */
    method OnMenuSelection(v: string) returns (outcome: Outcome)
      modifies this`log, this`stored, this`isEditing
      ensures var r := SelectionEffect(ChoiceOf(plugins, v), old(OriginalText()), old(ValueText()), old(isEditing), installedPlugins);
              && outcome == r.ToOutcome()
              && log == old(log) + (if r.Ok? then r.value.events else [])
              && isEditing == (if r.Ok? then r.value.isEditing else old(isEditing))
              && stored == (if r.Ok? && r.value.newValue.Some? then Str(r.value.newValue.value) else old(stored))
    {
      var orig, text := OriginalText(), ValueText();
      var name := ColumnName(orig, text);
      var choice := ChoiceOf(plugins, v);
      if choice.PickPlugin? {
        log := log + [ColumnPluginActivated(name, PluginActivation(choice.plugin, name))];
        return Done;
      }
      if choice == PickUninstall {
        if name !in installedPlugins {
          return Threw("Attempting to uninstall a non-existent plugin on " + name);
        }
        log := log + [ColumnPluginDeactivated(name, installedPlugins[name])];
      }
      match choice
      case PickHide =>
        outcome := HideColumn();
      case PickRename =>
        isEditing := true;
        outcome := Done;
      case PickDelete =>
        outcome := RemoveColumn();
      case PickReset =>
        log := log + [ColumnRename(ColumnAttributes(orig.GetOr(""), Some(map["value" := OfOptional(text)])))];
        SetValue(orig.GetOr(""));
        outcome := Done;
      case PickUninstall =>
        log := log + [ActionEvent(name, v)];
        outcome := Done;
      case PickOther(action) =>
        log := log + [ActionEvent(name, action)];
        outcome := Done;
      case PickPlugin(_) =>
        assert false;
    }

    /** A click: sort ascending unless it hit the menu trigger or the resizer, or the header has no name. */
    method OnClick(hasTrigger: bool, onResizer: bool)
      modifies this`log
      ensures log == old(log) + EventList(SortClick(hasTrigger, onResizer, OriginalText(), ValueText()))
    {
      var name := if OriginalText().Some? then OriginalText() else ValueText();
      if !hasTrigger && TruthyString(name) && !onResizer {
        log := log + [ActionEvent(name.value, SortAscending)];
      }
    }

    /** A right click opens the header menu when it is rendered. */
    method OnContextMenu() returns (prevented: bool)
      requires Valid()
      modifies menu
      ensures Valid()
      ensures prevented <==> MenuShown()
      ensures prevented ==> menu.State() == old(menu.State()).(open := true, openChanged := old(menu.openChanged) || !old(menu.open))
      ensures !prevented ==> menu.State() == old(menu.State())
    {
      prevented := MenuShown();
      if prevented {
        menu.SetOpen(true);
      }
    }

    /** `resize-start`: remember the current width, 0 when there is none. */
    method OnResizeStart()
      modifies this`previousWidth
      ensures previousWidth == old(width).GetOr(0)
    {
      previousWidth := width.GetOr(0);
    }

    /** `resize`: `delta` is measured from where the drag started. */
    method OnResize(delta: int)
      modifies this`width
      ensures width == Some(previousWidth + delta)
    {
      width := Some(previousWidth + delta);
    }
  }

  /**
   * Resetting a header announces a rename carrying the text it had and sets `value` to the original
   * text, or to '' without one; it is clean afterwards exactly when the original value is not nullish.
   */
  method ResetRestoresOriginal(h: TH)
    requires h.Valid()
    requires h.plugins.None? || forall p :: p in h.plugins.value ==> p.tagName != "reset"
    modifies h`log, h`stored, h`isEditing
    ensures h.ValueText() == Some(h.OriginalText().GetOr(""))
    ensures h.Dirty() <==> IsNullish(h.storedOriginal)
    ensures h.isEditing == old(h.isEditing)
    ensures h.log == old(h.log) + [ColumnRename(ColumnAttributes(h.OriginalText().GetOr(""), Some(map["value" := OfOptional(old(h.ValueText()))])))]
  {
    assert ChoiceOf(h.plugins, "reset") == PickReset;
    var outcome := h.OnMenuSelection("reset");
  }

  /** A drag reports deltas from its start, so only the last delta counts. */
  method DragTwice(h: TH, first: int, second: int)
    modifies h`previousWidth, h`width
    ensures h.width == Some(old(h.width).GetOr(0) + second)
  {
    h.OnResizeStart();
    h.OnResize(first);
    h.OnResize(second);
  }
}
