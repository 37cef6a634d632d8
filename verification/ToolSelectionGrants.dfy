/** What a selection grants: enabled tools, defaults and opt-ins really are allowed, and nothing else with them. */
module ToolSelectionGrants {
  import opened Collections
  import opened ToolSelection
  import opened ToolSelectionProperties

  /** The identifier names a registered tool that the session may use. */
  predicate Names(c: Catalog, raw: Name, tool: Tool) {
    Lookup(c, raw) == Some(tool) && !c.hidden(tool.id) && c.available(tool.id)
  }

  /** Some identifier of the list names a tool that may be used. */
  ghost predicate NamesSome(c: Catalog, raws: seq<Name>) {
    exists raw, tool :: raw in raws && Names(c, raw, tool)
  }

  ghost predicate IsNamed(c: Catalog, raws: seq<Name>, id: Name) {
    exists raw, tool :: raw in raws && Names(c, raw, tool) && tool.id == id
  }

  /** Some identifier of the list finds a registered tool of this id that is not hidden. */
  ghost predicate IsDisabled(c: Catalog, raws: seq<Name>, id: Name) {
    exists raw, tool :: raw in raws && Lookup(c, raw) == Some(tool) && tool.id == id && !c.hidden(id)
  }

  lemma {:induction false} EnabledIs(c: Catalog, raws: seq<Name>, id: Name)
    ensures id in EnableSet(c, raws) <==>
            IsNamed(c, raws, id)
            || (id == c.specials.toolSearch
                && exists raw, tool :: raw in raws && Names(c, raw, tool) && tool.deferred)
    ensures EnableSet(c, raws) == {} <==> !NamesSome(c, raws)
  {
    hide EnableSet, Lookup;
    EnableMeans(c, raws, id);
    if NamesSome(c, raws) {
      var raw, tool :| raw in raws && Names(c, raw, tool);
      EnableMeans(c, raws, tool.id);
      assert tool.id in Enables(c, raw);
    }
    if EnableSet(c, raws) != {} {
      var x :| x in EnableSet(c, raws);
      EnableMeans(c, raws, x);
      var raw :| raw in raws && x in Enables(c, raw);
      assert Names(c, raw, Lookup(c, raw).value);
    }
    if id in EnableSet(c, raws) {
      var raw :| raw in raws && id in Enables(c, raw);
      assert Names(c, raw, Lookup(c, raw).value);
    }
    if IsNamed(c, raws, id) {
      var raw, tool :| raw in raws && Names(c, raw, tool) && tool.id == id;
      assert id in Enables(c, raw);
    }
    if id == c.specials.toolSearch && exists raw, tool :: raw in raws && Names(c, raw, tool) && tool.deferred {
      var raw, tool :| raw in raws && Names(c, raw, tool) && tool.deferred;
      assert id in Enables(c, raw);
    }
  }

  lemma {:induction false} DisabledIs(c: Catalog, raws: seq<Name>, id: Name)
    ensures id in DisableSet(c, raws) <==> IsDisabled(c, raws, id)
  {
    hide DisableSet, Lookup;
    DisableMeans(c, raws, id);
    if IsDisabled(c, raws, id) {
      var raw, tool :| raw in raws && Lookup(c, raw) == Some(tool) && tool.id == id && !c.hidden(id);
      assert id in Disables(c, raw);
    }
  }

  lemma {:induction false} NotHidden(c: Catalog, id: Name)
    requires !c.hidden(id)
    ensures id !in HiddenIds(c, c.tools)
  {}

  // ----- main results

  /** Every usable tool that is named as enabled is in the base set, and allowed unless it is disabled as well. */
  lemma {:induction false} EnabledToolsAreAllowed(c: Catalog, f: Flags, raw: Name, tool: Tool)
    requires raw in f.enabled && Names(c, raw, tool)
    ensures tool.id in BaseAllowed(c, f)
    ensures !IsDisabled(c, f.disabled, tool.id) ==> tool.id in Allowed(c, f)
  {
    hide EnableSet, DisableSet, AdditiveSet, HiddenIds, ToolIds, SpecSet, IsDisabled, Lookup;
    assert IsNamed(c, f.enabled, tool.id);
    EnabledIs(c, f.enabled, tool.id);
    DisabledIs(c, f.disabled, tool.id);
    NotHidden(c, tool.id);
  }

  /**
   * When an enabled identifier names a usable tool, the defaults are gone: what is allowed is enabled, an
   * opt-in, a tool of Spec mode, Task, or the loader.
   */
  lemma {:induction false} EnablingReplacesTheDefaults(c: Catalog, f: Flags, id: Name)
    requires NamesSome(c, f.enabled) && id in Allowed(c, f)
    ensures || IsNamed(c, f.enabled, id) || IsNamed(c, f.additive, id)
            || (f.useSpec && (id == c.specials.exitSpecMode.id || id == c.specials.askUser.id))
            || id == c.specials.task.id || id == c.specials.toolSearch
  {
    hide EnableSet, DisableSet, AdditiveSet, HiddenIds, ToolIds, NamesSome, Lookup, IsNamed;
    EnabledIs(c, f.enabled, id);
    var disabled := DisableSet(c, f.disabled);
    if id in AdditiveSet(c, disabled, f.additive) && id != c.specials.toolSearch {
      AdditiveMeans(c, disabled, f.additive, id);
      var raw :| raw in f.additive && id in Adds(c, disabled, raw);
      IsNamedBy(c, f.additive, raw, Lookup(c, raw).value);
    }
  }

  lemma {:induction false} IsNamedBy(c: Catalog, raws: seq<Name>, raw: Name, tool: Tool)
    requires raw in raws && Names(c, raw, tool)
    ensures IsNamed(c, raws, tool.id)
  {}

  /** Without a usable enabled tool, every visible registered tool but Task is allowed with --auto or without permissions. */
  lemma {:induction false} DefaultIsEverything(c: Catalog, f: Flags, tool: Tool)
    requires !NamesSome(c, f.enabled) && (f.auto || f.skipPermissions)
    requires tool in c.tools && !c.hidden(tool.id) && tool.id != c.specials.task.id
    ensures tool.id in BaseAllowed(c, f)
    ensures tool.id in Allowed(c, f) || IsDisabled(c, f.disabled, tool.id)
  {
    hide EnableSet, DisableSet, AdditiveSet, HiddenIds, SpecSet, IsDisabled, NamesSome, Lookup;
    EnabledIs(c, f.enabled, tool.id);
    DisabledIs(c, f.disabled, tool.id);
    NotHidden(c, tool.id);
    assert tool.id in ToolIds(c.tools);
  }

  /** Otherwise every visible read-only tool but Task is. */
  lemma {:induction false} DefaultIsReadOnly(c: Catalog, f: Flags, id: Name)
    requires !NamesSome(c, f.enabled) && !f.auto && !f.skipPermissions
    requires id in c.readOnly && !c.hidden(id) && id != c.specials.task.id
    ensures id in BaseAllowed(c, f)
    ensures id in Allowed(c, f) || IsDisabled(c, f.disabled, id)
  {
    hide EnableSet, DisableSet, AdditiveSet, HiddenIds, SpecSet, IsDisabled, NamesSome, Lookup;
    EnabledIs(c, f.enabled, id);
    DisabledIs(c, f.disabled, id);
    NotHidden(c, id);
  }

  /** A usable opt-in other than Task is allowed unless it is disabled. */
  lemma {:induction false} OptInsAreAllowed(c: Catalog, f: Flags, raw: Name, tool: Tool)
    requires raw in f.additive && Names(c, raw, tool) && tool.id != c.specials.task.id
    ensures tool.id in Allowed(c, f) || IsDisabled(c, f.disabled, tool.id)
  {
    hide EnableSet, DisableSet, AdditiveSet, HiddenIds, SpecSet, IsDisabled, ToolIds, Lookup;
    DisabledIs(c, f.disabled, tool.id);
    NotHidden(c, tool.id);
    AdditiveMeans(c, DisableSet(c, f.disabled), f.additive, tool.id);
    if tool.id !in DisableSet(c, f.disabled) {
      assert tool.id in Adds(c, DisableSet(c, f.disabled), raw);
    }
  }

  /**
   * In Spec mode the tool that leaves it is allowed, even when it is disabled, and so is the one that asks the
   * user, unless that is disabled or not available. Outside Spec mode neither is added.
   */
  lemma {:induction false} SpecModeHasItsTools(c: Catalog, f: Flags)
    requires f.useSpec && c.specials.task.id !in {c.specials.exitSpecMode.id, c.specials.askUser.id}
    ensures !c.hidden(c.specials.exitSpecMode.id) ==>
              c.specials.exitSpecMode.id in Allowed(c, f) * BaseAllowed(c, f)
    ensures var ask := c.specials.askUser.id;
            !c.hidden(ask) && c.available(ask) && !IsDisabled(c, f.disabled, ask) ==>
              ask in Allowed(c, f) * BaseAllowed(c, f)
  {
    hide EnableSet, DisableSet, AdditiveSet, HiddenIds, IsDisabled, BaseSet;
    DisabledIs(c, f.disabled, c.specials.askUser.id);
    if !c.hidden(c.specials.exitSpecMode.id) { NotHidden(c, c.specials.exitSpecMode.id); }
    if !c.hidden(c.specials.askUser.id) { NotHidden(c, c.specials.askUser.id); }
  }

  /** At the top of the agent tree Task is allowed at high autonomy or without permissions, unless disabled. */
  lemma {:induction false} TaskAtTheTop(c: Catalog, f: Flags)
    requires f.depth == 0 && (f.autoHigh || f.skipPermissions) && !IsDisabled(c, f.disabled, c.specials.task.id)
    ensures c.specials.task.id in Allowed(c, f) * BaseAllowed(c, f)
  {
    hide EnableSet, DisableSet, AdditiveSet, HiddenIds, IsDisabled, BaseSet, SpecSet;
    DisabledIs(c, f.disabled, c.specials.task.id);
  }

  /** An identifier that names a hidden tool is refused, so what is selected hides none that was asked for. */
  lemma {:induction false} SelectedListsAreVisible(c: Catalog, f: Flags, raw: Name)
    requires Select(c, f).Selected? && raw in f.enabled + f.disabled
    ensures Lookup(c, raw).Some? && !c.hidden(Lookup(c, raw).value.id)
    ensures Select(c, f).allowed == Allowed(c, f) && Select(c, f).baseAllowed == BaseAllowed(c, f)
    ensures forall id :: id in Select(c, f).readOnly <==> id in c.readOnly && !Hides(c, id)
  {
    hide Allowed, BaseAllowed, Lookup, Unknowns, Hiddens, ReadOnlyIds;
    FailsExactlyWhen(c, f);
    assert IsKnown(c, raw) && !IsHidden(c, raw);
    forall id ensures id in ReadOnlyIds(c) <==> id in c.readOnly && !Hides(c, id) { ReadOnlyAre(c, id); }
  }

  /** The id belongs to a registered tool that is hidden. */
  predicate Hides(c: Catalog, id: Name) { exists tool :: tool in c.tools && tool.id == id && c.hidden(id) }

  lemma {:induction false} ReadOnlyAre(c: Catalog, id: Name)
    ensures id in ReadOnlyIds(c) <==> id in c.readOnly && !Hides(c, id)
  {}
}
