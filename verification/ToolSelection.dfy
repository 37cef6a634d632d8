/** Which tools a session may use: defaults by flags, explicit overrides, and additive opt-ins. */
module ToolSelection {
  import opened Collections

  datatype Name = Name(text: string)

  datatype Tool = Tool(id: Name, llmId: Option<Name>, deferred: bool)

  /** The tools with a rule of their own. */
  datatype Specials = Specials(toolSearch: Name, exitSpecMode: Tool, askUser: Tool, task: Tool)

  /** The registry and the runtime: availability for the active model is decided once per id. */
  datatype Catalog = Catalog(tools: seq<Tool>, readOnly: set<Name>, specials: Specials,
                             trim: Name -> Name, lower: Name -> Name, hidden: Name -> bool, available: Name -> bool)

  datatype Flags = Flags(enabled: seq<Name>, disabled: seq<Name>, additive: seq<Name>, allowCombined: bool,
                         auto: bool, autoHigh: bool, skipPermissions: bool, useSpec: bool, depth: nat)

  datatype Selection =
    | CombinedFlags
    | UnknownIdentifiers(raws: seq<Name>)
    | NotAvailable(raws: seq<Name>)
    | Selected(allowed: set<Name>, baseAllowed: set<Name>, readOnly: set<Name>)

  // ----- identifiers

  function LlmId(tool: Tool): Name { if tool.llmId.Some? then tool.llmId.value else tool.id }

  /** A later tool takes the identifiers of an earlier one. */
  function IdentifierMap(c: Catalog, tools: seq<Tool>): map<Name, Tool> {
    if tools == [] then map[]
    else
      var tool := Last(tools);
      IdentifierMap(c, Front(tools))[c.lower(tool.id) := tool][c.lower(LlmId(tool)) := tool]
  }

  function Lookup(c: Catalog, raw: Name): Option<Tool> {
    var m := IdentifierMap(c, c.tools);
    var key := c.lower(c.trim(raw));
    if key in m then Some(m[key]) else None
  }

  predicate Answers(c: Catalog, tool: Tool, key: Name) {
    key == c.lower(tool.id) || key == c.lower(LlmId(tool))
  }

  lemma {:induction false} MapHolds(c: Catalog, tools: seq<Tool>, key: Name)
    ensures key in IdentifierMap(c, tools) <==> exists tool :: tool in tools && Answers(c, tool, key)
    ensures key in IdentifierMap(c, tools) ==>
              IdentifierMap(c, tools)[key] in tools && Answers(c, IdentifierMap(c, tools)[key], key)
  {
    if tools != [] {
      MapHolds(c, Front(tools), key);
      assert tools == Front(tools) + [Last(tools)];
      assert Last(tools) in tools;
    }
  }

  /** An identifier finds a registered tool that answers to it, when there is one; when only one does, that one. */
  lemma {:induction false} LookupFinds(c: Catalog, raw: Name)
    ensures var key := c.lower(c.trim(raw));
            && (Lookup(c, raw).None? <==> forall tool :: tool in c.tools ==> !Answers(c, tool, key))
            && (Lookup(c, raw).Some? ==> Lookup(c, raw).value in c.tools && Answers(c, Lookup(c, raw).value, key))
  {
    MapHolds(c, c.tools, c.lower(c.trim(raw)));
  }

  // ----- sets in closed form

  function WithLoader(c: Catalog, tool: Tool): set<Name> {
    {tool.id} + if tool.deferred then {c.specials.toolSearch} else {}
  }

  predicate IsKnown(c: Catalog, raw: Name) { Lookup(c, raw).Some? }

  predicate IsHidden(c: Catalog, raw: Name) { Lookup(c, raw).Some? && c.hidden(Lookup(c, raw).value.id) }

  predicate IsUsable(c: Catalog, raw: Name) {
    Lookup(c, raw).Some? && !c.hidden(Lookup(c, raw).value.id) && c.available(Lookup(c, raw).value.id)
  }

  function Enables(c: Catalog, raw: Name): set<Name> {
    if IsUsable(c, raw) then WithLoader(c, Lookup(c, raw).value) else {}
  }

  function Disables(c: Catalog, raw: Name): set<Name> {
    if IsKnown(c, raw) && !IsHidden(c, raw) then {Lookup(c, raw).value.id} else {}
  }

  function Adds(c: Catalog, disabled: set<Name>, raw: Name): set<Name> {
    if IsUsable(c, raw) && Lookup(c, raw).value.id !in disabled then WithLoader(c, Lookup(c, raw).value) else {}
  }

  function EnableSet(c: Catalog, raws: seq<Name>): set<Name> {
    if raws == [] then {} else EnableSet(c, Front(raws)) + Enables(c, Last(raws))
  }

  function DisableSet(c: Catalog, raws: seq<Name>): set<Name> {
    if raws == [] then {} else DisableSet(c, Front(raws)) + Disables(c, Last(raws))
  }

  function AdditiveSet(c: Catalog, disabled: set<Name>, raws: seq<Name>): set<Name> {
    if raws == [] then {} else AdditiveSet(c, disabled, Front(raws)) + Adds(c, disabled, Last(raws))
  }

  function Unknowns(c: Catalog, raws: seq<Name>): seq<Name> {
    if raws == [] then []
    else if IsKnown(c, Last(raws)) then Unknowns(c, Front(raws))
    else Unknowns(c, Front(raws)) + [Last(raws)]
  }

  function Hiddens(c: Catalog, raws: seq<Name>): seq<Name> {
    if raws == [] then []
    else if IsHidden(c, Last(raws)) then Hiddens(c, Front(raws)) + [Last(raws)]
    else Hiddens(c, Front(raws))
  }

  function ToolIds(tools: seq<Tool>): set<Name> { set i | 0 <= i < |tools| :: tools[i].id }

  function HiddenIds(c: Catalog, tools: seq<Tool>): set<Name> {
    set i | 0 <= i < |tools| && c.hidden(tools[i].id) :: tools[i].id
  }

  function ReadOnlyIds(c: Catalog): set<Name> { c.readOnly - HiddenIds(c, c.tools) }

  /** What the flags give without explicit overrides. */
  function DefaultSet(c: Catalog, f: Flags): set<Name> {
    if f.skipPermissions || f.auto then ToolIds(c.tools) else ReadOnlyIds(c)
  }

  function BaseSet(c: Catalog, f: Flags): set<Name> {
    var enabled := EnableSet(c, f.enabled);
    if enabled != {} then enabled else DefaultSet(c, f)
  }

  function SpecSet(c: Catalog, f: Flags): set<Name> {
    if !f.useSpec then {}
    else
      WithLoader(c, c.specials.exitSpecMode)
      + if c.specials.askUser.id !in DisableSet(c, f.disabled) && c.available(c.specials.askUser.id)
        then WithLoader(c, c.specials.askUser)
        else {}
  }

  /** The sets before the rule for Task. */
  function AllowedBeforeTask(c: Catalog, f: Flags): set<Name> {
    var disabled := DisableSet(c, f.disabled);
    (BaseSet(c, f) - disabled) + AdditiveSet(c, disabled, f.additive) + SpecSet(c, f) - HiddenIds(c, c.tools)
  }

  function BaseBeforeTask(c: Catalog, f: Flags): set<Name> {
    BaseSet(c, f) + SpecSet(c, f) - HiddenIds(c, c.tools)
  }

  function TaskRule(c: Catalog, f: Flags, ids: set<Name>): set<Name> {
    var task := c.specials.task;
    if (f.autoHigh || f.skipPermissions) && f.depth == 0 && task.id !in DisableSet(c, f.disabled)
    then ids + WithLoader(c, task)
    else if task.id !in EnableSet(c, f.enabled) then ids - {task.id}
    else ids
  }

  predicate HasDeferred(tools: seq<Tool>, ids: set<Name>) {
    exists tool :: tool in tools && tool.id in ids && tool.deferred
  }

  function Allowed(c: Catalog, f: Flags): set<Name> {
    var ids := TaskRule(c, f, AllowedBeforeTask(c, f));
    if HasDeferred(c.tools, ids) then ids + {c.specials.toolSearch} else ids
  }

  function BaseAllowed(c: Catalog, f: Flags): set<Name> {
    var ids := TaskRule(c, f, BaseBeforeTask(c, f));
    if HasDeferred(c.tools, TaskRule(c, f, AllowedBeforeTask(c, f))) then ids + {c.specials.toolSearch} else ids
  }

  predicate Conflicts(f: Flags) { !f.allowCombined && f.enabled != [] && f.disabled != [] }

  function Select(c: Catalog, f: Flags): Selection {
    var unknown := Unknowns(c, f.enabled) + Unknowns(c, f.disabled);
    var hidden := Hiddens(c, f.enabled) + Hiddens(c, f.disabled);
    if Conflicts(f) then CombinedFlags
    else if unknown != [] then UnknownIdentifiers(unknown)
    else if hidden != [] then NotAvailable(hidden)
    else Selected(Allowed(c, f), BaseAllowed(c, f), ReadOnlyIds(c))
  }

  // ----- the loops

  method BuildIdentifierMap(c: Catalog) returns (m: map<Name, Tool>)
    ensures m == IdentifierMap(c, c.tools)
  {
    m := map[];
    for i := 0 to |c.tools|
      invariant m == IdentifierMap(c, c.tools[..i])
    {
      assert Front(c.tools[..i + 1]) == c.tools[..i];
      m := m[c.lower(c.tools[i].id) := c.tools[i]];
      m := m[c.lower(LlmId(c.tools[i])) := c.tools[i]];
    }
    assert c.tools[..|c.tools|] == c.tools;
  }

  method AddToolWithDeferredLoader(c: Catalog, target: set<Name>, tool: Tool) returns (more: set<Name>)
    ensures more == target + WithLoader(c, tool)
  {
    more := target + {tool.id};
    if tool.deferred {
      more := more + {c.specials.toolSearch};
    }
  }

  /** What an identifier map gives for a raw identifier. */
  predicate IsLookup(c: Catalog, m: map<Name, Tool>) {
    m == IdentifierMap(c, c.tools)
  }

  method ReadEnabled(c: Catalog, m: map<Name, Tool>, raws: seq<Name>)
    returns (enableSet: set<Name>, unknown: seq<Name>, disallowed: seq<Name>)
    requires IsLookup(c, m)
    ensures enableSet == EnableSet(c, raws) && unknown == Unknowns(c, raws) && disallowed == Hiddens(c, raws)
  {
    hide IdentifierMap;
    enableSet, unknown, disallowed := {}, [], [];
    for i := 0 to |raws|
      invariant enableSet == EnableSet(c, raws[..i])
      invariant unknown == Unknowns(c, raws[..i]) && disallowed == Hiddens(c, raws[..i])
    {
      assert Front(raws[..i + 1]) == raws[..i];
      var key := c.lower(c.trim(raws[i]));
      if key !in m {
        unknown := unknown + [raws[i]];
        continue;
      }
      if c.hidden(m[key].id) {
        disallowed := disallowed + [raws[i]];
        continue;
      }
      if !c.available(m[key].id) {
        continue;
      }
      enableSet := AddToolWithDeferredLoader(c, enableSet, m[key]);
    }
    assert raws[..|raws|] == raws;
  }

  method ReadDisabled(c: Catalog, m: map<Name, Tool>, raws: seq<Name>)
    returns (disableSet: set<Name>, unknown: seq<Name>, disallowed: seq<Name>)
    requires IsLookup(c, m)
    ensures disableSet == DisableSet(c, raws) && unknown == Unknowns(c, raws) && disallowed == Hiddens(c, raws)
  {
    hide IdentifierMap;
    disableSet, unknown, disallowed := {}, [], [];
    for i := 0 to |raws|
      invariant disableSet == DisableSet(c, raws[..i])
      invariant unknown == Unknowns(c, raws[..i]) && disallowed == Hiddens(c, raws[..i])
    {
      assert Front(raws[..i + 1]) == raws[..i];
      var key := c.lower(c.trim(raws[i]));
      if key !in m {
        unknown := unknown + [raws[i]];
        continue;
      }
      if c.hidden(m[key].id) {
        disallowed := disallowed + [raws[i]];
        continue;
      }
      disableSet := disableSet + {m[key].id};
    }
    assert raws[..|raws|] == raws;
  }

  method AddAdditive(c: Catalog, m: map<Name, Tool>, disableSet: set<Name>, raws: seq<Name>, ids: set<Name>)
    returns (allowed: set<Name>)
    requires IsLookup(c, m)
    ensures allowed == ids + AdditiveSet(c, disableSet, raws)
  {
    hide IdentifierMap;
    allowed := ids;
    for i := 0 to |raws|
      invariant allowed == ids + AdditiveSet(c, disableSet, raws[..i])
    {
      assert Front(raws[..i + 1]) == raws[..i];
      var key := c.lower(c.trim(raws[i]));
      if key !in m || c.hidden(m[key].id) || !c.available(m[key].id) || m[key].id in disableSet {
        continue;
      }
      allowed := AddToolWithDeferredLoader(c, allowed, m[key]);
    }
    assert raws[..|raws|] == raws;
  }

  method RemoveHidden(c: Catalog, ids: set<Name>) returns (kept: set<Name>)
    ensures kept == ids - HiddenIds(c, c.tools)
  {
    kept := ids;
    for i := 0 to |c.tools|
      invariant kept == ids - HiddenIds(c, c.tools[..i])
    {
      var before, after := c.tools[..i], c.tools[..i + 1];
      assert after[i] == c.tools[i] && forall j :: 0 <= j < i ==> before[j] == after[j];
      assert HiddenIds(c, after) == HiddenIds(c, before) + (if c.hidden(c.tools[i].id) then {c.tools[i].id} else {});
      if c.hidden(c.tools[i].id) {
        kept := kept - {c.tools[i].id};
      }
    }
    assert c.tools[..|c.tools|] == c.tools;
  }

  /** The sets of the selection, once the identifiers are known to be good. */
  method ApplyRules(c: Catalog, f: Flags, m: map<Name, Tool>, enableSet: set<Name>, disableSet: set<Name>,
                    readOnlyToolIds: set<Name>)
    returns (allowed: set<Name>, baseAllowed: set<Name>)
    requires IsLookup(c, m) && enableSet == EnableSet(c, f.enabled) && disableSet == DisableSet(c, f.disabled)
    requires readOnlyToolIds == ReadOnlyIds(c)
    ensures allowed == Allowed(c, f) && baseAllowed == BaseAllowed(c, f)
  {
    hide EnableSet, DisableSet, AdditiveSet, IdentifierMap, HiddenIds, ToolIds, SpecSet, TaskRule;
    var autoLevelBaseAllowed := if f.skipPermissions || f.auto then ToolIds(c.tools) else readOnlyToolIds;
    baseAllowed := if |enableSet| > 0 then enableSet else autoLevelBaseAllowed;
    allowed := baseAllowed + enableSet - disableSet;
    assert allowed == BaseSet(c, f) - disableSet;
    allowed := AddAdditive(c, m, disableSet, f.additive, allowed);
    allowed := AddSpecTools(c, f, disableSet, allowed);
    baseAllowed := AddSpecTools(c, f, disableSet, baseAllowed);
    allowed := RemoveHidden(c, allowed);
    baseAllowed := RemoveHidden(c, baseAllowed);
    assert allowed == AllowedBeforeTask(c, f) && baseAllowed == BaseBeforeTask(c, f);
    allowed := ApplyTaskRule(c, f, enableSet, disableSet, allowed);
    baseAllowed := ApplyTaskRule(c, f, enableSet, disableSet, baseAllowed);
    if exists tool :: tool in c.tools && tool.id in allowed && tool.deferred {
      allowed, baseAllowed := allowed + {c.specials.toolSearch}, baseAllowed + {c.specials.toolSearch};
    }
  }

  /** The tools of Spec mode go into one of the two sets. */
  method AddSpecTools(c: Catalog, f: Flags, disableSet: set<Name>, ids: set<Name>) returns (more: set<Name>)
    requires disableSet == DisableSet(c, f.disabled)
    ensures more == ids + SpecSet(c, f)
  {
    more := ids;
    if f.useSpec {
      more := AddToolWithDeferredLoader(c, more, c.specials.exitSpecMode);
      if c.specials.askUser.id !in disableSet && c.available(c.specials.askUser.id) {
        more := AddToolWithDeferredLoader(c, more, c.specials.askUser);
      }
    }
  }

  method ApplyTaskRule(c: Catalog, f: Flags, enableSet: set<Name>, disableSet: set<Name>, ids: set<Name>)
    returns (ruled: set<Name>)
    requires enableSet == EnableSet(c, f.enabled) && disableSet == DisableSet(c, f.disabled)
    ensures ruled == TaskRule(c, f, ids)
  {
    ruled := ids;
    if (f.autoHigh || f.skipPermissions) && f.depth == 0 && c.specials.task.id !in disableSet {
      ruled := AddToolWithDeferredLoader(c, ruled, c.specials.task);
    } else if c.specials.task.id !in enableSet {
      ruled := ruled - {c.specials.task.id};
    }
  }

  method ResolveToolSelection(c: Catalog, f: Flags) returns (selection: Selection)
    ensures selection == Select(c, f)
  {
    hide Allowed, BaseAllowed, EnableSet, DisableSet, Unknowns, Hiddens, IdentifierMap, HiddenIds;
    if !f.allowCombined && |f.enabled| > 0 && |f.disabled| > 0 {
      return CombinedFlags;
    }
    var identifierMap := BuildIdentifierMap(c);
    var readOnlyToolIds := RemoveHidden(c, c.readOnly);
    var enableSet, unknown, disallowed := ReadEnabled(c, identifierMap, f.enabled);
    var disableSet, moreUnknown, moreDisallowed := ReadDisabled(c, identifierMap, f.disabled);
    unknown, disallowed := unknown + moreUnknown, disallowed + moreDisallowed;
    if |unknown| > 0 {
      return UnknownIdentifiers(unknown);
    }
    if |disallowed| > 0 {
      return NotAvailable(disallowed);
    }
    var allowed, baseAllowed := ApplyRules(c, f, identifierMap, enableSet, disableSet, readOnlyToolIds);
    selection := Selected(allowed, baseAllowed, readOnlyToolIds);
  }
}

/** What a selection promises. */
module ToolSelectionProperties {
  import opened Collections
  import opened ToolSelection

  // ----- members of the sets

  lemma {:induction false} EnableMeans(c: Catalog, raws: seq<Name>, id: Name)
    ensures id in EnableSet(c, raws) <==> exists raw :: raw in raws && id in Enables(c, raw)
  {
    hide Enables;
    if raws != [] {
      EnableMeans(c, Front(raws), id);
      assert raws == Front(raws) + [Last(raws)];
    }
  }

  lemma {:induction false} DisableMeans(c: Catalog, raws: seq<Name>, id: Name)
    ensures id in DisableSet(c, raws) <==> exists raw :: raw in raws && id in Disables(c, raw)
  {
    hide Disables;
    if raws != [] {
      DisableMeans(c, Front(raws), id);
      assert raws == Front(raws) + [Last(raws)];
    }
  }

  lemma {:induction false} AdditiveMeans(c: Catalog, disabled: set<Name>, raws: seq<Name>, id: Name)
    ensures id in AdditiveSet(c, disabled, raws) <==> exists raw :: raw in raws && id in Adds(c, disabled, raw)
  {
    hide Adds;
    if raws != [] {
      AdditiveMeans(c, disabled, Front(raws), id);
      assert raws == Front(raws) + [Last(raws)];
    }
  }

  lemma {:induction false} AdditiveSparesDisabled(c: Catalog, disabled: set<Name>, raws: seq<Name>)
    ensures AdditiveSet(c, disabled, raws) * disabled <= {c.specials.toolSearch}
  {
    if raws != [] {
      AdditiveSparesDisabled(c, disabled, Front(raws));
    }
  }

  // ----- main results

  /** No disabled tool is allowed, but for the loader of deferred tools and the tool that leaves Spec mode. */
  lemma {:induction false} DisabledToolsAreNotAllowed(c: Catalog, f: Flags, id: Name)
    requires id in DisableSet(c, f.disabled) && id in Allowed(c, f)
    ensures id == c.specials.toolSearch || id == c.specials.exitSpecMode.id
  {
    hide EnableSet, DisableSet, AdditiveSet, HiddenIds, ToolIds;
    var disabled := DisableSet(c, f.disabled);
    AdditiveSparesDisabled(c, disabled, f.additive);
    assert id in AdditiveSet(c, disabled, f.additive) ==>
             id in AdditiveSet(c, disabled, f.additive) * disabled;
  }

  /** No hidden registered tool is allowed, but for Task and the loader. */
  lemma {:induction false} HiddenToolsAreNotAllowed(c: Catalog, f: Flags, tool: Tool)
    requires tool in c.tools && c.hidden(tool.id)
    requires tool.id in Allowed(c, f) + BaseAllowed(c, f)
    ensures tool.id == c.specials.task.id || tool.id == c.specials.toolSearch
  {
    hide EnableSet, DisableSet, AdditiveSet, ToolIds, BaseSet, SpecSet;
    assert tool.id in HiddenIds(c, c.tools);
  }

  /** With an allowed deferred tool its loader is allowed, in both sets. */
  lemma {:induction false} DeferredToolsHaveTheirLoader(c: Catalog, f: Flags, tool: Tool)
    requires tool in c.tools && tool.deferred && tool.id in Allowed(c, f)
    ensures c.specials.toolSearch in Allowed(c, f) && c.specials.toolSearch in BaseAllowed(c, f)
  {
    hide EnableSet, DisableSet, AdditiveSet, ToolIds, BaseSet, SpecSet, HiddenIds, TaskRule;
    var ids := TaskRule(c, f, AllowedBeforeTask(c, f));
    if tool.id !in ids {
      assert tool.id == c.specials.toolSearch;
    } else {
      assert HasDeferred(c.tools, ids);
    }
  }

  /** What is allowed is in the base, was opted in to, or is the loader. */
  lemma {:induction false} AllowedStaysInBounds(c: Catalog, f: Flags, id: Name)
    requires id in Allowed(c, f)
    ensures || id in BaseAllowed(c, f) || id == c.specials.toolSearch
            || exists raw :: raw in f.additive && IsUsable(c, raw) && Lookup(c, raw).value.id == id
                 && id !in DisableSet(c, f.disabled)
  {
    hide EnableSet, DisableSet, AdditiveSet, ToolIds, BaseSet, SpecSet, HiddenIds, Lookup;
    var disabled := DisableSet(c, f.disabled);
    if id !in BaseAllowed(c, f) && id != c.specials.toolSearch {
      assert id in AdditiveSet(c, disabled, f.additive);
      AdditiveMeans(c, disabled, f.additive, id);
      var raw :| raw in f.additive && id in Adds(c, disabled, raw);
      assert Lookup(c, raw).value.id == id;
    }
  }

  /** Below the top of the agent tree Task needs an explicit opt-in that is not taken back. */
  lemma {:induction false} TaskBelowTheTop(c: Catalog, f: Flags)
    requires f.depth > 0 && c.specials.task.id in Allowed(c, f) && c.specials.task.id != c.specials.toolSearch
    ensures c.specials.task.id in EnableSet(c, f.enabled)
  {
    hide EnableSet, DisableSet, AdditiveSet, ToolIds, BaseSet, SpecSet, HiddenIds;
  }

  /** Without a flag that says otherwise only read-only tools, opt-ins, the Spec mode tools and the loader are allowed. */
  lemma {:induction false} ReadOnlyByDefault(c: Catalog, f: Flags, id: Name)
    requires !f.auto && !f.autoHigh && !f.skipPermissions && EnableSet(c, f.enabled) == {}
    requires id in Allowed(c, f)
    ensures || id in c.readOnly || id == c.specials.toolSearch
            || (f.useSpec && (id == c.specials.exitSpecMode.id || id == c.specials.askUser.id))
            || exists raw :: raw in f.additive && IsUsable(c, raw) && Lookup(c, raw).value.id == id
  {
    hide EnableSet, DisableSet, AdditiveSet, ToolIds, HiddenIds, Lookup;
    AllowedStaysInBounds(c, f, id);
  }

  /** The selection fails exactly for conflicting flags, an unknown identifier, or a hidden tool; in this order. */
  lemma {:induction false} FailsExactlyWhen(c: Catalog, f: Flags)
    ensures Select(c, f).CombinedFlags? <==> Conflicts(f)
    ensures !Conflicts(f) ==>
              (Select(c, f).UnknownIdentifiers? <==> exists raw :: raw in f.enabled + f.disabled && !IsKnown(c, raw))
    ensures !Conflicts(f) && (forall raw :: raw in f.enabled + f.disabled ==> IsKnown(c, raw)) ==>
              (Select(c, f).NotAvailable? <==> exists raw :: raw in f.enabled + f.disabled && IsHidden(c, raw))
  {
    hide IsKnown, IsHidden, Unknowns, Hiddens, Allowed, BaseAllowed;
    UnknownsMean(c, f.enabled);
    UnknownsMean(c, f.disabled);
    HiddensMean(c, f.enabled);
    HiddensMean(c, f.disabled);
  }

  lemma {:induction false} UnknownsMean(c: Catalog, raws: seq<Name>)
    ensures Unknowns(c, raws) != [] <==> exists raw :: raw in raws && !IsKnown(c, raw)
  {
    hide IsKnown;
    if raws != [] {
      UnknownsMean(c, Front(raws));
      assert raws == Front(raws) + [Last(raws)];
    }
  }

  lemma {:induction false} HiddensMean(c: Catalog, raws: seq<Name>)
    ensures Hiddens(c, raws) != [] <==> exists raw :: raw in raws && IsHidden(c, raw)
  {
    hide IsHidden;
    if raws != [] {
      HiddensMean(c, Front(raws));
      assert raws == Front(raws) + [Last(raws)];
    }
  }

  // ----- order and repetition

  predicate SameElements<T(==)>(a: seq<T>, b: seq<T>) {
    (forall x :: x in a ==> x in b) && (forall x :: x in b ==> x in a)
  }

  lemma {:induction false} SameLists(c: Catalog, disabled: set<Name>, raws: seq<Name>, other: seq<Name>)
    requires SameElements(raws, other)
    ensures EnableSet(c, raws) == EnableSet(c, other) && DisableSet(c, raws) == DisableSet(c, other)
    ensures AdditiveSet(c, disabled, raws) == AdditiveSet(c, disabled, other)
  {
    hide EnableSet, DisableSet, AdditiveSet, Enables, Disables, Adds;
    forall id
      ensures id in EnableSet(c, raws) <==> id in EnableSet(c, other)
    {
      EnableMeans(c, raws, id);
      EnableMeans(c, other, id);
    }
    forall id ensures id in DisableSet(c, raws) <==> id in DisableSet(c, other) {
      DisableMeans(c, raws, id);
      DisableMeans(c, other, id);
    }
    forall id ensures id in AdditiveSet(c, disabled, raws) <==> id in AdditiveSet(c, disabled, other) {
      AdditiveMeans(c, disabled, raws, id);
      AdditiveMeans(c, disabled, other, id);
    }
  }

  /** Order and repetitions in the three lists do not matter, whatever the registry. */
  lemma {:induction false} ListOrderDoesNotMatter(c: Catalog, f: Flags, g: Flags)
    requires SameElements(f.enabled, g.enabled) && SameElements(f.disabled, g.disabled)
    requires SameElements(f.additive, g.additive)
    requires g == f.(enabled := g.enabled, disabled := g.disabled, additive := g.additive)
    ensures Allowed(c, f) == Allowed(c, g) && BaseAllowed(c, f) == BaseAllowed(c, g)
    ensures Select(c, f).Selected? <==> Select(c, g).Selected?
  {
    hide EnableSet, DisableSet, AdditiveSet, ToolIds, HiddenIds;
    var disabled := DisableSet(c, f.disabled);
    SameLists(c, disabled, f.enabled, g.enabled);
    SameLists(c, disabled, f.disabled, g.disabled);
    SameLists(c, disabled, f.additive, g.additive);
    SameSets(c, c, f, g);
    SameSuccess(c, f, g);
  }

  /** The selection depends on the lists and the registry only through these sets. */
  lemma {:induction false} SameSets(c: Catalog, d: Catalog, f: Flags, g: Flags)
    requires d == c.(tools := d.tools) && SameElements(c.tools, d.tools)
    requires g == f.(enabled := g.enabled, disabled := g.disabled, additive := g.additive)
    requires EnableSet(c, f.enabled) == EnableSet(d, g.enabled)
    requires DisableSet(c, f.disabled) == DisableSet(d, g.disabled)
    requires AdditiveSet(c, DisableSet(c, f.disabled), f.additive) == AdditiveSet(d, DisableSet(c, f.disabled), g.additive)
    ensures Allowed(c, f) == Allowed(d, g) && BaseAllowed(c, f) == BaseAllowed(d, g)
  {
    hide EnableSet, DisableSet, AdditiveSet, ToolIds, HiddenIds;
    SameIds(c, d);
    assert BaseSet(c, f) == BaseSet(d, g);
    assert SpecSet(c, f) == SpecSet(d, g);
    assert AllowedBeforeTask(c, f) == AllowedBeforeTask(d, g);
    assert BaseBeforeTask(c, f) == BaseBeforeTask(d, g);
  }

  lemma {:induction false} SameSuccess(c: Catalog, f: Flags, g: Flags)
    requires SameElements(f.enabled, g.enabled) && SameElements(f.disabled, g.disabled)
    requires g.allowCombined == f.allowCombined
    ensures Select(c, f).Selected? <==> Select(c, g).Selected?
  {
    hide Allowed, BaseAllowed, ReadOnlyIds, Unknowns, Hiddens, IsKnown, IsHidden;
    UnknownsMean(c, f.enabled);
    UnknownsMean(c, f.disabled);
    UnknownsMean(c, g.enabled);
    UnknownsMean(c, g.disabled);
    HiddensMean(c, f.enabled);
    HiddensMean(c, f.disabled);
    HiddensMean(c, g.enabled);
    HiddensMean(c, g.disabled);
    SameEmptiness(f.enabled, g.enabled);
    SameEmptiness(f.disabled, g.disabled);
  }

  lemma {:induction false} SameEmptiness(a: seq<Name>, b: seq<Name>)
    requires SameElements(a, b)
    ensures a == [] <==> b == []
  {
    assert a != [] ==> a[0] in a;
    assert b != [] ==> b[0] in b;
  }

  /** No identifier is answered to by two different tools. */
  ghost predicate Unambiguous(c: Catalog) {
    forall a, b, key :: a in c.tools && b in c.tools && Answers(c, a, key) && Answers(c, b, key) ==> a == b
  }

  lemma {:induction false} SameLookup(c: Catalog, d: Catalog, raw: Name)
    requires d == c.(tools := d.tools) && SameElements(c.tools, d.tools) && Unambiguous(c)
    ensures Lookup(c, raw) == Lookup(d, raw)
  {
    LookupFinds(c, raw);
    LookupFinds(d, raw);
    var key := c.lower(c.trim(raw));
    forall tool | tool in d.tools ensures Answers(c, tool, key) <==> Answers(d, tool, key) {}
  }

  lemma {:induction false} SameRegistry(c: Catalog, d: Catalog, disabled: set<Name>, raws: seq<Name>)
    requires d == c.(tools := d.tools) && SameElements(c.tools, d.tools) && Unambiguous(c)
    ensures EnableSet(c, raws) == EnableSet(d, raws) && DisableSet(c, raws) == DisableSet(d, raws)
    ensures AdditiveSet(c, disabled, raws) == AdditiveSet(d, disabled, raws)
  {
    hide Lookup, Unambiguous;
    if raws != [] {
      SameRegistry(c, d, disabled, Front(raws));
      SameLookup(c, d, Last(raws));
    }
  }

  lemma {:induction false} SameIds(c: Catalog, d: Catalog)
    requires d == c.(tools := d.tools) && SameElements(c.tools, d.tools)
    ensures ToolIds(c.tools) == ToolIds(d.tools) && HiddenIds(c, c.tools) == HiddenIds(d, d.tools)
  {
    forall id ensures id in ToolIds(c.tools) <==> exists tool :: tool in c.tools && tool.id == id {}
    forall id ensures id in ToolIds(d.tools) <==> exists tool :: tool in d.tools && tool.id == id {}
    forall id ensures id in HiddenIds(c, c.tools) <==> exists tool :: tool in c.tools && tool.id == id && c.hidden(id) {}
    forall id ensures id in HiddenIds(d, d.tools) <==> exists tool :: tool in d.tools && tool.id == id && d.hidden(id) {}
  }

  /** Nor does the order of a registry in which no two tools share an identifier. */
  lemma {:induction false} RegistryOrderDoesNotMatter(c: Catalog, d: Catalog, f: Flags)
    requires d == c.(tools := d.tools) && SameElements(c.tools, d.tools) && Unambiguous(c)
    ensures Allowed(c, f) == Allowed(d, f) && BaseAllowed(c, f) == BaseAllowed(d, f)
  {
    hide EnableSet, DisableSet, AdditiveSet, Unambiguous, Allowed, BaseAllowed;
    SameRegistry(c, d, DisableSet(c, f.disabled), f.enabled);
    SameRegistry(c, d, DisableSet(c, f.disabled), f.disabled);
    SameRegistry(c, d, DisableSet(c, f.disabled), f.additive);
    SameSets(c, d, f, f);
  }
}
