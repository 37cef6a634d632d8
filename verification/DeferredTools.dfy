/** Which tools a model sees when some are deferred until they are loaded. */
module DeferredTools {
  import opened Collections

  datatype Spec = Spec(name: nat, body: nat)
  datatype Descriptor = Descriptor(spec: Spec, deferred: bool)

  /** A tool as it is sent; marked is the cache breakpoint. */
  datatype Sent = Sent(spec: Spec, marked: bool)

  datatype Parts = Parts(core: seq<Spec>, loadedDeferred: seq<Spec>, hidden: seq<Descriptor>)

  datatype Context = Context(tools: seq<Sent>, hidden: seq<Descriptor>, loadedDeferred: seq<Spec>)

  function Partition(tools: seq<Descriptor>, loaded: set<nat>): Parts {
    if tools == [] then Parts([], [], [])
    else
      var p, tool := Partition(Front(tools), loaded), Last(tools);
      if !tool.deferred then p.(core := p.core + [tool.spec])
      else if tool.spec.name in loaded then p.(loadedDeferred := p.loadedDeferred + [tool.spec])
      else p.(hidden := p.hidden + [tool])
  }

  predicate HasDeferred(tools: seq<Descriptor>) { exists tool :: tool in tools && tool.deferred }

  function WithoutName(specs: seq<Spec>, name: nat): seq<Spec> {
    if specs == [] then []
    else if Last(specs).name == name then WithoutName(Front(specs), name)
    else WithoutName(Front(specs), name) + [Last(specs)]
  }

  function SelectCoreTools(core: seq<Spec>, hasDeferred: bool, toolSearch: nat): seq<Spec> {
    if hasDeferred then core else WithoutName(core, toolSearch)
  }

  function Specs(tools: seq<Descriptor>): seq<Spec> {
    seq(|tools|, i requires 0 <= i < |tools| => tools[i].spec)
  }

  function Unmarked(specs: seq<Spec>): seq<Sent> {
    seq(|specs|, i requires 0 <= i < |specs| => Sent(specs[i], false))
  }

  /** Exactly the last tool is the breakpoint. */
  function Marked(specs: seq<Spec>): seq<Sent> {
    seq(|specs|, i requires 0 <= i < |specs| => Sent(specs[i], i == |specs| - 1))
  }

  function Effective(enabled: bool, tools: seq<Descriptor>, loaded: set<nat>, toolSearch: nat): Context {
    if !enabled then Context(Unmarked(WithoutName(Specs(tools), toolSearch)), [], [])
    else
      var p := Partition(tools, loaded);
      Context(Marked(SelectCoreTools(p.core, HasDeferred(tools), toolSearch) + p.loadedDeferred), p.hidden,
              p.loadedDeferred)
  }

  // ----- the code

  method PartitionDeferredTools(tools: seq<Descriptor>, loaded: set<nat>) returns (p: Parts)
    ensures p == Partition(tools, loaded)
  {
    var core: seq<Spec>, loadedDeferred: seq<Spec>, hidden: seq<Descriptor> := [], [], [];
    for i := 0 to |tools|
      invariant Parts(core, loadedDeferred, hidden) == Partition(tools[..i], loaded)
    {
      assert Front(tools[..i + 1]) == tools[..i];
      var tool := tools[i];
      if tool.deferred {
        if tool.spec.name in loaded {
          loadedDeferred := loadedDeferred + [tool.spec];
        } else {
          hidden := hidden + [tool];
        }
      } else {
        core := core + [tool.spec];
      }
    }
    assert tools[..|tools|] == tools;
    p := Parts(core, loadedDeferred, hidden);
  }

  method AddToolCacheControl(core: seq<Spec>, loadedDeferred: seq<Spec>) returns (tools: seq<Sent>, blocksUsed: nat)
    ensures tools == Marked(core + loadedDeferred)
    ensures blocksUsed == if core + loadedDeferred == [] then 0 else 1
  {
    tools := Unmarked(core) + Unmarked(loadedDeferred);
    blocksUsed := 0;
    var cacheIndex := |tools| - 1;
    if cacheIndex >= 0 {
      tools := tools[cacheIndex := tools[cacheIndex].(marked := true)];
      blocksUsed := 1;
    }
  }

  method ResolveEffectiveToolContext(enabled: bool, allTools: seq<Descriptor>, loaded: set<nat>, toolSearch: nat)
    returns (context: Context)
    ensures context == Effective(enabled, allTools, loaded, toolSearch)
  {
    if !enabled {
      return Context(Unmarked(WithoutName(Specs(allTools), toolSearch)), [], []);
    }
    var p := PartitionDeferredTools(allTools, loaded);
    var coreTools := SelectCoreTools(p.core, HasDeferred(allTools), toolSearch);
    var tools: seq<Sent> := [];
    if |coreTools| > 0 || |p.loadedDeferred| > 0 {
      var blocksUsed;
      tools, blocksUsed := AddToolCacheControl(coreTools, p.loadedDeferred);
    }
    context := Context(tools, p.hidden, p.loadedDeferred);
  }

  // ----- what is promised

  function Hidden(tools: seq<Descriptor>, loaded: set<nat>): seq<Descriptor> {
    if tools == [] then []
    else if Last(tools).spec.name in loaded then Hidden(Front(tools), loaded)
    else Hidden(Front(tools), loaded) + [Last(tools)]
  }

  function Loaded(specs: seq<Spec>, loaded: set<nat>): seq<Spec> {
    if specs == [] then []
    else if Last(specs).name in loaded then Loaded(Front(specs), loaded) + [Last(specs)]
    else Loaded(Front(specs), loaded)
  }

  lemma {:induction false} CoreStays(tools: seq<Descriptor>, loaded: set<nat>, more: set<nat>)
    ensures Partition(tools, more).core == Partition(tools, loaded).core
  {
    if tools != [] {
      CoreStays(Front(tools), loaded, more);
    }
  }

  lemma {:induction false} HiddenShrinks(tools: seq<Descriptor>, loaded: set<nat>, more: set<nat>)
    requires loaded <= more
    ensures Partition(tools, more).hidden == Hidden(Partition(tools, loaded).hidden, more)
  {
    if tools != [] {
      HiddenShrinks(Front(tools), loaded, more);
      assert Front(Partition(Front(tools), loaded).hidden + [Last(tools)]) == Partition(Front(tools), loaded).hidden;
    }
  }

  lemma {:induction false} LoadedGrows(tools: seq<Descriptor>, loaded: set<nat>, more: set<nat>)
    requires loaded <= more
    ensures Partition(tools, loaded).loadedDeferred == Loaded(Partition(tools, more).loadedDeferred, loaded)
  {
    if tools != [] {
      LoadedGrows(Front(tools), loaded, more);
      var q := Partition(Front(tools), more);
      assert Front(q.loadedDeferred + [Last(tools).spec]) == q.loadedDeferred;
    }
  }

  /**
   * Loading more tools leaves the core prefix alone, only takes tools out of hidden, and only inserts tools
   * among the loaded ones.
   */
  lemma {:induction false} LoadingOnlyMoves(tools: seq<Descriptor>, loaded: set<nat>, more: set<nat>)
    requires loaded <= more
    ensures var p, q := Partition(tools, loaded), Partition(tools, more);
            && q.core == p.core
            && q.hidden == Hidden(p.hidden, more)
            && p.loadedDeferred == Loaded(q.loadedDeferred, loaded)
  {
    hide Partition, Hidden, Loaded;
    CoreStays(tools, loaded, more);
    HiddenShrinks(tools, loaded, more);
    LoadedGrows(tools, loaded, more);
  }

  /** The core tools come first among the exposed ones, whatever is loaded. */
  lemma {:induction false} CorePrefixIsStable(tools: seq<Descriptor>, loaded: set<nat>, more: set<nat>, toolSearch: nat,
                                             i: nat)
    requires loaded <= more
    requires i < |SelectCoreTools(Partition(tools, loaded).core, HasDeferred(tools), toolSearch)|
    ensures var a, b := Effective(true, tools, loaded, toolSearch).tools, Effective(true, tools, more, toolSearch).tools;
            i < |a| && i < |b| && a[i].spec == b[i].spec
  {
    LoadingOnlyMoves(tools, loaded, more);
  }

  /** Exposed and hidden tools are a rearrangement of all tools. */
  lemma {:induction false} NothingIsLost(tools: seq<Descriptor>, loaded: set<nat>)
    ensures var p := Partition(tools, loaded);
            multiset(p.core + p.loadedDeferred + Specs(p.hidden)) == multiset(Specs(tools))
  {
    if tools == [] {
      assert Specs(tools) == [];
    } else {
      NothingIsLost(Front(tools), loaded);
      var p, q, tool := Partition(Front(tools), loaded), Partition(tools, loaded), Last(tools);
      assert Specs(tools) == Specs(Front(tools)) + [tool.spec];
      assert Specs(p.hidden + [tool]) == Specs(p.hidden) + [tool.spec];
    }
  }

  lemma {:induction false} NoneDeferred(tools: seq<Descriptor>, loaded: set<nat>)
    requires !HasDeferred(tools)
    ensures Partition(tools, loaded) == Parts(Specs(tools), [], [])
  {
    if tools != [] {
      assert forall tool :: tool in Front(tools) ==> tool in tools;
      assert Last(tools) in tools;
      NoneDeferred(Front(tools), loaded);
      assert Specs(tools) == Specs(Front(tools)) + [Last(tools).spec];
    }
  }

  /** Without deferred tools the feature changes nothing but the breakpoint. */
  lemma {:induction false} SameToolsWithoutDeferred(tools: seq<Descriptor>, loaded: set<nat>, toolSearch: nat)
    requires !HasDeferred(tools)
    ensures var on, off := Effective(true, tools, loaded, toolSearch), Effective(false, tools, loaded, toolSearch);
            && on.hidden == off.hidden && on.loadedDeferred == off.loadedDeferred
            && |on.tools| == |off.tools|
            && forall i :: 0 <= i < |on.tools| ==> on.tools[i].spec == off.tools[i].spec
  {
    NoneDeferred(tools, loaded);
    assert WithoutName(Specs(tools), toolSearch) + [] == WithoutName(Specs(tools), toolSearch);
  }

  // ----- who is seen

  /** Each tool is placed by itself, and each part keeps the order of the tools. */
  lemma {:induction false} EachToolIsPlacedByItself(a: seq<Descriptor>, b: seq<Descriptor>, loaded: set<nat>)
    ensures var p, q, both := Partition(a, loaded), Partition(b, loaded), Partition(a + b, loaded);
            both == Parts(p.core + q.core, p.loadedDeferred + q.loadedDeferred, p.hidden + q.hidden)
  {
    if b == [] {
      assert a + b == a;
    } else {
      EachToolIsPlacedByItself(a, Front(b), loaded);
      assert Front(a + b) == a + Front(b);
    }
  }

  lemma {:induction false} PartsHold(tools: seq<Descriptor>, loaded: set<nat>, spec: Spec)
    ensures var p := Partition(tools, loaded);
            && (spec in p.core <==> exists tool :: tool in tools && tool.spec == spec && !tool.deferred)
            && (spec in p.loadedDeferred <==>
                  exists tool :: tool in tools && tool.spec == spec && tool.deferred && spec.name in loaded)
            && (forall tool :: tool in p.hidden <==> tool in tools && tool.deferred && tool.spec.name !in loaded)
  {
    if tools != [] {
      PartsHold(Front(tools), loaded, spec);
      assert tools == Front(tools) + [Last(tools)];
    }
  }

  lemma {:induction false} NamesLeft(specs: seq<Spec>, name: nat, spec: Spec)
    ensures spec in WithoutName(specs, name) <==> spec in specs && spec.name != name
  {
    if specs != [] {
      NamesLeft(Front(specs), name, spec);
      assert specs == Front(specs) + [Last(specs)];
    }
  }

  lemma {:induction false} AnyMarkedOrNot(specs: seq<Spec>, spec: Spec)
    ensures (exists sent :: sent in Marked(specs) && sent.spec == spec) <==> spec in specs
    ensures (exists sent :: sent in Unmarked(specs) && sent.spec == spec) <==> spec in specs
  {
    if spec in specs {
      var i :| 0 <= i < |specs| && specs[i] == spec;
      assert Marked(specs)[i].spec == spec && Unmarked(specs)[i].spec == spec;
      assert Marked(specs)[i] in Marked(specs) && Unmarked(specs)[i] in Unmarked(specs);
    }
  }

  /**
   * With the feature on, the model sees exactly the tools that are not deferred and the deferred ones that
   * were loaded, but ToolSearch only when something is deferred; exactly the other deferred ones are hidden.
   */
  lemma {:induction false} SeenExactlyWhen(tools: seq<Descriptor>, loaded: set<nat>, toolSearch: nat, spec: Spec)
    ensures var context := Effective(true, tools, loaded, toolSearch);
            (exists sent :: sent in context.tools && sent.spec == spec) <==>
            || (exists tool :: tool in tools && tool.spec == spec && tool.deferred && spec.name in loaded)
            || ((exists tool :: tool in tools && tool.spec == spec && !tool.deferred)
                && (spec.name == toolSearch ==> exists tool :: tool in tools && tool.deferred))
    ensures forall tool :: tool in Effective(true, tools, loaded, toolSearch).hidden <==>
              tool in tools && tool.deferred && tool.spec.name !in loaded
  {
    hide Partition, WithoutName, Marked;
    var p := Partition(tools, loaded);
    PartsHold(tools, loaded, spec);
    NamesLeft(p.core, toolSearch, spec);
    AnyMarkedOrNot(SelectCoreTools(p.core, HasDeferred(tools), toolSearch) + p.loadedDeferred, spec);
  }

  /** With the feature off it sees every tool but ToolSearch, and nothing is hidden. */
  lemma {:induction false} AllSeenWhenOff(tools: seq<Descriptor>, loaded: set<nat>, toolSearch: nat, spec: Spec)
    ensures var context := Effective(false, tools, loaded, toolSearch);
            && ((exists sent :: sent in context.tools && sent.spec == spec) <==>
                  spec.name != toolSearch && exists tool :: tool in tools && tool.spec == spec)
            && context.hidden == [] && forall sent :: sent in context.tools ==> !sent.marked
  {
    hide WithoutName;
    NamesLeft(Specs(tools), toolSearch, spec);
    AnyMarkedOrNot(WithoutName(Specs(tools), toolSearch), spec);
    if tool :| tool in tools && tool.spec == spec {
      var i :| 0 <= i < |tools| && tools[i] == tool;
      assert Specs(tools)[i] == spec;
    }
  }
}
