/** Explicit module version selection: the rules of a selected module move to the selected version, in place. */
module Versions {
  import opened Basics

  type ModuleId = string
  type Version = string
  type Rule = nat

  datatype Definition = Definition(id: ModuleId, version: Version, rules: seq<Rule>)

  /** All rules of a module, in catalogue order. */
  function RulesOf(defs: seq<Definition>, id: ModuleId): seq<Rule> {
    if defs == [] then []
    else
      var d := defs[|defs| - 1];
      RulesOf(defs[..|defs| - 1], id) + if d.id == id then d.rules else []
  }

  /** The last position of the version, or -1. */
  function TargetOf(defs: seq<Definition>, id: ModuleId, version: Version): (t: int)
    ensures -1 <= t < |defs|
    ensures t >= 0 ==> defs[t].id == id && defs[t].version == version
    ensures forall k :: t < k < |defs| ==> defs[k].id != id || defs[k].version != version
  {
    if defs == [] then -1
    else
      var n := |defs| - 1;
      if defs[n].id == id && defs[n].version == version then n else TargetOf(defs[..n], id, version)
  }

  /** A selection that can be applied: the version is in the catalogue and the module has rules. */
  predicate Selectable(defs: seq<Definition>, id: ModuleId, version: Version) {
    TargetOf(defs, id, version) >= 0 && RulesOf(defs, id) != []
  }

  /** Position k after the selections of the given modules: all rules on the target, none on the module's other versions. */
  function Selected(defs: seq<Definition>, selected: map<ModuleId, Version>, done: set<ModuleId>, k: nat): Definition
    requires k < |defs|
  {
    var d := defs[k];
    if d.id !in done || d.id !in selected then d
    else d.(rules := if k == TargetOf(defs, d.id, selected[d.id]) then RulesOf(defs, d.id) else [])
  }

  function Applied(defs: seq<Definition>, selected: map<ModuleId, Version>, done: set<ModuleId>): seq<Definition> {
    seq(|defs|, k requires 0 <= k < |defs| => Selected(defs, selected, done, k))
  }

  // ---------------------------------------------------------------- the loops

  /** The body of the outer loop: collect and clear the module's rules, then give them to the selected version. */
  method SelectOne(definitions: array<Definition>, id: ModuleId, version: Version) returns (ok: bool)
    modifies definitions
    ensures ok <==> Selectable(old(definitions[..]), id, version)
    ensures ok ==> definitions[..] == Applied(old(definitions[..]), map[id := version], {id})
  {
    ghost var defs := definitions[..];
    var target := -1;
    var rules: seq<Rule> := [];
    var k := 0;
    while k < definitions.Length
      invariant 0 <= k <= definitions.Length
      invariant target == TargetOf(defs[..k], id, version) && rules == RulesOf(defs[..k], id)
      invariant forall j :: 0 <= j < k ==> definitions[j] == if defs[j].id == id then defs[j].(rules := []) else defs[j]
      invariant forall j :: k <= j < definitions.Length ==> definitions[j] == defs[j]
    {
      assert defs[..k + 1][..k] == defs[..k];
      var definition := definitions[k];
      if definition.id == id {
        if definition.version == version { target := k; }
        if |definition.rules| > 0 {
          rules := rules + definition.rules;
          definitions[k] := definition.(rules := []);
        }
      }
      k := k + 1;
    }
    assert defs[..k] == defs;
    if target < 0 { return false; }
    if rules == [] { return false; }
    definitions[target] := definitions[target].(rules := rules);
    ok := true;
  }

  /** applySelectedModuleVersions: order is the order in which the map of selections happens to be iterated. */
  method ApplySelections(definitions: array<Definition>, selected: map<ModuleId, Version>, order: seq<ModuleId>) returns (ok: bool)
    requires forall id :: id in order <==> id in selected
    requires forall j, k :: 0 <= j < k < |order| ==> order[j] != order[k]
    modifies definitions
    ensures ok <==> forall id :: id in selected ==> Selectable(old(definitions[..]), id, selected[id])
    ensures ok ==> definitions[..] == Applied(old(definitions[..]), selected, selected.Keys)
  {
    hide Selectable, RulesOf, TargetOf;
    ghost var defs := definitions[..];
    var k := 0;
    NothingApplied(defs, selected);
    assert IdsOf(order[..0]) == {};
    while k < |order|
      invariant 0 <= k <= |order| && definitions[..] == Applied(defs, selected, IdsOf(order[..k]))
      invariant forall j :: 0 <= j < k ==> Selectable(defs, order[j], selected[order[j]])
    {
      var id := order[k];
      ghost var done := IdsOf(order[..k]);
      assert id !in done by { assert forall j :: 0 <= j < k ==> order[j] != order[k]; }
      assert IdsOf(order[..k + 1]) == done + {id} by { assert order[..k + 1] == order[..k] + [id]; }
      SelectableStays(defs, selected, done, id);
      ok := SelectOne(definitions, id, selected[id]);
      if !ok { return; }
      SelectAnother(defs, selected, done, id);
      k := k + 1;
    }
    assert IdsOf(order[..|order|]) == selected.Keys by { assert order[..|order|] == order; }
    ok := true;
  }

  lemma NothingApplied(defs: seq<Definition>, selected: map<ModuleId, Version>)
    ensures Applied(defs, selected, {}) == defs
  {
    hide RulesOf, TargetOf;
  }

  function IdsOf(order: seq<ModuleId>): set<ModuleId> {
    set id | id in order
  }

  // ---------------------------------------------------------------- selections do not interfere

  /** Selecting some modules leaves position and rules of every other module as they were. */
  lemma {:induction false} OthersUntouched(defs: seq<Definition>, selected: map<ModuleId, Version>, done: set<ModuleId>, id: ModuleId, version: Version)
    requires id !in done
    ensures var now := Applied(defs, selected, done);
            TargetOf(now, id, version) == TargetOf(defs, id, version) && RulesOf(now, id) == RulesOf(defs, id)
  {
    OthersUntouchedUpTo(defs, Applied(defs, selected, done), id, version);
  }

  lemma {:induction false} OthersUntouchedUpTo(defs: seq<Definition>, now: seq<Definition>, id: ModuleId, version: Version)
    requires |now| == |defs|
    requires forall k :: 0 <= k < |defs| ==> now[k].id == defs[k].id && now[k].version == defs[k].version && (defs[k].id == id ==> now[k] == defs[k])
    ensures TargetOf(now, id, version) == TargetOf(defs, id, version) && RulesOf(now, id) == RulesOf(defs, id)
    decreases |defs|
  {
    if defs != [] {
      var n := |defs| - 1;
      OthersUntouchedUpTo(defs[..n], now[..n], id, version);
    }
  }

  lemma SelectableStays(defs: seq<Definition>, selected: map<ModuleId, Version>, done: set<ModuleId>, id: ModuleId)
    requires id !in done && id in selected
    ensures Selectable(Applied(defs, selected, done), id, selected[id]) <==> Selectable(defs, id, selected[id])
  {
    OthersUntouched(defs, selected, done, id, selected[id]);
    hide Applied, RulesOf, TargetOf;
  }

  lemma SelectAnother(defs: seq<Definition>, selected: map<ModuleId, Version>, done: set<ModuleId>, id: ModuleId)
    requires id !in done && id in selected
    ensures Applied(Applied(defs, selected, done), map[id := selected[id]], {id}) == Applied(defs, selected, done + {id})
  {
    OthersUntouched(defs, selected, done, id, selected[id]);
    var now := Applied(defs, selected, done);
    forall k | 0 <= k < |defs| ensures Selected(now, map[id := selected[id]], {id}, k) == Selected(defs, selected, done + {id}, k) {
    }
  }

  // ---------------------------------------------------------------- what a selection means

  /** Rules all sit on the target, so the module's rules read the same in catalogue order. */
  lemma {:induction false} RulesAtTarget(defs: seq<Definition>, id: ModuleId, target: int, rules: seq<Rule>)
    requires target < |defs|
    requires forall k :: 0 <= k < |defs| && defs[k].id == id ==> defs[k].rules == if k == target then rules else []
    requires target >= 0 ==> defs[target].id == id
    ensures RulesOf(defs, id) == if target >= 0 then rules else []
    decreases |defs|
  {
    if defs != [] {
      var n := |defs| - 1;
      RulesAtTarget(defs[..n], id, if target == n then -1 else target, rules);
    }
  }

  /**
   Version selection conserves rules: after a successful selection every module, selected or not, has exactly the rules it had, in
   catalogue order; a selected module has them all on the chosen version; an unselected module is untouched.
   */
  lemma SelectionConservesRules(defs: seq<Definition>, selected: map<ModuleId, Version>, id: ModuleId)
    requires forall i :: i in selected ==> Selectable(defs, i, selected[i])
    ensures var now := Applied(defs, selected, selected.Keys);
            && RulesOf(now, id) == RulesOf(defs, id)
            && (forall k :: 0 <= k < |defs| ==> now[k].id == defs[k].id && now[k].version == defs[k].version)
            && (id !in selected ==> forall k :: 0 <= k < |defs| && defs[k].id == id ==> now[k] == defs[k])
            && (id in selected ==> forall k :: 0 <= k < |defs| && now[k].id == id && now[k].rules != [] ==> now[k].version == selected[id])
  {
    hide RulesOf, TargetOf, Selectable;
    var now := Applied(defs, selected, selected.Keys);
    forall k | 0 <= k < |defs|
      ensures now[k].id == defs[k].id && now[k].version == defs[k].version
      ensures defs[k].id == id && id !in selected ==> now[k] == defs[k]
      ensures now[k].id == id && id in selected && now[k].rules != [] ==> now[k].version == selected[id]
    {
      SelectedAt(defs, selected, k);
    }
    if id in selected {
      assert Selectable(defs, id, selected[id]);
      SelectedKeepRules(defs, selected, id);
    } else {
      OthersUntouched(defs, selected, selected.Keys, id, "");
    }
    hide Applied;
  }

  lemma SelectedAt(defs: seq<Definition>, selected: map<ModuleId, Version>, k: nat)
    requires k < |defs|
    ensures var d, now := defs[k], Applied(defs, selected, selected.Keys)[k];
            && now.id == d.id && now.version == d.version && (d.id !in selected ==> now == d)
            && (d.id in selected && now.rules != [] ==> now.version == selected[d.id])
  {
    hide RulesOf;
  }

  lemma SelectedKeepRules(defs: seq<Definition>, selected: map<ModuleId, Version>, id: ModuleId)
    requires id in selected && Selectable(defs, id, selected[id])
    ensures RulesOf(Applied(defs, selected, selected.Keys), id) == RulesOf(defs, id)
  {
    hide RulesOf;
    var now, target := Applied(defs, selected, selected.Keys), TargetOf(defs, id, selected[id]);
    assert target >= 0 && defs[target].id == id;
    hide TargetOf, Selectable;
    RulesAtTarget(now, id, target, RulesOf(defs, id));
  }
}
