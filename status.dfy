/** The smaller stages of scripts/action-handler.js: the effect partition of
    `#buildEffects`, the active state of `#buildConditions`, and the gates of
    `#buildExhaustion`, `#buildRests` and `#buildUtility`, with the token
    and actor selection of `#getValidActors` and `#getValidTokens`. */
module Status {
  import opened Strings
  import opened Entities
  import opened ItemRules

  /** `buildActions` for a list of actions: nothing when it is empty. */
  function ActionsCall(groupId: string, actions: seq<Action>): (r: seq<HudCall>)
    ensures r == [] <==> actions == []
  {
    if actions == [] then [] else [AddActions(groupId, actions)]
  }

  /** Position of the effect with this id in es, |es| when absent. */
  function IndexOfId(es: seq<Effect>, id: string): (i: nat)
    ensures i <= |es|
    ensures i < |es| ==> es[i].id == id
    ensures i == |es| ==> forall j :: 0 <= j < |es| ==> es[j].id != id
  {
    if es == [] then 0 else if es[0].id == id then 0 else 1 + IndexOfId(es[1..], id)
  }

  predicate DistinctIds(es: seq<Effect>) {
    forall i, j :: 0 <= i < j < |es| ==> es[i].id != es[j].id
  }

  function IdsOf(es: seq<Effect>): set<string> {
    set x | x in es :: x.id
  }

  /** `map.set(effect.id, effect)` on the entries m of a map: the entry with
      that id takes the new value in place, or the effect is added at the end. */
  function Put(m: seq<Effect>, e: Effect): (r: seq<Effect>)
    requires DistinctIds(m)
    ensures DistinctIds(r)
    ensures IdsOf(r) == IdsOf(m) + {e.id}
    ensures e in r
    ensures forall x :: x in r ==> x in m || x == e
    ensures forall x :: x in m && x.id != e.id ==> x in r
    ensures forall x :: x in r && x.id == e.id ==> x == e
  {
    var i := IndexOfId(m, e.id);
    if i < |m| then
      var r := m[i := e];
      assert forall k :: 0 <= k < |r| ==> r[k].id == m[k].id;
      assert forall x :: x in m && x.id != e.id ==> x in r by {
        forall x | x in m && x.id != e.id ensures x in r {
          var k :| 0 <= k < |m| && m[k] == x;
          assert r[k] == x;
        }
      }
      r
    else
      m + [e]
  }

  /** `new Map(effects.map(effect => [effect.id, effect]))`: one entry per id
      of es, each holding the last effect of es with that id. */
  function ById(es: seq<Effect>): (r: seq<Effect>)
    ensures DistinctIds(r)
    ensures IdsOf(r) == IdsOf(es)
    ensures forall x :: x in r ==> x in es
  {
    if es == [] then []
    else
      var init := es[..|es| - 1];
      var e := es[|es| - 1];
      assert es == init + [e];
      Put(ById(init), e)
  }

  /** The entry kept for each id is the last effect with that id: an effect
      no later effect shares its id with is in the map. */
  lemma {:induction false} ByIdKeepsLast(es: seq<Effect>, i: nat)
    requires i < |es| && forall j :: i < j < |es| ==> es[j].id != es[i].id
    ensures es[i] in ById(es)
  {
    var init := es[..|es| - 1];
    var e := es[|es| - 1];
    if i < |es| - 1 {
      assert init[i] == es[i];
      assert forall j :: i < j < |init| ==> init[j] == es[j];
      ByIdKeepsLast(init, i);
      assert es[i].id != e.id;
    }
  }

  /** The effect is listed at all: not suppressed, not on an unidentified
      item unless the user is the game master, and not a status effect. */
  predicate Listed(e: Effect, isGM: bool, statusIds: set<string>) {
    !e.suppressed && !(e.unidentifiedParent && !isGM) && e.id !in statusIds
  }

  /** The effects of es that are listed and temporary (or, with temporary
      false, listed and passive), in order. */
  function EffectsOfKind(es: seq<Effect>, isGM: bool, statusIds: set<string>, temporary: bool): (r: seq<Effect>)
    ensures forall x :: x in r <==> x in es && Listed(x, isGM, statusIds) && x.temporary == temporary
  {
    if es == [] then []
    else
      var e := es[|es| - 1];
      assert forall x :: x in es <==> x in es[..|es| - 1] || x == e;
      EffectsOfKind(es[..|es| - 1], isGM, statusIds, temporary)
      + (if Listed(e, isGM, statusIds) && e.temporary == temporary then [e] else [])
  }

  /** The loop of `#buildEffects` over the entries of the effect map, which
      puts each listed effect in the temporary or the passive effects. */
  method PartitionEffects(effects: seq<Effect>, isGM: bool, statusIds: set<string>)
    returns (passive: seq<Effect>, temporary: seq<Effect>)
    ensures passive == EffectsOfKind(effects, isGM, statusIds, false)
    ensures temporary == EffectsOfKind(effects, isGM, statusIds, true)
  {
    passive := [];
    temporary := [];
    for i := 0 to |effects|
      invariant passive == EffectsOfKind(effects[..i], isGM, statusIds, false)
      invariant temporary == EffectsOfKind(effects[..i], isGM, statusIds, true)
    {
      var effect := effects[i];
      assert effects[..i + 1][..i] == effects[..i];
      if !Listed(effect, isGM, statusIds) {
        continue;
      }
      if effect.temporary {
        temporary := temporary + [effect];
      } else {
        passive := passive + [effect];
      }
    }
    assert effects[..|effects|] == effects;
  }

  /** Every effect of the map goes to exactly one of the passive and the
      temporary effects when it is listed, and to neither otherwise. */
  lemma EffectPartition(es: seq<Effect>, isGM: bool, statusIds: set<string>, e: Effect)
    requires e in es
    ensures e in EffectsOfKind(es, isGM, statusIds, false) <==> Listed(e, isGM, statusIds) && !e.temporary
    ensures e in EffectsOfKind(es, isGM, statusIds, true) <==> Listed(e, isGM, statusIds) && e.temporary
    ensures !(e in EffectsOfKind(es, isGM, statusIds, false) && e in EffectsOfKind(es, isGM, statusIds, true))
  {
  }

  /** The document ids of the status effects. */
  function StatusIds(statusEffects: seq<StatusEffect>): set<string> {
    set s | s in statusEffects :: s.docId
  }

  /** The calls of `#buildEffects`: the passive effects, then the temporary ones. */
  function EffectCalls(applicable: seq<Effect>, isGM: bool, statusEffects: seq<StatusEffect>): seq<HudCall> {
    EffectGroupCalls(ById(applicable), isGM, StatusIds(statusEffects))
  }

  /** The two groups of `#buildEffects` for the effects kept by id. */
  function EffectGroupCalls(effects: seq<Effect>, isGM: bool, statusIds: set<string>): seq<HudCall> {
    ActionsCall("passive-effects", EffectActions(EffectsOfKind(effects, isGM, statusIds, false)))
    + ActionsCall("temporary-effects", EffectActions(EffectsOfKind(effects, isGM, statusIds, true)))
  }

  /** The actor has an own effect, not disabled, that carries the status. */
  predicate HasCondition(actor: ActorData, conditionId: string) {
    exists i :: 0 <= i < |actor.effects| && conditionId in actor.effects[i].statuses && !actor.effects[i].disabled
  }

  /** A condition is shown active when every selected actor has it. */
  predicate ConditionActive(actors: seq<ActorData>, conditionId: string) {
    forall a :: a in actors ==> HasCondition(a, conditionId)
  }

  function ConditionAction(actors: seq<ActorData>, s: StatusEffect): Action {
    Action(s.id, "condition", ToggleClass(ConditionActive(actors, s.id)), "", None, None, None)
  }

  /** `CONFIG.statusEffects` without the entries whose id is empty. */
  function ConditionList(statusEffects: seq<StatusEffect>): (r: seq<StatusEffect>)
    ensures forall s :: s in r <==> s in statusEffects && s.id != ""
  {
    if statusEffects == [] then []
    else (if statusEffects[0].id != "" then [statusEffects[0]] else []) + ConditionList(statusEffects[1..])
  }

  function ConditionActions(actors: seq<ActorData>, conditions: seq<StatusEffect>): (r: seq<Action>)
    ensures |r| == |conditions|
    ensures forall i :: 0 <= i < |conditions| ==> r[i] == ConditionAction(actors, conditions[i])
  {
    if conditions == [] then [] else [ConditionAction(actors, conditions[0])] + ConditionActions(actors, conditions[1..])
  }

  /** The calls of `#buildConditions`: none without tokens or conditions,
      otherwise one action per condition in the group "conditions". */
  function ConditionCalls(tokenCount: nat, actors: seq<ActorData>, statusEffects: seq<StatusEffect>): seq<HudCall> {
    if tokenCount == 0 then []
    else ActionsCall("conditions", ConditionActions(actors, ConditionList(statusEffects)))
  }

  /** The condition actions: one per condition with a non-empty id, shown
      active exactly when every selected actor has an enabled own effect
      carrying that status. */
  lemma ConditionState(tokenCount: nat, actors: seq<ActorData>, statusEffects: seq<StatusEffect>)
    ensures ConditionCalls(tokenCount, actors, statusEffects) != [] <==>
      tokenCount > 0 && exists s :: s in statusEffects && s.id != ""
    ensures ConditionCalls(tokenCount, actors, statusEffects) != [] ==>
      var actions := ConditionCalls(tokenCount, actors, statusEffects)[0].actions;
      forall i :: 0 <= i < |actions| ==>
        actions[i].id != ""
        && (actions[i].cssClass == "toggle active" <==> forall a :: a in actors ==> HasCondition(a, actions[i].id))
  {
    var conditions := ConditionList(statusEffects);
    if conditions != [] {
      assert conditions[0] in statusEffects;
    }
  }

  /** `#getValidTokens`, which reads `this.actors` after it has been replaced
      by the valid actors: the controlled tokens when every one of those is a
      character or an npc, otherwise none. */
  function ValidTokenCount(validActors: seq<ActorData>, tokenCount: nat): nat {
    if forall i :: 0 <= i < |validActors| ==> validActors[i].actorType in ["character", "npc"] then tokenCount else 0
  }

  /** Since the valid actors are all characters or npcs (or none at all),
      every controlled token is kept, whatever the selection. */
  lemma AllTokensKept(actors: seq<ActorData>, tokenCount: nat)
    ensures ValidTokenCount(ValidActors(actors), tokenCount) == tokenCount
  {
  }

  /** A selection that mixes in an actor of another type keeps no actor but
      every token, so every condition is shown active. */
  lemma MixedSelectionShowsAllConditions(actors: seq<ActorData>, tokenCount: nat, statusEffects: seq<StatusEffect>)
    requires exists i :: 0 <= i < |actors| && actors[i].actorType !in ["character", "npc"]
    requires tokenCount > 0 && ConditionList(statusEffects) != []
    ensures var valid := ValidActors(actors);
      var calls := ConditionCalls(ValidTokenCount(valid, tokenCount), valid, statusEffects);
      calls != [] && forall i :: 0 <= i < |calls[0].actions| ==> calls[0].actions[i].cssClass == "toggle active"
  {
  }

  predicate AllCharacters(actors: seq<ActorData>) {
    forall i :: 0 <= i < |actors| ==> actors[i].actorType == "character"
  }

  /** The calls of `#buildExhaustion` for the selected actor. */
  function ExhaustionCalls(actor: ActorData, actors: seq<ActorData>): (r: seq<HudCall>)
    ensures r != [] <==> AllCharacters(actors)
  {
    if AllCharacters(actors) then
      [AddActions("exhaustion",
                  [Action("exhaustion", "exhaustion", ToggleClass(actor.exhaustion > 0), "", None,
                          Some(IntToString(actor.exhaustion)), None)])]
    else []
  }

  function UtilityAction(id: string, cssClass: string): Action {
    Action(id, "utility", cssClass, "", None, None, None)
  }

  /** The calls of `#buildRests`. */
  function RestCalls(actors: seq<ActorData>): (r: seq<HudCall>)
    ensures r != [] <==> |actors| > 0 && AllCharacters(actors)
  {
    if |actors| > 0 && AllCharacters(actors) then
      [AddActions("rests", [UtilityAction("shortRest", ""), UtilityAction("longRest", "")])]
    else []
  }

  /** The calls of `#buildUtility`: the death save when the one selected actor
      is down to 0 hit points or below, and inspiration, active when every
      actor has it. */
  function UtilityCalls(actor: Option<ActorData>, actors: seq<ActorData>): seq<HudCall> {
    if |actors| > 0 && AllCharacters(actors) then
      var deathSave := if actor.Some? && !(actor.value.hp > 0) then [UtilityAction("deathSave", "")] else [];
      var inspired := forall a :: a in actors ==> a.inspiration;
      [AddActions("utility", deathSave + [UtilityAction("inspiration", ToggleClass(inspired))])]
    else []
  }

  /** The utility group appears only for a non-empty selection of characters;
      it offers the death save exactly when a single actor with no hit points
      left is selected, and its inspiration is active exactly when every
      selected actor is inspired. */
  lemma UtilityRule(actor: Option<ActorData>, actors: seq<ActorData>)
    ensures UtilityCalls(actor, actors) != [] <==> |actors| > 0 && AllCharacters(actors)
    ensures UtilityCalls(actor, actors) != [] ==>
      var actions := UtilityCalls(actor, actors)[0].actions;
      (exists i :: 0 <= i < |actions| && actions[i].id == "deathSave") <==> actor.Some? && actor.value.hp <= 0
    ensures UtilityCalls(actor, actors) != [] ==>
      var actions := UtilityCalls(actor, actors)[0].actions;
      actions[|actions| - 1].id == "inspiration"
      && (actions[|actions| - 1].cssClass == "toggle active" <==> forall a :: a in actors ==> a.inspiration)
  {
    if |actors| > 0 && AllCharacters(actors) {
      var actions := UtilityCalls(actor, actors)[0].actions;
      if actor.Some? && actor.value.hp <= 0 {
        assert actions[0].id == "deathSave";
      } else {
        assert |actions| == 1 && actions[0].id == "inspiration";
        assert "inspiration" != "deathSave" by { assert "inspiration"[0] != "deathSave"[0]; }
      }
    }
  }
}
