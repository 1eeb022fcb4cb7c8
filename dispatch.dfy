/** The rules of the click dispatcher of scripts/roll-handler.js, stated on
    values: how an encoded action is decoded, and what each handler does to
    the clicked actor and which engine calls it makes. The rules engine
    (rolls, item use, rests, combat, status toggling) is opaque: its calls
    are recorded as events. The class that performs these steps in place is
    in module RollHandling. */
module Dispatch {
  import opened Strings
  import opened Entities

  /** A stored flag value of the `custom-dnd5e` scope. Undefined is what the
      checkbox branch writes. */
  datatype FlagValue = Undefined | Bool(b: bool) | Num(n: int)

  /** The clicked actor as the handlers see it: its id, exhaustion,
      inspiration, custom-counter flags (keyed by their dotted path, so the
      fields of a fraction counter `id` sit at "id.value" and "id.max"), its
      own effects, the effects it gets from its items (the rest of
      `allApplicableEffects`), its items, and whether it has ability scores
      and skills at all. */
  datatype ActorState = ActorState(
    id: string,
    exhaustion: int,
    inspiration: bool,
    flags: map<string, FlagValue>,
    effects: seq<Effect>,
    itemEffects: seq<Effect>,
    items: seq<Item>,
    hasAbilities: bool,
    hasSkills: bool)

  /** What the handlers read outside the actor: `CONFIG.statusEffects`, the
      token of the current combatant (None when there is no combat or no
      current combatant), and the core's "render item" mode. */
  datatype Env = Env(statusEffects: seq<StatusEffect>, combatTokenId: Option<string>, renderItems: bool)

  /** The modifier keys of the click. */
  datatype Click = Click(rightClick: bool, ctrl: bool)

  /** The calls the handlers make into the rules engine and the HUD, in
      order. RefreshHud is `Hooks.callAll("forceUpdateTokenActionHud")`. */
  datatype Event =
    | RollAbility(actorId: string, key: Option<string>)
    | RollAbilityTest(actorId: string, key: Option<string>)
    | RollAbilitySave(actorId: string, key: Option<string>)
    | RollSkill(actorId: string, key: Option<string>)
    | RollDeathSave(actorId: string)
    | UseItem(actorId: string, itemId: string)
    | RollRecharge(actorId: string, itemId: string)
    | RenderItem(actorId: string, renderId: Option<string>)
    | ToggleStatusEffect(actorId: string, statusId: string, overlay: bool)
    | RollInitiative(actorId: string)
    | LongRest(actorId: string)
    | ShortRest(actorId: string)
    | NextTurn
    | RefreshHud

  /** The actor after a handler, and the calls the handler made. */
  datatype Step = Step(state: ActorState, events: seq<Event>)

  /** The decoded action: its type and, when the encoded value has a '|', its id. */
  datatype Command = Command(actionType: string, actionId: Option<string>)

  /** `encodedValue.split("|")` destructured into (actionType, actionId). */
  function Decode(encoded: string): Command {
    var parts := Split(encoded, '|');
    Command(parts[0], if |parts| >= 2 then Some(parts[1]) else None)
  }

  /** The text the HUD builds for an action: "type|id". */
  function Encode(actionType: string, actionId: string): string {
    actionType + "|" + actionId
  }

  /** Decoding an encoded action gives back its type and id, provided
      neither holds a '|'. */
  lemma DecodeEncode(actionType: string, actionId: string)
    requires '|' !in actionType && '|' !in actionId
    ensures Decode(Encode(actionType, actionId)) == Command(actionType, Some(actionId))
  {
    SplitAround(actionType, actionId, '|');
    SplitNoSeparator(actionId, '|');
  }

  /** An encoded value with exactly one '|' is the encoding of what it decodes to. */
  lemma EncodeDecode(encoded: string)
    requires |Split(encoded, '|')| == 2
    ensures Decode(encoded).actionId.Some?
    ensures Encode(Decode(encoded).actionType, Decode(encoded).actionId.value) == encoded
  {
    var parts := Split(encoded, '|');
    JoinSplit(encoded, '|');
    assert Join(parts, '|') == parts[0] + ['|'] + Join(parts[1..], '|');
  }

  /** `modifyExhaustion`: one more level on a primary click, one less on a
      right click, written only when the new level is not negative. */
  function NextExhaustion(current: int, rightClick: bool): int {
    var next := current + (if rightClick then -1 else 1);
    if next >= 0 && next != current then next else current
  }

  /** From a non-negative level, exhaustion never becomes negative: a primary
      click adds one, a right click takes one away down to 0. */
  lemma ExhaustionBounds(current: int, rightClick: bool)
    requires current >= 0
    ensures NextExhaustion(current, rightClick) >= 0
    ensures !rightClick ==> NextExhaustion(current, rightClick) == current + 1
    ensures rightClick ==> NextExhaustion(current, rightClick) == if current == 0 then 0 else current - 1
  {
  }

  /** A right click undoes a primary click. */
  lemma ExhaustionUndo(current: int)
    requires current >= 0
    ensures NextExhaustion(NextExhaustion(current, false), true) == current
  {
  }

  /** The step of `modifyExhaustion`. */
  function ExhaustionStep(s: ActorState, click: Click): Step {
    Step(s.(exhaustion := NextExhaustion(s.exhaustion, click.rightClick)), [])
  }

  /** The step of `modifyInspiration`. */
  function InspirationStep(s: ActorState): Step {
    Step(s.(inspiration := !s.inspiration), [])
  }

  /** Toggling inspiration twice restores it, and changes nothing else. */
  lemma InspirationToggles(s: ActorState)
    ensures InspirationStep(s).state.inspiration != s.inspiration
    ensures InspirationStep(InspirationStep(s).state).state == s
  {
  }

  /** The number stored at a flag path; None when the path holds no number. */
  function ReadNum(flags: map<string, FlagValue>, key: string): Option<int> {
    if key in flags && flags[key].Num? then Some(flags[key].n) else None
  }

  /** A missing number read with the default 0. */
  function OrZero(v: Option<int>): int {
    if v.Some? then v.value else 0
  }

  /** `adjustValue` followed by `setFlag`: a right click gives max(0, v - 1)
      and any other click v + 1, and the flag is written only when the value
      changes. */
  function AdjustFlag(flags: map<string, FlagValue>, key: string, current: int, rightClick: bool): map<string, FlagValue> {
    var next := if rightClick then (if current - 1 > 0 then current - 1 else 0) else current + 1;
    if next != current then flags[key := Num(next)] else flags
  }

  /** Adjusting changes at most the one path, never makes a non-negative
      value negative, and moves it by one unless a right click meets 0. */
  lemma AdjustOneKey(flags: map<string, FlagValue>, key: string, current: int, rightClick: bool)
    requires current >= 0
    ensures var r := AdjustFlag(flags, key, current, rightClick);
      (forall k :: k != key ==> (k in r <==> k in flags) && (k in flags ==> r[k] == flags[k]))
      && (!rightClick ==> key in r && r[key] == Num(current + 1))
      && (rightClick && current > 0 ==> key in r && r[key] == Num(current - 1))
      && (rightClick && current == 0 ==> r == flags)
  {
  }

  /** The id and the type of a custom counter's action id: `decodeURIComponent(actionId).split(">")`.
      A missing action id reads as the text "undefined". */
  function CounterParts(actionId: Option<string>): (string, Option<string>) {
    var text := if actionId.Some? then actionId.value else "undefined";
    var parts := Split(text, '>');
    (parts[0], if |parts| >= 2 then Some(parts[1]) else None)
  }

  /** The flags after `modifyCustomCounter` on the counter `id` of type `kind`. */
  function CounterFlags(flags: map<string, FlagValue>, id: string, kind: Option<string>, click: Click): map<string, FlagValue> {
    if kind == Some("checkbox") then flags[id := Undefined]
    else if kind == Some("fraction") then
      var value := ReadNum(flags, id + ".value");
      var max := ReadNum(flags, id + ".max");
      var hasMax := max.Some? && max.value != 0;
      if click.rightClick || (hasMax && value.Some? && value.value < max.value) || !hasMax
      then AdjustFlag(flags, id + ".value", OrZero(value), click.rightClick)
      else flags
    else if kind == Some("number") then AdjustFlag(flags, id, OrZero(ReadNum(flags, id)), click.rightClick)
    else if kind == Some("successFailure") then
      if click.ctrl then AdjustFlag(flags, id + ".failure", OrZero(ReadNum(flags, id + ".failure")), click.rightClick)
      else AdjustFlag(flags, id + ".success", OrZero(ReadNum(flags, id + ".success")), click.rightClick)
    else flags
  }

  /** A checkbox counter does not flip: whatever it held, it is left Undefined. */
  lemma CheckboxWritesUndefined(flags: map<string, FlagValue>, id: string, click: Click)
    ensures var r := CounterFlags(flags, id, Some("checkbox"), click);
      id in r && r[id] == Undefined && r == flags[id := Undefined]
  {
  }

  /** A primary click never pushes a fraction counter past a positive max:
      a value below max grows by one, a value at or above max or a missing
      value stays as it is. */
  lemma FractionRespectsMax(flags: map<string, FlagValue>, id: string, ctrl: bool, value: int, max: int)
    requires max > 0
    requires ReadNum(flags, id + ".value") == Some(value) && ReadNum(flags, id + ".max") == Some(max)
    requires 0 <= value <= max
    ensures var r := CounterFlags(flags, id, Some("fraction"), Click(false, ctrl));
      ReadNum(r, id + ".value") == Some(if value < max then value + 1 else value)
      && ReadNum(r, id + ".value").value <= max
  {
  }

  /** A fraction counter with a positive max but no stored value ignores a
      primary click: `undefined < max` is false. */
  lemma FractionWithoutValue(flags: map<string, FlagValue>, id: string, ctrl: bool)
    requires ReadNum(flags, id + ".value") == None
    requires ReadNum(flags, id + ".max").Some? && ReadNum(flags, id + ".max").value > 0
    ensures CounterFlags(flags, id, Some("fraction"), Click(false, ctrl)) == flags
  {
  }

  /** A success/failure counter: a ctrl-click moves only "<id>.failure", any
      other click only "<id>.success", each starting from 0 when missing. */
  lemma SuccessFailureKey(flags: map<string, FlagValue>, id: string, click: Click)
    ensures var key := if click.ctrl then id + ".failure" else id + ".success";
      CounterFlags(flags, id, Some("successFailure"), click)
        == AdjustFlag(flags, key, OrZero(ReadNum(flags, key)), click.rightClick)
  {
  }

  /** A number counter: a primary click adds one, a right click takes one
      away down to 0, and no other path changes. */
  lemma NumberCounter(flags: map<string, FlagValue>, id: string, click: Click, value: nat)
    requires ReadNum(flags, id) == Some(value)
    ensures var r := CounterFlags(flags, id, Some("number"), click);
      ReadNum(r, id) == Some(if click.rightClick then (if value > 0 then value - 1 else 0) else value + 1)
      && forall k :: k != id ==> (k in r <==> k in flags) && (k in flags ==> r[k] == flags[k])
  {
    AdjustOneKey(flags, id, value, click.rightClick);
  }

  /** The step of `modifyCounter`: the death-save roll, exhaustion,
      inspiration, or a custom counter. */
  function CounterStep(s: ActorState, click: Click, actionId: Option<string>): (r: Step)
    ensures r.state == s.(exhaustion := r.state.exhaustion, inspiration := r.state.inspiration, flags := r.state.flags)
    ensures r.state.exhaustion != s.exhaustion ==> actionId == Some("exhaustion")
    ensures r.state.inspiration != s.inspiration ==> actionId == Some("inspiration")
  {
    if actionId == Some("death-saves") then Step(s, [RollDeathSave(s.id)])
    else if actionId == Some("exhaustion") then ExhaustionStep(s, click)
    else if actionId == Some("inspiration") then InspirationStep(s)
    else
      var (id, kind) := CounterParts(actionId);
      Step(s.(flags := CounterFlags(s.flags, id, kind, click)), [])
  }

  /** The first position of xs where p holds. */
  function FirstIndex<T>(xs: seq<T>, p: T -> bool): (r: Option<nat>)
    ensures r.Some? ==> r.value < |xs| && p(xs[r.value]) && forall j :: 0 <= j < r.value ==> !p(xs[j])
    ensures r.None? ==> forall j :: 0 <= j < |xs| ==> !p(xs[j])
  {
    if xs == [] then None
    else
      var front := FirstIndex(xs[..|xs| - 1], p);
      if front.Some? then front
      else if p(xs[|xs| - 1]) then Some(|xs| - 1)
      else None
  }

  /** `#needsRecharge`: the item recharges and has no use left. */
  function NeedsRecharge(item: Option<Item>): (r: bool) {
    item.Some? && item.value.uses.period == "recharge" && !(item.value.uses.value > 0)
  }

  /** Whether an effect's statuses are all the action id: `every`, so an
      effect with no status at all matches any id. */
  predicate StatusesAll(e: Effect, actionId: Option<string>) {
    forall k :: 0 <= k < |e.statuses| ==> Some(e.statuses[k]) == actionId
  }

  /** `#findEffect`: the first own effect whose statuses are all the action id. */
  function FindEffect(effects: seq<Effect>, actionId: Option<string>): Option<nat> {
    FirstIndex(effects, e => StatusesAll(e, actionId))
  }

  /** `#findEffect` as written picks an effect that has no statuses at all,
      whatever condition is toggled, when no earlier effect matches. */
  lemma FindEffectVacuous(effects: seq<Effect>, i: nat, actionId: Option<string>)
    requires i < |effects| && effects[i].statuses == []
    ensures FindEffect(effects, actionId).Some? && FindEffect(effects, actionId).value <= i
  {
    assert StatusesAll(effects[i], actionId);
  }

  predicate HasId(e: Effect, actionId: Option<string>) {
    Some(e.id) == actionId
  }

  /** The first effect with the given id. */
  function FindById(effects: seq<Effect>, actionId: Option<string>): Option<nat> {
    FirstIndex(effects, e => HasId(e, actionId))
  }

  predicate IsStatus(c: StatusEffect, actionId: Option<string>) {
    Some(c.id) == actionId
  }

  /** `#findCondition`: the first status effect with the given id. */
  function FindCondition(statusEffects: seq<StatusEffect>, actionId: Option<string>): Option<nat> {
    FirstIndex(statusEffects, c => IsStatus(c, actionId))
  }

  predicate ItemHasId(item: Item, actionId: Option<string>) {
    Some(item.id) == actionId
  }

  /** The actor's item with the given id, as the core's item lookup finds it. */
  function FindItem(items: seq<Item>, actionId: Option<string>): Option<Item> {
    var i := FirstIndex(items, it => ItemHasId(it, actionId));
    if i.Some? then Some(items[i.value]) else None
  }

  /** The sequence without its element at position i. */
  function RemoveAt(es: seq<Effect>, i: nat): (r: seq<Effect>)
    requires i < |es|
    ensures |r| == |es| - 1
    ensures forall j :: 0 <= j < i ==> r[j] == es[j]
    ensures forall j :: i <= j < |r| ==> r[j] == es[j + 1]
  {
    es[..i] + es[i + 1..]
  }

  /** The sequence with `disabled` flipped on its element at position i. */
  function FlipAt(es: seq<Effect>, i: nat): (r: seq<Effect>)
    requires i < |es|
    ensures |r| == |es| && r[i].disabled == !es[i].disabled
    ensures r[i] == es[i].(disabled := !es[i].disabled)
    ensures forall j :: 0 <= j < |es| && j != i ==> r[j] == es[j]
  {
    es[i := es[i].(disabled := !es[i].disabled)]
  }

  /** The step of `toggleCondition` when a token is at hand: nothing for an
      unknown condition; otherwise the first own effect whose statuses are
      all the condition is deleted when it is disabled, the condition is
      toggled (as an overlay on a right click) and the HUD refreshed. */
  function ConditionStep(s: ActorState, env: Env, click: Click, actionId: Option<string>): (r: Step)
    ensures r.state == s.(effects := r.state.effects)
    ensures |r.state.effects| >= |s.effects| - 1
  {
    match FindCondition(env.statusEffects, actionId)
    case None => Step(s, [])
    case Some(c) =>
      var found := FindEffect(s.effects, actionId);
      var s' := if found.Some? && s.effects[found.value].disabled
                then s.(effects := RemoveAt(s.effects, found.value)) else s;
      Step(s', [ToggleStatusEffect(s.id, env.statusEffects[c].id, click.rightClick), RefreshHud])
  }

  /** The step `toggleEffect` evidently means to take (as written it never
      gets this far; see Handle): an own effect with the id is deleted on a
      right click and otherwise has `disabled` flipped; an effect found only
      among the item effects always has `disabled` flipped; an unknown id
      changes nothing and makes no call. */
  function EffectStep(s: ActorState, click: Click, actionId: Option<string>): (r: Step)
    ensures r.state == s.(effects := r.state.effects, itemEffects := r.state.itemEffects)
  {
    match FindById(s.effects, actionId)
    case Some(i) =>
      if click.rightClick then Step(s.(effects := RemoveAt(s.effects, i)), [RefreshHud])
      else Step(s.(effects := FlipAt(s.effects, i)), [RefreshHud])
    case None =>
      match FindById(s.itemEffects, actionId)
      case Some(j) => Step(s.(itemEffects := FlipAt(s.itemEffects, j)), [RefreshHud])
      case None => Step(s, [])
  }

  /** The step `toggleEffect` evidently means to take: an unknown id changes
      nothing; a right click deletes an own effect; any other click on an own
      effect flips `disabled`, and so does every click on an effect known
      only through the items. */
  lemma EffectToggleOrDelete(s: ActorState, click: Click, actionId: Option<string>)
    ensures var r := EffectStep(s, click, actionId);
      var own := FindById(s.effects, actionId);
      var other := FindById(s.itemEffects, actionId);
      (own.None? && other.None? ==> r == Step(s, []))
      && (own.Some? && click.rightClick ==>
            |r.state.effects| == |s.effects| - 1 && r.state.itemEffects == s.itemEffects)
      && (own.Some? && !click.rightClick ==>
            r.state.effects[own.value].disabled == !s.effects[own.value].disabled
            && |r.state.effects| == |s.effects| && r.state.itemEffects == s.itemEffects)
      && (own.None? && other.Some? ==>
            r.state.itemEffects[other.value].disabled == !s.itemEffects[other.value].disabled
            && r.state.effects == s.effects)
      && r.state.(effects := s.effects, itemEffects := s.itemEffects) == s
  {
  }

  /** The step of `useItem`: the recharge roll when the item needs one,
      otherwise the item's use; None when no item has the id, where `item.use`
      throws. */
  function UseStep(s: ActorState, actionId: Option<string>): (r: Option<Step>)
    ensures r.Some? ==> r.value.state == s && |r.value.events| == 1
    ensures r.None? <==> FindItem(s.items, actionId).None?
  {
    var item := FindItem(s.items, actionId);
    if NeedsRecharge(item) then Some(Step(s, [RollRecharge(s.id, item.value.id)]))
    else if item.Some? then Some(Step(s, [UseItem(s.id, item.value.id)]))
    else None
  }

  /** An item click rolls recharge instead of using the item exactly when the
      item recharges and has no use left. */
  lemma RechargeOrUse(s: ActorState, it: Item, actionId: Option<string>)
    requires FindItem(s.items, actionId) == Some(it)
    ensures UseStep(s, actionId).Some?
    ensures UseStep(s, actionId).value.events == [RollRecharge(s.id, it.id)]
            <==> it.uses.period == "recharge" && it.uses.value <= 0
    ensures UseStep(s, actionId).value.events == [UseItem(s.id, it.id)]
            <==> !(it.uses.period == "recharge" && it.uses.value <= 0)
  {
  }

  /** The step of `performUtilityAction`; the HUD is refreshed in every case. */
  function UtilityStep(s: ActorState, env: Env, tokenId: Option<string>, actionId: Option<string>): (r: Step)
    ensures r.state == s.(inspiration := r.state.inspiration)
    ensures r.events != [] && r.events[|r.events| - 1] == RefreshHud
  {
    if actionId == Some("deathSave") then Step(s, [RollDeathSave(s.id), RefreshHud])
    else if actionId == Some("endTurn") then
      if tokenId.Some? && env.combatTokenId == tokenId then Step(s, [NextTurn, RefreshHud])
      else Step(s, [RefreshHud])
    else if actionId == Some("initiative") then Step(s, [RollInitiative(s.id), RefreshHud, RefreshHud])
    else if actionId == Some("inspiration") then Step(s.(inspiration := !s.inspiration), [RefreshHud])
    else if actionId == Some("longRest") then Step(s, [LongRest(s.id), RefreshHud])
    else if actionId == Some("shortRest") then Step(s, [ShortRest(s.id), RefreshHud])
    else Step(s, [RefreshHud])
  }

  /** "endTurn" advances the combat exactly when the clicked token is the
      current combatant's token. */
  lemma EndTurnGuarded(s: ActorState, env: Env, tokenId: Option<string>)
    ensures NextTurn in UtilityStep(s, env, tokenId, Some("endTurn")).events
            <==> tokenId.Some? && env.combatTokenId == tokenId
    ensures UtilityStep(s, env, tokenId, Some("endTurn")).state == s
  {
  }

  /** The item action types. */
  predicate IsItemType(actionType: string) {
    actionType == "feature" || actionType == "item" || actionType == "spell" || actionType == "weapon"
  }

  /** `handleAction`: the step for one actor (and the token it was clicked
      through, if any); None when the handler throws. Two handlers throw
      before they change anything:
      - `toggleCondition` reads `actionId.startsWith` when no status effect
        has the id, which throws when the action has no id;
      - `toggleEffect` takes the collection's `entries` member when it is
        truthy; on the actor's effect collection, a Map, that member is the
        iterator method, so the `find` it then calls is missing and every
        effect click throws. */
  function Handle(s: ActorState, env: Env, click: Click, actionType: string, tokenId: Option<string>,
                  actionId: Option<string>): Option<Step>
  {
    if actionType == "ability" then Some(Step(s, if s.hasAbilities then [RollAbility(s.id, actionId)] else []))
    else if actionType == "check" then Some(Step(s, if s.hasAbilities then [RollAbilityTest(s.id, actionId)] else []))
    else if actionType == "save" then Some(Step(s, if s.hasAbilities then [RollAbilitySave(s.id, actionId)] else []))
    else if actionType == "condition" then
      if tokenId.None? then Some(Step(s, []))
      else if actionId.None? then None
      else Some(ConditionStep(s, env, click, actionId))
    else if actionType == "counter" then Some(CounterStep(s, click, actionId))
    else if actionType == "effect" then None
    else if actionType == "exhaustion" then Some(ExhaustionStep(s, click))
    else if IsItemType(actionType) then
      if env.renderItems then Some(Step(s, [RenderItem(s.id, actionId)])) else UseStep(s, actionId)
    else if actionType == "skill" then Some(Step(s, if s.hasSkills then [RollSkill(s.id, actionId)] else []))
    else if actionType == "utility" then Some(UtilityStep(s, env, tokenId, actionId))
    else Some(Step(s, []))
  }

  /** The action types `handleAction` knows (besides "magicItem", which is
      not part of this model). */
  predicate KnownType(actionType: string) {
    actionType in ["ability", "check", "save", "condition", "counter", "effect", "exhaustion",
                   "feature", "item", "spell", "weapon", "skill", "utility"]
  }

  /** An unknown action type does nothing, and so does a condition clicked
      without a token. A click fails exactly when it is an item click that
      uses an item no item of the actor has the id of, an effect click, or a
      condition click through a token without an action id. */
  lemma RoutingDoesNothing(s: ActorState, env: Env, click: Click, actionType: string, tokenId: Option<string>,
                           actionId: Option<string>)
    ensures !KnownType(actionType) ==> Handle(s, env, click, actionType, tokenId, actionId) == Some(Step(s, []))
    ensures actionType == "condition" && tokenId.None? ==>
      Handle(s, env, click, actionType, tokenId, actionId) == Some(Step(s, []))
    ensures Handle(s, env, click, actionType, tokenId, actionId).None? <==>
      (IsItemType(actionType) && !env.renderItems && FindItem(s.items, actionId).None?)
      || actionType == "effect"
      || (actionType == "condition" && tokenId.Some? && actionId.None?)
  {
  }

  /** The effect handler as written throws on every click, although the step
      it evidently means to take changes the actor whenever the id names one
      of its own effects. */
  lemma {:induction false} EffectClickThrows(s: ActorState, env: Env, click: Click, tokenId: Option<string>,
                                             actionId: Option<string>)
    ensures Handle(s, env, click, "effect", tokenId, actionId).None?
    ensures FindById(s.effects, actionId).Some? ==> EffectStep(s, click, actionId).state != s
  {
    EffectToggleOrDelete(s, click, actionId);
    var own := FindById(s.effects, actionId);
    if own.Some? && !click.rightClick {
      var r := EffectStep(s, click, actionId);
      assert r.state.effects[own.value] != s.effects[own.value];
    }
  }

  /** Only the exhaustion handler and the "exhaustion" counter change the
      exhaustion level. */
  lemma ExhaustionOnlyByExhaustion(s: ActorState, env: Env, click: Click, actionType: string,
                                   tokenId: Option<string>, actionId: Option<string>)
    requires Handle(s, env, click, actionType, tokenId, actionId).Some?
    ensures Handle(s, env, click, actionType, tokenId, actionId).value.state.exhaustion != s.exhaustion
            ==> actionType == "exhaustion" || (actionType == "counter" && actionId == Some("exhaustion"))
  {
  }

  /** Only the counter handler changes the flags. */
  lemma FlagsOnlyByCounters(s: ActorState, env: Env, click: Click, actionType: string,
                            tokenId: Option<string>, actionId: Option<string>)
    requires Handle(s, env, click, actionType, tokenId, actionId).Some?
    ensures actionType != "counter" ==> Handle(s, env, click, actionType, tokenId, actionId).value.state.flags == s.flags
  {
  }
}
