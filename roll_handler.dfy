/** The click dispatcher of scripts/roll-handler.js as it runs: actors whose
    state the handlers update in place, tokens that stand for an actor on the
    canvas, and the handler object that decodes a click and routes it, once
    for the selected actor or once per controlled token. Every method is
    proved against the step functions of module Dispatch; the engine calls
    are appended to the handler's event log. */
module RollHandling {
  import opened Strings
  import opened Entities
  import opened Dispatch

  /** An actor whose exhaustion, inspiration, flags and effects the handlers change. */
  class Actor {
    const id: string
    var exhaustion: int
    var inspiration: bool
    var flags: map<string, FlagValue>
    var effects: seq<Effect>
    var itemEffects: seq<Effect>
    const items: seq<Item>
    const hasAbilities: bool
    const hasSkills: bool

    /** The actor's current state as a value. */
    function State(): ActorState
      reads this
    {
      ActorState(id, exhaustion, inspiration, flags, effects, itemEffects, items, hasAbilities, hasSkills)
    }

    constructor (s: ActorState)
      ensures State() == s
    {
      id, exhaustion, inspiration, flags := s.id, s.exhaustion, s.inspiration, s.flags;
      effects, itemEffects, items := s.effects, s.itemEffects, s.items;
      hasAbilities, hasSkills := s.hasAbilities, s.hasSkills;
    }
  }

  /** A token on the canvas and the actor it represents. */
  class Token {
    const id: string
    const actor: Actor

    constructor (id: string, actor: Actor)
      ensures this.id == id && this.actor == actor
    {
      this.id := id;
      this.actor := actor;
    }
  }

  /** The actors of the given tokens. */
  function ActorsOf(tokens: seq<Token>): (r: set<Actor>)
    ensures forall i :: 0 <= i < |tokens| ==> tokens[i].actor in r
    ensures forall a :: a in r ==> exists i :: 0 <= i < |tokens| && tokens[i].actor == a
  {
    set t | t in tokens :: t.actor
  }

  /** The states of the actors of the given tokens. */
  function WorldOf(tokens: seq<Token>): (r: map<Actor, ActorState>)
    reads ActorsOf(tokens)
    ensures r.Keys == ActorsOf(tokens) && Covers(r, tokens)
  {
    map a | a in ActorsOf(tokens) :: a.State()
  }

  /** Every actor in `actors` is in the state `world` gives it. */
  predicate Matches(actors: set<Actor>, world: map<Actor, ActorState>)
    reads actors
  {
    forall a :: a in actors ==> a in world && a.State() == world[a]
  }

  /** Appending to the log: the grouping of the appends does not matter. */
  lemma EventsAssoc(a: seq<Event>, b: seq<Event>, c: seq<Event>)
    ensures a + b + c == a + (b + c)
  {
  }

  /** Every token's actor has a state in `world`. */
  predicate Covers(world: map<Actor, ActorState>, tokens: seq<Token>) {
    forall i :: 0 <= i < |tokens| ==> tokens[i].actor in world
  }

  lemma CoversPrefix(world: map<Actor, ActorState>, tokens: seq<Token>, n: nat)
    requires Covers(world, tokens) && n <= |tokens|
    ensures Covers(world, tokens[..n])
  {
  }

  /** The outcome of handling a click once per token: every actor's state,
      the calls made, and whether every handler returned normally. */
  datatype Sweep = Sweep(world: map<Actor, ActorState>, events: seq<Event>, ok: bool)

  /** The handler of one decoded click, for an actor and the id of the token
      it was clicked through. */
  function Clicked(env: Env, click: Click, cmd: Command): (ActorState, Option<string>) -> Option<Step> {
    (s, tokenId) => Handle(s, env, click, cmd.actionType, tokenId, cmd.actionId)
  }

  /** The loop of `handleActionClick` over the controlled tokens: each token's
      actor, in the state the tokens before left it in, is handled through that
      token; a handler that throws ends the loop. */
  function ClickSweep(world: map<Actor, ActorState>, tokens: seq<Token>,
                      handle: (ActorState, Option<string>) -> Option<Step>): (r: Sweep)
    requires Covers(world, tokens)
    ensures r.world.Keys == world.Keys
    ensures forall a :: a in world && (forall i :: 0 <= i < |tokens| ==> tokens[i].actor != a) ==> r.world[a] == world[a]
    decreases |tokens|
  {
    if tokens == [] then Sweep(world, [], true)
    else
      var before := ClickSweep(world, tokens[..|tokens| - 1], handle);
      var t := tokens[|tokens| - 1];
      if !before.ok then before
      else
        match handle(before.world[t.actor], Some(t.id))
        case None => Sweep(before.world, before.events, false)
        case Some(st) => Sweep(before.world[t.actor := st.state], before.events + st.events, true)
  }

  /** One more turn of the loop handles the next token's actor in the state
      the turns before left it in. */
  lemma SweepStep(world: map<Actor, ActorState>, tokens: seq<Token>, i: nat,
                  handle: (ActorState, Option<string>) -> Option<Step>)
    requires Covers(world, tokens)
    requires i < |tokens|
    requires ClickSweep(world, tokens[..i], handle).ok
    ensures var before := ClickSweep(world, tokens[..i], handle);
      var t := tokens[i];
      var h := handle(before.world[t.actor], Some(t.id));
      ClickSweep(world, tokens[..i + 1], handle)
        == if h.None? then Sweep(before.world, before.events, false)
           else Sweep(before.world[t.actor := h.value.state], before.events + h.value.events, true)
  {
    assert tokens[..i + 1][..i] == tokens[..i];
  }

  /** Once a handler has thrown, the tokens after it are not handled. */
  lemma {:induction false} SweepStopsAtFailure(world: map<Actor, ActorState>, tokens: seq<Token>, j: nat,
                                               handle: (ActorState, Option<string>) -> Option<Step>)
    requires Covers(world, tokens)
    requires j <= |tokens|
    requires !ClickSweep(world, tokens[..j], handle).ok
    ensures ClickSweep(world, tokens, handle) == ClickSweep(world, tokens[..j], handle)
    decreases |tokens| - j
  {
    if j < |tokens| {
      var next := tokens[..j + 1];
      assert next[..j] == tokens[..j];
      SweepStopsAtFailure(world, tokens, j + 1, handle);
    } else {
      assert tokens[..j] == tokens;
    }
  }

  /** When the tokens represent different actors and no handler throws, the
      actor of token i ends in the state its own click gives from its state
      before the loop, as if it had been clicked alone. */
  lemma {:induction false} SweepDistinctActors(world: map<Actor, ActorState>, tokens: seq<Token>, i: nat,
                                               handle: (ActorState, Option<string>) -> Option<Step>)
    requires Covers(world, tokens)
    requires forall j, k :: 0 <= j < k < |tokens| ==> tokens[j].actor != tokens[k].actor
    requires i < |tokens| && ClickSweep(world, tokens, handle).ok
    ensures handle(world[tokens[i].actor], Some(tokens[i].id)).Some?
    ensures ClickSweep(world, tokens, handle).world[tokens[i].actor]
            == handle(world[tokens[i].actor], Some(tokens[i].id)).value.state
    decreases |tokens|
  {
    var n := |tokens| - 1;
    if i == n {
      SweepLast(world, tokens, handle);
    } else {
      var front := tokens[..n];
      SweepEarlier(world, tokens, i, handle);
      assert tokens[i] == front[i];
      SweepDistinctActors(world, front, i, handle);
    }
  }

  /** The last token's actor, when no earlier token represents it, is
      handled in its state before the loop. */
  lemma SweepLast(world: map<Actor, ActorState>, tokens: seq<Token>,
                  handle: (ActorState, Option<string>) -> Option<Step>)
    requires Covers(world, tokens) && tokens != []
    requires forall j :: 0 <= j < |tokens| - 1 ==> tokens[j].actor != tokens[|tokens| - 1].actor
    requires ClickSweep(world, tokens, handle).ok
    ensures var t := tokens[|tokens| - 1];
      handle(world[t.actor], Some(t.id)).Some?
      && ClickSweep(world, tokens, handle).world[t.actor] == handle(world[t.actor], Some(t.id)).value.state
  {
    var n := |tokens| - 1;
    var front := tokens[..n];
    var t := tokens[n];
    assert forall j :: 0 <= j < |front| ==> front[j].actor != t.actor;
    assert ClickSweep(world, front, handle).world[t.actor] == world[t.actor];
  }

  /** The last token's turn leaves the actors of the other tokens alone. */
  lemma SweepEarlier(world: map<Actor, ActorState>, tokens: seq<Token>, i: nat,
                     handle: (ActorState, Option<string>) -> Option<Step>)
    requires Covers(world, tokens) && i < |tokens| - 1
    requires tokens[i].actor != tokens[|tokens| - 1].actor
    requires ClickSweep(world, tokens, handle).ok
    ensures var front := tokens[..|tokens| - 1];
      ClickSweep(world, front, handle).ok
      && ClickSweep(world, tokens, handle).world[tokens[i].actor] == ClickSweep(world, front, handle).world[tokens[i].actor]
  {
  }

  /** The object that receives the HUD's clicks. `actor` and `token` are the
      selected actor and token (null when several tokens are controlled);
      `events` is the log of the calls made so far. */
  class RollHandler {
    var actor: Actor?
    var token: Token?
    var events: seq<Event>
    const env: Env

    constructor (env: Env, actor: Actor?, token: Token?)
      ensures this.env == env && this.actor == actor && this.token == token && events == []
    {
      this.env := env;
      this.actor := actor;
      this.token := token;
      events := [];
    }

    /** The id of the selected token, if any. */
    function TokenId(): Option<string>
      reads this
    {
      if token != null then Some(token.id) else None
    }

    /** The actors a click can change. */
    function Targets(controlled: seq<Token>): set<Actor>
      reads this
    {
      if actor != null then {actor} else ActorsOf(controlled)
    }

    /** `handleActionClick`: decodes the encoded value and handles it for the
        selected actor through the selected token, or, without a selected
        actor, once per controlled token. ok is false when a handler threw. */
    method HandleActionClick(click: Click, encoded: string, controlled: seq<Token>) returns (ok: bool)
      modifies this`events, Targets(controlled)
      ensures old(actor) != null ==>
        var h := Handle(old(actor.State()), env, click, Decode(encoded).actionType, old(TokenId()), Decode(encoded).actionId);
        ok == h.Some?
        && (h.Some? ==> actor.State() == h.value.state && events == old(events) + h.value.events)
        && (h.None? ==> actor.State() == old(actor.State()) && events == old(events))
      ensures old(actor) == null ==>
        var sw := ClickSweep(old(WorldOf(controlled)), controlled, Clicked(env, click, Decode(encoded)));
        ok == sw.ok && events == old(events) + sw.events
        && Matches(ActorsOf(controlled), sw.world)
    {
      var cmd := Decode(encoded);
      if actor != null {
        ok := HandleAction(click, cmd.actionType, actor, TokenId(), cmd.actionId);
      } else {
        ok := HandleTokens(click, cmd, controlled);
      }
    }

    /** The loop of `handleActionClick` over the controlled tokens. */
    method HandleTokens(click: Click, cmd: Command, controlled: seq<Token>) returns (ok: bool)
      modifies this`events, ActorsOf(controlled)
      ensures var sw := ClickSweep(old(WorldOf(controlled)), controlled, Clicked(env, click, cmd));
        ok == sw.ok && events == old(events) + sw.events
        && Matches(ActorsOf(controlled), sw.world)
    {
      ghost var world := WorldOf(controlled);
      ghost var actors := ActorsOf(controlled);
      ok := true;
      var i := 0;
      while i < |controlled|
        invariant 0 <= i <= |controlled| && Covers(world, controlled[..i])
        invariant var sw := ClickSweep(world, controlled[..i], Clicked(env, click, cmd));
          sw.ok && events == old(events) + sw.events && Matches(actors, sw.world)
      {
        CoversPrefix(world, controlled, i + 1);
        ok := HandleToken(click, cmd, controlled, i, world, actors, old(events));
        if !ok {
          SweepStopsAtFailure(world, controlled, i + 1, Clicked(env, click, cmd));
          return;
        }
        i := i + 1;
      }
      assert controlled[..i] == controlled;
    }

    /** One turn of the loop of `handleActionClick`: the click handled for
        the actor of token i through that token, in the state the turns
        before left it in. */
    method HandleToken(click: Click, cmd: Command, controlled: seq<Token>, i: nat,
                       ghost world: map<Actor, ActorState>, ghost actors: set<Actor>, ghost log: seq<Event>)
      returns (ok: bool)
      requires i < |controlled| && Covers(world, controlled) && controlled[i].actor in actors
      requires var sw := ClickSweep(world, controlled[..i], Clicked(env, click, cmd));
        sw.ok && events == log + sw.events && Matches(actors, sw.world)
      modifies this`events, controlled[i].actor
      ensures var sw := ClickSweep(world, controlled[..i + 1], Clicked(env, click, cmd));
        ok == sw.ok && events == log + sw.events && Matches(actors, sw.world)
    {
      var t := controlled[i];
      ghost var handle := Clicked(env, click, cmd);
      ghost var before := ClickSweep(world, controlled[..i], handle);
      SweepStep(world, controlled, i, handle);
      assert before.world[t.actor] == t.actor.State();
      ok := HandleAction(click, cmd.actionType, t.actor, Some(t.id), cmd.actionId);
      if ok {
        ghost var after := before.world[t.actor := t.actor.State()];
        forall a | a in actors ensures a in after && a.State() == after[a] {
          if a != t.actor {
            assert a.State() == old(a.State());
          }
        }
        EventsAssoc(log, before.events, events[|log| + |before.events|..]);
      } else {
        forall a | a in actors ensures a in before.world && a.State() == before.world[a] {
          assert a.State() == old(a.State());
        }
      }
    }

    /** `handleAction`: routes the action to its handler; ok is false when
        the handler threw. */
    method HandleAction(click: Click, actionType: string, a: Actor, tokenId: Option<string>,
                        actionId: Option<string>) returns (ok: bool)
      modifies this`events, a
      ensures var h := Handle(old(a.State()), env, click, actionType, tokenId, actionId);
        ok == h.Some?
        && (h.Some? ==> a.State() == h.value.state && events == old(events) + h.value.events)
        && (h.None? ==> a.State() == old(a.State()) && events == old(events))
    {
      ok := true;
      if actionType == "ability" {
        if a.hasAbilities { events := events + [RollAbility(a.id, actionId)]; }
      } else if actionType == "check" {
        if a.hasAbilities { events := events + [RollAbilityTest(a.id, actionId)]; }
      } else if actionType == "save" {
        if a.hasAbilities { events := events + [RollAbilitySave(a.id, actionId)]; }
      } else if actionType == "condition" {
        if tokenId.Some? { ok := ToggleCondition(click, a, actionId); }
      } else if actionType == "counter" {
        ModifyCounter(click, a, actionId);
      } else if actionType == "effect" {
        // `toggleEffect` throws on its second line (see Dispatch.Handle).
        ok := false;
      } else if actionType == "exhaustion" {
        ModifyExhaustion(click, a);
      } else if IsItemType(actionType) {
        if env.renderItems {
          events := events + [RenderItem(a.id, actionId)];
        } else {
          ok := UseItem(a, actionId);
        }
      } else if actionType == "skill" {
        if a.hasSkills { events := events + [RollSkill(a.id, actionId)]; }
      } else if actionType == "utility" {
        PerformUtilityAction(a, tokenId, actionId);
      }
    }

    /** `modifyCounter`. */
    method ModifyCounter(click: Click, a: Actor, actionId: Option<string>)
      modifies this`events, a
      ensures var st := CounterStep(old(a.State()), click, actionId);
        a.State() == st.state && events == old(events) + st.events
    {
      if actionId == Some("death-saves") {
        events := events + [RollDeathSave(a.id)];
      } else if actionId == Some("exhaustion") {
        ModifyExhaustion(click, a);
      } else if actionId == Some("inspiration") {
        ModifyInspiration(a);
      } else {
        ModifyCustomCounter(click, a, actionId);
      }
    }

    /** `modifyExhaustion`. */
    method ModifyExhaustion(click: Click, a: Actor)
      modifies a
      ensures a.State() == ExhaustionStep(old(a.State()), click).state
    {
      var current := a.exhaustion;
      var next := current + (if click.rightClick then -1 else 1);
      if next >= 0 && next != current {
        a.exhaustion := next;
      }
    }

    /** `modifyInspiration`. */
    method ModifyInspiration(a: Actor)
      modifies a
      ensures a.State() == InspirationStep(old(a.State())).state
    {
      a.inspiration := !a.inspiration;
    }

    /** `adjustValue` with its `setFlag`. */
    method AdjustValue(a: Actor, key: string, current: int, rightClick: bool)
      modifies a
      ensures a.State() == old(a.State()).(flags := AdjustFlag(old(a.flags), key, current, rightClick))
    {
      var next := if rightClick then (if current - 1 > 0 then current - 1 else 0) else current + 1;
      if next != current {
        a.flags := a.flags[key := Num(next)];
      }
    }

    /** `modifyCustomCounter`. */
    method ModifyCustomCounter(click: Click, a: Actor, actionId: Option<string>)
      modifies a
      ensures var (id, kind) := CounterParts(actionId);
        a.State() == old(a.State()).(flags := CounterFlags(old(a.flags), id, kind, click))
    {
      var (id, kind) := CounterParts(actionId);
      if kind == Some("checkbox") {
        a.flags := a.flags[id := Undefined];
      } else if kind == Some("fraction") {
        var value := ReadNum(a.flags, id + ".value");
        var max := ReadNum(a.flags, id + ".max");
        var hasMax := max.Some? && max.value != 0;
        if click.rightClick || (hasMax && value.Some? && value.value < max.value) || !hasMax {
          AdjustValue(a, id + ".value", OrZero(value), click.rightClick);
        }
      } else if kind == Some("number") {
        AdjustValue(a, id, OrZero(ReadNum(a.flags, id)), click.rightClick);
      } else if kind == Some("successFailure") {
        var success := OrZero(ReadNum(a.flags, id + ".success"));
        var failure := OrZero(ReadNum(a.flags, id + ".failure"));
        if click.ctrl {
          AdjustValue(a, id + ".failure", failure, click.rightClick);
        } else {
          AdjustValue(a, id + ".success", success, click.rightClick);
        }
      }
    }

    /** `toggleCondition` once a token is at hand; ok is false when the
        action has no id, where reading `actionId.startsWith` throws. */
    method ToggleCondition(click: Click, a: Actor, actionId: Option<string>) returns (ok: bool)
      modifies this`events, a
      ensures ok == actionId.Some?
      ensures var st := ConditionStep(old(a.State()), env, click, actionId);
        ok ==> a.State() == st.state && events == old(events) + st.events
      ensures !ok ==> a.State() == old(a.State()) && events == old(events)
    {
      ok := actionId.Some?;
      if !ok {
        return;
      }
      var condition := FindCondition(env.statusEffects, actionId);
      if condition.None? {
        return;
      }
      var found := FindEffect(a.effects, actionId);
      if found.Some? && a.effects[found.value].disabled {
        a.effects := a.effects[..found.value] + a.effects[found.value + 1..];
      }
      events := events + [ToggleStatusEffect(a.id, env.statusEffects[condition.value].id, click.rightClick), RefreshHud];
    }

    /** The step `toggleEffect` evidently means to take, in place; as
        written the method throws before it looks an effect up, so
        HandleAction does not call this. */
    method ToggleEffect(click: Click, a: Actor, actionId: Option<string>)
      modifies this`events, a
      ensures var st := EffectStep(old(a.State()), click, actionId);
        a.State() == st.state && events == old(events) + st.events
    {
      var own := FindById(a.effects, actionId);
      if own.Some? {
        var i := own.value;
        if click.rightClick {
          a.effects := a.effects[..i] + a.effects[i + 1..];
        } else {
          a.effects := a.effects[i := a.effects[i].(disabled := !a.effects[i].disabled)];
        }
      } else {
        var other := FindById(a.itemEffects, actionId);
        if other.None? {
          return;
        }
        var j := other.value;
        a.itemEffects := a.itemEffects[j := a.itemEffects[j].(disabled := !a.itemEffects[j].disabled)];
      }
      events := events + [RefreshHud];
    }

    /** `useItem`; ok is false when no item has the id. */
    method UseItem(a: Actor, actionId: Option<string>) returns (ok: bool)
      modifies this`events
      ensures var st := UseStep(a.State(), actionId);
        ok == st.Some? && (st.Some? ==> events == old(events) + st.value.events) && (st.None? ==> events == old(events))
    {
      var item := FindItem(a.items, actionId);
      ok := true;
      if NeedsRecharge(item) {
        events := events + [RollRecharge(a.id, item.value.id)];
      } else if item.Some? {
        events := events + [Event.UseItem(a.id, item.value.id)];
      } else {
        ok := false;
      }
    }

    /** `performUtilityAction`. */
    method PerformUtilityAction(a: Actor, tokenId: Option<string>, actionId: Option<string>)
      modifies this`events, a
      ensures var st := UtilityStep(old(a.State()), env, tokenId, actionId);
        a.State() == st.state && events == old(events) + st.events
    {
      if actionId == Some("deathSave") {
        events := events + [RollDeathSave(a.id)];
      } else if actionId == Some("endTurn") {
        if tokenId.Some? && env.combatTokenId == tokenId {
          events := events + [NextTurn];
        }
      } else if actionId == Some("initiative") {
        events := events + [RollInitiative(a.id), RefreshHud];
      } else if actionId == Some("inspiration") {
        ModifyInspiration(a);
      } else if actionId == Some("longRest") {
        events := events + [LongRest(a.id)];
      } else if actionId == Some("shortRest") {
        events := events + [ShortRest(a.id)];
      }
      events := events + [RefreshHud];
    }
  }
}
