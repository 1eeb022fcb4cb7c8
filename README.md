# Token Action HUD for D&D 5e — a verified model of its core

Token Action HUD shows, for the token selected on a Foundry VTT canvas, a panel of
groups of actions: the actor's features, inventory, spells, effects, conditions,
exhaustion, rests and utility actions. Clicking an action rolls it, uses the item,
toggles the effect or changes a counter. This project models three parts of the
D&D 5e adapter and proves what they promise:

- **The action classifier** (`scripts/action-handler.js`). It reads the selected
  actor's items and sorts them into buckets: features by activity and by
  type/subtype tables; inventory by equipped state, consumables and item type;
  spells by linked activity, casting method and level. It walks the actor's
  spell-slot entries in reverse with sticky availability flags, and gates the
  levelled and pact spell groups on the result. It splits each group into
  activation sub-groups named `"<bucket>+<parent>"`. It also partitions effects
  into passive and temporary ones, and decides the condition, exhaustion, rest
  and utility groups. The HUD is an output log of calls (`AddGroup`,
  `AddActions`, `AddGroupInfo`). The class `Handler.ActionHandler` keeps the
  selection in fields like the source object does. Each of its builders is
  proved to append exactly the calls of the specification function of its
  stage. Properties of those functions are proved as lemmas.
- **The click dispatcher** (`scripts/roll-handler.js`). It decodes
  `"type|id"` and routes the click to a handler. Actors are objects
  (`RollHandling.Actor`) whose exhaustion, inspiration, custom-counter flags
  and effects the handlers update in place. Calls into the rules engine are
  appended to an event log. Each method is proved against a step function of
  module `Dispatch`. The loop over controlled tokens is proved against
  `RollHandling.ClickSweep`, which threads each actor's state from one token to
  the next.
- **The lookup tables** (`scripts/constants.js`) as constant functions, and
  **`Utils.capitalize`** (`scripts/utils.js`) as recursion over the string.

Several rules are modelled as the code is written, not as it was meant, and
lemmas show the consequences:

- The pact-slot propagation writes `slotsAvailable`, but the gate reads
  `slotAvailable`. So it never opens a group (`SlotLedger.PropagateKeepsGates`,
  `SlotLedger.PactSlotDoesNotOpenLevelGroup`).
- An actor with spells but no `pact` slot entry makes the spell stage throw
  (`SpellGroups.MissingPactFails`). The builders after it then never run
  (`Handler.IncompleteOnlyOnSpellFailure`).
- Items whose activation type has no group go to the bucket `"other"`, which
  is never emitted (`Activations.OtherBucketNeverEmitted`).
- The `"reactions"` sub-group is emitted three times
  (`Activations.ReactionsEmittedThrice`).
- A checkbox counter is written `undefined` instead of being flipped
  (`Dispatch.CheckboxWritesUndefined`).
- `#findEffect` matches any effect with no statuses (`Dispatch.FindEffectVacuous`).
- A fraction counter with a max but no stored value ignores a primary click
  (`Dispatch.FractionWithoutValue`).
- `#getValidTokens` reads the actors after they have been filtered, so it keeps
  every token (`Status.AllTokensKept`). A mixed selection therefore shows every
  condition as active (`Status.MixedSelectionShowsAllConditions`).
- `toggleEffect` takes the effect collection's `entries` member, which is the
  Map iterator method, and calls `find` on it. So every effect click throws
  (`Dispatch.EffectClickThrows`); the step it evidently means to take is
  `Dispatch.EffectStep` (see "## Findings").
- A condition clicked through a token without an action id throws on
  `actionId.startsWith` (`Dispatch.RoutingDoesNothing`).

Modules: `Strings` (integer text, `split`/`join`), `Utils`, `Constants`,
`Entities` (the records), `ItemRules`, `Buckets` (the map-filling loop shared
by the classifiers), `Activations`, `Features`, `Inventory`, `Spells`,
`SlotLedger`, `SpellGroups`, `Emission`, `Status`, `Handler`, `Dispatch` and
`RollHandling`.

## Model

| member | source | states |
|---|---|---|
| Utils.Capitalize | scripts/utils.js:12-17 | the replacement keeps the length of the text |
| Utils.CapitalizeKeepsSpaces | scripts/utils.js:12-17 | every whitespace character stays where it is, and nothing else becomes whitespace |
| Utils.CapitalizeSplitsAtSpace | scripts/utils.js:14 | a match never crosses whitespace: the text on each side of a whitespace character is capitalized on its own |
| Utils.CapitalizeToken | scripts/utils.js:12-17 | in a whitespace-free token, the characters before the first word character are unchanged, that character is upper-cased and the rest lower-cased; a token with no word character is unchanged |
| Utils.CapitalizeIdempotent | scripts/utils.js:12-17 | capitalizing twice is capitalizing once |
| Utils.MatchIdempotent | scripts/utils.js:15 | a replaced match is a fixed point of the replacement |
| Strings.IntToStringRoundTrip | scripts/action-handler.js:824 | the text of an integer reads back as that integer |
| Strings.JoinSplit | scripts/roll-handler.js:14 | joining the pieces of a split gives the text back |
| Strings.SplitJoin | scripts/roll-handler.js:14 | splitting text joined from separator-free pieces gives the pieces back |
| Constants.ActivationGroupsFollowTable | scripts/constants.js:41-55 | the loop visits, for each key in declaration order, that key's group |
| Constants.ReactionKindsShareGroup | scripts/constants.js:50-52 | reaction, reactiondamage and reactionmanual all map to "reactions", which the loop order holds at exactly positions 8 to 10 |
| Constants.IconsAndGroups | scripts/constants.js:42-54 | day, hour and minute have an icon but no group; action and other have a group but no icon |
| Constants.ProficiencyIconDomain | scripts/constants.js:177-182 | icons exist exactly for the levels 0, 0.5, 1 and 2 |
| Constants.GroupListsDistinct | scripts/constants.js:74-97 | neither FEATURE_GROUP_IDS nor SPELL_GROUP_IDS repeats a key (each is a `GROUP` key by its type) |
| Constants.LevelledSpellGroupModes | scripts/constants.js:103-111 | the nine levelled groups, following the cantrips in SPELL_GROUP_IDS, have their level as spell mode |
| Constants.OtherSpellGroupModes | scripts/constants.js:115-150 | cantrips carry mode 0, at-will/innate/pact their mode names, additional spells none |
| ItemRules.ShowUnequipped | scripts/action-handler.js:42-45 | the resolved setting holds iff the general setting is on or the actor is an npc with the npc setting on |
| ItemRules.IsEquippedItem | scripts/action-handler.js:972-976 | a consumable is never counted as equipped; an equipped non-consumable always is |
| ItemRules.QuantityTextReadsBack | scripts/action-handler.js:1102-1108 | the quantity text reads back as the quantity exactly when it is above 1, and is empty otherwise |
| ItemRules.UsesText | scripts/action-handler.js:1118-1127 | there is a uses text exactly when the item has a positive max |
| ItemRules.UsesTextReadsBack | scripts/action-handler.js:1124-1125 | the uses text splits at its one '/' into max less spent and max |
| ItemRules.PreparedIconOf | scripts/action-handler.js:1253-1262 | an icon exists iff unprepared spells are shown, the item is a non-cantrip spell and its method is "spell" or it is always prepared; the class marks unprepared spells disabled; the title tells always prepared, prepared and unprepared apart |
| ItemRules.ActivationIconOf | scripts/action-handler.js:1224-1227 | the icon class is non-empty exactly when the activation type has a table icon |
| ItemRules.DiscardSlowItems | scripts/action-handler.js:1189-1201 | with slow actions shown the items are kept; otherwise exactly the items whose legacy activation is not minute, hour or day are kept |
| ItemRules.WithoutSlowKeepsOrder | scripts/action-handler.js:1197-1200 | the filter distributes over concatenation, so the kept items keep their order |
| ItemRules.ValidActors | scripts/action-handler.js:1077-1080 | the actors are kept when all are characters or npcs, and none are kept otherwise |
| Buckets.MembersIff | scripts/action-handler.js:541-560 | an item is in bucket k exactly when it is in the collection and k is among its keys |
| Buckets.MembersOfUnusedKey | scripts/action-handler.js:563-565 | a key no item maps to has an empty bucket |
| Buckets.FillBuckets | scripts/action-handler.js:541-560 | after the loop, a key is in the map exactly when its bucket is non-empty, and it holds that bucket in collection order |
| Buckets.AddToBuckets | scripts/action-handler.js:551-558 | one item is appended to the entry of each of its keys, and an entry is created for a new key |
| Features.Lookup | scripts/action-handler.js:550-558 | a table lookup finds a bucket exactly for the table's keys, and only a bucket the table lists |
| Features.FeatureKeysShape | scripts/action-handler.js:541-560 | a feat's buckets are its active or passive bucket, then its type bucket, then its subtype bucket |
| Features.FeatureFanOut | scripts/action-handler.js:541-560 | every feat is in active iff its first activity has a type, in passive otherwise, and in 1 to 3 distinct buckets |
| Features.TableValuesDisjoint | scripts/action-handler.js:515-539 | the two tables never name the same bucket, nor the active or passive one |
| Features.TableValuesListed | scripts/action-handler.js:515-539 | every bucket either table names is in FEATURE_GROUP_IDS |
| Features.FeatureBucketsAreOrdered | scripts/action-handler.js:563-565 | every bucket a feat lands in is visited by the emission order |
| Inventory.EquippedTypeBucket | scripts/action-handler.js:610-616 | a type bucket exists exactly for container, equipment, loot, tool and weapon |
| Inventory.InventoryGroupIds | scripts/action-handler.js:58-77 | eight groups for characters and npcs, four for vehicles, none otherwise |
| Inventory.InventoryEntry | scripts/action-handler.js:602-606 | an item is in some bucket iff its quantity is positive and it is active; it is then in equipped or unequipped by its equipped flag |
| Inventory.ConsumablesBucket | scripts/action-handler.js:608 | consumables receives exactly the entering consumables that pass the uses gate |
| Inventory.TypeBuckets | scripts/action-handler.js:609-617 | a type bucket receives exactly the entering items of that type that pass `#isEquippedItem`, never a consumable |
| Inventory.InventoryFanOut | scripts/action-handler.js:602-619 | an item is in at most three distinct buckets |
| Inventory.InventoryBucketsAreOrdered | scripts/action-handler.js:59-68 | every bucket is in the character and npc order |
| Spells.LevelBucket | scripts/action-handler.js:746-767 | a level bucket exists exactly for levels 0 to 9 |
| ItemRules.OfType | scripts/action-handler.js:506 | exactly the items of the given type (the feat filter here, the spell filter at line 708) |
| Spells.LevelBucketMode | scripts/action-handler.js:746-767 | the bucket of level n is the group whose spell mode is n |
| Spells.SpellBucketRule | scripts/action-handler.js:730-771 | a spell is in at most one bucket and only when it passes both gates; a linked spell only in additional spells, when shown in the spellbook; otherwise by method atwill, innate or pact, else by level |
| Spells.SpellBucketsAreOrdered | scripts/action-handler.js:809-811 | every spell bucket is in SPELL_GROUP_IDS |
| SlotLedger.WalkSlots | scripts/action-handler.js:774-799 | the reversed loop over the slot entries computes the ledger of the walk |
| SlotLedger.SpellFlagAfterWalk | scripts/action-handler.js:778-793 | the levelled flag ends set iff uncharged items are shown or some levelled entry has value and max |
| SlotLedger.LevelledRecord | scripts/action-handler.js:791-794 | a levelled entry gets a record with its value, max and level, available iff uncharged items are shown or it or an entry walked before it has slots left |
| SlotLedger.Sticky | scripts/action-handler.js:792-793 | once a levelled entry has slots left, every levelled entry walked after it is available |
| SlotLedger.OtherRecord | scripts/action-handler.js:795-798 | an entry neither levelled nor pact gets a record iff its value is positive, and that record is never available |
| SlotLedger.AbsentKey | scripts/action-handler.js:794-797 | a key no entry has gets no record |
| SlotLedger.NoPactEntry | scripts/action-handler.js:779-790 | without a pact entry there is no pact record |
| SlotLedger.PactRecord | scripts/action-handler.js:787-790 | the pact record is available iff its level is positive and uncharged items are shown or it has value, max and level |
| SlotLedger.Propagate | scripts/action-handler.js:802-805 | the propagation fails iff there is no pact record, or the pact slot is available and there is no record for its level |
| SlotLedger.InfoText | scripts/action-handler.js:815-824 | the info text is non-empty iff there is a record with a positive max |
| SlotLedger.InfoTextReadsBack | scripts/action-handler.js:824 | the info text splits at its '/' into the slots left and the max |
| SlotLedger.PropagateKeepsGates | scripts/action-handler.js:802-818 | the propagation changes no gate and no info text |
| SlotLedger.PactSlotDoesNotOpenLevelGroup | scripts/action-handler.js:802-818 | an available third-level pact slot leaves a used-up third-level group hidden |
| SpellGroups.SpellGroupGate | scripts/action-handler.js:813-828 | a spell group makes calls iff it is shown, and its first call is its info text |
| SpellGroups.WhichGroupsAreGated | scripts/action-handler.js:807-818 | cantrips, at-will, innate and additional spells are never slot-gated; the levelled and pact groups always are |
| SpellGroups.LevelGroupShown | scripts/action-handler.js:774-818 | a levelled group with a slot entry is shown iff uncharged items are shown or that entry or one walked before it has slots left |
| SpellGroups.LevelGroupWithoutEntry | scripts/action-handler.js:814-818 | a levelled group with no slot entry is never shown |
| SpellGroups.PactGroupShown | scripts/action-handler.js:787-818 | the pact group is shown iff its level is positive and uncharged items are shown or it has slots left |
| SpellGroups.MissingPactFails | scripts/action-handler.js:780-802 | an actor with spells but no pact entry makes the spell stage fail |
| SpellGroups.SpellGroupOrder | scripts/action-handler.js:809-835 | the spell groups are emitted in SPELL_GROUP_IDS order |
| Activations.CallsOverAppend | scripts/action-handler.js:215-242 | visiting two runs of table entries makes the calls of the first, then those of the second |
| Activations.ReactionsEmittedThrice | scripts/action-handler.js:215-242 | the reactions sub-group and its actions are emitted three times in a row, between the entries before and after them |
| Activations.OtherBucketNeverEmitted | scripts/action-handler.js:209-219 | items whose activation type has no group get no sub-group at all |
| Activations.OtherIsNotVisited | scripts/action-handler.js:215-219 | the table never visits the bucket "other" |
| Activations.DerivedGroupShape | scripts/action-handler.js:222-241 | every sub-group is named "<bucket>+<parent>" under its bucket's group, is unselected by default exactly under equipped/unequipped, and carries at least one action |
| Emission.ConcatMapAppend | scripts/action-handler.js:563-577 | looping over two runs makes the calls of the first run, then those of the second |
| Emission.GroupPosition | scripts/action-handler.js:563-577 | the calls of the group at position i come after every earlier group's and before every later group's |
| Emission.NoEmptyActions | scripts/action-handler.js:896-911 | no `addActions` call of the emission is empty |
| Emission.GroupEmittedIffPopulated | scripts/action-handler.js:622-636 | a group gets its `addActions` call, holding one action per bucket member, exactly when its bucket is non-empty |
| Emission.OrderedCallsOverNothing | scripts/action-handler.js:588 | without items the emission makes no call |
| Status.ById | scripts/action-handler.js:446 | one entry per effect id, each an effect of the list |
| Status.ByIdKeepsLast | scripts/action-handler.js:446 | the entry kept for an id is the last effect with that id |
| Status.EffectsOfKind | scripts/action-handler.js:455-462 | the temporary (or passive) effects are exactly the listed effects of that kind |
| Status.PartitionEffects | scripts/action-handler.js:455-462 | the loop fills the passive and temporary maps with exactly those effects, in order |
| Status.EffectPartition | scripts/action-handler.js:455-462 | a listed effect goes to exactly one of the two groups, an unlisted one to neither |
| Status.ConditionList | scripts/action-handler.js:301 | exactly the status effects with a non-empty id |
| Status.ConditionState | scripts/action-handler.js:297-324 | the conditions group appears iff there are tokens and conditions; a condition is active iff every actor has an enabled effect carrying it |
| Status.AllTokensKept | scripts/action-handler.js:1089-1092 | the valid-token filter keeps every controlled token |
| Status.MixedSelectionShowsAllConditions | scripts/action-handler.js:298-310 | a selection mixing in another actor type shows every condition active |
| Status.ExhaustionCalls | scripts/action-handler.js:477-495 | the exhaustion group appears iff every actor is a character |
| Status.RestCalls | scripts/action-handler.js:646-664 | the rests group appears iff the selection is non-empty and all characters |
| Status.UtilityRule | scripts/action-handler.js:844-885 | utility appears iff the selection is non-empty and all characters; the death save iff one actor with hp at most 0; inspiration last, active iff every actor is inspired |
| Handler.MultipleTokensOnlyShared | scripts/action-handler.js:139-148 | with no actor selected only the conditions, rests and utility groups get actions |
| Handler.IncompleteOnlyOnSpellFailure | scripts/action-handler.js:92-109 | a run stops early exactly when a character or npc with spells fails the pact propagation |
| Handler.ActionHandler.BuildSystemActions | scripts/action-handler.js:27-83 | stores the actor, actors, tokens, items and settings, then appends the calls of the builder for the actor's type |
| Handler.ActionHandler.BuildActivations | scripts/action-handler.js:200-243 | appends exactly the calls of the activation sub-groups |
| Handler.ActionHandler.BuildFeatures | scripts/action-handler.js:504-578 | appends exactly the calls of the feature emission |
| Handler.ActionHandler.BuildInventory | scripts/action-handler.js:586-638 | appends exactly the calls of the inventory emission |
| Handler.ActionHandler.BuildSpells | scripts/action-handler.js:706-835 | fails exactly when the spell stage fails, and otherwise appends the calls of every spell group in order |
| Handler.ActionHandler.BuildEffects | scripts/action-handler.js:442-469 | appends the passive and then the temporary effects group |
| Handler.ActionHandler.BuildConditions | scripts/action-handler.js:297-325 | appends the conditions group |
| Dispatch.DecodeEncode | scripts/roll-handler.js:14 | decoding the encoded "type, bar, id" text gives back the type and id when neither holds a bar character |
| Dispatch.EncodeDecode | scripts/roll-handler.js:14 | a value with exactly one bar character is the encoding of what it decodes to |
| Dispatch.ExhaustionBounds | scripts/roll-handler.js:96-103 | exhaustion never goes negative: +1 on a primary click, -1 down to 0 on a right click |
| Dispatch.ExhaustionUndo | scripts/roll-handler.js:96-103 | a right click undoes a primary click |
| Dispatch.InspirationToggles | scripts/roll-handler.js:110-113 | inspiration flips, and flipping twice restores the state |
| Dispatch.AdjustOneKey | scripts/roll-handler.js:129-138 | adjusting writes only its path; a right click gives max(0, v-1), any other click v+1; nothing is written when the value does not change |
| Dispatch.CheckboxWritesUndefined | scripts/roll-handler.js:141-143 | a checkbox counter is left undefined, whatever it held |
| Dispatch.FractionRespectsMax | scripts/roll-handler.js:145-149 | a primary click never pushes a fraction past its max |
| Dispatch.FractionWithoutValue | scripts/roll-handler.js:146 | a fraction with a max but no value ignores a primary click |
| Dispatch.SuccessFailureKey | scripts/roll-handler.js:155-162 | ctrl-click adjusts only "<id>.failure", any other click only "<id>.success", each from 0 when missing |
| Dispatch.NumberCounter | scripts/roll-handler.js:151-153 | a number counter moves by one, down to 0 on a right click, and no other flag changes |
| Dispatch.CounterStep | scripts/roll-handler.js:77-88 | a counter click changes only exhaustion, inspiration and flags; exhaustion only for "exhaustion", inspiration only for "inspiration" |
| Dispatch.FindEffectVacuous | scripts/roll-handler.js:355-357 | an effect with no statuses is found for any condition, unless an earlier effect matches |
| Dispatch.ConditionStep | scripts/roll-handler.js:315-337 | toggling a condition (with a token and an action id) changes only the effects, and removes at most one |
| Dispatch.EffectToggleOrDelete | scripts/roll-handler.js:366-382 | the intended effect step: unknown id: nothing; right click on an own effect deletes it; otherwise `disabled` flips; nothing else changes |
| Dispatch.EffectClickThrows | scripts/roll-handler.js:367-368 | as written, every effect click throws, although the intended step changes the actor whenever the id names one of its own effects |
| Dispatch.UseStep | scripts/roll-handler.js:248-256 | an item click leaves the actor alone and makes one call; it throws exactly when there is no item with the id |
| Dispatch.RechargeOrUse | scripts/roll-handler.js:248-266 | recharge is rolled instead of a use exactly when the item recharges and has no use left |
| Dispatch.UtilityStep | scripts/roll-handler.js:275-294 | a utility click changes at most inspiration and always ends by refreshing the HUD |
| Dispatch.EndTurnGuarded | scripts/roll-handler.js:279-281 | end turn advances the combat exactly when the clicked token is the current combatant's |
| Dispatch.RoutingDoesNothing | scripts/roll-handler.js:35-68 | an unknown type does nothing; a condition without a token does nothing; a click throws exactly when it uses a missing item, is an effect click, or is a condition click through a token without an action id |
| Dispatch.ExhaustionOnlyByExhaustion | scripts/roll-handler.js:35-103 | only the exhaustion handler and the exhaustion counter change exhaustion |
| Dispatch.FlagsOnlyByCounters | scripts/roll-handler.js:35-68 | only the counter handler changes flags |
| RollHandling.SweepStopsAtFailure | scripts/roll-handler.js:17-20 | once a handler throws, the tokens after it are not handled |
| RollHandling.SweepDistinctActors | scripts/roll-handler.js:17-20 | with distinct actors and no throw, each actor ends in the state its own click gives from its state before the loop |
| RollHandling.RollHandler.HandleActionClick | scripts/roll-handler.js:13-24 | with a selected actor it is handled once through the selected token; otherwise once per controlled token, every actor ending as the sweep says |
| RollHandling.RollHandler.HandleTokens | scripts/roll-handler.js:17-20 | the loop over the controlled tokens makes the sweep's calls and leaves every actor in the sweep's state |
| RollHandling.RollHandler.HandleAction | scripts/roll-handler.js:35-68 | the actor ends in the routed step's state and the step's calls are logged; a throw changes nothing |
| RollHandling.RollHandler.ToggleCondition | scripts/roll-handler.js:315-337 | without an action id it throws and changes nothing; otherwise the actor ends in the condition step's state |
| RollHandling.RollHandler.ModifyCounter | scripts/roll-handler.js:77-88 | the actor ends in the counter step's state |
| RollHandling.RollHandler.ModifyExhaustion | scripts/roll-handler.js:96-103 | the actor ends in the exhaustion step's state |
| RollHandling.RollHandler.ModifyCustomCounter | scripts/roll-handler.js:122-164 | the actor's flags end as the custom-counter rules say, nothing else changes |
| RollHandling.RollHandler.ToggleEffect | scripts/roll-handler.js:366-382 | the intended toggle in place: the actor ends in the effect step's state |
| RollHandling.RollHandler.UseItem | scripts/roll-handler.js:248-256 | the use or recharge call is logged; ok is false exactly when the item is missing |
| RollHandling.RollHandler.PerformUtilityAction | scripts/roll-handler.js:275-294 | the actor ends in the utility step's state |

## Findings

| source | as written | input that shows it | evidently intended | confidence | as-written member | corrected member |
|---|---|---|---|---|---|---|
| scripts/roll-handler.js:367-368 | `effects` is `actor.effects.entries`, the Map iterator method, and calling `find` on it throws | any click on an effect action | look the id up among the actor's effects, then toggle or delete that effect | high; not executed | Dispatch.EffectClickThrows | Dispatch.EffectToggleOrDelete |

## Left out

- Rendering: names, localisation, images, tooltips, list names and icon markup are not modelled. Actions keep their id, class, icon class and info texts.
- `#buildAbilities`, `#buildCombat`, `#buildCounters` and `#buildSkills` are not modelled. They depend on live actor data, `game.combat` and the counters module.
- `#getConsumeData`, `#getItemInfo`'s consume text, `#getSpellInfo` and `#getConcentrationIcon` are not modelled.
- Sorting the items by name (a host utility) is not modelled; items stay in the given order.
- `Promise.all` and `await` are modelled as sequential calls in source order. A throw in the spell stage ends the run after the four builders before it.
- The roll handler's writes that are not awaited (`actor.update` and `setFlag` at scripts/roll-handler.js:101, 112 and 137) are taken to land at once, so the next token's handler sees them. When two controlled tokens share an actor, the source may read the old value twice.
- Handler.ActionHandler.BuildItemActions: the exit of `buildActions` on an empty group id is not modelled, since every group id the model passes is non-empty.
- Dispatch.CounterFlags: JavaScript coercion is not modelled. A stored 0 (read back as `{}` by the source) and a missing flag both count as 0, and a non-number flag value counts as missing.
- Dispatch.CounterParts: `decodeURIComponent` is taken as the identity.
- Dispatch.EffectToggleOrDelete: states the step `toggleEffect` evidently means to take. The source as written throws before it (`Dispatch.EffectClickThrows`), and `Dispatch.Handle` follows the source.
- Dispatch.EffectStep: the corrected step, used only by `RollHandling.RollHandler.ToggleEffect`, which `HandleAction` does not call.
- Utils.Capitalize: the case mapping covers ASCII letters only. JavaScript's `toUpperCase` and `toLowerCase` map all of Unicode, and can change the length of the text.
- Item ids are not required to be distinct. The source keeps items in maps keyed by id, so its inputs always have distinct ids; the lemmas hold for those inputs too.
- The dfreds convenient-effects branch of `toggleCondition` is not modelled (a foreign module).
- `rollMagicItem` and the "magicItem" action type are not modelled; such a click does nothing in the model.
- `handleActionHover` is not modelled.
- The host's item lookup by id is taken to be the first item with that id.
- `allApplicableEffects` is modelled as the actor's own effects followed by its item effects.
- Settings are read from a `Settings` record; `Utils.getSetting` is not modelled.
- The slot loop's in-place writes into the actor's slot records are modelled as a returned ledger value.
- Status.ById: the order of the map's entries is not stated; only which effect each id keeps.
- Engine calls (rolls, item use, rests, initiative, `nextTurn`, `toggleStatusEffect`, refreshing the HUD) are opaque log events; their effects on the actor are not modelled.
- scripts/magic-items-extender.js is not part of this model.
- scripts/system-manager.js is not part of this model.
