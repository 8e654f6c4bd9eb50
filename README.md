# QuickStart — a Dafny model of the character-creation skip and the campaign setup

QuickStart is a Mount & Blade II: Bannerlord module that shortens the start
of a new campaign. It attaches a postfix to the host's
`CharacterCreationState.NextStage`. The postfix sends each wizard stage to a
handler of the mod:

- The culture stage gets a random culture.
- The face-generator stage is passed over.
- The backstory (generic) stages get a random selectable option of every menu.
- The review and options stages are passed over.

The skips are configurable. After the wizard, the mod finishes the story-mode
tutorial if there is one. Once the game is on the map, it runs the campaign
setup:

1. Choose a kingdom.
2. For a landowner start, choose a clan and take its towns and castles,
   making the first of them the clan's home. For a vassal or king start the
   clan comes from the chosen kingdom; when no kingdom is eligible it is any
   clan with a fief. With a kingdom but neither start, no clan is chosen.
   So a landowner start on its own takes nothing whenever a kingdom is
   eligible (`Selection.LandownerOnlyTakesNothing`). The setting's hint
   (src/McmSettings.cs:122-124) says such a clan is picked by the
   character's culture instead; the model follows the code.
3. For a vassal or king start, replace gold and provisions with the start's
   grant, refit the hero with a mounted soldier's equipment, and add the
   start's troops to the party's existing roster. Then join the kingdom,
   and for a king start, rule it.
4. Move the party to a start town.
5. Ask for the names and open the banner editor, as configured.

Two revisions are modelled, each in its own modules:

- **v1.2.0.0** (`src/`):
  - `Settings`: `Config`, its defaults, `CopyFrom`, the debug dump, and the
    settings page with its two exclusive kingdom-start properties.
  - `StagePatch`: the postfix dispatch.
  - `Selection`: every "choose X" of `SubModule`.
  - `SubModule`: the handlers, the skips and the campaign setup, as a class
    over the running campaign.
- **v1.0.0** (the root files):
  - `LegacyConfig`: four flags, `CopyFrom` and the multi-line dump.
  - `LegacyStagePatch`: a dispatch without the options handler.
  - `LegacySubModule`: the story-mode-only handlers, which end the tutorial
    and move the party to `town_EW2`. This is where the clan-name validator is.

Shared modules:

- `Wrappers`: `Option`.
- `Choice`: `Where`, `RandomPick` and the chains of `x ??= level.RandomPick()`.
- `Text`: the string building of the dumps.
- `Host`: the game objects the mod reads and writes. This covers the map (kingdoms, clans, settlements, troops), the
  wizard state `CharacterCreationState`, and the `Campaign` with the player's
  party, clan, purse, rosters, elder brother, prompts and active game state.

Modelling choices:

- **Random choices.** `RandomPick` is an oracle index `k`: `Pick(s, k)` is
  the element at `k % |s|`, and none for an empty sequence. The methods draw
  `k` with `:|`. The model proves what any outcome satisfies, and it also
  proves that no candidate is excluded (`PickReachesEvery`,
  `FallbackReachesEvery`). It states nothing about the distribution.
  The draws of a kingdom start (the equipment template and set, and one
  troop per tier) are collected in `StartPicks`. They are handed up as ghost
  out-parameters, from `AddTroopsToParty` and `EquipHeroFromCavalryTroop` to
  `SkipFinalStages`, so that each caller's contract can name the roster and
  the equipment they lead to.
- **Nested wizard calls.** The handlers call `state.NextStage()`, which runs
  the postfix again, which calls the next handler. The model keeps this
  nesting as mutually recursive methods, measured by the number of stages
  left.
- **Exceptions.** A host exception (unknown game content in v1.2, a missing
  elder brother in v1.0) unwinds every nested call. It is modelled as
  `ok == false` flowing back to the outermost caller.
- **Preserved invariants.** Every method of the wizard cluster keeps the
  `Progressed` invariant:
  - the stage index and the consequence log only grow;
  - a chosen culture is never replaced;
  - the tutorial skip and the brother's retirement are never undone.
- **Mutable state.** The campaign, the wizard state, the configurations and
  the settings page are classes whose fields the methods update.
- **Loops.** The loops of `TakeFiefsFromClan` and of the generic-stage skip
  are proved against specification functions: `SeizedAll`, `FiefsOf`,
  `Rehomed`, and `IsResolution`/`Applied`.

Where the mod's stated intent and its code disagree, the model follows the code:

- The code has no "setup done" guard. The campaign setup runs whenever the
  final skip finds the game on the map.
- A landowner start takes only the clan's towns and castles. The home is the
  first town taken, or else the first castle.
- The start town is preferred among all towns of the player clan, not only
  among the fiefs just taken. After a seizure these include every town taken
  (`SubModule.SubModule.FinishSetup`).
- In v1.2 the name prompts have no validator. Only v1.0's clan-name inquiry
  validates its input (1 to 50 characters, `IsNewClanNameApplicable`).
- `src/Config.cs` does not declare `LandownerStart`, `VassalStart`,
  `KingStart` or `KingdomId`, although `SubModule.cs` and `McmSettings.cs`
  read them. They are plain fields of `Settings.Config`, given to its
  constructor, and `CopyFrom` leaves them alone.

## Model

| member | source | states |
|---|---|---|
| Choice.Pick | src/Util.cs:9-16 | the result is an element of the sequence, and there is none exactly when the sequence is empty |
| Choice.PickReachesEvery | src/Util.cs:9-16 | every element of the sequence is the pick for some outcome of the random source |
| Choice.FilterMembers | src/SubModule.cs:278 | `Where` keeps exactly the elements satisfying the predicate |
| Choice.Fallback | src/SubModule.cs:280-288 | a `??=` chain gives none exactly when every level is empty, otherwise an element of the first non-empty level |
| Choice.FallbackPrefers | src/SubModule.cs:280-288 | when a level is non-empty, the chain succeeds with an element of that level or of a stricter one |
| Choice.FallbackReachesEvery | src/SubModule.cs:280-288 | every element of the first non-empty level can be the chain's result |
| Host.ClansOf | src/SubModule.cs:309 | `kingdom.Clans` holds exactly the clans whose kingdom is that kingdom |
| Host.ClanById | src/SubModule.cs:491 | the owner clan found has the id, and there is none exactly when no clan has it |
| Host.FindKingdom | src/SubModule.cs:271 | the kingdom found has the id, and there is none exactly when no kingdom has it |
| Host.FindSettlement | SubModule.cs:175 | the settlement found has the id, and there is none exactly when the map has none with it |
| Host.JoinKingdom | src/SubModule.cs:399 | joining sets the kingdom of the clan's entries and changes nothing else on the map |
| Host.SetRulingClan | src/SubModule.cs:423 | the kingdom gets the clan as ruler and nothing else on the map changes |
| Host.AddCount | src/SubModule.cs:387 | `AddToCounts` adds n to the key's count, counting from 0 for a new key |
| Host.AddCountOthers | src/SubModule.cs:387-390 | adding to one roster entry leaves every other entry as it was |
| Host.RemoveOne | SubModule.cs:212 | `RemoveTroop(c, 1)` lowers c's count by one when some is present, and leaves every other entry and an absent c as they were |
| Host.Applied | src/SubModule.cs:187-190 | exactly one consequence per menu that has a pick, that menu's picked option, and in strictly increasing menu order; every picked option is run |
| Host.ResolveMenus | src/SubModule.cs:185-191 | for each menu in order, the loop runs the consequence of one selectable option, or of none when no option is selectable; the log grows by exactly those consequences, one per menu, in menu order |
| Host.CharacterCreationState.CurrentStage | src/SubModule.cs:198-202 | the current stage is the stage at the index, and there is none once past the last |
| Text.BoolText | src/Config.cs:26-32 | a flag is written as `True` or `False`, without a newline |
| Text.SplitJoin | src/Config.cs:24-33 | splitting the joined dump at newlines gives back its lines |
| Text.JoinLastChar | src/Config.cs:24-33 | the joined dump ends with the last character of its last line, so it has no trailing newline |
| Settings.Config.constructor | src/Config.cs:5-11 | the defaults: the three stages hidden, the intro video disabled, no prompts, no banner editor |
| Settings.Config.CopyFrom | src/Config.cs:13-22 | the seven flags equal the settings page's afterwards, and a second copy of the same settings changes nothing |
| Settings.Config.ToDebugString | src/Config.cs:24-33 | the dump is exactly seven lines, in declaration order, each `Name = value` with `=` at column 20, with no trailing newline |
| Settings.DebugLinesAligned | src/Config.cs:26-32 | each line spelled in the source is its name padded to column 20, then `= ` and the value, with no newline inside |
| Settings.McmSettings.constructor | src/McmSettings.cs:15-29 | every property of the page starts from the configuration, and no change has been announced yet |
| Settings.McmSettings.SetVassalStart | src/McmSettings.cs:83-98 | the setter does nothing for an equal value; setting it true clears a set `KingStart` first; each change is announced in order |
| Settings.McmSettings.SetKingStart | src/McmSettings.cs:102-116 | the same, with the roles of the two properties swapped |
| Settings.McmSettings.ApplyWrites | src/McmSettings.cs:83-116 | any sequence of writes through the two setters keeps the vassal start and the king start mutually exclusive |
| StagePatch.NextStagePostfix | src/Patches/CharacterCreationStatePatch.cs:49-66 | a handler runs exactly when the new current stage is a known kind, and it is the handler for that kind; nothing runs past the last stage |
| StagePatch.PostfixRunsExactlyTheMatchingHandler | src/Patches/CharacterCreationStatePatch.cs:56-65 | a given handler runs if and only if the stage is of its kind |
| LegacyStagePatch.NextStagePostfix | Patches/CharacterCreationStatePatch.cs:15-30 | a handler runs exactly on the culture, face-generator, generic and review stages, and it is the matching one; never on options |
| LegacyStagePatch.SameDispatchExceptOptions | Patches/CharacterCreationStatePatch.cs:15-30 | the two revisions dispatch identically except on the options stage |
| Selection.KingdomLevels | src/SubModule.cs:278-288 | the kingdom chain has four levels |
| Selection.KingdomLevelsBounds | src/SubModule.cs:278-288 | each level holds exactly the eligible kingdoms meeting its condition: culture and a town; culture and a fief; culture; none for the last |
| Selection.KingdomFallback | src/SubModule.cs:277-289 | the chain gives an eligible kingdom (one with a clan, not eliminated), and none exactly when no kingdom is eligible |
| Selection.ChooseKingdom | src/SubModule.cs:265-290 | a usable configured id returns that kingdom, eliminated or not; otherwise an eligible kingdom, and none only when none is eligible (the level order is stated by the ChooseKingdomPrefers lemmas) |
| Selection.ChooseKingdomPrefersCultureAndTown | src/SubModule.cs:280-281 | without a usable id, a kingdom of the hero's culture with a town is chosen whenever one is eligible |
| Selection.ChooseKingdomPrefersCultureAndFief | src/SubModule.cs:283 | without a usable id, a kingdom of the hero's culture with a fief is chosen whenever one is eligible |
| Selection.ChooseKingdomPrefersCulture | src/SubModule.cs:285 | without a usable id, a kingdom of the hero's culture is chosen whenever one is eligible |
| Selection.ChooseKingdomReachesEvery | src/SubModule.cs:280-288 | every kingdom of the first non-empty level can be the choice |
| Selection.WithMembers | src/SubModule.cs:296-297 | the town filter and the fief filter keep exactly the clans owning a town, and a town or castle, respectively |
| Selection.LandlessLevels | src/SubModule.cs:296-297 | without a kingdom there are two levels |
| Selection.LandlessLevelsBounds | src/SubModule.cs:296-297 | the first level holds exactly the clans with a town, the second exactly the clans with a fief |
| Selection.VassalLevels | src/SubModule.cs:309-312 | a vassal start has four levels |
| Selection.VassalLevelsBounds | src/SubModule.cs:309-312 | every level holds only clans of the kingdom with a fief; the first two exclude the ruling clan; the last holds all such clans |
| Selection.KingLevels | src/SubModule.cs:325-326 | a king start whose ruling clan has no fief has two levels |
| Selection.KingLevelsBounds | src/SubModule.cs:325-326 | the first level holds exactly the kingdom's clans with a town, the second exactly those with a fief |
| Selection.ChooseClanToTakeFiefsFrom | src/SubModule.cs:292-337 | the clan always has a fief; without a kingdom there is none only when no clan has a fief; a vassal start takes from the kingdom's clans; a king start takes from the ruling clan if it has a fief, else from the kingdom's clans; without either start, no clan |
| Selection.LandownerOnlyTakesNothing | src/SubModule.cs:248-249 | a landowner start without a vassal or king start chooses a kingdom and no clan to take from whenever some kingdom is eligible |
| Selection.VassalPrefersOtherClanWithTown | src/SubModule.cs:309 | a vassal start takes from a non-ruling clan with a town whenever the kingdom has one |
| Selection.LandlessPrefersClanWithTown | src/SubModule.cs:296 | without a kingdom, the clan taken from has a town whenever some clan has one |
| Selection.KingPrefersClanWithTown | src/SubModule.cs:324-325 | a king start whose ruling clan has no fief takes from a clan of the kingdom with a town whenever one has a town |
| Selection.FiefsOf | src/SubModule.cs:345 | the fiefs taken are exactly the clan's towns and castles |
| Selection.HomeOf | src/SubModule.cs:355 | the home is one of the settlements taken, and there is none only when nothing was taken; a town whenever a town was taken; otherwise the first one taken |
| Selection.HomeIsFirstTown | src/SubModule.cs:355 | the stable ordering makes the first town taken the home |
| Selection.TemplateLevels | src/SubModule.cs:443-458 | the template chain has seven levels |
| Selection.TemplateLevelsBounds | src/SubModule.cs:443-458 | each level holds exactly the soldiers in the tier range meeting its condition: mounted, culture and gender; mounted and culture; culture and gender; culture; mounted and gender; mounted; none for the last |
| Selection.CavalryTemplateInRange | src/SubModule.cs:427-458 | the template is a soldier within [minTier, maxTier] (maxTier 0 meaning minTier), and there is none only when no soldier is in range |
| Selection.TemplatePrefersMatchingCavalry | src/SubModule.cs:448-451 | a mounted soldier of the hero's culture and gender is used whenever one is in range |
| Selection.TemplatePrefersCavalryOfCulture | src/SubModule.cs:453 | a mounted soldier of the hero's culture is used whenever one is in range |
| Selection.TemplatePrefersCulture | src/SubModule.cs:455 | a soldier of the hero's culture is used whenever one is in range |
| Selection.TemplatePrefersCavalry | src/SubModule.cs:457 | when a mounted soldier is in range, the template is mounted or of the hero's culture |
| Selection.CavalryEquipmentInRange | src/SubModule.cs:460-461 | the equipment copied is one of an in-range soldier's battle equipments |
| Selection.TierLevels | src/SubModule.cs:475-478 | a tier above 1 has two levels |
| Selection.TierLevelsBounds | src/SubModule.cs:475-478 | both levels hold only soldiers of exactly that tier, and the second holds all of them; the first holds only the party's culture |
| Selection.TroopToAdd | src/SubModule.cs:467-484 | tier 1 adds the culture's basic troop |
| Selection.TroopToAddHasTier | src/SubModule.cs:475-481 | above tier 1 the troop is a soldier of that tier, and there is none only when no soldier has the tier |
| Selection.TroopPrefersPartyCulture | src/SubModule.cs:477 | a soldier of the party's culture is added whenever one has the tier |
| Selection.TownLevels | src/SubModule.cs:486-494 | the start-town chain has five levels |
| Selection.TownLevelsBounds | src/SubModule.cs:486-494 | each level holds exactly the towns of the map meeting its condition: owned by the player clan; owned by a clan of the kingdom; of the hero's culture; owned by a clan of the hero's culture; none for the last |
| Selection.ChooseStartTown | src/SubModule.cs:486-494 | the start town is a town of the map, and there is none only when the map has no town (the level order is stated by the StartTownPrefers lemmas) |
| Selection.StartTownPrefersOwnTown | src/SubModule.cs:488 | a town of the player clan is chosen whenever the clan owns one |
| Selection.StartTownPrefersKingdomTown | src/SubModule.cs:489 | a town of the kingdom's clans is chosen whenever there is one, unless the player clan owns a town |
| Selection.StartTownPrefersCultureTown | src/SubModule.cs:490 | a town of the hero's culture is chosen whenever there is one, unless an earlier level has a town |
| Selection.StartTownPrefersOwnerCulture | src/SubModule.cs:491 | a town owned by a clan of the hero's culture is chosen whenever there is one, unless an earlier level has a town |
| SubModule.Provisions | src/SubModule.cs:386-410 | after a start's grant the item roster holds the grain, and the mules exactly when the mule item exists, and nothing else |
| SubModule.SeizedAll | src/SubModule.cs:345-350 | the seizure keeps the map's settlement count |
| SubModule.SeizedAllAt | src/SubModule.cs:345-350 | each settlement after the seizure is the one that was there, seized or left |
| SubModule.SeizedNothing | src/SubModule.cs:343 | without a clan to take from, the map is left as it is |
| SubModule.SeizedFief | src/SubModule.cs:345-347 | every town and castle of the clan is on the map afterwards, owned by the player clan |
| SubModule.SeizedOwnership | src/SubModule.cs:347 | a change of owner changes nothing but the owner, and only the clan's towns and castles change owner |
| SubModule.SeizeStep | src/SubModule.cs:345-350 | one iteration of the loop writes the next settlement in place exactly when it is a fief of the clan, and extends the list taken by it |
| SubModule.Rehomed | src/SubModule.cs:362-363 | re-homing keeps the number of clan heroes |
| SubModule.RehomedAt | src/SubModule.cs:362-363 | each hero keeps everything but the birthplace, which becomes the home |
| SubModule.JoinedKingdom | src/SubModule.cs:399 | after joining, every clan with the player's id belongs to the kingdom, one does if the clan is on the map, and the kingdoms, settlements and troops are unchanged |
| SubModule.NowRuling | src/SubModule.cs:423 | after the takeover, the kingdom is ruled by the player clan, and the clans, settlements and troops are unchanged |
| SubModule.StartWorldOutcome | src/SubModule.cs:246-251 | the map after the setup: each settlement seized or left in place, troops unchanged, the player clan in the kingdom for a kingdom start, kingdoms unchanged for a vassal start, the kingdom ruled by the player clan for a king start |
| SubModule.TakenTownOwned | src/SubModule.cs:248-251 | a town taken from the chosen clan is on the map after the setup as a town of the player clan |
| SubModule.RecruitedKeeps | src/SubModule.cs:467-484 | adding troops never removes or reduces a troop already in the roster |
| SubModule.VassalRoster | src/SubModule.cs:393-395 | the vassal start's roster is the three `AddTroopsToParty` calls in order: 12, 7 and 5 of tiers 1 to 3 |
| SubModule.KingRoster | src/SubModule.cs:413-418 | the king start's roster is the six `AddTroopsToParty` calls in order: 20, 8, 8, 6, 4 and 3 of tiers 1 to 6 |
| SubModule.StartPartyOutcome | src/SubModule.cs:367-425 | without a kingdom start the roster and the equipment stay; with one, no troop of the roster is lost or reduced, and new equipment comes from a soldier of tier 3-4 (vassal) or 5-7 (king) |
| SubModule.SubModule.OnGameEnd | src/SubModule.cs:51 | the remembered content kind is reset at game end |
| SubModule.SubModule.OnSettingsPropertyChanged | src/SubModule.cs:102-109 | a save copies the settings page into the configuration; any other property change leaves it unchanged |
| SubModule.SubModule.NextStage | src/Patches/CharacterCreationStatePatch.cs:49-66 | the stage index moves on, the postfix runs, and the wizard invariant is kept |
| SubModule.SubModule.RunPostfix | src/Patches/CharacterCreationStatePatch.cs:49-66 | the handler the dispatch names runs; with none, nothing changes |
| SubModule.SubModule.OnCultureStage | src/SubModule.cs:111-135 | unknown content throws before anything changes; sandbox or story content is remembered as such; story mode retires the brother and skips the tutorial mission; a hidden stage gets a culture |
| SubModule.SubModule.OnFaceGenStage | src/SubModule.cs:137-143 | a shown stage is left untouched; a hidden one is moved past |
| SubModule.SubModule.OnGenericStage | src/SubModule.cs:145-151 | a shown stage is left untouched; a hidden one is moved past |
| SubModule.SubModule.OnReviewStage | src/SubModule.cs:153 | the review stage is moved past, and the clan gets the default name |
| SubModule.SubModule.SkipCultureStage | src/SubModule.cs:157-169 | an existing culture choice is kept without moving on; otherwise a culture from the content's list is chosen and the stage is moved past |
| SubModule.SubModule.SkipFaceGenStage | src/SubModule.cs:171-178 | the stage is moved past |
| SubModule.SubModule.SkipGenericStage | src/SubModule.cs:180-194 | the consequences run start with one resolution of the stage's menus: one per menu with a selectable option, in menu order; then the stage is moved past |
| SubModule.SubModule.SkipFinalStages | src/SubModule.cs:196-230 | the stage moves on exactly when it is review or options; the clan gets the default name; story mode completes the tutorial with the brother retired; the setup runs exactly when the game is on the map, and then leaves the state `SetUpDone` describes |
| SubModule.SubModule.FinishCreation | src/SubModule.cs:210-229 | the default clan name; in story mode, the talk with the brother, his retirement and the tutorial's completion; the setup runs exactly when the game is on the map and leaves the state `SetUpDone` describes against the state before; otherwise the game state is unchanged |
| SubModule.SubModule.WrapUpCreation | src/SubModule.cs:210-224 | the player keeps the name, the clan gets the default name, no question is asked, the roster stays; in story mode the talk with the brother, his retirement and the tutorial's completion; a retired brother stays retired |
| SubModule.SubModule.SetUpOnMap | src/SubModule.cs:226-229 | the setup runs exactly when the game is on the map and leaves the state `SetUpDone` describes; otherwise nothing changes |
| SubModule.SubModule.DisableElderBrother | src/SubModule.cs:232-244 | the brother is disabled and made neutral, and removed from the party only on the first call; nothing changes without a brother |
| SubModule.SubModule.FinishSetup | src/SubModule.cs:246-263 | `SetUpDone`: the kingdom, the clan taken from and the start town are possible random choices; the fiefs taken are the clan's towns and castles; the map is the seized one after the kingdom start; gold and items are the start's; the roster and the equipment are the start's (`StartMembers`, `StartEquipment`, unchanged without a kingdom start); home and birthplaces are the first town (else castle) taken; the party is at the start town; prompts and banner editor follow the configuration; a town taken makes a player-owned town the start town |
| SubModule.SubModule.SeizeStart | src/SubModule.cs:248-251 | `SeizedFrom`, stated on the values before and after: the kingdom and the clan taken from are possible choices, the latter only for a landowner start; the map is the seized one after the kingdom start; gold and items are the start's; the start's troops are added to the roster and the hero refitted, or both stay without a kingdom start; home and birthplaces follow the first fief taken |
| SubModule.SubModule.SeizedTownOwned | src/SubModule.cs:248-251 | after the seizure, a town taken leaves the player clan owning a town on the map |
| SubModule.SubModule.ChooseSeizure | src/SubModule.cs:248-249 | the kingdom is a possible random choice on the current map; a clan to take the fiefs from is chosen, among the possible choices, exactly for a landowner start |
| SubModule.SubModule.MoveToStartTown | src/SubModule.cs:253-262 | `MovedToStart`: the start town is a possible choice on the map as it is now, and a town of the player clan when the clan owns one; the party is moved there; the prompts and the banner editor follow |
| SubModule.SubModule.AskForNames | src/SubModule.cs:256-262 | the player-name question is asked when configured, else the clan-name question when configured; the banner editor opens when configured |
| SubModule.SubModule.TakeFiefsFromClan | src/SubModule.cs:339-365 | the settlements taken are the clan's towns and castles in the host's order, and only those change owner; the home and the heroes' birthplaces become the first town taken (else the first castle), and stay as they were when nothing is taken |
| SubModule.SubModule.SeizeFiefs | src/SubModule.cs:343-353 | the loop takes exactly the clan's towns and castles, in order, and hands each to the player clan |
| SubModule.SubModule.SettleHome | src/SubModule.cs:357-364 | the clan's home and every clan hero's birthplace become the home |
| SubModule.SubModule.FinishKingdomSetup | src/SubModule.cs:367-425 | without a kingdom or a kingdom start nothing changes; otherwise the map is the one the start makes (join, and for a king start rule, with the vassal start winning when both are set), gold and items are replaced by the start's grant, the start's troops are added to the roster (`StartMembers`) and the hero is refitted (`StartEquipment`) |
| SubModule.SubModule.CompleteVassalStart | src/SubModule.cs:382-401 | 10,000 gold, 5 grain and a mule; the equipment of a tier 3-4 mounted soldier, or the old one; the roster plus the vassal troops; the map is the old one with the player clan joined to the kingdom, so the clan is a member if on the map, and kingdoms, settlements and troops are unchanged |
| SubModule.SubModule.CompleteKingStart | src/SubModule.cs:402-424 | 30,000 gold, 20 grain and 4 mules; the equipment of a tier 5-7 mounted soldier, or the old one; the roster plus the king troops; the map is the old one with the player clan joined to the kingdom and made its ruler, so the clan is a member if on the map; settlements and troops are unchanged |
| SubModule.SubModule.RecruitVassalTroops | src/SubModule.cs:393-395 | the party roster is the old one plus 12, 7 and 5 of the troops drawn for tiers 1, 2 and 3 (`Recruited` over `VassalTroops`) |
| SubModule.SubModule.RecruitKingTroops | src/SubModule.cs:413-418 | the party roster is the old one plus 20, 8, 8, 6, 4 and 3 of the troops drawn for tiers 1 to 6 (`Recruited` over `KingTroops`) |
| SubModule.SubModule.EquipHeroFromCavalryTroop | src/SubModule.cs:427-465 | the hero wears the equipment found, and keeps the old equipment when none is found |
| SubModule.SubModule.AddTroopsToParty | src/SubModule.cs:467-484 | the amount of the troop chosen for the tier is added, and nothing when no troop is found |
| SubModule.SubModule.TeleportPlayerToSettlement | src/SubModule.cs:496-507 | the party moves to the settlement; without one it stays where it was |
| SubModule.SubModule.PromptForPlayerName | src/SubModule.cs:509-519 | the player-name question is asked |
| SubModule.SubModule.ChangePlayerName | src/SubModule.cs:521-535 | the player gets the name given, or keeps theirs; a given name is followed by the clan-name question when configured |
| SubModule.SubModule.PromptForClanName | src/SubModule.cs:537-547 | the clan-name question is asked |
| SubModule.SubModule.ChangeClanName | src/SubModule.cs:549-557 | the clan gets the name given, or else `Playerclan` |
| SubModule.SubModule.OpenBannerEditor | src/SubModule.cs:559-560 | the banner editor is pushed over the map |
| LegacyConfig.Config.constructor | Config.cs:5-8 | the defaults: the three stages skipped, no clan-name prompt |
| LegacyConfig.Config.CopyFrom | Config.cs:10-16 | the four flags equal the settings afterwards, and a second copy of the same settings changes nothing |
| LegacyConfig.Config.ToMultiLineString | Config.cs:18-24 | the dump is exactly four lines, in declaration order, each `Name = value` with `=` at column 18, with no trailing newline |
| LegacyConfig.DumpLinesAligned | Config.cs:18-24 | each line spelled in the source is its name padded to column 18, then `= ` and the value |
| LegacySubModule.IsNewClanNameApplicable | SubModule.cs:199 | a clan name is accepted if and only if it has 1 to 50 characters |
| LegacySubModule.SubModule.OnSettingsPropertyChanged | SubModule.cs:83-90 | a save copies the settings into the configuration; any other change leaves it unchanged |
| LegacySubModule.SubModule.NextStage | Patches/CharacterCreationStatePatch.cs:15-30 | the stage index moves on, the postfix runs, and the wizard invariant is kept; with a brother, nothing throws |
| LegacySubModule.SubModule.RunPostfix | Patches/CharacterCreationStatePatch.cs:15-30 | the handler the dispatch names runs; with none (the options stage included), nothing changes |
| LegacySubModule.SubModule.OnCultureStage | SubModule.cs:92-99 | the handler throws, changing nothing, exactly when there is no brother; otherwise the brother is retired, the tutorial mission skipped, and a skipped stage gets a culture |
| LegacySubModule.SubModule.OnFaceGenStage | SubModule.cs:101-105 | the stage is moved past exactly when its skip is configured, and otherwise untouched |
| LegacySubModule.SubModule.OnGenericStage | SubModule.cs:107-111 | the stage is moved past exactly when its skip is configured, and otherwise untouched |
| LegacySubModule.SubModule.OnReviewStage | SubModule.cs:113 | the review stage is moved past, and the tutorial is completed with the brother retired |
| LegacySubModule.SubModule.SkipCultureStage | SubModule.cs:115-128 | an existing culture choice is kept; otherwise a culture from the list is chosen and the stage is moved past |
| LegacySubModule.SubModule.SkipFaceGenStage | SubModule.cs:130-134 | the stage is moved past |
| LegacySubModule.SubModule.SkipGenericStage | SubModule.cs:136-151 | the consequences run start with one resolution of the menus: one per menu with a selectable option, in menu order; then the stage is moved past |
| LegacySubModule.SubModule.SkipFinalStages | SubModule.cs:153-197 | the stage moves on exactly when it is review or options; the tutorial is completed with the brother retired; the party is at `town_EW2` when it exists and the game is on the map; the clan-name question is asked last when configured |
| LegacySubModule.SubModule.FinishTutorial | SubModule.cs:163-196 | the talk with the brother is marked; without a brother it throws, leaving the rest unchanged; otherwise the brother is retired (the party keeps its members), the tutorial completed, the party moved to `town_EW2` when it exists on the map, and the clan-name question asked when configured |
| LegacySubModule.SubModule.DisableElderBrother | SubModule.cs:207-216 | without a brother it throws, changing nothing; otherwise he is disabled and made neutral, and removed from the party on the first call only |
| LegacySubModule.SubModule.OnChangeClanNameDone | SubModule.cs:201-205 | the clan gets the name entered, or the empty name for none; a name the validator accepts is still accepted as the clan's name |
| LegacySubModule.SubModule.ConfirmClanName | SubModule.cs:183-199 | the inquiry's done button renames the clan exactly when the validator accepts the text, so the clan name then has 1 to 50 characters; the empty default text is refused and a refused text leaves the name |

## Left out

- Logging and on-screen messages. This includes the warning for an invalid configured kingdom id (src/SubModule.cs:274) and every "could not find" error. They do not change game state.
- Module loading: `OnSubModuleLoad`, Harmony patching, the intro-video skip, and the load-time copy of the settings into the configuration (src/SubModule.cs:42-100). These are host start-up and I/O.
- The game-manager patches, and the translation of the MCM attribute metadata of `src/McmSettings.cs`. They are host integration with no logic of the mod.
- The influence granted on joining a kingdom (src/SubModule.cs:400, 422) and the relation with the ruler (src/SubModule.cs:398). The model has no influence or relations.
- The camera teleport and the gate position (src/SubModule.cs:505; SubModule.cs:179-180). The party position is modelled as the settlement's id.
- Villages and settlement cultures other than those the start-town chain reads. The map holds only what the choices read.
- `TrainingFieldCampaignBehavior`, `PlayerTalkedWithBrotherForTheFirstTime` and `CompleteTutorialPhase`. Their effects are modelled only as the flags `talkedWithBrother` and `tutorialCompleted`. The behaviour is assumed to be present.
- `InitializeClan` keeping the culture and banner, and the `TextObject` wrapping of names. Names are plain strings.
- LegacySubModule.IsNewClanNameApplicable: `string.Length` counts UTF-16 code units. The model counts characters of `seq<char>`, which agree only for text without surrogate pairs.
- Host.ResolveMenus: each option's `OnCondition` is evaluated once, before the menu is resolved. An earlier consequence in the same stage therefore cannot change a later menu's selectable options.
- Selection.ChooseStartTown: the fourth level reads `s.OwnerClan.Culture` (src/SubModule.cs:491), which throws a `NullReferenceException` for a town without an owner clan and aborts the whole setup. The model does not raise that exception: such a town has an owner id that matches no clan, `OwnerCulture` gives none for it, and the level skips it.
- Host.CharacterCreationState.constructor requires a non-empty culture list. The host always provides one, and the culture skip picks from it.
- The uniformity of `RandomPick` is not stated. Choices are proved for every outcome, and every candidate is proved reachable.
- SubModule.SubModule.OnReviewStage: states that the stage index advances, not by how many stages (the nested handlers decide that), and does not state the setup's outcome: the host's handler returns nothing, and `SkipFinalStages`, which it calls, states it.
- SubModule.SubModule.SkipFinalStages: states that the stage index advances, not by how many stages.
- SubModule.SubModule.SkipFinalStages: states the setup's outcome against the ghost snapshot `before` it returns, taken of the campaign just before the setup runs, not against the state on entry. The nested stage handlers may change the campaign before the setup starts; `FinishCreation` and `SetUpOnMap` state it against their entry state.
- SubModule.SubModule.NextStage: states that the stage index advances, not by exactly one. The postfix's handlers may advance it further.
- LegacySubModule.SubModule.NextStage: states that the stage index advances, not by exactly one, for the same reason.
- LegacySubModule.SubModule.OnCultureStage: the brother's retirement is stated only as `BrotherRetired`. The exact removal from the party is stated by `DisableElderBrother`.
- McmSettings.cs of v1.0.0 is not part of this model. The legacy settings page is represented by the four values its save event hands to `CopyFrom`.
- The v1.2 options-stage handler (src/SubModule.cs:155) is empty. The dispatch reaches it, and the model leaves the state unchanged there.
