/**
 * The parts of the game host (Mount & Blade II: Bannerlord) that the mod
 * reads and changes, reduced to the attributes its filters look at.
 * Host objects are compared by their string id, as the host compares them
 * by identity.
 */
module Host {
  import opened Wrappers
  import opened Choice

  type Id = string

  /** A culture and the tier-1 troop the host recruits for it (`Culture.BasicTroop`). */
  datatype Culture = Culture(id: Id, basicTroop: Id)

  /**
   * A settlement owned by a clan. Towns and castles are the fiefs
   * (`Clan.Fiefs`, `Kingdom.Fiefs`); villages and hideouts are neither.
   */
  datatype Settlement = Settlement(id: Id, culture: Culture, isTown: bool, isCastle: bool, owner: Id)
  {
    predicate IsFief() { isTown || isCastle }
  }

  /** A clan and the kingdom it belongs to, if any. */
  datatype Clan = Clan(id: Id, culture: Culture, kingdom: Option<Id>)

  /** A kingdom; its clans are the clans whose `kingdom` names it. */
  datatype Kingdom = Kingdom(id: Id, culture: Culture, eliminated: bool, rulingClan: Id)

  datatype FormationClass =
    Infantry | Ranged | Cavalry | HorseArcher | Skirmisher | HeavyInfantry | LightCavalry | HeavyCavalry

  datatype Occupation = Soldier | Lord | Wanderer | Bandit | Other

  /** A character template (`CharacterObject`) and the equipment sets it can wear. */
  datatype Troop = Troop(id: Id, culture: Culture, occupation: Occupation, tier: int,
                         formation: FormationClass, isFemale: bool, battleEquipments: seq<Id>)

  /** `Kingdom.All`, `Clan.All`, `Settlement.All` and `CharacterObject.All`, in the host's order. */
  datatype World = World(kingdoms: seq<Kingdom>, clans: seq<Clan>, settlements: seq<Settlement>, troops: seq<Troop>)

  /** Mounted formations: heavy cavalry, cavalry, horse archers and light cavalry. */
  predicate IsCavalry(t: Troop) {
    t.formation == HeavyCavalry || t.formation == Cavalry || t.formation == HorseArcher || t.formation == LightCavalry
  }

  /** The ids of `Clan.All`. */
  function AllClanIds(w: World): (r: seq<Id>)
    ensures |r| == |w.clans|
    ensures forall i :: 0 <= i < |r| ==> r[i] == w.clans[i].id
  {
    seq(|w.clans|, i requires 0 <= i < |w.clans| => w.clans[i].id)
  }

  /** The ids of `kingdom.Clans`: the clans that belong to the kingdom, in `Clan.All` order. */
  function ClansOf(w: World, kingdom: Id): (r: seq<Id>)
    ensures forall id :: id in r <==> exists c :: c in w.clans && c.id == id && c.kingdom == Some(kingdom)
  {
    ClanIdsIn(w.clans, kingdom)
  }

  function ClanIdsIn(clans: seq<Clan>, kingdom: Id): (r: seq<Id>)
    ensures forall id :: id in r <==> exists c :: c in clans && c.id == id && c.kingdom == Some(kingdom)
  {
    if clans == [] then []
    else if clans[0].kingdom == Some(kingdom) then [clans[0].id] + ClanIdsIn(clans[1..], kingdom)
    else ClanIdsIn(clans[1..], kingdom)
  }

  /** The clan with this id, if there is one (the first, ids being unique in the host). */
  function ClanById(w: World, id: Id): (r: Option<Clan>)
    ensures r.Some? ==> r.value in w.clans && r.value.id == id
    ensures r.None? <==> forall c :: c in w.clans ==> c.id != id
  {
    FindClan(w.clans, id)
  }

  function FindClan(clans: seq<Clan>, id: Id): (r: Option<Clan>)
    ensures r.Some? ==> r.value in clans && r.value.id == id
    ensures r.None? <==> forall c :: c in clans ==> c.id != id
  {
    if clans == [] then None
    else if clans[0].id == id then Some(clans[0])
    else FindClan(clans[1..], id)
  }

  /** `clan.Fiefs.Any()`: the clan owns a town or a castle. */
  predicate HasFief(w: World, clan: Id) {
    exists s :: s in w.settlements && s.owner == clan && s.IsFief()
  }

  /** `clan.Fiefs.Where(f => f.IsTown).Any()`: the clan owns a town. */
  predicate HasTown(w: World, clan: Id) {
    exists s :: s in w.settlements && s.owner == clan && s.isTown
  }

  /** `clan.Settlements`: everything the clan owns. */
  function ClanSettlements(w: World, clan: Id): seq<Settlement> {
    Filter(w.settlements, (s: Settlement) => s.owner == clan)
  }

  /** `kingdom.Settlements`: everything owned by a clan of the kingdom. */
  function KingdomSettlements(w: World, kingdom: Id): seq<Settlement> {
    var clans := ClansOf(w, kingdom);
    Filter(w.settlements, (s: Settlement) => s.owner in clans)
  }

  /** `kingdom.Fiefs.Any()`. */
  predicate KingdomHasFief(w: World, kingdom: Id) {
    exists s :: s in w.settlements && s.owner in ClansOf(w, kingdom) && s.IsFief()
  }

  /** `kingdom.Fiefs.Where(f => f.IsTown).Any()`. */
  predicate KingdomHasTown(w: World, kingdom: Id) {
    exists s :: s in w.settlements && s.owner in ClansOf(w, kingdom) && s.isTown
  }

  /** `settlement.OwnerClan.Culture`; none when the owner is not a known clan. */
  function OwnerCulture(w: World, s: Settlement): Option<Culture> {
    match ClanById(w, s.owner)
    case Some(c) => Some(c.culture)
    case None => None
  }

  /** `CampaignObjectManager.Find<Kingdom>(id)`: the kingdom with this id, eliminated or not. */
  function FindKingdom(kingdoms: seq<Kingdom>, id: Id): (r: Option<Kingdom>)
    ensures r.Some? ==> r.value in kingdoms && r.value.id == id
    ensures r.None? <==> forall k :: k in kingdoms ==> k.id != id
  {
    if kingdoms == [] then None
    else if kingdoms[0].id == id then Some(kingdoms[0])
    else FindKingdom(kingdoms[1..], id)
  }

  /** `Settlement.Find(id)`: the settlement with this id, if the map has one. */
  function FindSettlement(settlements: seq<Settlement>, id: Id): (r: Option<Settlement>)
    ensures r.Some? ==> r.value in settlements && r.value.id == id
    ensures r.None? <==> forall s :: s in settlements ==> s.id != id
  {
    if settlements == [] then None
    else if settlements[0].id == id then Some(settlements[0])
    else FindSettlement(settlements[1..], id)
  }

  /** `ChangeKingdomAction.ApplyByJoinToKingdom`: the clan becomes a member of the kingdom. */
  function JoinKingdom(w: World, clan: Id, kingdom: Id): (r: World)
    ensures r.kingdoms == w.kingdoms && r.settlements == w.settlements && r.troops == w.troops
    ensures |r.clans| == |w.clans|
    ensures forall i :: 0 <= i < |w.clans| ==>
      r.clans[i] == if w.clans[i].id == clan then w.clans[i].(kingdom := Some(kingdom)) else w.clans[i]
  {
    w.(clans := seq(|w.clans|, i requires 0 <= i < |w.clans| =>
         if w.clans[i].id == clan then w.clans[i].(kingdom := Some(kingdom)) else w.clans[i]))
  }

  /** `kingdom.RulingClan = clan`. */
  function SetRulingClan(w: World, kingdom: Id, clan: Id): (r: World)
    ensures r.clans == w.clans && r.settlements == w.settlements && r.troops == w.troops
    ensures |r.kingdoms| == |w.kingdoms|
    ensures forall i :: 0 <= i < |w.kingdoms| ==>
      r.kingdoms[i] == if w.kingdoms[i].id == kingdom then w.kingdoms[i].(rulingClan := clan) else w.kingdoms[i]
  {
    w.(kingdoms := seq(|w.kingdoms|, i requires 0 <= i < |w.kingdoms| =>
         if w.kingdoms[i].id == kingdom then w.kingdoms[i].(rulingClan := clan) else w.kingdoms[i]))
  }

  /** `roster.AddToCounts(item, n)` / `AddElementToMemberRoster(troop, n)`: add n to the count kept for the key. */
  function AddCount(m: map<Id, int>, key: Id, n: int): (r: map<Id, int>)
    ensures key in r && r[key] == (if key in m then m[key] else 0) + n
  {
    m[key := (if key in m then m[key] else 0) + n]
  }

  /** Adding to one entry leaves every other entry as it was. */
  lemma AddCountOthers(m: map<Id, int>, key: Id, n: int, other: Id)
    requires other != key
    ensures other in AddCount(m, key, n) <==> other in m
    ensures other in m ==> AddCount(m, key, n)[other] == m[other]
  {
  }

  // ---------------------------------------------------------------------
  // Character creation (the wizard)

  /** An option of a backstory menu; `condition` is its `OnCondition` (None for null) evaluated now. */
  datatype MenuOption = MenuOption(id: Id, condition: Option<bool>)

  /** `o.OnCondition is null || o.OnCondition()`. */
  predicate IsSelectable(o: MenuOption) {
    o.condition != Some(false)
  }

  /** The stage kinds of the wizard; a generic (backstory) stage carries its menus. */
  datatype Stage =
    | CultureStage
    | FaceGeneratorStage
    | GenericStage(menus: seq<seq<MenuOption>>)
    | ReviewStage
    | OptionsStage
    | OtherStage(name: string)

  /** The type of `CharacterCreationContentBase.Instance`. */
  datatype ContentKind = SandboxContent | StoryModeContent | OtherContent(typeName: string)

  /** A property-changed event of the settings page: the save event, or a change of the named property. */
  datatype PropertyChange = SaveTriggered | OtherProperty(name: string)

  /** The kind of `GameStateManager.Current.ActiveState`. */
  datatype GameStateKind = CharacterCreationGameState | MapState | BannerEditorState | OtherGameState

  /**
   * The host's `CharacterCreationState`: the stage list, the stage index the
   * `NextStage` postfix sees, the content with its cultures, and a log of the
   * menu consequences run so far (`RunConsequence(option, menuIndex)`).
   * `exitState` is the game state the host switches to when the last stage is left.
   */
  class CharacterCreationState {
    const stages: seq<Stage>
    var stageIndex: nat
    const content: ContentKind
    const cultures: seq<Culture>
    var selectedCulture: Option<Culture>
    var consequences: seq<(nat, MenuOption)>
    const exitState: GameStateKind

    ghost predicate Valid()
      reads this
    {
      && stageIndex <= |stages|
      && |cultures| > 0
      && (selectedCulture.Some? ==> selectedCulture.value in cultures)
    }

    /** `state.CurrentStage`; none once the last stage has been left. */
    function CurrentStage(): (r: Option<Stage>)
      reads this
      ensures r.Some? <==> stageIndex < |stages|
      ensures r.Some? ==> r.value == stages[stageIndex]
    {
      if stageIndex < |stages| then Some(stages[stageIndex]) else None
    }

    /**
     * The wizard as it stands on its first stage. The host enters that stage
     * through its own first `NextStage` (from index -1 to 0), so the postfix
     * runs for the first stage too; in the model the caller runs the postfix
     * for index 0 (`RunPostfix`) right after construction.
     */
    constructor (stages: seq<Stage>, content: ContentKind, cultures: seq<Culture>, exitState: GameStateKind)
      requires |cultures| > 0
      ensures Valid()
      ensures this.stages == stages && this.content == content && this.cultures == cultures
      ensures this.exitState == exitState
      ensures stageIndex == 0 && selectedCulture == None && consequences == []
    {
      this.stages := stages;
      this.content := content;
      this.cultures := cultures;
      this.exitState := exitState;
      stageIndex := 0;
      selectedCulture := None;
      consequences := [];
    }
  }

  /**
   * The menu consequences one resolution of a generic stage runs: exactly one
   * per menu that had a pick, in strictly increasing menu order.
   */
  function Applied(picked: seq<Option<MenuOption>>): (r: seq<(nat, MenuOption)>)
    ensures |r| <= |picked|
    ensures forall e :: e in r ==> e.0 < |picked| && picked[e.0] == Some(e.1)
    ensures forall i, j :: 0 <= i < j < |r| ==> r[i].0 < r[j].0
    ensures forall i :: 0 <= i < |picked| && picked[i].Some? ==> (i, picked[i].value) in r
  {
    if picked == [] then []
    else
      var front := picked[..|picked| - 1];
      var init := Applied(front);
      assert forall i :: 0 <= i < |front| ==> front[i] == picked[i];
      assert forall i :: 0 <= i < |init| ==> init[i] in init;
      match picked[|picked| - 1]
      case Some(o) => init + [(|picked| - 1, o)]
      case None => init
  }

  /** `picked` resolves `menus`: a selectable option of each menu that has one, nothing for a menu that has none. */
  ghost predicate IsResolution(menus: seq<seq<MenuOption>>, picked: seq<Option<MenuOption>>) {
    && |picked| == |menus|
    && forall i :: 0 <= i < |menus| ==>
         (picked[i].None? <==> Filter(menus[i], IsSelectable) == [])
         && (picked[i].Some? ==> picked[i].value in menus[i] && IsSelectable(picked[i].value))
  }

  /** The loop of the generic-stage skip: for each menu in order, runs the consequence of one randomly chosen selectable option, if any. */
  method ResolveMenus(state: CharacterCreationState, menus: seq<seq<MenuOption>>) returns (ghost picked: seq<Option<MenuOption>>)
    modifies state`consequences
    ensures IsResolution(menus, picked)
    ensures state.consequences == old(state.consequences) + Applied(picked)
  {
    picked := [];
    for i := 0 to |menus|
      invariant |picked| == i
      invariant forall j :: 0 <= j < i ==>
        (picked[j].None? <==> Filter(menus[j], IsSelectable) == [])
        && (picked[j].Some? ==> picked[j].value in menus[j] && IsSelectable(picked[j].value))
      invariant state.consequences == old(state.consequences) + Applied(picked)
    {
      var k: nat :| true;
      var option := Pick(Filter(menus[i], IsSelectable), k);
      FilterMembers(menus[i], IsSelectable);
      if option.Some? {
        state.consequences := state.consequences + [(i, option.value)];
      }
      assert (picked + [option])[..i] == picked;
      picked := picked + [option];
    }
  }

  // ---------------------------------------------------------------------
  // The campaign

  /** The story-mode elder brother: his character id, whether he is disabled and whether he was moved to the neutral faction. */
  datatype Brother = Brother(character: Id, disabled: bool, neutral: bool)

  /** A hero of the player's clan and the settlement recorded as their birthplace. */
  datatype ClanHero = ClanHero(id: Id, bornSettlement: Option<Id>)

  /** A text inquiry the mod asked the host to show. */
  datatype Prompt = PlayerNamePrompt | ClanNamePrompt

  /**
   * The campaign state the mod reads and changes: the world, the player's
   * hero, clan and main party, the story-mode tutorial flags, the active
   * game state and the text inquiries requested.
   */
  class Campaign {
    var world: World
    const playerClan: Id
    const heroCulture: Culture
    const heroIsFemale: bool
    const partyCulture: Culture
    const muleExists: bool
    var playerName: string
    var clanName: string
    var gold: int
    var items: map<Id, int>
    var members: map<Id, int>
    var battleEquipment: Option<Id>
    var home: Option<Id>
    var clanHeroes: seq<ClanHero>
    var partyPosition: Option<Id>
    var activeState: GameStateKind
    var prompts: seq<Prompt>
    var brother: Option<Brother>
    var skipTutorialMission: bool
    var talkedWithBrother: bool
    var tutorialCompleted: bool

    constructor (world: World, playerClan: Id, heroCulture: Culture, heroIsFemale: bool, partyCulture: Culture, muleExists: bool,
                 playerName: string, gold: int, members: map<Id, int>, clanHeroes: seq<ClanHero>,
                 brother: Option<Brother>)
      ensures this.world == world && this.playerClan == playerClan && this.heroCulture == heroCulture
      ensures this.heroIsFemale == heroIsFemale && this.partyCulture == partyCulture && this.muleExists == muleExists
      ensures this.playerName == playerName && this.gold == gold && this.members == members
      ensures this.clanHeroes == clanHeroes && this.brother == brother
      ensures clanName == "" && items == map[] && battleEquipment == None && home == None
      ensures partyPosition == None && activeState == CharacterCreationGameState && prompts == []
      ensures !skipTutorialMission && !talkedWithBrother && !tutorialCompleted
    {
      this.world := world;
      this.playerClan := playerClan;
      this.heroCulture := heroCulture;
      this.heroIsFemale := heroIsFemale;
      this.partyCulture := partyCulture;
      this.muleExists := muleExists;
      this.playerName := playerName;
      this.gold := gold;
      this.members := members;
      this.clanHeroes := clanHeroes;
      this.brother := brother;
      clanName := "";
      items := map[];
      battleEquipment := None;
      home := None;
      partyPosition := None;
      activeState := CharacterCreationGameState;
      prompts := [];
      skipTutorialMission := false;
      talkedWithBrother := false;
      tutorialCompleted := false;
    }
  }

  /** The elder brother is out of play: absent, or disabled and handed to the neutral faction. */
  predicate BrotherRetired(b: Option<Brother>) {
    b.None? || (b.value.disabled && b.value.neutral)
  }

  /** `MemberRoster.RemoveTroop(character, 1)`: one fewer of that character, if any is there. */
  function RemoveOne(m: map<Id, int>, character: Id): (r: map<Id, int>)
    ensures character in m && m[character] > 0 ==> character in r && r[character] == m[character] - 1
    ensures forall k :: k != character ==> (k in r <==> k in m) && (k in m ==> r[k] == m[k])
    ensures character !in m || m[character] <= 0 ==> r == m
  {
    if character in m && m[character] > 0 then m[character := m[character] - 1] else m
  }
}
