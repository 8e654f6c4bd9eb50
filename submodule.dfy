/**
 * The mod's entry class of v1.2.0.0 (src/SubModule.cs): the handlers the
 * stage postfix calls, the stage skips they perform, and the campaign setup
 * run once the wizard is through.
 *
 * The host's `CharacterCreationState.NextStage` is modelled here too,
 * because the postfix attached to it calls back into the handlers, which
 * call `NextStage` again: the skips of one character creation nest inside
 * each other. The model keeps that nesting as mutually recursive methods
 * whose measure is the number of stages left.
 *
 * An exception thrown by a handler unwinds every nested call; the methods
 * of the cluster return `ok == false` for it and their callers stop there.
 */
module SubModule {
  import opened Wrappers
  import opened Choice
  import opened Host
  import opened Selection
  import Settings
  import opened StagePatch

  /** The clan name given when the player is not asked for one. */
  const DefaultPlayerClanName: string := "Playerclan"

  /** The item ids of `DefaultItems.Grain` and of the "mule" item. */
  const GrainItem: Id := "grain"
  const MuleItem: Id := "mule"

  /** The gold, grain and mules granted by a vassal start and by a king start. */
  const VassalGold: int := 10000
  const KingGold: int := 30000

  /** The (tier, amount) pairs of the troops a vassal start and a king start add, in the order they are added. */
  const VassalTroops: seq<(int, int)> := [(1, 12), (2, 7), (3, 5)]
  const KingTroops: seq<(int, int)> := [(1, 20), (2, 8), (3, 8), (4, 6), (5, 4), (6, 3)]

  /**
   * The part of the campaign the seizure and the kingdom start change: the
   * map, the purse, the items, the member roster, the hero's battle
   * equipment, the home and the clan heroes.
   */
  datatype Holdings = Holdings(world: World, gold: int, items: map<Id, int>, members: map<Id, int>,
                               battleEquipment: Option<Id>, home: Option<Id>, clanHeroes: seq<ClanHero>)

  /**
   * The part of the campaign the setup changes, as it was before: the
   * holdings, the party's position and the questions asked.
   */
  datatype MapSnapshot = MapSnapshot(world: World, gold: int, items: map<Id, int>, members: map<Id, int>,
                                     battleEquipment: Option<Id>, home: Option<Id>, clanHeroes: seq<ClanHero>,
                                     partyPosition: Option<Id>, prompts: seq<Prompt>)

  /**
   * The random draws of a kingdom start: `template` and `equipment` choose
   * the soldier whose battle equipment the hero copies and the set copied;
   * `troops[i]` chooses the troop added for the i-th (tier, amount) pair.
   */
  datatype StartPicks = StartPicks(template: nat, equipment: nat, troops: seq<nat>)

  /** What the campaign setup decided: the kingdom, the clan fiefs were seized from, the fiefs seized and the start town. */
  datatype Setup = Setup(kingdom: Option<Kingdom>, fiefOwner: Option<Id>, taken: seq<Settlement>, startTown: Option<Settlement>)

  /** The item roster after a start's grant: `grain` sacks of grain, and `mules` mules when the mule item exists. */
  function Provisions(grain: int, mules: int, muleExists: bool): (r: map<Id, int>)
    ensures GrainItem in r && r[GrainItem] == grain
    ensures MuleItem in r <==> muleExists
    ensures muleExists ==> r[MuleItem] == mules
    ensures forall id :: id in r ==> id == GrainItem || id == MuleItem
  {
    var m := AddCount(map[], GrainItem, grain);
    if muleExists then AddCount(m, MuleItem, mules) else m
  }

  /** The hero's equipment after `FillFrom`: the equipment set found, or the old one when none was found. */
  function Refit(before: Option<Id>, found: Option<Id>): Option<Id>
  {
    if found.Some? then found else before
  }

  /** The member roster after adding `amount` of the troop found; unchanged when none was found. */
  function Recruit(members: map<Id, int>, found: Option<Id>, amount: int): map<Id, int>
  {
    if found.Some? then AddCount(members, found.value, amount) else members
  }

  /** The draw for the i-th troop, 0 past the draws made. */
  function PickAt(picks: seq<nat>, i: nat): nat {
    if i < |picks| then picks[i] else 0
  }

  /** The member roster after adding, for each (tier, amount) of `grants` in order, that amount of the troop drawn with `picks[i]`. */
  function Recruited(members: map<Id, int>, troops: seq<Troop>, culture: Culture, grants: seq<(int, int)>, picks: seq<nat>): map<Id, int>
  {
    if grants == [] then members
    else
      var i := |grants| - 1;
      Recruit(Recruited(members, troops, culture, grants[..i], picks), TroopToAdd(troops, grants[i].0, culture, PickAt(picks, i)), grants[i].1)
  }

  /** The vassal start's roster is the three calls of `AddTroopsToParty` in order. */
  lemma VassalRoster(m: map<Id, int>, troops: seq<Troop>, culture: Culture, picks: seq<nat>)
    requires |picks| == 3
    ensures Recruited(m, troops, culture, VassalTroops, picks) ==
      Recruit(Recruit(Recruit(m, TroopToAdd(troops, 1, culture, picks[0]), 12),
        TroopToAdd(troops, 2, culture, picks[1]), 7),
        TroopToAdd(troops, 3, culture, picks[2]), 5)
  {
    var g := VassalTroops;
    assert g[..2] == [(1, 12), (2, 7)] && g[..2][..1] == [(1, 12)] && g[..2][..1][..0] == [];
    assert Recruited(m, troops, culture, g[..2][..1][..0], picks) == m;
    assert PickAt(picks, 0) == picks[0] && PickAt(picks, 1) == picks[1] && PickAt(picks, 2) == picks[2];
    var m1 := Recruited(m, troops, culture, g[..2][..1], picks);
    assert m1 == Recruit(m, TroopToAdd(troops, 1, culture, picks[0]), 12);
    var m2 := Recruited(m, troops, culture, g[..2], picks);
    assert m2 == Recruit(m1, TroopToAdd(troops, 2, culture, picks[1]), 7);
  }

  /** The first three of the king start's calls of `AddTroopsToParty`, tiers 1 to 3. */
  lemma KingRosterHead(m: map<Id, int>, troops: seq<Troop>, culture: Culture, picks: seq<nat>)
    requires |picks| == 6
    ensures Recruited(m, troops, culture, KingTroops[..3], picks) ==
      Recruit(Recruit(Recruit(m, TroopToAdd(troops, 1, culture, picks[0]), 20),
        TroopToAdd(troops, 2, culture, picks[1]), 8),
        TroopToAdd(troops, 3, culture, picks[2]), 8)
  {
    var g := KingTroops[..3];
    assert g == [(1, 20), (2, 8), (3, 8)] && g[..2] == [(1, 20), (2, 8)] && g[..2][..1] == [(1, 20)] && g[..2][..1][..0] == [];
    assert Recruited(m, troops, culture, g[..2][..1][..0], picks) == m;
    assert PickAt(picks, 0) == picks[0] && PickAt(picks, 1) == picks[1] && PickAt(picks, 2) == picks[2];
    var m1 := Recruited(m, troops, culture, g[..2][..1], picks);
    assert m1 == Recruit(m, TroopToAdd(troops, 1, culture, picks[0]), 20);
    var m2 := Recruited(m, troops, culture, g[..2], picks);
    assert m2 == Recruit(m1, TroopToAdd(troops, 2, culture, picks[1]), 8);
  }

  /** The king start's roster is the six calls of `AddTroopsToParty` in order. */
  lemma KingRoster(m: map<Id, int>, troops: seq<Troop>, culture: Culture, picks: seq<nat>)
    requires |picks| == 6
    ensures Recruited(m, troops, culture, KingTroops, picks) ==
      Recruit(Recruit(Recruit(Recruit(Recruit(Recruit(m, TroopToAdd(troops, 1, culture, picks[0]), 20),
        TroopToAdd(troops, 2, culture, picks[1]), 8),
        TroopToAdd(troops, 3, culture, picks[2]), 8),
        TroopToAdd(troops, 4, culture, picks[3]), 6),
        TroopToAdd(troops, 5, culture, picks[4]), 4),
        TroopToAdd(troops, 6, culture, picks[5]), 3)
  {
    var g := KingTroops;
    KingRosterHead(m, troops, culture, picks);
    assert g[..5] == [(1, 20), (2, 8), (3, 8), (4, 6), (5, 4)] && g[..5][..4] == [(1, 20), (2, 8), (3, 8), (4, 6)];
    assert g[..5][..4][..3] == g[..3];
    assert PickAt(picks, 3) == picks[3] && PickAt(picks, 4) == picks[4] && PickAt(picks, 5) == picks[5];
    var m3 := Recruited(m, troops, culture, g[..3], picks);
    var m4 := Recruited(m, troops, culture, g[..5][..4], picks);
    assert m4 == Recruit(m3, TroopToAdd(troops, 4, culture, picks[3]), 6);
    var m5 := Recruited(m, troops, culture, g[..5], picks);
    assert m5 == Recruit(m4, TroopToAdd(troops, 5, culture, picks[4]), 4);
  }

  /** Recruiting only adds: with amounts that are not negative, every troop of the roster stays, with at least as many men. */
  lemma {:induction false} RecruitedKeeps(members: map<Id, int>, troops: seq<Troop>, culture: Culture, grants: seq<(int, int)>, picks: seq<nat>)
    requires forall i :: 0 <= i < |grants| ==> grants[i].1 >= 0
    ensures var r := Recruited(members, troops, culture, grants, picks);
      forall id :: id in members ==> id in r && r[id] >= members[id]
  {
    if grants != [] {
      var i := |grants| - 1;
      RecruitedKeeps(members, troops, culture, grants[..i], picks);
      var m := Recruited(members, troops, culture, grants[..i], picks);
      var found := TroopToAdd(troops, grants[i].0, culture, PickAt(picks, i));
      if found.Some? {
        forall id | id in m && id != found.value
          ensures id in AddCount(m, found.value, grants[i].1) && AddCount(m, found.value, grants[i].1)[id] == m[id]
        {
          AddCountOthers(m, found.value, grants[i].1, id);
        }
      }
    }
  }

  /** A settlement after `TakeFiefsFromClan` from `from`: the player clan owns it if it was one of `from`'s towns or castles. */
  function Seized(s: Settlement, from: Option<Id>, player: Id): Settlement {
    if from.Some? && s.owner == from.value && s.IsFief() then s.(owner := player) else s
  }

  /** The map's settlements after `TakeFiefsFromClan` from `from`: each one seized or left, in the host's order. */
  function SeizedAll(ss: seq<Settlement>, from: Option<Id>, player: Id): (r: seq<Settlement>)
    ensures |r| == |ss|
  {
    if ss == [] then [] else SeizedAll(ss[..|ss| - 1], from, player) + [Seized(ss[|ss| - 1], from, player)]
  }

  /** The settlement at each position is the one that was there, seized or left. */
  lemma {:induction false} SeizedAllAt(ss: seq<Settlement>, from: Option<Id>, player: Id, i: nat)
    requires i < |ss|
    ensures SeizedAll(ss, from, player)[i] == Seized(ss[i], from, player)
  {
    if i < |ss| - 1 {
      SeizedAllAt(ss[..|ss| - 1], from, player, i);
    }
  }

  /** Without a clan to take from, the map is left as it is. */
  lemma {:induction false} SeizedNothing(ss: seq<Settlement>, player: Id)
    ensures SeizedAll(ss, None, player) == ss
  {
    if ss != [] {
      SeizedNothing(ss[..|ss| - 1], player);
      assert ss == ss[..|ss| - 1] + [ss[|ss| - 1]];
    }
  }

  /** Every fief of the clan taken from is on the map afterwards, owned by the player clan. */
  lemma SeizedFief(ss: seq<Settlement>, from: Id, player: Id, s: Settlement)
    requires s in ss && s.owner == from && s.IsFief()
    ensures s.(owner := player) in SeizedAll(ss, Some(from), player)
  {
    var i :| 0 <= i < |ss| && ss[i] == s;
    SeizedAllAt(ss, Some(from), player, i);
  }

  /** One step of the seizure loop: the next settlement is seized (written in place) or left, and taken exactly when it is a fief of `from`. */
  lemma SeizeStep(ss: seq<Settlement>, j: nat, from: Id, player: Id)
    requires j < |ss|
    ensures ss[j].owner == from && ss[j].IsFief() ==>
      SeizedAll(ss[..j + 1], Some(from), player) + ss[j + 1..] ==
      (SeizedAll(ss[..j], Some(from), player) + ss[j..])[j := ss[j].(owner := player)]
    ensures !(ss[j].owner == from && ss[j].IsFief()) ==>
      SeizedAll(ss[..j + 1], Some(from), player) + ss[j + 1..] == SeizedAll(ss[..j], Some(from), player) + ss[j..]
    ensures FiefsOf(ss[..j + 1], from) ==
      FiefsOf(ss[..j], from) + (if ss[j].owner == from && ss[j].IsFief() then [ss[j]] else [])
  {
    assert ss[..j + 1][..j] == ss[..j];
    var done := SeizedAll(ss[..j], Some(from), player);
    ReplaceNext(done, ss[j..], Seized(ss[j], Some(from), player));
    assert ss[j..][1..] == ss[j + 1..];
    if !(ss[j].owner == from && ss[j].IsFief()) {
      assert ss[j..] == [ss[j]] + ss[j + 1..];
      assert done + [ss[j]] + ss[j + 1..] == done + ss[j..];
    }
  }

  /** Overwriting the first element after `done` extends `done` by one. */
  lemma ReplaceNext<T>(done: seq<T>, rest: seq<T>, x: T)
    requires |rest| > 0
    ensures (done + rest)[|done| := x] == done + [x] + rest[1..]
  {
    var a := (done + rest)[|done| := x];
    var b := done + [x] + rest[1..];
    assert |a| == |b|;
    forall i | 0 <= i < |a| ensures a[i] == b[i] {
      if i < |done| {
      } else if i == |done| {
      } else {
        assert a[i] == rest[i - |done|];
        assert b[i] == rest[1..][i - |done| - 1];
      }
    }
  }

  /** The clan heroes after their birthplace is set to `home`, in order. */
  function Rehomed(heroes: seq<ClanHero>, home: Option<Id>): (r: seq<ClanHero>)
    ensures |r| == |heroes|
  {
    if heroes == [] then [] else Rehomed(heroes[..|heroes| - 1], home) + [heroes[|heroes| - 1].(bornSettlement := home)]
  }

  /** Each hero keeps everything but the birthplace, which becomes `home`. */
  lemma {:induction false} RehomedAt(heroes: seq<ClanHero>, home: Option<Id>, i: nat)
    requires i < |heroes|
    ensures Rehomed(heroes, home)[i] == heroes[i].(bornSettlement := home)
  {
    if i < |heroes| - 1 {
      RehomedAt(heroes[..|heroes| - 1], home, i);
    }
  }

  /** Seizing changes owners only: towns stay towns, and the player ends up owning every fief seized. */
  lemma SeizedOwnership(s: Settlement, from: Option<Id>, player: Id)
    ensures Seized(s, from, player).id == s.id && Seized(s, from, player).isTown == s.isTown
    ensures Seized(s, from, player).isCastle == s.isCastle
    ensures from.Some? && s.owner == from.value && s.IsFief() ==> Seized(s, from, player).owner == player
    ensures !(from.Some? && s.owner == from.value && s.IsFief()) ==> Seized(s, from, player) == s
  {
  }

  /** The map after a vassal or king start in `kingdom`: unchanged without a kingdom or without either start; the vassal start wins. */
  function KingdomStartWorld(w: World, player: Id, kingdom: Option<Kingdom>, vassalStart: bool, kingStart: bool): World {
    if kingdom.None? || !(vassalStart || kingStart) then w
    else if vassalStart then JoinKingdom(w, player, kingdom.value.id)
    else SetRulingClan(JoinKingdom(w, player, kingdom.value.id), kingdom.value.id, player)
  }

  /** The map after the whole setup: the fiefs of `fiefOwner` seized for the player clan, then the kingdom start. */
  function StartWorld(w: World, player: Id, fiefOwner: Option<Id>, kingdom: Option<Kingdom>, vassalStart: bool, kingStart: bool): World {
    KingdomStartWorld(w.(settlements := SeizedAll(w.settlements, fiefOwner, player)), player, kingdom, vassalStart, kingStart)
  }

  /** The player's gold after the kingdom start: the start's grant replaces it, or it is kept. */
  function StartGold(gold: int, kingdom: Option<Kingdom>, vassalStart: bool, kingStart: bool): int {
    if kingdom.None? || !(vassalStart || kingStart) then gold
    else if vassalStart then VassalGold
    else KingGold
  }

  /** The party's items after the kingdom start: the start's provisions replace them, or they are kept. */
  function StartItems(items: map<Id, int>, muleExists: bool, kingdom: Option<Kingdom>, vassalStart: bool, kingStart: bool): map<Id, int> {
    if kingdom.None? || !(vassalStart || kingStart) then items
    else if vassalStart then Provisions(5, 1, muleExists)
    else Provisions(20, 4, muleExists)
  }

  /** The member roster after the kingdom start: the start's troops are added to it, or it is kept. */
  function StartMembers(members: map<Id, int>, troops: seq<Troop>, culture: Culture, kingdom: Option<Kingdom>,
                        vassalStart: bool, kingStart: bool, picks: StartPicks): map<Id, int> {
    if kingdom.None? || !(vassalStart || kingStart) then members
    else Recruited(members, troops, culture, if vassalStart then VassalTroops else KingTroops, picks.troops)
  }

  /** The hero's battle equipment after the kingdom start: refitted from a mounted soldier of tier 3-4 (vassal) or 5-7 (king), or kept. */
  function StartEquipment(equipment: Option<Id>, troops: seq<Troop>, culture: Culture, isFemale: bool, kingdom: Option<Kingdom>,
                          vassalStart: bool, kingStart: bool, picks: StartPicks): Option<Id> {
    if kingdom.None? || !(vassalStart || kingStart) then equipment
    else if vassalStart then Refit(equipment, CavalryEquipment(troops, culture, isFemale, 3, 4, picks.template, picks.equipment))
    else Refit(equipment, CavalryEquipment(troops, culture, isFemale, 5, 7, picks.template, picks.equipment))
  }

  /**
   * What the kingdom start does to the party: without a start the roster
   * and the equipment stay; with one, troops are added to the roster, so no
   * troop already in it is lost or reduced, and any new equipment belongs to
   * a soldier of the start's tier range.
   */
  lemma StartPartyOutcome(members: map<Id, int>, equipment: Option<Id>, troops: seq<Troop>, partyCulture: Culture, heroCulture: Culture,
                          isFemale: bool, kingdom: Option<Kingdom>, vassalStart: bool, kingStart: bool, picks: StartPicks)
    ensures kingdom.None? || !(vassalStart || kingStart) ==>
      StartMembers(members, troops, partyCulture, kingdom, vassalStart, kingStart, picks) == members &&
      StartEquipment(equipment, troops, heroCulture, isFemale, kingdom, vassalStart, kingStart, picks) == equipment
    ensures var r := StartMembers(members, troops, partyCulture, kingdom, vassalStart, kingStart, picks);
      forall id :: id in members ==> id in r && r[id] >= members[id]
    ensures var e := StartEquipment(equipment, troops, heroCulture, isFemale, kingdom, vassalStart, kingStart, picks);
      e != equipment ==>
        exists t :: t in troops && e.Some? && e.value in t.battleEquipments &&
                    (if vassalStart then InTierRange(t, 3, 4) else InTierRange(t, 5, 7))
  {
    if kingdom.Some? && (vassalStart || kingStart) {
      var grants := if vassalStart then VassalTroops else KingTroops;
      assert forall i :: 0 <= i < |grants| ==> grants[i].1 >= 0;
      RecruitedKeeps(members, troops, partyCulture, grants, picks.troops);
      if vassalStart {
        CavalryEquipmentInRange(troops, heroCulture, isFemale, 3, 4, picks.template, picks.equipment);
      } else {
        CavalryEquipmentInRange(troops, heroCulture, isFemale, 5, 7, picks.template, picks.equipment);
      }
    }
  }

  /**
   * What the setup does to the map: every settlement is the one that was at
   * its place, seized or left; troops never change; without a kingdom start
   * clans and kingdoms stay; with one, the player clan (if it is on the map)
   * is a member of the kingdom, a vassal start changes no kingdom, and a
   * king start makes the player clan the kingdom's ruler.
   */
  lemma StartWorldOutcome(w: World, player: Id, fiefOwner: Option<Id>, kingdom: Option<Kingdom>, vassalStart: bool, kingStart: bool)
    ensures var r := StartWorld(w, player, fiefOwner, kingdom, vassalStart, kingStart);
      && |r.settlements| == |w.settlements|
      && (forall i :: 0 <= i < |w.settlements| ==> r.settlements[i] == Seized(w.settlements[i], fiefOwner, player))
      && r.troops == w.troops
      && (kingdom.None? || !(vassalStart || kingStart) ==> r.clans == w.clans && r.kingdoms == w.kingdoms)
      && (kingdom.Some? && (vassalStart || kingStart) ==>
            && (forall c :: c in r.clans && c.id == player ==> c.kingdom == Some(kingdom.value.id))
            && ((exists c :: c in w.clans && c.id == player) ==>
                  exists c :: c in r.clans && c.id == player && c.kingdom == Some(kingdom.value.id)))
      && (kingdom.Some? && vassalStart ==> r.kingdoms == w.kingdoms)
      && (kingdom.Some? && !vassalStart && kingStart ==>
            forall kd :: kd in r.kingdoms && kd.id == kingdom.value.id ==> kd.rulingClan == player)
  {
    var seized := w.(settlements := SeizedAll(w.settlements, fiefOwner, player));
    forall i | 0 <= i < |w.settlements| ensures seized.settlements[i] == Seized(w.settlements[i], fiefOwner, player) {
      SeizedAllAt(w.settlements, fiefOwner, player, i);
    }
    if kingdom.Some? && (vassalStart || kingStart) {
      var joined := JoinKingdom(seized, player, kingdom.value.id);
      JoinedKingdom(joined, seized, player, kingdom.value.id);
      if !vassalStart {
        NowRuling(SetRulingClan(joined, kingdom.value.id, player), joined, kingdom.value.id, player);
      }
    }
  }

  /** A town taken from `from` is on the map after the setup as the player clan's town. */
  lemma TakenTownOwned(w: World, player: Id, from: Id, kingdom: Option<Kingdom>, vassalStart: bool, kingStart: bool, s: Settlement)
    requires s in FiefsOf(w.settlements, from) && s.isTown
    ensures var r := StartWorld(w, player, Some(from), kingdom, vassalStart, kingStart);
      s.(owner := player) in r.settlements && s.(owner := player).isTown && s.(owner := player).owner == player
  {
    SeizedFief(w.settlements, from, player, s);
    StartWorldOutcome(w, player, Some(from), kingdom, vassalStart, kingStart);
    var i :| 0 <= i < |w.settlements| && w.settlements[i] == s;
    SeizedAllAt(w.settlements, Some(from), player, i);
  }

  /**
   * The mod instance. `config` is the static configuration, `campaign` the
   * running campaign; `isSandbox` remembers which content the culture stage saw.
   */
  class SubModule {
    const config: Settings.Config
    const campaign: Campaign
    var isSandbox: bool

    constructor (config: Settings.Config, campaign: Campaign)
      ensures this.config == config && this.campaign == campaign && !isSandbox
    {
      this.config := config;
      this.campaign := campaign;
      isSandbox := false;
    }

    /** `OnGameEnd`: the remembered content kind is reset. */
    method OnGameEnd()
      modifies this
      ensures !isSandbox
    {
      isSandbox := false;
    }

    /** A save on the settings page copies it into the configuration; any other property change is ignored. */
    method OnSettingsPropertyChanged(settings: Settings.McmSettings, change: PropertyChange)
      modifies config`showCultureStage, config`showFaceGenStage, config`showGenericStage,
               config`disableIntroVideo, config`promptForPlayerName, config`promptForClanName,
               config`openBannerEditor
      ensures change == SaveTriggered ==> config.Values() == settings.Values()
      ensures change != SaveTriggered ==> unchanged(config)
    {
      if change == SaveTriggered {
        config.CopyFrom(settings);
      }
    }

    // -------------------------------------------------------------------
    // The wizard

    /**
     * What every method of the wizard cluster keeps: the wizard state stays
     * well formed, the stage index and the consequence log only grow, a
     * chosen culture is never replaced, the remembered content kind is only
     * ever set to the content's own, and the story-mode tutorial skip and
     * the retirement of the elder brother are never undone.
     */
    twostate predicate Progressed(state: CharacterCreationState)
      reads this, state, campaign
    {
      && state.Valid()
      && old(state.stageIndex) <= state.stageIndex
      && old(state.consequences) <= state.consequences
      && (old(state.selectedCulture).Some? ==> state.selectedCulture == old(state.selectedCulture))
      && (isSandbox == old(isSandbox) || isSandbox == state.content.SandboxContent?)
      && (old(campaign.skipTutorialMission) ==> campaign.skipTutorialMission)
      && (BrotherRetired(old(campaign.brother)) ==> BrotherRetired(campaign.brother))
      && (!old(isSandbox) && state.content.StoryModeContent? ==> !isSandbox)
    }

    /**
     * The host's `state.NextStage()` with the postfix attached: the stage
     * index moves on, leaving the last stage switches to the state the
     * wizard exits to, and the postfix runs.
     */
    method NextStage(state: CharacterCreationState) returns (ok: bool)
      requires state.Valid() && state.stageIndex < |state.stages|
      modifies this, state, campaign
      decreases |state.stages| - state.stageIndex, 0
      ensures Progressed(state)
      ensures state.stageIndex > old(state.stageIndex)
      ensures !state.content.OtherContent? ==> ok
    {
      state.stageIndex := state.stageIndex + 1;
      if state.stageIndex == |state.stages| {
        campaign.activeState := state.exitState;
      }
      ok := RunPostfix(state);
    }

    /** `NextStagePostfix`: runs the handler the dispatch names, if any. */
    method RunPostfix(state: CharacterCreationState) returns (ok: bool)
      requires state.Valid()
      modifies this, state, campaign
      decreases |state.stages| - state.stageIndex, 3
      ensures Progressed(state)
      ensures StagePatch.NextStagePostfix(old(state.stageIndex), state.stages).None? ==>
        ok && unchanged(this, state, campaign)
      ensures !state.content.OtherContent? ==> ok
    {
      var h := StagePatch.NextStagePostfix(state.stageIndex, state.stages);
      match h
      case None =>
        ok := true;
      case Some(OnCulture) =>
        ok := OnCultureStage(state);
      case Some(OnFaceGen) =>
        ok := OnFaceGenStage(state);
      case Some(OnGeneric) =>
        ok := OnGenericStage(state);
      case Some(OnReview) =>
        ok := OnReviewStage(state);
      case Some(OnOptions) =>
        // The options stage handler leaves the stage to the player.
        ok := true;
    }

    /**
     * The culture stage: sandbox content is remembered as sandbox, story
     * content as not, and any other content throws before anything changes.
     * In story mode the elder brother is retired and the tutorial mission
     * skipped. Unless the stage is shown, it is then skipped.
     */
    method OnCultureStage(state: CharacterCreationState) returns (ok: bool)
      requires state.Valid() && state.stageIndex < |state.stages|
      modifies this, state, campaign
      decreases |state.stages| - state.stageIndex, 2
      ensures Progressed(state)
      ensures state.content.OtherContent? ==> !ok && unchanged(this, state, campaign)
      ensures !state.content.OtherContent? ==> ok && isSandbox == state.content.SandboxContent?
      ensures state.content.StoryModeContent? ==> campaign.skipTutorialMission && BrotherRetired(campaign.brother)
      ensures config.showCultureStage ==> unchanged(state)
      ensures !config.showCultureStage && ok ==> state.selectedCulture.Some?
    {
      match state.content {
        case SandboxContent =>
          isSandbox := true;
        case StoryModeContent =>
          isSandbox := false;
        case OtherContent(_) =>
          return false;
      }
      if !isSandbox {
        DisableElderBrother(true);
        campaign.skipTutorialMission := true;
      }
      if !config.showCultureStage {
        ok := SkipCultureStage(state);
      } else {
        ok := true;
      }
    }

    /** The face generator stage is skipped unless it is shown. */
    method OnFaceGenStage(state: CharacterCreationState) returns (ok: bool)
      requires state.Valid() && state.stageIndex < |state.stages|
      modifies this, state, campaign
      decreases |state.stages| - state.stageIndex, 2
      ensures Progressed(state)
      ensures !state.content.OtherContent? ==> ok
      ensures config.showFaceGenStage ==> ok && unchanged(this, state, campaign)
      ensures !config.showFaceGenStage ==> state.stageIndex > old(state.stageIndex)
    {
      if !config.showFaceGenStage {
        ok := SkipFaceGenStage(state);
      } else {
        ok := true;
      }
    }

    /** A generic (backstory) stage is skipped unless it is shown. */
    method OnGenericStage(state: CharacterCreationState) returns (ok: bool)
      requires state.Valid() && state.stageIndex < |state.stages| && state.stages[state.stageIndex].GenericStage?
      modifies this, state, campaign
      decreases |state.stages| - state.stageIndex, 2
      ensures Progressed(state)
      ensures !state.content.OtherContent? ==> ok
      ensures config.showGenericStage ==> ok && unchanged(this, state, campaign)
      ensures !config.showGenericStage ==> state.stageIndex > old(state.stageIndex)
    {
      if !config.showGenericStage {
        ok := SkipGenericStage(state);
      } else {
        ok := true;
      }
    }

    /** The review stage always hands over to the final skip. */
    method OnReviewStage(state: CharacterCreationState) returns (ok: bool)
      requires state.Valid() && state.stageIndex < |state.stages| && state.stages[state.stageIndex].ReviewStage?
      modifies this, state, campaign
      decreases |state.stages| - state.stageIndex, 2
      ensures Progressed(state)
      ensures !state.content.OtherContent? ==> ok
      ensures state.stageIndex > old(state.stageIndex)
      ensures ok ==> campaign.clanName == DefaultPlayerClanName
    {
      var setup;
      ghost var before, picks;
      ok, setup, before, picks := SkipFinalStages(state);
    }

    /** Picks a random culture and moves on, but only when no culture is selected yet. */
    method SkipCultureStage(state: CharacterCreationState) returns (ok: bool)
      requires state.Valid() && state.stageIndex < |state.stages|
      modifies this, state, campaign
      decreases |state.stages| - state.stageIndex, 1
      ensures Progressed(state)
      ensures !state.content.OtherContent? ==> ok
      ensures old(state.selectedCulture).Some? ==> ok && unchanged(this, state, campaign)
      ensures old(state.selectedCulture).None? ==>
        state.selectedCulture.Some? && state.selectedCulture.value in state.cultures &&
        state.stageIndex > old(state.stageIndex)
    {
      if state.selectedCulture.None? {
        var k: nat :| true;
        state.selectedCulture := Pick(state.cultures, k);
        ok := NextStage(state);
      } else {
        ok := true;
      }
    }

    /** Moves on from the face generator with the current face. */
    method SkipFaceGenStage(state: CharacterCreationState) returns (ok: bool)
      requires state.Valid() && state.stageIndex < |state.stages|
      modifies this, state, campaign
      decreases |state.stages| - state.stageIndex, 1
      ensures Progressed(state)
      ensures !state.content.OtherContent? ==> ok
      ensures state.stageIndex > old(state.stageIndex)
    {
      ok := NextStage(state);
    }

    /**
     * Runs, for each menu of the generic stage in order, the consequence of
     * one randomly chosen selectable option (none for a menu without one),
     * then moves on.
     */
    method SkipGenericStage(state: CharacterCreationState) returns (ok: bool)
      requires state.Valid() && state.stageIndex < |state.stages| && state.stages[state.stageIndex].GenericStage?
      modifies this, state, campaign
      decreases |state.stages| - state.stageIndex, 1
      ensures Progressed(state)
      ensures !state.content.OtherContent? ==> ok
      ensures state.stageIndex > old(state.stageIndex)
      ensures exists picked :: IsResolution(state.stages[old(state.stageIndex)].menus, picked)
                               && old(state.consequences) + Applied(picked) <= state.consequences
    {
      var menus := state.stages[state.stageIndex].menus;
      ghost var picked := ResolveMenus(state, menus);
      ok := NextStage(state);
    }

    /**
     * Moves past the review stage and then past the options stage, each only
     * if it is the current one; keeps the player's name and gives the clan
     * the default name; in story mode marks the talk with the brother, retires
     * him again and completes the tutorial; and runs the campaign setup if
     * the game is now on the map.
     */
    method SkipFinalStages(state: CharacterCreationState)
      returns (ok: bool, setup: Option<Setup>, ghost before: MapSnapshot, ghost picks: StartPicks)
      requires state.Valid()
      modifies this, state, campaign
      decreases |state.stages| - state.stageIndex, 1
      ensures Progressed(state)
      ensures !state.content.OtherContent? ==> ok
      ensures old(state.CurrentStage()) == Some(ReviewStage) || old(state.CurrentStage()) == Some(OptionsStage) ==>
        state.stageIndex > old(state.stageIndex)
      ensures !(old(state.CurrentStage()) == Some(ReviewStage) || old(state.CurrentStage()) == Some(OptionsStage)) ==>
        state.stageIndex == old(state.stageIndex)
      ensures ok ==> campaign.clanName == DefaultPlayerClanName
      ensures ok && !isSandbox ==>
        campaign.talkedWithBrother && campaign.tutorialCompleted && BrotherRetired(campaign.brother)
      ensures setup.Some? ==> ok
      ensures setup.Some? ==> SetUpDone(before, setup.value, picks)
      ensures ok && setup.None? ==> campaign.activeState != MapState
    {
      setup := None;
      before := Snapshot();
      picks := StartPicks(0, 0, []);
      if state.CurrentStage() == Some(ReviewStage) {
        ok := NextStage(state);
        if !ok { return; }
      }
      if state.CurrentStage() == Some(OptionsStage) {
        ok := NextStage(state);
        if !ok { return; }
      }
      ok := true;
      before := Snapshot();
      setup, picks := FinishCreation();
    }

    /**
     * The part of the final skip after the stages: keeps the player's name,
     * gives the clan the default name, in story mode marks the talk with the
     * brother, retires him again and completes the tutorial, and runs the
     * campaign setup if the game is on the map.
     */
    method FinishCreation() returns (setup: Option<Setup>, ghost picks: StartPicks)
      modifies campaign`playerName, campaign`prompts, campaign`clanName, campaign`talkedWithBrother
      modifies campaign`brother, campaign`members, campaign`tutorialCompleted
      modifies campaign`world, campaign`home, campaign`clanHeroes, campaign`gold, campaign`items
      modifies campaign`battleEquipment, campaign`partyPosition, campaign`activeState
      ensures campaign.clanName == DefaultPlayerClanName
      ensures !isSandbox ==> campaign.talkedWithBrother && campaign.tutorialCompleted && BrotherRetired(campaign.brother)
      ensures BrotherRetired(old(campaign.brother)) ==> BrotherRetired(campaign.brother)
      ensures setup.Some? <==> old(campaign.activeState) == MapState
      ensures setup.Some? ==> SetUpDone(old(Snapshot()), setup.value, picks)
      ensures setup.None? ==> campaign.activeState == old(campaign.activeState)
    {
      ghost var before := Snapshot();
      WrapUpCreation();
      assert Snapshot() == before;
      setup, picks := SetUpOnMap();
    }

    /** The names and, in story mode, the tutorial's end, before the setup; the map and the party are left alone. */
    method WrapUpCreation()
      modifies campaign`playerName, campaign`prompts, campaign`clanName, campaign`talkedWithBrother
      modifies campaign`brother, campaign`members, campaign`tutorialCompleted
      ensures campaign.playerName == old(campaign.playerName) && campaign.prompts == old(campaign.prompts)
      ensures campaign.members == old(campaign.members)
      ensures campaign.clanName == DefaultPlayerClanName
      ensures !isSandbox ==> campaign.talkedWithBrother && campaign.tutorialCompleted && BrotherRetired(campaign.brother)
      ensures isSandbox ==> campaign.brother == old(campaign.brother)
      ensures BrotherRetired(old(campaign.brother)) ==> BrotherRetired(campaign.brother)
    {
      ChangePlayerName(None);
      ChangeClanName(None);
      if !isSandbox {
        campaign.talkedWithBrother := true;
        DisableElderBrother(false);
        campaign.tutorialCompleted := true;
      }
    }

    /** Runs the campaign setup when the game is on the map, and nothing otherwise. */
    method SetUpOnMap() returns (setup: Option<Setup>, ghost picks: StartPicks)
      modifies campaign`world, campaign`home, campaign`clanHeroes, campaign`gold, campaign`items, campaign`members
      modifies campaign`battleEquipment, campaign`partyPosition, campaign`prompts, campaign`activeState
      ensures setup.Some? <==> old(campaign.activeState) == MapState
      ensures setup.Some? ==> SetUpDone(old(Snapshot()), setup.value, picks)
      ensures setup.None? ==> unchanged(campaign)
    {
      setup := None;
      picks := StartPicks(0, 0, []);
      if campaign.activeState == MapState {
        var s;
        s, picks := FinishSetup();
        setup := Some(s);
      }
    }

    /** Removes the elder brother from the party (on the first call only), disables him and hands him to the neutral faction; nothing without a brother. */
    method DisableElderBrother(isFirst: bool)
      modifies campaign`brother, campaign`members
      ensures BrotherRetired(campaign.brother)
      ensures old(campaign.brother).None? ==> unchanged(campaign)
      ensures old(campaign.brother).Some? ==>
        && campaign.brother == Some(old(campaign.brother).value.(disabled := true, neutral := true))
        && campaign.members == if isFirst then RemoveOne(old(campaign.members), old(campaign.brother).value.character)
                               else old(campaign.members)
    {
      if campaign.brother.None? {
        return;
      }
      var b := campaign.brother.value;
      if isFirst {
        campaign.members := RemoveOne(campaign.members, b.character);
      }
      campaign.brother := Some(b.(disabled := true, neutral := true));
    }

    // -------------------------------------------------------------------
    // The campaign setup

    /**
     * Chooses the kingdom, seizes fiefs for a landowner start, completes a
     * vassal or king start, moves the party to a start town, asks for the
     * player's name (or else the clan's) when configured, and opens the
     * banner editor when configured. Each step reads what the earlier ones
     * left: the start town is chosen on the map as the seizure left it.
     */
    method FinishSetup() returns (setup: Setup, ghost picks: StartPicks)
      requires campaign.activeState == MapState
      modifies campaign`world, campaign`home, campaign`clanHeroes, campaign`gold, campaign`items, campaign`members
      modifies campaign`battleEquipment, campaign`partyPosition, campaign`prompts, campaign`activeState
      ensures SetUpDone(old(Snapshot()), setup, picks)
      ensures setup.startTown.Some? ==> setup.startTown.value.isTown
      ensures (exists s :: s in setup.taken && s.isTown) ==>
        setup.startTown.Some? && setup.startTown.value.owner == campaign.playerClan
    {
      ghost var before := Snapshot();
      var kingdom, fiefOwner, taken;
      kingdom, fiefOwner, taken, picks := SeizeStart();
      ghost var held := HoldingsNow();
      SeizedTownOwned(before, held, kingdom, fiefOwner, taken, picks);
      assert campaign.partyPosition == before.partyPosition && campaign.prompts == before.prompts;
      var startTown := MoveToStartTown(kingdom);
      assert HoldingsNow() == held;
      setup := Setup(kingdom, fiefOwner, taken, startTown);
    }

    /** The part of the campaign the setup reads and writes, taken before it runs. */
    function Snapshot(): MapSnapshot
      reads campaign`world, campaign`gold, campaign`items, campaign`members, campaign`battleEquipment
      reads campaign`home, campaign`clanHeroes, campaign`partyPosition, campaign`prompts
    {
      MapSnapshot(campaign.world, campaign.gold, campaign.items, campaign.members, campaign.battleEquipment,
                  campaign.home, campaign.clanHeroes, campaign.partyPosition, campaign.prompts)
    }

    /**
     * The state the campaign setup leaves, against the state `before` it
     * started from: the seizure and kingdom start as `SeizedFrom` states,
     * then the start town, a choice the random pick can lead to on the map
     * as the seizure left it, with the party standing there, the configured
     * name question asked and the banner editor opened when configured.
     */
    ghost predicate SetUpDone(before: MapSnapshot, setup: Setup, picks: StartPicks)
      reads config, campaign`world, campaign`gold, campaign`items, campaign`members, campaign`battleEquipment
      reads campaign`home, campaign`clanHeroes, campaign`partyPosition, campaign`prompts, campaign`activeState
    {
      && SeizedFrom(before, HoldingsNow(), setup.kingdom, setup.fiefOwner, setup.taken, picks)
      && MovedToStart(before.partyPosition, before.prompts, setup.kingdom, setup.startTown)
    }

    /**
     * The second half of the setup against the party position and questions
     * before it: the start town is a choice the random pick can lead to on
     * the current map, the party stands there (or stays without a town), the
     * configured name question is asked and the banner editor opened when
     * configured.
     */
    ghost predicate MovedToStart(position: Option<Id>, prompts: seq<Prompt>, kingdom: Option<Kingdom>, startTown: Option<Settlement>)
      reads config, campaign`world, campaign`partyPosition, campaign`prompts, campaign`activeState
    {
      && IsStartTownChoice(campaign.world, campaign.playerClan, kingdom, campaign.heroCulture, startTown)
      && campaign.partyPosition == (if startTown.Some? then Some(startTown.value.id) else position)
      && campaign.prompts == prompts +
           (if config.promptForPlayerName then [PlayerNamePrompt]
            else if config.promptForClanName then [ClanNamePrompt] else [])
      && campaign.activeState == (if config.openBannerEditor then BannerEditorState else MapState)
    }

    /**
     * The first half of the setup, from the state `before` it started from
     * to the holdings `after` it: the kingdom and the clan taken from are
     * choices the random picks can lead to (the clan only for a landowner
     * start); the fiefs taken are that clan's towns and castles; the map is
     * the seized one after the kingdom start; gold and items are the start's
     * grant; the first town taken (else castle) is the clan's home and every
     * clan hero's birthplace.
     */
    ghost predicate SeizedFrom(before: MapSnapshot, after: Holdings, kingdom: Option<Kingdom>, fiefOwner: Option<Id>,
                               taken: seq<Settlement>, picks: StartPicks)
      reads config
    {
      && IsKingdomChoice(before.world, config.kingdomId, campaign.heroCulture, kingdom)
      && (if config.landownerStart
          then IsFiefOwnerChoice(before.world, kingdom, config.vassalStart, config.kingStart, fiefOwner)
          else fiefOwner.None?)
      && taken == (if fiefOwner.Some? then FiefsOf(before.world.settlements, fiefOwner.value) else [])
      && after.world == StartWorld(before.world, campaign.playerClan, fiefOwner, kingdom, config.vassalStart, config.kingStart)
      && after.gold == StartGold(before.gold, kingdom, config.vassalStart, config.kingStart)
      && after.items == StartItems(before.items, campaign.muleExists, kingdom, config.vassalStart, config.kingStart)
      && after.members == StartMembers(before.members, before.world.troops, campaign.partyCulture, kingdom,
                                       config.vassalStart, config.kingStart, picks)
      && after.battleEquipment == StartEquipment(before.battleEquipment, before.world.troops, campaign.heroCulture,
                                                 campaign.heroIsFemale, kingdom, config.vassalStart, config.kingStart, picks)
      && (HomeOf(taken).None? ==> after.home == before.home && after.clanHeroes == before.clanHeroes)
      && (HomeOf(taken).Some? ==>
            after.home == Some(HomeOf(taken).value.id) && after.clanHeroes == Rehomed(before.clanHeroes, after.home))
    }

    /** After the seizure, a town taken leaves the player clan owning a town on the map. */
    lemma SeizedTownOwned(before: MapSnapshot, after: Holdings, kingdom: Option<Kingdom>, fiefOwner: Option<Id>,
                          taken: seq<Settlement>, picks: StartPicks)
      requires SeizedFrom(before, after, kingdom, fiefOwner, taken, picks)
      ensures (exists s :: s in taken && s.isTown) ==>
        exists s :: s in after.world.settlements && s.isTown && s.owner == campaign.playerClan
    {
      if s :| s in taken && s.isTown {
        TakenTownOwned(before.world, campaign.playerClan, fiefOwner.value, kingdom, config.vassalStart, config.kingStart, s);
      }
    }

    /** The map, purse, items, roster, equipment, home and clan heroes as they are now. */
    function HoldingsNow(): Holdings
      reads campaign`world, campaign`gold, campaign`items, campaign`members, campaign`battleEquipment
      reads campaign`home, campaign`clanHeroes
    {
      Holdings(campaign.world, campaign.gold, campaign.items, campaign.members, campaign.battleEquipment,
               campaign.home, campaign.clanHeroes)
    }

    /** The end of the setup: the configured name question, then the banner editor when configured. */
    method AskForNames()
      requires campaign.activeState == MapState
      modifies campaign`prompts, campaign`activeState
      ensures campaign.prompts == old(campaign.prompts) +
        (if config.promptForPlayerName then [PlayerNamePrompt]
         else if config.promptForClanName then [ClanNamePrompt] else [])
      ensures campaign.activeState == if config.openBannerEditor then BannerEditorState else MapState
    {
      if config.promptForPlayerName {
        PromptForPlayerName();
      } else if config.promptForClanName {
        PromptForClanName();
      }
      if config.openBannerEditor {
        OpenBannerEditor();
      }
    }

    /**
     * The first half of the setup: chooses the kingdom, seizes fiefs for a
     * landowner start and completes a vassal or king start. Every fief taken
     * is left on the map as the player clan's.
     */
    method SeizeStart() returns (kingdom: Option<Kingdom>, fiefOwner: Option<Id>, taken: seq<Settlement>, ghost picks: StartPicks)
      modifies campaign`world, campaign`home, campaign`clanHeroes, campaign`gold, campaign`items, campaign`members
      modifies campaign`battleEquipment
      ensures SeizedFrom(old(Snapshot()), HoldingsNow(), kingdom, fiefOwner, taken, picks)
    {
      kingdom, fiefOwner := ChooseSeizure();
      taken := TakeFiefsFromClan(fiefOwner);
      picks := FinishKingdomSetup(kingdom);
    }

    /** The kingdom, then (for a landowner start only) the clan to take the fiefs from, both chosen on the current map. */
    method ChooseSeizure() returns (kingdom: Option<Kingdom>, fiefOwner: Option<Id>)
      ensures IsKingdomChoice(campaign.world, config.kingdomId, campaign.heroCulture, kingdom)
      ensures !config.landownerStart ==> fiefOwner.None?
      ensures config.landownerStart ==>
        IsFiefOwnerChoice(campaign.world, kingdom, config.vassalStart, config.kingStart, fiefOwner)
    {
      var k1: nat :| true;
      kingdom := ChooseKingdom(campaign.world, config.kingdomId, campaign.heroCulture, k1);
      fiefOwner := None;
      if config.landownerStart {
        var k2: nat :| true;
        fiefOwner := ChooseClanToTakeFiefsFrom(campaign.world, kingdom, config.vassalStart, config.kingStart, k2);
      }
    }

    /**
     * The second half of the setup: chooses the start town on the map as the
     * first half left it, moves the party there, then asks for the names
     * and opens the banner editor as configured. A town of the player clan
     * is always the one chosen when there is one.
     */
    method MoveToStartTown(kingdom: Option<Kingdom>) returns (startTown: Option<Settlement>)
      requires campaign.activeState == MapState
      modifies campaign`partyPosition, campaign`prompts, campaign`activeState
      ensures MovedToStart(old(campaign.partyPosition), old(campaign.prompts), kingdom, startTown)
      ensures startTown.Some? ==> startTown.value.isTown
      ensures (exists s :: s in campaign.world.settlements && s.isTown && s.owner == campaign.playerClan) ==>
        startTown.Some? && startTown.value.owner == campaign.playerClan
    {
      var k: nat :| true;
      startTown := ChooseStartTown(campaign.world, campaign.playerClan, kingdom, campaign.heroCulture, k);
      if s :| s in campaign.world.settlements && s.isTown && s.owner == campaign.playerClan {
        StartTownPrefersOwnTown(campaign.world, campaign.playerClan, kingdom, campaign.heroCulture, k, s);
      }
      TeleportPlayerToSettlement(startTown);
      assert startTown == ChooseStartTown(campaign.world, campaign.playerClan, kingdom, campaign.heroCulture, k);
      AskForNames();
    }

    /**
     * Hands every town and castle of `owner` to the player clan, in the
     * host's order, and returns them; makes the first town taken (else the
     * first castle) the clan's home and every clan hero's birthplace.
     */
    method TakeFiefsFromClan(owner: Option<Id>) returns (taken: seq<Settlement>)
      modifies campaign`world, campaign`home, campaign`clanHeroes
      ensures taken == if owner.Some? then FiefsOf(old(campaign.world.settlements), owner.value) else []
      ensures campaign.world == old(campaign.world).(settlements := SeizedAll(old(campaign.world.settlements), owner, campaign.playerClan))
      ensures HomeOf(taken).None? ==> campaign.home == old(campaign.home) && campaign.clanHeroes == old(campaign.clanHeroes)
      ensures HomeOf(taken).Some? ==>
        campaign.home == Some(HomeOf(taken).value.id) && campaign.clanHeroes == Rehomed(old(campaign.clanHeroes), campaign.home)
    {
      if owner.Some? {
        taken := SeizeFiefs(owner.value);
      } else {
        taken := [];
        SeizedNothing(campaign.world.settlements, campaign.playerClan);
      }
      var home := HomeOf(taken);
      if home.Some? {
        SettleHome(home.value);
      }
    }

    /** The loop of `TakeFiefsFromClan`: hands each town and castle of `from` to the player clan, in the host's order, and returns them. */
    method SeizeFiefs(from: Id) returns (taken: seq<Settlement>)
      modifies campaign`world
      ensures taken == FiefsOf(old(campaign.world.settlements), from)
      ensures campaign.world == old(campaign.world).(settlements := SeizedAll(old(campaign.world.settlements), Some(from), campaign.playerClan))
    {
      taken := [];
      var w := campaign.world;
      var ss := w.settlements;
      var player := campaign.playerClan;
      var settlements := ss;
      for j := 0 to |ss|
        invariant settlements == SeizedAll(ss[..j], Some(from), player) + ss[j..]
        invariant taken == FiefsOf(ss[..j], from)
      {
        SeizeStep(ss, j, from, player);
        if ss[j].owner == from && ss[j].IsFief() {
          settlements := settlements[j := ss[j].(owner := player)];
          taken := taken + [ss[j]];
        }
      }
      assert ss[..|ss|] == ss;
      campaign.world := w.(settlements := settlements);
    }

    /** Makes `home` the player clan's home and every clan hero's birthplace, in the heroes' order. */
    method SettleHome(home: Settlement)
      modifies campaign`home, campaign`clanHeroes
      ensures campaign.home == Some(home.id)
      ensures campaign.clanHeroes == Rehomed(old(campaign.clanHeroes), campaign.home)
    {
      var born := Some(home.id);
      var heroes := campaign.clanHeroes;
      var rehomed := heroes;
      for i := 0 to |heroes|
        invariant rehomed == Rehomed(heroes[..i], born) + heroes[i..]
      {
        assert heroes[..i + 1][..i] == heroes[..i];
        ReplaceNext(Rehomed(heroes[..i], born), heroes[i..], heroes[i].(bornSettlement := born));
        assert heroes[i..][1..] == heroes[i + 1..];
        rehomed := rehomed[i := rehomed[i].(bornSettlement := born)];
      }
      assert heroes[..|heroes|] == heroes;
      campaign.home := born;
      campaign.clanHeroes := rehomed;
    }

    /**
     * Completes a vassal or a king start, and does nothing without a kingdom
     * or when neither start is configured. All gold and items are taken
     * away first; the vassal start wins when both are configured.
     */
    method FinishKingdomSetup(kingdom: Option<Kingdom>) returns (ghost picks: StartPicks)
      modifies campaign`gold, campaign`items, campaign`members, campaign`battleEquipment, campaign`world
      ensures kingdom.None? || !(config.vassalStart || config.kingStart) ==> unchanged(campaign)
      ensures campaign.world == KingdomStartWorld(old(campaign.world), campaign.playerClan, kingdom, config.vassalStart, config.kingStart)
      ensures campaign.gold == StartGold(old(campaign.gold), kingdom, config.vassalStart, config.kingStart)
      ensures campaign.items == StartItems(old(campaign.items), campaign.muleExists, kingdom, config.vassalStart, config.kingStart)
      ensures campaign.members == StartMembers(old(campaign.members), old(campaign.world.troops), campaign.partyCulture, kingdom,
                                               config.vassalStart, config.kingStart, picks)
      ensures campaign.battleEquipment == StartEquipment(old(campaign.battleEquipment), old(campaign.world.troops), campaign.heroCulture,
                                                         campaign.heroIsFemale, kingdom, config.vassalStart, config.kingStart, picks)
    {
      picks := StartPicks(0, 0, []);
      if kingdom.None? || !(config.vassalStart || config.kingStart) {
        return;
      }
      campaign.gold := 0;
      campaign.items := map[];
      if config.vassalStart {
        picks := CompleteVassalStart(kingdom.value);
      } else if config.kingStart {
        picks := CompleteKingStart(kingdom.value);
      }
    }

    /**
     * The vassal start on an emptied purse and roster: 10,000 gold, 5 grain,
     * 1 mule, tier 3-4 cavalry equipment and 12/7/5 troops of tiers 1-3;
     * then the player clan joins the kingdom.
     */
    method CompleteVassalStart(kingdom: Kingdom) returns (ghost picks: StartPicks)
      requires campaign.gold == 0 && campaign.items == map[]
      modifies campaign`gold, campaign`items, campaign`members, campaign`battleEquipment, campaign`world
      ensures campaign.gold == VassalGold
      ensures campaign.items == Provisions(5, 1, campaign.muleExists)
      ensures campaign.battleEquipment == Refit(old(campaign.battleEquipment),
        CavalryEquipment(old(campaign.world.troops), campaign.heroCulture, campaign.heroIsFemale, 3, 4, picks.template, picks.equipment))
      ensures campaign.members == Recruited(old(campaign.members), old(campaign.world.troops), campaign.partyCulture, VassalTroops, picks.troops)
      ensures campaign.world == JoinKingdom(old(campaign.world), campaign.playerClan, kingdom.id)
      ensures forall c :: c in campaign.world.clans && c.id == campaign.playerClan ==> c.kingdom == Some(kingdom.id)
      ensures (exists c :: c in old(campaign.world.clans) && c.id == campaign.playerClan) ==>
        exists c :: c in campaign.world.clans && c.id == campaign.playerClan && c.kingdom == Some(kingdom.id)
      ensures campaign.world.kingdoms == old(campaign.world.kingdoms)
      ensures campaign.world.settlements == old(campaign.world.settlements)
      ensures campaign.world.troops == old(campaign.world.troops)
    {
      campaign.gold := campaign.gold + VassalGold;
      campaign.items := AddCount(campaign.items, GrainItem, 5);
      if campaign.muleExists {
        campaign.items := AddCount(campaign.items, MuleItem, 1);
      }
      assert campaign.items == Provisions(5, 1, campaign.muleExists);
      ghost var template, equipment := EquipHeroFromCavalryTroop(3, 4);
      ghost var troops := RecruitVassalTroops();
      picks := StartPicks(template, equipment, troops);
      ghost var before := campaign.world;
      campaign.world := JoinKingdom(campaign.world, campaign.playerClan, kingdom.id);
      JoinedKingdom(campaign.world, before, campaign.playerClan, kingdom.id);
    }

    /**
     * The king start on an emptied purse and roster: 30,000 gold, 20 grain,
     * 4 mules, tier 5-7 cavalry equipment and 20/8/8/6/4/3 troops of tiers
     * 1-6; then the player clan joins the kingdom and becomes its ruling clan.
     */
    method CompleteKingStart(kingdom: Kingdom) returns (ghost picks: StartPicks)
      requires campaign.gold == 0 && campaign.items == map[]
      modifies campaign`gold, campaign`items, campaign`members, campaign`battleEquipment, campaign`world
      ensures campaign.gold == KingGold
      ensures campaign.items == Provisions(20, 4, campaign.muleExists)
      ensures campaign.battleEquipment == Refit(old(campaign.battleEquipment),
        CavalryEquipment(old(campaign.world.troops), campaign.heroCulture, campaign.heroIsFemale, 5, 7, picks.template, picks.equipment))
      ensures campaign.members == Recruited(old(campaign.members), old(campaign.world.troops), campaign.partyCulture, KingTroops, picks.troops)
      ensures campaign.world == SetRulingClan(JoinKingdom(old(campaign.world), campaign.playerClan, kingdom.id), kingdom.id, campaign.playerClan)
      ensures forall c :: c in campaign.world.clans && c.id == campaign.playerClan ==> c.kingdom == Some(kingdom.id)
      ensures (exists c :: c in old(campaign.world.clans) && c.id == campaign.playerClan) ==>
        exists c :: c in campaign.world.clans && c.id == campaign.playerClan && c.kingdom == Some(kingdom.id)
      ensures forall kd :: kd in campaign.world.kingdoms && kd.id == kingdom.id ==> kd.rulingClan == campaign.playerClan
      ensures campaign.world.settlements == old(campaign.world.settlements)
      ensures campaign.world.troops == old(campaign.world.troops)
    {
      campaign.gold := campaign.gold + KingGold;
      campaign.items := AddCount(campaign.items, GrainItem, 20);
      if campaign.muleExists {
        campaign.items := AddCount(campaign.items, MuleItem, 4);
      }
      assert campaign.items == Provisions(20, 4, campaign.muleExists);
      ghost var template, equipment := EquipHeroFromCavalryTroop(5, 7);
      ghost var troops := RecruitKingTroops();
      picks := StartPicks(template, equipment, troops);
      ghost var before := campaign.world;
      campaign.world := JoinKingdom(campaign.world, campaign.playerClan, kingdom.id);
      JoinedKingdom(campaign.world, before, campaign.playerClan, kingdom.id);
      ghost var joined := campaign.world;
      campaign.world := SetRulingClan(campaign.world, kingdom.id, campaign.playerClan);
      NowRuling(campaign.world, joined, kingdom.id, campaign.playerClan);
    }

    /** The vassal start's troops: 12 of tier 1, 7 of tier 2 and 5 of tier 3, each as `AddTroopsToParty` chooses. */
    method RecruitVassalTroops() returns (ghost picks: seq<nat>)
      modifies campaign`members
      ensures campaign.members == Recruited(old(campaign.members), campaign.world.troops, campaign.partyCulture, VassalTroops, picks)
    {
      ghost var k1 := AddTroopsToParty(1, 12);
      ghost var k2 := AddTroopsToParty(2, 7);
      ghost var k3 := AddTroopsToParty(3, 5);
      picks := [k1, k2, k3];
      VassalRoster(old(campaign.members), campaign.world.troops, campaign.partyCulture, picks);
    }

    /** The king start's troops: 20, 8, 8, 6, 4 and 3 of tiers 1 to 6, each as `AddTroopsToParty` chooses. */
    method RecruitKingTroops() returns (ghost picks: seq<nat>)
      modifies campaign`members
      ensures campaign.members == Recruited(old(campaign.members), campaign.world.troops, campaign.partyCulture, KingTroops, picks)
    {
      ghost var k1 := AddTroopsToParty(1, 20);
      ghost var k2 := AddTroopsToParty(2, 8);
      ghost var k3 := AddTroopsToParty(3, 8);
      ghost var k4 := AddTroopsToParty(4, 6);
      ghost var k5 := AddTroopsToParty(5, 4);
      ghost var k6 := AddTroopsToParty(6, 3);
      picks := [k1, k2, k3, k4, k5, k6];
      KingRoster(old(campaign.members), campaign.world.troops, campaign.partyCulture, picks);
    }

    /**
     * Copies the battle equipment of a soldier within [minTier, maxTier]
     * (maxTier 0 meaning minTier), preferring mounted soldiers of the hero's
     * culture and gender; keeps the old equipment when there is none.
     */
    method EquipHeroFromCavalryTroop(minTier: int, maxTier: int) returns (ghost k1: nat, ghost k2: nat)
      modifies campaign`battleEquipment
      ensures campaign.battleEquipment == Refit(old(campaign.battleEquipment),
        CavalryEquipment(campaign.world.troops, campaign.heroCulture, campaign.heroIsFemale, minTier, maxTier, k1, k2))
    {
      var pick1: nat :| true;
      var pick2: nat :| true;
      k1, k2 := pick1, pick2;
      var equipment := CavalryEquipment(campaign.world.troops, campaign.heroCulture, campaign.heroIsFemale, minTier, maxTier, pick1, pick2);
      if equipment.Some? {
        campaign.battleEquipment := equipment;
      }
    }

    /** Adds `amount` of the troop `TroopToAdd` chooses for `tier` to the main party; nothing when it chooses none. */
    method AddTroopsToParty(tier: int, amount: int) returns (ghost k: nat)
      modifies campaign`members
      ensures campaign.members == Recruit(old(campaign.members), TroopToAdd(campaign.world.troops, tier, campaign.partyCulture, k), amount)
    {
      var pick: nat :| true;
      k := pick;
      var troop := TroopToAdd(campaign.world.troops, tier, campaign.partyCulture, pick);
      if troop.Some? {
        campaign.members := AddCount(campaign.members, troop.value, amount);
      }
    }

    /** Moves the main party to the settlement's gate; nothing without a settlement. */
    method TeleportPlayerToSettlement(settlement: Option<Settlement>)
      modifies campaign`partyPosition
      ensures campaign.partyPosition == if settlement.Some? then Some(settlement.value.id) else old(campaign.partyPosition)
    {
      if settlement.None? {
        return;
      }
      campaign.partyPosition := Some(settlement.value.id);
    }

    /** Asks for the player's name; the answer comes back through `ChangePlayerName`. */
    method PromptForPlayerName()
      modifies campaign`prompts
      ensures campaign.prompts == old(campaign.prompts) + [PlayerNamePrompt]
    {
      campaign.prompts := campaign.prompts + [PlayerNamePrompt];
    }

    /** Asks for the clan's name; the answer comes back through `ChangeClanName`. */
    method PromptForClanName()
      modifies campaign`prompts
      ensures campaign.prompts == old(campaign.prompts) + [ClanNamePrompt]
    {
      campaign.prompts := campaign.prompts + [ClanNamePrompt];
    }

    /**
     * Names the player: the name given, or else the current one. A name
     * given by the player is followed by the clan-name question when that is
     * configured; no name (the call from the final skip) asks nothing.
     */
    method ChangePlayerName(name: Option<string>)
      modifies campaign`playerName, campaign`prompts
      ensures campaign.playerName == if name.Some? then name.value else old(campaign.playerName)
      ensures campaign.prompts == old(campaign.prompts) +
        (if name.Some? && config.promptForClanName then [ClanNamePrompt] else [])
    {
      campaign.playerName := name.GetOr(campaign.playerName);
      if name.Some? && config.promptForClanName {
        PromptForClanName();
      }
    }

    /** Names the clan: the name given, or else the default clan name. */
    method ChangeClanName(name: Option<string>)
      modifies campaign`clanName
      ensures campaign.clanName == if name.Some? then name.value else DefaultPlayerClanName
    {
      campaign.clanName := name.GetOr(DefaultPlayerClanName);
    }

    /** Pushes the banner editor over the map. */
    method OpenBannerEditor()
      modifies campaign`activeState
      ensures campaign.activeState == BannerEditorState
    {
      campaign.activeState := BannerEditorState;
    }
  }

  /** After joining, the clan (every clan with that id) is a member of the kingdom and nothing else changed but clan membership. */
  lemma JoinedKingdom(after: World, before: World, clan: Id, kingdom: Id)
    requires after == JoinKingdom(before, clan, kingdom)
    ensures forall c :: c in after.clans && c.id == clan ==> c.kingdom == Some(kingdom)
    ensures (exists c :: c in before.clans && c.id == clan) ==> exists c :: c in after.clans && c.id == clan && c.kingdom == Some(kingdom)
    ensures after.kingdoms == before.kingdoms && after.settlements == before.settlements && after.troops == before.troops
  {
    forall c | c in after.clans && c.id == clan ensures c.kingdom == Some(kingdom) {
      var i :| 0 <= i < |after.clans| && after.clans[i] == c;
      assert c == before.clans[i].(kingdom := Some(kingdom));
    }
    if c :| c in before.clans && c.id == clan {
      var i :| 0 <= i < |before.clans| && before.clans[i] == c;
      assert after.clans[i] in after.clans;
    }
  }

  /** After the ruling clan is set, every kingdom with that id is ruled by the clan, and nothing but rulers changed. */
  lemma NowRuling(after: World, before: World, kingdom: Id, clan: Id)
    requires after == SetRulingClan(before, kingdom, clan)
    ensures forall kd :: kd in after.kingdoms && kd.id == kingdom ==> kd.rulingClan == clan
    ensures after.clans == before.clans && after.settlements == before.settlements && after.troops == before.troops
  {
    forall kd | kd in after.kingdoms && kd.id == kingdom ensures kd.rulingClan == clan {
      var i :| 0 <= i < |after.kingdoms| && after.kingdoms[i] == kd;
      assert kd == before.kingdoms[i].(rulingClan := clan);
    }
  }
}
