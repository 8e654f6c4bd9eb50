/**
 * The selectors of the campaign setup (src/SubModule.cs): each tries a
 * chain of progressively looser filters over one of the host's lists and
 * takes a random element of the first filter that keeps anything. The
 * random choice is the oracle `k` of `Choice.Pick`.
 */
module Selection {
  import opened Wrappers
  import opened Choice
  import opened Host

  // ---------------------------------------------------------------------
  // Text

  /** `char.IsWhiteSpace`: the Unicode space separators, line and paragraph separators, and U+0009-U+000D, U+0085. */
  predicate IsWhiteSpace(c: char) {
    || c == ' ' || ('\t' <= c <= '\r') || c == '\U{0085}' || c == '\U{00A0}' || c == '\U{1680}'
    || ('\U{2000}' <= c <= '\U{200A}') || c == '\U{2028}' || c == '\U{2029}' || c == '\U{202F}'
    || c == '\U{205F}' || c == '\U{3000}'
  }

  /** `string.IsNullOrWhiteSpace` on a non-null string: empty or nothing but white space. */
  predicate IsNullOrWhiteSpace(s: string) {
    forall i :: 0 <= i < |s| ==> IsWhiteSpace(s[i])
  }

  // ---------------------------------------------------------------------
  // ChooseKingdom

  /** A kingdom the player may be placed in: it has at least one clan and is not eliminated. */
  predicate Eligible(w: World, kd: Kingdom) {
    |ClansOf(w, kd.id)| > 0 && !kd.eliminated
  }

  /** The four levels of the kingdom chain, each a filter of the eligible kingdoms. */
  function KingdomLevels(w: World, culture: Culture): (r: seq<seq<Kingdom>>)
    ensures |r| == 4
  {
    var eligible := Filter(w.kingdoms, (kd: Kingdom) => Eligible(w, kd));
    [Filter(eligible, (kd: Kingdom) => kd.culture == culture && KingdomHasTown(w, kd.id)),
     Filter(eligible, (kd: Kingdom) => kd.culture == culture && KingdomHasFief(w, kd.id)),
     Filter(eligible, (kd: Kingdom) => kd.culture == culture),
     eligible]
  }

  /**
   * Each level holds exactly the eligible kingdoms that meet its condition:
   * the hero's culture and a town, the culture and a fief, the culture, and
   * none for the last.
   */
  lemma KingdomLevelsBounds(w: World, culture: Culture)
    ensures var r := KingdomLevels(w, culture);
      && (forall j, kd :: 0 <= j < 4 && kd in r[j] ==> kd in w.kingdoms && Eligible(w, kd))
      && (forall kd :: kd in r[0] <==> kd in w.kingdoms && Eligible(w, kd) && kd.culture == culture && KingdomHasTown(w, kd.id))
      && (forall kd :: kd in r[1] <==> kd in w.kingdoms && Eligible(w, kd) && kd.culture == culture && KingdomHasFief(w, kd.id))
      && (forall kd :: kd in r[2] <==> kd in w.kingdoms && Eligible(w, kd) && kd.culture == culture)
      && (forall kd :: kd in r[3] <==> kd in w.kingdoms && Eligible(w, kd))
  {
    var eligible := Filter(w.kingdoms, (kd: Kingdom) => Eligible(w, kd));
    FilterMembers(w.kingdoms, (kd: Kingdom) => Eligible(w, kd));
    FilterMembers(eligible, (kd: Kingdom) => kd.culture == culture && KingdomHasTown(w, kd.id));
    FilterMembers(eligible, (kd: Kingdom) => kd.culture == culture && KingdomHasFief(w, kd.id));
    FilterMembers(eligible, (kd: Kingdom) => kd.culture == culture);
  }

  /** The random pick over the levels: an eligible kingdom, none exactly when no kingdom is eligible. */
  function KingdomFallback(w: World, culture: Culture, k: nat): (r: Option<Kingdom>)
    ensures r.Some? ==> r.value in w.kingdoms && Eligible(w, r.value)
    ensures r.None? <==> forall kd :: kd in w.kingdoms ==> !Eligible(w, kd)
  {
    var levels := KingdomLevels(w, culture);
    KingdomLevelsBounds(w, culture);
    var r := Fallback(levels, k);
    assert r.Some? ==> r.value in levels[FirstNonEmpty(levels)];
    assert r.None? ==> levels[3] == [];
    r
  }

  /**
   * The kingdom the player starts in. A configured id that names a kingdom
   * wins, eliminated or not; otherwise an eligible kingdom of the hero's
   * culture with a town, else one with a fief, else one of the culture,
   * else any eligible kingdom; none when no kingdom is eligible.
   */
  function ChooseKingdom(w: World, kingdomId: string, culture: Culture, k: nat): (r: Option<Kingdom>)
    ensures !IsNullOrWhiteSpace(kingdomId) && FindKingdom(w.kingdoms, kingdomId).Some? ==>
      r == FindKingdom(w.kingdoms, kingdomId)
    ensures IsNullOrWhiteSpace(kingdomId) || FindKingdom(w.kingdoms, kingdomId).None? ==>
      && (r.Some? ==> r.value in w.kingdoms && Eligible(w, r.value))
      && (r.None? <==> forall kd :: kd in w.kingdoms ==> !Eligible(w, kd))
  {
    if !IsNullOrWhiteSpace(kingdomId) && FindKingdom(w.kingdoms, kingdomId).Some? then
      FindKingdom(w.kingdoms, kingdomId)
    else
      KingdomFallback(w, culture, k)
  }

  /** `r` is a kingdom `ChooseKingdom` can return, for some outcome of the random pick. */
  ghost predicate IsKingdomChoice(w: World, kingdomId: string, culture: Culture, r: Option<Kingdom>) {
    r in KingdomChoices(w, kingdomId, culture)
  }
  /** Every kingdom the random pick can lead to (a set so that callers do not unfold the choice). */
  ghost function KingdomChoices(w: World, kingdomId: string, culture: Culture): iset<Option<Kingdom>> {
    iset k: nat :: ChooseKingdom(w, kingdomId, culture, k)
  }

  /** Without a usable configured id, a kingdom of the hero's culture with a town is chosen whenever one is eligible. */
  lemma ChooseKingdomPrefersCultureAndTown(w: World, kingdomId: string, culture: Culture, k: nat, kd: Kingdom)
    requires IsNullOrWhiteSpace(kingdomId) || FindKingdom(w.kingdoms, kingdomId).None?
    requires kd in w.kingdoms && Eligible(w, kd) && kd.culture == culture && KingdomHasTown(w, kd.id)
    ensures ChooseKingdom(w, kingdomId, culture, k).Some?
    ensures ChooseKingdom(w, kingdomId, culture, k).value.culture == culture
    ensures KingdomHasTown(w, ChooseKingdom(w, kingdomId, culture, k).value.id)
  {
    var levels := KingdomLevels(w, culture);
    KingdomLevelsBounds(w, culture);
    assert kd in levels[0];
    FallbackPrefers(levels, k, 0);
  }

  /** Without a usable configured id, a kingdom of the hero's culture with a fief is chosen whenever one is eligible. */
  lemma ChooseKingdomPrefersCultureAndFief(w: World, kingdomId: string, culture: Culture, k: nat, kd: Kingdom)
    requires IsNullOrWhiteSpace(kingdomId) || FindKingdom(w.kingdoms, kingdomId).None?
    requires kd in w.kingdoms && Eligible(w, kd) && kd.culture == culture && KingdomHasFief(w, kd.id)
    ensures ChooseKingdom(w, kingdomId, culture, k).Some?
    ensures ChooseKingdom(w, kingdomId, culture, k).value.culture == culture
    ensures KingdomHasFief(w, ChooseKingdom(w, kingdomId, culture, k).value.id)
  {
    var levels := KingdomLevels(w, culture);
    KingdomLevelsBounds(w, culture);
    assert kd in levels[1];
    FallbackPrefers(levels, k, 1);
    var r := Fallback(levels, k).value;
    if r in levels[0] {
      KingdomTownIsFief(w, r.id);
    }
  }

  /** Without a usable configured id, a kingdom of the hero's culture is chosen whenever one is eligible. */
  lemma ChooseKingdomPrefersCulture(w: World, kingdomId: string, culture: Culture, k: nat, kd: Kingdom)
    requires IsNullOrWhiteSpace(kingdomId) || FindKingdom(w.kingdoms, kingdomId).None?
    requires kd in w.kingdoms && Eligible(w, kd) && kd.culture == culture
    ensures ChooseKingdom(w, kingdomId, culture, k).Some?
    ensures ChooseKingdom(w, kingdomId, culture, k).value.culture == culture
  {
    var levels := KingdomLevels(w, culture);
    KingdomLevelsBounds(w, culture);
    assert kd in levels[2];
    FallbackPrefers(levels, k, 2);
  }

  lemma KingdomTownIsFief(w: World, kingdom: Id)
    requires KingdomHasTown(w, kingdom)
    ensures KingdomHasFief(w, kingdom)
  {
    var s :| s in w.settlements && s.owner in ClansOf(w, kingdom) && s.isTown;
    assert s.IsFief();
  }

  /** Every eligible kingdom of the first non-empty level can be the one chosen. */
  lemma ChooseKingdomReachesEvery(w: World, kingdomId: string, culture: Culture, kd: Kingdom)
    requires IsNullOrWhiteSpace(kingdomId) || FindKingdom(w.kingdoms, kingdomId).None?
    requires FirstNonEmpty(KingdomLevels(w, culture)) < 4
    requires kd in KingdomLevels(w, culture)[FirstNonEmpty(KingdomLevels(w, culture))]
    ensures exists k: nat :: ChooseKingdom(w, kingdomId, culture, k) == Some(kd)
  {
    var levels := KingdomLevels(w, culture);
    FallbackReachesEvery(levels, kd);
    var k: nat :| Fallback(levels, k) == Some(kd);
    assert ChooseKingdom(w, kingdomId, culture, k) == Some(kd);
  }

  // ---------------------------------------------------------------------
  // ChooseClanToTakeFiefsFrom

  /** Clans that own a town, and clans that own a town or a castle, in the order of `clans`. */
  function WithTown(w: World, clans: seq<Id>): seq<Id> {
    Filter(clans, (c: Id) => HasTown(w, c))
  }

  function WithFief(w: World, clans: seq<Id>): seq<Id> {
    Filter(clans, (c: Id) => HasFief(w, c))
  }

  /** The two filters keep exactly the clans with a town, resp. with a fief. */
  lemma WithMembers(w: World, clans: seq<Id>)
    ensures forall c :: c in WithTown(w, clans) <==> c in clans && HasTown(w, c)
    ensures forall c :: c in WithFief(w, clans) <==> c in clans && HasFief(w, c)
  {
    FilterMembers(clans, (c: Id) => HasTown(w, c));
    FilterMembers(clans, (c: Id) => HasFief(w, c));
  }

  lemma TownIsFief(w: World, c: Id)
    requires HasTown(w, c)
    ensures HasFief(w, c)
  {
    var s :| s in w.settlements && s.owner == c && s.isTown;
    assert s.IsFief();
  }

  /** The two levels used without a kingdom: clans with a town, then clans with a fief, over all clans. */
  function LandlessLevels(w: World): (r: seq<seq<Id>>)
    ensures |r| == 2
  {
    var all := AllClanIds(w);
    [WithTown(w, all), WithFief(w, all)]
  }

  /** The first level holds exactly the clans with a town, the second exactly the clans with a fief. */
  lemma LandlessLevelsBounds(w: World)
    ensures var r := LandlessLevels(w);
      && (forall j, c :: 0 <= j < 2 && c in r[j] ==> HasFief(w, c) && exists cl :: cl in w.clans && cl.id == c)
      && (forall c :: c in r[0] ==> HasTown(w, c))
      && (forall c :: c in w.clans && HasTown(w, c.id) ==> c.id in r[0])
      && (forall c :: c in w.clans && HasFief(w, c.id) ==> c.id in r[1])
  {
    var all := AllClanIds(w);
    WithMembers(w, all);
    forall c | c in all ensures exists cl :: cl in w.clans && cl.id == c {
      var i :| 0 <= i < |all| && all[i] == c;
      assert w.clans[i] in w.clans;
    }
    forall c | c in WithTown(w, all) ensures HasFief(w, c) { TownIsFief(w, c); }
    forall c | c in w.clans ensures c.id in all {
      var i :| 0 <= i < |w.clans| && w.clans[i] == c;
      assert all[i] == c.id;
    }
  }

  /** The four levels of a vassal start: other clans with a town, other clans with a fief, then the same allowing the ruling clan. */
  function VassalLevels(w: World, kd: Kingdom): (r: seq<seq<Id>>)
    ensures |r| == 4
  {
    var clans := ClansOf(w, kd.id);
    var others := Filter(clans, (c: Id) => c != kd.rulingClan);
    [WithTown(w, others), WithFief(w, others), WithTown(w, clans), WithFief(w, clans)]
  }

  /** Every level holds clans of the kingdom with a fief only; the first two never hold the ruling clan. */
  lemma VassalLevelsBounds(w: World, kd: Kingdom)
    ensures var r := VassalLevels(w, kd);
      && (forall j, c :: 0 <= j < 4 && c in r[j] ==> c in ClansOf(w, kd.id) && HasFief(w, c))
      && (forall j, c :: 0 <= j < 2 && c in r[j] ==> c != kd.rulingClan)
      && (forall c :: c in r[0] ==> HasTown(w, c))
      && (forall c :: c in ClansOf(w, kd.id) && c != kd.rulingClan && HasTown(w, c) ==> c in r[0])
      && (forall c :: c in ClansOf(w, kd.id) && c != kd.rulingClan && HasFief(w, c) ==> c in r[1])
      && (forall c :: c in ClansOf(w, kd.id) && HasFief(w, c) ==> c in r[3])
  {
    var clans := ClansOf(w, kd.id);
    var others := Filter(clans, (c: Id) => c != kd.rulingClan);
    FilterMembers(clans, (c: Id) => c != kd.rulingClan);
    WithMembers(w, others);
    WithMembers(w, clans);
    forall c | c in WithTown(w, others) ensures HasFief(w, c) { TownIsFief(w, c); }
    forall c | c in WithTown(w, clans) ensures HasFief(w, c) { TownIsFief(w, c); }
    forall c | c in clans && c != kd.rulingClan && HasFief(w, c) ensures c in WithFief(w, others) {
      assert c in others;
    }
  }

  /** The two levels of a king start once the ruling clan has no fief: clans with a town, then clans with a fief. */
  function KingLevels(w: World, kd: Kingdom): (r: seq<seq<Id>>)
    ensures |r| == 2
  {
    var clans := ClansOf(w, kd.id);
    [WithTown(w, clans), WithFief(w, clans)]
  }

  /** The first level holds exactly the kingdom's clans with a town, the second exactly those with a fief. */
  lemma KingLevelsBounds(w: World, kd: Kingdom)
    ensures var r := KingLevels(w, kd);
      && (forall j, c :: 0 <= j < 2 && c in r[j] ==> c in ClansOf(w, kd.id) && HasFief(w, c))
      && (forall c :: c in r[0] <==> c in ClansOf(w, kd.id) && HasTown(w, c))
      && (forall c :: c in r[1] <==> c in ClansOf(w, kd.id) && HasFief(w, c))
  {
    var clans := ClansOf(w, kd.id);
    WithMembers(w, clans);
    forall c | c in WithTown(w, clans) ensures HasFief(w, c) { TownIsFief(w, c); }
  }

  /**
   * The clan whose towns and castles the player seizes. Without a kingdom:
   * any clan with a town, else any clan with a fief. For a vassal start: a
   * clan of the kingdom other than the ruling clan, with a town, else with
   * a fief, and only then the ruling clan too. For a king start: the ruling
   * clan if it has a fief, else a clan of the kingdom with a town, else with
   * a fief. Otherwise none.
   */
  function ChooseClanToTakeFiefsFrom(w: World, kingdom: Option<Kingdom>, vassalStart: bool, kingStart: bool, k: nat): (r: Option<Id>)
    ensures r.Some? ==> HasFief(w, r.value)
    ensures kingdom.None? ==> (r.None? <==> forall c :: c in w.clans ==> !HasFief(w, c.id))
    ensures kingdom.Some? && !vassalStart && !kingStart ==> r.None?
    ensures kingdom.Some? && vassalStart ==>
      && (r.Some? ==> r.value in ClansOf(w, kingdom.value.id))
      && (r.None? <==> forall c :: c in ClansOf(w, kingdom.value.id) ==> !HasFief(w, c))
      && (r == Some(kingdom.value.rulingClan) ==>
            forall c :: c in ClansOf(w, kingdom.value.id) && c != kingdom.value.rulingClan ==> !HasFief(w, c))
    ensures kingdom.Some? && !vassalStart && kingStart ==>
      && (HasFief(w, kingdom.value.rulingClan) ==> r == Some(kingdom.value.rulingClan))
      && (r.Some? ==> r.value == kingdom.value.rulingClan || r.value in ClansOf(w, kingdom.value.id))
      && (r.None? <==> !HasFief(w, kingdom.value.rulingClan) &&
                       forall c :: c in ClansOf(w, kingdom.value.id) ==> !HasFief(w, c))
  {
    match kingdom
    case None =>
      var levels := LandlessLevels(w);
      LandlessLevelsBounds(w);
      var r := Fallback(levels, k);
      assert r.None? ==> levels[1] == [];
      r
    case Some(kd) =>
      if vassalStart then
        var levels := VassalLevels(w, kd);
        VassalLevelsBounds(w, kd);
        var r := Fallback(levels, k);
        assert r.Some? ==> r.value in levels[FirstNonEmpty(levels)];
        assert r.None? ==> levels[3] == [];
        assert r == Some(kd.rulingClan) ==> FirstNonEmpty(levels) >= 2;
        r
      else if kingStart then
        if HasFief(w, kd.rulingClan) then Some(kd.rulingClan)
        else
          var levels := KingLevels(w, kd);
          KingLevelsBounds(w, kd);
          var r := Fallback(levels, k);
          assert r.Some? ==> r.value in levels[FirstNonEmpty(levels)];
          assert r.None? ==> levels[1] == [];
          r
      else None
  }

  /** `r` is a clan `ChooseClanToTakeFiefsFrom` can return, for some outcome of the random pick. */
  ghost predicate IsFiefOwnerChoice(w: World, kingdom: Option<Kingdom>, vassalStart: bool, kingStart: bool, r: Option<Id>) {
    r in FiefOwnerChoices(w, kingdom, vassalStart, kingStart)
  }
  /** Every clan to take the fiefs from that the random pick can lead to (a set so that callers do not unfold the choice). */
  ghost function FiefOwnerChoices(w: World, kingdom: Option<Kingdom>, vassalStart: bool, kingStart: bool): iset<Option<Id>> {
    iset k: nat :: ChooseClanToTakeFiefsFrom(w, kingdom, vassalStart, kingStart, k)
  }

  /**
   * A landowner start on its own seizes nothing once any kingdom is
   * eligible: the setup always chooses a kingdom, and with a kingdom but
   * neither a vassal nor a king start there is no clan to take from.
   */
  lemma LandownerOnlyTakesNothing(w: World, kingdomId: string, culture: Culture, kingdom: Option<Kingdom>, owner: Option<Id>)
    requires IsKingdomChoice(w, kingdomId, culture, kingdom) && IsFiefOwnerChoice(w, kingdom, false, false, owner)
    requires exists kd :: kd in w.kingdoms && Eligible(w, kd)
    ensures kingdom.Some? && owner.None?
  {
    var k1: nat :| ChooseKingdom(w, kingdomId, culture, k1) == kingdom;
    var k2: nat :| ChooseClanToTakeFiefsFrom(w, kingdom, false, false, k2) == owner;
  }

  /** A vassal start seizes from another clan with a town whenever the kingdom has one. */
  lemma VassalPrefersOtherClanWithTown(w: World, kd: Kingdom, kingStart: bool, k: nat, c: Id)
    requires c in ClansOf(w, kd.id) && c != kd.rulingClan && HasTown(w, c)
    ensures ChooseClanToTakeFiefsFrom(w, Some(kd), true, kingStart, k).Some?
    ensures var r := ChooseClanToTakeFiefsFrom(w, Some(kd), true, kingStart, k).value;
      r != kd.rulingClan && HasTown(w, r)
  {
    var levels := VassalLevels(w, kd);
    VassalLevelsBounds(w, kd);
    assert c in levels[0];
    FallbackPrefers(levels, k, 0);
  }

  /** Without a kingdom, a clan with a town is taken from whenever one has a town. */
  lemma LandlessPrefersClanWithTown(w: World, vassalStart: bool, kingStart: bool, k: nat, c: Clan)
    requires c in w.clans && HasTown(w, c.id)
    ensures ChooseClanToTakeFiefsFrom(w, None, vassalStart, kingStart, k).Some?
    ensures HasTown(w, ChooseClanToTakeFiefsFrom(w, None, vassalStart, kingStart, k).value)
  {
    var levels := LandlessLevels(w);
    LandlessLevelsBounds(w);
    assert c.id in levels[0];
    FallbackPrefers(levels, k, 0);
  }

  /** A king start whose ruling clan has no fief takes from a clan of the kingdom with a town whenever one has a town. */
  lemma KingPrefersClanWithTown(w: World, kd: Kingdom, k: nat, c: Id)
    requires !HasFief(w, kd.rulingClan)
    requires c in ClansOf(w, kd.id) && HasTown(w, c)
    ensures ChooseClanToTakeFiefsFrom(w, Some(kd), false, true, k).Some?
    ensures var r := ChooseClanToTakeFiefsFrom(w, Some(kd), false, true, k).value;
      r in ClansOf(w, kd.id) && HasTown(w, r)
  {
    var levels := KingLevels(w, kd);
    KingLevelsBounds(w, kd);
    assert c in levels[0];
    FallbackPrefers(levels, k, 0);
  }

  // ---------------------------------------------------------------------
  // TakeFiefsFromClan

  /** `clan.Settlements.Where(s => s.IsTown || s.IsCastle)`: the towns and castles of `clan` among `ss`, in the host's order. */
  function FiefsOf(ss: seq<Settlement>, clan: Id): (r: seq<Settlement>)
    ensures forall s :: s in r <==> s in ss && s.owner == clan && s.IsFief()
  {
    if ss == [] then []
    else
      var last := ss[|ss| - 1];
      assert ss == ss[..|ss| - 1] + [last];
      FiefsOf(ss[..|ss| - 1], clan) + (if last.owner == clan && last.IsFief() then [last] else [])
  }

  /**
   * `taken.OrderBy(s => s.IsTown ? 1 : 2).FirstOrDefault()`: the first town
   * taken, else the first settlement taken, none when nothing was taken.
   */
  function HomeOf(taken: seq<Settlement>): (r: Option<Settlement>)
    ensures r.None? <==> taken == []
    ensures r.Some? ==> r.value in taken
    ensures (exists s :: s in taken && s.isTown) ==> r.Some? && r.value.isTown
    ensures (forall s :: s in taken ==> !s.isTown) && taken != [] ==> r == Some(taken[0])
  {
    var towns := Filter(taken, (s: Settlement) => s.isTown);
    FilterMembers(taken, (s: Settlement) => s.isTown);
    if towns != [] then
      assert towns[0] in towns;
      Some(towns[0])
    else
      assert forall s :: s in taken && s.isTown ==> s in towns;
      if taken != [] then Some(taken[0]) else None
  }

  /** The stable sort puts the first town taken first: no town taken earlier is passed over. */
  lemma HomeIsFirstTown(taken: seq<Settlement>, i: nat)
    requires i < |taken| && taken[i].isTown
    requires forall j :: 0 <= j < i ==> !taken[j].isTown
    ensures HomeOf(taken) == Some(taken[i])
  {
    var towns := Filter(taken, (s: Settlement) => s.isTown);
    FilterFirst(taken, (s: Settlement) => s.isTown, i);
  }

  lemma {:induction false} FilterFirst<T(!new)>(s: seq<T>, p: T -> bool, i: nat)
    requires i < |s| && p(s[i])
    requires forall j :: 0 <= j < i ==> !p(s[j])
    ensures Filter(s, p) != [] && Filter(s, p)[0] == s[i]
  {
    if i > 0 {
      FilterFirst(s[1..], p, i - 1);
    }
  }

  // ---------------------------------------------------------------------
  // EquipHeroFromCavalryTroop

  /** `maxTier` left at its default 0 means the single tier `minTier`. */
  function EffectiveMaxTier(minTier: int, maxTier: int): int {
    if maxTier == 0 then minTier else maxTier
  }

  /** Soldiers with a tier in [minTier, maxTier]. */
  predicate InTierRange(t: Troop, minTier: int, maxTier: int) {
    t.occupation == Soldier && minTier <= t.tier <= maxTier
  }

  /**
   * The seven levels of the template chain over the soldiers in the tier
   * range: cavalry of the hero's culture and gender, cavalry of the culture,
   * the culture and gender, the culture, cavalry of the gender, cavalry, any.
   */
  function TemplateLevels(troops: seq<Troop>, culture: Culture, isFemale: bool, minTier: int, maxTier: int): (r: seq<seq<Troop>>)
    ensures |r| == 7
  {
    var soldiers := Filter(troops, (t: Troop) => InTierRange(t, minTier, maxTier));
    [Filter(soldiers, (t: Troop) => IsCavalry(t) && t.culture == culture && t.isFemale == isFemale),
     Filter(soldiers, (t: Troop) => IsCavalry(t) && t.culture == culture),
     Filter(soldiers, (t: Troop) => t.culture == culture && t.isFemale == isFemale),
     Filter(soldiers, (t: Troop) => t.culture == culture),
     Filter(soldiers, (t: Troop) => IsCavalry(t) && t.isFemale == isFemale),
     Filter(soldiers, (t: Troop) => IsCavalry(t)),
     soldiers]
  }

  /** Each level holds exactly the soldiers in range that meet its condition, in the order of the chain. */
  lemma TemplateLevelsBounds(troops: seq<Troop>, culture: Culture, isFemale: bool, minTier: int, maxTier: int)
    ensures var r := TemplateLevels(troops, culture, isFemale, minTier, maxTier);
      && (forall j, t :: 0 <= j < 7 && t in r[j] ==> t in troops && InTierRange(t, minTier, maxTier))
      && (forall t :: t in r[0] <==> t in troops && InTierRange(t, minTier, maxTier)
                                     && IsCavalry(t) && t.culture == culture && t.isFemale == isFemale)
      && (forall t :: t in r[1] <==> t in troops && InTierRange(t, minTier, maxTier) && IsCavalry(t) && t.culture == culture)
      && (forall t :: t in r[2] <==> t in troops && InTierRange(t, minTier, maxTier) && t.culture == culture && t.isFemale == isFemale)
      && (forall t :: t in r[3] <==> t in troops && InTierRange(t, minTier, maxTier) && t.culture == culture)
      && (forall t :: t in r[4] <==> t in troops && InTierRange(t, minTier, maxTier) && IsCavalry(t) && t.isFemale == isFemale)
      && (forall t :: t in r[5] <==> t in troops && InTierRange(t, minTier, maxTier) && IsCavalry(t))
      && (forall t :: t in r[6] <==> t in troops && InTierRange(t, minTier, maxTier))
  {
    var soldiers := Filter(troops, (t: Troop) => InTierRange(t, minTier, maxTier));
    FilterMembers(troops, (t: Troop) => InTierRange(t, minTier, maxTier));
    FilterMembers(soldiers, (t: Troop) => IsCavalry(t) && t.culture == culture && t.isFemale == isFemale);
    FilterMembers(soldiers, (t: Troop) => IsCavalry(t) && t.culture == culture);
    FilterMembers(soldiers, (t: Troop) => t.culture == culture && t.isFemale == isFemale);
    FilterMembers(soldiers, (t: Troop) => t.culture == culture);
    FilterMembers(soldiers, (t: Troop) => IsCavalry(t) && t.isFemale == isFemale);
    FilterMembers(soldiers, (t: Troop) => IsCavalry(t));
    var r := TemplateLevels(troops, culture, isFemale, minTier, maxTier);
    forall j, t | 0 <= j < 7 && t in r[j] ensures t in soldiers {
      if j == 0 {} else if j == 1 {} else if j == 2 {} else if j == 3 {} else if j == 4 {} else if j == 5 {}
    }
  }

  /** The soldier whose equipment the hero copies. */
  function ChooseCavalryTemplate(troops: seq<Troop>, culture: Culture, isFemale: bool, minTier: int, maxTier: int, k: nat): Option<Troop> {
    Fallback(TemplateLevels(troops, culture, isFemale, minTier, EffectiveMaxTier(minTier, maxTier)), k)
  }

  /** Any template is a soldier within the (defaulted) tier range; there is none only when no soldier is in range. */
  lemma CavalryTemplateInRange(troops: seq<Troop>, culture: Culture, isFemale: bool, minTier: int, maxTier: int, k: nat)
    ensures var r := ChooseCavalryTemplate(troops, culture, isFemale, minTier, maxTier, k);
      && (r.Some? ==> r.value in troops && InTierRange(r.value, minTier, EffectiveMaxTier(minTier, maxTier)))
      && (r.None? <==> forall t :: t in troops ==> !InTierRange(t, minTier, EffectiveMaxTier(minTier, maxTier)))
  {
    var levels := TemplateLevels(troops, culture, isFemale, minTier, EffectiveMaxTier(minTier, maxTier));
    TemplateLevelsBounds(troops, culture, isFemale, minTier, EffectiveMaxTier(minTier, maxTier));
    var r := Fallback(levels, k);
    assert r.Some? ==> r.value in levels[FirstNonEmpty(levels)];
    assert r.None? ==> levels[6] == [];
  }

  /** A mounted soldier of the hero's culture and gender is used whenever one is in range. */
  lemma TemplatePrefersMatchingCavalry(troops: seq<Troop>, culture: Culture, isFemale: bool, minTier: int, maxTier: int, k: nat, t: Troop)
    requires t in troops && InTierRange(t, minTier, EffectiveMaxTier(minTier, maxTier))
    requires IsCavalry(t) && t.culture == culture && t.isFemale == isFemale
    ensures ChooseCavalryTemplate(troops, culture, isFemale, minTier, maxTier, k).Some?
    ensures var r := ChooseCavalryTemplate(troops, culture, isFemale, minTier, maxTier, k).value;
      IsCavalry(r) && r.culture == culture && r.isFemale == isFemale
  {
    var hi := EffectiveMaxTier(minTier, maxTier);
    var levels := TemplateLevels(troops, culture, isFemale, minTier, hi);
    TemplateLevelsBounds(troops, culture, isFemale, minTier, hi);
    assert t in levels[0];
    FallbackPrefers(levels, k, 0);
  }

  /** A mounted soldier of the hero's culture is used whenever one is in range. */
  lemma TemplatePrefersCavalryOfCulture(troops: seq<Troop>, culture: Culture, isFemale: bool, minTier: int, maxTier: int, k: nat, t: Troop)
    requires t in troops && InTierRange(t, minTier, EffectiveMaxTier(minTier, maxTier))
    requires IsCavalry(t) && t.culture == culture
    ensures ChooseCavalryTemplate(troops, culture, isFemale, minTier, maxTier, k).Some?
    ensures var r := ChooseCavalryTemplate(troops, culture, isFemale, minTier, maxTier, k).value;
      IsCavalry(r) && r.culture == culture
  {
    var hi := EffectiveMaxTier(minTier, maxTier);
    var levels := TemplateLevels(troops, culture, isFemale, minTier, hi);
    TemplateLevelsBounds(troops, culture, isFemale, minTier, hi);
    assert t in levels[1];
    FallbackPrefers(levels, k, 1);
  }

  /** A soldier of the hero's culture is used whenever one is in range. */
  lemma TemplatePrefersCulture(troops: seq<Troop>, culture: Culture, isFemale: bool, minTier: int, maxTier: int, k: nat, t: Troop)
    requires t in troops && InTierRange(t, minTier, EffectiveMaxTier(minTier, maxTier)) && t.culture == culture
    ensures ChooseCavalryTemplate(troops, culture, isFemale, minTier, maxTier, k).Some?
    ensures ChooseCavalryTemplate(troops, culture, isFemale, minTier, maxTier, k).value.culture == culture
  {
    var hi := EffectiveMaxTier(minTier, maxTier);
    var levels := TemplateLevels(troops, culture, isFemale, minTier, hi);
    TemplateLevelsBounds(troops, culture, isFemale, minTier, hi);
    assert t in levels[3];
    FallbackPrefers(levels, k, 3);
  }

  /** A mounted soldier in range rules out a template that is neither mounted nor of the hero's culture. */
  lemma TemplatePrefersCavalry(troops: seq<Troop>, culture: Culture, isFemale: bool, minTier: int, maxTier: int, k: nat, t: Troop)
    requires t in troops && InTierRange(t, minTier, EffectiveMaxTier(minTier, maxTier)) && IsCavalry(t)
    ensures ChooseCavalryTemplate(troops, culture, isFemale, minTier, maxTier, k).Some?
    ensures var r := ChooseCavalryTemplate(troops, culture, isFemale, minTier, maxTier, k).value;
      IsCavalry(r) || r.culture == culture
  {
    var hi := EffectiveMaxTier(minTier, maxTier);
    var levels := TemplateLevels(troops, culture, isFemale, minTier, hi);
    TemplateLevelsBounds(troops, culture, isFemale, minTier, hi);
    assert t in levels[5];
    FallbackPrefers(levels, k, 5);
  }

  /** The equipment set copied to the hero: one of the template's battle equipments, chosen by `k2`. */
  function CavalryEquipment(troops: seq<Troop>, culture: Culture, isFemale: bool, minTier: int, maxTier: int, k1: nat, k2: nat): Option<Id> {
    match ChooseCavalryTemplate(troops, culture, isFemale, minTier, maxTier, k1)
    case Some(t) => Pick(t.battleEquipments, k2)
    case None => None
  }

  /** Any equipment set found belongs to a soldier within the tier range. */
  lemma CavalryEquipmentInRange(troops: seq<Troop>, culture: Culture, isFemale: bool, minTier: int, maxTier: int, k1: nat, k2: nat)
    ensures var r := CavalryEquipment(troops, culture, isFemale, minTier, maxTier, k1, k2);
      r.Some? ==> exists t :: t in troops && InTierRange(t, minTier, EffectiveMaxTier(minTier, maxTier))
                              && r.value in t.battleEquipments
  {
    var r := CavalryEquipment(troops, culture, isFemale, minTier, maxTier, k1, k2);
    if r.Some? {
      CavalryTemplateInRange(troops, culture, isFemale, minTier, maxTier, k1);
      var t := ChooseCavalryTemplate(troops, culture, isFemale, minTier, maxTier, k1).value;
      assert r.value in t.battleEquipments;
    }
  }

  // ---------------------------------------------------------------------
  // AddTroopsToParty

  /** The two levels for a tier above 1: soldiers of exactly that tier and the party's culture, then of that tier. */
  function TierLevels(troops: seq<Troop>, tier: int, culture: Culture): (r: seq<seq<Troop>>)
    ensures |r| == 2
  {
    var soldiers := Filter(troops, (t: Troop) => t.occupation == Soldier && t.tier == tier);
    [Filter(soldiers, (t: Troop) => t.culture == culture), soldiers]
  }

  /** Both levels hold soldiers of the tier only, the second holds all of them, the first only those of the culture. */
  lemma TierLevelsBounds(troops: seq<Troop>, tier: int, culture: Culture)
    ensures var r := TierLevels(troops, tier, culture);
      && (forall j, t :: 0 <= j < 2 && t in r[j] ==> t in troops && t.occupation == Soldier && t.tier == tier)
      && (forall t :: t in troops && t.occupation == Soldier && t.tier == tier ==> t in r[1])
      && (forall t :: t in r[0] ==> t.culture == culture)
      && (forall t :: t in troops && t.occupation == Soldier && t.tier == tier && t.culture == culture ==> t in r[0])
  {
    var soldiers := Filter(troops, (t: Troop) => t.occupation == Soldier && t.tier == tier);
    FilterMembers(troops, (t: Troop) => t.occupation == Soldier && t.tier == tier);
    FilterMembers(soldiers, (t: Troop) => t.culture == culture);
  }

  /**
   * The troop `amount` of which joins the party: the culture's basic troop
   * for tier 1; otherwise a soldier of exactly that tier, of the party's
   * culture when there is one; none when no soldier has that tier.
   */
  function TroopToAdd(troops: seq<Troop>, tier: int, culture: Culture, k: nat): (r: Option<Id>)
    ensures tier == 1 ==> r == Some(culture.basicTroop)
  {
    if tier == 1 then Some(culture.basicTroop)
    else
      match Fallback(TierLevels(troops, tier, culture), k)
      case Some(t) => Some(t.id)
      case None => None
  }

  /** Above tier 1 the troop added is a soldier of exactly that tier, and none is added only when no soldier has it. */
  lemma TroopToAddHasTier(troops: seq<Troop>, tier: int, culture: Culture, k: nat)
    requires tier != 1
    ensures var r := TroopToAdd(troops, tier, culture, k);
      && (r.Some? ==> exists t :: t in troops && t.id == r.value && t.occupation == Soldier && t.tier == tier)
      && (r.None? <==> forall t :: t in troops ==> !(t.occupation == Soldier && t.tier == tier))
  {
    var levels := TierLevels(troops, tier, culture);
    TierLevelsBounds(troops, tier, culture);
    match Fallback(levels, k)
    case Some(t) =>
      assert t in levels[FirstNonEmpty(levels)];
    case None =>
      assert levels[1] == [];
  }

  /** For a tier above 1 a soldier of the party's culture is added whenever one has that tier. */
  lemma TroopPrefersPartyCulture(troops: seq<Troop>, tier: int, culture: Culture, k: nat, t: Troop)
    requires tier != 1 && t in troops && t.occupation == Soldier && t.tier == tier && t.culture == culture
    ensures TroopToAdd(troops, tier, culture, k).Some?
    ensures exists u :: u in troops && u.id == TroopToAdd(troops, tier, culture, k).value
                        && u.occupation == Soldier && u.tier == tier && u.culture == culture
  {
    var levels := TierLevels(troops, tier, culture);
    TierLevelsBounds(troops, tier, culture);
    assert t in levels[0];
    FallbackPrefers(levels, k, 0);
    var u := Fallback(levels, k).value;
    assert u in levels[0];
  }

  // ---------------------------------------------------------------------
  // ChooseStartTown

  /**
   * The five levels of the start-town chain: the player clan's towns, the
   * kingdom's towns (none without a kingdom), towns of the hero's culture,
   * towns whose owner clan has the hero's culture, any town.
   */
  function TownLevels(w: World, playerClan: Id, kingdom: Option<Kingdom>, culture: Culture): (r: seq<seq<Settlement>>)
    ensures |r| == 5
  {
    var isTown := (s: Settlement) => s.isTown;
    [Filter(ClanSettlements(w, playerClan), isTown),
     match kingdom
       case Some(kd) => Filter(KingdomSettlements(w, kd.id), isTown)
       case None => [],
     Filter(w.settlements, (s: Settlement) => s.isTown && s.culture == culture),
     Filter(w.settlements, (s: Settlement) => s.isTown && OwnerCulture(w, s) == Some(culture)),
     Filter(w.settlements, isTown)]
  }

  /**
   * Each level holds exactly the towns of the map that meet its condition:
   * owned by the player clan, owned by a clan of the kingdom (none without
   * a kingdom), of the hero's culture, owned by a clan of the hero's culture,
   * and none for the last.
   */
  lemma TownLevelsBounds(w: World, playerClan: Id, kingdom: Option<Kingdom>, culture: Culture)
    ensures var r := TownLevels(w, playerClan, kingdom, culture);
      && (forall j, s :: 0 <= j < 5 && s in r[j] ==> s in w.settlements && s.isTown)
      && (forall s :: s in r[0] <==> s in w.settlements && s.isTown && s.owner == playerClan)
      && (forall s :: s in r[1] <==> kingdom.Some? && s in w.settlements && s.isTown && s.owner in ClansOf(w, kingdom.value.id))
      && (forall s :: s in r[2] <==> s in w.settlements && s.isTown && s.culture == culture)
      && (forall s :: s in r[3] <==> s in w.settlements && s.isTown && OwnerCulture(w, s) == Some(culture))
      && (forall s :: s in r[4] <==> s in w.settlements && s.isTown)
  {
    var isTown := (s: Settlement) => s.isTown;
    FilterMembers(w.settlements, (s: Settlement) => s.owner == playerClan);
    FilterMembers(ClanSettlements(w, playerClan), isTown);
    if kingdom.Some? {
      FilterMembers(w.settlements, (s: Settlement) => s.owner in ClansOf(w, kingdom.value.id));
      FilterMembers(KingdomSettlements(w, kingdom.value.id), isTown);
    }
    FilterMembers(w.settlements, (s: Settlement) => s.isTown && s.culture == culture);
    FilterMembers(w.settlements, (s: Settlement) => s.isTown && OwnerCulture(w, s) == Some(culture));
    FilterMembers(w.settlements, isTown);
  }

  /** The town the player starts at: always a town of the map; none only when the map has no town. */
  function ChooseStartTown(w: World, playerClan: Id, kingdom: Option<Kingdom>, culture: Culture, k: nat): (r: Option<Settlement>)
    ensures r.Some? ==> r.value in w.settlements && r.value.isTown
    ensures r.None? <==> forall s :: s in w.settlements ==> !s.isTown
  {
    var levels := TownLevels(w, playerClan, kingdom, culture);
    TownLevelsBounds(w, playerClan, kingdom, culture);
    var r := Fallback(levels, k);
    assert r.Some? ==> r.value in levels[FirstNonEmpty(levels)];
    assert r.None? ==> levels[4] == [];
    r
  }

  /** `r` is a town `ChooseStartTown` can return, for some outcome of the random pick. */
  ghost predicate IsStartTownChoice(w: World, playerClan: Id, kingdom: Option<Kingdom>, culture: Culture, r: Option<Settlement>) {
    r in StartTownChoices(w, playerClan, kingdom, culture)
  }
  /** Every start town the random pick can lead to (a set so that callers do not unfold the choice). */
  ghost function StartTownChoices(w: World, playerClan: Id, kingdom: Option<Kingdom>, culture: Culture): iset<Option<Settlement>> {
    iset k: nat :: ChooseStartTown(w, playerClan, kingdom, culture, k)
  }

  /** A town the player clan owns is always preferred: the start town is then one of the player's own. */
  lemma StartTownPrefersOwnTown(w: World, playerClan: Id, kingdom: Option<Kingdom>, culture: Culture, k: nat, s: Settlement)
    requires s in w.settlements && s.isTown && s.owner == playerClan
    ensures ChooseStartTown(w, playerClan, kingdom, culture, k).Some?
    ensures ChooseStartTown(w, playerClan, kingdom, culture, k).value.owner == playerClan
  {
    var levels := TownLevels(w, playerClan, kingdom, culture);
    TownLevelsBounds(w, playerClan, kingdom, culture);
    assert s in levels[0];
    FallbackPrefers(levels, k, 0);
  }

  /** A town of the kingdom's clans is chosen whenever there is one, unless the player clan owns a town. */
  lemma StartTownPrefersKingdomTown(w: World, playerClan: Id, kingdom: Option<Kingdom>, culture: Culture, k: nat, s: Settlement)
    requires kingdom.Some? && s in w.settlements && s.isTown && s.owner in ClansOf(w, kingdom.value.id)
    ensures ChooseStartTown(w, playerClan, kingdom, culture, k).Some?
    ensures var r := ChooseStartTown(w, playerClan, kingdom, culture, k).value;
      r.owner == playerClan || r.owner in ClansOf(w, kingdom.value.id)
  {
    var levels := TownLevels(w, playerClan, kingdom, culture);
    TownLevelsBounds(w, playerClan, kingdom, culture);
    assert s in levels[1];
    FallbackPrefers(levels, k, 1);
  }

  /** A town of the hero's culture is chosen whenever there is one, unless an earlier level has a town. */
  lemma StartTownPrefersCultureTown(w: World, playerClan: Id, kingdom: Option<Kingdom>, culture: Culture, k: nat, s: Settlement)
    requires s in w.settlements && s.isTown && s.culture == culture
    ensures ChooseStartTown(w, playerClan, kingdom, culture, k).Some?
    ensures var r := ChooseStartTown(w, playerClan, kingdom, culture, k).value;
      r.owner == playerClan || (kingdom.Some? && r.owner in ClansOf(w, kingdom.value.id)) || r.culture == culture
  {
    var levels := TownLevels(w, playerClan, kingdom, culture);
    TownLevelsBounds(w, playerClan, kingdom, culture);
    assert s in levels[2];
    FallbackPrefers(levels, k, 2);
  }

  /** A town whose owner clan has the hero's culture is chosen whenever there is one, unless an earlier level has a town. */
  lemma StartTownPrefersOwnerCulture(w: World, playerClan: Id, kingdom: Option<Kingdom>, culture: Culture, k: nat, s: Settlement)
    requires s in w.settlements && s.isTown && OwnerCulture(w, s) == Some(culture)
    ensures ChooseStartTown(w, playerClan, kingdom, culture, k).Some?
    ensures var r := ChooseStartTown(w, playerClan, kingdom, culture, k).value;
      || r.owner == playerClan || (kingdom.Some? && r.owner in ClansOf(w, kingdom.value.id)) || r.culture == culture
      || OwnerCulture(w, r) == Some(culture)
  {
    var levels := TownLevels(w, playerClan, kingdom, culture);
    TownLevelsBounds(w, playerClan, kingdom, culture);
    assert s in levels[3];
    FallbackPrefers(levels, k, 3);
  }
}
