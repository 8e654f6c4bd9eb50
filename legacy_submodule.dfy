/**
 * The mod's entry class of v1.0.0 (SubModule.cs): the stage handlers the
 * v1.0.0 postfix calls, the stage skips they perform, and the short tutorial
 * skip run once the wizard is through. This revision is written for story
 * mode only: it has no campaign setup and always deals with the elder
 * brother.
 *
 * As in the later revision, the host's `NextStage` and the postfix are
 * modelled together with the handlers as mutually recursive methods whose
 * measure is the number of stages left. The only exception this revision
 * can meet is a missing elder brother (outside story mode): the host throws
 * before the brother is touched, every nested call unwinds, and the methods
 * report it as `ok == false`.
 */
module LegacySubModule {
  import opened Wrappers
  import opened Choice
  import opened Host
  import LegacyConfig
  import opened StagePatch
  import LegacyStagePatch

  /** The settlement the party is moved to at the end of the wizard. */
  const StartSettlement: Id := "town_EW2"

  /** The longest clan name the clan-name inquiry accepts. */
  const MaxClanNameLength: nat := 50

  /** The clan-name inquiry's validator: a name of one to fifty characters. */
  function IsNewClanNameApplicable(txt: string): (r: bool)
    ensures r <==> 0 < |txt| <= MaxClanNameLength
  {
    |txt| <= 50 && |txt| > 0
  }

  /** The mod instance: `config` is the static configuration, `campaign` the running story-mode campaign. */
  class SubModule {
    const config: LegacyConfig.Config
    const campaign: Campaign

    constructor (config: LegacyConfig.Config, campaign: Campaign)
      ensures this.config == config && this.campaign == campaign
    {
      this.config := config;
      this.campaign := campaign;
    }

    /** A save on the settings page copies it into the configuration; any other property change is ignored. */
    method OnSettingsPropertyChanged(settings: LegacyConfig.Snapshot, change: PropertyChange)
      modifies config
      ensures change == SaveTriggered ==> config.Values() == settings
      ensures change != SaveTriggered ==> unchanged(config)
    {
      if change == SaveTriggered {
        config.CopyFrom(settings);
      }
    }

    // -------------------------------------------------------------------
    // The wizard

    /**
     * What every method of the wizard cluster keeps: the wizard state stays
     * well formed, the stage index and the consequence log only grow, a
     * chosen culture is never replaced, and the tutorial-mission skip and
     * the retirement of the elder brother are never undone.
     */
    twostate predicate Progressed(state: CharacterCreationState)
      reads state, campaign
    {
      && state.Valid()
      && old(state.stageIndex) <= state.stageIndex
      && old(state.consequences) <= state.consequences
      && (old(state.selectedCulture).Some? ==> state.selectedCulture == old(state.selectedCulture))
      && (old(campaign.skipTutorialMission) ==> campaign.skipTutorialMission)
      && (old(campaign.brother).Some? ==> campaign.brother.Some?)
      && (BrotherRetired(old(campaign.brother)) ==> BrotherRetired(campaign.brother))
    }

    /**
     * The host's `state.NextStage()` with the v1.0.0 postfix attached: the
     * stage index moves on, leaving the last stage switches to the state the
     * wizard exits to, and the postfix runs.
     */
    method NextStage(state: CharacterCreationState) returns (ok: bool)
      requires state.Valid() && state.stageIndex < |state.stages|
      modifies state, campaign
      decreases |state.stages| - state.stageIndex, 0
      ensures Progressed(state)
      ensures state.stageIndex > old(state.stageIndex)
      ensures old(campaign.brother).Some? ==> ok
    {
      state.stageIndex := state.stageIndex + 1;
      if state.stageIndex == |state.stages| {
        campaign.activeState := state.exitState;
      }
      ok := RunPostfix(state);
    }

    /** The v1.0.0 `NextStagePostfix`: runs the handler the dispatch names, if any. */
    method RunPostfix(state: CharacterCreationState) returns (ok: bool)
      requires state.Valid()
      modifies state, campaign
      decreases |state.stages| - state.stageIndex, 3
      ensures Progressed(state)
      ensures LegacyStagePatch.NextStagePostfix(old(state.stageIndex), state.stages).None? ==>
        ok && unchanged(state, campaign)
      ensures old(campaign.brother).Some? ==> ok
    {
      var h := LegacyStagePatch.NextStagePostfix(state.stageIndex, state.stages);
      match h
      case Some(OnCulture) =>
        ok := OnCultureStage(state);
      case Some(OnFaceGen) =>
        ok := OnFaceGenStage(state);
      case Some(OnGeneric) =>
        ok := OnGenericStage(state);
      case Some(OnReview) =>
        ok := OnReviewStage(state);
      case _ =>
        // No handler: past the last stage, the options stage or an unknown stage.
        ok := true;
    }

    /**
     * The culture stage: retires the elder brother, taking him out of the
     * party, and skips the tutorial mission, whatever the configuration;
     * then skips the stage when configured. Without an elder brother the
     * host throws before anything changes.
     */
    method OnCultureStage(state: CharacterCreationState) returns (ok: bool)
      requires state.Valid() && state.stageIndex < |state.stages|
      modifies state, campaign
      decreases |state.stages| - state.stageIndex, 2
      ensures Progressed(state)
      ensures ok <==> old(campaign.brother).Some?
      ensures !ok ==> unchanged(state, campaign)
      ensures ok ==> campaign.skipTutorialMission && BrotherRetired(campaign.brother)
      ensures !config.skipCultureStage ==> unchanged(state)
      ensures config.skipCultureStage && ok ==> state.selectedCulture.Some?
    {
      ok := DisableElderBrother(true);
      if !ok {
        return;
      }
      campaign.skipTutorialMission := true;
      if config.skipCultureStage {
        ok := SkipCultureStage(state);
      }
    }

    /** The face generator stage is skipped exactly when configured. */
    method OnFaceGenStage(state: CharacterCreationState) returns (ok: bool)
      requires state.Valid() && state.stageIndex < |state.stages|
      modifies state, campaign
      decreases |state.stages| - state.stageIndex, 2
      ensures Progressed(state)
      ensures old(campaign.brother).Some? ==> ok
      ensures !config.skipFaceGenStage ==> ok && unchanged(state, campaign)
      ensures config.skipFaceGenStage ==> state.stageIndex > old(state.stageIndex)
    {
      if config.skipFaceGenStage {
        ok := SkipFaceGenStage(state);
      } else {
        ok := true;
      }
    }

    /** A generic (backstory) stage is skipped exactly when configured. */
    method OnGenericStage(state: CharacterCreationState) returns (ok: bool)
      requires state.Valid() && state.stageIndex < |state.stages| && state.stages[state.stageIndex].GenericStage?
      modifies state, campaign
      decreases |state.stages| - state.stageIndex, 2
      ensures Progressed(state)
      ensures old(campaign.brother).Some? ==> ok
      ensures !config.skipGenericStage ==> ok && unchanged(state, campaign)
      ensures config.skipGenericStage ==> state.stageIndex > old(state.stageIndex)
    {
      if config.skipGenericStage {
        ok := SkipGenericStage(state);
      } else {
        ok := true;
      }
    }

    /** The review stage always hands over to the final skip. */
    method OnReviewStage(state: CharacterCreationState) returns (ok: bool)
      requires state.Valid() && state.stageIndex < |state.stages| && state.stages[state.stageIndex].ReviewStage?
      modifies state, campaign
      decreases |state.stages| - state.stageIndex, 2
      ensures Progressed(state)
      ensures old(campaign.brother).Some? ==> ok
      ensures state.stageIndex > old(state.stageIndex)
      ensures ok ==> campaign.talkedWithBrother && campaign.tutorialCompleted && BrotherRetired(campaign.brother)
    {
      ok := SkipFinalStages(state);
    }

    /** Picks a random culture and moves on, but only when no culture is selected yet. */
    method SkipCultureStage(state: CharacterCreationState) returns (ok: bool)
      requires state.Valid() && state.stageIndex < |state.stages|
      modifies state, campaign
      decreases |state.stages| - state.stageIndex, 1
      ensures Progressed(state)
      ensures old(campaign.brother).Some? ==> ok
      ensures old(state.selectedCulture).Some? ==> ok && unchanged(state, campaign)
      ensures old(state.selectedCulture).None? ==>
        state.selectedCulture.Some? && state.selectedCulture.value in state.cultures &&
        state.stageIndex > old(state.stageIndex)
    {
      if state.selectedCulture.None? {
        var k: nat :| true;
        state.selectedCulture := Pick(state.cultures, k);
        ok := NextStage(state);
      } else {
        ok := true;
      }
    }

    /** Moves on from the face generator with the current face. */
    method SkipFaceGenStage(state: CharacterCreationState) returns (ok: bool)
      requires state.Valid() && state.stageIndex < |state.stages|
      modifies state, campaign
      decreases |state.stages| - state.stageIndex, 1
      ensures Progressed(state)
      ensures old(campaign.brother).Some? ==> ok
      ensures state.stageIndex > old(state.stageIndex)
    {
      ok := NextStage(state);
    }

    /**
     * Runs, for each menu of the generic stage in order, the consequence of
     * one randomly chosen selectable option (none for a menu without one),
     * then moves on.
     */
    method SkipGenericStage(state: CharacterCreationState) returns (ok: bool)
      requires state.Valid() && state.stageIndex < |state.stages| && state.stages[state.stageIndex].GenericStage?
      modifies state, campaign
      decreases |state.stages| - state.stageIndex, 1
      ensures Progressed(state)
      ensures old(campaign.brother).Some? ==> ok
      ensures state.stageIndex > old(state.stageIndex)
      ensures exists picked :: IsResolution(state.stages[old(state.stageIndex)].menus, picked)
                               && old(state.consequences) + Applied(picked) <= state.consequences
    {
      var menus := state.stages[state.stageIndex].menus;
      ghost var picked := ResolveMenus(state, menus);
      ok := NextStage(state);
    }

    /**
     * Moves past the review stage and then past the options stage, each only
     * if it is the current one, then skips the tutorial (see `FinishTutorial`).
     */
    method SkipFinalStages(state: CharacterCreationState) returns (ok: bool)
      requires state.Valid()
      modifies state, campaign
      decreases |state.stages| - state.stageIndex, 1
      ensures Progressed(state)
      ensures old(campaign.brother).Some? ==> ok
      ensures old(state.CurrentStage()) == Some(ReviewStage) || old(state.CurrentStage()) == Some(OptionsStage) ==>
        state.stageIndex > old(state.stageIndex)
      ensures !(old(state.CurrentStage()) == Some(ReviewStage) || old(state.CurrentStage()) == Some(OptionsStage)) ==>
        state.stageIndex == old(state.stageIndex)
      ensures ok ==> campaign.talkedWithBrother && campaign.tutorialCompleted && BrotherRetired(campaign.brother)
      ensures ok && FindSettlement(campaign.world.settlements, StartSettlement).Some? && campaign.activeState == MapState ==>
        campaign.partyPosition == Some(StartSettlement)
      ensures ok && config.promptForClanName ==> |campaign.prompts| > 0 && campaign.prompts[|campaign.prompts| - 1] == ClanNamePrompt
    {
      if state.CurrentStage() == Some(ReviewStage) {
        ok := NextStage(state);
        if !ok { return; }
      }
      if state.CurrentStage() == Some(OptionsStage) {
        ok := NextStage(state);
        if !ok { return; }
      }
      ok := FinishTutorial();
    }

    /**
     * The part of the final skip after the stages: marks the first talk with
     * the brother, retires him again (he stays out of the party), completes
     * the tutorial, moves the party to `town_EW2` when that town exists and
     * the game is on the map, and asks for the clan name when configured.
     * Without an elder brother the host throws right after the talk is marked.
     */
    method FinishTutorial() returns (ok: bool)
      modifies campaign`talkedWithBrother, campaign`brother, campaign`members, campaign`tutorialCompleted
      modifies campaign`partyPosition, campaign`prompts
      ensures campaign.talkedWithBrother
      ensures ok <==> old(campaign.brother).Some?
      ensures !ok ==> campaign.brother == old(campaign.brother) && campaign.tutorialCompleted == old(campaign.tutorialCompleted)
      ensures !ok ==> campaign.partyPosition == old(campaign.partyPosition) && campaign.prompts == old(campaign.prompts)
      ensures ok ==> campaign.tutorialCompleted
      ensures ok ==> campaign.brother == Some(old(campaign.brother).value.(disabled := true, neutral := true))
      ensures campaign.members == old(campaign.members)
      ensures ok ==> (campaign.partyPosition ==
        if FindSettlement(campaign.world.settlements, StartSettlement).Some? && campaign.activeState == MapState
        then Some(StartSettlement) else old(campaign.partyPosition))
      ensures ok ==> campaign.prompts == old(campaign.prompts) + (if config.promptForClanName then [ClanNamePrompt] else [])
    {
      campaign.talkedWithBrother := true;
      ok := DisableElderBrother(false);
      if !ok {
        return;
      }
      campaign.tutorialCompleted := true;
      var start := FindSettlement(campaign.world.settlements, StartSettlement);
      if start.Some? && campaign.activeState == MapState {
        campaign.partyPosition := Some(start.value.id);
      }
      if config.promptForClanName {
        campaign.prompts := campaign.prompts + [ClanNamePrompt];
      }
    }

    /**
     * Disables the elder brother and hands him to the neutral faction,
     * removing him from the party first when `isFirst`. Without an elder
     * brother the host throws before anything changes.
     */
    method DisableElderBrother(isFirst: bool) returns (ok: bool)
      modifies campaign`brother, campaign`members
      ensures ok <==> old(campaign.brother).Some?
      ensures !ok ==> unchanged(campaign)
      ensures ok ==>
        && campaign.brother == Some(old(campaign.brother).value.(disabled := true, neutral := true))
        && campaign.members == if isFirst then RemoveOne(old(campaign.members), old(campaign.brother).value.character)
                               else old(campaign.members)
    {
      if campaign.brother.None? {
        return false;
      }
      var b := campaign.brother.value;
      if isFirst {
        campaign.members := RemoveOne(campaign.members, b.character);
      }
      campaign.brother := Some(b.(disabled := true, neutral := true));
      ok := true;
    }

    /**
     * The answer to the clan-name inquiry: the clan is renamed to it, or to
     * the empty name when there is none. An answer the validator accepted
     * gives a clan name of one to fifty characters.
     */
    method OnChangeClanNameDone(txt: Option<string>)
      modifies campaign`clanName
      ensures txt.Some? ==> campaign.clanName == txt.value
      ensures txt.None? ==> campaign.clanName == ""
      ensures txt.Some? && IsNewClanNameApplicable(txt.value) ==> IsNewClanNameApplicable(campaign.clanName)
      ensures txt.Some? && IsNewClanNameApplicable(txt.value) ==> 0 < |campaign.clanName| <= MaxClanNameLength
    {
      campaign.clanName := txt.GetOr("");
    }

    /**
     * The clan-name inquiry as the final skip opens it: it starts from the
     * empty text, and its done button is enabled only while
     * `IsNewClanNameApplicable` accepts the text, so `OnChangeClanNameDone`
     * is reached with an accepted name only; a rejected text renames nothing.
     */
    method ConfirmClanName(txt: string) returns (accepted: bool)
      modifies campaign`clanName
      ensures accepted <==> IsNewClanNameApplicable(txt)
      ensures accepted ==> campaign.clanName == txt && IsNewClanNameApplicable(campaign.clanName)
      ensures !accepted ==> campaign.clanName == old(campaign.clanName)
      ensures txt == "" ==> !accepted
    {
      accepted := IsNewClanNameApplicable(txt);
      if accepted {
        OnChangeClanNameDone(Some(txt));
      }
    }
  }
}
