/**
 * The v1.0.0 postfix on `CharacterCreationState.NextStage`
 * (Patches/CharacterCreationStatePatch.cs): the same dispatch as the later
 * revision, but with no case for the campaign-options stage.
 */
module LegacyStagePatch {
  import opened Wrappers
  import opened Host
  import StagePatch

  type Handler = StagePatch.Handler

  /** The handler the v1.0.0 postfix runs: nothing past the last stage, nothing for options or unknown stages. */
  function NextStagePostfix(stageIndex: nat, stages: seq<Stage>): (h: Option<Handler>)
    ensures stageIndex == |stages| ==> h.None?
    ensures h.Some? <==> stageIndex < |stages| && !stages[stageIndex].OtherStage? && !stages[stageIndex].OptionsStage?
    ensures h.Some? ==> StagePatch.Handles(h.value, stages[stageIndex]) && !h.value.OnOptions?
  {
    if stageIndex == |stages| then None
    else match StagePatch.StageAt(stageIndex, stages)
      case Some(CultureStage) => Some(StagePatch.OnCulture)
      case Some(FaceGeneratorStage) => Some(StagePatch.OnFaceGen)
      case Some(GenericStage(_)) => Some(StagePatch.OnGeneric)
      case Some(ReviewStage) => Some(StagePatch.OnReview)
      case _ => None
  }

  /** The two revisions dispatch alike except on the options stage, which only v1.2 hands to a handler. */
  lemma SameDispatchExceptOptions(stageIndex: nat, stages: seq<Stage>)
    ensures stageIndex < |stages| && stages[stageIndex].OptionsStage? ==>
      NextStagePostfix(stageIndex, stages).None? &&
      StagePatch.NextStagePostfix(stageIndex, stages) == Some(StagePatch.OnOptions)
    ensures !(stageIndex < |stages| && stages[stageIndex].OptionsStage?) ==>
      NextStagePostfix(stageIndex, stages) == StagePatch.NextStagePostfix(stageIndex, stages)
  {
    var a := NextStagePostfix(stageIndex, stages);
    var b := StagePatch.NextStagePostfix(stageIndex, stages);
    if a.Some? && b.Some? {
      assert StagePatch.Handles(a.value, stages[stageIndex]);
      assert StagePatch.Handles(b.value, stages[stageIndex]);
    }
  }
}
