/**
 * The postfix the mod attaches to the host's `CharacterCreationState.NextStage`
 * (src/Patches/CharacterCreationStatePatch.cs): after every stage transition
 * it hands the new current stage to the mod's handler for that stage kind.
 */
module StagePatch {
  import opened Wrappers
  import opened Host

  /** The mod's stage handlers (`SubModule.On*Stage`). */
  datatype Handler = OnCulture | OnFaceGen | OnGeneric | OnReview | OnOptions

  /** The stage kind each handler is written for. */
  predicate Handles(h: Handler, s: Stage) {
    match h
    case OnCulture => s.CultureStage?
    case OnFaceGen => s.FaceGeneratorStage?
    case OnGeneric => s.GenericStage?
    case OnReview => s.ReviewStage?
    case OnOptions => s.OptionsStage?
  }

  /** The host's `CurrentStage`: the stage at the index, none outside the stage list. */
  function StageAt(stageIndex: nat, stages: seq<Stage>): Option<Stage> {
    if stageIndex < |stages| then Some(stages[stageIndex]) else None
  }

  /**
   * The handler the postfix runs, if any. The transition out of the last
   * stage (index equal to the stage count) runs nothing; otherwise the
   * else-if chain runs the one handler of the current stage's kind, and a
   * stage of any other kind runs nothing.
   */
  function NextStagePostfix(stageIndex: nat, stages: seq<Stage>): (h: Option<Handler>)
    ensures stageIndex == |stages| ==> h.None?
    ensures h.Some? <==> stageIndex < |stages| && !stages[stageIndex].OtherStage?
    ensures h.Some? ==> Handles(h.value, stages[stageIndex])
  {
    if stageIndex == |stages| then None
    else match StageAt(stageIndex, stages)
      case Some(CultureStage) => Some(OnCulture)
      case Some(FaceGeneratorStage) => Some(OnFaceGen)
      case Some(GenericStage(_)) => Some(OnGeneric)
      case Some(ReviewStage) => Some(OnReview)
      case Some(OptionsStage) => Some(OnOptions)
      case _ => None
  }

  /** Every handler is reachable, from exactly the stages of its kind, and no other handler runs there. */
  lemma PostfixRunsExactlyTheMatchingHandler(stageIndex: nat, stages: seq<Stage>, h: Handler)
    requires stageIndex < |stages|
    ensures NextStagePostfix(stageIndex, stages) == Some(h) <==> Handles(h, stages[stageIndex])
  {
    var r := NextStagePostfix(stageIndex, stages);
    if Handles(h, stages[stageIndex]) {
      assert r.Some?;
      assert Handles(r.value, stages[stageIndex]);
    }
  }
}
