/**
 * Lookups from a stored status string to its display configuration and its
 * pipeline stage, with the fallbacks used for missing or unknown statuses.
 */
module StatusUtils {
  import opened Wrappers
  import opened LeadTypes

  /**
   * Builds the reverse index from status name to pipeline stage by walking
   * every stage and every status it lists.  The index holds exactly the
   * fourteen canonical names, each mapped to the stage that lists it.
   */
  method BuildStatusToStageMap() returns (index: map<string, PipelineStage>)
    ensures forall k :: k in index <==> ParseStatus(k).Some?
    ensures forall s: LeadStatus :: StatusName(s) in index && index[StatusName(s)] == Config(s).pipelineStage
  {
    index := map[];
    var i := 0;
    while i < |PipelineStages|
      invariant 0 <= i <= |PipelineStages|
      invariant IndexSound(index)
      invariant forall s: LeadStatus :: StagePosition(Config(s).pipelineStage) < i ==> StatusName(s) in index
    {
      var stage := PipelineStages[i];
      assert StagePosition(stage) == i;
      var statuses := StageStatuses(stage);
      var j := 0;
      while j < |statuses|
        invariant 0 <= j <= |statuses|
        invariant IndexSound(index)
        invariant forall s: LeadStatus :: StagePosition(Config(s).pipelineStage) < i ==> StatusName(s) in index
        invariant forall m :: 0 <= m < j ==> StatusName(statuses[m]) in index
      {
        ListedStatusInStage(stage, j);
        IndexSoundAdd(index, statuses[j]);
        index := index[StatusName(statuses[j]) := stage];
        j := j + 1;
      }
      forall s: LeadStatus | StagePosition(Config(s).pipelineStage) == i
        ensures StatusName(s) in index
      {
        var m := PositionInStage(s);
        assert StatusName(statuses[m]) in index;
      }
      i := i + 1;
    }
    ParseStatusName();
  }

  /** Every key of the index is a canonical name, mapped to the stage its status is configured with. */
  ghost predicate IndexSound(index: map<string, PipelineStage>) {
    forall k :: k in index ==> ParseStatus(k).Some? && index[k] == Config(ParseStatus(k).value).pipelineStage
  }

  /** Entering a status under its own stage keeps the index sound. */
  lemma IndexSoundAdd(index: map<string, PipelineStage>, s: LeadStatus)
    requires IndexSound(index)
    ensures IndexSound(index[StatusName(s) := Config(s).pipelineStage])
  {
    StatusNameInjective(s, s);
  }

  /** `getStatusConfig`: the configuration of a stored status, `not_contacted`'s when it is missing or unknown. */
  function GetStatusConfig(status: Option<string>): (c: StatusConfig)
    ensures ParseStatus(StatusKey(status)).None? ==> c == Config(NotContacted)
    ensures status.None? || status == Some("") ==> c == Config(NotContacted)
  {
    match ParseStatus(StatusKey(status))
    case Some(s) => Config(s)
    case None => Config(NotContacted)
  }

  /** A canonical status name looks up that status's configuration. */
  lemma GetStatusConfigOfName(s: LeadStatus)
    ensures GetStatusConfig(Some(StatusName(s))) == Config(s)
  {
    StatusNameInjective(s, s);
  }

  /**
   * `getStatusPipelineStage`: the stage whose list holds the stored status,
   * `follow_up` when it is missing or unknown.
   */
  function GetStatusPipelineStage(status: Option<string>): (st: PipelineStage)
    ensures ParseStatus(StatusKey(status)).None? ==> st == FollowUp
    ensures status.None? || status == Some("") ==> st == FollowUp
  {
    match ParseStatus(StatusKey(status))
    case Some(s) => Config(s).pipelineStage
    case None => FollowUp
  }

  /** A canonical status name looks up the stage that lists that status. */
  lemma GetStatusPipelineStageOfName(s: LeadStatus)
    ensures s in StageStatuses(GetStatusPipelineStage(Some(StatusName(s))))
  {
    StatusNameInjective(s, s);
    var m := PositionInStage(s);
    assert StageStatuses(Config(s).pipelineStage)[m] == s;
  }

  /** The two lookups agree: a status's stage is the one its configuration names. */
  lemma StageLookupAgreesWithConfig(status: Option<string>)
    ensures GetStatusPipelineStage(status) == GetStatusConfig(status).pipelineStage
  {
  }

  /** The stages a lead progresses through, in order; lost and future are off this track. */
  const ProgressStages: seq<PipelineStage> := [FollowUp, Warm, Hot, SignedStage]

  /** `Array.prototype.indexOf`: the first position holding `x`, or -1. */
  function IndexOf<T(==)>(xs: seq<T>, x: T): (r: int)
    ensures r == -1 <==> x !in xs
    ensures r != -1 ==> 0 <= r < |xs| && xs[r] == x && x !in xs[..r]
  {
    if xs == [] then -1
    else if xs[0] == x then 0
    else
      var r := IndexOf(xs[1..], x);
      assert r != -1 ==> xs[..r + 1] == [xs[0]] + xs[1..][..r];
      if r == -1 then -1 else r + 1
  }

  /** `getPipelineStageIndex`: position on the progress track, -1 for lost and future. */
  function GetPipelineStageIndex(stage: PipelineStage): (r: int)
    ensures r == -1 <==> stage == Lost || stage == Future
    ensures r != -1 ==> 0 <= r < 4 && PipelineStages[r] == stage
  {
    ProgressTrack(stage);
    IndexOf(ProgressStages, stage)
  }

  /** Lost and future are the only stages off the progress track. */
  lemma ProgressTrack(stage: PipelineStage)
    ensures stage !in ProgressStages <==> stage == Lost || stage == Future
  {
    match stage
    case FollowUp => assert ProgressStages[0] == stage;
    case Warm => assert ProgressStages[1] == stage;
    case Hot => assert ProgressStages[2] == stage;
    case SignedStage => assert ProgressStages[3] == stage;
    case Lost =>
    case Future =>
  }
}
