// Publishing an event: what is stored for it, the outcomes its SQL steps may have, and
// how versions and rows go together over the whole protocol.
module Publishing {
  import opened HubModel
  import opened HubInvariant

  /** Whether a commit took effect and whether it was reported as done. */
  datatype Commit = Done | Refused | LostReply

  /** The outcome of each SQL step, chosen by the environment. A duplicate key makes the insert fail in any case. */
  datatype Outcomes = Outcomes(begin: bool, ensure: bool, insert: bool, rollback: bool, check: bool,
                               update: bool, commit: Commit)

  datatype PublishError =
    | Ok | BeginFailed | EnsureFailed | RollbackFailed | CheckFailed | InsertFailed | UpdateFailed | CommitFailed

  /** The key of the events table is taken. */
  predicate HasEvent(rows: set<Event>, id: GatewayId, eventId: string) {
    exists r | r in rows :: r.gatewayId == id && r.eventId == eventId
  }

  /** The stored version of a gateway; a missing row counts as unstamped. */
  function VersionOf(versions: map<GatewayId, Version>, g: GatewayId): Version {
    if g in versions then versions[g] else ""
  }

  /** Over any step of the hub, a gateway's version changes exactly when a row of it appears. */
  lemma StampedIffRowAppears(s: State, step: Step, g: GatewayId)
    requires forall h | h in s.versions :: s.versions[h] == "" || s.versions[h] in s.stamped
    ensures var s' := Apply(s, step);
      VersionOf(s'.versions, g) != VersionOf(s.versions, g)
      <==> exists e :: e in s'.rows - s.rows && e.gatewayId == g
  {
    if step.Publish? {
      if Enabled(s, step) {
        var s' := DoPublish(s, step.event, step.version);
        assert step.event in s'.rows - s.rows;
      }
    } else {
      OnlyPublishesStamp(s, step, g);
    }
  }

  lemma OtherStepsStampNothing(s: State, step: Step, g: GatewayId)
    requires Enabled(s, step) && !RegistryStep(step) && !step.Publish?
    requires !step.HandOut? && !step.OfferNext? && !step.SendNext?
    ensures VersionOf(Do(s, step).versions, g) == VersionOf(s.versions, g) && Do(s, step).rows <= s.rows
  {
  }

  lemma OnlyPublishesStamp(s: State, step: Step, g: GatewayId)
    requires !step.Publish?
    ensures VersionOf(Apply(s, step).versions, g) == VersionOf(s.versions, g) && Apply(s, step).rows <= s.rows
  {
    if Enabled(s, step) {
      if RegistryStep(step) {
        RegistryStepLeaves(s, step);
      } else if step.HandOut? || step.OfferNext? || step.SendNext? {
        HandOutStepFrame(s, step);
      } else {
        OtherStepsStampNothing(s, step, g);
      }
    }
  }
}
