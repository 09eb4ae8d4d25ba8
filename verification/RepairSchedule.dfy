/** Repairs that runs really schedule: which ordinal they get, and where the authority selector and the codec stand. */
module RepairSchedule {
  import opened Base
  import opened Records
  import opened Commands
  import opened Authority
  import opened Permissions
  import opened Kernel
  import opened Transitions
  import opened PlanProgress
  import opened EffectCoupling
  import opened ResultBinding
  import opened ClosureBacking
  import opened Invariant
  import opened Runs
  import opened Safety
  import opened PlanAuthority
  import opened PlanIndexes

  predicate Schedules(events: seq<Event>) { exists i :: 0 <= i < |events| && events[i].RepairAttemptScheduled? }

  lemma {:induction false} SchedulingCounts(events: seq<Event>)
    requires Schedules(events)
    ensures Count(events, Scheduling) > 0
  {
    var n := |events| - 1;
    if !events[n].RepairAttemptScheduled? {
      var i :| 0 <= i < |events| && events[i].RepairAttemptScheduled?;
      assert events[..n][i] == events[i];
      SchedulingCounts(events[..n]);
    }
  }

  /** Only a decision to continue a repair schedules one. */
  lemma OnlyDecisionsSchedule(s: Snapshot, r: Request, ctx: Context, t: Reduced)
    requires Dispatch(s, r, ctx) == Ok(t) && Schedules(t.events)
    ensures r.payload.Decide?
    ensures Only(ActiveGoals(s.goals)).Some? && CountsRepair(s, t, Only(ActiveGoals(s.goals)).value)
  {
    hide AfterCreate, AfterObserve, AfterStage, AfterAcknowledge, AfterReview, AfterDecision, AfterAdvance, AfterPause,
         AfterResume, AfterRevise, AfterStop, AfterPrepare, AfterClose, AfterStrengthen, Schedules, Only, ActiveGoals;
    hide ObservesPair, StagesResult, AcknowledgesResult, RecordsReview, PreparesFinalization, ClosesExecution,
         StrengthensClosure, Quiet, MaterializesGoal, StopsLoop, CountsRepair, LeavesPlan, ValidRevision, Count;
    SchedulingCounts(t.events);
    match r.payload
    case Create(c) => CreateRefused(s, r, ctx, c);
    case Observe => ObserveDelta(s, r, ctx, t); QuietCounts(t.events);
    case Stage(outcome, summary) => StageDelta(s, r, outcome, summary, t); QuietCounts(t.events);
    case Acknowledge => AcknowledgeDelta(s, r, ctx, t); QuietCounts(t.events);
    case Judge(verdict) => ReviewDelta(s, r, verdict, t); QuietCounts(t.events);
    case Decide(d, fingerprint) =>
      DecisionDelta(s, r, ctx, d, fingerprint, t);
      if d != ContinueRepair { DeferralsDoNotSchedule(s, t, d); }
    case Advance(to) => AdvanceDelta(s, r, to, t); QuietCounts(t.events);
    case Pause(reason, wait) => PauseDelta(s, reason, wait, t); QuietCounts(t.events);
    case Resume(fields) =>
      ResumeDelta(s, fields, t);
      if !ExtendsBudget(s, t) { QuietCounts(t.events); }
    case Revise(ids, slices, index, revision, reason) =>
      ReviseDelta(s, ids, slices, index, revision, reason, t); QuietCounts(t.events);
    case StopNow(reason) => StopDelta(s, reason, t); QuietCounts(t.events);
    case Prepare(d) => PrepareDelta(s, r, d, t); QuietCounts(t.events);
    case Close => CloseDelta(s, r, ctx, t); QuietCounts(t.events);
    case Strengthen => StrengthenDelta(s, r, ctx, t); QuietCounts(t.events);
  }

  lemma DeferralsDoNotSchedule(s: Snapshot, t: Reduced, d: Decision)
    requires Defers(s, t, d)
    ensures !Schedules(t.events)
  {
  }

  /** The ordinal of the next repair of a goal: one more than the policy record counts for it. */
  function NextOrdinal(s: Snapshot, goalRef: Str): nat { CountedFor(s.policy, goalRef) + 1 }

  lemma SchedulingDecision(s: Snapshot, t: Reduced, goalRef: Str)
    requires CountsRepair(s, t, goalRef) && Schedules(t.events)
    ensures SchedulesRepair(s, t.snapshot, goalRef, NextOrdinal(s, goalRef)) && NextOrdinal(s, goalRef) <= 3
    ensures t.events[|t.events| - 1] == RepairAttemptScheduled(t.snapshot.goals[goalRef].chain.attemptRef, goalRef)
  {
    hide SchedulesRepair;
  }

  /** A command that announces a scheduled repair schedules it for the goal the plan rests on, at the counter plus one,
      which is at most three, and announces the attempt it creates. */
  lemma ScheduledByCommit(s: Snapshot, i: Input, t: Reduced)
    requires Inv(s) && Commit(Some(s), i) == Ok(t) && Schedules(t.events)
    ensures s.plan.activeGoalRef in s.goals && s.goals[s.plan.activeGoalRef].state == Active
    ensures SchedulesRepair(s, t.snapshot, s.plan.activeGoalRef, NextOrdinal(s, s.plan.activeGoalRef))
    ensures 1 <= NextOrdinal(s, s.plan.activeGoalRef) <= 3
    ensures t.events[|t.events| - 1]
            == RepairAttemptScheduled(t.snapshot.goals[s.plan.activeGoalRef].chain.attemptRef, s.plan.activeGoalRef)
  {
    hide Inv, Dispatch, ValidateCommand, ValidateAuthority, ValidateReferences, Fits, AfterCreate, Schedules,
         CountsRepair, SchedulesRepair;
    var r := i.command.request;
    var d := Dispatch(s, r, i.context).value;
    assert t == Renumbered(d, r.expectedRevision + 1);
    hide Commit;
    OnlyDecisionsSchedule(s, r, i.context, d);
    ActiveOfInv(s);
    SchedulingDecision(s, d, s.plan.activeGoalRef);
    RenumberedSchedules(s, d, s.plan.activeGoalRef, NextOrdinal(s, s.plan.activeGoalRef), r.expectedRevision + 1);
  }

  lemma ActiveOfInv(s: Snapshot)
    requires Inv(s) && Only(ActiveGoals(s.goals)).Some?
    ensures s.plan.activeGoalRef in s.goals && s.goals[s.plan.activeGoalRef].state == Active
    ensures Only(ActiveGoals(s.goals)) == Some(s.plan.activeGoalRef)
  {
    hide PlanInv, CoupledInv, BoundInv, EndingInv, PolicyInv;
    ActiveIsCurrent(s.loopRef, s.plan, s.goals);
    assert Only(ActiveGoals(s.goals)).value in ActiveGoals(s.goals);
  }

  lemma RenumberedSchedules(s: Snapshot, d: Reduced, goalRef: Str, ordinal: nat, revision: nat)
    requires SchedulesRepair(s, d.snapshot, goalRef, ordinal)
    ensures SchedulesRepair(s, Renumbered(d, revision).snapshot, goalRef, ordinal)
  {
  }

  /** What a scheduled repair is a digest of. */
  function ScheduledIdentity(s: Snapshot): RepairIdentity
    requires s.plan.activeGoalRef in s.goals
  {
    var g := s.plan.activeGoalRef;
    RepairIdentity(s.loopRef, s.plan.planDigest, g, s.goals[g].goalId, NextOrdinal(s, g))
  }

  lemma ScheduledIsSelected(s: Snapshot, u: Snapshot, kind: Kind)
    requires s.plan.activeGoalRef in s.goals && RepairDerivable(kind) && |u.plan.ids| == |u.plan.slices|
    requires SchedulesRepair(s, u, s.plan.activeGoalRef, NextOrdinal(s, s.plan.activeGoalRef))
    ensures Selected(u, s.loopRef, kind, RepairRef(kind, ScheduledIdentity(s)), true)
            == Selected(u, s.loopRef, kind, RepairRef(kind, ScheduledIdentity(s)), false)
            == (&& s.plan.capacity == CapacityV2
                && NextOrdinal(s, s.plan.activeGoalRef) < s.goals[s.plan.activeGoalRef].maxAttempts)
  {
    hide Launches, SameEvidence, CountedFor;
    assert u.goals[s.plan.activeGoalRef].goalId == s.goals[s.plan.activeGoalRef].goalId
           && u.goals[s.plan.activeGoalRef].maxAttempts == s.goals[s.plan.activeGoalRef].maxAttempts;
  }

  /** At any point of any run: a command about a scheduled repair, under a plan-selector grant that is otherwise in order,
      passes the authority check exactly when the plan has V2 capacity and the repair's ordinal, the counter plus one, is
      below the goal's attempt limit. Otherwise the answer is that the scope does not match. */
  lemma ScheduledIsAuthorised(
    run: seq<Input>, s: Snapshot, i: Input, t: Reduced, q: Request, ctx: Context, includeLoop: bool)
    requires After(run) == Some(s) && Commit(Some(s), i) == Ok(t) && Schedules(t.events)
    requires s.plan.activeGoalRef in s.goals
    requires q.loop == s.loopRef && RepairDerivable(q.kind) && q.subject == RepairRef(q.kind, ScheduledIdentity(s))
    requires ActorStands(q, ctx) && GrantStands(q, ctx)
    requires ctx.grants[q.grant].scope == PlanSelector(s.plan.planDigest, s.plan.goalCount - 1, includeLoop)
    ensures ValidateAuthority(q, ctx, Some(t.snapshot))
            == if && s.plan.capacity == CapacityV2
                  && NextOrdinal(s, s.plan.activeGoalRef) < s.goals[s.plan.activeGoalRef].maxAttempts
               then Pass else Refuse(AuthorityScopeMismatch)
  {
    hide Commit, Inv, Schedules, SchedulesRepair, Fits, ValidateAuthority, CheckSelector, Selected, SnapshotPlanInv,
         CountedFor, GrantStands, ActorStands;
    ReachableInv(run);
    ScheduledByCommit(s, i, t);
    CommitKeeps(s, i, t);
    KeptPlan(s, t);
    ScopeDecides(q, ctx, Some(t.snapshot));
    SelectorExactly(s.plan.planDigest, s.plan.goalCount - 1, includeLoop, q, t.snapshot);
    ScheduledIsSelected(s, t.snapshot, q.kind);
  }

  /** The same of the envelope, the set of references that a plan-selector grant covers. */
  lemma ScheduledIsCovered(run: seq<Input>, s: Snapshot, i: Input, t: Reduced, kind: Kind)
    requires After(run) == Some(s) && Commit(Some(s), i) == Ok(t) && Schedules(t.events) && RepairDerivable(kind)
    ensures s.plan.activeGoalRef in s.goals
    ensures RepairRef(kind, ScheduledIdentity(s)) in Envelope(t.snapshot, kind)
            <==> && s.plan.capacity == CapacityV2
                 && NextOrdinal(s, s.plan.activeGoalRef) < s.goals[s.plan.activeGoalRef].maxAttempts
  {
    hide Commit, Inv, Schedules, SchedulesRepair, Envelope, Fits;
    ReachableInv(run);
    ScheduledByCommit(s, i, t);
    ScheduledInEnvelope(s, t.snapshot, s.plan.activeGoalRef, NextOrdinal(s, s.plan.activeGoalRef), kind);
  }

  lemma KeptPlan(s: Snapshot, t: Reduced)
    requires Keeps(s, t)
    ensures SnapshotPlanInv(t.snapshot)
    ensures t.snapshot.plan.planDigest == s.plan.planDigest && t.snapshot.plan.goalCount == s.plan.goalCount
  {
    hide PlanInv, CoupledInv, BoundInv, EndingInv, PolicyInv, GoalsAdvance, ObservedForwards, BudgetForwards,
         AttemptsConserved, RepairsCounted;
  }

  /** At any point of any run: a scheduled repair chain is the codec's exactly for the first two ordinals, and the codec
      has none for the third; below the attempt limit it always has one. */
  lemma ScheduledIsCodec(run: seq<Input>, s: Snapshot, i: Input, t: Reduced)
    requires After(run) == Some(s) && Commit(Some(s), i) == Ok(t) && Schedules(t.events)
    ensures s.plan.activeGoalRef in s.goals && s.plan.activeGoalRef in t.snapshot.goals
    ensures var g := s.plan.activeGoalRef; var n := NextOrdinal(s, g);
            var chain := CodecRepairChain(s.loopRef, s.plan.planDigest, g, s.goals[g].goalId, n);
            && t.snapshot.goals[g].chain == RepairChain(ScheduledIdentity(s))
            && (chain == Some(t.snapshot.goals[g].chain) <==> n <= 2) && (chain == None <==> n == 3)
            && (n < s.goals[g].maxAttempts ==> n <= 2)
  {
    hide Commit, Inv, Schedules, Launches, Fits, SameEvidence;
    ReachableInv(run);
    ScheduledByCommit(s, i, t);
    InvPlan(s);
    var g := s.plan.activeGoalRef;
    ScheduledIsCodecChain(s, t.snapshot, g, NextOrdinal(s, g));
    hide SnapshotPlanInv;
  }

  lemma InvPlan(s: Snapshot)
    requires Inv(s)
    ensures SnapshotPlanInv(s)
  {
    hide SnapshotPlanInv, CoupledInv, BoundInv, EndingInv, PolicyInv;
  }
}
