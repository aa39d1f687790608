// The main theorem about crash recovery: whatever crashes happened between preparing an acceptance
// and settling its job, one complete recovery of its journal ends where the uninterrupted run ends.
module Convergence {
  import opened Basics
  import opened FileTree
  import opened Delivery
  import opened Integration
  import opened EventLog
  import opened Acceptance
  import opened RecoverySafety
  import opened Recovery

  // ---------------------------------------------------------------- where it starts

  /** Each effect finds what its plan recorded. An artifact that is already there must already be linked. */
  ghost predicate EffectFresh(s: Site, sealed: map<Path, Image>, context: Context, taskId: string, e: Effect)
    requires taskId in s.tasks
  {
    match e
    case File(file) =>
      Faithful(sealed, file) && FoundAsPlanned(s.repo, file) && !Obstructed(s.repo, file.target)
    case Artifact(_, _, _, _, _, _, link, _) =>
      && ArtifactBefore(sealed, e, s.artifacts)
      && (ArtifactApplied(sealed, e, s.artifacts) ==> link == "" || link in s.tasks[taskId].links)
    case CommitChanges(_, _) => true
    case CreateTask(id, _) => id !in s.tasks
    case LinkDerived(_, _) => true
    case MoveTask(_, _) => context.previous == Some(s.tasks[taskId].state)
  }

  /** The stores are as the journal was prepared for, and its commit can be proven later. The journal may be
      prepared or abandoned: recovery does not tell them apart. */
  ghost predicate JustPrepared(w: World, id: string) {
    && id in w.journals
    && var j := w.journals[id];
    && j.status != Committed && Recoverable(w, j)
    && Orderly(j.effects, j.taskId.value)
    && WellFormed(w.site.repo) && j.taskId.value in w.site.tasks
    && (forall e :: e in j.effects ==> EffectFresh(w.site, j.context.candidate.manifest, j.context, j.taskId.value, e))
    && j.context.base == Some(w.site.head)
    && Provable(j.effects, j.context.candidate.manifest, j.context, w.site.ignored)
    && DistinctIds(j.events) && Ids(w.log) !! IdsOf(j.events)
    && JobOpen(w, j)
  }

  ghost predicate JobOpen(w: World, j: Journal) {
    && j.context.jobId.Some? && j.context.hasMetadata && j.context.jobId.value in w.jobs
    && w.jobs[j.context.jobId.value].status != Accepted
    && j.taskId == Some(w.jobs[j.context.jobId.value].taskId)
    && j.transitionId == Some(w.jobs[j.context.jobId.value].transitionId)
  }

  /** Only the status of the journal's job may have changed, and not to accepted. */
  ghost predicate SameJobs(w0: World, w: World, j: Journal) {
    && JobOpen(w, j)
    && var jobId := j.context.jobId.value;
    && jobId in w0.jobs && w.jobs == w0.jobs[jobId := w0.jobs[jobId].(status := w.jobs[jobId].status)]
  }

  /** Crashes have left the journal prepared: every effect is before or after, the log holds part of the batch. */
  ghost predicate MidFlight(w0: World, id: string, w: World)
    requires JustPrepared(w0, id)
  {
    var j := w0.journals[id];
    && w.storage == w0.storage && w.journals == w0.journals && SameJobs(w0, w, j)
    && SiteSim(j.effects, j.taskId.value, j.context.candidate.manifest, j.context, 0, w0.site, w.site)
    && Extends(w0.log, j.events, w.log)
  }

  /** The crash fell between committing the journal and accepting the job. */
  ghost predicate Unsettled(w0: World, id: string, w: World)
    requires JustPrepared(w0, id)
  {
    var j := w0.journals[id];
    var end := RunLive(w0.site, j.context.candidate.manifest, j.effects);
    && w.storage == w0.storage && w.journals == w0.journals[id := j.(status := Committed)] && SameJobs(w0, w, j)
    && end.Some? && SameSite(j.taskId.value, end.value, w.site)
    && (forall day :: DayFile(w.log, day) == DayFile(w0.log, day) + OfDay(j.events, day))
  }

  /** Every store is as the uninterrupted run would have left it. */
  ghost predicate Reached(w0: World, id: string, w: World)
    requires JustPrepared(w0, id)
  {
    var j, done := w0.journals[id], LiveRun(w0, id, NoCut);
    && done.Some?
    && w.storage == done.value.storage && w.journals == done.value.journals && w.jobs == done.value.jobs
    && SameSite(j.taskId.value, done.value.site, w.site)
    && (forall day :: DayFile(w.log, day) == DayFile(done.value.log, day))
  }

  // ---------------------------------------------------------------- the ingredients

  /** Fresh stores compare with themselves. */
  lemma StartIsComparable(effects: seq<Effect>, taskId: string, sealed: map<Path, Image>, context: Context, s: Site)
    requires WellFormed(s.repo) && taskId in s.tasks && context.base == Some(s.head)
    requires forall i :: 0 <= i < |effects| ==> EffectFresh(s, sealed, context, taskId, effects[i])
    ensures SiteSim(effects, taskId, sealed, context, 0, s, s)
  {
  }

  lemma FreshIsMixture(w: World, id: string)
    requires JustPrepared(w, id)
    ensures var j := w.journals[id];
            SiteSim(j.effects, j.taskId.value, j.context.candidate.manifest, j.context, 0, w.site, w.site)
  {
    var j := w.journals[id];
    assert forall i :: 0 <= i < |j.effects| ==> j.effects[i] in j.effects;
    StartIsComparable(j.effects, j.taskId.value, j.context.candidate.manifest, j.context, w.site);
  }

  /** A mixture raises no conflict. */
  lemma MixtureIsClear(effects: seq<Effect>, taskId: string, sealed: map<Path, Image>, context: Context, u: Site,
                       r: Site)
    requires Orderly(effects, taskId) && SiteSim(effects, taskId, sealed, context, 0, u, r)
    requires Provable(effects, sealed, context, u.ignored)
    ensures FirstVerdict(r, sealed, context, effects) == Clear
  {
    forall e | e in effects
      ensures EffectVerdict(r, sealed, context, e) == Clear
    {
      var i :| 0 <= i < |effects| && effects[i] == e;
      MixedEffectIsClear(effects, taskId, sealed, context, u, r, i);
    }
  }

  lemma MixedEffectIsClear(effects: seq<Effect>, taskId: string, sealed: map<Path, Image>, context: Context,
                           u: Site, r: Site, i: nat)
    requires Orderly(effects, taskId) && SiteSim(effects, taskId, sealed, context, 0, u, r) && i < |effects|
    requires Provable(effects, sealed, context, u.ignored)
    ensures EffectVerdict(r, sealed, context, effects[i]) == Clear
  {
    var e := effects[i];
    assert Owned(e, taskId) && e in effects;
    match e {
      case File(_) => PendingFileIsClear(effects, taskId, sealed, 0, u.repo, r.repo, i);
      case Artifact(_, _, _, _, _, _, _, _) =>
        PendingArtifactIsClear(effects, taskId, sealed, 0, u.artifacts, r, r.tasks[taskId].links, i);
      case CommitChanges(message, _) =>
        NotItsOwnParent(Tip(context, message));
      case CreateTask(id, _) =>
        CreatedAreOthers(effects, taskId);
        if Get(r.tasks, id) != Get(u.tasks, id) {
          assert CreatePending(effects, 0, r.tasks, id);
        }
      case LinkDerived(_, _) =>
      case MoveTask(_, to) =>
        OnlyMove(effects, taskId, i);
        if r.tasks[taskId].state != u.tasks[taskId].state {
          assert MovePending(effects, 0, r.tasks[taskId].state);
        }
    }
  }

  lemma OnlyMove(effects: seq<Effect>, taskId: string, i: nat)
    requires Orderly(effects, taskId) && i < |effects| && effects[i].MoveTask?
    ensures forall k :: 0 <= k < |effects| && effects[k].MoveTask? ==> k == i
  {
    forall k | 0 <= k < |effects| && k != i
      ensures !effects[k].MoveTask?
    {
      if k < i {
        assert Compatible(effects[k], effects[i]);
      } else {
        assert Compatible(effects[i], effects[k]);
      }
    }
  }

  /** At the end every effect but the presentational one is recognised as applied. */
  lemma FinishedEffectIsApplied(effects: seq<Effect>, taskId: string, sealed: map<Path, Image>, context: Context,
                                u: Site, r: Site, i: nat)
    requires Orderly(effects, taskId) && SiteSim(effects, taskId, sealed, context, |effects|, u, r) && i < |effects|
    requires Provable(effects, sealed, context, u.ignored)
    ensures !effects[i].LinkDerived? ==> Applied(u, sealed, context, effects[i])
    ensures EffectVerdict(u, sealed, context, effects[i]) == Clear
  {
    var e := effects[i];
    assert Owned(e, taskId) && e in effects;
    if e.CommitChanges? {
      NotItsOwnParent(Tip(context, e.message));
    }
  }

  /** Presentation decides neither whether an effect is applied nor whether it conflicts. */
  lemma SameSiteSameAnswers(taskId: string, sealed: map<Path, Image>, context: Context, u: Site, r: Site, e: Effect)
    requires SameSite(taskId, u, r) && Owned(e, taskId)
    ensures Applied(u, sealed, context, e) == Applied(r, sealed, context, e)
    ensures EffectVerdict(u, sealed, context, e) == EffectVerdict(r, sealed, context, e)
  {
  }

  /** The uninterrupted run from a fresh journal goes through all its effects. */
  lemma LiveEnd(w0: World, id: string, w: World) returns (u: Site, r: Site)
    requires JustPrepared(w0, id) && MidFlight(w0, id, w)
    ensures var j := w0.journals[id];
            var sealed := j.context.candidate.manifest;
            && RunLive(w0.site, sealed, j.effects) == Some(u)
            && RunReplay(w.site, sealed, j.context, j.effects) == (r, true)
            && SameSite(j.taskId.value, u, r)
            && SiteSim(j.effects, j.taskId.value, sealed, j.context, |j.effects|, u, r)
            && u.ignored == w0.site.ignored
  {
    var j := w0.journals[id];
    var sealed, n := j.context.candidate.manifest, |j.effects|;
    assert forall i :: 0 <= i < n ==> j.effects[i] in j.effects;
    Simulate(j.effects, j.taskId.value, sealed, j.context, n, w0.site, w.site);
    assert j.effects[..n] == j.effects;
    u, r := RunLive(w0.site, sealed, j.effects).value, RunReplay(w.site, sealed, j.context, j.effects).0;
    SitesMeet(j.effects, j.taskId.value, sealed, j.context, u, r);
  }

  lemma EndIsApplied(w0: World, id: string, u: Site, r: Site, s: Site)
    requires JustPrepared(w0, id) && u.ignored == w0.site.ignored
    requires var j := w0.journals[id];
             && SiteSim(j.effects, j.taskId.value, j.context.candidate.manifest, j.context, |j.effects|, u, r)
             && SameSite(j.taskId.value, u, s)
    ensures var j := w0.journals[id];
            var sealed := j.context.candidate.manifest;
            && FirstVerdict(s, sealed, j.context, j.effects) == Clear
            && (forall e :: e in j.effects && !e.LinkDerived? ==> Applied(s, sealed, j.context, e))
            && (CommitMessage(j.effects).Some? ==> CommitExists(s, j.context, CommitMessage(j.effects).value))
  {
    var j := w0.journals[id];
    var sealed := j.context.candidate.manifest;
    forall e | e in j.effects
      ensures EffectVerdict(s, sealed, j.context, e) == Clear
      ensures !e.LinkDerived? ==> Applied(s, sealed, j.context, e)
    {
      var i :| 0 <= i < |j.effects| && j.effects[i] == e;
      FinishedEffectIsApplied(j.effects, j.taskId.value, sealed, j.context, u, r, i);
      SameSiteSameAnswers(j.taskId.value, sealed, j.context, u, s, e);
    }
  }

  lemma {:induction false} HeadStaysWithoutCommits(s: Site, sealed: map<Path, Image>, effects: seq<Effect>)
    requires forall e :: e in effects ==> !e.CommitChanges?
    requires RunLive(s, sealed, effects).Some?
    ensures RunLive(s, sealed, effects).value.head == s.head
  {
    if effects != [] {
      HeadStaysWithoutCommits(s, sealed, effects[..|effects| - 1]);
    }
  }

  /** Accepting the job from the journal's evidence gives the job the live submission writes. */
  lemma SettlesLikeLive(w0: World, id: string, w: World, u: Site)
    requires JustPrepared(w0, id) && id in w.journals
    requires var j := w0.journals[id];
             && RunLive(w0.site, j.context.candidate.manifest, j.effects) == Some(u)
             && SameSite(j.taskId.value, u, w.site) && SameJobs(w0, w, j)
             && (CommitMessage(j.effects).Some? ==> CommitExists(w.site, j.context, CommitMessage(j.effects).value))
    ensures var j := w0.journals[id];
            var settled := Settle(w, j);
            && settled == w.(jobs := settled.jobs)
            && var jobId := j.context.jobId.value;
               settled.jobs == w0.jobs[jobId := w0.jobs[jobId].(status := Accepted, commit := Some(u.head))]
  {
    var j := w0.journals[id];
    if CommitMessage(j.effects).None? {
      HeadStaysWithoutCommits(w0.site, j.context.candidate.manifest, j.effects);
    }
  }

  // ---------------------------------------------------------------- crash points

  /** An uninterrupted run that succeeds, cut anywhere, leaves a journal recovery can deal with. */
  lemma LiveCrash(w0: World, id: string, cut: Cut)
    requires JustPrepared(w0, id) && LiveRun(w0, id, NoCut).Some? && cut != NoCut
    ensures LiveRun(w0, id, cut).Some?
    ensures var w := LiveRun(w0, id, cut).value; MidFlight(w0, id, w) || Unsettled(w0, id, w)
  {
    var j := w0.journals[id];
    var n := |j.effects|;
    assert j.effects[..n] == j.effects;
    if cut.AfterEffects? {
      LiveCrashInEffects(w0, id, |UpTo(j.effects, cut.effects)|);
    } else {
      LiveCrashInEffects(w0, id, n);
      var site := RunLive(w0.site, j.context.candidate.manifest, j.effects).value;
      RunsLive(w0, id, cut, site);
      if cut.AfterRecords? {
        MoreRecords(w0, id, w0.(site := site), cut.records);
      } else {
        EndIsUnsettled(w0, id, w0, site, site);
      }
    }
  }

  lemma MoreRecords(w0: World, id: string, w: World, n: nat)
    requires JustPrepared(w0, id) && MidFlight(w0, id, w)
    ensures MidFlight(w0, id, w.(log := AppendCut(w.log, w0.journals[id].events, n)))
  {
    ExtendsContinues(w0.log, w0.journals[id].events, w.log, n);
  }

  lemma StartIsMidFlight(w0: World, id: string)
    requires JustPrepared(w0, id)
    ensures MidFlight(w0, id, w0)
  {
    FreshIsMixture(w0, id);
  }

  lemma LiveCrashInEffects(w0: World, id: string, k: nat)
    requires JustPrepared(w0, id) && k <= |w0.journals[id].effects|
    ensures MidFlight(w0, id, w0)
    ensures var j := w0.journals[id];
            var site := RunLive(w0.site, j.context.candidate.manifest, j.effects[..k]);
            site.Some? && MidFlight(w0, id, w0.(site := site.value))
  {
    var j := w0.journals[id];
    FreshIsMixture(w0, id);
    CrashesLeaveMixtures(j.effects, j.taskId.value, j.context.candidate.manifest, j.context, k, w0.site, w0.site);
  }

  /** Another interrupted recovery changes nothing about that. */
  lemma RecoveryCrash(w0: World, id: string, w: World, cut: Cut)
    requires JustPrepared(w0, id) && LiveRun(w0, id, NoCut).Some? && cut != NoCut
    requires MidFlight(w0, id, w) || Unsettled(w0, id, w)
    ensures var w' := RecoverRecord(w, id, cut).0; MidFlight(w0, id, w') || Unsettled(w0, id, w')
  {
    if MidFlight(w0, id, w) {
      MidFlightCrash(w0, id, w, cut);
    }
  }

  lemma MidFlightCrash(w0: World, id: string, w: World, cut: Cut)
    requires JustPrepared(w0, id) && LiveRun(w0, id, NoCut).Some? && cut != NoCut && MidFlight(w0, id, w)
    ensures var w' := RecoverRecord(w, id, cut).0; MidFlight(w0, id, w') || Unsettled(w0, id, w')
  {
    var j := w0.journals[id];
    var sealed, n := j.context.candidate.manifest, |j.effects|;
    assert j.effects[..n] == j.effects;
    var u, r := MidFlightReplay(w0, id, w);
    if cut.AfterEffects? {
      ReplayCrashInEffects(w0, id, w, |UpTo(j.effects, cut.effects)|);
    } else {
      RollsForward(w, id, cut, r);
      if cut.AfterRecords? {
        ReplayCrashInEffects(w0, id, w, n);
        MoreRecords(w0, id, w.(site := r), cut.records);
      } else {
        EndIsUnsettled(w0, id, w, u, r);
      }
    }
  }

  /** The replay of a mixture is not stopped, goes through, and meets the live run's end. */
  lemma MidFlightReplay(w0: World, id: string, w: World) returns (u: Site, r: Site)
    requires JustPrepared(w0, id) && LiveRun(w0, id, NoCut).Some? && MidFlight(w0, id, w)
    ensures var j := w0.journals[id];
            var sealed := j.context.candidate.manifest;
            && Recoverable(w, j) && FirstVerdict(w.site, sealed, j.context, j.effects) == Clear
            && RunLive(w0.site, sealed, j.effects) == Some(u)
            && RunReplay(w.site, sealed, j.context, j.effects) == (r, true)
            && SameSite(j.taskId.value, u, r)
            && FinalValid(r, sealed, j.taskId.value, ExpectedState(j.taskId.value, j.effects), j.context)
            && (CommitMessage(j.effects).Some? ==> CommitExists(r, j.context, CommitMessage(j.effects).value))
  {
    var j := w0.journals[id];
    MixtureIsClear(j.effects, j.taskId.value, j.context.candidate.manifest, j.context, w0.site, w.site);
    u, r := LiveEnd(w0, id, w);
    EndIsApplied(w0, id, u, r, r);
    RunsLive(w0, id, NoCut, u);
  }

  lemma EndIsUnsettled(w0: World, id: string, w: World, u: Site, r: Site)
    requires JustPrepared(w0, id) && MidFlight(w0, id, w)
    requires RunLive(w0.site, w0.journals[id].context.candidate.manifest, w0.journals[id].effects) == Some(u)
    requires SameSite(w0.journals[id].taskId.value, u, r)
    ensures var j := w0.journals[id];
            Unsettled(w0, id, w.(site := r, log := AppendMany(w.log, j.events),
                journals := w.journals[id := j.(status := Committed)]))
  {
    ExtendsContinues(w0.log, w0.journals[id].events, w.log, 0);
  }

  lemma ReplayCrashInEffects(w0: World, id: string, w: World, k: nat)
    requires JustPrepared(w0, id) && MidFlight(w0, id, w) && k <= |w0.journals[id].effects|
    ensures var j := w0.journals[id];
            MidFlight(w0, id, w.(site := RunReplay(w.site, j.context.candidate.manifest, j.context, j.effects[..k]).0))
  {
    var j := w0.journals[id];
    FreshIsMixture(w0, id);
    CrashesLeaveMixtures(j.effects, j.taskId.value, j.context.candidate.manifest, j.context, k, w0.site, w.site);
  }

  // ---------------------------------------------------------------- convergence

  /** One complete recovery of the journal reaches the uninterrupted end. */
  lemma RecoveryConverges(w0: World, id: string, w: World)
    requires JustPrepared(w0, id) && LiveRun(w0, id, NoCut).Some?
    requires MidFlight(w0, id, w) || Unsettled(w0, id, w)
    ensures Reached(w0, id, RecoverRecord(w, id, NoCut).0)
  {
    if MidFlight(w0, id, w) {
      MidFlightConverges(w0, id, w);
    } else {
      UnsettledConverges(w0, id, w);
    }
  }

  lemma MidFlightConverges(w0: World, id: string, w: World)
    requires JustPrepared(w0, id) && LiveRun(w0, id, NoCut).Some? && MidFlight(w0, id, w)
    ensures Reached(w0, id, RecoverRecord(w, id, NoCut).0)
  {
    var j := w0.journals[id];
    var u, r := MidFlightReplay(w0, id, w);
    RollsForward(w, id, NoCut, r);
    var w2 := w.(site := r, log := AppendMany(w.log, j.events), journals := w.journals[id := j.(status := Committed)]);
    EndIsUnsettled(w0, id, w, u, r);
    SettledIsReached(w0, id, w2, u);
  }

  lemma SettledIsReached(w0: World, id: string, w: World, u: Site)
    requires JustPrepared(w0, id) && LiveRun(w0, id, NoCut).Some? && Unsettled(w0, id, w)
    requires RunLive(w0.site, w0.journals[id].context.candidate.manifest, w0.journals[id].effects) == Some(u)
    requires var j := w0.journals[id];
             CommitMessage(j.effects).Some? ==> CommitExists(w.site, j.context, CommitMessage(j.effects).value)
    ensures Reached(w0, id, Settle(w, w0.journals[id]))
  {
    var j := w0.journals[id];
    SettlesLikeLive(w0, id, w, u);
    RunsLive(w0, id, NoCut, u);
    ExtendsContinues(w0.log, j.events, w0.log, 0);
  }

  lemma UnsettledConverges(w0: World, id: string, w: World)
    requires JustPrepared(w0, id) && LiveRun(w0, id, NoCut).Some? && Unsettled(w0, id, w)
    ensures Reached(w0, id, RecoverRecord(w, id, NoCut).0)
  {
    var j := w0.journals[id];
    StartIsMidFlight(w0, id);
    var u, r := LiveEnd(w0, id, w0);
    EndIsApplied(w0, id, u, r, w.site);
    RunsLive(w0, id, NoCut, u);
    SettledIsReached(w0, id, w, u);
    SettleIgnoresStatus(w, j);
    assert FinalValid(w.site, j.context.candidate.manifest, j.taskId.value, ExpectedState(j.taskId.value, j.effects),
        j.context);
    ProvenIsSettled(w, id);
  }

  /** A committed journal whose effects and final state check out is settled. */
  lemma ProvenIsSettled(w: World, id: string)
    requires id in w.journals && w.journals[id].status == Committed && Recoverable(w, w.journals[id])
    requires var j := w.journals[id];
             var sealed := j.context.candidate.manifest;
             && FirstVerdict(w.site, sealed, j.context, j.effects) == Clear
             && (forall e :: e in j.effects && !e.LinkDerived? ==> Applied(w.site, sealed, j.context, e))
             && FinalValid(w.site, sealed, j.taskId.value, ExpectedState(j.taskId.value, j.effects), j.context)
    ensures RecoverRecord(w, id, NoCut) == (Settle(w, w.journals[id]), false)
  {
  }

  lemma SettleIgnoresStatus(w: World, j: Journal)
    ensures Settle(w, j.(status := Committed)) == Settle(w, j)
  {
  }

  /** The whole story: a submission crashes anywhere, recovery is interrupted any number of times,
      and the first recovery that runs to its end reaches the state of the submission that never
      crashed, with the journal committed and the job accepted; every later pass is idle. */
  lemma CrashedAcceptanceConverges(w0: World, id: string, crash: Cut, cuts: seq<Cut>)
    requires JustPrepared(w0, id) && LiveRun(w0, id, NoCut).Some?
    requires crash != NoCut && NoCut !in cuts
    ensures LiveRun(w0, id, crash).Some? && id in LiveRun(w0, id, crash).value.journals
    ensures var w := RecoverMany(LiveRun(w0, id, crash).value, id, cuts);
            var w' := RecoverRecord(w, id, NoCut).0;
            && Reached(w0, id, w')
            && w'.journals[id].status == Committed
            && w'.jobs[w'.journals[id].context.jobId.value].status == Accepted
            && (forall more :: RecoverMany(w', id, more) == w')
  {
    LiveCrash(w0, id, crash);
    InterruptedStays(w0, id, LiveRun(w0, id, crash).value, cuts);
    var w := RecoverMany(LiveRun(w0, id, crash).value, id, cuts);
    RecoveryConverges(w0, id, w);
    ReachedIsSettled(w0, id, RecoverRecord(w, id, NoCut).0);
  }

  lemma ReachedIsSettled(w0: World, id: string, w: World)
    requires JustPrepared(w0, id) && Reached(w0, id, w)
    ensures id in w.journals && w.journals[id].status == Committed
    ensures w.journals[id].context.jobId.Some? && w.journals[id].context.jobId.value in w.jobs
    ensures w.jobs[w.journals[id].context.jobId.value].status == Accepted
    ensures forall more :: RecoverMany(w, id, more) == w
  {
    StartIsMidFlight(w0, id);
    var u, r := LiveEnd(w0, id, w0);
    RunsLive(w0, id, NoCut, u);
    forall more
      ensures RecoverMany(w, id, more) == w
    {
      SettledJournalIsLeftAlone(w, id, more);
    }
  }

  lemma {:induction false} InterruptedStays(w0: World, id: string, w: World, cuts: seq<Cut>)
    requires JustPrepared(w0, id) && LiveRun(w0, id, NoCut).Some? && NoCut !in cuts && id in w.journals
    requires MidFlight(w0, id, w) || Unsettled(w0, id, w)
    ensures MidFlight(w0, id, RecoverMany(w, id, cuts)) || Unsettled(w0, id, RecoverMany(w, id, cuts))
  {
    if cuts != [] {
      InterruptedStays(w0, id, w, cuts[..|cuts| - 1]);
      RecoveryCrash(w0, id, RecoverMany(w, id, cuts[..|cuts| - 1]), cuts[|cuts| - 1]);
    }
  }
}
