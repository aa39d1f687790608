// What runs of the attempt budget can lead to: records that no later reconciliation settles, an account that
// shrinks, launches above the limit, and a launch the account does not know.
module AttemptHistories {
  import opened Basics
  import opened AttemptRecords
  import opened AttemptBudget
  import opened AttemptAccount

  // ---------------------------------------------------------------- what a crashed reconciliation leaves

  /** A job that is over and that nobody executes. */
  predicate LeftBehind(s: State, id: string) {
    Grounded(s, id) && Terminal(s.jobs[id].status)
  }

  /** Writing this record settled would change what is stored. */
  predicate Changes(records: seq<Attempt>, a: Attempt) {
    Incomplete(a.status) && 1 <= a.number <= |records| && records[a.number - 1] != Settled(a)
  }

  /** The reconciliation has not read the records yet, or still has to write one back. */
  predicate StillWrites(records: seq<Attempt>, phase: Phase) {
    !phase.Settling? || exists k :: phase.next <= k < |phase.snapshot| && Changes(records, phase.snapshot[k])
  }

  /** No reconciliation at work on the job will still change its records. */
  predicate Unattended(s: State, id: string) {
    id in s.jobs && forall pass :: pass in s.reconcilers && s.reconcilers[pass].id == id
                      ==> !StillWrites(s.jobs[id].records, s.reconcilers[pass].phase)
  }

  /** Nobody makes the job active again. */
  predicate Revives(a: Action, id: string) {
    a.Outside? && a.id == id && !Terminal(a.status)
  }

  predicate Unrevived(more: seq<Action>, id: string) {
    forall k :: 0 <= k < |more| ==> !Revives(more[k], id)
  }

  lemma IdleSettlement(s: State, id: string, pass: nat)
    requires Structure(s) && Unattended(s, id) && SettlingAt(s, id, pass)
    ensures SettleRead(s, id, pass).jobs == s.jobs
  {
    var r, a := s.reconcilers[pass], NextRead(s, id, pass);
    assert ReconcilerOk(s, r) && Fits(s, id);
    assert InPlace(a, id, r.phase.next) && InPlace(s.jobs[id].records[r.phase.next], id, r.phase.next);
    if Incomplete(a.status) {
      UpsertReplaces(id, s.jobs[id].records, Settled(a));
      assert !Changes(s.jobs[id].records, r.phase.snapshot[r.phase.next]);
      assert Upsert(s.jobs[id].records, Settled(a)) == s.jobs[id].records;
    }
  }

  lemma ReconcilersWhenIdle(s: State, a: Action, id: string)
    requires Structure(s) && Unattended(s, id) && LeftBehind(s, id)
    requires a.ListOrphan? || a.FailOrphan? || a.LoadOrphan? || a.SettleOrphan? || a.LeaveOrphan?
    requires a.id == id
    ensures var t := Reconcile(s, a);
            t.jobs == s.jobs && t.flights == s.flights && Unattended(t, id)
  {
    if a.SettleOrphan? && SettlingAt(s, id, a.pass) {
      IdleSettlement(s, id, a.pass);
    }
    var t := Reconcile(s, a);
    assert t.jobs == s.jobs;
    forall pass | pass in t.reconcilers && t.reconcilers[pass].id == id
      ensures !StillWrites(t.jobs[id].records, t.reconcilers[pass].phase)
    {
      assert pass in s.reconcilers && !StillWrites(s.jobs[id].records, s.reconcilers[pass].phase);
    }
  }

  lemma LeftBehindAtHome(limit: int, s: State, a: Action, id: string)
    requires AllListed(s) && Structure(s) && LeftBehind(s, id) && Unattended(s, id) && !a.Create? && a.id == id
    requires !Revives(a, id)
    ensures var t := Step(limit, s, a);
            LeftBehind(t, id) && Unattended(t, id) && t.jobs[id].records == s.jobs[id].records
  {
    if a.ListOrphan? || a.FailOrphan? || a.LoadOrphan? || a.SettleOrphan? || a.LeaveOrphan? {
      ReconcilersWhenIdle(s, a, id);
    } else {
      assert s.flights - {id} == s.flights;
    }
  }

  lemma ReconcilingElsewhere(limit: int, s: State, a: Action, id: string, pass: nat)
    requires AllListed(s) && (a.Create? || a.id != id)
    requires pass in Step(limit, s, a).reconcilers && Step(limit, s, a).reconcilers[pass].id == id
    ensures pass in s.reconcilers && s.reconcilers[pass] == Step(limit, s, a).reconcilers[pass]
  {
  }

  lemma LeftBehindElsewhere(limit: int, s: State, a: Action, id: string)
    requires AllListed(s) && Structure(s) && LeftBehind(s, id) && (a.Create? || a.id != id)
    ensures var t := Step(limit, s, a);
            LeftBehind(t, id) && t.jobs[id] == s.jobs[id]
  {
    if !a.Create? {
      if a.id in s.jobs {
        StepSummary(limit, s, a);
        SummaryKeeps(limit, s, a, Step(limit, s, a));
      } else {
        NobodySteps(limit, s, a);
      }
    }
  }

  lemma LeftBehindStays(limit: int, s: State, a: Action, id: string)
    requires AllListed(s) && Structure(s) && LeftBehind(s, id) && Unattended(s, id) && !Revives(a, id)
    ensures var t := Step(limit, s, a);
            LeftBehind(t, id) && Unattended(t, id) && t.jobs[id].records == s.jobs[id].records
  {
    if a.Create? || a.id != id {
      LeftBehindElsewhere(limit, s, a, id);
      var t := Step(limit, s, a);
      forall pass | pass in t.reconcilers && t.reconcilers[pass].id == id
        ensures !StillWrites(t.jobs[id].records, t.reconcilers[pass].phase)
      {
        ReconcilingElsewhere(limit, s, a, id, pass);
      }
    } else {
      LeftBehindAtHome(limit, s, a, id);
    }
  }

  /** A job that is over, with these records, and no reconciliation that will still change them. */
  predicate Rests(s: State, id: string, records: seq<Attempt>) {
    LeftBehind(s, id) && Unattended(s, id) && s.jobs[id].records == records
  }

  lemma RestsOn(limit: int, actions: seq<Action>, a: Action, id: string, records: seq<Attempt>)
    requires Rests(Run(limit, actions), id, records) && !Revives(a, id)
    ensures Rests(Run(limit, actions + [a]), id, records)
  {
    RunsKeepTheChain(limit, actions);
    LeftBehindStays(limit, Run(limit, actions), a, id);
    RunSnoc(limit, actions, a);
  }

  lemma {:induction false} NobodySettles(limit: int, actions: seq<Action>, more: seq<Action>, id: string,
                                         records: seq<Attempt>)
    requires Rests(Run(limit, actions), id, records) && Unrevived(more, id)
    ensures Rests(Run(limit, actions + more), id, records)
    decreases |more|
  {
    if more == [] {
      assert actions + more == actions;
    } else {
      var init, last := more[..|more| - 1], more[|more| - 1];
      NobodySettles(limit, actions, init, id, records);
      RestsOn(limit, actions + init, last, id, records);
      assert actions + more == actions + init + [last];
    }
  }

  /** Some continuation that does not revive the job leaves it with other records. */
  ghost predicate CanBecomeOther(limit: int, actions: seq<Action>, id: string, records: seq<Attempt>) {
    exists more :: Unrevived(more, id) && id in Run(limit, actions + more).jobs
                   && Run(limit, actions + more).jobs[id].records != records
  }

  lemma OtherLater(limit: int, actions: seq<Action>, a: Action, id: string, records: seq<Attempt>)
    requires CanBecomeOther(limit, actions + [a], id, records) && !Revives(a, id)
    ensures CanBecomeOther(limit, actions, id, records)
  {
    var more :| Unrevived(more, id) && id in Run(limit, actions + [a] + more).jobs
        && Run(limit, actions + [a] + more).jobs[id].records != records;
    assert actions + [a] + more == actions + ([a] + more);
    assert Unrevived([a] + more, id);
  }

  lemma OtherNow(limit: int, actions: seq<Action>, id: string, records: seq<Attempt>)
    requires id in Run(limit, actions).jobs && Run(limit, actions).jobs[id].records != records
    ensures CanBecomeOther(limit, actions, id, records)
  {
    assert actions + [] == actions && Unrevived([], id);
  }

  /** What settling the next record read does, seen from the job. */
  lemma SettlesNext(limit: int, s: State, id: string, pass: nat)
    requires AllListed(s) && Structure(s) && SettlingAt(s, id, pass)
    ensures var t, phase := Step(limit, s, SettleOrphan(id, pass)), s.reconcilers[pass].phase;
            && At(t, id, pass) && t.reconcilers[pass].phase == phase.(next := phase.next + 1)
            && (t.jobs[id].records != s.jobs[id].records <==> Changes(s.jobs[id].records, NextRead(s, id, pass)))
  {
    var phase := s.reconcilers[pass].phase;
    assert ReconcilerOk(s, s.reconcilers[pass]) && Fits(s, id);
    ReadInChain(s.jobs[id], phase);
  }

  /** The record at `k` of what a pass has read will be written and change what is stored. */
  predicate AwaitsChange(s: State, id: string, pass: nat, k: nat) {
    && At(s, id, pass) && s.reconcilers[pass].phase.Settling?
    && s.reconcilers[pass].phase.next <= k < |s.reconcilers[pass].phase.snapshot|
    && Changes(s.jobs[id].records, s.reconcilers[pass].phase.snapshot[k])
  }

  function StillToGo(s: State, id: string, pass: nat, k: nat): nat
    requires AwaitsChange(s, id, pass, k)
  {
    k - s.reconcilers[pass].phase.next
  }

  lemma ChangesOrAwaits(limit: int, s: State, id: string, pass: nat, k: nat)
    requires AllListed(s) && Structure(s) && AwaitsChange(s, id, pass, k)
    ensures var t := Step(limit, s, SettleOrphan(id, pass));
            && id in t.jobs
            && (t.jobs[id].records != s.jobs[id].records
                || (AwaitsChange(t, id, pass, k) && StillToGo(t, id, pass, k) < StillToGo(s, id, pass, k)))
  {
    SettlesNext(limit, s, id, pass);
  }

  lemma {:induction false} SettlingReaches(limit: int, actions: seq<Action>, id: string, pass: nat, k: nat)
    requires AwaitsChange(Run(limit, actions), id, pass, k)
    ensures CanBecomeOther(limit, actions, id, Run(limit, actions).jobs[id].records)
    decreases StillToGo(Run(limit, actions), id, pass, k)
  {
    var records, a := Run(limit, actions).jobs[id].records, SettleOrphan(id, pass);
    RunsKeepTheChain(limit, actions);
    ChangesOrAwaits(limit, Run(limit, actions), id, pass, k);
    RunSnoc(limit, actions, a);
    if Run(limit, actions + [a]).jobs[id].records != records {
      OtherNow(limit, actions + [a], id, records);
    } else {
      SettlingReaches(limit, actions + [a], id, pass, k);
    }
    OtherLater(limit, actions, a, id, records);
  }

  predicate HasIncomplete(records: seq<Attempt>) {
    exists k :: 0 <= k < |records| && Incomplete(records[k].status)
  }

  lemma LoadingAwaits(limit: int, s: State, id: string, pass: nat) returns (k: nat)
    requires AllListed(s) && Structure(s) && At(s, id, pass) && s.reconcilers[pass].phase.Failed?
    requires HasIncomplete(s.jobs[id].records)
    ensures var t := Step(limit, s, LoadOrphan(id, pass));
            AwaitsChange(t, id, pass, k) && t.jobs == s.jobs
  {
    k :| 0 <= k < |s.jobs[id].records| && Incomplete(s.jobs[id].records[k].status);
    assert Fits(s, id);
    assert InPlace(s.jobs[id].records[k], id, k);
  }

  lemma FailedReaches(limit: int, actions: seq<Action>, id: string, pass: nat)
    requires var s := Run(limit, actions);
             At(s, id, pass) && s.reconcilers[pass].phase.Failed? && HasIncomplete(s.jobs[id].records)
    ensures CanBecomeOther(limit, actions, id, Run(limit, actions).jobs[id].records)
  {
    var a := LoadOrphan(id, pass);
    RunsKeepTheChain(limit, actions);
    var k := LoadingAwaits(limit, Run(limit, actions), id, pass);
    RunSnoc(limit, actions, a);
    SettlingReaches(limit, actions + [a], id, pass, k);
    OtherLater(limit, actions, a, id, Run(limit, actions).jobs[id].records);
  }

  lemma ListedReaches(limit: int, actions: seq<Action>, id: string, pass: nat)
    requires var s := Run(limit, actions);
             At(s, id, pass) && s.reconcilers[pass].phase.Listed? && HasIncomplete(s.jobs[id].records)
    ensures CanBecomeOther(limit, actions, id, Run(limit, actions).jobs[id].records)
  {
    var a := FailOrphan(id, pass);
    RunSnoc(limit, actions, a);
    FailedReaches(limit, actions + [a], id, pass);
    OtherLater(limit, actions, a, id, Run(limit, actions).jobs[id].records);
  }

  /** The incomplete records of a job that is over stay as they are, whatever is run afterwards short of making
      the job active again, if and only if no reconciliation at work on it has still to read or change them. */
  lemma LeftIncompleteIff(limit: int, actions: seq<Action>, id: string)
    requires LeftBehind(Run(limit, actions), id) && HasIncomplete(Run(limit, actions).jobs[id].records)
    ensures (forall more :: Unrevived(more, id) ==>
               id in Run(limit, actions + more).jobs
               && Run(limit, actions + more).jobs[id].records == Run(limit, actions).jobs[id].records)
            <==> Unattended(Run(limit, actions), id)
  {
    var s := Run(limit, actions);
    if Unattended(s, id) {
      forall more | Unrevived(more, id)
        ensures id in Run(limit, actions + more).jobs
                && Run(limit, actions + more).jobs[id].records == s.jobs[id].records
      {
        NobodySettles(limit, actions, more, id, s.jobs[id].records);
      }
    } else {
      var pass :| pass in s.reconcilers && s.reconcilers[pass].id == id
          && StillWrites(s.jobs[id].records, s.reconcilers[pass].phase);
      var phase := s.reconcilers[pass].phase;
      match phase
      case Listed => ListedReaches(limit, actions, id, pass);
      case Failed => FailedReaches(limit, actions, id, pass);
      case Settling(snapshot, next) =>
        var k :| next <= k < |snapshot| && Changes(s.jobs[id].records, snapshot[k]);
        SettlingReaches(limit, actions, id, pass, k);
    }
  }

  // ---------------------------------------------------------------- reachable states

  /** Some run ends in this state, without a stale settlement. */
  ghost predicate Reachable(limit: int, s: State) {
    exists actions :: Run(limit, actions) == s && NeverStale(limit, actions)
  }

  lemma ReachableIsOrdered(limit: int, s: State)
    requires Reachable(limit, s)
    ensures AllListed(s) && Structure(s)
  {
    var actions :| Run(limit, actions) == s && NeverStale(limit, actions);
    RunsKeepTheChain(limit, actions);
  }

  lemma ReachableAtFirst(limit: int)
    ensures Reachable(limit, EMPTY)
  {
    assert Run(limit, []) == EMPTY && NeverStale(limit, []);
  }

  lemma ReachableNext(limit: int, s: State, a: Action)
    requires Reachable(limit, s) && !Stale(s, a)
    ensures AllListed(s) && Reachable(limit, Step(limit, s, a))
  {
    var actions :| Run(limit, actions) == s && NeverStale(limit, actions);
    var more := actions + [a];
    RunSnoc(limit, actions, a);
    forall k | 0 <= k < |more|
      ensures !Stale(StateAt(limit, more, k), more[k])
    {
      assert more[..k] == actions[..k];
      StateAtEnd(limit, actions);
    }
  }

  // Single steps, so that the runs below do not look at all of them again.

  lemma StepsOfALaunch(limit: int, s: State, id: string)
    requires AllListed(s)
    ensures In(s, id, Checked) ==> Step(limit, s, Admit(id)) == RecordAdmission(s, id)
    ensures In(s, id, Counted) && s.flights[id].open != [] ==> Step(limit, s, MarkRunning(id)) == MarkInnermost(s, id)
    ensures In(s, id, Marked) ==> Step(limit, s, LaunchWorker(id)) == Launching(s, id)
    ensures In(s, id, Again) ==> Step(limit, s, Reload(id)) == LoadAgain(s, id)
  {
  }

  lemma StepsOfAPass(limit: int, s: State, id: string, pass: nat)
    requires AllListed(s) && id in s.jobs
    ensures pass !in s.reconcilers && Orphanable(s.jobs[id].status) ==>
              Step(limit, s, ListOrphan(id, pass)) == Advance(s, id, pass, Phase.Listed)
    ensures pass in s.reconcilers && s.reconcilers[pass] == Reconciler(id, Phase.Listed) ==>
              Step(limit, s, FailOrphan(id, pass))
              == Advance(Put(s, id, s.jobs[id].(status := JobFailed)), id, pass, Phase.Failed)
    ensures pass in s.reconcilers && s.reconcilers[pass] == Reconciler(id, Phase.Failed) ==>
              Step(limit, s, LoadOrphan(id, pass)) == Advance(s, id, pass, Settling(s.jobs[id].records, 0))
    ensures At(s, id, pass) ==> Step(limit, s, LeaveOrphan(id, pass)) == s.(reconcilers := s.reconcilers - {pass})
  {
  }

  lemma StepsOfOthers(limit: int, s: State, id: string, status: JobStatus, ready: bool)
    requires AllListed(s) && id in s.jobs
    ensures Step(limit, s, Crash(id)) == Land(s, id)
    ensures Step(limit, s, Outside(id, status, ready))
            == Put(s, id, s.jobs[id].(status := status, repairReady := ready))
  {
  }

  lemma StepIsReachable(limit: int, s: State, a: Action, t: State)
    requires Reachable(limit, s) && !a.SettleOrphan? && AllListed(s) && t == Step(limit, s, a)
    ensures Reachable(limit, t)
  {
    ReachableNext(limit, s, a);
  }

  // ---------------------------------------------------------------- launches above the limit

  /** An executor at a stage, working on a job without frozen inputs. */
  predicate WorksOn(s: State, id: string, work: Work, revision: string, stage: Stage) {
    && In(s, id, stage) && s.flights[id].revision == revision
    && s.jobs[id].work == work && s.jobs[id].frozen.None?
  }

  /** Its job has `n` recorded attempts, all of this revision. */
  predicate HasAttempts(s: State, id: string, work: Work, revision: string, n: nat, stage: Stage) {
    && WorksOn(s, id, work, revision, stage)
    && s.jobs[id].attempts == |s.jobs[id].records| == n == CountRevision(s.jobs[id].records, revision)
  }

  /** Nothing but this job and its executor changes, and this many launches are added. */
  predicate LaunchesHere(s: State, t: State, id: string, launches: seq<Launch>) {
    && t.listing == s.listing && t.reconcilers == s.reconcilers && t.launches == s.launches + launches
    && id in s.jobs && id in t.jobs && id in s.flights && id in t.flights
    && t.jobs == s.jobs[id := t.jobs[id]] && t.flights == s.flights[id := t.flights[id]]
  }

  lemma AdmittedNext(s: State, id: string, work: Work, revision: string, n: nat) returns (t: State)
    requires JobsOk(s) && HasAttempts(s, id, work, revision, n, Checked)
    ensures t == RecordAdmission(s, id) && LaunchesHere(s, t, id, []) && In(t, id, AdmittedStage)
    ensures t.flights[id].revision == revision && t.flights[id].open != []
    ensures t.jobs[id] == s.jobs[id].(records := t.jobs[id].records)
    ensures |t.jobs[id].records| == n + 1 == CountRevision(t.jobs[id].records, revision)
    ensures t.jobs[id].records[n] == Admission(s.jobs[id], revision)
  {
    t := RecordAdmission(s, id);
    AdmitAdmits(s, id);
    AdmittedCount(s.jobs[id], s.flights[id], t.jobs[id], revision);
  }

  lemma CountedNext(limit: int, s: State, id: string) returns (t: State)
    requires AllListed(s) && In(s, id, AdmittedStage)
    ensures t == Step(limit, s, Count(id)) && LaunchesHere(s, t, id, []) && In(t, id, Counted)
    ensures t.flights[id] == s.flights[id].(stage := Counted)
    ensures t.jobs[id] == s.jobs[id].(status := JobRunning, attempts := s.jobs[id].attempts + 1,
                                      repairReady := t.jobs[id].repairReady)
  {
    t := Step(limit, s, Count(id));
  }

  lemma MarkedNext(s: State, id: string, revision: string) returns (t: State)
    requires AllListed(s) && JobsOk(s) && In(s, id, Counted) && s.flights[id].open != []
    ensures t == MarkInnermost(s, id) && LaunchesHere(s, t, id, []) && In(t, id, Marked)
    ensures t.flights[id].revision == s.flights[id].revision
    ensures t.jobs[id] == s.jobs[id].(records := t.jobs[id].records)
    ensures SameRevisions(s.jobs[id].records, t.jobs[id].records)
    ensures CountRevision(t.jobs[id].records, revision) == CountRevision(s.jobs[id].records, revision)
  {
    t := MarkInnermost(s, id);
    MarkQuiet(0, s, id);
    SameCount(s.jobs[id].records, t.jobs[id].records, revision);
  }

  lemma LaunchesHereAgain(s: State, t: State, u: State, id: string, first: seq<Launch>, second: seq<Launch>)
    requires LaunchesHere(s, t, id, first) && LaunchesHere(t, u, id, second)
    ensures LaunchesHere(s, u, id, first + second)
  {
    assert s.jobs[id := t.jobs[id]][id := u.jobs[id]] == s.jobs[id := u.jobs[id]];
    assert s.flights[id := t.flights[id]][id := u.flights[id]] == s.flights[id := u.flights[id]];
  }

  lemma AdmittedAndCounted(limit: int, s: State, id: string, work: Work, revision: string, n: nat) returns (t: State)
    requires Reachable(limit, s) && HasAttempts(s, id, work, revision, n, Checked)
    ensures Reachable(limit, t) && LaunchesHere(s, t, id, [])
    ensures HasAttempts(t, id, work, revision, n + 1, Counted) && t.flights[id].open != []
  {
    ReachableIsOrdered(limit, s);
    var u := AdmittedNext(s, id, work, revision, n);
    StepsOfALaunch(limit, s, id);
    StepIsReachable(limit, s, Admit(id), u);
    ReachableNext(limit, u, Count(id));
    t := CountedNext(limit, u, id);
    LaunchesHereAgain(s, u, t, id, [], []);
  }

  lemma LaunchedNext(s: State, id: string, work: Work, revision: string) returns (t: State)
    requires WorksOn(s, id, work, revision, Marked)
    ensures t == Launching(s, id) && LaunchesHere(s, t, id, [Launch(work, revision)]) && t.jobs == s.jobs
    ensures WorksOn(t, id, work, revision, Launched)
  {
    t := Launching(s, id);
    assert t.jobs == s.jobs[id := t.jobs[id]];
  }

  lemma MarkedAndLaunched(limit: int, s: State, id: string, work: Work, revision: string, n: nat) returns (t: State)
    requires Reachable(limit, s) && HasAttempts(s, id, work, revision, n, Counted) && s.flights[id].open != []
    ensures Reachable(limit, t) && LaunchesHere(s, t, id, [Launch(work, revision)])
    ensures HasAttempts(t, id, work, revision, n, Launched)
  {
    ReachableIsOrdered(limit, s);
    var u := MarkedNext(s, id, revision);
    StepsOfALaunch(limit, s, id);
    StepIsReachable(limit, s, MarkRunning(id), u);
    t := LaunchedNext(u, id, work, revision);
    StepsOfALaunch(limit, u, id);
    StepIsReachable(limit, u, LaunchWorker(id), t);
    LaunchesHereAgain(s, u, t, id, [], [Launch(work, revision)]);
  }

  /** A check is enough for a launch, whatever has become of the job or the account since. */
  lemma CheckedIsLaunched(limit: int, s: State, id: string, work: Work, revision: string, n: nat) returns (t: State)
    requires Reachable(limit, s) && HasAttempts(s, id, work, revision, n, Checked)
    ensures Reachable(limit, t) && LaunchesHere(s, t, id, [Launch(work, revision)])
    ensures HasAttempts(t, id, work, revision, n + 1, Launched)
  {
    var u := AdmittedAndCounted(limit, s, id, work, revision, n);
    t := MarkedAndLaunched(limit, u, id, work, revision, n + 1);
    LaunchesHereAgain(s, u, t, id, [], [Launch(work, revision)]);
  }

  function NewJob(id: string, work: Work): Job {
    Job(id, work, JobPending, 0, [], None, false)
  }

  /** What a job without frozen inputs counts for. */
  predicate Counts(s: State, id: string, work: Work, revision: string, n: nat) {
    && id in s.jobs && s.jobs[id].work == work && s.jobs[id].frozen.None?
    && CountRevision(s.jobs[id].records, revision) == n
    && (s.jobs[id].records == [] ==> s.jobs[id].status == JobPending)
  }

  lemma ConsumedByOne(s: State, a: string, work: Work, revision: string, n: nat)
    requires AllListed(s) && s.listing == [a] && Counts(s, a, work, revision, n)
    ensures Consumed(s.listing, s.jobs, work, revision) == n
  {
    assert s.listing[..0] == [];
  }

  lemma ConsumedByTwo(s: State, a: string, b: string, work: Work, revision: string, n: nat, m: nat)
    requires AllListed(s) && s.listing == [a, b] && Counts(s, a, work, revision, n) && Counts(s, b, work, revision, m)
    ensures Consumed(s.listing, s.jobs, work, revision) == n + m
  {
    assert s.listing[..1] == [a] && [a][..0] == [];
    assert Consumed([a], s.jobs, work, revision) == n;
  }

  /** A new job is started and checked while the account has room. */
  lemma CreatedAndStarted(limit: int, s: State, id: string, work: Work) returns (t: State)
    requires Reachable(limit, s) && id !in s.jobs && Fresh(s, NewJob(id, work))
    ensures Reachable(limit, t) && t.listing == s.listing + [id] && t.jobs == s.jobs[id := NewJob(id, work)]
    ensures t.flights == s.flights[id := Flight(Loaded, "", [], false)]
    ensures t.launches == s.launches && t.reconcilers == s.reconcilers
  {
    ReachableIsOrdered(limit, s);
    assert id !in s.flights;
    ReachableNext(limit, s, Create(NewJob(id, work)));
    var u := Step(limit, s, Create(NewJob(id, work)));
    ReachableNext(limit, u, Start(id));
    t := Step(limit, u, Start(id));
  }

  lemma LoadedIsChecked(limit: int, s: State, id: string, work: Work, revision: string, n: nat) returns (t: State)
    requires Reachable(limit, s) && In(s, id, Loaded) && s.jobs[id].work == work && s.jobs[id].frozen.None?
    requires AllListed(s) && Affordable(limit, s, work, revision)
    requires s.jobs[id].attempts == |s.jobs[id].records| == n == CountRevision(s.jobs[id].records, revision)
    ensures Reachable(limit, t) && LaunchesHere(s, t, id, []) && t.jobs == s.jobs
    ensures HasAttempts(t, id, work, revision, n, Checked)
  {
    ReachableNext(limit, s, Claim(id, revision));
    t := Step(limit, s, Claim(id, revision));
    assert t.jobs == s.jobs[id := t.jobs[id]];
  }

  /** The first worker of a job has been launched under limit two. */
  lemma FirstLaunch(a: string, work: Work, revision: string) returns (s: State)
    ensures Reachable(2, s) && s.listing == [a] && HasAttempts(s, a, work, revision, 1, Launched)
    ensures s.launches == [Launch(work, revision)]
  {
    ReachableAtFirst(2);
    var t := CreatedAndStarted(2, EMPTY, a, work);
    ReachableIsOrdered(2, t);
    ConsumedByOne(t, a, work, revision, 0);
    t := LoadedIsChecked(2, t, a, work, revision, 0);
    s := CheckedIsLaunched(2, t, a, work, revision, 0);
  }

  lemma StatusNext(limit: int, s: State, id: string, work: Work, revision: string, n: nat, stage: Stage,
                   status: JobStatus, ready: bool) returns (t: State)
    requires Reachable(limit, s) && HasAttempts(s, id, work, revision, n, stage)
    ensures Reachable(limit, t) && LaunchesHere(s, t, id, []) && HasAttempts(t, id, work, revision, n, stage)
    ensures t.jobs[id].status == status && t.jobs[id].repairReady == ready
  {
    ReachableNext(limit, s, Outside(id, status, ready));
    t := Step(limit, s, Outside(id, status, ready));
    assert t.flights == s.flights[id := t.flights[id]];
  }

  /** The executor of a rejected job that is ready for repair loads it again while the account has room. */
  lemma ExitedAgain(limit: int, s: State, id: string, work: Work, revision: string, n: nat) returns (t: State)
    requires AllListed(s) && HasAttempts(s, id, work, revision, n, Launched) && NeedsRepair(s.jobs[id])
    requires Affordable(limit, s, work, revision)
    ensures t == Step(limit, s, Exit(id)) == Fly(s, id, s.flights[id].(stage := Again))
    ensures t.jobs == s.jobs && t.listing == s.listing && HasAttempts(t, id, work, revision, n, Again)
  {
    t := Step(limit, s, Exit(id));
  }

  lemma LoadedAgain(s: State, id: string, work: Work, revision: string, n: nat) returns (t: State)
    requires HasAttempts(s, id, work, revision, n, Again) && NeedsRepair(s.jobs[id])
    ensures t == LoadAgain(s, id) && t.jobs == s.jobs && t.listing == s.listing
    ensures HasAttempts(t, id, work, revision, n, Loaded) && LaunchesHere(s, t, id, [])
  {
    t := LoadAgain(s, id);
    assert t.jobs == s.jobs[id := t.jobs[id]];
  }

  lemma RepairIsLoaded(limit: int, s: State, id: string, work: Work, revision: string, n: nat) returns (t: State)
    requires Reachable(limit, s) && HasAttempts(s, id, work, revision, n, Launched) && NeedsRepair(s.jobs[id])
    requires AllListed(s) && Affordable(limit, s, work, revision)
    ensures Reachable(limit, t) && LaunchesHere(s, t, id, []) && t.jobs == s.jobs
    ensures HasAttempts(t, id, work, revision, n, Loaded)
  {
    ReachableNext(limit, s, Exit(id));
    var u := ExitedAgain(limit, s, id, work, revision, n);
    t := LoadedAgain(u, id, work, revision, n);
    StepsOfALaunch(limit, u, id);
    StepIsReachable(limit, u, Reload(id), t);
    assert u.jobs == s.jobs[id := u.jobs[id]];
    LaunchesHereAgain(s, u, t, id, [], []);
  }

  /** Its completion is rejected, and the executor has checked the account for the repair. */
  lemma RepairIsChecked(s: State, a: string, work: Work, revision: string) returns (t: State)
    requires Reachable(2, s) && s.listing == [a] && HasAttempts(s, a, work, revision, 1, Launched)
    ensures Reachable(2, t) && LaunchesHere(s, t, a, []) && HasAttempts(t, a, work, revision, 1, Checked)
  {
    var u := StatusNext(2, s, a, work, revision, 1, Launched, JobRejected, true);
    ReachableIsOrdered(2, u);
    ConsumedByOne(u, a, work, revision, 1);
    var v := RepairIsLoaded(2, u, a, work, revision, 1);
    LaunchesHereAgain(s, u, v, a, [], []);
    ConsumedByOne(v, a, work, revision, 1);
    t := LoadedIsChecked(2, v, a, work, revision, 1);
    LaunchesHereAgain(s, v, t, a, [], []);
  }

  /** Somebody cancels the job being prepared; its task gets a second job, whose check passes as well. */
  lemma BothAreChecked(s: State, a: string, b: string, work: Work, revision: string) returns (t: State)
    requires Reachable(2, s) && s.listing == [a] && HasAttempts(s, a, work, revision, 1, Checked) && a != b
    ensures Reachable(2, t) && t.listing == [a, b] && t.launches == s.launches
    ensures HasAttempts(t, a, work, revision, 1, Checked) && HasAttempts(t, b, work, revision, 0, Checked)
  {
    ReachableIsOrdered(2, s);
    var u := StatusNext(2, s, a, work, revision, 1, Checked, JobCancelled, false);
    OnlyCancelled(u, a, b, work);
    var v := CreatedAndStarted(2, u, b, work);
    t := SecondIsChecked(v, a, b, work, revision);
  }

  lemma SecondIsChecked(s: State, a: string, b: string, work: Work, revision: string) returns (t: State)
    requires Reachable(2, s) && s.listing == [a, b] && HasAttempts(s, a, work, revision, 1, Checked) && a != b
    requires In(s, b, Loaded) && s.jobs[b] == NewJob(b, work)
    ensures Reachable(2, t) && t.listing == [a, b] && t.launches == s.launches
    ensures HasAttempts(t, a, work, revision, 1, Checked) && HasAttempts(t, b, work, revision, 0, Checked)
  {
    ReachableIsOrdered(2, s);
    ConsumedByTwo(s, a, b, work, revision, 1, 0);
    t := LoadedIsChecked(2, s, b, work, revision, 0);
  }

  lemma OnlyCancelled(s: State, a: string, b: string, work: Work)
    requires s.listing == [a] && a != b && a in s.jobs && s.jobs[a].status == JobCancelled && Reachable(2, s)
    ensures b !in s.jobs && Fresh(s, NewJob(b, work))
  {
    ReachableIsOrdered(2, s);
    assert b !in s.listing;
  }

  lemma OneMoreLaunch(launches: seq<Launch>, work: Work, revision: string)
    ensures LaunchCount(launches + [Launch(work, revision)], work, revision)
            == LaunchCount(launches, work, revision) + 1
  {
    assert (launches + [Launch(work, revision)])[..|launches|] == launches;
  }

  lemma TwoMoreLaunches(limit: int, s: State, a: string, b: string, work: Work, revision: string, n: nat, m: nat)
    returns (t: State)
    requires Reachable(limit, s) && a != b
    requires HasAttempts(s, a, work, revision, n, Checked) && HasAttempts(s, b, work, revision, m, Checked)
    ensures Reachable(limit, t)
    ensures LaunchCount(t.launches, work, revision) == LaunchCount(s.launches, work, revision) + 2
  {
    var u := CheckedIsLaunched(limit, s, a, work, revision, n);
    OneMoreLaunch(s.launches, work, revision);
    t := CheckedIsLaunched(limit, u, b, work, revision, m);
    OneMoreLaunch(u.launches, work, revision);
  }

  /** Under limit two, three workers are launched for the same work and revision: a job being prepared is
      cancelled, a second one created, and both executors go by the check they made. */
  lemma LaunchesCanExceedTheLimit(a: string, b: string, work: Work, revision: string)
    requires a != b
    ensures exists s :: Reachable(2, s) && LaunchCount(s.launches, work, revision) == 3
  {
    var s := FirstLaunch(a, work, revision);
    OneMoreLaunch([], work, revision);
    assert s.launches == [] + [Launch(work, revision)];
    var checked := RepairIsChecked(s, a, work, revision);
    checked := BothAreChecked(checked, a, b, work, revision);
    assert checked.launches == s.launches;
    var t := TwoMoreLaunches(2, checked, a, b, work, revision, 1, 0);
    assert Reachable(2, t) && LaunchCount(t.launches, work, revision) == 3;
  }

  // ---------------------------------------------------------------- an admission whose executor crashed

  /** The only job, with one record that was admitted and never counted, and nobody executing it. */
  predicate Abandoned(s: State, id: string, work: Work, revision: string, status: JobStatus) {
    && s.listing == [id] && Grounded(s, id) && s.jobs[id].status == status
    && s.jobs[id].work == work && s.jobs[id].frozen.None? && s.jobs[id].attempts == 0
    && |s.jobs[id].records| == 1 && s.jobs[id].records[0].revision == revision
    && s.jobs[id].records[0].status == Admitted
  }

  lemma CrashedNext(limit: int, s: State, id: string) returns (t: State)
    requires Reachable(limit, s) && id in s.jobs
    ensures Reachable(limit, t) && t == Land(s, id)
  {
    ReachableIsOrdered(limit, s);
    t := Land(s, id);
    StepsOfOthers(limit, s, id, JobFailed, false);
    StepIsReachable(limit, s, Crash(id), t);
  }

  lemma AdmittedOnce(limit: int, s: State, id: string, work: Work, revision: string) returns (t: State)
    requires Reachable(limit, s) && HasAttempts(s, id, work, revision, 0, Checked)
    ensures Reachable(limit, t) && LaunchesHere(s, t, id, []) && In(t, id, AdmittedStage)
    ensures t.jobs[id] == s.jobs[id].(records := [Admission(s.jobs[id], revision)])
  {
    ReachableIsOrdered(limit, s);
    t := AdmittedNext(s, id, work, revision, 0);
    StepsOfALaunch(limit, s, id);
    StepIsReachable(limit, s, Admit(id), t);
    assert t.jobs[id].records == [t.jobs[id].records[0]];
  }

  lemma FirstCheck(limit: int, id: string, work: Work, revision: string) returns (t: State)
    ensures Reachable(limit, t) && HasAttempts(t, id, work, revision, 0, Checked)
    ensures t.listing == [id] && t.jobs[id] == NewJob(id, work) && t.reconcilers == map[] && t.launches == []
  {
    ReachableAtFirst(limit);
    var s := CreatedAndStarted(limit, EMPTY, id, work);
    ReachableIsOrdered(limit, s);
    ConsumedByOne(s, id, work, revision, 0);
    t := LoadedIsChecked(limit, s, id, work, revision, 0);
  }

  lemma AbandonedAdmission(limit: int, id: string, work: Work, revision: string) returns (s: State)
    ensures Reachable(limit, s) && Abandoned(s, id, work, revision, JobPending)
    ensures s.reconcilers == map[] && s.launches == []
  {
    var checked := FirstCheck(limit, id, work, revision);
    var admitted := AdmittedOnce(limit, checked, id, work, revision);
    s := CrashedNext(limit, admitted, id);
  }

  lemma OneOther(records: seq<Attempt>, revision: string)
    requires |records| == 1 && records[0].revision != revision
    ensures CountRevision(records, revision) == 0
  {
    assert records[..0] == [];
  }

  lemma StartedNext(limit: int, s: State, id: string) returns (t: State)
    requires Reachable(limit, s) && Grounded(s, id) && !Terminal(s.jobs[id].status)
    ensures Reachable(limit, t) && t.listing == s.listing && t.jobs == s.jobs && In(t, id, Loaded)
    ensures t.reconcilers == s.reconcilers && t.launches == s.launches
  {
    ReachableNext(limit, s, Start(id));
    t := Step(limit, s, Start(id));
  }

  lemma ClaimedNext(limit: int, s: State, id: string, work: Work, revision: string) returns (t: State)
    requires Reachable(limit, s) && In(s, id, Loaded) && s.jobs[id].work == work && s.jobs[id].frozen.None?
    requires AllListed(s) && Affordable(limit, s, work, revision)
    ensures Reachable(limit, t) && t.listing == s.listing && t.jobs == s.jobs
    ensures t.reconcilers == s.reconcilers && t.launches == s.launches && WorksOn(t, id, work, revision, Checked)
  {
    ReachableNext(limit, s, Claim(id, revision));
    t := Step(limit, s, Claim(id, revision));
  }

  /** The task is edited, and the next executor checks the account of the new inputs. */
  lemma ClaimedForOther(limit: int, s: State, id: string, work: Work, first: string, second: string)
    returns (t: State)
    requires Reachable(limit, s) && Abandoned(s, id, work, first, JobPending) && first != second
    ensures Reachable(limit, t) && t.listing == s.listing && t.jobs == s.jobs && t.reconcilers == s.reconcilers
    ensures t.launches == s.launches && WorksOn(t, id, work, second, Checked)
  {
    var u := StartedNext(limit, s, id);
    ReachableIsOrdered(limit, u);
    OneOther(s.jobs[id].records, second);
    ConsumedByOne(u, id, work, second, 0);
    t := ClaimedNext(limit, u, id, work, second);
  }

  /** The consumed count can drop: an executor crashes right after its admission, the task is edited, and the
      next executor admits attempt one again. */
  lemma TheConsumedCountCanDrop(limit: int, id: string, work: Work, first: string, second: string)
    requires first != second
    ensures exists s, a :: Reachable(limit, s) && Overwrites(s, a, work, first)
  {
    var s := AbandonedAdmission(limit, id, work, first);
    var t := ClaimedForOther(limit, s, id, work, first, second);
    assert Reachable(limit, t) && Overwrites(t, Admit(id), work, first);
  }

  /** A reconciliation lists the job and fails it. */
  lemma ListedByPass(limit: int, s: State, id: string) returns (t: State)
    requires Reachable(limit, s) && id in s.jobs && Orphanable(s.jobs[id].status) && s.reconcilers == map[]
    ensures Reachable(limit, t) && t == s.(reconcilers := map[0 := Reconciler(id, Phase.Listed)])
  {
    ReachableIsOrdered(limit, s);
    t := Advance(s, id, 0, Phase.Listed);
    StepsOfAPass(limit, s, id, 0);
    StepIsReachable(limit, s, ListOrphan(id, 0), t);
  }

  lemma FailedByPass(limit: int, s: State, id: string) returns (t: State)
    requires Reachable(limit, s) && id in s.jobs && s.reconcilers == map[0 := Reconciler(id, Phase.Listed)]
    ensures Reachable(limit, t)
    ensures t == Put(s, id, s.jobs[id].(status := JobFailed)).(reconcilers := map[0 := Reconciler(id, Phase.Failed)])
  {
    ReachableIsOrdered(limit, s);
    t := Advance(Put(s, id, s.jobs[id].(status := JobFailed)), id, 0, Phase.Failed);
    StepsOfAPass(limit, s, id, 0);
    StepIsReachable(limit, s, FailOrphan(id, 0), t);
  }

  lemma LeftByPass(limit: int, s: State, id: string) returns (t: State)
    requires Reachable(limit, s) && id in s.jobs && s.reconcilers == map[0 := Reconciler(id, Phase.Failed)]
    ensures Reachable(limit, t) && t == s.(reconcilers := map[])
  {
    ReachableIsOrdered(limit, s);
    t := s.(reconcilers := s.reconcilers - {0});
    StepsOfAPass(limit, s, id, 0);
    StepIsReachable(limit, s, LeaveOrphan(id, 0), t);
  }

  lemma ReadByPass(limit: int, s: State, id: string) returns (t: State)
    requires Reachable(limit, s) && id in s.jobs && s.reconcilers == map[0 := Reconciler(id, Phase.Failed)]
    ensures Reachable(limit, t)
    ensures t == s.(reconcilers := map[0 := Reconciler(id, Settling(s.jobs[id].records, 0))])
  {
    ReachableIsOrdered(limit, s);
    t := Advance(s, id, 0, Settling(s.jobs[id].records, 0));
    StepsOfAPass(limit, s, id, 0);
    StepIsReachable(limit, s, LoadOrphan(id, 0), t);
  }

  /** Such a record is reachable: the executor crashes behind its admission, and the reconciliation between
      failing the job and settling its record. No later reconciliation lists a failed job. */
  lemma CrashedReconciliationLeavesARecord(limit: int, id: string, work: Work, revision: string)
    ensures exists s :: Reachable(limit, s) && LeftBehind(s, id) && Unattended(s, id)
                        && s.jobs[id].status == JobFailed && HasIncomplete(s.jobs[id].records)
  {
    var s := AbandonedAdmission(limit, id, work, revision);
    s := ListedByPass(limit, s, id);
    s := FailedByPass(limit, s, id);
    s := LeftByPass(limit, s, id);
    assert Incomplete(s.jobs[id].records[0].status);
    assert Reachable(limit, s) && LeftBehind(s, id) && Unattended(s, id) && HasIncomplete(s.jobs[id].records);
  }

  // ---------------------------------------------------------------- a launch the account does not know

  /** The reconciliation has failed the job and read its records when somebody restarts it. */
  lemma RestartedBehindPass(limit: int, id: string, work: Work, revision: string) returns (t: State)
    ensures Reachable(limit, t) && Abandoned(t, id, work, revision, JobPending)
    ensures t.reconcilers == map[0 := Reconciler(id, Settling(t.jobs[id].records, 0))] && t.launches == []
  {
    var s := AbandonedAdmission(limit, id, work, revision);
    s := ListedByPass(limit, s, id);
    s := FailedByPass(limit, s, id);
    s := ReadByPass(limit, s, id);
    ReachableIsOrdered(limit, s);
    t := Put(s, id, s.jobs[id].(status := JobPending, repairReady := false));
    StepsOfOthers(limit, s, id, JobPending, false);
    StepIsReachable(limit, s, Outside(id, JobPending, false), t);
  }

  lemma ReadmittedNext(limit: int, s: State, id: string, work: Work, first: string, second: string)
    returns (t: State)
    requires Reachable(limit, s) && WorksOn(s, id, work, second, Checked) && first != second
    requires s.jobs[id].attempts == 0 && |s.jobs[id].records| == 1 && s.jobs[id].records[0].revision == first
    requires s.jobs[id].records[0].status == Admitted && s.listing == [id] && s.launches == []
    requires s.reconcilers == map[0 := Reconciler(id, Settling(s.jobs[id].records, 0))]
    ensures Reachable(limit, t) && WorksOn(t, id, work, second, AdmittedStage) && t.flights[id].open != []
    ensures Stale(t, SettleOrphan(id, 0)) && NextRead(t, id, 0).revision == first
    ensures |t.jobs[id].records| == 1 && t.listing == [id] && t.launches == []
  {
    ReachableIsOrdered(limit, s);
    t := RecordAdmission(s, id);
    AdmitAdmits(s, id);
    StepsOfALaunch(limit, s, id);
    StepIsReachable(limit, s, Admit(id), t);
    assert InPlace(s.jobs[id].records[0], id, 0) by {
      assert Fits(s, id);
    }
  }

  /** The next executor checks and admits under other inputs, before the pass writes what it has read. */
  lemma ReadmittedBehindPass(limit: int, id: string, work: Work, first: string, second: string) returns (t: State)
    requires first != second
    ensures Reachable(limit, t) && WorksOn(t, id, work, second, AdmittedStage) && t.flights[id].open != []
    ensures Stale(t, SettleOrphan(id, 0)) && NextRead(t, id, 0).revision == first
    ensures |t.jobs[id].records| == 1 && t.listing == [id] && t.launches == []
  {
    var s := RestartedBehindPass(limit, id, work, first);
    var u := ClaimedForOther(limit, s, id, work, first, second);
    t := ReadmittedNext(limit, u, id, work, first, second);
  }

  /** Some run ends in this state. */
  ghost predicate Reached(limit: int, s: State) {
    exists actions :: Run(limit, actions) == s
  }

  lemma ReachedNext(limit: int, s: State, a: Action)
    requires Reached(limit, s)
    ensures AllListed(s) && Structure(s) && Reached(limit, Step(limit, s, a))
  {
    var actions :| Run(limit, actions) == s;
    RunsKeepTheChain(limit, actions);
    RunSnoc(limit, actions, a);
  }

  lemma ReachedByStep(limit: int, s: State, a: Action, t: State)
    requires Reached(limit, s) && AllListed(s) && t == Step(limit, s, a)
    ensures Reached(limit, t) && AllListed(t) && Structure(t)
  {
    ReachedNext(limit, s, a);
    ReachedNext(limit, t, a);
  }

  /** The stale settlement puts the record of the first inputs back. */
  lemma RestoredNext(limit: int, s: State, id: string, work: Work, first: string, second: string)
    returns (t: State)
    requires Reachable(limit, s) && WorksOn(s, id, work, second, AdmittedStage) && s.flights[id].open != []
    requires Stale(s, SettleOrphan(id, 0)) && NextRead(s, id, 0).revision == first != second
    requires |s.jobs[id].records| == 1 && s.listing == [id] && s.launches == []
    ensures Reached(limit, t) && AllListed(t) && Structure(t) && WorksOn(t, id, work, second, AdmittedStage)
    ensures t.flights[id].open != [] && t.listing == [id] && t.launches == []
    ensures |t.jobs[id].records| == 1 && CountRevision(t.jobs[id].records, second) == 0
  {
    ReachableIsOrdered(limit, s);
    assert Reached(limit, s);
    StaleRestores(limit, s, id, 0);
    t := Step(limit, s, SettleOrphan(id, 0));
    ReachedByStep(limit, s, SettleOrphan(id, 0), t);
    OneOther(t.jobs[id].records, second);
  }

  lemma MarkedAnyway(limit: int, s: State, id: string, work: Work, revision: string) returns (t: State)
    requires Reached(limit, s) && AllListed(s) && Structure(s) && WorksOn(s, id, work, revision, AdmittedStage)
    requires s.flights[id].open != []
    ensures Reached(limit, t) && AllListed(t) && LaunchesHere(s, t, id, [])
    ensures WorksOn(t, id, work, revision, Marked) && |t.jobs[id].records| == |s.jobs[id].records|
    ensures CountRevision(t.jobs[id].records, revision) == CountRevision(s.jobs[id].records, revision)
  {
    var u := CountedNext(limit, s, id);
    ReachedByStep(limit, s, Count(id), u);
    t := MarkedNext(u, id, revision);
    StepsOfALaunch(limit, u, id);
    ReachedByStep(limit, u, MarkRunning(id), t);
    LaunchesHereAgain(s, u, t, id, [], []);
  }

  lemma LaunchedAnyway(limit: int, s: State, id: string, work: Work, revision: string) returns (t: State)
    requires Reached(limit, s) && AllListed(s) && Structure(s) && WorksOn(s, id, work, revision, AdmittedStage)
    requires s.flights[id].open != []
    ensures Reached(limit, t) && AllListed(t) && LaunchesHere(s, t, id, [Launch(work, revision)])
    ensures WorksOn(t, id, work, revision, Launched) && |t.jobs[id].records| == |s.jobs[id].records|
    ensures CountRevision(t.jobs[id].records, revision) == CountRevision(s.jobs[id].records, revision)
  {
    var u := MarkedAnyway(limit, s, id, work, revision);
    t := LaunchedNext(u, id, work, revision);
    StepsOfALaunch(limit, u, id);
    ReachedByStep(limit, u, LaunchWorker(id), t);
    LaunchesHereAgain(s, u, t, id, [], [Launch(work, revision)]);
  }

  /** A stale settlement can hide a launch from the account: a worker has been launched for inputs of which
      the account says that nothing was consumed. */
  lemma ALaunchCanEscapeTheAccount(limit: int, id: string, work: Work, first: string, second: string)
    requires first != second
    ensures exists s :: Reached(limit, s) && AllListed(s) && LaunchCount(s.launches, work, second) == 1
                        && Consumed(s.listing, s.jobs, work, second) == 0
  {
    var s := ReadmittedBehindPass(limit, id, work, first, second);
    var u := RestoredNext(limit, s, id, work, first, second);
    var t := LaunchedAnyway(limit, u, id, work, second);
    OneMoreLaunch([], work, second);
    assert t.launches == [] + [Launch(work, second)];
    ConsumedByOne(t, id, work, second, 0);
    assert Reached(limit, t) && LaunchCount(t.launches, work, second) == 1;
  }
}
