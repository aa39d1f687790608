// The durable attempt budget as a step system: executors that check, admit, count, launch, repair and
// settle; crashes between any two store writes; operators and the completion endpoint writing any status
// at any time; reconciliation passes, any number at once, that fail jobs and settle what they have read.
module AttemptBudget {
  import opened Basics
  import opened AttemptRecords

  datatype Stage = Loaded | Checked | AdmittedStage | Counted | Marked | Launched | Again | Unwinding

  /** One executor holding a job's execution lock. `open` lists the attempts it has admitted and not yet
      settled, innermost repair last; `revision` is that of the inputs it works on; `repair` says whether it
      loaded a rejected job that was ready for repair. */
  datatype Flight = Flight(stage: Stage, revision: string, open: seq<nat>, repair: bool)

  datatype Launch = Launch(work: Work, revision: string)

  /** How far a reconciliation pass has come with one job: listed, failed, or settling the records it read. */
  datatype Phase = Listed | Failed | Settling(snapshot: seq<Attempt>, next: nat)

  datatype Reconciler = Reconciler(id: string, phase: Phase)

  datatype State = State(listing: seq<string>, jobs: map<string, Job>, flights: map<string, Flight>,
                         launches: seq<Launch>, reconcilers: map<nat, Reconciler>)

  datatype Action =
    | Create(job: Job)
    | Start(id: string)
    | Claim(id: string, revision: string)
    | Release(id: string)
    | Admit(id: string)
    | Count(id: string)
    | SaveEnvironment(id: string)
    | MarkRunning(id: string)
    | LaunchWorker(id: string)
    | Abort(id: string)
    | Outside(id: string, status: JobStatus, ready: bool)
    | Exit(id: string)
    | Reload(id: string)
    | Settle(id: string)
    | Crash(id: string)
    | ListOrphan(id: string, pass: nat)
    | FailOrphan(id: string, pass: nat)
    | LoadOrphan(id: string, pass: nat)
    | SettleOrphan(id: string, pass: nat)
    | LeaveOrphan(id: string, pass: nat)

  /** `total_attempt_limit`: zero falls back to three, and what is not positive then means no limit. */
  function TotalAttemptLimit(configured: int): int {
    if configured == 0 then 3 else configured
  }

  // ---------------------------------------------------------------- the steps

  predicate AllListed(s: State) {
    forall id :: id in s.listing ==> id in s.jobs
  }

  predicate In(s: State, id: string, stage: Stage) {
    id in s.jobs && id in s.flights && s.flights[id].stage == stage
  }

  predicate Grounded(s: State, id: string) {
    id in s.jobs && id !in s.flights
  }

  /** The stages from loading a job to launching its worker. */
  predicate Preparing(stage: Stage) {
    stage in {Loaded, Checked, AdmittedStage, Counted, Marked}
  }

  predicate Affordable(limit: int, s: State, work: Work, revision: string)
    requires AllListed(s)
  {
    limit <= 0 || Consumed(s.listing, s.jobs, work, revision) < limit
  }

  function Put(s: State, id: string, job: Job): State {
    s.(jobs := s.jobs[id := job])
  }

  function Fly(s: State, id: string, f: Flight): State {
    s.(flights := s.flights[id := f])
  }

  function Land(s: State, id: string): State {
    s.(flights := s.flights - {id})
  }

  function Unwind(s: State, id: string): State
    requires id in s.flights
  {
    Fly(s, id, s.flights[id].(stage := Unwinding))
  }

  /** Failing a job writes its status whatever it has become in the meantime. */
  function Fail(s: State, id: string): State
    requires id in s.jobs && id in s.flights
  {
    Unwind(Put(s, id, s.jobs[id].(status := JobFailed)), id)
  }

  /** The record with the highest number below `number`. */
  function Preceding(records: seq<Attempt>, number: nat): Option<Attempt> {
    if records == [] then None
    else
      var best, last := Preceding(records[..|records| - 1], number), records[|records| - 1];
      if last.number < number && (best.None? || best.value.number < last.number) then Some(last) else best
  }

  /** `_preceding_attempt_id`. */
  function PrecedingAttemptId(job: Job, number: nat): Option<AttemptId> {
    if number <= 1 then None
    else
      match Preceding(job.records, number)
      case None => None
      case Some(latest) => if latest.jobId == job.id then Some(latest.id) else None
  }

  /** The record `_admit_attempt` writes. */
  function Admission(job: Job, revision: string): Attempt {
    var number := job.attempts + 1;
    Attempt(AttemptId(job.id, number), job.id, number, revision, PrecedingAttemptId(job, number), Admitted)
  }

  /** `_update_attempt`: nothing happens when the record is not there. */
  function Touch(records: seq<Attempt>, number: nat, status: AttemptStatus): seq<Attempt> {
    if 1 <= number <= |records| then Upsert(records, records[number - 1].(status := status)) else records
  }

  predicate Fresh(s: State, job: Job) {
    && job.id !in s.jobs && job.status == JobPending && job.attempts == 0 && job.records == [] && !job.repairReady
    && forall id :: id in s.jobs && s.jobs[id].work == job.work ==> !Active(s.jobs[id].status)
  }

  predicate NeedsRepair(job: Job) {
    job.status == JobRejected && job.repairReady
  }

  function CountedJob(job: Job, repair: bool): Job {
    job.(status := JobRunning, attempts := job.attempts + 1, repairReady := job.repairReady && !repair)
  }

  /** A worker is over: repair a rejected completion while the account has room, otherwise unwind, failing
      the job unless an outcome is already recorded. */
  function AfterWorker(limit: int, s: State, id: string): State
    requires AllListed(s) && In(s, id, Launched)
  {
    var job, f := s.jobs[id], s.flights[id];
    if job.status == JobRejected then
      if !job.repairReady then Unwind(s, id)
      else if Affordable(limit, s, job.work, f.revision) then Fly(s, id, f.(stage := Again))
      else Fail(s, id)
    else if Terminal(job.status) then Unwind(s, id)
    else Fail(s, id)
  }

  /** A repair loads the job like any start. */
  function LoadAgain(s: State, id: string): State
    requires In(s, id, Again)
  {
    if Terminal(s.jobs[id].status) then Unwind(s, id)
    else Fly(s, id, s.flights[id].(stage := Loaded, repair := NeedsRepair(s.jobs[id])))
  }

  function RecordAdmission(s: State, id: string): State
    requires In(s, id, Checked)
  {
    var job, f := s.jobs[id], s.flights[id];
    Fly(Put(s, id, job.(records := Upsert(job.records, Admission(job, f.revision)))), id,
        f.(stage := AdmittedStage, open := f.open + [job.attempts + 1]))
  }

  function MarkInnermost(s: State, id: string): State
    requires In(s, id, Counted) && s.flights[id].open != []
  {
    var job, f := s.jobs[id], s.flights[id];
    Fly(Put(s, id, job.(records := Touch(job.records, f.open[|f.open| - 1], Running))), id, f.(stage := Marked))
  }

  /** One settlement of the `finally` clauses, innermost first; then the lock is given up. */
  function SettleInnermost(s: State, id: string): State
    requires In(s, id, Unwinding)
  {
    var job, f := s.jobs[id], s.flights[id];
    if f.open == [] then Land(s, id)
    else
      var n := f.open[|f.open| - 1];
      Fly(Put(s, id, job.(records := Touch(job.records, n, Ended))), id, f.(open := f.open[..|f.open| - 1]))
  }

  /** What a reconciliation pass fails: everything active except a stale job. */
  predicate Orphanable(status: JobStatus) {
    status in {JobPending, JobRunning, JobSubmitted, JobRejected}
  }

  predicate At(s: State, id: string, pass: nat) {
    id in s.jobs && pass in s.reconcilers && s.reconcilers[pass].id == id
  }

  predicate SettlingAt(s: State, id: string, pass: nat) {
    At(s, id, pass) && s.reconcilers[pass].phase.Settling?
        && s.reconcilers[pass].phase.next < |s.reconcilers[pass].phase.snapshot|
  }

  function Advance(s: State, id: string, pass: nat, phase: Phase): State {
    s.(reconcilers := s.reconcilers[pass := Reconciler(id, phase)])
  }

  /** The record of its snapshot a reconciliation looks at next. */
  function NextRead(s: State, id: string, pass: nat): Attempt
    requires SettlingAt(s, id, pass)
  {
    s.reconcilers[pass].phase.snapshot[s.reconcilers[pass].phase.next]
  }

  /** An incomplete record is written back as it was read, settled, whatever stands there by now. */
  function SettleRead(s: State, id: string, pass: nat): State
    requires SettlingAt(s, id, pass)
  {
    var a := NextRead(s, id, pass);
    if Incomplete(a.status) then Put(s, id, s.jobs[id].(records := Upsert(s.jobs[id].records, Settled(a)))) else s
  }

  /** The steps of a reconciliation pass, which takes no execution lock. */
  function Reconcile(s: State, a: Action): State
    requires a.ListOrphan? || a.FailOrphan? || a.LoadOrphan? || a.SettleOrphan? || a.LeaveOrphan?
  {
    match a
    case ListOrphan(id, pass) =>
      if id in s.jobs && pass !in s.reconcilers && Orphanable(s.jobs[id].status) then Advance(s, id, pass, Phase.Listed)
      else s
    case FailOrphan(id, pass) =>
      if At(s, id, pass) && s.reconcilers[pass].phase.Listed?
      then Advance(Put(s, id, s.jobs[id].(status := JobFailed)), id, pass, Phase.Failed)
      else s
    case LoadOrphan(id, pass) =>
      if At(s, id, pass) && s.reconcilers[pass].phase.Failed?
      then Advance(s, id, pass, Settling(s.jobs[id].records, 0))
      else s
    case SettleOrphan(id, pass) =>
      if SettlingAt(s, id, pass) then
        var phase := s.reconcilers[pass].phase;
        Advance(SettleRead(s, id, pass), id, pass, phase.(next := phase.next + 1))
      else s
    case LeaveOrphan(id, pass) =>
      if At(s, id, pass) then s.(reconcilers := s.reconcilers - {pass}) else s
  }

  function Step(limit: int, s: State, a: Action): (t: State)
    requires AllListed(s)
    ensures AllListed(t)
  {
    match a
    case Create(job) =>
      if Fresh(s, job) then s.(listing := s.listing + [job.id], jobs := s.jobs[job.id := job]) else s
    case Start(id) =>
      if Grounded(s, id) && !Terminal(s.jobs[id].status)
      then Fly(s, id, Flight(Loaded, "", [], NeedsRepair(s.jobs[id])))
      else s
    case Claim(id, revision) =>
      if !In(s, id, Loaded) || (s.jobs[id].frozen.Some? && s.jobs[id].frozen.value != revision) then s
      else if Affordable(limit, s, s.jobs[id].work, revision) then
        Fly(s, id, s.flights[id].(stage := Checked, revision := revision))
      else Fail(s, id)
    case Release(id) =>
      if In(s, id, Loaded) || In(s, id, Checked) then Unwind(s, id) else s
    case Admit(id) =>
      if In(s, id, Checked) then RecordAdmission(s, id) else s
    case Count(id) =>
      if !In(s, id, AdmittedStage) then s
      else Fly(Put(s, id, CountedJob(s.jobs[id], s.flights[id].repair)), id, s.flights[id].(stage := Counted))
    case SaveEnvironment(id) =>
      if In(s, id, Counted) then Put(s, id, s.jobs[id].(status := JobRunning)) else s
    case MarkRunning(id) =>
      if In(s, id, Counted) && s.flights[id].open != [] then MarkInnermost(s, id) else s
    case LaunchWorker(id) =>
      if In(s, id, Marked) then Launching(s, id) else s
    case Abort(id) =>
      if id in s.jobs && id in s.flights && s.flights[id].stage != Unwinding then Fail(s, id) else s
    case Outside(id, status, ready) =>
      if id in s.jobs then Put(s, id, s.jobs[id].(status := status, repairReady := ready)) else s
    case Exit(id) =>
      if In(s, id, Launched) then AfterWorker(limit, s, id) else s
    case Reload(id) =>
      if In(s, id, Again) then LoadAgain(s, id) else s
    case Settle(id) =>
      if In(s, id, Unwinding) then SettleInnermost(s, id) else s
    case Crash(id) => Land(s, id)
    case ListOrphan(_, _) => Reconcile(s, a)
    case FailOrphan(_, _) => Reconcile(s, a)
    case LoadOrphan(_, _) => Reconcile(s, a)
    case SettleOrphan(_, _) => Reconcile(s, a)
    case LeaveOrphan(_, _) => Reconcile(s, a)
  }

  function Launching(s: State, id: string): State
    requires In(s, id, Marked)
  {
    Fly(s, id, s.flights[id].(stage := Launched))
      .(launches := s.launches + [Launch(s.jobs[id].work, s.flights[id].revision)])
  }

  const EMPTY := State([], map[], map[], [], map[])

  function Run(limit: int, actions: seq<Action>): (t: State)
    ensures AllListed(t)
  {
    if actions == [] then EMPTY else Step(limit, Run(limit, actions[..|actions| - 1]), actions[|actions| - 1])
  }

  // ---------------------------------------------------------------- what every state keeps

  /** Numbers 1 to m with attempts <= m <= attempts + 1, each naming its predecessor. */
  predicate JobOk(job: Job) {
    && Chained(job.id, job.records)
    && job.attempts <= |job.records| <= job.attempts + 1
    && FrozenAgrees(job, job.records)
  }

  predicate FrozenAgrees(job: Job, records: seq<Attempt>) {
    job.frozen.Some? ==> forall r :: r in records ==> r.revision == job.frozen.value
  }

  predicate LastIs(job: Job, f: Flight, n: nat) {
    f.open != [] && f.open[|f.open| - 1] == n && |job.records| == n && n > 0
  }

  predicate FlightOk(job: Job, f: Flight) {
    && (forall n :: n in f.open ==> 1 <= n <= |job.records|)
    && (Preparing(f.stage) && f.stage != Loaded && job.frozen.Some? ==> f.revision == job.frozen.value)
    && (f.stage == AdmittedStage ==> LastIs(job, f, job.attempts + 1))
    && (f.stage == Counted || f.stage == Marked ==> LastIs(job, f, job.attempts))
  }

  predicate Fits(s: State, id: string)
    requires id in s.jobs
  {
    s.jobs[id].id == id && JobOk(s.jobs[id]) && (id in s.flights ==> FlightOk(s.jobs[id], s.flights[id]))
  }

  /** What a reconciliation has read is a chain no longer than the job's own. */
  predicate PhaseOk(job: Job, phase: Phase) {
    phase.Settling? ==>
      && phase.next <= |phase.snapshot| <= |job.records|
      && Chained(job.id, phase.snapshot) && FrozenAgrees(job, phase.snapshot)
  }

  predicate ReconcilerOk(s: State, r: Reconciler) {
    r.id in s.jobs && PhaseOk(s.jobs[r.id], r.phase)
  }

  ghost predicate JobsOk(s: State) {
    && Distinct(s.listing)
    && (forall id :: id in s.jobs <==> id in s.listing)
    && (forall id :: id in s.flights ==> id in s.jobs)
    && (forall id :: id in s.jobs ==> Fits(s, id))
  }

  ghost predicate Structure(s: State) {
    JobsOk(s) && forall pass :: pass in s.reconcilers ==> ReconcilerOk(s, s.reconcilers[pass])
  }

  /** Only one job, its executor, the launches and the reconciliations differ. */
  ghost predicate OnlyAt(s: State, t: State, id: string) {
    && s.listing == t.listing && id in s.jobs && t.jobs.Keys == s.jobs.Keys
    && (forall x :: x in s.jobs && x != id ==> t.jobs[x] == s.jobs[x])
    && (forall x :: x != id ==> (x in t.flights <==> x in s.flights))
    && (forall x :: x != id && x in s.flights ==> t.flights[x] == s.flights[x])
  }

  ghost predicate Kept(s: State, t: State, id: string) {
    && OnlyAt(s, t, id) && Fits(t, id)
    && t.jobs[id].work == s.jobs[id].work && t.jobs[id].frozen == s.jobs[id].frozen
    && |s.jobs[id].records| <= |t.jobs[id].records|
  }

  lemma KeptKeepsJobs(s: State, t: State, id: string)
    requires JobsOk(s) && Kept(s, t, id)
    ensures JobsOk(t)
  {
    forall x | x in t.jobs
      ensures Fits(t, x)
    {
      if x != id {
        assert Fits(s, x);
      }
    }
    forall x | x in t.flights
      ensures x in t.jobs
    {
      if x != id {
        assert x in s.flights;
      }
    }
  }

  lemma KeptKeepsReconciler(s: State, t: State, id: string, r: Reconciler)
    requires JobsOk(s) && Kept(s, t, id) && ReconcilerOk(s, r)
    ensures ReconcilerOk(t, r)
  {
    assert Fits(s, id) && Fits(t, id);
  }

  lemma {:induction false} PrecedingInChain(jobId: string, records: seq<Attempt>, number: nat)
    requires Chained(jobId, records) && 1 < number
    ensures Preceding(records, number) == if records == [] then None
                                          else
                                            var last := if number <= |records| then number - 1 else |records|;
                                            Some(records[last - 1])
  {
    if records != [] {
      var n := |records| - 1;
      assert InPlace(records[n], jobId, n);
      forall i | 0 <= i < n
        ensures InPlace(records[..n][i], jobId, i)
      {
        assert InPlace(records[i], jobId, i);
      }
      PrecedingInChain(jobId, records[..n], number);
      if n > 0 {
        assert InPlace(records[n - 1], jobId, n - 1);
        if number <= n {
          assert InPlace(records[number - 2], jobId, number - 2);
        }
      }
    }
  }


  predicate SameRevisions(a: seq<Attempt>, b: seq<Attempt>) {
    |a| == |b| && forall i :: 0 <= i < |a| ==> b[i].revision == a[i].revision
  }

  lemma RecordsReplaced(job: Job, records: seq<Attempt>)
    requires JobOk(job) && Chained(job.id, records) && SameRevisions(job.records, records)
    ensures JobOk(job.(records := records))
  {
    forall r | r in records
      ensures job.frozen.Some? ==> r.revision == job.frozen.value
    {
      var i :| 0 <= i < |records| && records[i] == r;
      assert job.records[i] in job.records;
    }
  }

  lemma TouchInChain(jobId: string, records: seq<Attempt>, number: nat, status: AttemptStatus)
    requires Chained(jobId, records) && 1 <= number <= |records|
    ensures Touch(records, number, status) == records[number - 1 := records[number - 1].(status := status)]
    ensures Chained(jobId, Touch(records, number, status)) && SameRevisions(records, Touch(records, number, status))
  {
    assert InPlace(records[number - 1], jobId, number - 1);
    UpsertReplaces(jobId, records, records[number - 1].(status := status));
    var after := Touch(records, number, status);
    forall i | 0 <= i < |after|
      ensures InPlace(after[i], jobId, i)
    {
      assert InPlace(records[i], jobId, i);
    }
  }

  /** An admission extends the chain, or takes the place of the record a crash left uncounted. */
  lemma AdmissionInChain(job: Job, revision: string)
    requires Chained(job.id, job.records) && job.attempts <= |job.records| <= job.attempts + 1
    ensures var a, after := Admission(job, revision), Upsert(job.records, Admission(job, revision));
            && after == (if |job.records| == job.attempts then job.records + [a] else job.records[job.attempts := a])
            && Chained(job.id, after)
  {
    var a := Admission(job, revision);
    var n := job.attempts;
    if n > 0 {
      PrecedingInChain(job.id, job.records, n + 1);
      assert InPlace(job.records[n - 1], job.id, n - 1);
    }
    assert InPlace(a, job.id, n);
    if |job.records| == n {
      UpsertAppends(job.id, job.records, a);
    } else {
      UpsertReplaces(job.id, job.records, a);
    }
    var after := Upsert(job.records, a);
    forall i | 0 <= i < |after|
      ensures InPlace(after[i], job.id, i)
    {
      if i < |job.records| {
        assert InPlace(job.records[i], job.id, i);
      }
    }
  }

  lemma JobTouched(job: Job, f: Flight, n: nat, status: AttemptStatus)
    requires JobOk(job) && FlightOk(job, f) && 1 <= n <= |job.records|
    ensures JobOk(job.(records := Touch(job.records, n, status)))
    ensures FlightOk(job.(records := Touch(job.records, n, status)), f)
    ensures SameRevisions(job.records, Touch(job.records, n, status))
  {
    TouchInChain(job.id, job.records, n, status);
    RecordsReplaced(job, Touch(job.records, n, status));
  }

  // ---------------------------------------------------------------- one step
  // What a step does is summed up once, so that nothing below has to look at the steps again.

  predicate Admits(s: State, a: Action) {
    a.Admit? && In(s, a.id, Checked)
  }

  predicate LaunchesWorker(s: State, a: Action) {
    a.LaunchWorker? && In(s, a.id, Marked)
  }

  /** A settlement that writes back a record as it was read, though a later admission has replaced it since. */
  predicate Stale(s: State, a: Action) {
    a.SettleOrphan? && SettlingAt(s, a.id, a.pass) && Incomplete(NextRead(s, a.id, a.pass).status)
        && WritesOver(s.jobs[a.id].records, NextRead(s, a.id, a.pass))
  }

  predicate WritesOver(records: seq<Attempt>, a: Attempt) {
    1 <= a.number <= |records| && records[a.number - 1].revision != a.revision
  }

  /** A newly checked executor found room in the account. */
  predicate Cleared(limit: int, s: State, t: State, id: string)
    requires AllListed(s)
  {
    In(t, id, Checked) ==>
      || (id in s.flights && t.flights[id] == s.flights[id])
      || Affordable(limit, s, t.jobs[id].work, t.flights[id].revision)
  }

  /** How many of a job's records stand for attempts whose launch is behind them: all counted ones, except
      the one its executor has counted and is still preparing. */
  function Spent(s: State, id: string): nat
    requires id in s.jobs
  {
    var job := s.jobs[id];
    var n := if job.attempts > 0 && (In(s, id, Counted) || In(s, id, Marked)) then job.attempts - 1 else job.attempts;
    if n <= |job.records| then n else |job.records|
  }

  /** Between an admission and its launch the last record carries the inputs the executor works on. */
  predicate Truthful(s: State, id: string) {
    In(s, id, AdmittedStage) || In(s, id, Counted) || In(s, id, Marked) ==>
      LastRevisionIs(s.jobs[id].records, s.flights[id].revision)
  }

  predicate LastRevisionIs(records: seq<Attempt>, revision: string) {
    records != [] && records[|records| - 1].revision == revision
  }

  /** No attempt is admitted and no worker launched: the recorded revisions stay. */
  ghost predicate Quiet(limit: int, s: State, t: State, id: string)
    requires AllListed(s)
  {
    && Kept(s, t, id) && t.launches == s.launches && Cleared(limit, s, t, id)
    && SameRevisions(s.jobs[id].records, t.jobs[id].records)
    && Spent(s, id) <= Spent(t, id)
    && (Truthful(s, id) ==> Truthful(t, id))
  }

  /** An admission cuts the records back to the counted ones and adds its own. */
  ghost predicate AdmittedBy(s: State, t: State, id: string) {
    && Kept(s, t, id) && t.launches == s.launches && In(s, id, Checked) && !In(t, id, Checked)
    && Spent(s, id) == Spent(t, id) == s.jobs[id].attempts <= |s.jobs[id].records|
    && t.jobs[id] == s.jobs[id].(records := s.jobs[id].records[..s.jobs[id].attempts]
                                            + [Admission(s.jobs[id], s.flights[id].revision)])
    && Truthful(t, id)
  }

  /** A launch turns the record it belongs to into a spent one. */
  ghost predicate LaunchedBy(s: State, t: State, id: string) {
    && Kept(s, t, id) && t.jobs == s.jobs && id in s.flights && !In(t, id, Checked)
    && t.launches == s.launches + [Launch(s.jobs[id].work, s.flights[id].revision)]
    && Spent(s, id) + 1 == Spent(t, id) == |s.jobs[id].records|
    && (Truthful(s, id) ==> s.jobs[id].records[Spent(s, id)].revision == s.flights[id].revision)
    && Truthful(t, id)
  }

  /** A stale settlement replaces one record by what was read. */
  ghost predicate RestoredBy(s: State, t: State, id: string, a: Attempt) {
    && Kept(s, t, id) && t.launches == s.launches && t.flights == s.flights && s.jobs[id].frozen.None?
    && 1 <= a.number <= |s.jobs[id].records|
    && t.jobs[id] == s.jobs[id].(records := s.jobs[id].records[a.number - 1 := Settled(a)])
  }

  /** Whatever replaces a job and its executor keeps everything else. */
  lemma ReplacedKept(s: State, id: string, job: Job, f: Flight)
    requires JobsOk(s) && id in s.jobs && job.id == id && JobOk(job) && FlightOk(job, f)
    requires job.work == s.jobs[id].work && job.frozen == s.jobs[id].frozen
    requires |s.jobs[id].records| <= |job.records|
    ensures Kept(s, Fly(Put(s, id, job), id, f), id)
  {
  }

  lemma FlownKept(s: State, id: string, f: Flight)
    requires JobsOk(s) && id in s.jobs && FlightOk(s.jobs[id], f)
    ensures Kept(s, Fly(s, id, f), id)
  {
    assert Fits(s, id);
  }

  lemma PutKept(s: State, id: string, job: Job)
    requires JobsOk(s) && id in s.jobs && job.id == id && JobOk(job)
    requires id in s.flights ==> FlightOk(job, s.flights[id])
    requires job.work == s.jobs[id].work && job.frozen == s.jobs[id].frozen
    requires |s.jobs[id].records| <= |job.records|
    ensures Kept(s, Put(s, id, job), id)
  {
  }

  lemma LandedKept(s: State, id: string)
    requires id in s.jobs && Fits(s, id)
    ensures Kept(s, Land(s, id), id)
  {
  }

  lemma SpentLanded(s: State, id: string)
    requires id in s.jobs
    ensures Spent(s, id) <= Spent(Land(s, id), id) && !In(Land(s, id), id, Checked)
  {
  }

  lemma LandedQuiet(limit: int, s: State, id: string)
    requires AllListed(s) && JobsOk(s) && id in s.jobs
    ensures Quiet(limit, s, Land(s, id), id)
  {
    assert Fits(s, id);
    LandedKept(s, id);
    SpentLanded(s, id);
  }

  lemma FailQuiet(limit: int, s: State, id: string)
    requires JobsOk(s) && id in s.jobs && id in s.flights
    ensures Quiet(limit, s, Fail(s, id), id)
  {
    assert Fits(s, id);
    ReplacedKept(s, id, s.jobs[id].(status := JobFailed), s.flights[id].(stage := Unwinding));
  }

  lemma PutQuiet(limit: int, s: State, id: string, job: Job)
    requires JobsOk(s) && id in s.jobs && JobOk(job) && (id in s.flights ==> FlightOk(job, s.flights[id]))
    requires job == s.jobs[id].(status := job.status, repairReady := job.repairReady, records := job.records)
    requires SameRevisions(s.jobs[id].records, job.records)
    ensures Quiet(limit, s, Put(s, id, job), id)
  {
    assert Fits(s, id);
    PutKept(s, id, job);
    SpentByPut(s, id, job);
  }

  lemma SpentByPut(s: State, id: string, job: Job)
    requires id in s.jobs && job.attempts == s.jobs[id].attempts && SameRevisions(s.jobs[id].records, job.records)
    ensures Spent(s, id) == Spent(Put(s, id, job), id)
    ensures Truthful(s, id) ==> Truthful(Put(s, id, job), id)
  {
  }

  /** A status somebody writes. */
  lemma StatusQuiet(limit: int, s: State, id: string, status: JobStatus, ready: bool)
    requires JobsOk(s) && id in s.jobs
    ensures Quiet(limit, s, Put(s, id, s.jobs[id].(status := status, repairReady := ready)), id)
  {
    assert Fits(s, id);
    PutQuiet(limit, s, id, s.jobs[id].(status := status, repairReady := ready));
  }

  lemma FlownQuiet(limit: int, s: State, id: string, f: Flight)
    requires JobsOk(s) && id in s.jobs && FlightOk(s.jobs[id], f)
    requires f.stage in {Loaded, Launched, Again, Unwinding}
    ensures Quiet(limit, s, Fly(s, id, f), id)
  {
    assert Fits(s, id);
    FlownKept(s, id, f);
  }

  lemma ReplacedQuiet(limit: int, s: State, id: string, job: Job, f: Flight)
    requires JobsOk(s) && id in s.jobs && id in s.flights && JobOk(job) && FlightOk(job, f)
    requires job == s.jobs[id].(records := job.records) && SameRevisions(s.jobs[id].records, job.records)
    requires f.stage == Unwinding || (f.stage == Marked && In(s, id, Counted) && f.revision == s.flights[id].revision)
    ensures Quiet(limit, s, Fly(Put(s, id, job), id, f), id)
  {
    FlightFits(s, id);
    ReplacedKept(s, id, job, f);
    SpentByReplacing(s, id, job, f);
  }

  lemma SpentByReplacing(s: State, id: string, job: Job, f: Flight)
    requires id in s.jobs && id in s.flights
    requires job == s.jobs[id].(records := job.records) && SameRevisions(s.jobs[id].records, job.records)
    requires f.stage == Unwinding || (f.stage == Marked && In(s, id, Counted) && f.revision == s.flights[id].revision)
    ensures Spent(s, id) <= Spent(Fly(Put(s, id, job), id, f), id)
    ensures Truthful(s, id) ==> Truthful(Fly(Put(s, id, job), id, f), id)
  {
  }

  // ---------------------------------------------------------------- the executor's steps

  lemma FlightFits(s: State, id: string)
    requires JobsOk(s) && id in s.jobs && id in s.flights
    ensures s.jobs[id].id == id && JobOk(s.jobs[id]) && FlightOk(s.jobs[id], s.flights[id])
  {
    assert Fits(s, id);
  }

  lemma AdmitAdmits(s: State, id: string)
    requires JobsOk(s) && In(s, id, Checked)
    ensures AdmittedBy(s, RecordAdmission(s, id), id)
  {
    FlightFits(s, id);
    var after, g := AdmittedJob(s.jobs[id], s.flights[id]);
    AdmissionPut(s, id, after, g);
  }

  lemma AdmissionPut(s: State, id: string, after: seq<Attempt>, g: Flight)
    requires JobsOk(s) && In(s, id, Checked) && g.stage == AdmittedStage && g.revision == s.flights[id].revision
    requires s.jobs[id].attempts <= |s.jobs[id].records| <= |after|
    requires after == s.jobs[id].records[..s.jobs[id].attempts] + [Admission(s.jobs[id], s.flights[id].revision)]
    requires JobOk(s.jobs[id].(records := after)) && FlightOk(s.jobs[id].(records := after), g)
    ensures AdmittedBy(s, Fly(Put(s, id, s.jobs[id].(records := after)), id, g), id)
  {
    FlightFits(s, id);
    ReplacedKept(s, id, s.jobs[id].(records := after), g);
    SpentByAdmission(s, id, after, g);
  }

  lemma SpentByAdmission(s: State, id: string, after: seq<Attempt>, g: Flight)
    requires In(s, id, Checked) && g.stage == AdmittedStage && s.jobs[id].attempts <= |s.jobs[id].records|
    requires s.jobs[id].attempts <= |after|
    ensures Spent(s, id) == s.jobs[id].attempts
    ensures Spent(Fly(Put(s, id, s.jobs[id].(records := after)), id, g), id) == s.jobs[id].attempts
  {
  }

  lemma AdmittedJob(job: Job, f: Flight) returns (after: seq<Attempt>, g: Flight)
    requires JobOk(job) && FlightOk(job, f) && f.stage == Checked
    ensures after == Upsert(job.records, Admission(job, f.revision))
    ensures g == f.(stage := AdmittedStage, open := f.open + [job.attempts + 1])
    ensures job.attempts <= |job.records| <= |after|
    ensures after == job.records[..job.attempts] + [Admission(job, f.revision)]
    ensures JobOk(job.(records := after)) && FlightOk(job.(records := after), g)
  {
    AdmissionInChain(job, f.revision);
    after, g := Upsert(job.records, Admission(job, f.revision)),
        f.(stage := AdmittedStage, open := f.open + [job.attempts + 1]);
    assert after == job.records[..job.attempts] + [Admission(job, f.revision)];
    assert forall r :: r in job.records[..job.attempts] ==> r in job.records;
  }

  lemma CountQuiet(limit: int, s: State, id: string)
    requires AllListed(s) && JobsOk(s) && In(s, id, AdmittedStage)
    ensures Quiet(limit, s, Step(limit, s, Count(id)), id)
  {
    var job, f := CountedJob(s.jobs[id], s.flights[id].repair), s.flights[id].(stage := Counted);
    FlightFits(s, id);
    ReplacedKept(s, id, job, f);
    SpentByCount(s, id, job, f);
  }

  lemma SpentByCount(s: State, id: string, job: Job, f: Flight)
    requires In(s, id, AdmittedStage) && f == s.flights[id].(stage := Counted)
    requires job.attempts == s.jobs[id].attempts + 1 && job.records == s.jobs[id].records
    ensures Spent(s, id) <= Spent(Fly(Put(s, id, job), id, f), id)
    ensures Truthful(s, id) ==> Truthful(Fly(Put(s, id, job), id, f), id)
  {
  }

  lemma MarkQuiet(limit: int, s: State, id: string)
    requires JobsOk(s) && In(s, id, Counted) && s.flights[id].open != []
    ensures Quiet(limit, s, MarkInnermost(s, id), id)
  {
    FlightFits(s, id);
    var job, f := s.jobs[id], s.flights[id];
    var n := f.open[|f.open| - 1];
    JobTouched(job, f.(stage := Marked), n, Running);
    ReplacedQuiet(limit, s, id, job.(records := Touch(job.records, n, Running)), f.(stage := Marked));
  }

  lemma SettleQuiet(limit: int, s: State, id: string)
    requires AllListed(s) && JobsOk(s) && In(s, id, Unwinding)
    ensures Quiet(limit, s, SettleInnermost(s, id), id)
  {
    FlightFits(s, id);
    var job, f := s.jobs[id], s.flights[id];
    if f.open == [] {
      LandedQuiet(limit, s, id);
    } else {
      var n, g := f.open[|f.open| - 1], f.(open := f.open[..|f.open| - 1]);
      assert forall x :: x in g.open ==> x in f.open;
      assert n in f.open;
      JobTouched(job, g, n, Ended);
      ReplacedQuiet(limit, s, id, job.(records := Touch(job.records, n, Ended)), g);
    }
  }

  lemma UnwoundQuiet(limit: int, s: State, id: string)
    requires JobsOk(s) && id in s.jobs && id in s.flights
    ensures Quiet(limit, s, Unwind(s, id), id)
  {
    FlightFits(s, id);
    FlownQuiet(limit, s, id, s.flights[id].(stage := Unwinding));
  }

  lemma ExitQuiet(limit: int, s: State, id: string)
    requires AllListed(s) && JobsOk(s) && In(s, id, Launched)
    ensures Quiet(limit, s, AfterWorker(limit, s, id), id)
  {
    var after := AfterWorker(limit, s, id);
    if after == Fail(s, id) {
      FailQuiet(limit, s, id);
    } else if after == Unwind(s, id) {
      UnwoundQuiet(limit, s, id);
    } else {
      FlightFits(s, id);
      FlownQuiet(limit, s, id, s.flights[id].(stage := Again));
    }
  }

  lemma ReloadQuiet(limit: int, s: State, id: string)
    requires AllListed(s) && JobsOk(s) && In(s, id, Again)
    ensures Quiet(limit, s, LoadAgain(s, id), id)
  {
    if Terminal(s.jobs[id].status) {
      UnwoundQuiet(limit, s, id);
    } else {
      LoadedQuiet(limit, s, id, s.flights[id].(stage := Loaded, repair := NeedsRepair(s.jobs[id])));
    }
  }

  lemma LoadedQuiet(limit: int, s: State, id: string, f: Flight)
    requires JobsOk(s) && id in s.jobs && f.stage == Loaded
    requires f.open == [] || (id in s.flights && f.open == s.flights[id].open)
    ensures Quiet(limit, s, Fly(s, id, f), id)
  {
    assert Fits(s, id);
    FlownQuiet(limit, s, id, f);
  }

  lemma ClaimQuiet(limit: int, s: State, id: string, revision: string)
    requires AllListed(s) && JobsOk(s) && In(s, id, Loaded)
    requires s.jobs[id].frozen.Some? ==> s.jobs[id].frozen.value == revision
    ensures Quiet(limit, s, Step(limit, s, Claim(id, revision)), id)
  {
    if Affordable(limit, s, s.jobs[id].work, revision) {
      CheckedQuiet(limit, s, id, revision);
    } else {
      FailQuiet(limit, s, id);
    }
  }

  lemma CheckedQuiet(limit: int, s: State, id: string, revision: string)
    requires AllListed(s) && JobsOk(s) && In(s, id, Loaded) && Affordable(limit, s, s.jobs[id].work, revision)
    requires s.jobs[id].frozen.Some? ==> s.jobs[id].frozen.value == revision
    ensures Quiet(limit, s, Fly(s, id, s.flights[id].(stage := Checked, revision := revision)), id)
  {
    FlightFits(s, id);
    FlownKept(s, id, s.flights[id].(stage := Checked, revision := revision));
  }

  lemma LaunchLaunches(s: State, id: string)
    requires JobsOk(s) && In(s, id, Marked)
    ensures LaunchedBy(s, Launching(s, id), id)
  {
    var f := s.flights[id].(stage := Launched);
    FlightFits(s, id);
    FlownKept(s, id, f);
    KeptBesideLaunches(s, Fly(s, id, f), Launching(s, id), id);
    SpentByLaunch(s, id);
  }

  lemma SpentByLaunch(s: State, id: string)
    requires In(s, id, Marked) && Fits(s, id)
    ensures Spent(s, id) + 1 == Spent(Launching(s, id), id) == |s.jobs[id].records|
    ensures Truthful(s, id) ==> s.jobs[id].records[Spent(s, id)].revision == s.flights[id].revision
  {
  }

  lemma KeptBesideLaunches(s: State, t: State, u: State, id: string)
    requires Kept(s, t, id) && u == t.(launches := u.launches)
    ensures Kept(s, u, id)
  {
    assert Fits(t, id);
  }

  lemma NothingQuiet(limit: int, s: State, id: string)
    requires AllListed(s) && JobsOk(s) && id in s.jobs
    ensures Quiet(limit, s, s, id)
  {
    assert Fits(s, id);
  }

  lemma StartQuiet(limit: int, s: State, id: string)
    requires AllListed(s) && JobsOk(s) && id in s.jobs
    ensures Quiet(limit, s, Step(limit, s, Start(id)), id)
  {
    if Grounded(s, id) && !Terminal(s.jobs[id].status) {
      LoadedQuiet(limit, s, id, Flight(Loaded, "", [], NeedsRepair(s.jobs[id])));
    } else {
      NothingQuiet(limit, s, id);
    }
  }

  // ---------------------------------------------------------------- the reconciliation's steps

  /** Reconciliations in progress are nobody else's business. */
  lemma QuietBesideReconciling(limit: int, s: State, t: State, u: State, id: string)
    requires AllListed(s) && Quiet(limit, s, t, id) && u == t.(reconcilers := u.reconcilers)
    ensures Quiet(limit, s, u, id)
  {
    KeptBesideReconciling(s, t, u, id);
    ClearedBesideReconciling(limit, s, t, u, id);
  }

  lemma KeptBesideReconciling(s: State, t: State, u: State, id: string)
    requires Kept(s, t, id) && u == t.(reconcilers := u.reconcilers)
    ensures Kept(s, u, id) && Spent(u, id) == Spent(t, id)
  {
  }

  lemma ClearedBesideReconciling(limit: int, s: State, t: State, u: State, id: string)
    requires AllListed(s) && Cleared(limit, s, t, id) && u == t.(reconcilers := u.reconcilers)
    ensures Cleared(limit, s, u, id) && (Truthful(t, id) ==> Truthful(u, id))
  {
  }

  lemma FailOrphanQuiet(limit: int, s: State, id: string, pass: nat)
    requires AllListed(s) && JobsOk(s) && At(s, id, pass) && s.reconcilers[pass].phase.Listed?
    ensures Quiet(limit, s, Step(limit, s, FailOrphan(id, pass)), id)
  {
    var t := Put(s, id, s.jobs[id].(status := JobFailed));
    StatusQuiet(limit, s, id, JobFailed, s.jobs[id].repairReady);
    QuietBesideReconciling(limit, s, t, Advance(t, id, pass, Phase.Failed), id);
  }

  /** What a settlement does to a chain: one record becomes what was read, settled. */
  lemma ReadInChain(job: Job, phase: Phase)
    requires JobOk(job) && PhaseOk(job, phase) && phase.Settling? && phase.next < |phase.snapshot|
    ensures var a := phase.snapshot[phase.next];
            && a.number == phase.next + 1
            && Upsert(job.records, Settled(a)) == job.records[phase.next := Settled(a)]
            && JobOk(job.(records := job.records[phase.next := Settled(a)]))
  {
    var a := phase.snapshot[phase.next];
    assert InPlace(a, job.id, phase.next) && InPlace(job.records[phase.next], job.id, phase.next);
    UpsertReplaces(job.id, job.records, Settled(a));
    var after := job.records[phase.next := Settled(a)];
    forall i | 0 <= i < |after|
      ensures InPlace(after[i], job.id, i)
    {
      assert InPlace(job.records[i], job.id, i);
    }
    assert a in phase.snapshot && forall r :: r in after ==> r == Settled(a) || r in job.records;
  }

  lemma ReadKeepsFlight(job: Job, f: Flight, records: seq<Attempt>)
    requires FlightOk(job, f) && |records| == |job.records|
    ensures FlightOk(job.(records := records), f)
  {
  }

  lemma SettledKept(s: State, id: string, phase: Phase)
    requires JobsOk(s) && id in s.jobs && PhaseOk(s.jobs[id], phase) && phase.Settling?
    requires phase.next < |phase.snapshot|
    ensures var a, job := phase.snapshot[phase.next], s.jobs[id];
            var after := job.(records := job.records[phase.next := Settled(a)]);
            && after == job.(records := Upsert(job.records, Settled(a))) && a.number == phase.next + 1
            && Kept(s, Put(s, id, after), id)
            && (a.revision == job.records[phase.next].revision ==>
                  SameRevisions(job.records, after.records) && JobOk(after)
                  && (id in s.flights ==> FlightOk(after, s.flights[id])))
  {
    assert Fits(s, id);
    var a, job := phase.snapshot[phase.next], s.jobs[id];
    var records := job.records[phase.next := Settled(a)];
    ReadInChain(job, phase);
    if id in s.flights {
      ReadKeepsFlight(job, s.flights[id], records);
    }
    PutKept(s, id, job.(records := records));
  }

  lemma SettleReadQuiet(limit: int, s: State, id: string, pass: nat)
    requires AllListed(s) && Structure(s) && SettlingAt(s, id, pass) && !Stale(s, SettleOrphan(id, pass))
    ensures Quiet(limit, s, SettleRead(s, id, pass), id)
  {
    var a, phase := NextRead(s, id, pass), s.reconcilers[pass].phase;
    assert ReconcilerOk(s, s.reconcilers[pass]);
    if Incomplete(a.status) {
      SettledKept(s, id, phase);
      PutQuiet(limit, s, id, s.jobs[id].(records := s.jobs[id].records[phase.next := Settled(a)]));
    } else {
      NothingQuiet(limit, s, id);
    }
  }

  lemma SettleOrphanQuiet(limit: int, s: State, id: string, pass: nat)
    requires AllListed(s) && Structure(s) && SettlingAt(s, id, pass) && !Stale(s, SettleOrphan(id, pass))
    ensures Quiet(limit, s, Step(limit, s, SettleOrphan(id, pass)), id)
  {
    SettleReadQuiet(limit, s, id, pass);
    QuietBesideReconciling(limit, s, SettleRead(s, id, pass), Step(limit, s, SettleOrphan(id, pass)), id);
  }

  lemma StaleRestores(limit: int, s: State, id: string, pass: nat)
    requires AllListed(s) && Structure(s) && Stale(s, SettleOrphan(id, pass))
    ensures RestoredBy(s, Step(limit, s, SettleOrphan(id, pass)), id, NextRead(s, id, pass))
  {
    StaleReadRestores(s, id, pass);
    RestoredBesideReconciling(s, SettleRead(s, id, pass), Step(limit, s, SettleOrphan(id, pass)), id,
                              NextRead(s, id, pass));
  }

  lemma StaleReadRestores(s: State, id: string, pass: nat)
    requires Structure(s) && Stale(s, SettleOrphan(id, pass))
    ensures RestoredBy(s, SettleRead(s, id, pass), id, NextRead(s, id, pass))
  {
    assert ReconcilerOk(s, s.reconcilers[pass]);
    SettledKept(s, id, s.reconcilers[pass].phase);
    FrozenIsNeverStale(s, id, s.reconcilers[pass].phase);
  }

  lemma RestoredBesideReconciling(s: State, t: State, u: State, id: string, a: Attempt)
    requires RestoredBy(s, t, id, a) && u == t.(reconcilers := u.reconcilers)
    ensures RestoredBy(s, u, id, a)
  {
    KeptBesideReconciling(s, t, u, id);
  }

  /** With frozen inputs every record, read or stored, carries the same revision. */
  lemma FrozenIsNeverStale(s: State, id: string, phase: Phase)
    requires JobsOk(s) && id in s.jobs && PhaseOk(s.jobs[id], phase) && phase.Settling?
    requires phase.next < |phase.snapshot|
    requires phase.snapshot[phase.next].revision != s.jobs[id].records[phase.next].revision
    ensures s.jobs[id].frozen.None?
  {
    assert Fits(s, id);
    assert phase.snapshot[phase.next] in phase.snapshot && s.jobs[id].records[phase.next] in s.jobs[id].records;
  }

  /** Reconciliations that list, read or leave a job do not touch it. */
  lemma OnlyReconciling(limit: int, s: State, a: Action)
    requires AllListed(s) && !a.Create?
    requires a.ListOrphan? || a.LoadOrphan? || a.LeaveOrphan?
             || (a.FailOrphan? && !(At(s, a.id, a.pass) && s.reconcilers[a.pass].phase.Listed?))
             || (a.SettleOrphan? && !SettlingAt(s, a.id, a.pass))
    ensures Step(limit, s, a) == s.(reconcilers := Step(limit, s, a).reconcilers)
  {
  }

  lemma ReconcileQuiet(limit: int, s: State, a: Action)
    requires AllListed(s) && Structure(s) && !Stale(s, a) && !a.Create? && a.id in s.jobs
    requires a.ListOrphan? || a.FailOrphan? || a.LoadOrphan? || a.SettleOrphan? || a.LeaveOrphan?
    ensures Quiet(limit, s, Step(limit, s, a), a.id)
  {
    if a.FailOrphan? && At(s, a.id, a.pass) && s.reconcilers[a.pass].phase.Listed? {
      FailOrphanQuiet(limit, s, a.id, a.pass);
    } else if a.SettleOrphan? && SettlingAt(s, a.id, a.pass) {
      SettleOrphanQuiet(limit, s, a.id, a.pass);
    } else {
      OnlyReconciling(limit, s, a);
      NothingQuiet(limit, s, a.id);
      QuietBesideReconciling(limit, s, s, Step(limit, s, a), a.id);
    }
  }

  // ---------------------------------------------------------------- any step

  ghost predicate Outcome(limit: int, s: State, a: Action, t: State)
    requires AllListed(s) && !a.Create?
  {
    if Admits(s, a) then AdmittedBy(s, t, a.id)
    else if LaunchesWorker(s, a) then LaunchedBy(s, t, a.id)
    else if Stale(s, a) then RestoredBy(s, t, a.id, NextRead(s, a.id, a.pass))
    else Quiet(limit, s, t, a.id)
  }

  /** The steps of the executor that holds the job. */
  lemma ExecutorStepSummary(limit: int, s: State, a: Action)
    requires AllListed(s) && Structure(s) && !a.Create? && a.id in s.jobs && Step(limit, s, a) != s
    requires a.Claim? || a.Count? || a.SaveEnvironment? || a.MarkRunning? || a.Exit? || a.Reload? || a.Settle?
    ensures Quiet(limit, s, Step(limit, s, a), a.id)
  {
    var id := a.id;
    match a
    case Claim(_, revision) => ClaimQuiet(limit, s, id, revision);
    case Count(_) => CountQuiet(limit, s, id);
    case SaveEnvironment(_) => StatusQuiet(limit, s, id, JobRunning, s.jobs[id].repairReady);
    case MarkRunning(_) => MarkQuiet(limit, s, id);
    case Exit(_) => ExitQuiet(limit, s, id);
    case Reload(_) => ReloadQuiet(limit, s, id);
    case Settle(_) => SettleQuiet(limit, s, id);
  }

  /** Starting and giving up. */
  lemma OtherStepSummary(limit: int, s: State, a: Action)
    requires AllListed(s) && Structure(s) && !a.Create? && a.id in s.jobs && Step(limit, s, a) != s
    requires a.Start? || a.Release? || a.Abort? || a.Crash?
    ensures Quiet(limit, s, Step(limit, s, a), a.id)
  {
    match a
    case Start(id) => StartQuiet(limit, s, id);
    case Release(id) => UnwoundQuiet(limit, s, id);
    case Abort(id) => FailQuiet(limit, s, id);
    case Crash(id) => LandedQuiet(limit, s, id);
  }

  /** Every step other than a creation changes one job at most: it admits, launches, writes a stale record
      back or is quiet. */
  lemma StepSummary(limit: int, s: State, a: Action)
    requires AllListed(s) && Structure(s) && !a.Create? && a.id in s.jobs
    ensures Outcome(limit, s, a, Step(limit, s, a))
  {
    if Admits(s, a) {
      AdmitAdmits(s, a.id);
    } else if LaunchesWorker(s, a) {
      LaunchLaunches(s, a.id);
    } else if Stale(s, a) {
      StaleRestores(limit, s, a.id, a.pass);
    } else {
      QuietSummary(limit, s, a);
    }
  }

  lemma QuietSummary(limit: int, s: State, a: Action)
    requires AllListed(s) && Structure(s) && !a.Create? && a.id in s.jobs
    requires !Admits(s, a) && !LaunchesWorker(s, a) && !Stale(s, a)
    ensures Quiet(limit, s, Step(limit, s, a), a.id)
  {
    if Step(limit, s, a) == s {
      NothingQuiet(limit, s, a.id);
    } else if a.ListOrphan? || a.FailOrphan? || a.LoadOrphan? || a.SettleOrphan? || a.LeaveOrphan? {
      ReconcileQuiet(limit, s, a);
    } else if a.Outside? {
      StatusQuiet(limit, s, a.id, a.status, a.ready);
    } else if a.Start? || a.Release? || a.Abort? || a.Crash? {
      OtherStepSummary(limit, s, a);
    } else {
      ExecutorStepSummary(limit, s, a);
    }
  }

  lemma SummaryKeeps(limit: int, s: State, a: Action, t: State)
    requires AllListed(s) && !a.Create? && Outcome(limit, s, a, t)
    ensures Kept(s, t, a.id)
  {
  }

  lemma NobodySteps(limit: int, s: State, a: Action)
    requires Structure(s) && !a.Create? && a.id !in s.jobs
    ensures Step(limit, s, a) == s
  {
    assert a.id !in s.flights;
    assert s.flights - {a.id} == s.flights;
  }

  lemma ReconcilersUntouched(limit: int, s: State, a: Action)
    requires AllListed(s)
    requires !(a.ListOrphan? || a.FailOrphan? || a.LoadOrphan? || a.SettleOrphan? || a.LeaveOrphan?)
    ensures Step(limit, s, a).reconcilers == s.reconcilers
  {
  }

  /** A reconciliation that is not the one stepping keeps its phase; the one stepping reads what is there. */
  lemma ReconcilersAfter(limit: int, s: State, a: Action, pass: nat)
    requires AllListed(s) && Structure(s) && pass in Step(limit, s, a).reconcilers
    ensures ReconcilerOk(s, Step(limit, s, a).reconcilers[pass])
  {
    if a.ListOrphan? || a.FailOrphan? || a.LoadOrphan? || a.SettleOrphan? || a.LeaveOrphan? {
      ReconcilingAfter(s, a, pass);
    } else {
      ReconcilersUntouched(limit, s, a);
    }
  }

  lemma ReconcilingAfter(s: State, a: Action, pass: nat)
    requires Structure(s)
    requires a.ListOrphan? || a.FailOrphan? || a.LoadOrphan? || a.SettleOrphan? || a.LeaveOrphan?
    requires pass in Reconcile(s, a).reconcilers
    ensures ReconcilerOk(s, Reconcile(s, a).reconcilers[pass])
  {
    if pass in s.reconcilers {
      assert ReconcilerOk(s, s.reconcilers[pass]);
    }
    if a.LoadOrphan? && a.id in s.jobs {
      assert Fits(s, a.id);
    }
  }

  lemma ReconcilersStayOk(limit: int, s: State, a: Action, t: State)
    requires AllListed(s) && Structure(s) && t == Step(limit, s, a) && !a.Create? && Kept(s, t, a.id)
    ensures forall pass :: pass in t.reconcilers ==> ReconcilerOk(t, t.reconcilers[pass])
  {
    forall pass | pass in t.reconcilers
      ensures ReconcilerOk(t, t.reconcilers[pass])
    {
      ReconcilersAfter(limit, s, a, pass);
      KeptKeepsReconciler(s, t, a.id, t.reconcilers[pass]);
    }
  }

  lemma CreationKeepsStructure(limit: int, s: State, job: Job)
    requires AllListed(s) && Structure(s) && Fresh(s, job)
    ensures Structure(Step(limit, s, Create(job)))
  {
    var t := Step(limit, s, Create(job));
    forall x | x in t.jobs
      ensures Fits(t, x)
    {
      if x in s.jobs {
        assert Fits(s, x);
      }
    }
    forall pass | pass in t.reconcilers
      ensures ReconcilerOk(t, t.reconcilers[pass])
    {
      assert ReconcilerOk(s, s.reconcilers[pass]);
    }
  }

  lemma StepKeepsStructure(limit: int, s: State, a: Action)
    requires AllListed(s) && Structure(s)
    ensures Structure(Step(limit, s, a))
  {
    if a.Create? {
      if Fresh(s, a.job) {
        CreationKeepsStructure(limit, s, a.job);
      }
    } else if a.id in s.jobs {
      var t := Step(limit, s, a);
      StepSummary(limit, s, a);
      SummaryKeeps(limit, s, a, t);
      KeptKeepsJobs(s, t, a.id);
      ReconcilersStayOk(limit, s, a, t);
    } else {
      NobodySteps(limit, s, a);
    }
  }

  /** Every reachable state is in order, whoever writes what and when: unique numbers 1 to m per job,
      attempts <= m <= attempts + 1, each record naming the one before. */
  lemma {:induction false} RunsKeepTheChain(limit: int, actions: seq<Action>)
    ensures Structure(Run(limit, actions))
    ensures forall id :: id in Run(limit, actions).jobs ==> JobOk(Run(limit, actions).jobs[id])
  {
    if actions != [] {
      RunsKeepTheChain(limit, actions[..|actions| - 1]);
      StepKeepsStructure(limit, Run(limit, actions[..|actions| - 1]), actions[|actions| - 1]);
    }
    var t := Run(limit, actions);
    forall id | id in t.jobs
      ensures JobOk(t.jobs[id])
    {
      assert Fits(t, id);
    }
  }

  lemma RunSnoc(limit: int, actions: seq<Action>, a: Action)
    ensures Run(limit, actions + [a]) == Step(limit, Run(limit, actions), a)
  {
    assert (actions + [a])[..|actions|] == actions;
  }
}
