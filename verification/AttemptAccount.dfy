// The account of attempts over whole runs: how recorded admissions move, when they and the launches stay
// within the limit, and when the consumed count goes down.
module AttemptAccount {
  import opened Basics
  import opened AttemptRecords
  import opened AttemptBudget

  // ---------------------------------------------------------------- sums over the listing

  function Total(ids: seq<string>, share: string -> nat): nat {
    if ids == [] then 0 else Total(ids[..|ids| - 1], share) + share(ids[|ids| - 1])
  }

  lemma {:induction false} TotalSame(ids: seq<string>, f: string -> nat, g: string -> nat)
    requires forall x :: x in ids ==> f(x) == g(x)
    ensures Total(ids, f) == Total(ids, g)
  {
    if ids != [] {
      var n := |ids| - 1;
      assert ids[n] in ids && forall x :: x in ids[..n] ==> x in ids;
      TotalSame(ids[..n], f, g);
    }
  }

  lemma {:induction false} TotalAt(ids: seq<string>, id: string, f: string -> nat, g: string -> nat)
    requires Distinct(ids) && id in ids
    requires forall x :: x in ids && x != id ==> f(x) == g(x)
    ensures Total(ids, f) + g(id) == Total(ids, g) + f(id)
  {
    var n := |ids| - 1;
    assert ids == ids[..n] + [ids[n]];
    assert forall x :: x in ids[..n] ==> x in ids;
    assert Distinct(ids[..n]);
    if ids[n] == id {
      assert id !in ids[..n];
      TotalSame(ids[..n], f, g);
    } else {
      assert id in ids[..n];
      TotalAt(ids[..n], id, f, g);
    }
  }

  lemma {:induction false} TotalWithin(ids: seq<string>, f: string -> nat, g: string -> nat)
    requires forall x :: x in ids ==> f(x) <= g(x)
    ensures Total(ids, f) <= Total(ids, g)
  {
    if ids != [] {
      var n := |ids| - 1;
      assert ids[n] in ids && forall x :: x in ids[..n] ==> x in ids;
      TotalWithin(ids[..n], f, g);
    }
  }

  // ---------------------------------------------------------------- the account

  function RecordedAt(s: State, work: Work, revision: string): string -> nat {
    (id: string) => if id in s.jobs && s.jobs[id].work == work then CountRevision(s.jobs[id].records, revision) else 0
  }

  function SpentAt(s: State, work: Work, revision: string): string -> nat {
    (id: string) =>
      if id in s.jobs && s.jobs[id].work == work then CountRevision(s.jobs[id].records[..Spent(s, id)], revision)
      else 0
  }

  function ConsumedAt(s: State, work: Work, revision: string): string -> nat {
    (id: string) => if id in s.jobs then Contribution(s.jobs[id], work, revision) else 0
  }

  function LaunchCount(launches: seq<Launch>, work: Work, revision: string): nat {
    if launches == [] then 0
    else
      LaunchCount(launches[..|launches| - 1], work, revision)
      + if launches[|launches| - 1] == Launch(work, revision) then 1 else 0
  }

  lemma {:induction false} SameCount(a: seq<Attempt>, b: seq<Attempt>, revision: string)
    requires SameRevisions(a, b)
    ensures CountRevision(a, revision) == CountRevision(b, revision)
  {
    if a != [] {
      SameCount(a[..|a| - 1], b[..|b| - 1], revision);
    }
  }

  lemma {:induction false} PrefixCount(a: seq<Attempt>, n: nat, revision: string)
    requires n <= |a|
    ensures CountRevision(a[..n], revision) <= CountRevision(a, revision)
    ensures CountRevision(a, revision) <= |a|
  {
    if n < |a| {
      assert a[..|a| - 1][..n] == a[..n];
      PrefixCount(a[..|a| - 1], n, revision);
    } else {
      assert a[..n] == a;
      if a != [] {
        assert a[..|a| - 1][..|a| - 1] == a[..|a| - 1];
        PrefixCount(a[..|a| - 1], |a| - 1, revision);
      }
    }
  }

  lemma {:induction false} ConsumedIsTotal(s: State, ids: seq<string>, work: Work, revision: string)
    requires forall id :: id in ids ==> id in s.jobs
    ensures Consumed(ids, s.jobs, work, revision) == Total(ids, ConsumedAt(s, work, revision))
  {
    if ids != [] {
      var n := |ids| - 1;
      assert ids[n] in ids && forall x :: x in ids[..n] ==> x in ids;
      ConsumedIsTotal(s, ids[..n], work, revision);
    }
  }

  /** The recorded admissions of one work and revision, across its jobs. */
  function Recorded(s: State, work: Work, revision: string): nat {
    Total(s.listing, RecordedAt(s, work, revision))
  }

  lemma RecordedWithinConsumed(s: State, work: Work, revision: string)
    requires AllListed(s)
    ensures Recorded(s, work, revision) <= Consumed(s.listing, s.jobs, work, revision)
  {
    forall id | id in s.listing
      ensures RecordedAt(s, work, revision)(id) <= ConsumedAt(s, work, revision)(id)
    {
      PrefixCount(s.jobs[id].records, 0, revision);
    }
    TotalWithin(s.listing, RecordedAt(s, work, revision), ConsumedAt(s, work, revision));
    ConsumedIsTotal(s, s.listing, work, revision);
  }

  // ---------------------------------------------------------------- what enters and leaves the records

  /** The record a crash left uncounted, which the next admission replaces. */
  predicate LeftOver(job: Job, revision: string) {
    |job.records| == job.attempts + 1 && job.records[job.attempts].revision == revision
  }

  /** An admission that adds to the records of this work and revision. */
  predicate AdmitsNew(s: State, a: Action, work: Work, revision: string) {
    Admits(s, a) && s.jobs[a.id].work == work && s.flights[a.id].revision == revision
        && !LeftOver(s.jobs[a.id], revision)
  }

  /** A re-admission that overwrites a record a crash left uncounted, under changed inputs. */
  predicate Overwrites(s: State, a: Action, work: Work, revision: string) {
    Admits(s, a) && s.jobs[a.id].work == work && s.flights[a.id].revision != revision
        && LeftOver(s.jobs[a.id], revision)
  }

  /** A stale settlement that brings a record of this revision back. */
  predicate Restores(s: State, a: Action, work: Work, revision: string) {
    Stale(s, a) && s.jobs[a.id].work == work && NextRead(s, a.id, a.pass).revision == revision
  }

  /** A stale settlement that overwrites a record of this revision. */
  predicate Loses(s: State, a: Action, work: Work, revision: string) {
    Stale(s, a) && s.jobs[a.id].work == work
        && s.jobs[a.id].records[NextRead(s, a.id, a.pass).number - 1].revision == revision
  }

  predicate Enters(s: State, a: Action, work: Work, revision: string) {
    AdmitsNew(s, a, work, revision) || Restores(s, a, work, revision)
  }

  predicate Leaves(s: State, a: Action, work: Work, revision: string) {
    Overwrites(s, a, work, revision) || Loses(s, a, work, revision)
  }

  lemma SnocCount(records: seq<Attempt>, a: Attempt, revision: string)
    ensures CountRevision(records + [a], revision)
            == CountRevision(records, revision) + if a.revision == revision then 1 else 0
  {
    assert (records + [a])[..|records|] == records;
  }

  lemma {:induction false} ReplacedCount(records: seq<Attempt>, k: nat, a: Attempt, revision: string)
    requires k < |records|
    ensures CountRevision(records[k := a], revision) + (if records[k].revision == revision then 1 else 0)
            == CountRevision(records, revision) + if a.revision == revision then 1 else 0
  {
    var n := |records| - 1;
    if k == n {
      assert records[k := a][..n] == records[..n];
    } else {
      assert records[k := a][..n] == records[..n][k := a];
      ReplacedCount(records[..n], k, a, revision);
    }
  }

  /** What an admission does to the number of records of a revision. */
  lemma AdmittedCount(job: Job, f: Flight, after: Job, revision: string)
    requires job.attempts <= |job.records| <= job.attempts + 1
    requires after == job.(records := job.records[..job.attempts] + [Admission(job, f.revision)])
    ensures CountRevision(after.records, revision)
            == CountRevision(job.records, revision) + (if f.revision == revision then 1 else 0)
               - if LeftOver(job, revision) then 1 else 0
  {
    var n := job.attempts;
    SnocCount(job.records[..n], Admission(job, f.revision), revision);
    if |job.records| == n {
      assert job.records[..n] == job.records;
    } else {
      assert job.records == job.records[..n] + [job.records[n]];
      SnocCount(job.records[..n], job.records[n], revision);
    }
  }

  lemma RecordsWhenAdmitting(s: State, a: Action, t: State, work: Work, revision: string)
    requires Structure(s) && Admits(s, a) && AdmittedBy(s, t, a.id) && s.jobs[a.id].work == work
    ensures CountRevision(t.jobs[a.id].records, revision)
            == CountRevision(s.jobs[a.id].records, revision) + (if Enters(s, a, work, revision) then 1 else 0)
               - if Leaves(s, a, work, revision) then 1 else 0
  {
    FlightFits(s, a.id);
    AdmittedCount(s.jobs[a.id], s.flights[a.id], t.jobs[a.id], revision);
  }

  lemma RecordsWhenStale(s: State, a: Action, t: State, work: Work, revision: string)
    requires Stale(s, a) && RestoredBy(s, t, a.id, NextRead(s, a.id, a.pass)) && s.jobs[a.id].work == work
    ensures CountRevision(t.jobs[a.id].records, revision)
            == CountRevision(s.jobs[a.id].records, revision) + (if Enters(s, a, work, revision) then 1 else 0)
               - if Leaves(s, a, work, revision) then 1 else 0
  {
    var read := NextRead(s, a.id, a.pass);
    ReplacedCount(s.jobs[a.id].records, read.number - 1, Settled(read), revision);
  }

  lemma RecordsOtherwise(s: State, a: Action, t: State, work: Work, revision: string)
    requires !Admits(s, a) && !Stale(s, a) && !a.Create? && a.id in s.jobs && a.id in t.jobs
    requires SameRevisions(s.jobs[a.id].records, t.jobs[a.id].records)
    ensures CountRevision(t.jobs[a.id].records, revision) == CountRevision(s.jobs[a.id].records, revision)
    ensures !Enters(s, a, work, revision) && !Leaves(s, a, work, revision)
  {
    SameCount(s.jobs[a.id].records, t.jobs[a.id].records, revision);
  }

  lemma OtherwiseSameRevisions(limit: int, s: State, a: Action, t: State)
    requires AllListed(s) && !a.Create? && Outcome(limit, s, a, t) && !Admits(s, a) && !Stale(s, a)
    ensures a.id in s.jobs && a.id in t.jobs && SameRevisions(s.jobs[a.id].records, t.jobs[a.id].records)
  {
  }

  /** What a step does to the number of records of one job. */
  lemma OneJobsRecords(limit: int, s: State, a: Action, t: State, work: Work, revision: string)
    requires AllListed(s) && Structure(s) && !a.Create? && a.id in s.jobs && Outcome(limit, s, a, t)
    requires s.jobs[a.id].work == work && a.id in t.jobs
    ensures CountRevision(t.jobs[a.id].records, revision)
            == CountRevision(s.jobs[a.id].records, revision) + (if Enters(s, a, work, revision) then 1 else 0)
               - if Leaves(s, a, work, revision) then 1 else 0
  {
    if Admits(s, a) {
      RecordsWhenAdmitting(s, a, t, work, revision);
    } else if Stale(s, a) {
      RecordsWhenStale(s, a, t, work, revision);
    } else {
      OtherwiseSameRevisions(limit, s, a, t);
      RecordsOtherwise(s, a, t, work, revision);
    }
  }

  lemma CreationRecordsNothing(s: State, job: Job, work: Work, revision: string)
    requires Structure(s) && Fresh(s, job)
    ensures var t := s.(listing := s.listing + [job.id], jobs := s.jobs[job.id := job]);
            Recorded(t, work, revision) == Recorded(s, work, revision)
  {
    var t := s.(listing := s.listing + [job.id], jobs := s.jobs[job.id := job]);
    assert t.listing[..|s.listing|] == s.listing;
    TotalSame(s.listing, RecordedAt(s, work, revision), RecordedAt(t, work, revision));
  }

  lemma RecordedElsewhere(s: State, t: State, id: string, work: Work, revision: string)
    requires OnlyAt(s, t, id)
    ensures forall x :: x != id ==> RecordedAt(s, work, revision)(x) == RecordedAt(t, work, revision)(x)
  {
  }

  lemma RecordedByOutcome(limit: int, s: State, a: Action, t: State, work: Work, revision: string)
    requires AllListed(s) && Structure(s) && !a.Create? && a.id in s.jobs && Outcome(limit, s, a, t)
    ensures Recorded(t, work, revision)
            == Recorded(s, work, revision) + (if Enters(s, a, work, revision) then 1 else 0)
               - if Leaves(s, a, work, revision) then 1 else 0
  {
    SummaryKeeps(limit, s, a, t);
    RecordedMoves(s, t, a.id, work, revision);
    if s.jobs[a.id].work == work {
      OneJobsRecords(limit, s, a, t, work, revision);
    } else {
      OtherWorkStays(s, a, work, revision);
    }
  }

  lemma RecordedMoves(s: State, t: State, id: string, work: Work, revision: string)
    requires Structure(s) && Kept(s, t, id)
    ensures id in s.jobs && id in t.jobs && t.jobs[id].work == s.jobs[id].work
    ensures if s.jobs[id].work == work
            then Recorded(t, work, revision) + CountRevision(s.jobs[id].records, revision)
                 == Recorded(s, work, revision) + CountRevision(t.jobs[id].records, revision)
            else Recorded(t, work, revision) == Recorded(s, work, revision)
  {
    RecordedElsewhere(s, t, id, work, revision);
    TotalAt(s.listing, id, RecordedAt(s, work, revision), RecordedAt(t, work, revision));
  }

  lemma OtherWorkStays(s: State, a: Action, work: Work, revision: string)
    requires !a.Create? && a.id in s.jobs && s.jobs[a.id].work != work
    ensures !Enters(s, a, work, revision) && !Leaves(s, a, work, revision)
  {
  }

  lemma NeverBoth(s: State, a: Action, work: Work, revision: string)
    ensures !(Enters(s, a, work, revision) && Leaves(s, a, work, revision))
  {
  }

  /** The recorded admissions move by what enters and leaves, whatever the step, and never both at once. */
  lemma RecordedChange(limit: int, s: State, a: Action, work: Work, revision: string)
    requires AllListed(s) && Structure(s)
    ensures Recorded(Step(limit, s, a), work, revision)
            == Recorded(s, work, revision) + (if Enters(s, a, work, revision) then 1 else 0)
               - if Leaves(s, a, work, revision) then 1 else 0
    ensures !(Enters(s, a, work, revision) && Leaves(s, a, work, revision))
  {
    NeverBoth(s, a, work, revision);
    if a.Create? {
      if Fresh(s, a.job) {
        CreationRecordsNothing(s, a.job, work, revision);
      }
    } else if a.id in s.jobs {
      StepSummary(limit, s, a);
      RecordedByOutcome(limit, s, a, Step(limit, s, a), work, revision);
    } else {
      NobodySteps(limit, s, a);
    }
  }

  // ---------------------------------------------------------------- whole runs

  /** The state before the step at `k`. */
  function StateAt(limit: int, actions: seq<Action>, k: nat): State
    requires k <= |actions|
  {
    Run(limit, actions[..k])
  }

  lemma NextState(limit: int, actions: seq<Action>, k: nat)
    requires k < |actions|
    ensures Structure(StateAt(limit, actions, k)) && AllListed(StateAt(limit, actions, k))
    ensures StateAt(limit, actions, k + 1) == Step(limit, StateAt(limit, actions, k), actions[k])
  {
    RunsKeepTheChain(limit, actions[..k]);
    RunSnoc(limit, actions[..k], actions[k]);
    assert actions[..k] + [actions[k]] == actions[..k + 1];
  }

  lemma StateAtEnd(limit: int, actions: seq<Action>)
    ensures StateAt(limit, actions, |actions|) == Run(limit, actions)
  {
    assert actions[..|actions|] == actions;
  }

  /** Whatever enters the records still finds room in the account at the moment it is written. */
  predicate AlwaysRoom(limit: int, actions: seq<Action>, work: Work, revision: string) {
    forall k :: 0 <= k < |actions| && Enters(StateAt(limit, actions, k), actions[k], work, revision)
      ==> Recorded(StateAt(limit, actions, k), work, revision) < limit
  }

  /** At no time are more admissions recorded than the limit allows. */
  predicate StaysWithin(limit: int, actions: seq<Action>, work: Work, revision: string) {
    forall k :: 0 <= k <= |actions| ==> Recorded(StateAt(limit, actions, k), work, revision) <= limit
  }

  lemma {:induction false} RoomKeepsWithin(limit: int, actions: seq<Action>, work: Work, revision: string, k: nat)
    requires 0 < limit && AlwaysRoom(limit, actions, work, revision) && k <= |actions|
    ensures Recorded(StateAt(limit, actions, k), work, revision) <= limit
    decreases k
  {
    if k > 0 {
      RoomKeepsWithin(limit, actions, work, revision, k - 1);
      NextState(limit, actions, k - 1);
      RecordedChange(limit, StateAt(limit, actions, k - 1), actions[k - 1], work, revision);
    }
  }

  /** Over every run, whoever writes what and when: the recorded admissions stay within the limit if and only
      if every write that enters one still finds room. */
  lemma RecordsStayWithinIffRoom(limit: int, actions: seq<Action>, work: Work, revision: string)
    requires 0 < limit
    ensures StaysWithin(limit, actions, work, revision) <==> AlwaysRoom(limit, actions, work, revision)
  {
    if AlwaysRoom(limit, actions, work, revision) {
      forall k | 0 <= k <= |actions|
        ensures Recorded(StateAt(limit, actions, k), work, revision) <= limit
      {
        RoomKeepsWithin(limit, actions, work, revision, k);
      }
    } else {
      var k :| 0 <= k < |actions| && Enters(StateAt(limit, actions, k), actions[k], work, revision)
          && Recorded(StateAt(limit, actions, k), work, revision) >= limit;
      NextState(limit, actions, k);
      RecordedChange(limit, StateAt(limit, actions, k), actions[k], work, revision);
      assert Recorded(StateAt(limit, actions, k + 1), work, revision) > limit;
    }
  }

  // ---------------------------------------------------------------- launches are recorded

  lemma SpentCount(before: seq<Attempt>, after: seq<Attempt>, n: nat, m: nat, revision: string)
    requires SameRevisions(before, after) && n <= m <= |after|
    ensures CountRevision(before[..n], revision) <= CountRevision(after[..m], revision)
  {
    SameCount(before[..n], after[..n], revision);
    assert after[..m][..n] == after[..n];
    PrefixCount(after[..m], n, revision);
  }

  lemma SpentQuiet(limit: int, s: State, t: State, id: string, work: Work, revision: string)
    requires AllListed(s) && Structure(s) && Quiet(limit, s, t, id)
    ensures Total(t.listing, SpentAt(t, work, revision)) >= Total(s.listing, SpentAt(s, work, revision))
  {
    SpentCount(s.jobs[id].records, t.jobs[id].records, Spent(s, id), Spent(t, id), revision);
    SpentElsewhere(s, t, id, work, revision);
    TotalAt(s.listing, id, SpentAt(s, work, revision), SpentAt(t, work, revision));
  }

  lemma SpentElsewhere(s: State, t: State, id: string, work: Work, revision: string)
    requires OnlyAt(s, t, id)
    ensures forall x :: x != id ==> SpentAt(s, work, revision)(x) == SpentAt(t, work, revision)(x)
  {
  }

  lemma SpentAdmission(s: State, t: State, id: string, work: Work, revision: string)
    requires Structure(s) && AdmittedBy(s, t, id)
    ensures Total(t.listing, SpentAt(t, work, revision)) == Total(s.listing, SpentAt(s, work, revision))
  {
    var n := s.jobs[id].attempts;
    assert s.jobs[id].records[..n] == t.jobs[id].records[..n];
    SpentElsewhere(s, t, id, work, revision);
    TotalSame(s.listing, SpentAt(s, work, revision), SpentAt(t, work, revision));
  }

  lemma SpentLaunch(s: State, t: State, id: string, work: Work, revision: string)
    requires Structure(s) && LaunchedBy(s, t, id) && Truthful(s, id)
    ensures Total(t.listing, SpentAt(t, work, revision)) == Total(s.listing, SpentAt(s, work, revision))
              + if s.jobs[id].work == work && s.flights[id].revision == revision then 1 else 0
  {
    var n, records := Spent(s, id), s.jobs[id].records;
    assert records[..n + 1] == records[..n] + [records[n]];
    SnocCount(records[..n], records[n], revision);
    SpentElsewhere(s, t, id, work, revision);
    TotalAt(s.listing, id, SpentAt(s, work, revision), SpentAt(t, work, revision));
  }

  lemma CreationSpendsNothing(s: State, job: Job, work: Work, revision: string)
    requires Structure(s) && Fresh(s, job)
    ensures var t := s.(listing := s.listing + [job.id], jobs := s.jobs[job.id := job]);
            Total(t.listing, SpentAt(t, work, revision)) == Total(s.listing, SpentAt(s, work, revision))
  {
    var t := s.(listing := s.listing + [job.id], jobs := s.jobs[job.id := job]);
    assert t.listing[..|s.listing|] == s.listing;
    assert job.records[..Spent(t, job.id)] == [];
    CreationElsewhere(s, t, job.id, work, revision);
    TotalSame(s.listing, SpentAt(s, work, revision), SpentAt(t, work, revision));
  }

  lemma CreationElsewhere(s: State, t: State, id: string, work: Work, revision: string)
    requires id !in s.jobs && id in t.jobs && t.jobs == s.jobs[id := t.jobs[id]] && t.flights == s.flights
    ensures forall x :: x in s.jobs ==> SpentAt(s, work, revision)(x) == SpentAt(t, work, revision)(x)
  {
  }

  predicate LaunchesSpent(s: State, work: Work, revision: string) {
    LaunchCount(s.launches, work, revision) <= Total(s.listing, SpentAt(s, work, revision))
  }

  /** Every executor between admission and launch has its own record, and the launches are within the spent
      records. */
  ghost predicate Traced(s: State, work: Work, revision: string) {
    && (forall id :: id in s.flights ==> Truthful(s, id))
    && LaunchesSpent(s, work, revision)
  }

  lemma TruthElsewhere(s: State, t: State, id: string)
    requires OnlyAt(s, t, id) && Truthful(t, id) && forall x :: x in s.flights ==> Truthful(s, x)
    ensures forall x :: x in t.flights ==> Truthful(t, x)
  {
    forall x | x in t.flights
      ensures Truthful(t, x)
    {
      if x != id {
        assert x in s.flights && Truthful(s, x);
      }
    }
  }

  lemma LaunchIsSpent(s: State, t: State, id: string, work: Work, revision: string)
    requires Structure(s) && LaunchedBy(s, t, id) && Truthful(s, id) && LaunchesSpent(s, work, revision)
    ensures LaunchesSpent(t, work, revision)
  {
    SpentLaunch(s, t, id, work, revision);
    assert t.launches[..|s.launches|] == s.launches;
  }

  lemma OutcomeIsSpent(limit: int, s: State, a: Action, t: State, work: Work, revision: string)
    requires AllListed(s) && Structure(s) && LaunchesSpent(s, work, revision) && !a.Create? && a.id in s.jobs
    requires Outcome(limit, s, a, t) && !Stale(s, a) && Truthful(s, a.id)
    ensures LaunchesSpent(t, work, revision)
  {
    if Admits(s, a) {
      SpentAdmission(s, t, a.id, work, revision);
    } else if LaunchesWorker(s, a) {
      LaunchIsSpent(s, t, a.id, work, revision);
    } else {
      SpentQuiet(limit, s, t, a.id, work, revision);
    }
  }

  lemma OutcomeIsTruthful(limit: int, s: State, a: Action, t: State)
    requires AllListed(s) && !a.Create? && Outcome(limit, s, a, t) && !Stale(s, a) && Truthful(s, a.id)
    ensures Truthful(t, a.id)
  {
  }

  lemma OutcomeIsTraced(limit: int, s: State, a: Action, t: State, work: Work, revision: string)
    requires AllListed(s) && Structure(s) && Traced(s, work, revision) && !a.Create? && a.id in s.jobs
    requires Outcome(limit, s, a, t) && !Stale(s, a)
    ensures Traced(t, work, revision)
  {
    assert Truthful(s, a.id);
    OutcomeIsSpent(limit, s, a, t, work, revision);
    OutcomeIsTruthful(limit, s, a, t);
    SummaryKeeps(limit, s, a, t);
    TruthElsewhere(s, t, a.id);
  }

  lemma StepKeepsTrace(limit: int, s: State, a: Action, work: Work, revision: string)
    requires AllListed(s) && Structure(s) && Traced(s, work, revision) && !Stale(s, a)
    ensures Traced(Step(limit, s, a), work, revision)
  {
    if a.Create? {
      if Fresh(s, a.job) {
        CreationSpendsNothing(s, a.job, work, revision);
        forall id | id in s.flights
          ensures Truthful(Step(limit, s, a), id)
        {
          assert Truthful(s, id);
        }
      }
    } else if a.id in s.jobs {
      StepSummary(limit, s, a);
      OutcomeIsTraced(limit, s, a, Step(limit, s, a), work, revision);
    } else {
      NobodySteps(limit, s, a);
    }
  }

  /** No settlement of the run writes back a record that was admitted anew since it was read. */
  predicate NeverStale(limit: int, actions: seq<Action>) {
    forall k :: 0 <= k < |actions| ==> !Stale(StateAt(limit, actions, k), actions[k])
  }

  lemma {:induction false} RunsAreTraced(limit: int, actions: seq<Action>, work: Work, revision: string, k: nat)
    requires NeverStale(limit, actions) && k <= |actions|
    ensures Traced(StateAt(limit, actions, k), work, revision)
    decreases k
  {
    if k > 0 {
      RunsAreTraced(limit, actions, work, revision, k - 1);
      NextState(limit, actions, k - 1);
      StepKeepsTrace(limit, StateAt(limit, actions, k - 1), actions[k - 1], work, revision);
    }
  }

  lemma SpentWithinRecorded(s: State, work: Work, revision: string)
    ensures Total(s.listing, SpentAt(s, work, revision)) <= Recorded(s, work, revision)
  {
    forall id | id in s.listing
      ensures SpentAt(s, work, revision)(id) <= RecordedAt(s, work, revision)(id)
    {
      if id in s.jobs {
        PrefixCount(s.jobs[id].records, Spent(s, id), revision);
      }
    }
    TotalWithin(s.listing, SpentAt(s, work, revision), RecordedAt(s, work, revision));
  }

  /** Unless a settlement was stale, every launch of a work and revision is among its recorded admissions and
      so within what the durable account says was consumed. */
  lemma LaunchesAreRecorded(limit: int, actions: seq<Action>, work: Work, revision: string)
    requires NeverStale(limit, actions)
    ensures var t := Run(limit, actions);
            LaunchCount(t.launches, work, revision) <= Recorded(t, work, revision)
            <= Consumed(t.listing, t.jobs, work, revision)
  {
    RunsAreTraced(limit, actions, work, revision, |actions|);
    StateAtEnd(limit, actions);
    SpentWithinRecorded(Run(limit, actions), work, revision);
    RecordedWithinConsumed(Run(limit, actions), work, revision);
  }

  /** Launches stay within the limit as long as every admission still finds room when it is written. */
  lemma LaunchesStayWithinTheLimit(limit: int, actions: seq<Action>, work: Work, revision: string)
    requires 0 < limit && NeverStale(limit, actions) && AlwaysRoom(limit, actions, work, revision)
    ensures LaunchCount(Run(limit, actions).launches, work, revision) <= limit
  {
    LaunchesAreRecorded(limit, actions, work, revision);
    RoomKeepsWithin(limit, actions, work, revision, |actions|);
    StateAtEnd(limit, actions);
  }

  /** The writes of a run that entered the records without room. */
  function Overdrafts(limit: int, actions: seq<Action>, work: Work, revision: string): nat {
    if actions == [] then 0
    else
      var init, last := actions[..|actions| - 1], actions[|actions| - 1];
      var s := Run(limit, init);
      Overdrafts(limit, init, work, revision)
      + if Enters(s, last, work, revision) && limit <= Recorded(s, work, revision) then 1 else 0
  }

  lemma {:induction false} RecordedWithinOverdrafts(limit: int, actions: seq<Action>, work: Work, revision: string)
    requires 0 < limit
    ensures Recorded(Run(limit, actions), work, revision) <= limit + Overdrafts(limit, actions, work, revision)
  {
    if actions != [] {
      var init, last := actions[..|actions| - 1], actions[|actions| - 1];
      RecordedWithinOverdrafts(limit, init, work, revision);
      RunsKeepTheChain(limit, init);
      RecordedChange(limit, Run(limit, init), last, work, revision);
    }
  }

  /** And over every run without a stale settlement they exceed it by no more than the admissions that were
      written without room. */
  lemma LaunchesStayWithinOverdrafts(limit: int, actions: seq<Action>, work: Work, revision: string)
    requires 0 < limit && NeverStale(limit, actions)
    ensures LaunchCount(Run(limit, actions).launches, work, revision)
            <= limit + Overdrafts(limit, actions, work, revision)
  {
    LaunchesAreRecorded(limit, actions, work, revision);
    RecordedWithinOverdrafts(limit, actions, work, revision);
  }

  // ---------------------------------------------------------------- admissions that nobody disturbs

  predicate HoldsCheck(s: State, id: string, work: Work, revision: string) {
    In(s, id, Checked) && s.jobs[id].work == work && s.flights[id].revision == revision
  }

  /** What enters the records is an admission, and no other executor holds a check of the same account. */
  predicate Undisturbed(s: State, a: Action, work: Work, revision: string) {
    Enters(s, a, work, revision) ==>
      Admits(s, a) && forall id :: id in s.flights && HoldsCheck(s, id, work, revision) ==> id == a.id
  }

  /** Recorded admissions are within the limit, and an executor that has checked still has room. */
  predicate ChecksHold(limit: int, s: State, work: Work, revision: string) {
    && Recorded(s, work, revision) <= limit
    && forall id :: id in s.flights && HoldsCheck(s, id, work, revision) ==> Recorded(s, work, revision) < limit
  }

  lemma ChecksAfterAdmission(s: State, t: State, admitted: string, id: string, work: Work, revision: string)
    requires AdmittedBy(s, t, admitted) && id in t.flights && HoldsCheck(t, id, work, revision)
    ensures id != admitted && id in s.flights && HoldsCheck(s, id, work, revision)
  {
  }

  lemma ChecksAfterOther(limit: int, s: State, a: Action, t: State, id: string, work: Work, revision: string)
    requires AllListed(s) && !a.Create? && Outcome(limit, s, a, t) && !Admits(s, a)
    requires id in t.flights && HoldsCheck(t, id, work, revision)
    ensures (id in s.flights && HoldsCheck(s, id, work, revision)) || Affordable(limit, s, work, revision)
  {
  }

  lemma ChecksAfter(limit: int, s: State, a: Action, t: State, id: string, work: Work, revision: string)
    requires 0 < limit && AllListed(s) && Structure(s) && !a.Create? && a.id in s.jobs && Outcome(limit, s, a, t)
    requires id in t.flights && HoldsCheck(t, id, work, revision)
    ensures (id in s.flights && HoldsCheck(s, id, work, revision)) || Recorded(s, work, revision) < limit
    ensures Admits(s, a) ==> id != a.id && id in s.flights && HoldsCheck(s, id, work, revision)
  {
    if Admits(s, a) {
      ChecksAfterAdmission(s, t, a.id, id, work, revision);
    } else {
      ChecksAfterOther(limit, s, a, t, id, work, revision);
      RecordedWithinConsumed(s, work, revision);
    }
  }

  lemma StepKeepsChecks(limit: int, s: State, a: Action, work: Work, revision: string)
    requires 0 < limit && AllListed(s) && Structure(s) && ChecksHold(limit, s, work, revision)
    requires Undisturbed(s, a, work, revision)
    ensures ChecksHold(limit, Step(limit, s, a), work, revision)
    ensures Enters(s, a, work, revision) ==> Recorded(s, work, revision) < limit
  {
    var t := Step(limit, s, a);
    RecordedChange(limit, s, a, work, revision);
    if Enters(s, a, work, revision) {
      assert HoldsCheck(s, a.id, work, revision);
    }
    forall id | id in t.flights && HoldsCheck(t, id, work, revision)
      ensures Recorded(t, work, revision) < limit
    {
      if a.Create? {
        CheckedAcrossCreation(limit, s, a.job, id, work, revision);
      } else if a.id in s.jobs {
        StepSummary(limit, s, a);
        ChecksAfter(limit, s, a, t, id, work, revision);
      } else {
        NobodySteps(limit, s, a);
      }
    }
  }

  lemma CheckedAcrossCreation(limit: int, s: State, job: Job, id: string, work: Work, revision: string)
    requires AllListed(s) && Structure(s) && id in Step(limit, s, Create(job)).flights
    requires HoldsCheck(Step(limit, s, Create(job)), id, work, revision)
    ensures id in s.flights && HoldsCheck(s, id, work, revision)
  {
    assert id in s.flights && id in s.jobs;
  }

  predicate NeverDisturbed(limit: int, actions: seq<Action>, work: Work, revision: string) {
    forall k :: 0 <= k < |actions| ==> Undisturbed(StateAt(limit, actions, k), actions[k], work, revision)
  }

  lemma {:induction false} ChecksHoldAt(limit: int, actions: seq<Action>, work: Work, revision: string, k: nat)
    requires 0 < limit && NeverDisturbed(limit, actions, work, revision) && k <= |actions|
    ensures ChecksHold(limit, StateAt(limit, actions, k), work, revision)
    decreases k
  {
    if k > 0 {
      ChecksHoldAt(limit, actions, work, revision, k - 1);
      NextState(limit, actions, k - 1);
      assert Undisturbed(StateAt(limit, actions, k - 1), actions[k - 1], work, revision);
      StepKeepsChecks(limit, StateAt(limit, actions, k - 1), actions[k - 1], work, revision);
    } else {
      NothingChecked(limit, work, revision);
    }
  }

  lemma NothingChecked(limit: int, work: Work, revision: string)
    requires 0 < limit
    ensures ChecksHold(limit, EMPTY, work, revision)
  {
  }

  /** A check made once is enough as long as nobody else holds one of the same account at an admission. */
  lemma UndisturbedAdmissionsFindRoom(limit: int, actions: seq<Action>, work: Work, revision: string)
    requires 0 < limit && NeverDisturbed(limit, actions, work, revision)
    ensures AlwaysRoom(limit, actions, work, revision)
  {
    forall k | 0 <= k < |actions| && Enters(StateAt(limit, actions, k), actions[k], work, revision)
      ensures Recorded(StateAt(limit, actions, k), work, revision) < limit
    {
      ChecksHoldAt(limit, actions, work, revision, k);
      NextState(limit, actions, k);
      StepKeepsChecks(limit, StateAt(limit, actions, k), actions[k], work, revision);
    }
  }

  // ---------------------------------------------------------------- runs that leave preparing executors alone

  predicate BeingPrepared(s: State, id: string) {
    id in s.jobs && id in s.flights && Preparing(s.flights[id].stage)
  }

  /** Nobody but its executor writes the status of a job being prepared, and nobody makes a job active again
      that is not. */
  predicate Respects(s: State, a: Action) {
    && (a.FailOrphan? ==> !BeingPrepared(s, a.id))
    && (a.Outside? && a.id in s.jobs ==>
          !BeingPrepared(s, a.id) && (Active(a.status) ==> Active(s.jobs[a.id].status)))
  }

  predicate SingleActive(s: State) {
    forall a, b :: a in s.jobs && b in s.jobs && a != b && s.jobs[a].work == s.jobs[b].work && Active(s.jobs[a].status)
      ==> !Active(s.jobs[b].status)
  }

  /** A job a reconciliation has failed is no longer active, and its records are still those it read. */
  predicate StillOver(job: Job, phase: Phase) {
    && (!phase.Listed? ==> !Active(job.status))
    && (phase.Settling? ==> SameRevisions(phase.snapshot, job.records))
  }

  predicate PassesAreOver(s: State) {
    forall pass :: pass in s.reconcilers ==>
      s.reconcilers[pass].id in s.jobs && StillOver(s.jobs[s.reconcilers[pass].id], s.reconcilers[pass].phase)
  }

  predicate Orderly(s: State) {
    && SingleActive(s)
    && (forall id :: id in s.flights && BeingPrepared(s, id) ==> !Terminal(s.jobs[id].status))
    && PassesAreOver(s)
  }

  lemma TerminalOrActive(status: JobStatus)
    ensures Terminal(status) || Active(status)
  {
    match status
    case JobPending => case JobRunning => case JobSubmitted => case JobRejected =>
    case JobAccepted => case JobFailed => case JobStale => case JobCancelled =>
  }

  lemma OneAtATime(s: State, a: string, b: string)
    requires Orderly(s) && BeingPrepared(s, a) && BeingPrepared(s, b) && s.jobs[a].work == s.jobs[b].work
    ensures a == b
  {
    TerminalOrActive(s.jobs[a].status);
    TerminalOrActive(s.jobs[b].status);
  }

  lemma OrderlyIsNotStale(s: State, id: string, pass: nat)
    requires Structure(s) && PassesAreOver(s) && SettlingAt(s, id, pass)
    ensures !WritesOver(s.jobs[id].records, NextRead(s, id, pass))
  {
    var r := s.reconcilers[pass];
    assert ReconcilerOk(s, r);
    assert InPlace(r.phase.snapshot[r.phase.next], r.id, r.phase.next);
  }

  lemma OrderlyIsUndisturbed(s: State, a: Action, work: Work, revision: string)
    requires Structure(s) && Orderly(s)
    ensures !Stale(s, a) && Undisturbed(s, a, work, revision)
  {
    if a.SettleOrphan? && SettlingAt(s, a.id, a.pass) {
      OrderlyIsNotStale(s, a.id, a.pass);
    }
    if Enters(s, a, work, revision) {
      forall id | id in s.flights && HoldsCheck(s, id, work, revision)
        ensures id == a.id
      {
        OneAtATime(s, id, a.id);
      }
    }
  }

  /** What a step can make of a status. */
  predicate StatusIsWritten(s: State, a: Action, t: State)
    requires !a.Create? && a.id in s.jobs && a.id in t.jobs
  {
    if a.Outside? then t.jobs[a.id].status == a.status
    else
      || t.jobs[a.id].status == s.jobs[a.id].status
      || t.jobs[a.id].status == JobFailed
      || (t.jobs[a.id].status == JobRunning && BeingPrepared(s, a.id))
  }

  lemma StatusWritten(limit: int, s: State, a: Action)
    requires AllListed(s) && Structure(s) && !a.Create? && a.id in s.jobs
    ensures a.id in Step(limit, s, a).jobs && StatusIsWritten(s, a, Step(limit, s, a))
  {
    if a.ListOrphan? || a.FailOrphan? || a.LoadOrphan? || a.SettleOrphan? || a.LeaveOrphan? {
      StatusReconciled(s, a);
    } else if a.Claim? || a.Release? || a.Abort? || a.Exit? || a.Reload? {
      StatusGivenUp(limit, s, a);
    } else {
      StatusPrepared(limit, s, a);
    }
  }

  lemma StatusReconciled(s: State, a: Action)
    requires a.ListOrphan? || a.FailOrphan? || a.LoadOrphan? || a.SettleOrphan? || a.LeaveOrphan?
    requires a.id in s.jobs
    ensures a.id in Reconcile(s, a).jobs && StatusIsWritten(s, a, Reconcile(s, a))
  {
  }

  lemma StatusGivenUp(limit: int, s: State, a: Action)
    requires AllListed(s) && (a.Claim? || a.Release? || a.Abort? || a.Exit? || a.Reload?) && a.id in s.jobs
    ensures a.id in Step(limit, s, a).jobs && StatusIsWritten(s, a, Step(limit, s, a))
  {
  }

  lemma StatusPrepared(limit: int, s: State, a: Action)
    requires AllListed(s) && !a.Create? && a.id in s.jobs
    requires a.Start? || a.Admit? || a.Count? || a.SaveEnvironment? || a.MarkRunning? || a.LaunchWorker?
             || a.Outside? || a.Settle? || a.Crash?
    ensures a.id in Step(limit, s, a).jobs && StatusIsWritten(s, a, Step(limit, s, a))
  {
  }

  /** Whoever is being prepared after a step was before, or has just been loaded and was not over. */
  predicate IsPreparedRightly(s: State, a: Action, t: State)
    requires !a.Create? && a.id in s.jobs && a.id in t.jobs
  {
    BeingPrepared(t, a.id) ==>
      || t.jobs[a.id].status == JobRunning
      || (t.jobs[a.id].status == s.jobs[a.id].status && (BeingPrepared(s, a.id) || !Terminal(s.jobs[a.id].status)))
  }

  lemma PreparingAfter(limit: int, s: State, a: Action)
    requires AllListed(s) && !a.Create? && a.id in s.jobs && Respects(s, a)
    ensures a.id in Step(limit, s, a).jobs && IsPreparedRightly(s, a, Step(limit, s, a))
  {
    if a.ListOrphan? || a.FailOrphan? || a.LoadOrphan? || a.SettleOrphan? || a.LeaveOrphan? {
      PreparingReconciled(s, a);
    } else if a.Claim? || a.Release? || a.Abort? || a.Exit? || a.Reload? {
      PreparingGivenUp(limit, s, a);
    } else {
      PreparingPrepared(limit, s, a);
    }
  }

  lemma PreparingReconciled(s: State, a: Action)
    requires a.ListOrphan? || a.FailOrphan? || a.LoadOrphan? || a.SettleOrphan? || a.LeaveOrphan?
    requires a.id in s.jobs && Respects(s, a)
    ensures a.id in Reconcile(s, a).jobs && IsPreparedRightly(s, a, Reconcile(s, a))
  {
  }

  lemma PreparingGivenUp(limit: int, s: State, a: Action)
    requires AllListed(s) && (a.Claim? || a.Release? || a.Abort? || a.Exit? || a.Reload?) && a.id in s.jobs
    ensures a.id in Step(limit, s, a).jobs && IsPreparedRightly(s, a, Step(limit, s, a))
  {
  }

  lemma PreparingPrepared(limit: int, s: State, a: Action)
    requires AllListed(s) && !a.Create? && a.id in s.jobs && Respects(s, a)
    requires a.Start? || a.Admit? || a.Count? || a.SaveEnvironment? || a.MarkRunning? || a.LaunchWorker?
             || a.Outside? || a.Settle? || a.Crash?
    ensures a.id in Step(limit, s, a).jobs && IsPreparedRightly(s, a, Step(limit, s, a))
  {
  }

  lemma NobodyRevives(limit: int, s: State, a: Action)
    requires AllListed(s) && Structure(s) && Orderly(s) && !a.Create? && a.id in s.jobs && Respects(s, a)
    ensures a.id in Step(limit, s, a).jobs
    ensures Active(Step(limit, s, a).jobs[a.id].status) ==> Active(s.jobs[a.id].status)
  {
    StatusWritten(limit, s, a);
    if BeingPrepared(s, a.id) {
      TerminalOrActive(s.jobs[a.id].status);
    }
  }

  lemma OneStaysActive(s: State, t: State, id: string)
    requires SingleActive(s) && Kept(s, t, id)
    requires Active(t.jobs[id].status) ==> Active(s.jobs[id].status)
    ensures SingleActive(t)
  {
  }

  lemma PreparingStaysOpen(limit: int, s: State, a: Action, t: State)
    requires AllListed(s) && Structure(s) && Orderly(s) && !a.Create? && a.id in s.jobs && Respects(s, a)
    requires t == Step(limit, s, a) && Kept(s, t, a.id)
    ensures forall id :: id in t.flights && BeingPrepared(t, id) ==> !Terminal(t.jobs[id].status)
  {
    forall id | id in t.flights && BeingPrepared(t, id)
      ensures !Terminal(t.jobs[id].status)
    {
      if id == a.id {
        PreparingAfter(limit, s, a);
      } else {
        assert id in s.flights && BeingPrepared(s, id);
      }
    }
  }

  /** A job that is not active keeps the revisions of its records. */
  lemma RevisionsStay(limit: int, s: State, a: Action, t: State)
    requires AllListed(s) && Structure(s) && Orderly(s) && !a.Create? && a.id in s.jobs && Outcome(limit, s, a, t)
    requires !Active(s.jobs[a.id].status)
    ensures SameRevisions(s.jobs[a.id].records, t.jobs[a.id].records)
  {
    OrderlyIsUndisturbed(s, a, s.jobs[a.id].work, "");
    if Admits(s, a) {
      assert BeingPrepared(s, a.id);
      TerminalOrActive(s.jobs[a.id].status);
      assert false;
    }
  }

  /** The phase a step leaves a pass in was already there, or is where this step takes it. */
  lemma PhaseAfter(limit: int, s: State, a: Action, pass: nat)
    requires AllListed(s) && !a.Create? && a.id in s.jobs && pass in Step(limit, s, a).reconcilers
    ensures var t := Step(limit, s, a);
            var r := t.reconcilers[pass];
            || (pass in s.reconcilers && r == s.reconcilers[pass])
            || (r.id == a.id && r.phase.Listed?)
            || (r.id == a.id && r.phase.Failed? && t.jobs[a.id].status == JobFailed)
            || (r.id == a.id && r.phase.Settling? && pass in s.reconcilers && s.reconcilers[pass].id == a.id
                && (r.phase.snapshot == s.jobs[a.id].records
                    || (s.reconcilers[pass].phase.Settling?
                        && r.phase.snapshot == s.reconcilers[pass].phase.snapshot))
                && !s.reconcilers[pass].phase.Listed?)
  {
  }

  lemma OnePassStaysOver(limit: int, s: State, a: Action, t: State, pass: nat)
    requires AllListed(s) && PassesAreOver(s) && !a.Create? && a.id in s.jobs && t == Step(limit, s, a)
    requires OnlyAt(s, t, a.id) && pass in t.reconcilers
    requires Active(t.jobs[a.id].status) ==> Active(s.jobs[a.id].status)
    requires !Active(s.jobs[a.id].status) ==> SameRevisions(s.jobs[a.id].records, t.jobs[a.id].records)
    ensures t.reconcilers[pass].id in t.jobs
    ensures StillOver(t.jobs[t.reconcilers[pass].id], t.reconcilers[pass].phase)
  {
    PhaseAfter(limit, s, a, pass);
    assert pass in s.reconcilers ==> s.reconcilers[pass].id in s.jobs;
  }

  lemma PassesStayOver(limit: int, s: State, a: Action, t: State)
    requires AllListed(s) && Structure(s) && Orderly(s) && !a.Create? && a.id in s.jobs && Respects(s, a)
    requires t == Step(limit, s, a) && Outcome(limit, s, a, t) && Kept(s, t, a.id)
    ensures PassesAreOver(t)
  {
    NobodyRevives(limit, s, a);
    if !Active(s.jobs[a.id].status) {
      RevisionsStay(limit, s, a, t);
    }
    forall pass | pass in t.reconcilers
      ensures t.reconcilers[pass].id in t.jobs
      ensures StillOver(t.jobs[t.reconcilers[pass].id], t.reconcilers[pass].phase)
    {
      OnePassStaysOver(limit, s, a, t, pass);
    }
  }

  lemma CreationIsOrderly(limit: int, s: State, job: Job)
    requires AllListed(s) && Structure(s) && Orderly(s)
    ensures Orderly(Step(limit, s, Create(job)))
  {
    var t := Step(limit, s, Create(job));
    forall id | id in t.flights && BeingPrepared(t, id)
      ensures !Terminal(t.jobs[id].status)
    {
      assert id in s.flights && BeingPrepared(s, id);
    }
  }

  lemma RespectKeepsOrder(limit: int, s: State, a: Action)
    requires AllListed(s) && Structure(s) && Orderly(s) && Respects(s, a)
    ensures Orderly(Step(limit, s, a))
  {
    if a.Create? {
      CreationIsOrderly(limit, s, a.job);
    } else if a.id in s.jobs {
      var t := Step(limit, s, a);
      StepSummary(limit, s, a);
      SummaryKeeps(limit, s, a, t);
      NobodyRevives(limit, s, a);
      OneStaysActive(s, t, a.id);
      PreparingStaysOpen(limit, s, a, t);
      PassesStayOver(limit, s, a, t);
    } else {
      NobodySteps(limit, s, a);
    }
  }

  predicate Respectful(limit: int, actions: seq<Action>) {
    forall k :: 0 <= k < |actions| ==> Respects(StateAt(limit, actions, k), actions[k])
  }

  lemma {:induction false} RespectfulIsOrderly(limit: int, actions: seq<Action>, k: nat)
    requires Respectful(limit, actions) && k <= |actions|
    ensures Orderly(StateAt(limit, actions, k))
    decreases k
  {
    if k > 0 {
      RespectfulIsOrderly(limit, actions, k - 1);
      NextState(limit, actions, k - 1);
      RespectKeepsOrder(limit, StateAt(limit, actions, k - 1), actions[k - 1]);
    }
  }

  /** While nobody else writes the status of a job being prepared or revives a job, there is one executor at a
      time between checking and launching for one work. */
  lemma PreparesAlone(limit: int, actions: seq<Action>, a: string, b: string)
    requires Respectful(limit, actions)
    requires var t := Run(limit, actions);
             BeingPrepared(t, a) && BeingPrepared(t, b) && t.jobs[a].work == t.jobs[b].work
    ensures a == b
  {
    RespectfulIsOrderly(limit, actions, |actions|);
    StateAtEnd(limit, actions);
    OneAtATime(Run(limit, actions), a, b);
  }

  /** While nobody else writes the status of a job being prepared or revives a job: one active job per work,
      one executor preparing it, every admission finds room, and the launches for one work and revision
      never exceed the limit in force nor what the account says was consumed. */
  lemma RespectfulLaunchesStayWithin(configured: int, actions: seq<Action>, work: Work, revision: string)
    requires Respectful(TotalAttemptLimit(configured), actions)
    ensures var limit, t := TotalAttemptLimit(configured), Run(TotalAttemptLimit(configured), actions);
            && Orderly(t)
            && NeverStale(limit, actions)
            && (limit > 0 ==> AlwaysRoom(limit, actions, work, revision)
                              && LaunchCount(t.launches, work, revision) <= limit)
            && LaunchCount(t.launches, work, revision) <= Consumed(t.listing, t.jobs, work, revision)
  {
    var limit := TotalAttemptLimit(configured);
    forall k | 0 <= k < |actions|
      ensures !Stale(StateAt(limit, actions, k), actions[k])
      ensures Undisturbed(StateAt(limit, actions, k), actions[k], work, revision)
    {
      RespectfulIsOrderly(limit, actions, k);
      NextState(limit, actions, k);
      OrderlyIsUndisturbed(StateAt(limit, actions, k), actions[k], work, revision);
    }
    RespectfulIsOrderly(limit, actions, |actions|);
    StateAtEnd(limit, actions);
    LaunchesAreRecorded(limit, actions, work, revision);
    if limit > 0 {
      UndisturbedAdmissionsFindRoom(limit, actions, work, revision);
      LaunchesStayWithinTheLimit(limit, actions, work, revision);
    }
  }

  // ---------------------------------------------------------------- the consumed count

  /** A job without records that counted for a worker returns to pending. */
  predicate Reopens(s: State, a: Action, work: Work) {
    a.Outside? && a.id in s.jobs && s.jobs[a.id].work == work && s.jobs[a.id].records == []
        && s.jobs[a.id].status != JobPending && a.status == JobPending
  }

  /** A job without records counts for every revision until its first admission names one. */
  predicate Narrows(s: State, a: Action, work: Work, revision: string) {
    Admits(s, a) && s.jobs[a.id].work == work && s.jobs[a.id].records == []
        && s.jobs[a.id].status != JobPending && s.flights[a.id].revision != revision
  }

  lemma AdmittedContribution(job: Job, f: Flight, after: Job, work: Work, revision: string)
    requires JobOk(job) && FlightOk(job, f) && f.stage == Checked && job.work == work
    requires after == job.(records := job.records[..job.attempts] + [Admission(job, f.revision)])
    ensures var before, now := Contribution(job, work, revision), Contribution(after, work, revision);
            if f.revision != revision
               && (LeftOver(job, revision) || (job.records == [] && job.status != JobPending))
            then now == before - 1
            else now >= before
  {
    AdmittedCount(job, f, after, revision);
    if |job.records| == job.attempts + 1 {
      assert job.records[job.attempts] in job.records;
    }
  }

  /** A step makes the account of a work and revision smaller. */
  predicate Shrinks(s: State, a: Action, work: Work, revision: string) {
    || Overwrites(s, a, work, revision) || Narrows(s, a, work, revision)
    || Loses(s, a, work, revision) || Reopens(s, a, work)
  }

  predicate ContributionMoves(s: State, a: Action, t: State, work: Work, revision: string)
    requires !a.Create? && a.id in s.jobs && a.id in t.jobs
  {
    var before, after := Contribution(s.jobs[a.id], work, revision), Contribution(t.jobs[a.id], work, revision);
    if Shrinks(s, a, work, revision) then after == before - 1 else after >= before
  }

  lemma ContributionWhenAdmitting(s: State, a: Action, t: State, work: Work, revision: string)
    requires Structure(s) && Admits(s, a) && AdmittedBy(s, t, a.id)
    ensures ContributionMoves(s, a, t, work, revision)
  {
    FlightFits(s, a.id);
    if s.jobs[a.id].work == work {
      AdmittedContribution(s.jobs[a.id], s.flights[a.id], t.jobs[a.id], work, revision);
    }
  }

  lemma RestoredContribution(job: Job, k: nat, a: Attempt, work: Work, revision: string)
    requires k < |job.records| && job.frozen.None?
    ensures Contribution(job.(records := job.records[k := a]), work, revision)
            + (if job.work == work && job.records[k].revision == revision then 1 else 0)
            == Contribution(job, work, revision) + if job.work == work && a.revision == revision then 1 else 0
  {
    ReplacedCount(job.records, k, a, revision);
  }

  lemma ContributionWhenStale(s: State, a: Action, t: State, work: Work, revision: string)
    requires Stale(s, a) && RestoredBy(s, t, a.id, NextRead(s, a.id, a.pass))
    ensures ContributionMoves(s, a, t, work, revision)
  {
    var read := NextRead(s, a.id, a.pass);
    RestoredContribution(s.jobs[a.id], read.number - 1, Settled(read), work, revision);
  }

  /** While the recorded revisions stay, only a job without records can count for less: by becoming pending. */
  lemma SameRevisionsContribution(job: Job, after: Job, work: Work, revision: string)
    requires JobOk(job) && JobOk(after) && SameRevisions(job.records, after.records)
    requires after.work == job.work && after.frozen == job.frozen
    ensures var before, now := Contribution(job, work, revision), Contribution(after, work, revision);
            if job.work == work && job.records == [] && job.status != JobPending && after.status == JobPending
            then now == before - 1
            else now >= before
  {
    SameCount(job.records, after.records, revision);
  }

  lemma ShrinksByReopening(s: State, a: Action, t: State, work: Work, revision: string)
    requires !a.Create? && a.id in s.jobs && a.id in t.jobs && !Admits(s, a) && !Stale(s, a)
    requires StatusIsWritten(s, a, t)
    ensures Shrinks(s, a, work, revision)
            <==> s.jobs[a.id].work == work && s.jobs[a.id].records == [] && s.jobs[a.id].status != JobPending
                 && t.jobs[a.id].status == JobPending
  {
  }

  lemma ContributionWhenQuiet(limit: int, s: State, a: Action, t: State, work: Work, revision: string)
    requires AllListed(s) && Structure(s) && !a.Create? && a.id in s.jobs && !Admits(s, a) && !Stale(s, a)
    requires Quiet(limit, s, t, a.id) && StatusIsWritten(s, a, t)
    ensures ContributionMoves(s, a, t, work, revision)
  {
    assert Fits(s, a.id) && Fits(t, a.id);
    SameRevisionsContribution(s.jobs[a.id], t.jobs[a.id], work, revision);
    ShrinksByReopening(s, a, t, work, revision);
  }

  lemma ContributionWhenLaunching(s: State, a: Action, t: State, work: Work, revision: string)
    requires LaunchesWorker(s, a) && a.id in t.jobs && t.jobs[a.id] == s.jobs[a.id]
    ensures ContributionMoves(s, a, t, work, revision)
  {
  }

  lemma ContributionAfter(limit: int, s: State, a: Action, t: State, work: Work, revision: string)
    requires AllListed(s) && Structure(s) && !a.Create? && a.id in s.jobs && a.id in t.jobs
    requires Outcome(limit, s, a, t) && StatusIsWritten(s, a, t)
    ensures ContributionMoves(s, a, t, work, revision)
  {
    if Admits(s, a) {
      ContributionWhenAdmitting(s, a, t, work, revision);
    } else if LaunchesWorker(s, a) {
      ContributionWhenLaunching(s, a, t, work, revision);
    } else if Stale(s, a) {
      ContributionWhenStale(s, a, t, work, revision);
    } else {
      ContributionWhenQuiet(limit, s, a, t, work, revision);
    }
  }

  lemma CreationConsumesNothing(s: State, job: Job, work: Work, revision: string)
    requires Structure(s) && Fresh(s, job)
    ensures var t := s.(listing := s.listing + [job.id], jobs := s.jobs[job.id := job]);
            Total(t.listing, ConsumedAt(t, work, revision)) == Total(s.listing, ConsumedAt(s, work, revision))
  {
    var t := s.(listing := s.listing + [job.id], jobs := s.jobs[job.id := job]);
    assert t.listing[..|s.listing|] == s.listing;
    TotalSame(s.listing, ConsumedAt(s, work, revision), ConsumedAt(t, work, revision));
  }

  lemma ConsumedAfter(limit: int, s: State, a: Action, t: State, work: Work, revision: string)
    requires AllListed(s) && Structure(s) && !a.Create? && a.id in s.jobs && a.id in t.jobs
    requires Outcome(limit, s, a, t) && StatusIsWritten(s, a, t)
    ensures var before, after := Total(s.listing, ConsumedAt(s, work, revision)),
                Total(t.listing, ConsumedAt(t, work, revision));
            if Shrinks(s, a, work, revision) then after == before - 1 else after >= before
  {
    SummaryKeeps(limit, s, a, t);
    ContributionAfter(limit, s, a, t, work, revision);
    ConsumedElsewhere(s, t, a.id, work, revision);
    TotalAt(s.listing, a.id, ConsumedAt(s, work, revision), ConsumedAt(t, work, revision));
  }

  lemma CreationShrinksNothing(limit: int, s: State, job: Job, work: Work, revision: string)
    requires AllListed(s) && Structure(s)
    ensures var t := Step(limit, s, Create(job));
            Total(t.listing, ConsumedAt(t, work, revision)) == Total(s.listing, ConsumedAt(s, work, revision))
    ensures !Shrinks(s, Create(job), work, revision)
  {
    if Fresh(s, job) {
      CreationConsumesNothing(s, job, work, revision);
    }
  }

  lemma ConsumedElsewhere(s: State, t: State, id: string, work: Work, revision: string)
    requires OnlyAt(s, t, id)
    ensures forall x :: x != id ==> ConsumedAt(s, work, revision)(x) == ConsumedAt(t, work, revision)(x)
  {
  }

  /** The consumed count goes down in exactly four ways, and then by exactly one: a re-admission overwrites a
      left-over record under changed inputs, a stale settlement overwrites a record, a job that counted
      without records admits under other inputs, or returns to pending. */
  lemma ConsumedOnlyDropsBy(limit: int, s: State, a: Action, work: Work, revision: string)
    requires AllListed(s) && Structure(s)
    ensures var t := Step(limit, s, a);
            var before, after := Consumed(s.listing, s.jobs, work, revision),
                Consumed(t.listing, t.jobs, work, revision);
            && (after < before <==> Shrinks(s, a, work, revision))
            && (Shrinks(s, a, work, revision) ==> after == before - 1)
  {
    var t := Step(limit, s, a);
    ConsumedIsTotal(s, s.listing, work, revision);
    ConsumedIsTotal(t, t.listing, work, revision);
    if a.Create? {
      CreationShrinksNothing(limit, s, a.job, work, revision);
    } else if a.id in s.jobs {
      StepSummary(limit, s, a);
      StatusWritten(limit, s, a);
      ConsumedAfter(limit, s, a, t, work, revision);
    } else {
      NobodySteps(limit, s, a);
    }
  }
}
