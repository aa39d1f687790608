// Durable attempt records inside execution jobs, the job store that rewrites them, and the account
// of consumed attempts.
module AttemptRecords {
  import opened Basics
  import opened Numerals

  datatype AttemptStatus = Admitted | Running | Ended

  /** The identity of an attempt; `AttemptIdText` is how it is written, and the writing is injective. */
  datatype AttemptId = AttemptId(jobId: string, number: nat)

  datatype Attempt = Attempt(id: AttemptId, jobId: string, number: nat, revision: string,
                             predecessor: Option<AttemptId>, status: AttemptStatus)

  datatype JobStatus =
    | JobPending | JobRunning | JobSubmitted | JobRejected
    | JobAccepted | JobFailed | JobStale | JobCancelled

  /** What makes two jobs draw on one account. */
  datatype Work = Work(project: string, task: string, transition: string)

  /** `frozen` is the revision of the inputs frozen at creation, if there are any. */
  datatype Job = Job(id: string, work: Work, status: JobStatus, attempts: nat, records: seq<Attempt>,
                     frozen: Option<string>, repairReady: bool)

  predicate Active(status: JobStatus) {
    status in {JobPending, JobRunning, JobSubmitted, JobRejected, JobStale}
  }

  predicate Terminal(status: JobStatus) {
    status in {JobAccepted, JobFailed, JobStale, JobCancelled}
  }

  predicate Incomplete(status: AttemptStatus) {
    status == Admitted || status == Running
  }

  // ---------------------------------------------------------------- attempt identities

  function AttemptIdText(id: AttemptId): string {
    id.jobId + "@" + Decimal(id.number)
  }

  /** The number is what follows the last `@`, so identities never coincide, whatever the job is called. */
  lemma AttemptIdTextInjective(a: AttemptId, b: AttemptId)
    requires AttemptIdText(a) == AttemptIdText(b)
    ensures a == b
  {
    LastSign(a);
    LastSign(b);
    var text := AttemptIdText(a);
    assert |a.jobId| == |b.jobId|;
    assert text[..|a.jobId|] == a.jobId && text[..|b.jobId|] == b.jobId;
    assert text[|a.jobId| + 1..] == Decimal(a.number) && text[|b.jobId| + 1..] == Decimal(b.number);
    DecimalInjective(a.number, b.number);
  }

  lemma LastSign(id: AttemptId)
    ensures var text, n := AttemptIdText(id), |id.jobId|;
            n < |text| && text[n] == '@' && forall i :: n < i < |text| ==> text[i] != '@'
  {
    var text, n := AttemptIdText(id), |id.jobId|;
    forall i | n < i < |text|
      ensures text[i] != '@'
    {
      assert text[i] == Decimal(id.number)[i - n - 1];
      assert text[i] in Decimal(id.number);
    }
  }

  // ---------------------------------------------------------------- rewriting records

  function Without(records: seq<Attempt>, id: AttemptId): seq<Attempt> {
    if records == [] then []
    else
      var rest, last := Without(records[..|records| - 1], id), records[|records| - 1];
      if last.id == id then rest else rest + [last]
  }

  /** Stable sorting by number, one insertion at a time. */
  function InsertByNumber(records: seq<Attempt>, a: Attempt): seq<Attempt> {
    if records == [] || records[|records| - 1].number <= a.number then records + [a]
    else InsertByNumber(records[..|records| - 1], a) + [records[|records| - 1]]
  }

  function SortByNumber(records: seq<Attempt>): seq<Attempt> {
    if records == [] then [] else InsertByNumber(SortByNumber(records[..|records| - 1]), records[|records| - 1])
  }

  /** `_record_attempt_unlocked`: drop the record with this identity, append, sort. */
  function Upsert(records: seq<Attempt>, a: Attempt): seq<Attempt> {
    SortByNumber(Without(records, a.id) + [a])
  }

  function Settled(a: Attempt): Attempt {
    if Incomplete(a.status) then a.(status := Ended) else a
  }

  /** `reconcile_attempt_records`. */
  function Reconciled(records: seq<Attempt>): seq<Attempt> {
    seq(|records|, i requires 0 <= i < |records| => Settled(records[i]))
  }

  /** The chain of a job: numbers 1 to m, each record naming the one just before. */
  predicate Chained(jobId: string, records: seq<Attempt>) {
    forall i :: 0 <= i < |records| ==> InPlace(records[i], jobId, i)
  }

  predicate InPlace(a: Attempt, jobId: string, i: nat) {
    && a.number == i + 1 && a.id == AttemptId(jobId, i + 1) && a.jobId == jobId
    && a.predecessor == if i == 0 then None else Some(AttemptId(jobId, i))
  }

  lemma {:induction false} WithoutAbsent(records: seq<Attempt>, id: AttemptId)
    requires forall r :: r in records ==> r.id != id
    ensures Without(records, id) == records
  {
    if records != [] {
      assert records == records[..|records| - 1] + [records[|records| - 1]];
      WithoutAbsent(records[..|records| - 1], id);
    }
  }

  lemma {:induction false} WithoutOne(records: seq<Attempt>, k: nat, id: AttemptId)
    requires k < |records| && records[k].id == id
    requires forall i :: 0 <= i < |records| && i != k ==> records[i].id != id
    ensures Without(records, id) == records[..k] + records[k + 1..]
  {
    var n := |records| - 1;
    if k == n {
      WithoutAbsent(records[..n], id);
    } else {
      WithoutOne(records[..n], k, id);
      assert records[..k] + records[k + 1..] == (records[..n][..k] + records[..n][k + 1..]) + [records[n]];
    }
  }

  predicate Ascending(records: seq<Attempt>) {
    forall i, k :: 0 <= i < k < |records| ==> records[i].number < records[k].number
  }

  lemma {:induction false} SortAscending(records: seq<Attempt>)
    requires Ascending(records)
    ensures SortByNumber(records) == records
  {
    if records != [] {
      SortAscending(records[..|records| - 1]);
    }
  }

  lemma {:induction false} InsertInOrder(records: seq<Attempt>, k: nat, a: Attempt)
    requires k <= |records|
    requires forall i :: 0 <= i < k ==> records[i].number <= a.number
    requires forall i :: k <= i < |records| ==> records[i].number > a.number
    ensures InsertByNumber(records, a) == records[..k] + [a] + records[k..]
  {
    if k < |records| {
      var n := |records| - 1;
      InsertInOrder(records[..n], k, a);
      assert records[..k] + [a] + records[k..] == (records[..n][..k] + [a] + records[..n][k..]) + [records[n]];
    } else {
      assert records[..k] == records && records[k..] == [];
    }
  }

  lemma SortSnoc(records: seq<Attempt>, a: Attempt)
    ensures SortByNumber(records + [a]) == InsertByNumber(SortByNumber(records), a)
  {
    assert (records + [a])[..|records|] == records;
  }

  lemma ChainNumbers(jobId: string, records: seq<Attempt>)
    requires Chained(jobId, records)
    ensures forall i :: 0 <= i < |records| ==> records[i].number == i + 1
    ensures forall i :: 0 <= i < |records| ==> records[i].id.number == i + 1
  {
    forall i | 0 <= i < |records|
      ensures records[i].number == i + 1 && records[i].id.number == i + 1
    {
      assert InPlace(records[i], jobId, i);
    }
  }

  lemma GapIsAscending(records: seq<Attempt>, k: nat)
    requires k < |records| && forall i :: 0 <= i < |records| ==> records[i].number == i + 1
    ensures Ascending(records[..k] + records[k + 1..])
    ensures forall x :: x in records[..k] ==> x.number <= k
    ensures forall x :: x in records[k + 1..] ==> x.number > k + 1
  {
    var p, q := records[..k], records[k + 1..];
    assert forall i :: 0 <= i < k ==> p[i].number == i + 1;
    assert forall i :: 0 <= i < |q| ==> q[i].number == i + k + 2;
  }

  lemma SortsIntoTheGap(records: seq<Attempt>, k: nat, a: Attempt)
    requires k < |records| && a.number == k + 1
    requires forall i :: 0 <= i < |records| ==> records[i].number == i + 1
    ensures SortByNumber(records[..k] + records[k + 1..] + [a]) == records[..k] + [a] + records[k + 1..]
  {
    GapIsAscending(records, k);
    SortedBetween(records[..k], records[k + 1..], a);
  }

  lemma UpsertAmongNumbers(records: seq<Attempt>, k: nat, a: Attempt)
    requires k < |records| && records[k].id == a.id && a.number == k + 1
    requires forall i :: 0 <= i < |records| ==> records[i].number == i + 1
    requires forall i :: 0 <= i < |records| && i != k ==> records[i].id != a.id
    ensures Upsert(records, a) == records[..k] + [a] + records[k + 1..]
  {
    WithoutOne(records, k, a.id);
    SortsIntoTheGap(records, k, a);
  }

  /** In a chain, upserting an existing number replaces that record in place. */
  lemma UpsertReplaces(jobId: string, records: seq<Attempt>, a: Attempt)
    requires Chained(jobId, records) && 1 <= a.number <= |records| && a.id == AttemptId(jobId, a.number)
    ensures Upsert(records, a) == records[a.number - 1 := a]
  {
    var k := a.number - 1;
    ChainNumbers(jobId, records);
    assert records[k].id == a.id by {
      assert InPlace(records[k], jobId, k);
    }
    UpsertAmongNumbers(records, k, a);
    assert records[k := a] == records[..k] + [a] + records[k + 1..];
  }

  lemma SortedBetween(p: seq<Attempt>, q: seq<Attempt>, a: Attempt)
    requires Ascending(p + q)
    requires forall x :: x in p ==> x.number <= a.number
    requires forall x :: x in q ==> x.number > a.number
    ensures SortByNumber(p + q + [a]) == p + [a] + q
  {
    SortAscending(p + q);
    SortSnoc(p + q, a);
    InsertInOrder(p + q, |p|, a);
    assert (p + q)[..|p|] == p && (p + q)[|p|..] == q;
  }

  /** And upserting the next number appends. */
  lemma UpsertAppends(jobId: string, records: seq<Attempt>, a: Attempt)
    requires Chained(jobId, records) && a.number == |records| + 1 && a.id == AttemptId(jobId, a.number)
    ensures Upsert(records, a) == records + [a]
  {
    ChainNumbers(jobId, records);
    assert forall r :: r in records ==> r.id != a.id;
    WithoutAbsent(records, a.id);
    assert Ascending(records + [a]);
    SortAscending(records + [a]);
  }

  // ---------------------------------------------------------------- the account

  function CountRevision(records: seq<Attempt>, revision: string): nat {
    if records == [] then 0
    else
      CountRevision(records[..|records| - 1], revision)
      + if records[|records| - 1].revision == revision then 1 else 0
  }

  /** What one job contributes to the account of a revision. */
  function Contribution(job: Job, work: Work, revision: string): nat {
    if job.work != work then 0
    else if job.records != [] then
      (if job.frozen == Some(revision) then |job.records| else CountRevision(job.records, revision))
    else WorkersStarted(job)
  }

  /** What a job without records counts for: nothing while it is pending, at least one worker afterwards. */
  function WorkersStarted(job: Job): nat {
    if job.status == JobPending then 0 else if job.attempts > 1 then job.attempts else 1
  }

  function Consumed(listing: seq<string>, jobs: map<string, Job>, work: Work, revision: string): nat
    requires forall id :: id in listing ==> id in jobs
  {
    if listing == [] then 0
    else
      Consumed(listing[..|listing| - 1], jobs, work, revision)
      + Contribution(jobs[listing[|listing| - 1]], work, revision)
  }

  lemma {:induction false} SameAccount(ids: seq<string>, a: map<string, Job>, b: map<string, Job>, work: Work,
                                       revision: string)
    requires forall x :: x in ids ==> x in a && x in b && a[x] == b[x]
    ensures Consumed(ids, a, work, revision) == Consumed(ids, b, work, revision)
  {
    if ids != [] {
      var n := |ids| - 1;
      assert ids[n] in ids && forall x :: x in ids[..n] ==> x in ids;
      SameAccount(ids[..n], a, b, work, revision);
    }
  }

  /** When one job changes, the account moves by what that job contributes. */
  lemma {:induction false} OneJobChanges(ids: seq<string>, a: map<string, Job>, b: map<string, Job>, id: string,
                                         work: Work, revision: string)
    requires Distinct(ids) && id in ids && forall x :: x in ids ==> x in a && x in b && (x != id ==> a[x] == b[x])
    ensures Consumed(ids, b, work, revision) + Contribution(a[id], work, revision)
            == Consumed(ids, a, work, revision) + Contribution(b[id], work, revision)
  {
    var n := |ids| - 1;
    assert ids == ids[..n] + [ids[n]];
    assert forall x :: x in ids[..n] ==> x in ids;
    assert Distinct(ids[..n]);
    if ids[n] == id {
      assert id !in ids[..n];
      SameAccount(ids[..n], a, b, work, revision);
    } else {
      assert id in ids[..n];
      OneJobChanges(ids[..n], a, b, id, work, revision);
    }
  }

  // ---------------------------------------------------------------- the store

  function WithRecords(jobs: map<string, Job>, id: string, records: seq<Attempt>): map<string, Job>
    requires id in jobs
  {
    jobs[id := jobs[id].(records := records)]
  }

  class FileExecutionJobStore {
    var listing: seq<string>
    var jobs: map<string, Job>

    constructor ()
      ensures Valid() && listing == []
    {
      listing, jobs := [], map[];
    }

    ghost predicate Valid()
      reads this
    {
      Distinct(listing) && (forall id :: id in jobs <==> id in listing)
          && (forall id :: id in jobs ==> jobs[id].id == id)
    }

    method FindActive(work: Work) returns (active: seq<string>)
      requires Valid()
      ensures forall id :: id in active <==> id in jobs && jobs[id].work == work && Active(jobs[id].status)
    {
      active := [];
      for i := 0 to |listing|
        invariant forall id :: id in active <==> id in listing[..i] && jobs[id].work == work && Active(jobs[id].status)
      {
        assert listing[..i + 1] == listing[..i] + [listing[i]];
        if jobs[listing[i]].work == work && Active(jobs[listing[i]].status) {
          active := active + [listing[i]];
        }
      }
      assert listing[..|listing|] == listing;
    }

    /** A job is created only while no other job for the same work is active. */
    method Create(job: Job) returns (accepted: bool)
      requires Valid() && job.id !in jobs
      modifies this
      ensures Valid()
      ensures accepted <==> forall id :: id in old(jobs) && old(jobs)[id].work == job.work ==>
                !Active(old(jobs)[id].status)
      ensures jobs == if accepted then old(jobs)[job.id := job] else old(jobs)
      ensures listing == if accepted then old(listing) + [job.id] else old(listing)
    {
      var active := FindActive(job.work);
      if active != [] {
        assert active[0] in active;
        return false;
      }
      listing := listing + [job.id];
      jobs := jobs[job.id := job];
      accepted := true;
    }

    /** A status update touches one job, and of it only status and count: its chain of attempts, its work
        and its frozen inputs stay. The account moves only for a job without records, by what that job
        counts for. */
    method UpdateStatus(id: string, status: JobStatus, increment: bool)
      requires Valid() && id in jobs
      modifies `jobs
      ensures Valid() && jobs.Keys == old(jobs).Keys
      ensures forall other :: other in jobs && other != id ==> jobs[other] == old(jobs)[other]
      ensures jobs[id] == old(jobs)[id].(status := jobs[id].status, attempts := jobs[id].attempts)
      ensures jobs[id].status == status && jobs[id].attempts - old(jobs)[id].attempts == if increment then 1 else 0
      ensures forall work, revision ::
                Consumed(listing, jobs, work, revision) - Consumed(listing, old(jobs), work, revision)
                == if old(jobs)[id].records != [] || old(jobs)[id].work != work then 0
                   else WorkersStarted(jobs[id]) - WorkersStarted(old(jobs)[id])
    {
      var job := jobs[id];
      ghost var before := jobs;
      jobs := jobs[id := job.(status := status, attempts := job.attempts + if increment then 1 else 0)];
      forall work, revision
        ensures Consumed(listing, jobs, work, revision) + Contribution(job, work, revision)
                == Consumed(listing, before, work, revision) + Contribution(jobs[id], work, revision)
      {
        OneJobChanges(listing, before, jobs, id, work, revision);
      }
    }

    method RecordAttempt(id: string, a: Attempt)
      requires Valid() && id in jobs
      modifies `jobs
      ensures Valid() && jobs == WithRecords(old(jobs), id, Upsert(old(jobs)[id].records, a))
    {
      var surviving: seq<Attempt> := [];
      var records := jobs[id].records;
      for i := 0 to |records|
        invariant surviving == Without(records[..i], a.id)
      {
        assert records[..i + 1][..i] == records[..i];
        if records[i].id != a.id {
          surviving := surviving + [records[i]];
        }
      }
      assert records[..|records|] == records;
      surviving := surviving + [a];
      jobs := jobs[id := jobs[id].(records := SortByNumber(surviving))];
    }

    /** Settle what a restart interrupted, one upsert per incomplete record. On a proper chain nothing
        but the status of incomplete records changes. */
    method SettleInterruptedAttempts(id: string)
      requires Valid() && id in jobs && Chained(id, jobs[id].records)
      modifies `jobs
      ensures Valid() && jobs == WithRecords(old(jobs), id, Reconciled(old(jobs)[id].records))
    {
      var records := jobs[id].records;
      ghost var now := records;
      Halfway(records);
      for i := 0 to |records|
        invariant now == Half(records, i)
        invariant Valid() && id in jobs && jobs == WithRecords(old(jobs), id, now)
      {
        SettlesOne(id, records, i);
        if Incomplete(records[i].status) {
          RewriteTwice(old(jobs), id, now, Upsert(now, Settled(records[i])));
          RecordAttempt(id, Settled(records[i]));
          now := Upsert(now, Settled(records[i]));
        }
      }
    }
  }

  lemma RewriteTwice(jobs: map<string, Job>, id: string, first: seq<Attempt>, second: seq<Attempt>)
    requires id in jobs
    ensures WithRecords(WithRecords(jobs, id, first), id, second) == WithRecords(jobs, id, second)
  {
  }

  /** The records when the first `i` have been settled. */
  function Half(records: seq<Attempt>, i: nat): (r: seq<Attempt>)
    requires i <= |records|
  {
    Reconciled(records)[..i] + records[i..]
  }

  lemma Halfway(records: seq<Attempt>)
    ensures Half(records, 0) == records && Half(records, |records|) == Reconciled(records)
  {
  }

  lemma HalfChained(jobId: string, records: seq<Attempt>, i: nat)
    requires Chained(jobId, records) && i <= |records|
    ensures Chained(jobId, Half(records, i))
  {
    forall k | 0 <= k < |records|
      ensures InPlace(Half(records, i)[k], jobId, k)
    {
      assert InPlace(records[k], jobId, k);
    }
  }

  lemma SettlesOne(jobId: string, records: seq<Attempt>, i: nat)
    requires Chained(jobId, records) && i < |records|
    ensures Half(records, i + 1)
            == if Incomplete(records[i].status) then Upsert(Half(records, i), Settled(records[i])) else Half(records, i)
  {
    HalfChained(jobId, records, i);
    assert InPlace(records[i], jobId, i);
    UpsertReplaces(jobId, Half(records, i), Settled(records[i]));
    assert Half(records, i + 1) == Half(records, i)[i := Settled(records[i])];
  }

  /** Settling leaves the chain, the revisions and the account alone, and nothing admitted or running. */
  lemma {:induction false} SettlingKeepsTheAccount(jobId: string, records: seq<Attempt>, revision: string)
    requires Chained(jobId, records)
    ensures Chained(jobId, Reconciled(records))
    ensures CountRevision(Reconciled(records), revision) == CountRevision(records, revision)
    ensures forall r :: r in Reconciled(records) ==> !Incomplete(r.status)
  {
    if records != [] {
      var init := records[..|records| - 1];
      SettlingKeepsTheAccount(jobId, init, revision);
      assert Reconciled(records)[..|records| - 1] == Reconciled(init);
    }
  }

  /** `count_consumed_attempts` over the store's listing. */
  method CountConsumedAttempts(listing: seq<string>, jobs: map<string, Job>, work: Work, revision: string)
    returns (total: nat)
    requires forall id :: id in listing ==> id in jobs
    ensures total == Consumed(listing, jobs, work, revision)
  {
    total := 0;
    for i := 0 to |listing|
      invariant total == Consumed(listing[..i], jobs, work, revision)
    {
      assert listing[..i + 1][..i] == listing[..i];
      var job := jobs[listing[i]];
      if job.work == work {
        if job.records != [] {
          var matching := 0;
          for k := 0 to |job.records|
            invariant matching == if job.frozen == Some(revision) then k else CountRevision(job.records[..k], revision)
          {
            assert job.records[..k + 1][..k] == job.records[..k];
            if job.records[k].revision == revision || job.frozen == Some(revision) {
              matching := matching + 1;
            }
          }
          assert job.records[..|job.records|] == job.records;
          total := total + matching;
        } else if job.status != JobPending {
          total := total + if job.attempts > 1 then job.attempts else 1;
        }
      }
    }
    assert listing[..|listing|] == listing;
  }
}
