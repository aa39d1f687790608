// The chain driver of the worker proof: dependent tasks driven through their phases by a runner, with a
// retry budget and a cumulative ledger.
module WorkerChain {
  import opened Basics

  datatype Status = Ok | Delivered | Failure | Blocked | Interrupted | Retry | OtherStatus

  datatype Spec = Spec(id: string, depends: set<string>)

  datatype Attempt = Attempt(phase: string, status: Status, retryIndex: Option<nat>)

  datatype Entry = Entry(id: nat, spec: Spec, attempts: seq<Attempt>)

  /** What the runner does at one call; a returned retry index wins over the driver's. */
  datatype Answer = Raises | Returns(status: Status, retryIndex: Option<nat>)

  datatype Ending = Finished | NoPhases | BadBudget | RunnerRaised

  /** What a chain is driven with. The runner is an arbitrary function of how often it was called before
      and of its arguments: the task, the phase and the retry index. */
  datatype Drive = Drive(phases: seq<string>, budgets: map<string, int>, maxRetries: int,
                         runner: (nat, Spec, string, nat) -> Answer)
  {
    function Budget(spec: Spec): int {
      if spec.id in budgets then budgets[spec.id] else maxRetries
    }
  }

  predicate Passing(status: Status) {
    status == Ok || status == Delivered
  }

  predicate Passes(answer: Answer) {
    answer.Returns? && Passing(answer.status)
  }

  /** Entry ids are written as the position at which they were started. */
  class Ledger {
    var chain: seq<Entry>

    constructor ()
      ensures Valid() && chain == []
    {
      chain := [];
    }

    ghost predicate Valid()
      reads this
    {
      forall i :: 0 <= i < |chain| ==> chain[i].id == i
    }

    method StartTask(spec: Spec) returns (id: nat)
      requires Valid()
      modifies this
      ensures Valid() && id == |old(chain)| && chain == old(chain) + [Entry(id, spec, [])]
    {
      id := |chain|;
      chain := chain + [Entry(id, spec, [])];
    }

    /** Records are only ever appended to the entry they belong to. */
    method RecordAttempt(id: nat, a: Attempt)
      requires Valid() && id < |chain|
      modifies this
      ensures Valid() && chain == Extended(old(chain), id, [a])
    {
      for i := 0 to |chain|
        invariant chain == old(chain) && i <= id
      {
        if chain[i].id == id {
          chain := chain[i := chain[i].(attempts := chain[i].attempts + [a])];
          return;
        }
      }
    }
  }

  function Extended(chain: seq<Entry>, id: nat, more: seq<Attempt>): seq<Entry>
    requires id < |chain|
  {
    chain[id := chain[id].(attempts := chain[id].attempts + more)]
  }

  lemma ExtendsOn(chain: seq<Entry>, id: nat, a: seq<Attempt>, b: seq<Attempt>)
    requires id < |chain|
    ensures Extended(Extended(chain, id, a), id, b) == Extended(chain, id, a + b)
    ensures Extended(chain, id, []) == chain
  {
    assert chain[id].attempts + a + b == chain[id].attempts + (a + b);
    assert chain[id].attempts + [] == chain[id].attempts;
  }

  lemma FirstRecords(chain: seq<Entry>, spec: Spec, more: seq<Attempt>)
    ensures Extended(chain + [Entry(|chain|, spec, [])], |chain|, more) == chain + [Entry(|chain|, spec, more)]
  {
    assert [] + more == more;
  }

  // ---------------------------------------------------------------- what a run of the chain is

  /** What the ledger keeps of an answer. */
  function RecordOf(answer: Answer, phase: string, retry: nat): Attempt {
    match answer
    case Raises => Attempt(phase, Interrupted, Some(retry))
    case Returns(status, given) => Attempt(phase, status, if given.Some? then given else Some(retry))
  }

  /** The runner's answer to the `i`-th phase of a round that starts with this call. */
  function AnswerAt(d: Drive, spec: Spec, retry: nat, call: nat, i: nat): Answer
    requires i < |d.phases|
  {
    (d.runner)(call + i, spec, d.phases[i], retry)
  }

  /** One round through the phases: the runner is called for each in turn, every answer is recorded, and the
      round stops at the first answer that does not pass. */
  predicate IsRound(d: Drive, spec: Spec, retry: nat, call: nat, round: seq<Attempt>) {
    && 0 < |round| <= |d.phases|
    && (forall i :: 0 <= i < |round| ==> round[i] == RecordOf(AnswerAt(d, spec, retry, call, i), d.phases[i], retry))
    && (forall i :: 0 <= i < |round| - 1 ==> Passes(AnswerAt(d, spec, retry, call, i)))
    && (|round| == |d.phases| || !Passes(AnswerAt(d, spec, retry, call, |round| - 1)))
  }

  /** The round ended with the runner raising. */
  predicate RaisedIn(d: Drive, spec: Spec, retry: nat, call: nat, round: seq<Attempt>) {
    0 < |round| <= |d.phases| && AnswerAt(d, spec, retry, call, |round| - 1).Raises?
  }

  predicate Success(d: Drive, round: seq<Attempt>) {
    0 < |round| == |d.phases| && round[|round| - 1].status == Delivered
  }

  /** A round and how often the runner had been called before it. */
  datatype Round = Round(call: nat, attempts: seq<Attempt>)

  /** What happened to one task. `firstCall` is how often the runner had been called before; `cut` says the
      driver raised while working on it. */
  datatype TaskRun = TaskRun(spec: Spec, blocked: bool, firstCall: nat, rounds: seq<Round>, cut: bool)

  /** How often the runner has been called once these rounds are over. */
  function NextCall(firstCall: nat, rounds: seq<Round>): nat {
    if rounds == [] then firstCall else rounds[|rounds| - 1].call + |rounds[|rounds| - 1].attempts|
  }

  predicate EndsInSuccess(d: Drive, rounds: seq<Round>) {
    rounds != [] && Success(d, rounds[|rounds| - 1].attempts)
  }

  predicate EndsRaised(d: Drive, spec: Spec, rounds: seq<Round>) {
    rounds != [] && RaisedAt(d, spec, rounds[|rounds| - 1], |rounds| - 1)
  }

  predicate IsDelivered(d: Drive, run: TaskRun) {
    !run.cut && EndsInSuccess(d, run.rounds)
  }

  function DeliveredIds(d: Drive, trace: seq<TaskRun>): set<string> {
    set run | run in trace && IsDelivered(d, run) :: run.spec.id
  }

  const ADMISSION_BLOCKED := Attempt("admission", Blocked, None)

  function RetryMarker(i: nat): Attempt {
    Attempt("retry", Retry, Some(i))
  }

  /** The records of the rounds, a retry marker behind each failed one that still has budget. */
  function RoundRecords(d: Drive, rounds: seq<Round>, budget: int, cut: bool): seq<Attempt> {
    if rounds == [] then []
    else
      var n := |rounds| - 1;
      RoundRecords(d, rounds[..n], budget, false) + rounds[n].attempts
      + if cut || Success(d, rounds[n].attempts) || n >= budget then [] else [RetryMarker(n)]
  }

  function Records(d: Drive, run: TaskRun): seq<Attempt> {
    if run.blocked then [ADMISSION_BLOCKED] else RoundRecords(d, run.rounds, d.Budget(run.spec), run.cut)
  }

  predicate RoundAt(d: Drive, spec: Spec, round: Round, retry: nat) {
    IsRound(d, spec, retry, round.call, round.attempts)
  }

  predicate RaisedAt(d: Drive, spec: Spec, round: Round, retry: nat) {
    RaisedIn(d, spec, retry, round.call, round.attempts)
  }

  /** Rounds on consecutive calls, none before the last having ended the task. */
  predicate GoodRounds(d: Drive, spec: Spec, firstCall: nat, rounds: seq<Round>)
    decreases |rounds|, 0
  {
    rounds != [] ==>
      var n := |rounds| - 1;
      && Unfinished(d, spec, firstCall, rounds[..n])
      && rounds[n].call == NextCall(firstCall, rounds[..n]) && RoundAt(d, spec, rounds[n], n)
  }

  /** No round so far was successful or ended with the runner raising. */
  predicate Unfinished(d: Drive, spec: Spec, firstCall: nat, rounds: seq<Round>)
    decreases |rounds|, 1
  {
    GoodRounds(d, spec, firstCall, rounds) && !EndsInSuccess(d, rounds) && !EndsRaised(d, spec, rounds)
  }

  /** A task is blocked exactly when a dependency is undelivered; otherwise it makes at most budget plus one
      rounds, and gives up only when they are used up. It is cut short exactly by a negative budget or by a
      raising runner. */
  predicate GoodRun(d: Drive, run: TaskRun, before: set<string>) {
    && (run.blocked <==> !(run.spec.depends <= before))
    && (run.blocked ==> run.rounds == [])
    && (run.rounds != [] ==> |run.rounds| <= d.Budget(run.spec) + 1)
    && GoodRounds(d, run.spec, run.firstCall, run.rounds)
    && (run.cut <==> !run.blocked && (d.Budget(run.spec) < 0 || EndsRaised(d, run.spec, run.rounds)))
    && (!run.blocked && !run.cut ==> IsDelivered(d, run) || |run.rounds| == d.Budget(run.spec) + 1)
  }

  /** How often the runner has been called once these tasks are done. */
  function CallsAfter(trace: seq<TaskRun>): nat {
    if trace == [] then 0 else NextCall(trace[|trace| - 1].firstCall, trace[|trace| - 1].rounds)
  }

  /** What a task is after these ones. */
  predicate Follows(d: Drive, trace: seq<TaskRun>, run: TaskRun, spec: Spec) {
    run.spec == spec && run.firstCall == CallsAfter(trace) && GoodRun(d, run, DeliveredIds(d, trace))
  }

  predicate GoodTrace(d: Drive, trace: seq<TaskRun>, specs: seq<Spec>) {
    |trace| <= |specs|
    && (trace != [] ==>
          var n := |trace| - 1;
          GoodTrace(d, trace[..n], specs) && Follows(d, trace[..n], trace[n], specs[n]))
  }

  lemma {:induction false} GoodAt(d: Drive, trace: seq<TaskRun>, specs: seq<Spec>, i: nat)
    requires GoodTrace(d, trace, specs) && i < |trace|
    ensures i < |specs| && Follows(d, trace[..i], trace[i], specs[i])
  {
    var n := |trace| - 1;
    if i < n {
      GoodAt(d, trace[..n], specs, i);
      assert trace[..n][..i] == trace[..i];
    }
  }

  function EntryOf(d: Drive, run: TaskRun, id: nat): Entry {
    Entry(id, run.spec, Records(d, run))
  }

  function Entries(d: Drive, trace: seq<TaskRun>, first: nat): seq<Entry> {
    seq(|trace|, i requires 0 <= i < |trace| => EntryOf(d, trace[i], first + i))
  }

  // ---------------------------------------------------------------- consequences

  /** The delivered tasks are in dependency order: whatever a delivered task depends on was delivered by an
      earlier one. */
  lemma DeliveryFollowsDependencies(d: Drive, trace: seq<TaskRun>, specs: seq<Spec>, i: nat, dependency: string)
    requires GoodTrace(d, trace, specs)
    requires i < |trace| && IsDelivered(d, trace[i]) && dependency in trace[i].spec.depends
    ensures exists j :: 0 <= j < i && trace[j].spec.id == dependency && IsDelivered(d, trace[j])
  {
    GoodAt(d, trace, specs, i);
    assert dependency in DeliveredIds(d, trace[..i]);
    var run :| run in trace[..i] && IsDelivered(d, run) && run.spec.id == dependency;
    var j :| 0 <= j < i && trace[..i][j] == run;
    assert trace[j] == run;
  }

  /** For a delivered task the runner was called for every phase in turn in its final round, each of its
      answers passed, and the last one was a delivery. */
  lemma DeliveredRanEveryPhase(d: Drive, trace: seq<TaskRun>, specs: seq<Spec>, i: nat)
    requires GoodTrace(d, trace, specs)
    requires i < |trace| && IsDelivered(d, trace[i])
    ensures |trace[i].rounds| <= d.Budget(specs[i]) + 1
    ensures trace[i].firstCall == CallsAfter(trace[..i]) && trace[i].rounds != [] && d.phases != []
    ensures var retry: nat := |trace[i].rounds| - 1;
            var call := trace[i].rounds[retry].call;
            && call == NextCall(trace[i].firstCall, trace[i].rounds[..retry])
            && (forall k :: 0 <= k < |d.phases| ==> Passes(AnswerAt(d, specs[i], retry, call, k)))
            && AnswerAt(d, specs[i], retry, call, |d.phases| - 1).status == Delivered
  {
    GoodAt(d, trace, specs, i);
    var retry := |trace[i].rounds| - 1;
    var last := trace[i].rounds[retry];
    assert RoundAt(d, trace[i].spec, last, retry);
    SuccessfulAnswers(d, specs[i], retry, last.call, last.attempts);
  }

  lemma SuccessfulAnswers(d: Drive, spec: Spec, retry: nat, call: nat, round: seq<Attempt>)
    requires IsRound(d, spec, retry, call, round) && Success(d, round)
    ensures d.phases != [] && forall k :: 0 <= k < |d.phases| ==> Passes(AnswerAt(d, spec, retry, call, k))
    ensures AnswerAt(d, spec, retry, call, |d.phases| - 1).status == Delivered
  {
    var n := |round| - 1;
    assert round[n] == RecordOf(AnswerAt(d, spec, retry, call, n), d.phases[n], retry);
  }

  // ---------------------------------------------------------------- the summary

  function Count(attempts: seq<Attempt>, status: Status): nat {
    if attempts == [] then 0
    else
      Count(attempts[..|attempts| - 1], status) + if attempts[|attempts| - 1].status == status then 1 else 0
  }

  /** The completed count of `summarize`, which is taken over attempts. */
  function Completed(chain: seq<Entry>): nat {
    if chain == [] then 0 else Completed(chain[..|chain| - 1]) + Count(chain[|chain| - 1].attempts, Delivered)
  }

  function DeliveredRuns(d: Drive, trace: seq<TaskRun>): nat {
    if trace == [] then 0
    else DeliveredRuns(d, trace[..|trace| - 1]) + if IsDelivered(d, trace[|trace| - 1]) then 1 else 0
  }

  lemma {:induction false} CountConcat(a: seq<Attempt>, b: seq<Attempt>, status: Status)
    ensures Count(a + b, status) == Count(a, status) + Count(b, status)
  {
    if b == [] {
      assert a + b == a;
    } else {
      assert (a + b)[..|a + b| - 1] == a + b[..|b| - 1];
      CountConcat(a, b[..|b| - 1], status);
    }
  }

  lemma {:induction false} CountNone(a: seq<Attempt>, status: Status)
    ensures Count(a, status) == 0 <==> forall i :: 0 <= i < |a| ==> a[i].status != status
  {
    if a != [] {
      CountNone(a[..|a| - 1], status);
    }
  }

  /** The runner answered with a delivery before the last phase. */
  predicate EarlyDelivery(d: Drive, run: TaskRun) {
    AnyEarly(d, run.rounds)
  }

  predicate AnyEarly(d: Drive, rounds: seq<Round>) {
    exists k :: 0 <= k < |rounds| && EarlyIn(d, rounds[k].attempts)
  }

  predicate EarlyIn(d: Drive, round: seq<Attempt>) {
    exists i :: 0 <= i < |round| && i < |d.phases| - 1 && round[i].status == Delivered
  }

  /** A round counts its delivery, and more exactly when a delivery came early. */
  lemma RoundCount(d: Drive, spec: Spec, retry: nat, call: nat, round: seq<Attempt>)
    requires IsRound(d, spec, retry, call, round)
    ensures Count(round, Delivered) >= if Success(d, round) then 1 else 0
    ensures EarlyIn(d, round) <==> Count(round, Delivered) > if Success(d, round) then 1 else 0
  {
    var n := |round| - 1;
    CountNone(round[..n], Delivered);
    if n < |d.phases| - 1 {
      CountNone(round, Delivered);
    } else {
      assert EarlyIn(d, round) <==> exists i :: 0 <= i < n && round[..n][i].status == Delivered;
    }
  }

  lemma {:induction false} RoundsCount(d: Drive, spec: Spec, firstCall: nat, rounds: seq<Round>, budget: int, cut: bool)
    requires GoodRounds(d, spec, firstCall, rounds)
    ensures var delivered := if rounds != [] && Success(d, rounds[|rounds| - 1].attempts) then 1 else 0;
            && Count(RoundRecords(d, rounds, budget, cut), Delivered) >= delivered
            && (AnyEarly(d, rounds) <==> Count(RoundRecords(d, rounds, budget, cut), Delivered) > delivered)
  {
    if rounds != [] {
      var n := |rounds| - 1;
      RoundsCount(d, spec, firstCall, rounds[..n], budget, false);
      assert RoundAt(d, spec, rounds[n], n);
      RoundCount(d, spec, n, rounds[n].call, rounds[n].attempts);
      RecordsCount(d, rounds, budget, cut);
      EarlySplit(d, rounds, n);
    }
  }

  lemma RecordsCount(d: Drive, rounds: seq<Round>, budget: int, cut: bool)
    requires rounds != []
    ensures var n := |rounds| - 1;
            Count(RoundRecords(d, rounds, budget, cut), Delivered)
            == Count(RoundRecords(d, rounds[..n], budget, false), Delivered) + Count(rounds[n].attempts, Delivered)
  {
    var n := |rounds| - 1;
    var earlier := RoundRecords(d, rounds[..n], budget, false);
    var marker := if cut || Success(d, rounds[n].attempts) || n >= budget then [] else [RetryMarker(n)];
    CountConcat(earlier + rounds[n].attempts, marker, Delivered);
    CountConcat(earlier, rounds[n].attempts, Delivered);
    CountNone(marker, Delivered);
  }

  lemma EarlySplit(d: Drive, rounds: seq<Round>, n: nat)
    requires n == |rounds| - 1
    ensures AnyEarly(d, rounds) <==> AnyEarly(d, rounds[..n]) || EarlyIn(d, rounds[n].attempts)
  {
    if k :| 0 <= k < n && EarlyIn(d, rounds[..n][k].attempts) {
      assert EarlyIn(d, rounds[k].attempts);
    }
    if k :| 0 <= k < |rounds| && EarlyIn(d, rounds[k].attempts) && k != n {
      assert EarlyIn(d, rounds[..n][k].attempts);
    }
  }

  lemma CutIsNoSuccess(d: Drive, run: TaskRun, before: set<string>)
    requires GoodRun(d, run, before) && run.cut && run.rounds != []
    ensures !Success(d, run.rounds[|run.rounds| - 1].attempts)
  {
    var n := |run.rounds| - 1;
    assert |run.rounds| <= d.Budget(run.spec) + 1;
    var call, round := run.rounds[n].call, run.rounds[n].attempts;
    assert RoundAt(d, run.spec, run.rounds[n], n) && RaisedAt(d, run.spec, run.rounds[n], n);
    assert round[|round| - 1] == RecordOf(AnswerAt(d, run.spec, n, call, |round| - 1), d.phases[|round| - 1], n);
  }

  lemma RunCount(d: Drive, run: TaskRun, before: set<string>)
    requires GoodRun(d, run, before)
    ensures Count(Records(d, run), Delivered) >= if IsDelivered(d, run) then 1 else 0
    ensures EarlyDelivery(d, run) <==> Count(Records(d, run), Delivered) > if IsDelivered(d, run) then 1 else 0
  {
    if run.blocked {
      CountNone([ADMISSION_BLOCKED], Delivered);
    } else {
      if run.cut && run.rounds != [] {
        CutIsNoSuccess(d, run, before);
      }
      RoundsCount(d, run.spec, run.firstCall, run.rounds, d.Budget(run.spec), run.cut);
    }
  }

  /** The completed count is at least the number of delivered tasks, and equals it exactly when the runner
      never answers with a delivery before the last phase. */
  lemma {:induction false} CompletedCountsDeliveries(d: Drive, trace: seq<TaskRun>, specs: seq<Spec>, first: nat)
    requires GoodTrace(d, trace, specs)
    ensures Completed(Entries(d, trace, first)) >= DeliveredRuns(d, trace)
    ensures Completed(Entries(d, trace, first)) == DeliveredRuns(d, trace)
            <==> forall run :: run in trace ==> !EarlyDelivery(d, run)
  {
    if trace != [] {
      var n := |trace| - 1;
      CompletedCountsDeliveries(d, trace[..n], specs, first);
      RunCount(d, trace[n], DeliveredIds(d, trace[..n]));
      LastEntry(d, trace, first);
      LastRun(d, trace);
    }
  }

  lemma LastEntry(d: Drive, trace: seq<TaskRun>, first: nat)
    requires trace != []
    ensures var n := |trace| - 1;
            && Entries(d, trace, first)[..n] == Entries(d, trace[..n], first)
            && Entries(d, trace, first)[n].attempts == Records(d, trace[n])
  {
  }

  lemma LastRun(d: Drive, trace: seq<TaskRun>)
    requires trace != []
    ensures var n := |trace| - 1;
            (forall run :: run in trace ==> !EarlyDelivery(d, run))
            <==> (forall run :: run in trace[..n] ==> !EarlyDelivery(d, run)) && !EarlyDelivery(d, trace[n])
  {
    var n := |trace| - 1;
    assert forall run :: run in trace <==> run in trace[..n] || run == trace[n];
  }

  /** Such a runner: it answers every call with a delivery, so one delivered task counts twice. */
  lemma CompletedCanExceedDeliveries()
    ensures exists d, trace, specs ::
              GoodTrace(d, trace, specs) && Completed(Entries(d, trace, 0)) > DeliveredRuns(d, trace)
  {
    var spec := Spec("a", {});
    var d := Drive(["one", "two"], map[], 0, (call, s, phase, retry) => Returns(Delivered, None));
    var round := Round(0, [Attempt("one", Delivered, Some(0)), Attempt("two", Delivered, Some(0))]);
    var run := TaskRun(spec, false, 0, [round], false);
    assert RoundAt(d, spec, round, 0);
    assert [round][..0] == [];
    RoundAdded(d, spec, 0, [], round);
    assert [] + [round] == [round];
    assert !RaisedAt(d, spec, round, 0);
    assert GoodRun(d, run, {});
    assert [run][..0] == [];
    assert DeliveredIds(d, []) == {};
    assert GoodTrace(d, [run][..0], [spec]);
    assert Follows(d, [run][..0], run, spec);
    assert GoodTrace(d, [run], [spec]);
    assert round.attempts[0].status == Delivered && EarlyIn(d, round.attempts);
    assert run.rounds[0] == round;
    assert run in [run] && EarlyDelivery(d, run);
    CompletedCountsDeliveries(d, [run], [spec], 0);
  }

  // ---------------------------------------------------------------- the driver

  /** One round of `run_chain`. */
  method RunRound(ledger: Ledger, taskId: nat, d: Drive, spec: Spec, call: nat, retry: nat)
    returns (round: seq<Attempt>, raised: bool)
    requires ledger.Valid() && taskId < |ledger.chain| && d.phases != []
    modifies ledger
    ensures ledger.Valid() && ledger.chain == Extended(old(ledger.chain), taskId, round)
    ensures IsRound(d, spec, retry, call, round)
    ensures raised <==> RaisedIn(d, spec, retry, call, round)
  {
    round, raised := [], false;
    ExtendsOn(ledger.chain, taskId, [], []);
    while |round| < |d.phases|
      invariant ledger.Valid() && taskId < |old(ledger.chain)|
      invariant ledger.chain == Extended(old(ledger.chain), taskId, round)
      invariant |round| <= |d.phases| && !raised
      invariant forall i :: 0 <= i < |round| ==>
                  && Passes(AnswerAt(d, spec, retry, call, i))
                  && round[i] == RecordOf(AnswerAt(d, spec, retry, call, i), d.phases[i], retry)
    {
      var phase := d.phases[|round|];
      var answer := (d.runner)(call + |round|, spec, phase, retry);
      var result := RecordOf(answer, phase, retry);
      ExtendsOn(old(ledger.chain), taskId, round, [result]);
      ledger.RecordAttempt(taskId, result);
      round := round + [result];
      if answer.Raises? {
        raised := true;
        return;
      }
      if !Passing(result.status) {
        return;
      }
    }
  }

  /** The rounds of one admitted task. */
  method RunRounds(ledger: Ledger, taskId: nat, d: Drive, spec: Spec, firstCall: nat)
    returns (raised: bool, delivered: bool, calls: nat, ghost run: TaskRun)
    requires ledger.Valid() && taskId < |ledger.chain| && d.phases != [] && ledger.chain[taskId].attempts == []
    requires d.Budget(spec) >= 0
    modifies ledger
    ensures ledger.Valid() && ledger.chain == Extended(old(ledger.chain), taskId, Records(d, run))
    ensures run.spec == spec && !run.blocked && run.firstCall == firstCall && run.cut == raised
    ensures delivered <==> IsDelivered(d, run)
    ensures calls == NextCall(firstCall, run.rounds)
    ensures |run.rounds| <= d.Budget(spec) + 1 && GoodRounds(d, spec, firstCall, run.rounds)
    ensures raised <==> EndsRaised(d, spec, run.rounds)
    ensures !raised ==> delivered || |run.rounds| == d.Budget(spec) + 1
  {
    var retries: nat := d.Budget(spec);
    raised, delivered, calls := false, false, firstCall;
    ghost var rounds: seq<Round> := [];
    run := TaskRun(spec, false, firstCall, [], false);
    ExtendsOn(ledger.chain, taskId, [], []);
    for retry := 0 to retries + 1
      invariant ledger.Valid() && taskId < |old(ledger.chain)| && |rounds| == retry
      invariant ledger.chain == Extended(old(ledger.chain), taskId, RoundRecords(d, rounds, retries, false))
      invariant calls == NextCall(firstCall, rounds) && Unfinished(d, spec, firstCall, rounds)
    {
      var round;
      round, raised := RunRound(ledger, taskId, d, spec, calls, retry);
      RoundAdded(d, spec, firstCall, rounds, Round(calls, round));
      ChainNext(d, old(ledger.chain), taskId, rounds, Round(calls, round), retries, raised);
      rounds, calls := rounds + [Round(calls, round)], calls + |round|;
      if raised {
        run := TaskRun(spec, false, firstCall, rounds, true);
        return;
      }
      if |round| == |d.phases| && round[|round| - 1].status == Delivered {
        delivered := true;
        run := TaskRun(spec, false, firstCall, rounds, false);
        return;
      }
      if retry < retries {
        ledger.RecordAttempt(taskId, RetryMarker(retry));
      }
    }
    run := TaskRun(spec, false, firstCall, rounds, false);
  }

  lemma RecordsNext(d: Drive, rounds: seq<Round>, round: Round, budget: nat, cut: bool)
    ensures var records := RoundRecords(d, rounds, budget, false) + round.attempts;
            RoundRecords(d, rounds + [round], budget, cut)
            == if cut || Success(d, round.attempts) || |rounds| >= budget then records
                else records + [RetryMarker(|rounds|)]
  {
    assert (rounds + [round])[..|rounds|] == rounds;
    var records := RoundRecords(d, rounds, budget, false) + round.attempts;
    assert records + [] == records;
  }

  lemma ChainNext(d: Drive, start: seq<Entry>, id: nat, rounds: seq<Round>, round: Round, budget: nat, cut: bool)
    requires id < |start|
    ensures var records := RoundRecords(d, rounds + [round], budget, cut);
            var chain := Extended(Extended(start, id, RoundRecords(d, rounds, budget, false)), id, round.attempts);
            Extended(start, id, records)
            == if cut || Success(d, round.attempts) || |rounds| >= budget then chain
               else Extended(chain, id, [RetryMarker(|rounds|)])
  {
    RecordsNext(d, rounds, round, budget, cut);
    var records := RoundRecords(d, rounds, budget, false);
    ExtendsOn(start, id, records, round.attempts);
    ExtendsOn(start, id, records + round.attempts, [RetryMarker(|rounds|)]);
  }

  lemma RoundAdded(d: Drive, spec: Spec, firstCall: nat, rounds: seq<Round>, round: Round)
    requires Unfinished(d, spec, firstCall, rounds)
    requires round.call == NextCall(firstCall, rounds) && RoundAt(d, spec, round, |rounds|)
    ensures GoodRounds(d, spec, firstCall, rounds + [round])
    ensures NextCall(firstCall, rounds + [round]) == round.call + |round.attempts|
    ensures EndsInSuccess(d, rounds + [round]) <==> Success(d, round.attempts)
    ensures EndsRaised(d, spec, rounds + [round]) <==> RaisedAt(d, spec, round, |rounds|)
  {
    assert (rounds + [round])[..|rounds|] == rounds;
  }

  /** One task of `run_chain`: admission, budget, rounds. */
  method RunTask(ledger: Ledger, d: Drive, spec: Spec, before: set<string>, firstCall: nat)
    returns (ending: Ending, delivered: bool, calls: nat, ghost run: TaskRun)
    requires ledger.Valid() && d.phases != []
    modifies ledger
    ensures ledger.Valid() && run.spec == spec && run.firstCall == firstCall && GoodRun(d, run, before)
    ensures ledger.chain == old(ledger.chain) + [EntryOf(d, run, |old(ledger.chain)|)]
    ensures calls == NextCall(firstCall, run.rounds)
    ensures ending == (if !run.cut then Finished else if run.rounds == [] then BadBudget else RunnerRaised)
    ensures delivered <==> IsDelivered(d, run)
  {
    ending, delivered, calls := Finished, false, firstCall;
    run := TaskRun(spec, true, firstCall, [], false);
    ghost var chain := ledger.chain;
    var taskId := ledger.StartTask(spec);
    if !(spec.depends <= before) {
      ledger.RecordAttempt(taskId, ADMISSION_BLOCKED);
      FirstRecords(chain, spec, [ADMISSION_BLOCKED]);
    } else if d.Budget(spec) < 0 {
      ending := BadBudget;
      run := TaskRun(spec, false, firstCall, [], true);
    } else {
      var raised;
      raised, delivered, calls, run := RunRounds(ledger, taskId, d, spec, firstCall);
      FirstRecords(chain, spec, Records(d, run));
      if raised {
        ending := RunnerRaised;
      }
    }
  }

  /** What the chain driver keeps from task to task. */
  predicate Driven(d: Drive, start: seq<Entry>, chain: seq<Entry>, trace: seq<TaskRun>, specs: seq<Spec>) {
    GoodTrace(d, trace, specs) && chain == start + Entries(d, trace, |start|)
  }

  lemma DeliveredOn(d: Drive, trace: seq<TaskRun>, run: TaskRun)
    ensures DeliveredIds(d, trace + [run]) == DeliveredIds(d, trace) + if IsDelivered(d, run) then {run.spec.id} else {}
  {
    forall r
      ensures r in trace + [run] <==> r in trace || r == run
    {
    }
  }

  lemma DrivenOn(d: Drive, start: seq<Entry>, chain: seq<Entry>, trace: seq<TaskRun>, run: TaskRun, specs: seq<Spec>)
    requires Driven(d, start, chain, trace, specs) && |trace| < |specs| && Follows(d, trace, run, specs[|trace|])
    ensures Driven(d, start, chain + [EntryOf(d, run, |chain|)], trace + [run], specs)
  {
    TraceOn(d, trace, run, specs);
    EntriesOn(d, trace, run, |start|);
    Regroup(start, Entries(d, trace, |start|), EntryOf(d, run, |chain|));
  }

  lemma TraceOn(d: Drive, trace: seq<TaskRun>, run: TaskRun, specs: seq<Spec>)
    requires GoodTrace(d, trace, specs) && |trace| < |specs| && Follows(d, trace, run, specs[|trace|])
    ensures GoodTrace(d, trace + [run], specs)
  {
    assert (trace + [run])[..|trace|] == trace;
  }

  lemma Regroup(start: seq<Entry>, entries: seq<Entry>, entry: Entry)
    ensures start + entries + [entry] == start + (entries + [entry])
  {
  }

  lemma EntriesOn(d: Drive, trace: seq<TaskRun>, run: TaskRun, first: nat)
    ensures Entries(d, trace + [run], first) == Entries(d, trace, first) + [EntryOf(d, run, first + |trace|)]
  {
  }

  /** `run_chain`: from any state of the ledger, for any runner. */
  method RunChain(ledger: Ledger, d: Drive, specs: seq<Spec>) returns (ending: Ending, ghost trace: seq<TaskRun>)
    requires ledger.Valid()
    modifies ledger
    ensures ledger.Valid() && Driven(d, old(ledger.chain), ledger.chain, trace, specs)
    ensures ending == NoPhases <==> d.phases == []
    ensures ending == Finished ==> |trace| == |specs| && forall run :: run in trace ==> !run.cut
    ensures ending == BadBudget ==> trace != [] && d.Budget(trace[|trace| - 1].spec) < 0
    ensures ending == RunnerRaised ==>
              trace != [] && trace[|trace| - 1].cut && d.Budget(trace[|trace| - 1].spec) >= 0
  {
    ending, trace := Finished, [];
    if d.phases == [] {
      return NoPhases, trace;
    }
    var delivered: set<string>, calls: nat := {}, 0;
    for i := 0 to |specs|
      invariant ledger.Valid() && |trace| == i && Driven(d, old(ledger.chain), ledger.chain, trace, specs)
      invariant delivered == DeliveredIds(d, trace) && calls == CallsAfter(trace) && ending == Finished
      invariant forall run :: run in trace ==> !run.cut
    {
      var now;
      ghost var run;
      ghost var chain := ledger.chain;
      ending, now, calls, run := RunTask(ledger, d, specs[i], delivered, calls);
      DrivenOn(d, old(ledger.chain), chain, trace, run, specs);
      DeliveredOn(d, trace, run);
      trace := trace + [run];
      if ending != Finished {
        return;
      }
      if now {
        delivered := delivered + {specs[i].id};
      }
    }
  }
}
