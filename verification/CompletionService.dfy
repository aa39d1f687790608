// The completion service over its stores: effects applied in place, the recovery loop,
// and the transaction runtime, each proved against the specification functions of Acceptance.
module CompletionStores {
  import opened Basics
  import opened FileTree
  import opened Delivery
  import opened Integration
  import opened EventLog
  import opened Acceptance

  class CompletionService {
    const ignored: set<Path>
    const storage: map<string, map<Path, Image>>
    var repo: Tree
    var artifacts: map<Path, Image>
    var tasks: map<string, Task>
    var head: Commit
    var log: Log
    var journals: map<string, Journal>
    var jobs: map<string, Job>

    constructor (w: World)
      ensures Now() == w
    {
      ignored, storage := w.site.ignored, w.storage;
      repo, artifacts, tasks, head := w.site.repo, w.site.artifacts, w.site.tasks, w.site.head;
      log, journals, jobs := w.log, w.journals, w.jobs;
    }

    ghost function Here(): Site
      reads this
    {
      Site(repo, ignored, artifacts, tasks, head)
    }

    ghost function Now(): World
      reads this
    {
      World(Here(), storage, log, journals, jobs)
    }

    method ApplyEffect(sealed: map<Path, Image>, e: Effect) returns (accepted: bool)
      modifies `repo, `artifacts, `tasks, `head
      ensures accepted <==> Apply(old(Here()), sealed, e).Some?
      ensures Here() == if accepted then Apply(old(Here()), sealed, e).value else old(Here())
    {
      match e {
        case MoveTask(id, toState) =>
          if id !in tasks {
            return false;
          }
          tasks := tasks[id := tasks[id].(state := toState)];
        case CreateTask(id, task) =>
          if id in tasks {
            return false;
          }
          tasks := tasks[id := task];
        case LinkDerived(parent, children) =>
          if parent !in tasks {
            return false;
          }
          tasks := tasks[parent := tasks[parent].(sections := tasks[parent].sections + [children])];
        case Artifact(source, target, _, _, _, _, link, taskId) =>
          if source !in sealed {
            return false;
          }
          artifacts := artifacts[target := sealed[source]];
          if link != "" && taskId in tasks {
            tasks := tasks[taskId := WithLink(tasks[taskId], link)];
          }
        case File(file) =>
          var changed := ApplyFile(repo, sealed, file);
          if changed.None? {
            return false;
          }
          repo := changed.value;
        case CommitChanges(message, paths) =>
          var committable := Committable(paths, ignored);
          var tree := CommitTree(head.tree, committable, repo.files);
          if committable != {} {
            if !Addable(repo.files, head.tree, committable) {
              return false;
            }
            if tree == head.tree {
              return Clean(repo.files, tree, ignored);
            }
            if message == "" {
              return false;
            }
            head := Commit(Some(head), tree, message);
          }
      }
      accepted := true;
    }

    method HasConflict(sealed: map<Path, Image>, context: Context, effects: seq<Effect>) returns (v: Verdict)
      ensures v == FirstVerdict(Here(), sealed, context, effects)
    {
      v := Clear;
      for i := 0 to |effects|
        invariant FirstVerdict(Here(), sealed, context, effects) == FirstVerdict(Here(), sealed, context, effects[i..])
      {
        v := EffectVerdict(Site(repo, ignored, artifacts, tasks, head), sealed, context, effects[i]);
        assert effects[i..][0] == effects[i] && effects[i..][1..] == effects[i + 1..];
        if v != Clear {
          return;
        }
      }
      v := Clear;
    }

    method ReplayEffects(sealed: map<Path, Image>, context: Context, effects: seq<Effect>) returns (applying: bool)
      modifies `repo, `artifacts, `tasks, `head
      ensures (Here(), applying) == RunReplay(old(Here()), sealed, context, effects)
    {
      for i := 0 to |effects|
        invariant (Here(), true) == RunReplay(old(Here()), sealed, context, effects[..i])
      {
        assert effects[..i + 1][..i] == effects[..i];
        var applied := Applied(Site(repo, ignored, artifacts, tasks, head), sealed, context, effects[i]);
        if !applied {
          var accepted := ApplyEffect(sealed, effects[i]);
          if !accepted {
            StoppedReplay(old(Here()), sealed, context, effects, i + 1);
            return false;
          }
        }
      }
      assert effects[..|effects|] == effects;
      applying := true;
    }

    method SettleRecovered(j: Journal) returns (settled: bool)
      modifies `jobs
      ensures Now() == Settle(old(Now()), j)
      ensures !settled ==> jobs == old(jobs)
    {
      var context := j.context;
      if context.jobId.None? || !context.hasMetadata || context.jobId.value !in jobs {
        return false;
      }
      var job := jobs[context.jobId.value];
      if job.status == Accepted || j.taskId != Some(job.taskId) || j.transitionId != Some(job.transitionId) {
        return false;
      }
      var commit := if context.base.Some? then context.base else job.commit;
      var message := CommitMessage(j.effects);
      if message.Some? {
        if !CommitExists(Site(repo, ignored, artifacts, tasks, head), context, message.value) {
          return false;
        }
        commit := Some(head);
      }
      jobs := jobs[context.jobId.value := job.(status := Accepted, commit := commit)];
      settled := true;
    }

    /** One iteration of the loop; `raised` is an exception that leaves the loop. */
    method RecoverJournal(id: string) returns (raised: bool)
      requires id in journals
      modifies `repo, `artifacts, `tasks, `head, `log, `journals, `jobs
      ensures (Now(), raised) == RecoverRecord(old(Now()), id, NoCut)
    {
      raised := false;
      var j := journals[id];
      if j.effects == [] || j.taskId.None? || j.transitionId.None? || ExpectedState(j.taskId.value, j.effects) == "" {
        return;
      }
      var sealed := j.context.candidate.manifest;
      if Get(storage, j.context.candidate.id) != Some(sealed) {
        return;
      }
      var conflict := HasConflict(sealed, j.context, j.effects);
      if conflict != Clear {
        return conflict == Raises;
      }
      var expected := ExpectedState(j.taskId.value, j.effects);
      if j.status == Committed {
        var here := Site(repo, ignored, artifacts, tasks, head);
        if (forall e :: e in j.effects && !e.LinkDerived? ==> Applied(here, sealed, j.context, e))
           && FinalValid(here, sealed, j.taskId.value, expected, j.context) {
          var _ := SettleRecovered(j);
        }
        return;
      }
      var applying := ReplayEffects(sealed, j.context, j.effects);
      if !applying || !FinalValid(Site(repo, ignored, artifacts, tasks, head), sealed, j.taskId.value, expected,
          j.context) {
        return;
      }
      log := AppendMany(log, j.events);
      journals := journals[id := j.(status := Committed)];
      var _ := SettleRecovered(j);
    }

    method RecoverCompletionTransactions(listing: seq<string>) returns (raised: bool)
      requires forall id :: id in listing ==> id in journals
      modifies `repo, `artifacts, `tasks, `head, `log, `journals, `jobs
      ensures (Now(), raised) == RecoverAll(old(Now()), listing)
    {
      raised := false;
      for i := 0 to |listing|
        invariant journals.Keys == old(journals.Keys)
        invariant (Now(), false) == RecoverAll(old(Now()), listing[..i])
      {
        PassUnfolds(old(Now()), listing, i);
        raised := RecoverJournal(listing[i]);
        if raised {
          StoppedPass(old(Now()), listing, i + 1);
          return;
        }
      }
      assert listing[..|listing|] == listing;
    }

    /** The live transaction of a prepared journal, up to its first refusal. */
    method ApplyTransaction(id: string) returns (accepted: bool)
      requires id in journals && journals[id].taskId.Some?
      modifies `repo, `artifacts, `tasks, `head, `log, `journals, `jobs
      ensures accepted <==> LiveRun(old(Now()), id, NoCut).Some?
      ensures accepted ==> Now() == LiveRun(old(Now()), id, NoCut).value
    {
      var j := journals[id];
      var sealed := j.context.candidate.manifest;
      for i := 0 to |j.effects|
        invariant RunLive(old(Here()), sealed, j.effects[..i]) == Some(Here())
        invariant log == old(log) && journals == old(journals) && jobs == old(jobs)
      {
        assert j.effects[..i + 1][..i] == j.effects[..i];
        var ok := ApplyEffect(sealed, j.effects[i]);
        if !ok {
          StoppedRun(old(Here()), sealed, j.effects, i + 1);
          return false;
        }
      }
      assert j.effects[..|j.effects|] == j.effects;
      var expected := ExpectedState(j.taskId.value, j.effects);
      if !FinalValid(Site(repo, ignored, artifacts, tasks, head), sealed, j.taskId.value, expected, j.context) {
        return false;
      }
      log := AppendMany(log, j.events);
      journals := journals[id := j.(status := Committed)];
      if j.context.jobId.Some? && j.context.jobId.value in jobs {
        jobs := jobs[j.context.jobId.value := jobs[j.context.jobId.value].(status := Accepted, commit := Some(head))];
      }
      accepted := true;
    }
  }

  lemma {:induction false} StoppedReplay(s: Site, sealed: map<Path, Image>, context: Context, effects: seq<Effect>,
                                         k: nat)
    requires k <= |effects| && !RunReplay(s, sealed, context, effects[..k]).1
    ensures RunReplay(s, sealed, context, effects) == RunReplay(s, sealed, context, effects[..k])
  {
    if k == |effects| {
      assert effects[..k] == effects;
    } else {
      assert effects[..|effects| - 1][..k] == effects[..k];
      StoppedReplay(s, sealed, context, effects[..|effects| - 1], k);
    }
  }

  lemma {:induction false} StoppedRun(s: Site, sealed: map<Path, Image>, effects: seq<Effect>, k: nat)
    requires k <= |effects| && RunLive(s, sealed, effects[..k]).None?
    ensures RunLive(s, sealed, effects).None?
  {
    if k == |effects| {
      assert effects[..k] == effects;
    } else {
      assert effects[..|effects| - 1][..k] == effects[..k];
      StoppedRun(s, sealed, effects[..|effects| - 1], k);
    }
  }

  lemma PassUnfolds(w: World, listing: seq<string>, i: nat)
    requires i < |listing| && forall id :: id in listing ==> id in w.journals
    ensures RecoverAll(w, listing[..i + 1]) ==
            if RecoverAll(w, listing[..i]).1 then RecoverAll(w, listing[..i])
            else RecoverRecord(RecoverAll(w, listing[..i]).0, listing[i], NoCut)
  {
    assert listing[..i + 1][..i] == listing[..i];
  }

  lemma {:induction false} StoppedPass(w: World, listing: seq<string>, k: nat)
    requires forall id :: id in listing ==> id in w.journals
    requires k <= |listing| && RecoverAll(w, listing[..k]).1
    ensures RecoverAll(w, listing) == RecoverAll(w, listing[..k])
  {
    if k == |listing| {
      assert listing[..k] == listing;
    } else {
      assert listing[..|listing| - 1][..k] == listing[..k];
      StoppedPass(w, listing[..|listing| - 1], k);
    }
  }
}
