// What recovery never does, whatever state it starts from: no journal needs to be
// well formed and no other actor needs to have kept its hands off the stores.
module RecoverySafety {
  import opened Basics
  import opened FileTree
  import opened Delivery
  import opened Integration
  import opened EventLog
  import opened Acceptance

  // ---------------------------------------------------------------- strangers stop a journal

  ghost predicate FileBefore(repo: Tree, file: FileEffect) {
    match file
    case DeleteFile(target, before) =>
      target in repo.files && before == Some(repo.files[target].content)
    case PromoteFile(target, before, beforeMode, _, _, existed) =>
      if before.None? then target !in repo.files && (target in repo.dirs ==> EmptyDir(repo, target))
      else target in repo.files && Replaceable(repo.files[target], before, beforeMode)
  }

  ghost predicate FileAfter(repo: Tree, sealed: map<Path, Image>, file: FileEffect) {
    match file
    case DeleteFile(target, _) => target !in repo.files
    case PromoteFile(target, _, _, _, _, _) => target in sealed && Get(repo.files, target) == Some(sealed[target])
  }

  /** The thing an effect is about to change is neither as the plan found it nor as it will leave it.
      An empty directory at a promotion's target always passes for one that deletions left behind. */
  ghost predicate Stranger(s: Site, sealed: map<Path, Image>, context: Context, e: Effect) {
    match e
    case File(file) =>
      !FileBefore(s.repo, file) && !FileAfter(s.repo, sealed, file) && (file.DeleteFile? ==> file.before.Some?) &&
      !(file.PromoteFile? && file.target in s.repo.dirs && EmptyDir(s.repo, file.target))
    case CommitChanges(message, _) =>
      context.base.Some? && s.head != context.base.value && !CommitExists(s, context, message)
    case CreateTask(id, task) => id in s.tasks && s.tasks[id] != task
    case MoveTask(id, toState) =>
      context.previous.Some? && (id in s.tasks ==> s.tasks[id].state !in {context.previous.value, toState})
    case Artifact(source, target, before, beforeMode, _, existed, _, _) =>
      && !(source in sealed && Get(s.artifacts, target) == Some(sealed[source]))
      && (if target in s.artifacts then !Replaceable(s.artifacts[target], before, beforeMode)
          else before.Some? || existed)
    case LinkDerived(_, _) => false
  }

  /** One intervening change anywhere in the journal's scope leaves every store as it was. */
  lemma StrangerStopsTheJournal(w: World, id: string, e: Effect, cut: Cut)
    requires id in w.journals && e in w.journals[id].effects
    requires Stranger(w.site, w.journals[id].context.candidate.manifest, w.journals[id].context, e)
    ensures RecoverRecord(w, id, cut).0 == w
  {
    var j := w.journals[id];
    assert EffectVerdict(w.site, j.context.candidate.manifest, j.context, e) != Clear;
  }

  // ---------------------------------------------------------------- only recorded content is replaced

  predicate DeletionsRecorded(effects: seq<Effect>) {
    forall e :: e in effects && e.File? && e.file.DeleteFile? ==> e.file.before.Some?
  }

  /** The file at `p` is the one some effect expected to replace. */
  ghost predicate ExpectedBy(effects: seq<Effect>, files: map<Path, Image>, p: Path) {
    exists e :: e in effects && e.File? && e.file.target == p &&
      (p in files ==> e.file.before == Some(files[p].content))
  }

  lemma {:induction false} ReplayChangesOnlyRecorded(s: Site, sealed: map<Path, Image>, context: Context,
                                                     effects: seq<Effect>, k: nat, p: Path)
    requires k <= |effects| && DeletionsRecorded(effects)
    requires forall e :: e in effects ==> EffectVerdict(s, sealed, context, e) == Clear
    ensures var s' := RunReplay(s, sealed, context, effects[..k]).0;
            Get(s'.repo.files, p) == Get(s.repo.files, p) || ExpectedBy(effects, s.repo.files, p)
  {
    if k > 0 {
      ReplayChangesOnlyRecorded(s, sealed, context, effects, k - 1, p);
      assert effects[..k][..k - 1] == effects[..k - 1];
      var (before, ok) := RunReplay(s, sealed, context, effects[..k - 1]);
      var e := effects[k - 1];
      assert e in effects;
      if e.File? && e.file.target == p && Get(before.repo.files, p) == Get(s.repo.files, p) {
        assert EffectVerdict(s, sealed, context, e) == Clear;
        if Replay(before, sealed, context, e).Some?
            && Get(Replay(before, sealed, context, e).value.repo.files, p) != Get(s.repo.files, p) {
          assert p in s.repo.files ==> e.file.before == Some(s.repo.files[p].content);
        }
      }
    }
  }

  lemma RecordChangesOnlyRecorded(w: World, id: string, cut: Cut, p: Path)
    requires id in w.journals && DeletionsRecorded(w.journals[id].effects)
    ensures var w' := RecoverRecord(w, id, cut).0;
            || Get(w'.site.repo.files, p) == Get(w.site.repo.files, p)
            || ExpectedBy(w.journals[id].effects, w.site.repo.files, p)
  {
    var j := w.journals[id];
    var sealed := j.context.candidate.manifest;
    if Recoverable(w, j) && FirstVerdict(w.site, sealed, j.context, j.effects) == Clear {
      var k := if cut.AfterEffects? then |UpTo(j.effects, cut.effects)| else |j.effects|;
      assert j.effects[..|j.effects|] == j.effects;
      ReplayChangesOnlyRecorded(w.site, sealed, j.context, j.effects, k, p);
    }
  }

  /** The artifact at `p` is the one some effect expected to replace. */
  ghost predicate ShelvedBy(effects: seq<Effect>, artifacts: map<Path, Image>, p: Path) {
    exists e :: e in effects && e.Artifact? && e.target == p
        && (p in artifacts ==> e.before == Some(artifacts[p].content))
  }

  lemma {:induction false} ReplayChangesOnlyRecordedArtifacts(s: Site, sealed: map<Path, Image>, context: Context,
                                                              effects: seq<Effect>, k: nat, p: Path)
    requires k <= |effects|
    requires forall e :: e in effects ==> EffectVerdict(s, sealed, context, e) == Clear
    ensures var s' := RunReplay(s, sealed, context, effects[..k]).0;
            Get(s'.artifacts, p) == Get(s.artifacts, p) || ShelvedBy(effects, s.artifacts, p)
  {
    if k > 0 {
      ReplayChangesOnlyRecordedArtifacts(s, sealed, context, effects, k - 1, p);
      assert effects[..k][..k - 1] == effects[..k - 1];
      var e := effects[k - 1];
      assert e in effects && EffectVerdict(s, sealed, context, e) == Clear;
    }
  }

  lemma RecordChangesOnlyRecordedArtifacts(w: World, id: string, cut: Cut, p: Path)
    requires id in w.journals
    ensures var w' := RecoverRecord(w, id, cut).0;
            || Get(w'.site.artifacts, p) == Get(w.site.artifacts, p)
            || ShelvedBy(w.journals[id].effects, w.site.artifacts, p)
  {
    var j := w.journals[id];
    var sealed := j.context.candidate.manifest;
    if Recoverable(w, j) && FirstVerdict(w.site, sealed, j.context, j.effects) == Clear {
      var k := if cut.AfterEffects? then |UpTo(j.effects, cut.effects)| else |j.effects|;
      assert j.effects[..|j.effects|] == j.effects;
      ReplayChangesOnlyRecordedArtifacts(w.site, sealed, j.context, j.effects, k, p);
    }
  }

  /** A task stays, with its content and its links. */
  predicate TaskStays(a: map<string, Task>, b: map<string, Task>, id: string) {
    id in a ==> id in b && b[id].content == a[id].content && forall l :: l in a[id].links ==> l in b[id].links
  }

  lemma {:induction false} ReplayKeepsTasks(s: Site, sealed: map<Path, Image>, context: Context,
                                            effects: seq<Effect>, id: string)
    ensures TaskStays(s.tasks, RunReplay(s, sealed, context, effects).0.tasks, id)
  {
    if effects != [] {
      ReplayKeepsTasks(s, sealed, context, effects[..|effects| - 1], id);
    }
  }

  /** Whatever journal is recovered, no task disappears or loses content or links. */
  lemma RecordKeepsTasks(w: World, id: string, cut: Cut, taskId: string)
    requires id in w.journals
    ensures TaskStays(w.site.tasks, RecoverRecord(w, id, cut).0.site.tasks, taskId)
  {
    var j := w.journals[id];
    ReplayKeepsTasks(w.site, j.context.candidate.manifest, j.context,
                     if cut.AfterEffects? then UpTo(j.effects, cut.effects) else j.effects, taskId);
  }

  lemma RecordKeepsJournals(w: World, id: string, cut: Cut)
    requires id in w.journals
    ensures var w' := RecoverRecord(w, id, cut).0;
            && w'.journals.Keys == w.journals.Keys
            && (forall i :: i in w.journals ==> w'.journals[i] == w.journals[i].(status := w'.journals[i].status))
  {
  }

  lemma {:induction false} PassKeepsJournals(w: World, listing: seq<string>)
    requires forall id :: id in listing ==> id in w.journals
    ensures var w' := RecoverAll(w, listing).0;
            forall i :: i in w.journals ==> w'.journals[i] == w.journals[i].(status := w'.journals[i].status)
  {
    if listing != [] {
      PassKeepsJournals(w, listing[..|listing| - 1]);
      var (before, raised) := RecoverAll(w, listing[..|listing| - 1]);
      if !raised {
        RecordKeepsJournals(before, listing[|listing| - 1], NoCut);
      }
    }
  }

  /** Over a whole pass a file either stays or was the image some listed journal recorded as its own, and so
      does an artifact; every task stays. */
  lemma {:induction false} PassChangesOnlyRecorded(w: World, listing: seq<string>, p: Path, taskId: string)
    requires forall id :: id in listing ==> id in w.journals && DeletionsRecorded(w.journals[id].effects)
    ensures var w' := RecoverAll(w, listing).0;
            || Get(w'.site.repo.files, p) == Get(w.site.repo.files, p)
            || exists id :: id in listing && ExpectedBy(w.journals[id].effects, w.site.repo.files, p)
    ensures var w' := RecoverAll(w, listing).0;
            || Get(w'.site.artifacts, p) == Get(w.site.artifacts, p)
            || exists id :: id in listing && ShelvedBy(w.journals[id].effects, w.site.artifacts, p)
    ensures TaskStays(w.site.tasks, RecoverAll(w, listing).0.site.tasks, taskId)
  {
    if listing != [] {
      var init, last := listing[..|listing| - 1], listing[|listing| - 1];
      PassChangesOnlyRecorded(w, init, p, taskId);
      PassKeepsJournals(w, init);
      var (before, raised) := RecoverAll(w, init);
      if !raised {
        RecordChangesOnlyRecorded(before, last, NoCut, p);
        RecordChangesOnlyRecordedArtifacts(before, last, NoCut, p);
        RecordKeepsTasks(before, last, NoCut, taskId);
        assert before.journals[last].effects == w.journals[last].effects;
      }
    }
  }

  // ---------------------------------------------------------------- the branch head

  predicate OneCommit(effects: seq<Effect>) {
    forall i, j :: 0 <= i < j < |effects| ==> !(effects[i].CommitChanges? && effects[j].CommitChanges?)
  }

  /** The head stays or moves from the recorded base to one child of it. */
  ghost predicate OneStep(base: Commit, before: Commit, after: Commit) {
    after == before || (before == base && after.parent == Some(base))
  }

  lemma NotItsOwnParent(c: Commit)
    ensures c.parent != Some(c)
  {
  }

  lemma {:induction false} ReplayAdvancesHeadOnce(s: Site, sealed: map<Path, Image>, context: Context,
                                                  effects: seq<Effect>, k: nat)
    requires k <= |effects| && OneCommit(effects) && context.base.Some?
    requires forall e :: e in effects ==> EffectVerdict(s, sealed, context, e) == Clear
    ensures var s' := RunReplay(s, sealed, context, effects[..k]).0;
            && OneStep(context.base.value, s.head, s'.head)
            && (s'.head != s.head ==> exists i :: 0 <= i < k && effects[i].CommitChanges?)
  {
    if k > 0 {
      ReplayAdvancesHeadOnce(s, sealed, context, effects, k - 1);
      assert effects[..k][..k - 1] == effects[..k - 1];
      var e := effects[k - 1];
      var (before, ok) := RunReplay(s, sealed, context, effects[..k - 1]);
      if e.CommitChanges? {
        assert before.head == s.head;
        assert EffectVerdict(s, sealed, context, e) == Clear by {
          assert e in effects;
        }
        assert CommitExists(before, context, e.message) == CommitExists(s, context, e.message);
      }
    }
  }

  lemma RecordAdvancesHeadOnce(w: World, id: string, cut: Cut)
    requires id in w.journals && OneCommit(w.journals[id].effects) && w.journals[id].context.base.Some?
    ensures OneStep(w.journals[id].context.base.value, w.site.head, RecoverRecord(w, id, cut).0.site.head)
  {
    var j := w.journals[id];
    var sealed := j.context.candidate.manifest;
    if Recoverable(w, j) && FirstVerdict(w.site, sealed, j.context, j.effects) == Clear {
      var k := if cut.AfterEffects? then |UpTo(j.effects, cut.effects)| else |j.effects|;
      assert j.effects[..|j.effects|] == j.effects;
      ReplayAdvancesHeadOnce(w.site, sealed, j.context, j.effects, k);
    }
  }

  /** Any number of passes over one journal, each cut anywhere. */
  function RecoverMany(w: World, id: string, cuts: seq<Cut>): (w': World)
    requires id in w.journals
    ensures id in w'.journals
  {
    if cuts == [] then w
    else RecoverRecord(RecoverMany(w, id, cuts[..|cuts| - 1]), id, cuts[|cuts| - 1]).0
  }

  /** However often recovery is interrupted, one journal moves the head by at most one commit,
      and only from the base recorded for it. */
  lemma {:induction false} OneCommitPerJournal(w: World, id: string, cuts: seq<Cut>)
    requires id in w.journals && OneCommit(w.journals[id].effects) && w.journals[id].context.base.Some?
    ensures OneStep(w.journals[id].context.base.value, w.site.head, RecoverMany(w, id, cuts).site.head)
    ensures RecoverMany(w, id, cuts).journals[id]
              == w.journals[id].(status := RecoverMany(w, id, cuts).journals[id].status)
  {
    if cuts != [] {
      OneCommitPerJournal(w, id, cuts[..|cuts| - 1]);
      var before := RecoverMany(w, id, cuts[..|cuts| - 1]);
      RecordKeepsJournals(before, id, cuts[|cuts| - 1]);
      RecordAdvancesHeadOnce(before, id, cuts[|cuts| - 1]);
      NotItsOwnParent(w.journals[id].context.base.value);
    }
  }

  // ---------------------------------------------------------------- acceptance needs proof

  /** The evidence behind a recovered acceptance. */
  ghost predicate Proven(w: World, j: Journal) {
    && j.taskId.Some?
    && FinalValid(w.site, j.context.candidate.manifest, j.taskId.value, ExpectedState(j.taskId.value, j.effects),
       j.context)
    && (forall e :: e in j.effects && e.CommitChanges? ==> j.context.intended == Some(w.site.head.tree))
    && (CommitMessage(j.effects).Some? ==> CommitExists(w.site, j.context, CommitMessage(j.effects).value))
  }

  /** A job that recovery turns into an accepted one belongs to a committed journal whose task,
      repository surface and commit are exactly the intended ones. */
  lemma AcceptedOnlyWhenProven(w: World, id: string, cut: Cut, jobId: string)
    requires id in w.journals && jobId in w.jobs && w.jobs[jobId].status != Accepted
    requires jobId in RecoverRecord(w, id, cut).0.jobs && RecoverRecord(w, id, cut).0.jobs[jobId].status == Accepted
    ensures var w' := RecoverRecord(w, id, cut).0;
            && id in w'.journals && w'.journals[id].status == Committed && w'.journals[id].context.jobId == Some(jobId)
            && w'.journals[id].taskId == Some(w.jobs[jobId].taskId)
            && Proven(w', w'.journals[id])
            && (CommitMessage(w'.journals[id].effects).Some? ==> w'.jobs[jobId].commit == Some(w'.site.head))
  {
  }

  /** Once a journal is committed and its job accepted, later passes change nothing at all. */
  lemma SettledJournalIsLeftAlone(w: World, id: string, cuts: seq<Cut>)
    requires id in w.journals && w.journals[id].status == Committed
    requires w.journals[id].context.jobId.Some? && w.journals[id].context.jobId.value in w.jobs
    requires w.jobs[w.journals[id].context.jobId.value].status == Accepted
    ensures RecoverMany(w, id, cuts) == w
  {
    if cuts != [] {
      SettledJournalIsLeftAlone(w, id, cuts[..|cuts| - 1]);
    }
  }

  // ---------------------------------------------------------------- presentation

  /** How many effects a replay comes through. */
  function Replayed(s: Site, sealed: map<Path, Image>, context: Context, effects: seq<Effect>): (n: nat)
    ensures n <= |effects|
  {
    if effects == [] then 0
    else
      var init, last := effects[..|effects| - 1], effects[|effects| - 1];
      var n := Replayed(s, sealed, context, init);
      if n < |init| || Replay(RunReplay(s, sealed, context, init).0, sealed, context, last).None? then n else n + 1
  }

  /** The sections that the link effects for a task ask for. */
  function LinksTo(effects: seq<Effect>, parent: string): seq<seq<string>> {
    if effects == [] then [] else LinksTo(effects[..|effects| - 1], parent) + LinkTo(effects[|effects| - 1], parent)
  }

  /** A task has gained these sections. */
  predicate Gained(before: map<string, Task>, after: map<string, Task>, parent: string, links: seq<seq<string>>) {
    && parent in before && parent in after
    && after[parent].sections == before[parent].sections + links
  }

  lemma GainedOn(a: map<string, Task>, b: map<string, Task>, c: map<string, Task>, parent: string,
                 first: seq<seq<string>>, second: seq<seq<string>>)
    requires Gained(a, b, parent, first) && Gained(b, c, parent, second)
    ensures Gained(a, c, parent, first + second)
  {
  }

  function LinkTo(e: Effect, parent: string): seq<seq<string>> {
    if e.LinkDerived? && e.parent == parent then [e.children] else []
  }

  lemma ReplayAddsLink(s: Site, sealed: map<Path, Image>, context: Context, e: Effect, parent: string)
    requires parent in s.tasks && Replay(s, sealed, context, e).Some?
    ensures Gained(s.tasks, Replay(s, sealed, context, e).value.tasks, parent, LinkTo(e, parent))
  {
  }

  lemma {:induction false} ReplayAddsLinks(s: Site, sealed: map<Path, Image>, context: Context,
                                           effects: seq<Effect>, parent: string)
    requires parent in s.tasks
    ensures var (s', ok) := RunReplay(s, sealed, context, effects);
            var n := Replayed(s, sealed, context, effects);
            (ok <==> n == |effects|) && Gained(s.tasks, s'.tasks, parent, LinksTo(effects[..n], parent))
  {
    if effects != [] {
      var init, last := effects[..|effects| - 1], effects[|effects| - 1];
      var n := Replayed(s, sealed, context, effects);
      ReplayAddsLinks(s, sealed, context, init, parent);
      if n == |effects| {
        assert effects[..n] == effects && init[..|init|] == init;
        var before := RunReplay(s, sealed, context, init).0;
        ReplayAddsLink(before, sealed, context, last, parent);
        GainedOn(s.tasks, before.tasks, Replay(before, sealed, context, last).value.tasks, parent,
                 LinksTo(init, parent), LinkTo(last, parent));
      } else {
        assert effects[..n] == init[..n];
      }
    }
  }

  /** What one recovery of a journal, cut or not, replays of its links to a task. */
  function LinksReplayed(w: World, id: string, cut: Cut, parent: string): seq<seq<string>>
    requires id in w.journals
  {
    var j := w.journals[id];
    var sealed := j.context.candidate.manifest;
    if !Recoverable(w, j) || j.status == Committed || FirstVerdict(w.site, sealed, j.context, j.effects) != Clear then []
    else
      var effects := if cut.AfterEffects? then UpTo(j.effects, cut.effects) else j.effects;
      LinksTo(effects[..Replayed(w.site, sealed, j.context, effects)], parent)
  }

  /** A journal that is considered, clear and open has its tasks replayed as far as the cut allows. */
  lemma RecordReplaysTasks(w: World, id: string, cut: Cut)
    requires id in w.journals
    ensures var j := w.journals[id];
            var sealed := j.context.candidate.manifest;
            var effects := if cut.AfterEffects? then UpTo(j.effects, cut.effects) else j.effects;
            RecoverRecord(w, id, cut).0.site.tasks
            == if !Recoverable(w, j) || j.status == Committed
                  || FirstVerdict(w.site, sealed, j.context, j.effects) != Clear
               then w.site.tasks
               else RunReplay(w.site, sealed, j.context, effects).0.tasks
  {
  }

  lemma RecordAddsLinks(w: World, id: string, cut: Cut, parent: string)
    requires id in w.journals && parent in w.site.tasks
    ensures Gained(w.site.tasks, RecoverRecord(w, id, cut).0.site.tasks, parent, LinksReplayed(w, id, cut, parent))
  {
    var j := w.journals[id];
    var effects := if cut.AfterEffects? then UpTo(j.effects, cut.effects) else j.effects;
    RecordReplaysTasks(w, id, cut);
    ReplayAddsLinks(w.site, j.context.candidate.manifest, j.context, effects, parent);
  }

  /** The same over any number of recoveries. */
  function LinksReplayedBy(w: World, id: string, cuts: seq<Cut>, parent: string): seq<seq<string>>
    requires id in w.journals
  {
    if cuts == [] then []
    else
      var init, last := cuts[..|cuts| - 1], cuts[|cuts| - 1];
      LinksReplayedBy(w, id, init, parent) + LinksReplayed(RecoverMany(w, id, init), id, last, parent)
  }

  /** The links of derived tasks are no identity: over any number of recoveries of a journal, each cut
      anywhere, every recovery that comes past a link effect adds its section again, and nothing else does. */
  lemma {:induction false} LinkSectionsRepeat(w: World, id: string, cuts: seq<Cut>, parent: string)
    requires id in w.journals && parent in w.site.tasks
    ensures Gained(w.site.tasks, RecoverMany(w, id, cuts).site.tasks, parent, LinksReplayedBy(w, id, cuts, parent))
  {
    if cuts != [] {
      var init, last := cuts[..|cuts| - 1], cuts[|cuts| - 1];
      LinkSectionsRepeat(w, id, init, parent);
      var before := RecoverMany(w, id, init);
      RecordAddsLinks(before, id, last, parent);
      GainedOn(w.site.tasks, before.site.tasks, RecoverRecord(before, id, last).0.site.tasks, parent,
               LinksReplayedBy(w, id, init, parent), LinksReplayed(before, id, last, parent));
    }
  }
}
