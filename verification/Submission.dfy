// The effects a submission journals, and when they satisfy what recovery relies on.
module Submission {
  import opened Basics
  import opened FileTree
  import opened Delivery
  import opened Integration
  import opened EventLog
  import opened Acceptance
  import opened RecoverySafety
  import opened Recovery
  import opened Convergence

  function Targets(plan: seq<FileEffect>): seq<Path> {
    seq(|plan|, i requires 0 <= i < |plan| => plan[i].target)
  }

  function FileEffects(plan: seq<FileEffect>): (effects: seq<Effect>)
    ensures |effects| == |plan| && forall i :: 0 <= i < |plan| ==> effects[i] == File(plan[i])
  {
    seq(|plan|, i requires 0 <= i < |plan| => File(plan[i]))
  }

  function Creations(children: seq<(string, Task)>): (effects: seq<Effect>)
    ensures |effects| == |children| && forall i :: 0 <= i < |children| ==>
              effects[i] == CreateTask(children[i].0, children[i].1)
  {
    seq(|children|, i requires 0 <= i < |children| => CreateTask(children[i].0, children[i].1))
  }

  /** Files, then the commit (when there are files and a git repository), artifacts, derived tasks,
      their links in the parent, and the move last. */
  function SubmissionEffects(plan: seq<FileEffect>, git: bool, message: string, artifacts: seq<Effect>,
                             children: seq<(string, Task)>, links: seq<string>, taskId: string, toState: string)
    : seq<Effect>
  {
    FileEffects(plan)
    + (if git && plan != [] then [CommitChanges(message, Targets(plan))] else [])
    + artifacts
    + Creations(children)
    + (if children != [] then [LinkDerived(taskId, links)] else [])
    + [MoveTask(taskId, toState)]
  }

  /** A delivered path is not a directory that holds something. */
  ghost predicate FillsNoDirectory(s: Setting, p: Path) {
    p in s.sealed && p !in s.artifacts && p in s.repo.dirs ==> EmptyDir(s.repo, p)
  }

  /** A file of the repository is not in place of a parent of a delivered path. */
  ghost predicate ReplacesNoFile(s: Setting, q: Path, p: Path) {
    q in s.repo.files && p in s.sealed && p !in s.artifacts ==> !Above(q, p)
  }

  /** Nothing turns from a file into a directory or back, empty directories aside. */
  ghost predicate KeepsKinds(s: Setting) {
    (forall p :: FillsNoDirectory(s, p)) && (forall q, p :: ReplacesNoFile(s, q, p))
  }

  /** A plan made at the baseline that keeps kinds finds every file as it recorded it. */
  lemma PlannedFileIsFresh(s: Setting, context: Context, site: Site, taskId: string, i: nat)
    requires s.Valid() && KeepsKinds(s) && i < |s.plan|
    requires site.repo == s.repo && taskId in site.tasks
    ensures EffectFresh(site, s.sealed, context, taskId, File(s.plan[i]))
  {
    var file := s.plan[i];
    s.PlanItem(i);
    assert file in s.plan;
    ChangeForIsListed(s.changes, file.target);
    assert file.target in s.before <==> file.target in Surface(s.repo.files, s.hidden);
    assert FillsNoDirectory(s, file.target);
    forall q | q in Ancestors(file.target)
      ensures q !in s.repo.files
    {
      assert ReplacesNoFile(s, q, file.target);
    }
  }

  lemma PlannedFilesAreApart(s: Setting, i: nat, k: nat)
    requires s.Valid() && KeepsKinds(s) && i < k < |s.plan|
    ensures Compatible(File(s.plan[i]), File(s.plan[k]))
  {
    s.PlanItem(i);
    s.PlanItem(k);
    PlannedIsNotAbove(s, i, k);
    PlannedIsNotAbove(s, k, i);
  }

  lemma PlannedIsNotAbove(s: Setting, i: nat, k: nat)
    requires s.Valid() && KeepsKinds(s) && i < |s.plan| && k < |s.plan|
    ensures !Above(s.plan[i].target, s.plan[k].target)
  {
    var p, q := s.plan[i].target, s.plan[k].target;
    s.PlanItem(i);
    s.PlanItem(k);
    if s.plan[k].PromoteFile? {
      assert ReplacesNoFile(s, p, q);
    } else if s.plan[i].PromoteFile? {
      assert FillsNoDirectory(s, p);
      assert q in s.repo.files.Keys;
    }
  }

  /** Distinct destinations, and links that are read off the destinations. */
  ghost predicate ArtifactsApart(artifacts: seq<Effect>, taskId: string) {
    && (forall e :: e in artifacts ==> e.Artifact? && e.taskId == taskId && e.link != "")
    && (forall i, k :: 0 <= i < k < |artifacts| ==>
          artifacts[i].target != artifacts[k].target && artifacts[i].link != artifacts[k].link)
  }

  ghost predicate ChildrenApart(children: seq<(string, Task)>, taskId: string) {
    && (forall c :: c in children ==> c.0 != taskId)
    && (forall i, k :: 0 <= i < k < |children| ==> children[i].0 != children[k].0)
  }

  function GroupOf(e: Effect): nat {
    match e
    case File(_) => 0
    case CommitChanges(_, _) => 1
    case Artifact(_, _, _, _, _, _, _, _) => 2
    case CreateTask(_, _) => 3
    case LinkDerived(_, _) => 4
    case MoveTask(_, _) => 5
  }

  /** Concatenating compatible lists keeps them compatible when no effect of the second may not follow the first. */
  lemma Append(a: seq<Effect>, b: seq<Effect>)
    requires forall i, k :: 0 <= i < k < |a| ==> Compatible(a[i], a[k])
    requires forall i, k :: 0 <= i < k < |b| ==> Compatible(b[i], b[k])
    requires forall e, f :: e in a && f in b ==> Compatible(e, f)
    ensures forall i, k :: 0 <= i < k < |a + b| ==> Compatible((a + b)[i], (a + b)[k])
  {
  }

  /** A later group never meets an earlier one. */
  lemma LaterGroup(a: seq<Effect>, b: seq<Effect>, n: nat)
    requires forall e :: e in a ==> GroupOf(e) < n
    requires forall e :: e in b ==> GroupOf(e) == n
    ensures forall e, f :: e in a && f in b ==> Compatible(e, f)
  {
  }

  lemma GroupsAreApart(s: Setting, commit: seq<Effect>, artifacts: seq<Effect>, creations: seq<Effect>,
                       link: seq<Effect>,
                       move: seq<Effect>, taskId: string)
    requires s.Valid() && KeepsKinds(s) && ArtifactsApart(artifacts, taskId)
    requires |commit| <= 1 && |link| <= 1 && |move| <= 1
    requires (forall e :: e in commit ==> e.CommitChanges?) && (forall e :: e in link ==> e.LinkDerived?)
    requires (forall e :: e in move ==> e.MoveTask?) && (forall e :: e in creations ==> e.CreateTask?)
    requires forall i, k :: 0 <= i < k < |creations| ==> Compatible(creations[i], creations[k])
    ensures var effects := FileEffects(s.plan) + commit + artifacts + creations + link + move;
            forall i, k :: 0 <= i < k < |effects| ==> Compatible(effects[i], effects[k])
  {
    var files := FileEffects(s.plan);
    forall i, k | 0 <= i < k < |files|
      ensures Compatible(files[i], files[k])
    {
      PlannedFilesAreApart(s, i, k);
    }
    Joined(files, commit, 1);
    Joined(files + commit, artifacts, 2);
    Joined(files + commit + artifacts, creations, 3);
    Joined(files + commit + artifacts + creations, link, 4);
    Joined(files + commit + artifacts + creations + link, move, 5);
  }

  lemma EffectsAreOwned(plan: seq<FileEffect>, git: bool, message: string, artifacts: seq<Effect>,
                        children: seq<(string, Task)>, links: seq<string>, taskId: string, toState: string)
    requires ArtifactsApart(artifacts, taskId) && ChildrenApart(children, taskId)
    ensures forall e :: e in SubmissionEffects(plan, git, message, artifacts, children, links, taskId, toState) ==>
              Owned(e, taskId) && (e.CommitChanges? ==> e == CommitChanges(message, Targets(plan)))
  {
    var commit := if git && plan != [] then [CommitChanges(message, Targets(plan))] else [];
    var link := if children != [] then [LinkDerived(taskId, links)] else [];
    forall e | e in SubmissionEffects(plan, git, message, artifacts, children, links, taskId, toState)
      ensures Owned(e, taskId) && (e.CommitChanges? ==> e == CommitChanges(message, Targets(plan)))
    {
      assert e in FileEffects(plan) || e in commit || e in artifacts || e in Creations(children) || e in link
             || e == MoveTask(taskId, toState);
    }
  }

  /** The effects behind the files. */
  function OtherEffects(plan: seq<FileEffect>, git: bool, message: string, artifacts: seq<Effect>,
                        children: seq<(string, Task)>, links: seq<string>, taskId: string, toState: string): seq<Effect>
  {
    (if git && plan != [] then [CommitChanges(message, Targets(plan))] else []) + artifacts + Creations(children)
    + (if children != [] then [LinkDerived(taskId, links)] else []) + [MoveTask(taskId, toState)]
  }

  lemma FilesComeFirst(plan: seq<FileEffect>, git: bool, message: string, artifacts: seq<Effect>,
                       children: seq<(string, Task)>, links: seq<string>, taskId: string, toState: string)
    ensures SubmissionEffects(plan, git, message, artifacts, children, links, taskId, toState)
            == FileEffects(plan) + OtherEffects(plan, git, message, artifacts, children, links, taskId, toState)
  {
  }

  lemma OthersAreNoFiles(plan: seq<FileEffect>, git: bool, message: string, artifacts: seq<Effect>,
                         children: seq<(string, Task)>, links: seq<string>, taskId: string, toState: string)
    requires ArtifactsApart(artifacts, taskId)
    ensures forall e :: e in OtherEffects(plan, git, message, artifacts, children, links, taskId, toState) ==> !e.File?
  {
    forall e | e in OtherEffects(plan, git, message, artifacts, children, links, taskId, toState)
      ensures !e.File?
    {
      if !(e in artifacts) && !(e in Creations(children)) {
        assert e == MoveTask(taskId, toState) || e == LinkDerived(taskId, links)
            || e == CommitChanges(message, Targets(plan));
      }
    }
  }

  lemma PathsAreTheTargets(plan: seq<FileEffect>, others: seq<Effect>)
    requires forall e :: e in others ==> !e.File?
    ensures forall p :: p in Targets(plan) <==> IsTarget(FileEffects(plan) + others, p)
  {
    var effects := FileEffects(plan) + others;
    assert forall i :: |plan| <= i < |effects| ==> effects[i] in others;
    forall p
      ensures p in Targets(plan) <==> IsTarget(effects, p)
    {
      TargetsAreListed(plan, effects, p);
    }
  }

  /** The effects of a submission never meet, whatever the candidate changed (kinds aside). */
  lemma SubmissionIsOrderly(s: Setting, git: bool, message: string, artifacts: seq<Effect>,
                            children: seq<(string, Task)>, links: seq<string>, taskId: string, toState: string)
    requires s.Valid() && KeepsKinds(s)
    requires ArtifactsApart(artifacts, taskId) && ChildrenApart(children, taskId)
    ensures Orderly(SubmissionEffects(s.plan, git, message, artifacts, children, links, taskId, toState), taskId)
  {
    EffectsAreApart(s, git, message, artifacts, children, links, taskId, toState);
    EffectsAreOwned(s.plan, git, message, artifacts, children, links, taskId, toState);
    FilesComeFirst(s.plan, git, message, artifacts, children, links, taskId, toState);
    OthersAreNoFiles(s.plan, git, message, artifacts, children, links, taskId, toState);
    PathsAreTheTargets(s.plan, OtherEffects(s.plan, git, message, artifacts, children, links, taskId, toState));
  }

  lemma EffectsAreApart(s: Setting, git: bool, message: string, artifacts: seq<Effect>,
                        children: seq<(string, Task)>, links: seq<string>, taskId: string, toState: string)
    requires s.Valid() && KeepsKinds(s)
    requires ArtifactsApart(artifacts, taskId) && ChildrenApart(children, taskId)
    ensures var effects := SubmissionEffects(s.plan, git, message, artifacts, children, links, taskId, toState);
            forall i, k :: 0 <= i < k < |effects| ==> Compatible(effects[i], effects[k])
  {
    var commit := if git && s.plan != [] then [CommitChanges(message, Targets(s.plan))] else [];
    var link := if children != [] then [LinkDerived(taskId, links)] else [];
    GroupsAreApart(s, commit, artifacts, Creations(children), link, [MoveTask(taskId, toState)], taskId);
  }

  lemma TargetsAreListed(plan: seq<FileEffect>, effects: seq<Effect>, p: Path)
    requires |plan| <= |effects| && effects[..|plan|] == FileEffects(plan)
    requires forall i :: |plan| <= i < |effects| ==> !effects[i].File?
    ensures p in Targets(plan) <==> IsTarget(effects, p)
  {
    if p in Targets(plan) {
      var i :| 0 <= i < |plan| && Targets(plan)[i] == p;
      assert effects[i] == effects[..|plan|][i];
    }
    if IsTarget(effects, p) {
      var i :| 0 <= i < |effects| && effects[i].File? && effects[i].file.target == p;
      assert effects[i] == effects[..|plan|][i];
      assert Targets(plan)[i] == p;
    }
  }

  lemma Joined(a: seq<Effect>, b: seq<Effect>, n: nat)
    requires forall i, k :: 0 <= i < k < |a| ==> Compatible(a[i], a[k])
    requires forall i, k :: 0 <= i < k < |b| ==> Compatible(b[i], b[k])
    requires forall e :: e in a ==> GroupOf(e) < n
    requires forall e :: e in b ==> GroupOf(e) == n
    ensures forall i, k :: 0 <= i < k < |a + b| ==> Compatible((a + b)[i], (a + b)[k])
    ensures forall e :: e in a + b ==> GroupOf(e) < n + 1
  {
    LaterGroup(a, b, n);
    Append(a, b);
  }

  // ---------------------------------------------------------------- changes of kind

  /** A file that becomes a directory: once delivered, the check of its deletion hashes a directory. */
  lemma FileToDirectoryRaises(s: Setting, q: Path, p: Path) returns (i: nat)
    requires s.Valid() && Run(s.repo, s.sealed, s.plan).Some? && !ReplacesNoFile(s, q, p)
    ensures i < |s.plan| && s.plan[i].DeleteFile? && s.plan[i].target == q
    ensures DeletionVerdict(Run(s.repo, s.sealed, s.plan).value, s.plan[i]) == Raises
  {
    var t := Run(s.repo, s.sealed, s.plan).value;
    s.DeliveryGoesThroughIffUnobstructed();
    assert !s.Blocked(p);
    s.RunPrefix(|s.plan|);
    assert s.plan[..|s.plan|] == s.plan;
    assert p !in s.repo.files;
    assert p in s.before ==> p in s.repo.files;
    s.EveryNewFileIsPromoted(p);
    s.EveryStaleFileIsDeleted(q);
    i :| 0 <= i < |s.plan| && s.plan[i].DeleteFile? && s.plan[i].target == q;
    s.PlanItem(i);
    assert s.plan[i] in s.plan;
    ChangeForIsListed(s.changes, q);
    s.NotPromotedUnlessSealed(q);
    assert s.DirAfter(|s.plan|, q);
    assert WellFormed(t) && q in t.dirs;
  }

  /** A directory that becomes a file: before its old files are deleted, the promotion conflicts. */
  lemma DirectoryToFileConflicts(s: Setting, p: Path) returns (i: nat)
    requires s.Valid() && !FillsNoDirectory(s, p)
    ensures i < |s.plan| && s.plan[i].PromoteFile? && s.plan[i].target == p
    ensures PromotionVerdict(s.repo, s.sealed, s.plan[i]) == Conflict
  {
    assert p !in s.repo.files;
    assert p in s.before ==> p in s.repo.files;
    s.EveryNewFileIsPromoted(p);
    i :| 0 <= i < |s.plan| && s.plan[i].PromoteFile? && s.plan[i].target == p;
  }
}
