// Recovery reaches what the uninterrupted run would have reached. The proof compares, effect by
// effect, an uninterrupted run with a replay that starts from any mixture of before and after images.
module Recovery {
  import opened Basics
  import opened FileTree
  import opened Delivery
  import opened Integration
  import opened EventLog
  import opened Acceptance
  import opened RecoverySafety

  // ---------------------------------------------------------------- the journals a submission writes

  /** Two effects, `e` before `f`, that never write the same thing: file targets are distinct and none
      is a parent of another, files come before the one commit, created tasks and artifacts are distinct. */
  predicate Compatible(e: Effect, f: Effect) {
    if e.File? && f.File? then
      e.file.target != f.file.target && !Above(e.file.target, f.file.target) && !Above(f.file.target, e.file.target)
    else if e.Artifact? && f.Artifact? then e.target != f.target
    else if e.CreateTask? && f.CreateTask? then e.id != f.id
    else !(e.CommitChanges? && (f.CommitChanges? || f.File?)) && !(e.MoveTask? && f.MoveTask?)
  }

  /** Task effects other than creations are about the journal's own task. */
  predicate Owned(e: Effect, taskId: string) {
    match e
    case Artifact(_, _, _, _, _, _, _, id) => id == taskId
    case CreateTask(id, _) => id != taskId
    case LinkDerived(parent, _) => parent == taskId
    case MoveTask(id, _) => id == taskId
    case File(_) => true
    case CommitChanges(_, _) => true
  }

  ghost predicate IsTarget(effects: seq<Effect>, p: Path) {
    exists i :: 0 <= i < |effects| && effects[i].File? && effects[i].file.target == p
  }

  /** The effect lists a submission builds. */
  ghost predicate Orderly(effects: seq<Effect>, taskId: string) {
    && (forall i, k :: 0 <= i < k < |effects| ==> Compatible(effects[i], effects[k]))
    && (forall e :: e in effects ==> Owned(e, taskId))
    && (forall e, p :: e in effects && e.CommitChanges? ==> (p in e.paths <==> IsTarget(effects, p)))
  }

  lemma TargetsApart(effects: seq<Effect>, taskId: string, i: nat, k: nat)
    requires Orderly(effects, taskId) && i < |effects| && k < |effects|
    requires effects[i].File? && effects[k].File?
    ensures i != k ==> effects[i].file.target != effects[k].file.target
    ensures !Above(effects[i].file.target, effects[k].file.target)
  {
    if i < k {
      assert Compatible(effects[i], effects[k]);
    } else if k < i {
      assert Compatible(effects[k], effects[i]);
    }
  }

  lemma AllTargetsApart(effects: seq<Effect>, taskId: string)
    requires Orderly(effects, taskId)
    ensures forall i, k :: 0 <= i < |effects| && 0 <= k < |effects| && effects[i].File? && effects[k].File? ==>
              (i != k ==> effects[i].file.target != effects[k].file.target)
              && !Above(effects[i].file.target, effects[k].file.target)
  {
    forall i, k | 0 <= i < |effects| && 0 <= k < |effects| && effects[i].File? && effects[k].File?
      ensures (i != k ==> effects[i].file.target != effects[k].file.target)
              && !Above(effects[i].file.target, effects[k].file.target)
    {
      TargetsApart(effects, taskId, i, k);
    }
  }

  // ---------------------------------------------------------------- the repository

  /** The image a file effect records as after is the sealed one. */
  ghost predicate Faithful(sealed: map<Path, Image>, file: FileEffect) {
    file.PromoteFile? ==>
      && file.target in sealed
      && file.after == Some(sealed[file.target].content)
      && file.afterMode == Some(sealed[file.target].mode)
  }

  /** The repository part of the comparison before effect `k`: `a` is the uninterrupted run's tree, `b` the
      replay's, ahead of it on the targets that are still to come. */
  ghost predicate RepoSim(effects: seq<Effect>, sealed: map<Path, Image>, k: nat, a: Tree, b: Tree) {
    && k <= |effects| && WellFormed(a) && WellFormed(b)
    && (forall i :: 0 <= i < |effects| && effects[i].File? ==>
          Faithful(sealed, effects[i].file) && !Obstructed(a, effects[i].file.target))
    && (forall i :: k <= i < |effects| && effects[i].File? ==> FoundAsPlanned(a, effects[i].file))
    && (forall i :: 0 <= i < k && effects[i].File? ==>
          FileAfter(a, sealed, effects[i].file) && effects[i].file.target !in a.dirs)
    && (forall p :: Get(b.files, p) == Get(a.files, p) || Ahead(effects, sealed, k, b, p))
    && (forall d :: d in a.dirs ==> d in b.dirs || Ahead(effects, sealed, k, b, d))
    && (forall d :: d in b.dirs ==> d in a.dirs || ParentOfPending(effects, k, d))
  }

  /** The target is as the plan found it: the recorded file, or nothing, or an empty directory. */
  ghost predicate FoundAsPlanned(t: Tree, file: FileEffect) {
    && FileBefore(t, file)
    && (file.PromoteFile? && file.before.None? ==> (file.existed <==> file.target in t.dirs))
  }

  ghost predicate Ahead(effects: seq<Effect>, sealed: map<Path, Image>, k: nat, b: Tree, p: Path) {
    exists i :: k <= i < |effects| && effects[i].File? && effects[i].file.target == p
        && FileAfter(b, sealed, effects[i].file)
  }

  ghost predicate ParentOfPending(effects: seq<Effect>, k: nat, d: Path) {
    exists i :: k <= i < |effects| && effects[i].File? && Above(d, effects[i].file.target)
  }

  /** Nothing is in the way of a pending effect, in the live tree or in the mixture. */
  predicate Open(t: Tree, file: FileEffect) {
    !Obstructed(t, file.target) && (file.target in t.dirs ==> file.PromoteFile? && EmptyDir(t, file.target))
  }

  lemma FoundIsOpen(t: Tree, file: FileEffect)
    requires WellFormed(t) && FoundAsPlanned(t, file) && !Obstructed(t, file.target)
    ensures Open(t, file)
  {
  }

  lemma TargetIsNotObstructed(effects: seq<Effect>, taskId: string, sealed: map<Path, Image>, k: nat, a: Tree,
                              b: Tree, i: nat)
    requires Orderly(effects, taskId) && RepoSim(effects, sealed, k, a, b) && i < |effects| && effects[i].File?
    ensures !Obstructed(b, effects[i].file.target)
  {
    var t := effects[i].file.target;
    AllTargetsApart(effects, taskId);
    forall q | q in Ancestors(t)
      ensures q !in b.files
    {
      assert !Ahead(effects, sealed, k, b, q);
      assert q !in a.files;
    }
  }

  lemma PendingTargetIsOpen(effects: seq<Effect>, taskId: string, sealed: map<Path, Image>, k: nat, a: Tree,
                            b: Tree, i: nat)
    requires Orderly(effects, taskId) && RepoSim(effects, sealed, k, a, b) && k <= i < |effects| && effects[i].File?
    ensures Open(a, effects[i].file) && Open(b, effects[i].file)
    ensures effects[i].file.target in b.dirs ==> effects[i].file.target in a.dirs
  {
    var file := effects[i].file;
    var t := file.target;
    TargetIsNotObstructed(effects, taskId, sealed, k, a, b, i);
    FoundIsOpen(a, file);
    AllTargetsApart(effects, taskId);
    if t in b.dirs {
      assert !ParentOfPending(effects, k, t);
      assert t in a.dirs;
      forall q | Above(t, q)
        ensures q !in b.files && q !in b.dirs
      {
        NothingBelow(effects, taskId, sealed, k, a, b, i, q);
      }
    }
  }

  lemma NothingBelow(effects: seq<Effect>, taskId: string, sealed: map<Path, Image>, k: nat, a: Tree, b: Tree,
                     i: nat, q: Path)
    requires Orderly(effects, taskId) && RepoSim(effects, sealed, k, a, b) && k <= i < |effects| && effects[i].File?
    requires EmptyDir(a, effects[i].file.target) && Above(effects[i].file.target, q)
    ensures q !in b.files && q !in b.dirs
  {
    var t := effects[i].file.target;
    AllTargetsApart(effects, taskId);
    if Ahead(effects, sealed, k, b, q) {
      assert false;
    } else if j :| k <= j < |effects| && effects[j].File? && Above(q, effects[j].file.target) {
      AboveTransitive(t, q, effects[j].file.target);
      assert false;
    } else {
      assert !ParentOfPending(effects, k, q);
    }
  }

  lemma PendingFileIsClear(effects: seq<Effect>, taskId: string, sealed: map<Path, Image>, k: nat, a: Tree, b: Tree,
                           i: nat)
    requires Orderly(effects, taskId) && RepoSim(effects, sealed, k, a, b)
    requires k <= i < |effects| && effects[i].File?
    ensures if effects[i].file.DeleteFile? then DeletionVerdict(b, effects[i].file) == Clear
            else PromotionVerdict(b, sealed, effects[i].file) == Clear
  {
    var t := effects[i].file.target;
    PendingTargetIsOpen(effects, taskId, sealed, k, a, b, i);
    if Get(b.files, t) != Get(a.files, t) {
      assert Ahead(effects, sealed, k, b, t);
    }
    AllTargetsApart(effects, taskId);
  }

  /** One file effect, live on `a` and replayed on `b`. */
  lemma RepoStep(effects: seq<Effect>, taskId: string, sealed: map<Path, Image>, k: nat, a: Tree, b: Tree)
    requires Orderly(effects, taskId) && RepoSim(effects, sealed, k, a, b) && k < |effects| && effects[k].File?
    ensures ApplyFile(a, sealed, effects[k].file).Some?
    ensures ApplyFile(b, sealed, effects[k].file).Some?
    ensures RepoSim(effects, sealed, k + 1, ApplyFile(a, sealed, effects[k].file).value,
                    Replayed(b, sealed, effects[k].file))
  {
    var file := effects[k].file;
    PendingTargetIsOpen(effects, taskId, sealed, k, a, b, k);
    StepShape(a, sealed, file);
    StepShape(b, sealed, file);
    var a', b' := ApplyFile(a, sealed, file).value, Replayed(b, sealed, file);
    OtherTargetsUndisturbed(effects, taskId, sealed, k, a, b);
    StepFiles(effects, taskId, sealed, k, a, b);
    forall d
      ensures d in a'.dirs ==> d in b'.dirs || Ahead(effects, sealed, k + 1, b', d)
      ensures d in b'.dirs ==> d in a'.dirs || ParentOfPending(effects, k + 1, d)
    {
      if d in a'.dirs {
        StepDirsKept(effects, sealed, k, a, b, d);
      }
      if d in b'.dirs {
        StepDirsNew(effects, sealed, k, a, b, d);
      }
    }
  }

  /** The replay skips a file effect that is already there. */
  ghost function Replayed(b: Tree, sealed: map<Path, Image>, file: FileEffect): Tree
    requires ApplyFile(b, sealed, file).Some?
  {
    if FileAfter(b, sealed, file) then b else ApplyFile(b, sealed, file).value
  }

  lemma StepFiles(effects: seq<Effect>, taskId: string, sealed: map<Path, Image>, k: nat, a: Tree, b: Tree)
    requires Orderly(effects, taskId) && RepoSim(effects, sealed, k, a, b) && k < |effects| && effects[k].File?
    requires Open(a, effects[k].file) && Open(b, effects[k].file)
    requires ApplyFile(a, sealed, effects[k].file).Some? && ApplyFile(b, sealed, effects[k].file).Some?
    ensures var a', b' := ApplyFile(a, sealed, effects[k].file).value, Replayed(b, sealed, effects[k].file);
            forall p :: Get(b'.files, p) == Get(a'.files, p) || Ahead(effects, sealed, k + 1, b', p)
  {
    var file := effects[k].file;
    StepShape(a, sealed, file);
    StepShape(b, sealed, file);
    var a', b' := ApplyFile(a, sealed, file).value, Replayed(b, sealed, file);
    forall p
      ensures Get(b'.files, p) == Get(a'.files, p) || Ahead(effects, sealed, k + 1, b', p)
    {
      if p != file.target && Get(b.files, p) != Get(a.files, p) {
        AheadStays(effects, sealed, k, b, b', p);
      }
    }
  }

  /** An effect on another target does not undo what the mixture is ahead by. */
  lemma AheadStays(effects: seq<Effect>, sealed: map<Path, Image>, k: nat, b: Tree, b': Tree, p: Path)
    requires k < |effects| && effects[k].File? && p != effects[k].file.target
    requires Ahead(effects, sealed, k, b, p) && Get(b'.files, p) == Get(b.files, p)
    ensures Ahead(effects, sealed, k + 1, b', p)
  {
    var i :| k <= i < |effects| && effects[i].File? && effects[i].file.target == p
        && FileAfter(b, sealed, effects[i].file);
    assert i != k && FileAfter(b', sealed, effects[i].file);
  }

  lemma StepDirsKept(effects: seq<Effect>, sealed: map<Path, Image>, k: nat, a: Tree, b: Tree, d: Path)
    requires RepoSim(effects, sealed, k, a, b) && k < |effects| && effects[k].File?
    requires Open(a, effects[k].file) && Open(b, effects[k].file)
    requires ApplyFile(a, sealed, effects[k].file).Some? && ApplyFile(b, sealed, effects[k].file).Some?
    requires d in ApplyFile(a, sealed, effects[k].file).value.dirs
    ensures var b' := Replayed(b, sealed, effects[k].file); d in b'.dirs || Ahead(effects, sealed, k + 1, b', d)
  {
    var file := effects[k].file;
    StepShape(a, sealed, file);
    StepShape(b, sealed, file);
    var b' := Replayed(b, sealed, file);
    if d in a.dirs && d !in b.dirs {
      AheadStays(effects, sealed, k, b, b', d);
    }
  }

  lemma StepDirsNew(effects: seq<Effect>, sealed: map<Path, Image>, k: nat, a: Tree, b: Tree, d: Path)
    requires RepoSim(effects, sealed, k, a, b) && k < |effects| && effects[k].File?
    requires Open(a, effects[k].file) && Open(b, effects[k].file)
    requires effects[k].file.target in b.dirs ==> effects[k].file.target in a.dirs
    requires ApplyFile(a, sealed, effects[k].file).Some? && ApplyFile(b, sealed, effects[k].file).Some?
    requires d in Replayed(b, sealed, effects[k].file).dirs
    ensures d in ApplyFile(a, sealed, effects[k].file).value.dirs || ParentOfPending(effects, k + 1, d)
  {
    var file := effects[k].file;
    StepShape(a, sealed, file);
    StepShape(b, sealed, file);
    if d in b.dirs && d !in a.dirs {
      var i :| k <= i < |effects| && effects[i].File? && Above(d, effects[i].file.target);
    }
  }

  lemma OtherTargetsUndisturbed(effects: seq<Effect>, taskId: string, sealed: map<Path, Image>, k: nat, a: Tree,
                                b: Tree)
    requires Orderly(effects, taskId) && RepoSim(effects, sealed, k, a, b) && k < |effects| && effects[k].File?
    requires Open(a, effects[k].file) && ApplyFile(a, sealed, effects[k].file).Some?
    ensures var a' := ApplyFile(a, sealed, effects[k].file).value;
            && (forall i :: 0 <= i < |effects| && effects[i].File? ==> !Obstructed(a', effects[i].file.target))
            && (forall i :: k + 1 <= i < |effects| && effects[i].File? ==> FoundAsPlanned(a', effects[i].file))
            && (forall i :: 0 <= i < k + 1 && effects[i].File? ==>
                  FileAfter(a', sealed, effects[i].file) && effects[i].file.target !in a'.dirs)
  {
    var file := effects[k].file;
    AllTargetsApart(effects, taskId);
    StepShape(a, sealed, file);
    var a' := ApplyFile(a, sealed, file).value;
    forall i | 0 <= i < |effects| && effects[i].File?
      ensures !Obstructed(a', effects[i].file.target)
      ensures i != k ==> Get(a'.files, effects[i].file.target) == Get(a.files, effects[i].file.target)
      ensures i != k ==> (effects[i].file.target in a'.dirs <==> effects[i].file.target in a.dirs)
    {
      var t := effects[i].file.target;
      forall q | q in Ancestors(t)
        ensures q !in a'.files
      {
        assert Get(a'.files, q) == Get(a.files, q);
      }
    }
    forall i | k + 1 <= i < |effects| && effects[i].File? && effects[i].file.target in a.dirs
      ensures EmptyDir(a, effects[i].file.target) ==> EmptyDir(a', effects[i].file.target)
    {
      StaysEmpty(a, sealed, file, effects[i].file.target);
    }
  }

  lemma StaysEmpty(t: Tree, sealed: map<Path, Image>, file: FileEffect, d: Path)
    requires WellFormed(t) && Faithful(sealed, file) && Open(t, file) && EmptyDir(t, d)
    requires !Above(d, file.target)
    ensures ApplyFile(t, sealed, file).Some? && EmptyDir(ApplyFile(t, sealed, file).value, d)
  {
    StepShape(t, sealed, file);
    var t' := ApplyFile(t, sealed, file).value;
    forall q | Above(d, q)
      ensures q !in t'.files && q !in t'.dirs
    {
      assert q != file.target && Get(t'.files, q) == Get(t.files, q);
      if Above(q, file.target) {
        AboveTransitive(d, q, file.target);
      }
    }
  }

  /** What one file effect does to a tree in which nothing is in its way. */
  lemma StepShape(t: Tree, sealed: map<Path, Image>, file: FileEffect)
    requires WellFormed(t) && Faithful(sealed, file) && Open(t, file)
    ensures ApplyFile(t, sealed, file).Some?
    ensures var t' := ApplyFile(t, sealed, file).value;
            && WellFormed(t') && FileAfter(t', sealed, file) && file.target !in t'.dirs
            && (forall p :: p != file.target ==> Get(t'.files, p) == Get(t.files, p))
            && (forall d :: d in t'.dirs <==>
                  (d in t.dirs && d != file.target) || (file.PromoteFile? && Above(d, file.target)))
  {
    assert !Above(file.target, file.target);
    if file.DeleteFile? {
      UnlinkKeepsShape(t, file.target);
    } else {
      WriteKeepsShape(t, file.target, sealed[file.target]);
    }
  }

  lemma RepoSkip(effects: seq<Effect>, sealed: map<Path, Image>, k: nat, a: Tree, b: Tree)
    requires RepoSim(effects, sealed, k, a, b) && k < |effects| && !effects[k].File?
    ensures RepoSim(effects, sealed, k + 1, a, b)
  {
    forall p | Ahead(effects, sealed, k, b, p)
      ensures Ahead(effects, sealed, k + 1, b, p)
    {
    }
    forall d | ParentOfPending(effects, k, d)
      ensures ParentOfPending(effects, k + 1, d)
    {
    }
  }

  /** Without a pending file effect the two trees are one. */
  lemma ReposMeet(effects: seq<Effect>, sealed: map<Path, Image>, k: nat, a: Tree, b: Tree)
    requires RepoSim(effects, sealed, k, a, b)
    requires forall i :: k <= i < |effects| ==> !effects[i].File?
    ensures a == b
  {
    forall p
      ensures Get(a.files, p) == Get(b.files, p)
    {
      assert !Ahead(effects, sealed, k, b, p);
    }
    SameGetIsSameMap(a.files, b.files);
    forall d
      ensures d in a.dirs <==> d in b.dirs
    {
      assert !ParentOfPending(effects, k, d);
    }
  }

  // ---------------------------------------------------------------- artifacts

  predicate ArtifactApplied(sealed: map<Path, Image>, e: Effect, artifacts: map<Path, Image>)
    requires e.Artifact?
  {
    e.source in sealed && Get(artifacts, e.target) == Some(sealed[e.source])
  }

  /** The artifact as the plan found it. */
  ghost predicate ArtifactBefore(sealed: map<Path, Image>, e: Effect, artifacts: map<Path, Image>)
    requires e.Artifact?
  {
    && e.source in sealed && e.after == Some(sealed[e.source].content)
    && (if e.before.None? then e.target !in artifacts && !e.existed
        else e.target in artifacts && Replaceable(artifacts[e.target], e.before, e.beforeMode))
  }

  /** `links` are the replay's links of the journal's task: a copied artifact is a linked one. */
  ghost predicate ArtifactSim(effects: seq<Effect>, sealed: map<Path, Image>, k: nat,
                              a: map<Path, Image>, b: map<Path, Image>, links: seq<string>)
  {
    && k <= |effects|
    && (forall i :: k <= i < |effects| && effects[i].Artifact? ==> ArtifactBefore(sealed, effects[i], a))
    && (forall i :: 0 <= i < k && effects[i].Artifact? ==>
          ArtifactApplied(sealed, effects[i], a) && effects[i].after == Some(sealed[effects[i].source].content))
    && (forall p :: Get(b, p) == Get(a, p) || ArtifactAhead(effects, sealed, k, b, p))
    && (forall i :: k <= i < |effects| && effects[i].Artifact? && ArtifactApplied(sealed, effects[i], b) ==>
          effects[i].link == "" || effects[i].link in links)
  }

  ghost predicate ArtifactAhead(effects: seq<Effect>, sealed: map<Path, Image>, k: nat, b: map<Path, Image>, p: Path) {
    exists i :: k <= i < |effects| && effects[i].Artifact? && effects[i].target == p
        && ArtifactApplied(sealed, effects[i], b)
  }

  lemma ArtifactSkip(effects: seq<Effect>, sealed: map<Path, Image>, k: nat,
                     a: map<Path, Image>, b: map<Path, Image>, links: seq<string>, links': seq<string>)
    requires ArtifactSim(effects, sealed, k, a, b, links) && k < |effects| && !effects[k].Artifact?
    requires forall l :: l in links ==> l in links'
    ensures ArtifactSim(effects, sealed, k + 1, a, b, links')
  {
    forall p | ArtifactAhead(effects, sealed, k, b, p)
      ensures ArtifactAhead(effects, sealed, k + 1, b, p)
    {
    }
  }

  lemma ArtifactTargetsApart(effects: seq<Effect>, taskId: string)
    requires Orderly(effects, taskId)
    ensures forall i, k :: 0 <= i < |effects| && 0 <= k < |effects| && i != k
                           && effects[i].Artifact? && effects[k].Artifact? ==>
                             effects[i].target != effects[k].target
  {
    forall i, k | 0 <= i < |effects| && 0 <= k < |effects| && i != k && effects[i].Artifact? && effects[k].Artifact?
      ensures effects[i].target != effects[k].target
    {
      if i < k {
        assert Compatible(effects[i], effects[k]);
      } else {
        assert Compatible(effects[k], effects[i]);
      }
    }
  }

  lemma ArtifactStep(effects: seq<Effect>, taskId: string, sealed: map<Path, Image>, k: nat,
                     a: map<Path, Image>, b: map<Path, Image>, links: seq<string>, links': seq<string>)
    requires Orderly(effects, taskId) && ArtifactSim(effects, sealed, k, a, b, links)
    requires k < |effects| && effects[k].Artifact?
    requires forall l :: l in links ==> l in links'
    ensures var e := effects[k];
            && e.source in sealed
            && ArtifactSim(effects, sealed, k + 1, a[e.target := sealed[e.source]],
                           if ArtifactApplied(sealed, e, b) then b else b[e.target := sealed[e.source]], links')
  {
    ArtifactTargetsApart(effects, taskId);
    var e := effects[k];
    var a' := a[e.target := sealed[e.source]];
    var b' := if ArtifactApplied(sealed, e, b) then b else b[e.target := sealed[e.source]];
    forall p
      ensures Get(b', p) == Get(a', p) || ArtifactAhead(effects, sealed, k + 1, b', p)
    {
      if p != e.target && Get(b, p) != Get(a, p) {
        var i :| k <= i < |effects| && effects[i].Artifact? && effects[i].target == p
            && ArtifactApplied(sealed, effects[i], b);
        assert ArtifactApplied(sealed, effects[i], b');
      }
    }
  }

  lemma PendingArtifactIsClear(effects: seq<Effect>, taskId: string, sealed: map<Path, Image>, k: nat,
                               a: map<Path, Image>, r: Site, links: seq<string>, i: nat)
    requires Orderly(effects, taskId) && ArtifactSim(effects, sealed, k, a, r.artifacts, links)
    requires k <= i < |effects| && effects[i].Artifact?
    ensures ArtifactVerdict(r, sealed, effects[i]) == Clear
  {
    ArtifactTargetsApart(effects, taskId);
    var e := effects[i];
    if Get(r.artifacts, e.target) != Get(a, e.target) {
      assert ArtifactAhead(effects, sealed, k, r.artifacts, e.target);
    }
  }

  // ---------------------------------------------------------------- tasks

  ghost predicate MovePending(effects: seq<Effect>, k: nat, state: string) {
    exists i :: k <= i < |effects| && effects[i].MoveTask? && effects[i].toState == state
  }

  ghost predicate LinkPending(effects: seq<Effect>, k: nat, link: string) {
    link != "" && exists i :: k <= i < |effects| && effects[i].Artifact? && effects[i].link == link
  }

  ghost predicate CreatePending(effects: seq<Effect>, k: nat, b: map<string, Task>, id: string) {
    exists i :: k <= i < |effects| && effects[i].CreateTask? && effects[i].id == id
        && Get(b, id) == Some(effects[i].task)
  }

  /** The tracker part. Sections of derived-task links are presentation and may differ. */
  ghost predicate TaskSim(effects: seq<Effect>, taskId: string, context: Context, k: nat,
                          a: map<string, Task>, b: map<string, Task>)
  {
    && k <= |effects| && taskId in a && taskId in b
    && b[taskId].content == a[taskId].content
    && (b[taskId].state == a[taskId].state || MovePending(effects, k, b[taskId].state))
    && (forall l :: l in a[taskId].links ==> l in b[taskId].links)
    && (forall l :: l in b[taskId].links ==> l in a[taskId].links || LinkPending(effects, k, l))
    && (forall id :: id != taskId ==> Get(b, id) == Get(a, id) || CreatePending(effects, k, b, id))
    && (forall i :: k <= i < |effects| && effects[i].CreateTask? ==> effects[i].id !in a)
    && (forall i :: 0 <= i < k && effects[i].CreateTask? ==> Get(a, effects[i].id) == Some(effects[i].task))
    && (forall i :: k <= i < |effects| && effects[i].MoveTask? ==> context.previous == Some(a[taskId].state))
    && (forall i :: 0 <= i < k && effects[i].MoveTask? ==> a[taskId].state == effects[i].toState)
  }

  /** Tasks that differ at most in presentation. */
  ghost predicate SameTask(a: Task, b: Task) {
    && a.state == b.state && a.content == b.content
    && (forall l :: l in a.links <==> l in b.links)
  }

  lemma TaskSkip(effects: seq<Effect>, taskId: string, context: Context, k: nat, a: map<string, Task>,
                 b: map<string, Task>,
                 a': map<string, Task>, b': map<string, Task>)
    requires TaskSim(effects, taskId, context, k, a, b) && k < |effects|
    requires !effects[k].MoveTask? && !effects[k].CreateTask? && !effects[k].Artifact?
    requires a'.Keys == a.Keys && b'.Keys == b.Keys
    requires SameTask(a'[taskId], a[taskId]) && SameTask(b'[taskId], b[taskId])
    requires forall id :: id in a && id != taskId ==> a'[id] == a[id]
    requires forall id :: id in b && id != taskId ==> b'[id] == b[id]
    requires forall i :: 0 <= i < |effects| && effects[i].CreateTask? ==> effects[i].id != taskId
    ensures TaskSim(effects, taskId, context, k + 1, a', b')
  {
    forall id | id != taskId && Get(b, id) != Get(a, id)
      ensures CreatePending(effects, k + 1, b', id)
    {
      assert CreatePending(effects, k, b, id);
    }
    forall l | LinkPending(effects, k, l)
      ensures LinkPending(effects, k + 1, l)
    {
    }
    forall id | id != taskId
      ensures Get(b', id) == Get(b, id) && Get(a', id) == Get(a, id)
    {
    }
  }

  lemma MoveStep(effects: seq<Effect>, taskId: string, context: Context, k: nat, a: map<string, Task>,
                 b: map<string, Task>)
    requires Orderly(effects, taskId) && TaskSim(effects, taskId, context, k, a, b)
    requires k < |effects| && effects[k].MoveTask?
    ensures var to := effects[k].toState;
            TaskSim(effects, taskId, context, k + 1, a[taskId := a[taskId].(state := to)],
                    if b[taskId].state == to then b else b[taskId := b[taskId].(state := to)])
  {
    var to := effects[k].toState;
    var a' := a[taskId := a[taskId].(state := to)];
    var b' := if b[taskId].state == to then b else b[taskId := b[taskId].(state := to)];
    forall i | 0 <= i < |effects| && i != k
      ensures !effects[i].MoveTask?
    {
      if i < k {
        assert Compatible(effects[i], effects[k]);
      } else {
        assert Compatible(effects[k], effects[i]);
      }
    }
    forall l | LinkPending(effects, k, l)
      ensures LinkPending(effects, k + 1, l)
    {
    }
    CreatedAreOthers(effects, taskId);
    forall id | id != taskId
      ensures Get(b', id) == Get(a', id) || CreatePending(effects, k + 1, b', id)
    {
      assert Get(b', id) == Get(b, id) && Get(a', id) == Get(a, id);
      if Get(b, id) != Get(a, id) {
        assert CreatePending(effects, k, b, id);
      }
    }
  }

  lemma CreatedAreOthers(effects: seq<Effect>, taskId: string)
    requires Orderly(effects, taskId)
    ensures forall i :: 0 <= i < |effects| && effects[i].CreateTask? ==> effects[i].id != taskId
    ensures forall i, k :: 0 <= i < |effects| && 0 <= k < |effects| && i != k
                           && effects[i].CreateTask? && effects[k].CreateTask? ==>
                             effects[i].id != effects[k].id
  {
    forall i | 0 <= i < |effects| && effects[i].CreateTask?
      ensures effects[i].id != taskId
    {
      assert Owned(effects[i], taskId);
    }
    forall i, k | 0 <= i < |effects| && 0 <= k < |effects| && i != k && effects[i].CreateTask? && effects[k].CreateTask?
      ensures effects[i].id != effects[k].id
    {
      if i < k {
        assert Compatible(effects[i], effects[k]);
      } else {
        assert Compatible(effects[k], effects[i]);
      }
    }
  }

  lemma CreateStep(effects: seq<Effect>, taskId: string, context: Context, k: nat, a: map<string, Task>,
                   b: map<string, Task>)
    requires Orderly(effects, taskId) && TaskSim(effects, taskId, context, k, a, b)
    requires k < |effects| && effects[k].CreateTask?
    ensures effects[k].id !in a
    ensures effects[k].id in b ==> b[effects[k].id] == effects[k].task
    ensures var id, task := effects[k].id, effects[k].task;
            var created := if Get(b, id) == Some(task) then b else b[id := task];
            TaskSim(effects, taskId, context, k + 1, a[id := task], created)
  {
    var id, task := effects[k].id, effects[k].task;
    var a', b' := a[id := task], if Get(b, id) == Some(task) then b else b[id := task];
    CreatedAreOthers(effects, taskId);
    if Get(b, id) != Get(a, id) {
      assert CreatePending(effects, k, b, id);
    }
    forall l | LinkPending(effects, k, l)
      ensures LinkPending(effects, k + 1, l)
    {
    }
    assert MovePending(effects, k, b[taskId].state) ==> MovePending(effects, k + 1, b[taskId].state);
    forall other | other != taskId
      ensures Get(b', other) == Get(a', other) || CreatePending(effects, k + 1, b', other)
    {
      if other != id && Get(b, other) != Get(a, other) {
        assert CreatePending(effects, k, b, other);
        assert Get(b', other) == Get(b, other);
      }
    }
  }

  lemma LinkStep(effects: seq<Effect>, taskId: string, context: Context, k: nat, a: map<string, Task>,
                 b: map<string, Task>, b': map<string, Task>)
    requires Orderly(effects, taskId) && TaskSim(effects, taskId, context, k, a, b)
    requires k < |effects| && effects[k].Artifact?
    requires b' == b || (effects[k].link != "" && b' == b[taskId := WithLink(b[taskId], effects[k].link)])
    requires effects[k].link != "" ==> effects[k].link in b'[taskId].links
    ensures TaskSim(effects, taskId, context, k + 1,
                    if effects[k].link != "" then a[taskId := WithLink(a[taskId], effects[k].link)] else a, b')
    ensures forall l :: l in b[taskId].links ==> l in b'[taskId].links
  {
    var link := effects[k].link;
    var a' := if link != "" then a[taskId := WithLink(a[taskId], link)] else a;
    CreatedAreOthers(effects, taskId);
    assert MovePending(effects, k, b[taskId].state) ==> MovePending(effects, k + 1, b[taskId].state);
    forall l | l in b'[taskId].links
      ensures l in a'[taskId].links || LinkPending(effects, k + 1, l)
    {
      if l in b[taskId].links && l !in a[taskId].links {
        assert LinkPending(effects, k, l);
      }
    }
    forall id | id != taskId
      ensures Get(b', id) == Get(a', id) || CreatePending(effects, k + 1, b', id)
    {
      assert Get(b', id) == Get(b, id) && Get(a', id) == Get(a, id);
      if Get(b, id) != Get(a, id) {
        assert CreatePending(effects, k, b, id);
      }
    }
  }

  // ---------------------------------------------------------------- the branch head

  ghost predicate PromotedBy(effects: seq<Effect>, p: Path) {
    exists i :: 0 <= i < |effects| && effects[i].File? && effects[i].file.PromoteFile? && effects[i].file.target == p
  }

  /** The files the journal's file effects leave behind. */
  ghost function AfterImages(effects: seq<Effect>, sealed: map<Path, Image>): map<Path, Image> {
    map p | p in sealed && PromotedBy(effects, p) :: sealed[p]
  }

  /** Whether a commit can be proven later: its subject is not empty, git takes its paths, the intended tree
      was recorded, it is the tree git will produce from the paths it may add, and not the base tree. */
  ghost predicate ProvableCommit(e: Effect, effects: seq<Effect>, sealed: map<Path, Image>, context: Context,
                                 ignored: set<Path>)
    requires e.CommitChanges?
  {
    && context.base.Some? && e.message != ""
    && var base, committable, after := context.base.value.tree, Committable(e.paths, ignored),
       AfterImages(effects, sealed);
    && Addable(after, base, committable)
    && context.intended == Some(CommitTree(base, committable, after))
    && context.intended != Some(base)
  }

  ghost predicate Provable(effects: seq<Effect>, sealed: map<Path, Image>, context: Context, ignored: set<Path>) {
    forall e :: e in effects && e.CommitChanges? ==> ProvableCommit(e, effects, sealed, context, ignored)
  }

  function Tip(context: Context, message: string): Commit
    requires context.intended.Some?
  {
    Commit(context.base, context.intended.value, message)
  }

  predicate AtTip(context: Context, message: string, head: Commit) {
    context.intended.Some? && head == Tip(context, message)
  }

  ghost predicate HeadSim(effects: seq<Effect>, context: Context, k: nat, a: Commit, b: Commit) {
    && k <= |effects|
    && (forall i :: k <= i < |effects| && effects[i].CommitChanges? ==>
          context.base == Some(a) && (b == a || AtTip(context, effects[i].message, b)))
    && (forall i :: 0 <= i < k && effects[i].CommitChanges? ==> AtTip(context, effects[i].message, a))
    && ((forall i :: k <= i < |effects| ==> !effects[i].CommitChanges?) ==> b == a)
  }

  lemma FilesPrecedeCommits(effects: seq<Effect>, taskId: string)
    requires Orderly(effects, taskId)
    ensures forall k, i :: 0 <= k < i < |effects| ==> !(effects[k].CommitChanges? && effects[i].File?)
  {
    forall k, i | 0 <= k < i < |effects|
      ensures !(effects[k].CommitChanges? && effects[i].File?)
    {
      assert Compatible(effects[k], effects[i]);
    }
  }

  lemma CommittedTree(effects: seq<Effect>, taskId: string, sealed: map<Path, Image>, k: nat, a: Tree, b: Tree,
                      tree: GitTree, committable: set<Path>)
    requires Orderly(effects, taskId) && RepoSim(effects, sealed, k, a, b)
    requires k < |effects| && effects[k].CommitChanges?
    requires forall p :: p in committable ==> IsTarget(effects, p)
    ensures CommitTree(tree, committable, a.files) == CommitTree(tree, committable, AfterImages(effects, sealed))
    ensures Addable(a.files, tree, committable) <==> Addable(AfterImages(effects, sealed), tree, committable)
  {
    AllTargetsApart(effects, taskId);
    FilesPrecedeCommits(effects, taskId);
    forall p | p in committable
      ensures Get(a.files, p) == Get(AfterImages(effects, sealed), p)
    {
      var i :| 0 <= i < |effects| && effects[i].File? && effects[i].file.target == p;
      assert FileAfter(a, sealed, effects[i].file);
      if effects[i].file.PromoteFile? {
        assert PromotedBy(effects, p);
      }
    }
    var left, right := CommitTree(tree, committable, a.files),
        CommitTree(tree, committable, AfterImages(effects, sealed));
    forall p
      ensures Get(left, p) == Get(right, p)
    {
      if p in committable {
        assert Get(a.files, p) == Get(AfterImages(effects, sealed), p);
      }
    }
    SameGetIsSameMap(left, right);
  }

  // ---------------------------------------------------------------- the whole site

  ghost predicate SiteSim(effects: seq<Effect>, taskId: string, sealed: map<Path, Image>, context: Context, k: nat,
                          u: Site, r: Site) {
    && RepoSim(effects, sealed, k, u.repo, r.repo)
    && TaskSim(effects, taskId, context, k, u.tasks, r.tasks)
    && ArtifactSim(effects, sealed, k, u.artifacts, r.artifacts, r.tasks[taskId].links)
    && HeadSim(effects, context, k, u.head, r.head)
    && u.ignored == r.ignored
  }

  /** Equal but for presentation of the journal's own task. */
  ghost predicate SameSite(taskId: string, u: Site, r: Site) {
    && u.repo == r.repo && u.artifacts == r.artifacts && u.head == r.head && u.ignored == r.ignored
    && u.tasks.Keys == r.tasks.Keys
    && (forall id :: id in u.tasks && id != taskId ==> u.tasks[id] == r.tasks[id])
    && (taskId in u.tasks ==> SameTask(u.tasks[taskId], r.tasks[taskId]))
  }

  /** Effect `k` goes through, live and replayed, and the sites stay comparable. */
  ghost predicate Steps(effects: seq<Effect>, taskId: string, sealed: map<Path, Image>, context: Context, k: nat,
                        u: Site, r: Site)
    requires k < |effects|
  {
    var u', r' := Apply(u, sealed, effects[k]), Replay(r, sealed, context, effects[k]);
    && u'.Some? && r'.Some? && SiteSim(effects, taskId, sealed, context, k + 1, u'.value, r'.value)
    && u'.value.ignored == u.ignored
  }

  lemma FilesAlike(s: Site, sealed: map<Path, Image>, context: Context, file: FileEffect)
    requires ApplyFile(s.repo, sealed, file).Some? && Open(s.repo, file)
    ensures Apply(s, sealed, File(file)) == Some(s.(repo := ApplyFile(s.repo, sealed, file).value))
    ensures Replay(s, sealed, context, File(file)) == Some(s.(repo := Replayed(s.repo, sealed, file)))
  {
    assert Applied(s, sealed, context, File(file)) <==> FileAfter(s.repo, sealed, file);
  }

  lemma FileEffectStep(effects: seq<Effect>, taskId: string, sealed: map<Path, Image>, context: Context, k: nat,
                       u: Site, r: Site)
    requires Orderly(effects, taskId) && SiteSim(effects, taskId, sealed, context, k, u, r)
    requires k < |effects| && effects[k].File?
    ensures Steps(effects, taskId, sealed, context, k, u, r)
  {
    var file := effects[k].file;
    RepoStep(effects, taskId, sealed, k, u.repo, r.repo);
    PendingTargetIsOpen(effects, taskId, sealed, k, u.repo, r.repo, k);
    FilesAlike(u, sealed, context, file);
    FilesAlike(r, sealed, context, file);
    FileLeavesOthers(effects, taskId, sealed, context, k, u, r);
  }

  lemma FileLeavesOthers(effects: seq<Effect>, taskId: string, sealed: map<Path, Image>, context: Context, k: nat,
                         u: Site, r: Site)
    requires Orderly(effects, taskId) && SiteSim(effects, taskId, sealed, context, k, u, r)
    requires k < |effects| && effects[k].File?
    ensures TaskSim(effects, taskId, context, k + 1, u.tasks, r.tasks)
              && HeadSim(effects, context, k + 1, u.head, r.head)
    ensures ArtifactSim(effects, sealed, k + 1, u.artifacts, r.artifacts, r.tasks[taskId].links)
  {
    CreatedAreOthers(effects, taskId);
    TaskSkip(effects, taskId, context, k, u.tasks, r.tasks, u.tasks, r.tasks);
    ArtifactSkip(effects, sealed, k, u.artifacts, r.artifacts, r.tasks[taskId].links, r.tasks[taskId].links);
  }

  lemma ArtifactEffectStep(effects: seq<Effect>, taskId: string, sealed: map<Path, Image>, context: Context, k: nat,
                           u: Site, r: Site)
    requires Orderly(effects, taskId) && SiteSim(effects, taskId, sealed, context, k, u, r)
    requires k < |effects| && effects[k].Artifact?
    ensures Steps(effects, taskId, sealed, context, k, u, r)
  {
    var e := effects[k];
    assert Owned(e, taskId);
    assert e.source in sealed;
    var u', r' := Apply(u, sealed, e).value, Replay(r, sealed, context, e).value;
    assert Applied(r, sealed, context, e) <==> ArtifactApplied(sealed, e, r.artifacts);
    LinkStep(effects, taskId, context, k, u.tasks, r.tasks, r'.tasks);
    ArtifactStep(effects, taskId, sealed, k, u.artifacts, r.artifacts, r.tasks[taskId].links, r'.tasks[taskId].links);
    RepoSkip(effects, sealed, k, u.repo, r.repo);
  }

  lemma CreateEffectStep(effects: seq<Effect>, taskId: string, sealed: map<Path, Image>, context: Context, k: nat,
                         u: Site, r: Site)
    requires Orderly(effects, taskId) && SiteSim(effects, taskId, sealed, context, k, u, r)
    requires k < |effects| && effects[k].CreateTask?
    ensures Steps(effects, taskId, sealed, context, k, u, r)
  {
    var e := effects[k];
    assert Owned(e, taskId);
    CreatedAreOthers(effects, taskId);
    CreateStep(effects, taskId, context, k, u.tasks, r.tasks);
    var r' := Replay(r, sealed, context, e).value;
    RepoSkip(effects, sealed, k, u.repo, r.repo);
    ArtifactSkip(effects, sealed, k, u.artifacts, r.artifacts, r.tasks[taskId].links, r'.tasks[taskId].links);
  }

  lemma MoveEffectStep(effects: seq<Effect>, taskId: string, sealed: map<Path, Image>, context: Context, k: nat,
                       u: Site, r: Site)
    requires Orderly(effects, taskId) && SiteSim(effects, taskId, sealed, context, k, u, r)
    requires k < |effects| && effects[k].MoveTask?
    ensures Steps(effects, taskId, sealed, context, k, u, r)
  {
    assert Owned(effects[k], taskId);
    MoveStep(effects, taskId, context, k, u.tasks, r.tasks);
    OthersSkip(effects, taskId, sealed, context, k, u, r);
  }

  lemma LinkEffectStep(effects: seq<Effect>, taskId: string, sealed: map<Path, Image>, context: Context, k: nat,
                       u: Site, r: Site)
    requires Orderly(effects, taskId) && SiteSim(effects, taskId, sealed, context, k, u, r)
    requires k < |effects| && effects[k].LinkDerived?
    ensures Steps(effects, taskId, sealed, context, k, u, r)
  {
    assert Owned(effects[k], taskId);
    CreatedAreOthers(effects, taskId);
    TaskSkip(effects, taskId, context, k, u.tasks, r.tasks,
             Apply(u, sealed, effects[k]).value.tasks, Replay(r, sealed, context, effects[k]).value.tasks);
    OthersSkip(effects, taskId, sealed, context, k, u, r);
  }

  /** A task effect leaves the other stores as they compare. */
  lemma OthersSkip(effects: seq<Effect>, taskId: string, sealed: map<Path, Image>, context: Context, k: nat,
                   u: Site, r: Site)
    requires SiteSim(effects, taskId, sealed, context, k, u, r) && k < |effects|
    requires !effects[k].File? && !effects[k].Artifact? && !effects[k].CommitChanges?
    ensures RepoSim(effects, sealed, k + 1, u.repo, r.repo) && HeadSim(effects, context, k + 1, u.head, r.head)
    ensures ArtifactSim(effects, sealed, k + 1, u.artifacts, r.artifacts, r.tasks[taskId].links)
  {
    RepoSkip(effects, sealed, k, u.repo, r.repo);
    ArtifactSkip(effects, sealed, k, u.artifacts, r.artifacts, r.tasks[taskId].links, r.tasks[taskId].links);
  }

  /** A provable commit brings both heads to the tip, whether the replay makes it or finds it. */
  lemma CommitsAlike(effects: seq<Effect>, taskId: string, sealed: map<Path, Image>, context: Context, k: nat,
                     u: Site, r: Site)
    requires Orderly(effects, taskId) && SiteSim(effects, taskId, sealed, context, k, u, r)
    requires k < |effects| && effects[k].CommitChanges?
    requires ProvableCommit(effects[k], effects, sealed, context, u.ignored)
    ensures var tip := Tip(context, effects[k].message);
            && Apply(u, sealed, effects[k]) == Some(u.(head := tip))
            && Replay(r, sealed, context, effects[k]) == Some(r.(head := tip))
  {
    var e := effects[k];
    assert e in effects;
    FilesPrecedeCommits(effects, taskId);
    ReposMeet(effects, sealed, k, u.repo, r.repo);
    CommittedTree(effects, taskId, sealed, k, u.repo, r.repo, u.head.tree, Committable(e.paths, u.ignored));
    NotItsOwnParent(Tip(context, e.message));
    SomethingToCommit(u.head.tree, Committable(e.paths, u.ignored), u.repo.files);
  }

  lemma SomethingToCommit(tree: GitTree, committable: set<Path>, files: map<Path, Image>)
    ensures CommitTree(tree, committable, files) != tree ==> committable != {}
  {
    if committable == {} {
      assert CommitTree(tree, committable, files) == tree;
    }
  }

  lemma CommitEffectStep(effects: seq<Effect>, taskId: string, sealed: map<Path, Image>, context: Context, k: nat,
                         u: Site, r: Site)
    requires Orderly(effects, taskId) && SiteSim(effects, taskId, sealed, context, k, u, r)
    requires k < |effects| && effects[k].CommitChanges?
    requires ProvableCommit(effects[k], effects, sealed, context, u.ignored)
    ensures Steps(effects, taskId, sealed, context, k, u, r)
  {
    CommitsAlike(effects, taskId, sealed, context, k, u, r);
    OtherEffectsAreNoCommits(effects, taskId, k);
    CreatedAreOthers(effects, taskId);
    RepoSkip(effects, sealed, k, u.repo, r.repo);
    TaskSkip(effects, taskId, context, k, u.tasks, r.tasks, u.tasks, r.tasks);
    ArtifactSkip(effects, sealed, k, u.artifacts, r.artifacts, r.tasks[taskId].links, r.tasks[taskId].links);
  }

  /** One effect, applied live and replayed. */
  lemma EffectStep(effects: seq<Effect>, taskId: string, sealed: map<Path, Image>, context: Context, k: nat,
                   u: Site, r: Site)
    requires Orderly(effects, taskId) && SiteSim(effects, taskId, sealed, context, k, u, r)
    requires k < |effects|
    requires effects[k].CommitChanges? ==> ProvableCommit(effects[k], effects, sealed, context, u.ignored)
    ensures Steps(effects, taskId, sealed, context, k, u, r)
  {
    if effects[k].File? {
      FileEffectStep(effects, taskId, sealed, context, k, u, r);
    } else if effects[k].Artifact? {
      ArtifactEffectStep(effects, taskId, sealed, context, k, u, r);
    } else if effects[k].CommitChanges? {
      CommitEffectStep(effects, taskId, sealed, context, k, u, r);
    } else if effects[k].CreateTask? {
      CreateEffectStep(effects, taskId, sealed, context, k, u, r);
    } else if effects[k].MoveTask? {
      MoveEffectStep(effects, taskId, sealed, context, k, u, r);
    } else {
      LinkEffectStep(effects, taskId, sealed, context, k, u, r);
    }
  }

  lemma RunsUnfold(effects: seq<Effect>, sealed: map<Path, Image>, context: Context, k: nat, u: Site, r: Site)
    requires 0 < k <= |effects|
    ensures var u' := RunLive(u, sealed, effects[..k - 1]);
            RunLive(u, sealed, effects[..k]) == if u'.None? then None else Apply(u'.value, sealed, effects[k - 1])
    ensures var r' := RunReplay(r, sealed, context, effects[..k - 1]);
            r'.1 && Replay(r'.0, sealed, context, effects[k - 1]).Some? ==>
              RunReplay(r, sealed, context, effects[..k]) == (Replay(r'.0, sealed, context, effects[k - 1]).value, true)
  {
    assert effects[..k][..k - 1] == effects[..k - 1] && effects[..k][k - 1] == effects[k - 1];
  }

  /** The first `k` effects went through live, and the replay followed. */
  ghost predicate InStep(effects: seq<Effect>, taskId: string, sealed: map<Path, Image>, context: Context, k: nat,
                         u: Site, r: Site) {
    && k <= |effects|
    && var u', r' := RunLive(u, sealed, effects[..k]), RunReplay(r, sealed, context, effects[..k]);
    && u'.Some? && r'.1 && SiteSim(effects, taskId, sealed, context, k, u'.value, r'.0) && u'.value.ignored == u.ignored
  }

  lemma StepOn(effects: seq<Effect>, taskId: string, sealed: map<Path, Image>, context: Context, k: nat, u: Site,
               r: Site)
    requires Orderly(effects, taskId) && InStep(effects, taskId, sealed, context, k, u, r) && k < |effects|
    requires effects[k].CommitChanges? ==> ProvableCommit(effects[k], effects, sealed, context, u.ignored)
    ensures InStep(effects, taskId, sealed, context, k + 1, u, r)
  {
    RunsUnfold(effects, sealed, context, k + 1, u, r);
    var u', r' := RunLive(u, sealed, effects[..k]).value, RunReplay(r, sealed, context, effects[..k]).0;
    EffectStep(effects, taskId, sealed, context, k, u', r');
  }

  /** After any number of effects, their commit provable if it is among them, the live run has gone through
      and the replay follows it. */
  lemma {:induction false} Simulate(effects: seq<Effect>, taskId: string, sealed: map<Path, Image>,
                                    context: Context, k: nat, u: Site, r: Site)
    requires Orderly(effects, taskId) && SiteSim(effects, taskId, sealed, context, 0, u, r) && k <= |effects|
    requires forall i :: 0 <= i < k && effects[i].CommitChanges? ==>
               ProvableCommit(effects[i], effects, sealed, context, u.ignored)
    ensures InStep(effects, taskId, sealed, context, k, u, r)
  {
    if k == 0 {
      assert effects[..0] == [];
    } else {
      Simulate(effects, taskId, sealed, context, k - 1, u, r);
      StepOn(effects, taskId, sealed, context, k - 1, u, r);
    }
  }

  lemma SitesMeet(effects: seq<Effect>, taskId: string, sealed: map<Path, Image>, context: Context, u: Site, r: Site)
    requires Orderly(effects, taskId) && SiteSim(effects, taskId, sealed, context, |effects|, u, r)
    ensures SameSite(taskId, u, r)
  {
    var n := |effects|;
    ReposMeet(effects, sealed, n, u.repo, r.repo);
    forall p
      ensures Get(u.artifacts, p) == Get(r.artifacts, p)
    {
      assert !ArtifactAhead(effects, sealed, n, r.artifacts, p);
    }
    SameGetIsSameMap(u.artifacts, r.artifacts);
    assert !MovePending(effects, n, r.tasks[taskId].state);
    assert forall l :: !LinkPending(effects, n, l);
    forall id | id != taskId
      ensures Get(u.tasks, id) == Get(r.tasks, id)
    {
      assert !CreatePending(effects, n, r.tasks, id);
    }
    forall id
      ensures id in u.tasks <==> id in r.tasks
      ensures id in u.tasks && id != taskId ==> u.tasks[id] == r.tasks[id]
    {
      if id != taskId {
        assert Get(u.tasks, id) == Get(r.tasks, id);
      }
    }
  }

  // ---------------------------------------------------------------- staying a mixture

  lemma FileKeepsMixture(effects: seq<Effect>, taskId: string, sealed: map<Path, Image>, a: Tree, b: Tree, k: nat)
    requires Orderly(effects, taskId) && RepoSim(effects, sealed, 0, a, b) && k < |effects| && effects[k].File?
    ensures ApplyFile(b, sealed, effects[k].file).Some?
    ensures RepoSim(effects, sealed, 0, a, ApplyFile(b, sealed, effects[k].file).value)
  {
    var file := effects[k].file;
    PendingTargetIsOpen(effects, taskId, sealed, 0, a, b, k);
    StepShape(b, sealed, file);
    var b' := ApplyFile(b, sealed, file).value;
    forall p
      ensures Ahead(effects, sealed, 0, b, p) && p != file.target ==> Ahead(effects, sealed, 0, b', p)
    {
      if p != file.target && Ahead(effects, sealed, 0, b, p) {
        var i :| 0 <= i < |effects| && effects[i].File? && effects[i].file.target == p
            && FileAfter(b, sealed, effects[i].file);
        assert FileAfter(b', sealed, effects[i].file);
      }
    }
    assert Ahead(effects, sealed, 0, b', file.target);
    forall p
      ensures Get(b'.files, p) == Get(a.files, p) || Ahead(effects, sealed, 0, b', p)
      ensures p in a.dirs ==> p in b'.dirs || Ahead(effects, sealed, 0, b', p)
      ensures p in b'.dirs ==> p in a.dirs || ParentOfPending(effects, 0, p)
    {
    }
  }

  lemma ArtifactKeepsMixture(effects: seq<Effect>, taskId: string, sealed: map<Path, Image>,
                             a: map<Path, Image>, b: map<Path, Image>, links: seq<string>, links': seq<string>, k: nat)
    requires Orderly(effects, taskId) && ArtifactSim(effects, sealed, 0, a, b, links)
    requires k < |effects| && effects[k].Artifact? && effects[k].source in sealed
    requires (forall l :: l in links ==> l in links') && (effects[k].link == "" || effects[k].link in links')
    ensures ArtifactSim(effects, sealed, 0, a, b[effects[k].target := sealed[effects[k].source]], links')
  {
    ArtifactTargetsApart(effects, taskId);
    var e := effects[k];
    var b' := b[e.target := sealed[e.source]];
    forall p
      ensures Get(b', p) == Get(a, p) || ArtifactAhead(effects, sealed, 0, b', p)
    {
      if p == e.target {
        assert ArtifactApplied(sealed, e, b');
      } else if Get(b, p) != Get(a, p) {
        var i :| 0 <= i < |effects| && effects[i].Artifact? && effects[i].target == p
            && ArtifactApplied(sealed, effects[i], b);
        assert ArtifactApplied(sealed, effects[i], b');
      }
    }
  }

  lemma TaskKeepsMixture(effects: seq<Effect>, taskId: string, sealed: map<Path, Image>, context: Context,
                         a: map<string, Task>, r: Site, k: nat)
    requires Orderly(effects, taskId) && TaskSim(effects, taskId, context, 0, a, r.tasks) && k < |effects|
    requires Apply(r, sealed, effects[k]).Some?
    ensures TaskSim(effects, taskId, context, 0, a, Apply(r, sealed, effects[k]).value.tasks)
    ensures forall l :: l in r.tasks[taskId].links ==> l in Apply(r, sealed, effects[k]).value.tasks[taskId].links
  {
    var e, b, b' := effects[k], r.tasks, Apply(r, sealed, effects[k]).value.tasks;
    assert Owned(e, taskId);
    CreatedAreOthers(effects, taskId);
    if e.MoveTask? {
      assert MovePending(effects, 0, e.toState);
    }
    if e.Artifact? && e.link != "" {
      assert LinkPending(effects, 0, e.link);
    }
    forall id | id != taskId
      ensures Get(b', id) == Get(a, id) || CreatePending(effects, 0, b', id)
    {
      if e.CreateTask? && e.id == id {
        assert CreatePending(effects, 0, b', id);
      } else {
        assert Get(b', id) == Get(b, id);
        if Get(b, id) != Get(a, id) {
          assert CreatePending(effects, 0, b, id);
        }
      }
    }
  }

  /** Applying any effect to a mixture of before and after images leaves such a mixture. */
  lemma ApplyKeepsMixture(effects: seq<Effect>, taskId: string, sealed: map<Path, Image>, context: Context, u: Site,
                          r: Site, k: nat)
    requires Orderly(effects, taskId) && SiteSim(effects, taskId, sealed, context, 0, u, r) && k < |effects|
    requires Apply(r, sealed, effects[k]).Some?
    requires effects[k].CommitChanges? ==>
               var head := Apply(r, sealed, effects[k]).value.head;
               head == u.head || AtTip(context, effects[k].message, head)
    ensures SiteSim(effects, taskId, sealed, context, 0, u, Apply(r, sealed, effects[k]).value)
  {
    var e := effects[k];
    assert Owned(e, taskId);
    TaskKeepsMixture(effects, taskId, sealed, context, u.tasks, r, k);
    if e.File? {
      FileKeepsMixture(effects, taskId, sealed, u.repo, r.repo, k);
    } else if e.Artifact? {
      ArtifactKeepsMixture(effects, taskId, sealed, u.artifacts, r.artifacts, r.tasks[taskId].links,
                           Apply(r, sealed, e).value.tasks[taskId].links, k);
    } else if e.CommitChanges? {
      OtherEffectsAreNoCommits(effects, taskId, k);
    }
  }

  lemma OtherEffectsAreNoCommits(effects: seq<Effect>, taskId: string, k: nat)
    requires Orderly(effects, taskId) && k < |effects| && effects[k].CommitChanges?
    ensures forall i :: 0 <= i < |effects| && i != k ==> !effects[i].CommitChanges?
  {
    forall i | 0 <= i < |effects| && i != k
      ensures !effects[i].CommitChanges?
    {
      if i < k {
        assert Compatible(effects[i], effects[k]);
      } else {
        assert Compatible(effects[k], effects[i]);
      }
    }
  }

  /** A crash between two effects of the live run or of a replay leaves a mixture. */
  lemma {:induction false} CrashesLeaveMixtures(effects: seq<Effect>, taskId: string, sealed: map<Path, Image>,
                                                context: Context,
                                                k: nat, u: Site, r: Site)
    requires Orderly(effects, taskId) && SiteSim(effects, taskId, sealed, context, 0, u, u)
    requires SiteSim(effects, taskId, sealed, context, 0, u, r)
    requires Provable(effects, sealed, context, u.ignored) && k <= |effects|
    ensures RunLive(u, sealed, effects[..k]).Some?
    ensures SiteSim(effects, taskId, sealed, context, 0, u, RunLive(u, sealed, effects[..k]).value)
    ensures SiteSim(effects, taskId, sealed, context, 0, u, RunReplay(r, sealed, context, effects[..k]).0)
  {
    if k == 0 {
      assert effects[..0] == [];
    } else {
      CrashesLeaveMixtures(effects, taskId, sealed, context, k - 1, u, r);
      assert forall i :: 0 <= i < |effects| ==> effects[i] in effects;
      Simulate(effects, taskId, sealed, context, k - 1, u, r);
      RunsUnfold(effects, sealed, context, k, u, r);
      var u', r' := RunLive(u, sealed, effects[..k - 1]).value, RunReplay(r, sealed, context, effects[..k - 1]).0;
      MixtureStep(effects, taskId, sealed, context, k - 1, u, u', r');
    }
  }

  lemma MixtureStep(effects: seq<Effect>, taskId: string, sealed: map<Path, Image>, context: Context, k: nat,
                    u: Site, u': Site, r': Site)
    requires Orderly(effects, taskId) && Provable(effects, sealed, context, u'.ignored) && k < |effects|
    requires SiteSim(effects, taskId, sealed, context, k, u', r')
    requires SiteSim(effects, taskId, sealed, context, 0, u, u') && SiteSim(effects, taskId, sealed, context, 0, u, r')
    ensures Apply(u', sealed, effects[k]).Some? && Replay(r', sealed, context, effects[k]).Some?
    ensures SiteSim(effects, taskId, sealed, context, 0, u, Apply(u', sealed, effects[k]).value)
    ensures SiteSim(effects, taskId, sealed, context, 0, u, Replay(r', sealed, context, effects[k]).value)
  {
    assert effects[k] in effects;
    EffectStep(effects, taskId, sealed, context, k, u', r');
    if effects[k].CommitChanges? {
      CommitsReachTheTip(effects, taskId, sealed, context, k, u', r');
    }
    ApplyKeepsMixture(effects, taskId, sealed, context, u, u', k);
    if !Applied(r', sealed, context, effects[k]) {
      ApplyKeepsMixture(effects, taskId, sealed, context, u, r', k);
    }
  }

  lemma CommitsReachTheTip(effects: seq<Effect>, taskId: string, sealed: map<Path, Image>, context: Context, k: nat,
                           u: Site, r: Site)
    requires Orderly(effects, taskId) && SiteSim(effects, taskId, sealed, context, k, u, r)
    requires k < |effects| && effects[k].CommitChanges?
    requires ProvableCommit(effects[k], effects, sealed, context, u.ignored)
    ensures Apply(u, sealed, effects[k]).Some?
    ensures AtTip(context, effects[k].message, Apply(u, sealed, effects[k]).value.head)
    ensures Replay(r, sealed, context, effects[k]).Some?
    ensures AtTip(context, effects[k].message, Replay(r, sealed, context, effects[k]).value.head)
  {
    CommitEffectStep(effects, taskId, sealed, context, k, u, r);
    OtherEffectsAreNoCommits(effects, taskId, k);
  }
}
