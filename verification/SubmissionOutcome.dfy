// From a sealed candidate to its outcome: plan, journal and live run put together.
module SubmissionOutcome {
  import opened Basics
  import opened FileTree
  import opened Delivery
  import opened Integration
  import opened EventLog
  import opened Acceptance
  import opened RecoverySafety
  import opened Recovery
  import opened Convergence
  import opened Submission

  /** What is submitted: a delivery, artifacts, derived tasks and the move of the task. */
  datatype Parcel = Parcel(delivery: Setting, git: bool, message: string, artifacts: seq<Effect>,
                           children: seq<(string, Task)>, links: seq<string>, taskId: string, toState: string)
  {
    function Effects(): seq<Effect> {
      SubmissionEffects(delivery.plan, git, message, artifacts, children, links, taskId, toState)
    }

    /** The paths of the commit effect, when there is one. */
    function Committed(): seq<Path> {
      if git then Targets(delivery.plan) else []
    }
  }

  ghost predicate ArtifactsFresh(p: Parcel, site: Site) {
    forall e :: e in p.artifacts ==> e.Artifact? && ArtifactBefore(p.delivery.sealed, e, site.artifacts)
  }

  ghost predicate ContextOf(p: Parcel, site: Site, context: Context)
    requires p.taskId in site.tasks
  {
    && context.candidate.manifest == p.delivery.sealed && context.candidate.changes == p.delivery.changes
    && context.hidden == p.delivery.hidden && context.artifactPaths == p.delivery.artifacts
    && context.previous == Some(site.tasks[p.taskId].state) && context.base == Some(site.head)
    && context.intended
       == if p.Committed() == [] then None else IntendedTree(site.head.tree, p.delivery.sealed, p.Effects())
  }

  /** A journal of this parcel, not committed, on the stores the parcel was planned for. */
  ghost predicate Journalled(w: World, id: string, p: Parcel) {
    && p.delivery.Valid() && w.site.repo == p.delivery.repo
    && p.taskId in w.site.tasks && p.toState != "" && p.message != ""
    && ArtifactsApart(p.artifacts, p.taskId) && ArtifactsFresh(p, w.site)
    && ChildrenApart(p.children, p.taskId) && (forall c :: c in p.children ==> c.0 !in w.site.tasks)
    && id in w.journals
    && var j := w.journals[id];
    && j.status != Committed && j.taskId == Some(p.taskId) && j.transitionId.Some?
    && j.effects == p.Effects() && ContextOf(p, w.site, j.context)
    && Get(w.storage, j.context.candidate.id) == Some(p.delivery.sealed)
    && DistinctIds(j.events) && Ids(w.log) !! IdsOf(j.events)
    && JobOpen(w, j)
  }

  /** The tree of a commit that git makes of the delivered files. */
  ghost function MadeTree(p: Parcel, site: Site): GitTree {
    CommitTree(site.head.tree, Committable(p.Committed(), site.ignored), AfterImages(p.Effects(), p.delivery.sealed))
  }

  /** The head after the delivery: one commit, unless there is nothing git can see. */
  ghost function HeadAfter(p: Parcel, site: Site): Commit {
    if MadeTree(p, site) == site.head.tree then site.head else Commit(Some(site.head), MadeTree(p, site), p.message)
  }

  /** What is to last: the candidate's surface with everything ignored untouched, the artifacts and their
      links, the derived tasks, the moved task, the head, each event once, the journal committed and the job
      accepted. */
  ghost predicate Lasting(w0: World, id: string, p: Parcel, w: World)
    requires id in w0.journals
  {
    var j := w0.journals[id];
    && SameSurface(w.site.repo.files, p.delivery.sealed, p.delivery.hidden, p.delivery.artifacts)
    && (forall path :: path in p.delivery.hidden ==> Get(w.site.repo.files, path) == Get(w0.site.repo.files, path))
    && p.taskId in w.site.tasks && w.site.tasks[p.taskId].state == p.toState
    && (forall e :: e in p.artifacts ==>
          && e.Artifact? && ArtifactApplied(p.delivery.sealed, e, w.site.artifacts)
          && e.link in w.site.tasks[p.taskId].links)
    && (forall c :: c in p.children ==> Get(w.site.tasks, c.0) == Some(c.1))
    && w.site.head == HeadAfter(p, w0.site)
    && (forall day :: DayFile(w.log, day) == DayFile(w0.log, day) + OfDay(j.events, day))
    && id in w.journals && w.journals[id].status == Committed
    && j.context.jobId.Some? && j.context.jobId.value in w.jobs && w.jobs[j.context.jobId.value].status == Accepted
  }

  // ---------------------------------------------------------------- the effects

  lemma EffectsByKind(p: Parcel, e: Effect)
    requires ArtifactsApart(p.artifacts, p.taskId) && e in p.Effects()
    ensures match e
            case File(file) => file in p.delivery.plan
            case CommitChanges(message, paths) => message == p.message && paths == p.Committed() && paths != []
            case Artifact(_, _, _, _, _, _, _, _) => e in p.artifacts
            case CreateTask(id, task) => (id, task) in p.children
            case LinkDerived(parent, _) => parent == p.taskId
            case MoveTask(id, state) => id == p.taskId && state == p.toState
  {
    var files, creations := FileEffects(p.delivery.plan), Creations(p.children);
    if e in files {
    } else if e in p.artifacts {
    } else if e in creations {
      var i :| 0 <= i < |creations| && creations[i] == e;
      assert p.children[i] == (e.id, e.task);
    } else if e.CommitChanges? {
      assert |Targets(p.delivery.plan)| == |p.delivery.plan|;
    }
  }

  lemma {:induction false} ExpectedIsTheMove(taskId: string, toState: string, effects: seq<Effect>)
    requires forall e :: e in effects && e.MoveTask? ==> e == MoveTask(taskId, toState)
    requires MoveTask(taskId, toState) in effects
    ensures ExpectedState(taskId, effects) == toState
  {
    if !effects[0].MoveTask? {
      ExpectedIsTheMove(taskId, toState, effects[1..]);
    } else {
      assert effects[0] in effects;
    }
  }

  lemma MoveIsExpected(p: Parcel)
    requires ArtifactsApart(p.artifacts, p.taskId)
    ensures ExpectedState(p.taskId, p.Effects()) == p.toState
  {
    forall e | e in p.Effects() && e.MoveTask?
      ensures e == MoveTask(p.taskId, p.toState)
    {
      EffectsByKind(p, e);
    }
    assert MoveTask(p.taskId, p.toState) in p.Effects();
    ExpectedIsTheMove(p.taskId, p.toState, p.Effects());
  }

  lemma PromotionsOfThePlan(p: Parcel, q: Path)
    requires ArtifactsApart(p.artifacts, p.taskId)
    ensures PromotedBy(p.Effects(), q) <==> p.delivery.Promoted(|p.delivery.plan|, q)
  {
    var effects, plan := p.Effects(), p.delivery.plan;
    assert effects[..|plan|] == FileEffects(plan);
    if PromotedBy(effects, q) {
      var i :| 0 <= i < |effects| && effects[i].File? && effects[i].file.PromoteFile? && effects[i].file.target == q;
      assert effects[i] in effects;
      EffectsByKind(p, effects[i]);
      var k :| 0 <= k < |plan| && plan[k] == effects[i].file;
    }
    if p.delivery.Promoted(|plan|, q) {
      var i :| 0 <= i < |plan| && plan[i].PromoteFile? && plan[i].target == q;
      assert effects[i] == effects[..|plan|][i] == File(plan[i]);
    }
  }

  // ---------------------------------------------------------------- a live run, group by group

  lemma {:induction false} RunConcat(s: Site, sealed: map<Path, Image>, a: seq<Effect>, b: seq<Effect>)
    ensures RunLive(s, sealed, a + b)
            == if RunLive(s, sealed, a).None? then None else RunLive(RunLive(s, sealed, a).value, sealed, b)
  {
    if b == [] {
      assert a + b == a;
    } else {
      assert (a + b)[..|a + b| - 1] == a + b[..|b| - 1];
      RunConcat(s, sealed, a, b[..|b| - 1]);
    }
  }

  lemma RunOne(s: Site, sealed: map<Path, Image>, e: Effect)
    ensures RunLive(s, sealed, [e]) == Apply(s, sealed, e)
  {
    assert [e][..0] == [];
  }

  lemma {:induction false} RunFiles(s: Site, sealed: map<Path, Image>, plan: seq<FileEffect>)
    ensures RunLive(s, sealed, FileEffects(plan))
            == if Run(s.repo, sealed, plan).None? then None else Some(s.(repo := Run(s.repo, sealed, plan).value))
  {
    if plan != [] {
      var n := |plan| - 1;
      RunFiles(s, sealed, plan[..n]);
      assert FileEffects(plan)[..n] == FileEffects(plan[..n]);
    }
  }

  /** Only artifacts and the links of the task may differ. */
  ghost predicate OnlyLinked(s: Site, s': Site, taskId: string)
    requires taskId in s.tasks
  {
    && taskId in s'.tasks && s' == s.(artifacts := s'.artifacts, tasks := s.tasks[taskId := s'.tasks[taskId]])
    && s'.tasks[taskId].(links := []) == s.tasks[taskId].(links := [])
  }

  lemma {:induction false} RunArtifacts(s: Site, sealed: map<Path, Image>, artifacts: seq<Effect>, taskId: string)
    requires ArtifactsApart(artifacts, taskId) && taskId in s.tasks
    requires forall e :: e in artifacts ==> e.source in sealed
    ensures RunLive(s, sealed, artifacts).Some?
    ensures var s' := RunLive(s, sealed, artifacts).value;
            && OnlyLinked(s, s', taskId)
            && forall e :: e in artifacts ==>
               ArtifactApplied(sealed, e, s'.artifacts) && e.link in s'.tasks[taskId].links
  {
    if artifacts != [] {
      var init, last := artifacts[..|artifacts| - 1], artifacts[|artifacts| - 1];
      assert last in artifacts && artifacts == init + [last];
      RunArtifacts(s, sealed, init, taskId);
      var s' := RunLive(s, sealed, artifacts).value;
      forall e | e in artifacts
        ensures ArtifactApplied(sealed, e, s'.artifacts) && e.link in s'.tasks[taskId].links
      {
        var i :| 0 <= i < |artifacts| && artifacts[i] == e;
        if i < |init| {
          assert init[i] in init;
        }
      }
    }
  }

  /** The derived tasks are there, and no other task changed. */
  ghost predicate AllCreated(s: Site, s': Site, children: seq<(string, Task)>) {
    && s' == s.(tasks := s'.tasks)
    && (forall c :: c in children ==> Get(s'.tasks, c.0) == Some(c.1))
    && (forall id :: (forall c :: c in children ==> c.0 != id) ==> Get(s'.tasks, id) == Get(s.tasks, id))
  }

  lemma {:induction false} RunCreations(s: Site, sealed: map<Path, Image>, children: seq<(string, Task)>,
                                        taskId: string)
    requires ChildrenApart(children, taskId) && forall c :: c in children ==> c.0 !in s.tasks
    ensures RunLive(s, sealed, Creations(children)).Some?
    ensures AllCreated(s, RunLive(s, sealed, Creations(children)).value, children)
  {
    if children != [] {
      var init, last := children[..|children| - 1], children[|children| - 1];
      assert children == init + [last] && last in children;
      RunCreations(s, sealed, init, taskId);
      LastCreation(s, sealed, init, last);
      CreatesOneMore(s, RunLive(s, sealed, Creations(init)).value, init, last);
    }
  }

  lemma LastCreation(s: Site, sealed: map<Path, Image>, children: seq<(string, Task)>, last: (string, Task))
    ensures var before := RunLive(s, sealed, Creations(children));
            RunLive(s, sealed, Creations(children + [last]))
            == if before.None? then None else Apply(before.value, sealed, CreateTask(last.0, last.1))
  {
    assert Creations(children + [last])[..|children|] == Creations(children);
  }

  lemma CreatesOneMore(s: Site, s1: Site, children: seq<(string, Task)>, last: (string, Task))
    requires AllCreated(s, s1, children) && last.0 !in s.tasks && forall c :: c in children ==> c.0 != last.0
    ensures last.0 !in s1.tasks && AllCreated(s, s1.(tasks := s1.tasks[last.0 := last.1]), children + [last])
  {
    assert Get(s1.tasks, last.0) == Get(s.tasks, last.0);
    var s' := s1.(tasks := s1.tasks[last.0 := last.1]);
    assert forall c :: c in children + [last] <==> c in children || c == last;
    forall id | forall c :: c in children + [last] ==> c.0 != id
      ensures Get(s'.tasks, id) == Get(s.tasks, id)
    {
      assert last in children + [last] && Get(s1.tasks, id) == Get(s.tasks, id);
    }
  }

  /** The commit of a delivery, seen from the delivered tree. */
  ghost predicate CommitGoesThrough(p: Parcel, site: Site)
    requires Run(p.delivery.repo, p.delivery.sealed, p.delivery.plan).Some?
  {
    var files := Run(p.delivery.repo, p.delivery.sealed, p.delivery.plan).value.files;
    var tree, paths := site.head.tree, Committable(p.Committed(), site.ignored);
    paths == {} || (Addable(files, tree, paths)
        && (CommitTree(tree, paths, files) == tree ==> Clean(files, tree, site.ignored)))
  }

  function CommitPart(p: Parcel): seq<Effect> {
    if p.git && p.delivery.plan != [] then [CommitChanges(p.message, Targets(p.delivery.plan))] else []
  }

  /** The tail of the effects: derived tasks, their links, the move. */
  function TaskPart(p: Parcel): seq<Effect> {
    Creations(p.children)
    + ((if p.children != [] then [LinkDerived(p.taskId, p.links)] else []) + [MoveTask(p.taskId, p.toState)])
  }

  lemma EffectsInParts(p: Parcel)
    ensures p.Effects() == FileEffects(p.delivery.plan) + (CommitPart(p) + (p.artifacts + TaskPart(p)))
    ensures CommitPart(p) == [] <==> p.Committed() == []
  {
    assert |Targets(p.delivery.plan)| == |p.delivery.plan|;
  }

  lemma RunTaskPart(p: Parcel, s: Site, sealed: map<Path, Image>)
    requires ChildrenApart(p.children, p.taskId) && (forall c :: c in p.children ==> c.0 !in s.tasks)
              && p.taskId in s.tasks
    ensures RunLive(s, sealed, TaskPart(p)).Some?
    ensures var u := RunLive(s, sealed, TaskPart(p)).value;
            && u == s.(tasks := u.tasks)
            && (forall c :: c in p.children ==> Get(u.tasks, c.0) == Some(c.1))
            && p.taskId in u.tasks && u.tasks[p.taskId].state == p.toState
            && u.tasks[p.taskId].links == s.tasks[p.taskId].links
  {
    var link := if p.children != [] then [LinkDerived(p.taskId, p.links)] else [];
    var move := MoveTask(p.taskId, p.toState);
    RunCreations(s, sealed, p.children, p.taskId);
    var s1 := RunLive(s, sealed, Creations(p.children)).value;
    assert Get(s1.tasks, p.taskId) == Get(s.tasks, p.taskId);
    RunConcat(s, sealed, Creations(p.children), link + [move]);
    RunConcat(s1, sealed, link, [move]);
    RunLinks(p, s1, sealed, link);
    RunOne(RunLive(s1, sealed, link).value, sealed, move);
  }

  lemma RunLinks(p: Parcel, s: Site, sealed: map<Path, Image>, link: seq<Effect>)
    requires p.taskId in s.tasks && (link == [] || link == [LinkDerived(p.taskId, p.links)])
    ensures RunLive(s, sealed, link).Some?
    ensures var u := RunLive(s, sealed, link).value;
            && p.taskId in u.tasks && u == s.(tasks := s.tasks[p.taskId := u.tasks[p.taskId]])
            && u.tasks[p.taskId].links == s.tasks[p.taskId].links
  {
    if link != [] {
      RunOne(s, sealed, link[0]);
    } else {
      assert s.tasks[p.taskId := s.tasks[p.taskId]] == s.tasks;
    }
  }

  /** What the effects behind the files do. */
  lemma RunOthers(p: Parcel, s: Site, sealed: map<Path, Image>)
    requires ArtifactsApart(p.artifacts, p.taskId) && (forall e :: e in p.artifacts ==> e.source in sealed)
    requires ChildrenApart(p.children, p.taskId) && (forall c :: c in p.children ==> c.0 !in s.tasks)
              && p.taskId in s.tasks
    ensures RunLive(s, sealed, p.artifacts + TaskPart(p)).Some?
    ensures var u := RunLive(s, sealed, p.artifacts + TaskPart(p)).value;
            && u == s.(artifacts := u.artifacts, tasks := u.tasks)
            && p.taskId in u.tasks && u.tasks[p.taskId].state == p.toState
            && (forall e :: e in p.artifacts ==>
               ArtifactApplied(sealed, e, u.artifacts) && e.link in u.tasks[p.taskId].links)
            && (forall c :: c in p.children ==> Get(u.tasks, c.0) == Some(c.1))
  {
    RunArtifacts(s, sealed, p.artifacts, p.taskId);
    RunConcat(s, sealed, p.artifacts, TaskPart(p));
    RunTaskPart(p, RunLive(s, sealed, p.artifacts).value, sealed);
  }

  /** What the commit does. */
  lemma RunCommit(p: Parcel, s: Site, sealed: map<Path, Image>)
    requires p.message != ""
    ensures var paths := Committable(p.Committed(), s.ignored);
            var tree := CommitTree(s.head.tree, paths, s.repo.files);
            && (RunLive(s, sealed, CommitPart(p)).Some? <==>
                 paths == {} || (Addable(s.repo.files, s.head.tree, paths)
                                 && (tree == s.head.tree ==> Clean(s.repo.files, tree, s.ignored))))
            && (RunLive(s, sealed, CommitPart(p)).Some? ==>
                 RunLive(s, sealed, CommitPart(p))
                 == Some(s.(head := if tree == s.head.tree then s.head else Commit(Some(s.head), tree, p.message))))
  {
    EffectsInParts(p);
    NothingChanges(s.head.tree, s.repo.files);
    if CommitPart(p) == [] {
      assert Committable([], s.ignored) == {};
    } else {
      RunOne(s, sealed, CommitPart(p)[0]);
    }
  }

  lemma NothingChanges(tree: GitTree, files: map<Path, Image>)
    ensures CommitTree(tree, {}, files) == tree
  {
  }

  // ---------------------------------------------------------------- the live run

  lemma DeliveredFiles(p: Parcel, site: Site)
    requires p.delivery.Valid() && ArtifactsApart(p.artifacts, p.taskId)
    requires Run(p.delivery.repo, p.delivery.sealed, p.delivery.plan).Some?
    ensures var files := Run(p.delivery.repo, p.delivery.sealed, p.delivery.plan).value.files;
            var paths := Committable(p.Committed(), site.ignored);
            && CommitTree(site.head.tree, paths, files) == MadeTree(p, site)
            && (Addable(files, site.head.tree, paths)
                <==> Addable(AfterImages(p.Effects(), p.delivery.sealed), site.head.tree, paths))
  {
    var s := p.delivery;
    var t := Run(s.repo, s.sealed, s.plan).value;
    var paths, after := Committable(p.Committed(), site.ignored), AfterImages(p.Effects(), s.sealed);
    s.RunPrefix(|s.plan|);
    assert s.plan[..|s.plan|] == s.plan;
    forall q | q in paths
      ensures Get(t.files, q) == Get(after, q)
    {
      var i :| 0 <= i < |s.plan| && Targets(s.plan)[i] == q;
      s.PlanItem(i);
      PromotionsOfThePlan(p, q);
      assert Get(t.files, q) == s.Expected(|s.plan|, q);
      if s.Promoted(|s.plan|, q) {
        s.PromotedIsSealed(|s.plan|, q);
      } else {
        assert s.plan[i].DeleteFile? && s.Deleted(|s.plan|, q);
      }
    }
    SameCommit(site.head.tree, paths, t.files, after);
  }

  lemma SameCommit(tree: GitTree, paths: set<Path>, a: map<Path, Image>, b: map<Path, Image>)
    requires forall q :: q in paths ==> Get(a, q) == Get(b, q)
    ensures CommitTree(tree, paths, a) == CommitTree(tree, paths, b)
    ensures Addable(a, tree, paths) <==> Addable(b, tree, paths)
  {
    forall q
      ensures Get(CommitTree(tree, paths, a), q) == Get(CommitTree(tree, paths, b), q)
    {
      if q in paths {
        assert Get(a, q) == Get(b, q);
      }
    }
    SameGetIsSameMap(CommitTree(tree, paths, a), CommitTree(tree, paths, b));
    assert forall q :: q in paths ==> (q in a <==> Get(a, q).Some?) && (q in b <==> Get(b, q).Some?);
  }

  /** The effects of a parcel go through exactly when its files and its commit do, and then all of it is there. */
  lemma EffectsGoThroughIff(w: World, id: string, p: Parcel)
    requires Journalled(w, id, p)
    ensures RunLive(w.site, p.delivery.sealed, p.Effects()).Some? <==>
            && Run(p.delivery.repo, p.delivery.sealed, p.delivery.plan).Some? && CommitGoesThrough(p, w.site)
    ensures RunLive(w.site, p.delivery.sealed, p.Effects()).Some? ==>
              Delivered(p, w.site, RunLive(w.site, p.delivery.sealed, p.Effects()).value)
  {
    var s, sealed := p.delivery, p.delivery.sealed;
    EffectsInParts(p);
    RunConcat(w.site, sealed, FileEffects(s.plan), CommitPart(p) + (p.artifacts + TaskPart(p)));
    RunFiles(w.site, sealed, s.plan);
    if Run(s.repo, sealed, s.plan).Some? {
      var s1 := w.site.(repo := Run(s.repo, sealed, s.plan).value);
      RunConcat(s1, sealed, CommitPart(p), p.artifacts + TaskPart(p));
      RunCommit(p, s1, sealed);
      DeliveredFiles(p, w.site);
      if CommitGoesThrough(p, w.site) {
        var s2 := RunLive(s1, sealed, CommitPart(p)).value;
        RunOthers(p, s2, sealed);
      }
    }
  }

  /** The stores after a live run. */
  ghost predicate Delivered(p: Parcel, site: Site, u: Site) {
    && Run(p.delivery.repo, p.delivery.sealed, p.delivery.plan) == Some(u.repo)
    && u.head == HeadAfter(p, site)
    && p.taskId in u.tasks && u.tasks[p.taskId].state == p.toState
    && (forall e :: e in p.artifacts ==>
          && e.Artifact? && ArtifactApplied(p.delivery.sealed, e, u.artifacts) && e.link in u.tasks[p.taskId].links)
    && (forall c :: c in p.children ==> Get(u.tasks, c.0) == Some(c.1))
  }

  /** The final check passes exactly when no mode difference was invisible to the delta. */
  lemma FinalCheckIff(w: World, id: string, p: Parcel, u: Site)
    requires Journalled(w, id, p) && Delivered(p, w.site, u)
    ensures FinalValid(u, p.delivery.sealed, p.taskId, p.toState, w.journals[id].context) <==> p.delivery.ModesAgree()
    ensures p.delivery.ModesAgree() ==>
              SameSurface(u.repo.files, p.delivery.sealed, p.delivery.hidden, p.delivery.artifacts)
    ensures forall path :: path in p.delivery.hidden ==> Get(u.repo.files, path) == Get(w.site.repo.files, path)
  {
    var s := p.delivery;
    s.DeliveryReachesTheCandidate();
    if s.ModesAgree() {
      BaselineHidesNothing(s);
      SameSurfacePassesEveryChange(u.repo.files, s.sealed, s.changes, s.before, s.after, s.hidden, s.artifacts);
    }
  }

  lemma BaselineHidesNothing(s: Setting)
    requires s.Valid()
    ensures s.before.Keys !! s.hidden
  {
    forall path | path in s.before
      ensures path !in s.hidden
    {
      s.BaselineIsVisible(path);
    }
  }

  /** A live run succeeds if and only if nothing is in the way of a delivered file, no mode difference was
      invisible to the delta, and git takes the commit. */
  lemma LiveRunSucceedsIff(w: World, id: string, p: Parcel)
    requires Journalled(w, id, p)
    ensures LiveRun(w, id, NoCut).Some? <==>
            && p.delivery.Unobstructed() && p.delivery.ModesAgree()
            && Run(p.delivery.repo, p.delivery.sealed, p.delivery.plan).Some? && CommitGoesThrough(p, w.site)
  {
    MoveIsExpected(p);
    p.delivery.DeliveryGoesThroughIffUnobstructed();
    EffectsGoThroughIff(w, id, p);
    var end := RunLive(w.site, p.delivery.sealed, p.Effects());
    if end.Some? {
      FinalCheckIff(w, id, p, end.value);
    }
  }

  /** And then its outcome is the one that is to last. */
  lemma LiveRunLasts(w: World, id: string, p: Parcel)
    requires Journalled(w, id, p) && LiveRun(w, id, NoCut).Some?
    ensures Lasting(w, id, p, LiveRun(w, id, NoCut).value)
  {
    MoveIsExpected(p);
    EffectsGoThroughIff(w, id, p);
    var u := RunLive(w.site, p.delivery.sealed, p.Effects()).value;
    FinalCheckIff(w, id, p, u);
    RunsLive(w, id, NoCut, u);
    CompleteBatch(w.log, w.journals[id].events);
  }

  /** A complete write of a new batch adds every event once, in order, to its day. */
  lemma CompleteBatch(log: Log, batch: seq<Event>)
    requires DistinctIds(batch) && Ids(log) !! IdsOf(batch)
    ensures forall day :: DayFile(AppendMany(log, batch), day) == DayFile(log, day) + OfDay(batch, day)
  {
    assert forall day :: DayFile(log, day)[|DayFile(log, day)|..] == [];
    ExtendsContinues(log, batch, log, 0);
  }
}
