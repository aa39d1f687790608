// What crashes do to a submission: the exact condition under which its outcome survives all of them, and
// what recovery makes of a submission that was refused half way.
module CrashOutcome {
  import opened Basics
  import opened FileTree
  import opened Delivery
  import opened Integration
  import opened EventLog
  import opened Acceptance
  import opened RecoverySafety
  import opened Recovery
  import opened Convergence
  import opened Submission
  import opened SubmissionOutcome

  // ---------------------------------------------------------------- the condition

  /** The tree the journal recorded is the one git makes, and git sees a difference. */
  ghost predicate CommitProvable(p: Parcel, site: Site) {
    p.Committed() != [] ==>
      && IntendedTree(site.head.tree, p.delivery.sealed, p.Effects()) == Some(MadeTree(p, site))
      && MadeTree(p, site) != site.head.tree
  }

  /** An artifact that is already there is already linked. */
  ghost predicate ArtifactsLinked(p: Parcel, site: Site)
    requires p.taskId in site.tasks
  {
    forall e :: e in p.artifacts && e.Artifact? && ArtifactApplied(p.delivery.sealed, e, site.artifacts) ==>
      e.link in site.tasks[p.taskId].links
  }

  /** The caller's check before submitting. */
  ghost predicate CrashSafe(p: Parcel, site: Site)
    requires p.taskId in site.tasks
  {
    KeepsKinds(p.delivery) && CommitProvable(p, site) && ArtifactsLinked(p, site)
  }

  /** A crash of the live run, any number of interrupted recoveries and one that runs to its end leave the
      lasting outcome. */
  ghost predicate Survives(w0: World, id: string, p: Parcel, crash: Cut, cuts: seq<Cut>)
    requires id in w0.journals && w0.journals[id].taskId.Some?
  {
    var start := LiveRun(w0, id, crash);
    && start.Some? && id in start.value.journals
    && Lasting(w0, id, p, RecoverRecord(RecoverMany(start.value, id, cuts), id, NoCut).0)
  }

  // ---------------------------------------------------------------- the condition suffices

  lemma CommitIsProvable(w: World, id: string, p: Parcel, e: Effect)
    requires Journalled(w, id, p) && CommitProvable(p, w.site) && LiveRun(w, id, NoCut).Some?
    requires e in p.Effects() && e.CommitChanges?
    ensures ProvableCommit(e, p.Effects(), p.delivery.sealed, w.journals[id].context, w.site.ignored)
  {
    EffectsByKind(p, e);
    LiveRunSucceedsIff(w, id, p);
    DeliveredFiles(p, w.site);
    NothingChanges(w.site.head.tree, AfterImages(p.Effects(), p.delivery.sealed));
  }

  lemma EffectsAreFresh(w: World, id: string, p: Parcel, e: Effect)
    requires Journalled(w, id, p) && KeepsKinds(p.delivery) && ArtifactsLinked(p, w.site) && e in p.Effects()
    ensures EffectFresh(w.site, p.delivery.sealed, w.journals[id].context, p.taskId, e)
  {
    EffectsByKind(p, e);
    if e.File? {
      var i :| 0 <= i < |p.delivery.plan| && p.delivery.plan[i] == e.file;
      PlannedFileIsFresh(p.delivery, w.journals[id].context, w.site, p.taskId, i);
    }
  }

  /** A journalled parcel that is safe satisfies everything recovery relies on. */
  lemma SafeIsJustPrepared(w: World, id: string, p: Parcel)
    requires Journalled(w, id, p) && CrashSafe(p, w.site) && LiveRun(w, id, NoCut).Some?
    ensures JustPrepared(w, id)
  {
    var j, s := w.journals[id], p.delivery;
    SubmissionIsOrderly(s, p.git, p.message, p.artifacts, p.children, p.links, p.taskId, p.toState);
    forall e | e in j.effects
      ensures EffectFresh(w.site, s.sealed, j.context, p.taskId, e)
      ensures e.CommitChanges? ==> ProvableCommit(e, j.effects, s.sealed, j.context, w.site.ignored)
    {
      EffectsAreFresh(w, id, p, e);
      if e.CommitChanges? {
        CommitIsProvable(w, id, p, e);
      }
    }
    MoveIsExpected(p);
  }

  lemma ReachedIsLasting(w0: World, id: string, p: Parcel, w: World)
    requires Journalled(w0, id, p) && JustPrepared(w0, id) && LiveRun(w0, id, NoCut).Some? && Reached(w0, id, w)
    ensures Lasting(w0, id, p, w)
  {
    LiveRunLasts(w0, id, p);
    var done := LiveRun(w0, id, NoCut).value;
    forall c | c in p.children
      ensures Get(w.site.tasks, c.0) == Some(c.1)
    {
      assert c.0 != p.taskId && c.0 in done.site.tasks;
    }
  }

  /** A safe submission is delivered whole, however it crashes and however often its recovery is interrupted:
      the first recovery that runs to its end leaves the lasting outcome, and no later one changes anything. */
  lemma SubmissionSurvivesCrashes(w0: World, id: string, p: Parcel, crash: Cut, cuts: seq<Cut>)
    requires Journalled(w0, id, p) && CrashSafe(p, w0.site) && LiveRun(w0, id, NoCut).Some?
    requires crash != NoCut && NoCut !in cuts
    ensures Survives(w0, id, p, crash, cuts)
    ensures var w := RecoverRecord(RecoverMany(LiveRun(w0, id, crash).value, id, cuts), id, NoCut).0;
            forall more :: RecoverMany(w, id, more) == w
  {
    SafeIsJustPrepared(w0, id, p);
    CrashedAcceptanceConverges(w0, id, crash, cuts);
    ReachedIsLasting(w0, id, p, RecoverRecord(RecoverMany(LiveRun(w0, id, crash).value, id, cuts), id, NoCut).0);
  }

  // ---------------------------------------------------------------- the condition is necessary

  /** What a crash after `k` effects leaves. */
  ghost function Crashed(w0: World, id: string, k: nat): World
    requires id in w0.journals && k <= |w0.journals[id].effects|
  {
    var site := RunLive(w0.site, w0.journals[id].context.candidate.manifest, w0.journals[id].effects[..k]);
    if site.Some? then w0.(site := site.value) else w0
  }

  lemma PrefixGoesThrough(s: Site, sealed: map<Path, Image>, effects: seq<Effect>, k: nat)
    requires RunLive(s, sealed, effects).Some? && k <= |effects|
    ensures RunLive(s, sealed, effects[..k]).Some?
  {
    assert effects[..k] + effects[k..] == effects;
    RunConcat(s, sealed, effects[..k], effects[k..]);
  }

  lemma CrashedIsTheCut(w0: World, id: string, p: Parcel, k: nat)
    requires Journalled(w0, id, p) && LiveRun(w0, id, NoCut).Some? && k <= |p.Effects()|
    ensures LiveRun(w0, id, AfterEffects(k)) == Some(Crashed(w0, id, k))
  {
    var effects := p.Effects();
    PrefixGoesThrough(w0.site, p.delivery.sealed, effects, k);
    assert effects[..|effects|] == effects;
    assert UpTo(effects, k) == effects[..k];
  }

  lemma SurvivesTheCut(w0: World, id: string, p: Parcel, k: nat)
    requires Journalled(w0, id, p) && LiveRun(w0, id, NoCut).Some? && k <= |p.Effects()|
    ensures Survives(w0, id, p, AfterEffects(k), []) <==>
            Lasting(w0, id, p, RecoverRecord(Crashed(w0, id, k), id, NoCut).0)
  {
    CrashedIsTheCut(w0, id, p, k);
  }

  /** A journal whose first verdict is not clear stays as it is, and so does its job. */
  lemma StoppedIsNotLasting(w0: World, id: string, p: Parcel, w: World, e: Effect)
    requires Journalled(w0, id, p) && w == w0.(site := w.site) && e in p.Effects()
    requires EffectVerdict(w.site, p.delivery.sealed, w0.journals[id].context, e) != Clear
    ensures RecoverRecord(w, id, NoCut).0 == w && !Lasting(w0, id, p, w)
  {
  }

  lemma FilledDirectoryStops(w0: World, id: string, p: Parcel, q: Path)
    requires Journalled(w0, id, p) && !FillsNoDirectory(p.delivery, q)
    ensures RecoverRecord(Crashed(w0, id, 0), id, NoCut).0 == w0 && !Lasting(w0, id, p, w0)
  {
    assert p.Effects()[..0] == [];
    var i := DirectoryToFileConflicts(p.delivery, q);
    PlannedIsEffect(p, i);
    StoppedIsNotLasting(w0, id, p, w0, File(p.delivery.plan[i]));
  }

  lemma PlannedIsEffect(p: Parcel, i: nat)
    requires i < |p.delivery.plan|
    ensures File(p.delivery.plan[i]) in p.Effects()
  {
    EffectsInParts(p);
    assert FileEffects(p.delivery.plan)[i] in FileEffects(p.delivery.plan);
  }

  lemma FilesDone(w0: World, id: string, p: Parcel)
    requires Journalled(w0, id, p) && Run(p.delivery.repo, p.delivery.sealed, p.delivery.plan).Some?
    ensures |p.delivery.plan| <= |p.Effects()| && p.Effects()[..|p.delivery.plan|] == FileEffects(p.delivery.plan)
    ensures Crashed(w0, id, |p.delivery.plan|)
            == w0.(site := w0.site.(repo := Run(p.delivery.repo, p.delivery.sealed, p.delivery.plan).value))
  {
    EffectsInParts(p);
    assert p.Effects()[..|p.delivery.plan|] == FileEffects(p.delivery.plan);
    RunFiles(w0.site, p.delivery.sealed, p.delivery.plan);
  }

  lemma ReplacedFileStops(w0: World, id: string, p: Parcel, q: Path, r: Path)
    requires Journalled(w0, id, p) && LiveRun(w0, id, NoCut).Some? && !ReplacesNoFile(p.delivery, q, r)
    ensures |p.delivery.plan| <= |p.Effects()|
    ensures var w := Crashed(w0, id, |p.delivery.plan|); RecoverRecord(w, id, NoCut).0 == w && !Lasting(w0, id, p, w)
  {
    LiveRunSucceedsIff(w0, id, p);
    FilesDone(w0, id, p);
    var i := FileToDirectoryRaises(p.delivery, q, r);
    PlannedIsEffect(p, i);
    StoppedIsNotLasting(w0, id, p, Crashed(w0, id, |p.delivery.plan|), File(p.delivery.plan[i]));
  }

  /** The artifact is there, its link is not. */
  predicate Unlinked(p: Parcel, e: Effect, s: Site)
    requires e.Artifact?
  {
    && ArtifactApplied(p.delivery.sealed, e, s.artifacts)
    && p.taskId in s.tasks && e.link !in s.tasks[p.taskId].links
  }

  /** An artifact that is there from the start is skipped by the replay, and its link with it. */
  lemma {:induction false} SkippedLinkStaysOut(p: Parcel, site: Site, context: Context, m: nat, k: nat)
    requires ArtifactsApart(p.artifacts, p.taskId) && ChildrenApart(p.children, p.taskId)
    requires m < |p.artifacts| && k <= |p.Effects()| && Unlinked(p, p.artifacts[m], site)
    ensures Unlinked(p, p.artifacts[m], RunReplay(site, p.delivery.sealed, context, p.Effects()[..k]).0)
    decreases k
  {
    var effects := p.Effects();
    if k == 0 {
      assert effects[..0] == [];
    } else {
      SkippedLinkStaysOut(p, site, context, m, k - 1);
      ReplayUnfolds(site, p.delivery.sealed, context, effects, k - 1);
      assert effects[k - 1] in effects;
      EffectsByKind(p, effects[k - 1]);
      EffectSkipsLink(p, context, RunReplay(site, p.delivery.sealed, context, effects[..k - 1]).0, m, effects[k - 1]);
    }
  }

  lemma EffectSkipsLink(p: Parcel, context: Context, s: Site, m: nat, e: Effect)
    requires ArtifactsApart(p.artifacts, p.taskId) && ChildrenApart(p.children, p.taskId)
    requires m < |p.artifacts| && Unlinked(p, p.artifacts[m], s)
    requires e.Artifact? ==> e in p.artifacts
    requires e.CreateTask? ==> (e.id, e.task) in p.children
    ensures var s' := Replay(s, p.delivery.sealed, context, e); s'.Some? ==> Unlinked(p, p.artifacts[m], s'.value)
  {
    if e.Artifact? {
      var i :| 0 <= i < |p.artifacts| && p.artifacts[i] == e;
      if i != m {
        assert p.artifacts[i].target != p.artifacts[m].target && p.artifacts[i].link != p.artifacts[m].link;
      }
    }
  }

  lemma UnlinkedArtifactIsLost(w0: World, id: string, p: Parcel, e: Effect)
    requires Journalled(w0, id, p) && e in p.artifacts && ArtifactApplied(p.delivery.sealed, e, w0.site.artifacts)
    requires e.link !in w0.site.tasks[p.taskId].links
    ensures !Lasting(w0, id, p, RecoverRecord(w0, id, NoCut).0)
  {
    var m :| 0 <= m < |p.artifacts| && p.artifacts[m] == e;
    var n := |p.Effects()|;
    SkippedLinkStaysOut(p, w0.site, w0.journals[id].context, m, n);
    assert p.Effects()[..n] == p.Effects();
    RecoveredSite(w0, id);
  }

  lemma RecoveredSite(w: World, id: string)
    requires id in w.journals && w.journals[id].status != Committed
    ensures var j, s := w.journals[id], RecoverRecord(w, id, NoCut).0.site;
            s == w.site || s == RunReplay(w.site, j.context.candidate.manifest, j.context, j.effects).0
  {
  }

  /** The head may move to the commit git makes of the delivered files. */
  ghost predicate HeadMoves(p: Parcel, site: Site, head: Commit) {
    head == site.head || (head == HeadAfter(p, site) && MadeTree(p, site) != site.head.tree)
  }

  lemma {:induction false} HeadBeforeCommit(site: Site, sealed: map<Path, Image>, context: Context,
                                            effects: seq<Effect>)
    requires forall e :: e in effects ==> e.File?
    ensures RunReplay(site, sealed, context, effects).0.head == site.head
  {
    if effects != [] {
      HeadBeforeCommit(site, sealed, context, effects[..|effects| - 1]);
    }
  }

  /** The replay has delivered the files of the plan, and nothing else. */
  ghost predicate FilesDelivered(p: Parcel, site: Site, s: Site) {
    && Run(p.delivery.repo, p.delivery.sealed, p.delivery.plan) == Some(s.repo)
    && s.head == site.head && s.ignored == site.ignored
  }

  /** The head after a replay of the first `k` effects. */
  ghost predicate HeadAt(p: Parcel, site: Site, context: Context, k: nat)
    requires k <= |p.Effects()|
  {
    HeadMoves(p, site, RunReplay(site, p.delivery.sealed, context, p.Effects()[..k]).0.head)
  }

  /** Whenever the files are delivered, the commit moves the head as it should. */
  lemma CommitHead(p: Parcel, site: Site, context: Context, s: Site)
    requires p.delivery.Valid() && ArtifactsApart(p.artifacts, p.taskId)
    requires context.base == Some(site.head) && FilesDelivered(p, site, s)
    ensures CommitMoves(p, site, context, s)
  {
    DeliveredFiles(p, site);
  }

  ghost predicate CommitMoves(p: Parcel, site: Site, context: Context, s: Site) {
    var next := Replay(s, p.delivery.sealed, context, CommitChanges(p.message, p.Committed()));
    next.Some? ==> HeadMoves(p, site, next.value.head)
  }

  /** The head a replay leaves once it is behind the files. */
  lemma {:induction false} ReplayedHead(p: Parcel, site: Site, context: Context, k: nat)
    requires ArtifactsApart(p.artifacts, p.taskId) && |p.delivery.plan| <= k <= |p.Effects()|
    requires HeadAt(p, site, context, |p.delivery.plan|)
    requires CommitMoves(p, site, context,
              RunReplay(site, p.delivery.sealed, context, p.Effects()[..|p.delivery.plan|]).0)
    ensures HeadAt(p, site, context, k)
    decreases k
  {
    if k > |p.delivery.plan| {
      ReplayedHead(p, site, context, k - 1);
      HeadStep(p, site, context, k - 1);
    }
  }

  lemma HeadStep(p: Parcel, site: Site, context: Context, k: nat)
    requires ArtifactsApart(p.artifacts, p.taskId) && k < |p.Effects()| && HeadAt(p, site, context, k)
    requires k == |p.delivery.plan| ==>
               CommitMoves(p, site, context, RunReplay(site, p.delivery.sealed, context, p.Effects()[..k]).0)
    ensures HeadAt(p, site, context, k + 1)
  {
    var effects, sealed := p.Effects(), p.delivery.sealed;
    ReplayUnfolds(site, sealed, context, effects, k);
    EffectPieces(p, k);
    if !effects[k].CommitChanges? {
      OtherHead(RunReplay(site, sealed, context, effects[..k]).0, sealed, context, effects[k]);
    }
  }

  lemma ReplayUnfolds(site: Site, sealed: map<Path, Image>, context: Context, effects: seq<Effect>, k: nat)
    requires k < |effects|
    ensures var (before, after) := (RunReplay(site, sealed, context, effects[..k]),
              RunReplay(site, sealed, context, effects[..k + 1]));
            var next := Replay(before.0, sealed, context, effects[k]);
            after.0 == if before.1 && next.Some? then next.value else before.0
  {
    assert effects[..k + 1][..k] == effects[..k] && effects[..k + 1][k] == effects[k];
  }

  lemma OtherHead(s: Site, sealed: map<Path, Image>, context: Context, e: Effect)
    requires !e.CommitChanges?
    ensures var next := Replay(s, sealed, context, e); next.Some? ==> next.value.head == s.head
  {
  }

  lemma RecoveredHead(w0: World, id: string, p: Parcel)
    requires Journalled(w0, id, p) && KeepsKinds(p.delivery) && ArtifactsLinked(p, w0.site)
    requires Run(p.delivery.repo, p.delivery.sealed, p.delivery.plan).Some?
    ensures HeadMoves(p, w0.site, RunReplay(w0.site, p.delivery.sealed, w0.journals[id].context, p.Effects()).0.head)
  {
    var files := p.Effects()[..|p.delivery.plan|];
    FilesDone(w0, id, p);
    FilesReplayed(w0, id, p);
    assert forall e :: e in files ==> e.File?;
    HeadBeforeCommit(w0.site, p.delivery.sealed, w0.journals[id].context, files);
    assert p.Effects()[..|p.Effects()|] == p.Effects();
    CommitHead(p, w0.site, w0.journals[id].context,
               RunReplay(w0.site, p.delivery.sealed, w0.journals[id].context, files).0);
    ReplayedHead(p, w0.site, w0.journals[id].context, |p.Effects()|);
  }

  /** Which effect is where: a file, the commit, or something behind it. */
  lemma EffectPieces(p: Parcel, k: nat)
    requires ArtifactsApart(p.artifacts, p.taskId) && k < |p.Effects()|
    ensures p.Effects()[k].CommitChanges? ==>
              k == |p.delivery.plan| && p.Effects()[k] == CommitChanges(p.message, p.Committed()) && p.Committed() != []
    ensures k < |p.delivery.plan| ==> p.Effects()[k] == File(p.delivery.plan[k])
  {
    var plan, commit, rest := p.delivery.plan, CommitPart(p), p.artifacts + TaskPart(p);
    EffectsInParts(p);
    assert p.Effects()[k] == if k < |plan| then FileEffects(plan)[k]
                             else if k < |plan| + |commit| then commit[k - |plan|] else rest[k - |plan| - |commit|];
    if k >= |plan| + |commit| {
      assert p.Effects()[k] in rest;
      NoCommitBehind(p, p.Effects()[k]);
    }
  }

  lemma NoCommitBehind(p: Parcel, e: Effect)
    requires ArtifactsApart(p.artifacts, p.taskId) && e in p.artifacts + TaskPart(p)
    ensures !e.CommitChanges?
  {
    if e !in p.artifacts && e !in Creations(p.children) {
      assert e == MoveTask(p.taskId, p.toState) || e == LinkDerived(p.taskId, p.links);
    }
  }

  /** The replay of the files alone meets the live run. */
  lemma FilesReplayed(w0: World, id: string, p: Parcel)
    requires Journalled(w0, id, p) && KeepsKinds(p.delivery) && ArtifactsLinked(p, w0.site)
    requires Run(p.delivery.repo, p.delivery.sealed, p.delivery.plan).Some?
    ensures |p.delivery.plan| <= |p.Effects()|
    ensures var s := RunReplay(w0.site, p.delivery.sealed, w0.journals[id].context, p.Effects()[..|p.delivery.plan|]).0;
            s.repo == Run(p.delivery.repo, p.delivery.sealed, p.delivery.plan).value && s.ignored == w0.site.ignored
  {
    var s, n, context := p.delivery, |p.delivery.plan|, w0.journals[id].context;
    FilesDone(w0, id, p);
    SubmissionIsOrderly(s, p.git, p.message, p.artifacts, p.children, p.links, p.taskId, p.toState);
    forall i | 0 <= i < |p.Effects()|
      ensures EffectFresh(w0.site, s.sealed, context, p.taskId, p.Effects()[i])
      ensures i < n ==> p.Effects()[i].File?
      ensures i >= n ==> !p.Effects()[i].File?
    {
      assert p.Effects()[i] in p.Effects();
      EffectsAreFresh(w0, id, p, p.Effects()[i]);
      FileOrNot(p, i);
    }
    StartIsComparable(p.Effects(), p.taskId, s.sealed, context, w0.site);
    Simulate(p.Effects(), p.taskId, s.sealed, context, n, w0.site, w0.site);
    RunFiles(w0.site, s.sealed, s.plan);
    ReposMeet(p.Effects(), s.sealed, n, RunLive(w0.site, s.sealed, p.Effects()[..n]).value.repo,
              RunReplay(w0.site, s.sealed, context, p.Effects()[..n]).0.repo);
  }

  lemma FileOrNot(p: Parcel, i: nat)
    requires ArtifactsApart(p.artifacts, p.taskId) && i < |p.Effects()|
    ensures p.Effects()[i].File? <==> i < |p.delivery.plan|
  {
    FilesComeFirst(p.delivery.plan, p.git, p.message, p.artifacts, p.children, p.links, p.taskId, p.toState);
    OthersAreNoFiles(p.delivery.plan, p.git, p.message, p.artifacts, p.children, p.links, p.taskId, p.toState);
    var others := OtherEffects(p.delivery.plan, p.git, p.message, p.artifacts, p.children, p.links, p.taskId,
        p.toState);
    if i >= |p.delivery.plan| {
      assert p.Effects()[i] == others[i - |p.delivery.plan|];
      assert p.Effects()[i] in others;
    } else {
      assert p.Effects()[i] == FileEffects(p.delivery.plan)[i];
    }
  }

  /** Recovery accepts on proof only, so where it accepts the commit was provable. */
  lemma AcceptedIsProvable(w0: World, id: string, p: Parcel)
    requires Journalled(w0, id, p) && KeepsKinds(p.delivery) && ArtifactsLinked(p, w0.site)
    requires LiveRun(w0, id, NoCut).Some? && Lasting(w0, id, p, RecoverRecord(w0, id, NoCut).0)
    ensures CommitProvable(p, w0.site)
  {
    var w' := RecoverRecord(w0, id, NoCut).0;
    LiveRunSucceedsIff(w0, id, p);
    RecoveredHead(w0, id, p);
    RecoveredSite(w0, id);
    HasCommit(p);
    AcceptedOnlyWhenProven(w0, id, NoCut, w0.journals[id].context.jobId.value);
    RecordKeepsJournals(w0, id, NoCut);
    if p.Committed() != [] {
      assert CommitExists(w'.site, w0.journals[id].context, CommitMessage(p.Effects()).value);
    }
  }

  lemma HasCommit(p: Parcel)
    ensures p.Committed() != [] ==> CommitMessage(p.Effects()).Some?
  {
    EffectsInParts(p);
    if p.Committed() != [] {
      assert CommitPart(p)[0] in p.Effects();
    }
  }

  /** An unsafe submission is lost by one crash, at its start or behind its files, and one recovery. */
  lemma UnsafeIsLost(w0: World, id: string, p: Parcel) returns (k: nat)
    requires Journalled(w0, id, p) && LiveRun(w0, id, NoCut).Some? && !CrashSafe(p, w0.site)
    ensures (k == 0 || k == |p.delivery.plan|) && k <= |p.Effects()|
    ensures !Lasting(w0, id, p, RecoverRecord(Crashed(w0, id, k), id, NoCut).0)
  {
    k := 0;
    assert p.Effects()[..0] == [] && Crashed(w0, id, 0) == w0;
    if q :| !FillsNoDirectory(p.delivery, q) {
      FilledDirectoryStops(w0, id, p, q);
    } else if q, r :| !ReplacesNoFile(p.delivery, q, r) {
      k := |p.delivery.plan|;
      ReplacedFileStops(w0, id, p, q, r);
    } else if !ArtifactsLinked(p, w0.site) {
      var e :| e in p.artifacts && e.Artifact? && ArtifactApplied(p.delivery.sealed, e, w0.site.artifacts)
               && e.link !in w0.site.tasks[p.taskId].links;
      UnlinkedArtifactIsLost(w0, id, p, e);
    } else if Lasting(w0, id, p, RecoverRecord(w0, id, NoCut).0) {
      AcceptedIsProvable(w0, id, p);
    }
  }

  // ---------------------------------------------------------------- the theorems

  /** A submission that would go through survives every crash and every interrupted recovery if and only if
      it is safe: it keeps kinds, its commit can be proven, and artifacts that are there are linked. */
  lemma SubmissionSurvivesIffSafe(w0: World, id: string, p: Parcel)
    requires Journalled(w0, id, p) && LiveRun(w0, id, NoCut).Some?
    ensures (forall crash, cuts :: crash != NoCut && NoCut !in cuts ==> Survives(w0, id, p, crash, cuts))
            <==> CrashSafe(p, w0.site)
  {
    if CrashSafe(p, w0.site) {
      forall crash, cuts | crash != NoCut && NoCut !in cuts
        ensures Survives(w0, id, p, crash, cuts)
      {
        SubmissionSurvivesCrashes(w0, id, p, crash, cuts);
      }
    } else {
      var k := UnsafeIsLost(w0, id, p);
      SurvivesTheCut(w0, id, p, k);
      assert !Survives(w0, id, p, AfterEffects(k), []);
    }
  }

  /** The submission is refused at effect `k`, before any artifact: the journal is abandoned and the job
      fails. There is nothing to compensate. */
  ghost function Refused(w0: World, id: string, k: nat): World
    requires id in w0.journals && k <= |w0.journals[id].effects| && JobOpen(w0, w0.journals[id])
  {
    var jobId := w0.journals[id].context.jobId.value;
    Crashed(w0, id, k).(journals := w0.journals[id := w0.journals[id].(status := Abandoned)],
                        jobs := w0.jobs[jobId := w0.jobs[jobId].(status := Failed)])
  }

  lemma RefusedIsJournalled(w0: World, id: string, p: Parcel)
    requires Journalled(w0, id, p) && LiveRun(w0, id, NoCut).Some?
    ensures var w1 := Refused(w0, id, 0);
            Journalled(w1, id, p) && w1.site == w0.site && LiveRun(w1, id, NoCut).Some?
  {
    assert p.Effects()[..0] == [];
    var w1 := Refused(w0, id, 0);
    assert Crashed(w0, id, 0) == w0;
    LiveRunSucceedsIff(w0, id, p);
    LiveRunSucceedsIff(w1, id, p);
  }

  lemma RefusedIsACrash(w0: World, id: string, p: Parcel, k: nat)
    requires Journalled(w0, id, p) && k <= |p.Effects()|
    ensures var w1 := Refused(w0, id, 0);
            Refused(w0, id, k) == Crashed(w1, id, k) && forall w :: Lasting(w1, id, p, w) <==> Lasting(w0, id, p, w)
  {
    assert p.Effects()[..0] == [];
    assert Crashed(w0, id, 0) == w0;
  }

  /** The submission was refused at effect `k`, its journal abandoned and its job failed; one recovery turns
      this into the lasting outcome, the job accepted. */
  ghost predicate Revived(w0: World, id: string, p: Parcel, k: nat)
    requires Journalled(w0, id, p)
  {
    && k <= |p.Effects()|
    && var w, jobId := Refused(w0, id, k), w0.journals[id].context.jobId.value;
    && w.journals[id].status == Abandoned && w.jobs[jobId].status == Failed
    && Lasting(w0, id, p, RecoverRecord(w, id, NoCut).0) && RecoverRecord(w, id, NoCut).0.jobs[jobId].status == Accepted
  }

  /** Recovery has no status filter: a submission whose refusal was passing, wherever it was refused before its
      artifacts, is rolled forward after it failed, if and only if it is safe. */
  lemma RefusedIsRolledForwardIffSafe(w0: World, id: string, p: Parcel)
    requires Journalled(w0, id, p) && LiveRun(w0, id, NoCut).Some?
    ensures (forall k :: 0 <= k <= |p.delivery.plan| + |CommitPart(p)| ==> Revived(w0, id, p, k))
            <==> CrashSafe(p, w0.site)
  {
    EffectsInParts(p);
    var n := |p.delivery.plan| + |CommitPart(p)|;
    var w1 := Refused(w0, id, 0);
    RefusedIsJournalled(w0, id, p);
    if CrashSafe(p, w0.site) {
      forall k | 0 <= k <= n
        ensures Revived(w0, id, p, k)
      {
        RefusedIsACrash(w0, id, p, k);
        SubmissionSurvivesCrashes(w1, id, p, AfterEffects(k), []);
        SurvivesTheCut(w1, id, p, k);
      }
    } else {
      var k := UnsafeIsLost(w1, id, p);
      RefusedIsACrash(w0, id, p, k);
      assert !Revived(w0, id, p, k);
    }
  }
}
