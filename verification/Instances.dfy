// Concrete submissions: that the hypotheses of the outcome theorems can be met, and one input for each way in
// which they fail.
module Instances {
  import opened Basics
  import opened FileTree
  import opened Delivery
  import opened Integration
  import opened EventLog
  import opened Acceptance
  import opened Recovery
  import opened Convergence
  import opened Submission
  import opened SubmissionOutcome
  import opened CrashOutcome
  import opened CommitProof

  // ---------------------------------------------------------------- a submission of any delivery

  function Blobs(files: map<Path, Image>): GitTree {
    map p | p in files :: BlobOf(files[p])
  }

  /** A delivery, its commit and the move of its task. */
  function ParcelOf(s: Setting): Parcel {
    Parcel(s, true, "subject", [], [], [], "task", "done")
  }

  function BaseOf(s: Setting): Commit {
    Commit(None, Blobs(s.repo.files), "base")
  }

  /** Its journal, in a repository that git tracks completely. */
  function WorldOf(s: Setting): World {
    var effects := ParcelOf(s).Effects();
    var intended := if ParcelOf(s).Committed() == [] then None else IntendedTree(BaseOf(s).tree, s.sealed, effects);
    var context := Context(Candidate("candidate", s.sealed, s.changes), s.hidden, s.artifacts, Some("open"),
                           Some(BaseOf(s)), intended, Some("job"), true);
    World(Site(s.repo, {}, map[], map["task" := Task("open", [], "", [])], BaseOf(s)), map["candidate" := s.sealed],
        map[],
          map["journal" := Journal(Some("task"), Some("transition"), Prepared, effects, [], context)],
          map["job" := Job("task", "transition", Submitted, None)])
  }

  lemma IsJournalled(s: Setting)
    requires s.Valid()
    ensures Journalled(WorldOf(s), "journal", ParcelOf(s))
  {
    var w := WorldOf(s);
    assert Ids(w.log) == {} by {
      assert forall day :: DayFile(w.log, day) == [];
    }
  }

  /** In such a repository the delivered work tree is exactly what git makes of it. */
  lemma DeliveredIsMade(s: Setting, q: Path)
    requires s.Valid() && Run(s.repo, s.sealed, s.plan).Some? && s.plan != []
    ensures Get(Blobs(Run(s.repo, s.sealed, s.plan).value.files), q) == Get(MadeTree(ParcelOf(s), WorldOf(s).site), q)
  {
    var p, t := ParcelOf(s), Run(s.repo, s.sealed, s.plan).value;
    assert |Targets(s.plan)| == |s.plan|;
    s.RunPrefix(|s.plan|);
    assert s.plan[..|s.plan|] == s.plan;
    assert Get(t.files, q) == s.Expected(|s.plan|, q);
    MadeInClosedForm(p, WorldOf(s).site, q);
    CommittedPaths(p, q);
    Apart(s, q);
  }

  lemma GitTakesIt(s: Setting)
    requires s.Valid() && Run(s.repo, s.sealed, s.plan).Some?
    ensures CommitGoesThrough(ParcelOf(s), WorldOf(s).site)
  {
    var p, site, files := ParcelOf(s), WorldOf(s).site, Run(s.repo, s.sealed, s.plan).value.files;
    var tree, paths := site.head.tree, Committable(p.Committed(), site.ignored);
    DeliveredFiles(p, site);
    if s.plan != [] {
      assert |Targets(s.plan)| == |s.plan|;
      forall q
        ensures q in paths ==> q in files || q in tree
        ensures Get(Blobs(files), q) == Get(MadeTree(p, site), q)
      {
        DeliveredIsMade(s, q);
        TargetIsKnown(s, q);
      }
      SameGetIsSameMap(Blobs(files), MadeTree(p, site));
    }
  }

  lemma TargetIsKnown(s: Setting, q: Path)
    requires s.Valid() && Run(s.repo, s.sealed, s.plan).Some? && s.plan != []
    ensures q in Targets(s.plan) ==> q in Run(s.repo, s.sealed, s.plan).value.files || q in Blobs(s.repo.files)
  {
    s.RunPrefix(|s.plan|);
    assert s.plan[..|s.plan|] == s.plan;
    if i :| 0 <= i < |s.plan| && Targets(s.plan)[i] == q {
      s.PlanItem(i);
      if s.plan[i].PromoteFile? {
        assert s.Promoted(|s.plan|, q);
        assert Get(Run(s.repo, s.sealed, s.plan).value.files, q) == Get(s.sealed, q);
      }
    }
  }

  ghost predicate GoesThrough(s: Setting) {
    Journalled(WorldOf(s), "journal", ParcelOf(s)) && LiveRun(WorldOf(s), "journal", NoCut).Some?
  }

  ghost predicate SurvivesAll(s: Setting) {
    forall crash, cuts :: crash != NoCut && NoCut !in cuts ==> Survives(WorldOf(s), "journal", ParcelOf(s), crash, cuts)
  }

  /** It delivers nothing, or it adds no file, keeps execute bits plain, and changes something git sees. */
  ghost predicate ProvableDelivery(s: Setting) {
    s.plan != [] ==> Tracked(s, BaseOf(s).tree) && PlainModes(s) && Visible(s, BaseOf(s).tree)
  }

  /** A submission in such a repository that would go through survives all crashes if and only if it keeps
      kinds and its changes of files are ones that the journal can prove. */
  lemma TrackedSubmissionSurvivesIff(s: Setting)
    requires s.Valid() && s.Unobstructed() && s.ModesAgree()
    ensures GoesThrough(s)
    ensures SurvivesAll(s) <==> KeepsKinds(s) && ProvableDelivery(s)
  {
    var w, p := WorldOf(s), ParcelOf(s);
    IsJournalled(s);
    s.DeliveryGoesThroughIffUnobstructed();
    GitTakesIt(s);
    LiveRunSucceedsIff(w, "journal", p);
    SubmissionSurvivesIffSafe(w, "journal", p);
    assert |Targets(s.plan)| == |s.plan|;
    if s.plan != [] {
      ProvableIff(p, w.site);
    }
  }

  /** A submission that goes through when nothing crashes, and that some crash keeps from its outcome. */
  ghost predicate IsLost(s: Setting) {
    s.Valid() && GoesThrough(s) && !SurvivesAll(s)
  }

  // ---------------------------------------------------------------- deliveries of one file

  const FILE: Path := "f"

  function EntryOf(image: Image, recorded: bool): Entry {
    Entry(FILE, image.content, if recorded then Some(image.mode) else None)
  }

  /** One file before and after, its mode recorded in the baseline or not. */
  function OneFile(was: Option<Image>, recorded: bool, becomes: Option<Image>): Setting {
    var repo := Tree(if was.Some? then map[FILE := was.value] else map[], {});
    var before := if was.Some? then map[FILE := EntryOf(was.value, recorded)] else map[];
    var sealed := if becomes.Some? then map[FILE := becomes.value] else map[];
    var after := if becomes.Some? then map[FILE := EntryOf(becomes.value, true)] else map[];
    var change := ChangeAt(FILE, before, after);
    var effect := if change.Some? then Planned(change.value, repo, sealed, {}) else None;
    Setting(repo, {}, before, sealed, after, {}, if change.Some? then [change.value] else [],
            if effect.Some? then [effect.value] else [])
  }

  lemma NoDots(p: Path)
    requires p != [] && p[0] != '/' && '.' !in p
    ensures Admissible(p)
  {
    forall i, j | 0 <= i <= j <= |p| && Components(p, i, j)
      ensures p[i..j] != ".." && p[i..j] != ".open-tulid"
    {
      if i < j {
        assert p[i..j][0] == p[i] && p[i] in p;
      }
    }
  }

  lemma NothingAboveFile(q: Path)
    ensures !Above(q, FILE)
  {
    assert (q + "/")[|q|] == '/';
  }

  lemma OneChange(c: Change, q: Path)
    ensures ChangeFor([c], q) == if c.path == q then Some(c) else None
    ensures ChangeFor([], q) == None
  {
    assert [c][..0] == [];
  }

  lemma OneFileIsValid(was: Option<Image>, recorded: bool, becomes: Option<Image>)
    ensures OneFile(was, recorded, becomes).Valid()
    ensures OneFile(was, recorded, becomes).Unobstructed() && KeepsKinds(OneFile(was, recorded, becomes))
  {
    var s := OneFile(was, recorded, becomes);
    NoDots(FILE);
    forall q: Path
      ensures !Above(q, FILE)
    {
      NothingAboveFile(q);
    }
    assert Surface(s.repo.files, s.hidden) == s.repo.files;
    forall q: Path
      ensures ChangeFor(s.changes, q) == if q == FILE then ChangeAt(FILE, s.before, s.after) else None
    {
      if s.changes != [] {
        OneChange(s.changes[0], q);
      }
    }
    OneFileIsPlanned(s);
  }

  lemma OneFileIsPlanned(s: Setting)
    requires s.changes == if ChangeAt(FILE, s.before, s.after).Some? then [ChangeAt(FILE, s.before, s.after).value]
              else []
    requires s.before.Keys + s.after.Keys <= {FILE} && s.artifacts == {}
    requires forall q: Path :: ChangeFor(s.changes, q) == if q == FILE then ChangeAt(FILE, s.before, s.after) else None
    requires var change := ChangeAt(FILE, s.before, s.after);
             var effect := if change.Some? then Planned(change.value, s.repo, s.sealed, {}) else None;
             s.plan == if effect.Some? then [effect.value] else []
    ensures IsPlan(s.plan, s.changes, s.repo, s.sealed, s.artifacts) && IsDelta(s.changes, s.before, s.after)
  {
    forall e: FileEffect
      ensures e in s.plan <==> EffectAt(s.changes, e.target, s.repo, s.sealed, s.artifacts) == Some(e)
    {
    }
  }

  lemma OneFilePlan(was: Option<Image>, becomes: Image)
    requires was != Some(becomes)
    ensures var s := OneFile(was, true, Some(becomes));
            s.ModesAgree() && s.plan != [] && (forall q :: Promotes(s, q) <==> q == FILE)
                && (forall q :: !Deletes(s, q))
  {
    var s := OneFile(was, true, Some(becomes));
    NoDots(FILE);
    assert s.plan[0].PromoteFile? && s.plan[0].target == FILE;
  }

  lemma OneFileSurvivesIff(was: Option<Image>, becomes: Image)
    requires was != Some(becomes)
    ensures var s := OneFile(was, true, Some(becomes));
            && s.Valid() && GoesThrough(s)
            && (SurvivesAll(s) <==>
                 && was.Some? && (Executable(becomes.mode) ==> OwnerExecutable(becomes.mode))
                 && BlobOf(was.value) != BlobOf(becomes))
  {
    var s := OneFile(was, true, Some(becomes));
    OneFileIsValid(was, true, Some(becomes));
    OneFilePlan(was, becomes);
    TrackedSubmissionSurvivesIff(s);
    OneFileIsProvable(was, becomes);
  }

  lemma OneFileIsProvable(was: Option<Image>, becomes: Image)
    requires was != Some(becomes)
    requires var s := OneFile(was, true, Some(becomes));
             s.plan != [] && (forall q :: Promotes(s, q) <==> q == FILE) && (forall q :: !Deletes(s, q))
    ensures ProvableDelivery(OneFile(was, true, Some(becomes))) <==>
            && was.Some? && (Executable(becomes.mode) ==> OwnerExecutable(becomes.mode))
            && BlobOf(was.value) != BlobOf(becomes)
  {
    var s := OneFile(was, true, Some(becomes));
    var tree := BaseOf(s).tree;
    assert FILE in s.sealed && s.sealed[FILE] == becomes && Promotes(s, FILE);
    assert Get(tree, FILE) == if was.Some? then Some(BlobOf(was.value)) else None;
    assert SeenAt(s, tree, FILE) <==> Get(tree, FILE) != Some(BlobOf(becomes));
    assert Visible(s, tree) <==> SeenAt(s, tree, FILE);
  }

  /** The edit of a tracked plain file survives everything. */
  lemma EditSurvives(was: string, becomes: string, mode: nat)
    requires was != becomes && !Executable(mode)
    ensures var s := OneFile(Some(Image(was, mode)), true, Some(Image(becomes, mode)));
            s.plan != [] && GoesThrough(s) && SurvivesAll(s)
  {
    OneFileSurvivesIff(Some(Image(was, mode)), Image(becomes, mode));
    OneFilePlan(Some(Image(was, mode)), Image(becomes, mode));
  }

  /** Refused at its commit, then recovered: the journal abandoned and the job failed become the lasting
      outcome. */
  ghost predicate IsRevived(s: Setting) {
    Journalled(WorldOf(s), "journal", ParcelOf(s)) && Revived(WorldOf(s), "journal", ParcelOf(s), 1)
  }

  lemma FailedJobIsAccepted(was: string, becomes: string, mode: nat)
    requires was != becomes && !Executable(mode)
    ensures IsRevived(OneFile(Some(Image(was, mode)), true, Some(Image(becomes, mode))))
  {
    var s := OneFile(Some(Image(was, mode)), true, Some(Image(becomes, mode)));
    EditSurvives(was, becomes, mode);
    SubmissionSurvivesIffSafe(WorldOf(s), "journal", ParcelOf(s));
    RefusedIsRolledForwardIffSafe(WorldOf(s), "journal", ParcelOf(s));
  }

  /** A change of mode that git does not see, as from 0644 to 0600, is accepted live and never by recovery. */
  lemma UnseenModeIsLost(content: string, was: nat, becomes: nat)
    requires was != becomes && OwnerExecutable(was) == OwnerExecutable(becomes)
    ensures IsLost(OneFile(Some(Image(content, was)), true, Some(Image(content, becomes))))
  {
    OneFileSurvivesIff(Some(Image(content, was)), Image(content, becomes));
  }

  /** So is the submission of a new file. */
  lemma AddedFileIsLost(image: Image)
    ensures IsLost(OneFile(None, true, Some(image)))
  {
    OneFileSurvivesIff(None, image);
  }

  /** So is a file that the group or others may execute and the owner may not. */
  lemma ForeignExecutableIsLost(was: Image, becomes: Image)
    requires was != becomes && Executable(becomes.mode) && !OwnerExecutable(becomes.mode)
    ensures IsLost(OneFile(Some(was), true, Some(becomes)))
  {
    OneFileSurvivesIff(Some(was), becomes);
  }

  /** A mode that the baseline did not record changes: the delta is empty, the plan goes through, the
      repository is not the candidate, and the live run is refused. */
  lemma UnrecordedModeIsMissed(content: string, was: nat, becomes: nat)
    requires was != becomes
    ensures var s := OneFile(Some(Image(content, was)), false, Some(Image(content, becomes)));
            && s.Valid() && s.plan == [] && Run(s.repo, s.sealed, s.plan).Some?
            && !SameSurface(Run(s.repo, s.sealed, s.plan).value.files, s.sealed, s.hidden, s.artifacts)
            && Journalled(WorldOf(s), "journal", ParcelOf(s)) && LiveRun(WorldOf(s), "journal", NoCut).None?
  {
    var s := OneFile(Some(Image(content, was)), false, Some(Image(content, becomes)));
    OneFileIsValid(Some(Image(content, was)), false, Some(Image(content, becomes)));
    assert s.Unseen(FILE) && Get(s.repo.files, FILE) != Some(s.sealed[FILE]);
    s.DeliveryGoesThroughIffUnobstructed();
    s.DeliveryReachesTheCandidate();
    IsJournalled(s);
    LiveRunSucceedsIff(WorldOf(s), "journal", ParcelOf(s));
  }

  // ---------------------------------------------------------------- a file in place of another

  const OLD := Image("a", 420)
  const NEW := Image("b", 420)

  /** One file goes and another one comes. */
  function Swap(gone: Path, made: Path, dirs: set<Path>): Setting {
    Setting(Tree(map[gone := OLD], dirs), {}, map[gone := Entry(gone, OLD.content, Some(OLD.mode))],
            map[made := NEW], map[made := Entry(made, NEW.content, Some(NEW.mode))], {},
            [Change(Add, made, None, Some(NEW.content), None, Some(NEW.mode)),
             Change(Delete, gone, Some(OLD.content), None, Some(OLD.mode), None)],
            [DeleteFile(gone, Some(OLD.content)),
             PromoteFile(made, None, None, Some(NEW.content), Some(NEW.mode), made in dirs)])
  }

  lemma TwoChanges(c: Change, d: Change, q: Path)
    ensures ChangeFor([c, d], q) == if c.path == q then Some(c) else if d.path == q then Some(d) else None
  {
    assert [c, d][..1] == [c];
    OneChange(c, q);
  }

  lemma SwapIsPlanned(p: Path, q: Path, dirs: set<Path>)
    requires p != q && Admissible(p) && Admissible(q)
    ensures var s := Swap(p, q, dirs);
            IsDelta(s.changes, s.before, s.after) && IsPlan(s.plan, s.changes, s.repo, s.sealed, s.artifacts)
  {
    var s := Swap(p, q, dirs);
    forall path: Path
      ensures EffectAt(s.changes, path, s.repo, s.sealed, s.artifacts)
              == if path == q then Some(s.plan[1]) else if path == p then Some(s.plan[0]) else None
    {
      TwoChanges(s.changes[0], s.changes[1], path);
    }
  }

  lemma SwapIsValid(p: Path, q: Path, dirs: set<Path>)
    requires p != q && Admissible(p) && Admissible(q) && WellFormed(Tree(map[p := OLD], dirs))
    ensures Swap(p, q, dirs).Valid() && Swap(p, q, dirs).ModesAgree()
  {
    var s := Swap(p, q, dirs);
    SwapIsPlanned(p, q, dirs);
    assert Surface(s.repo.files, s.hidden) == s.repo.files;
    assert !Above(q, q);
  }

  lemma AboveInShort(a: Path, p: Path)
    requires Above(a, p)
    ensures |a| < |p| && p[|a|] == '/' && a == p[..|a|]
  {
  }

  /** A file that becomes a directory is delivered live and lost in a crash. */
  lemma FileToDirectoryIsLost(p: Path, q: Path, dirs: set<Path>)
    requires Admissible(p) && Admissible(q) && WellFormed(Tree(map[p := OLD], dirs)) && Above(p, q)
    ensures p != q && IsLost(Swap(p, q, dirs)) && !ReplacesNoFile(Swap(p, q, dirs), p, q)
    ensures Swap(p, q, dirs).Unobstructed()
  {
    assert p != q && !Above(q, p);
    SwapIsValid(p, q, dirs);
    var s := Swap(p, q, dirs);
    assert q !in dirs;
    assert !s.Blocked(q);
    assert !ReplacesNoFile(s, p, q);
    TrackedSubmissionSurvivesIff(s);
  }

  /** So is a directory that becomes a file. */
  lemma DirectoryToFileIsLost(p: Path, q: Path, dirs: set<Path>)
    requires Admissible(p) && Admissible(q) && WellFormed(Tree(map[p := OLD], dirs)) && Above(q, p)
    requires forall d :: d in dirs ==> !Above(q, d)
    ensures p != q && IsLost(Swap(p, q, dirs)) && !FillsNoDirectory(Swap(p, q, dirs), q)
  {
    assert p != q;
    SwapIsValid(p, q, dirs);
    var s := Swap(p, q, dirs);
    assert !s.Blocked(q);
    assert p in s.repo.files.Keys;
    assert !FillsNoDirectory(s, q);
    TrackedSubmissionSurvivesIff(s);
  }

  /** A directory may become a file only when it holds no directory: the walk removes one empty directory,
      not a chain of them. */
  lemma NestedDirectoryIsRefused(p: Path, q: Path, dirs: set<Path>, d: Path)
    requires Admissible(p) && Admissible(q) && WellFormed(Tree(map[p := OLD], dirs)) && Above(q, p)
    requires d in dirs && Above(q, d)
    ensures p != q
    ensures var s := Swap(p, q, dirs);
            && s.Valid() && s.ModesAgree() && Run(s.repo, s.sealed, s.plan).None?
            && Journalled(WorldOf(s), "journal", ParcelOf(s)) && LiveRun(WorldOf(s), "journal", NoCut).None?
  {
    assert p != q;
    SwapIsValid(p, q, dirs);
    var s := Swap(p, q, dirs);
    assert s.Blocked(q);
    s.DeliveryGoesThroughIffUnobstructed();
    IsJournalled(s);
    LiveRunSucceedsIff(WorldOf(s), "journal", ParcelOf(s));
  }

  /** There are such paths. */
  lemma ShortTrees()
    ensures Admissible("f") && Admissible("f/x") && WellFormed(Tree(map["f" := OLD], {})) && Above("f", "f/x")
    ensures WellFormed(Tree(map["f/x" := OLD], {"f"}))
  {
    NoDots("f");
    NoDots("f/x");
    forall a: Path
      ensures !Above(a, "f")
      ensures Above(a, "f/x") ==> a == "f"
    {
      if Above(a, "f") {
        AboveInShort(a, "f");
      }
      if Above(a, "f/x") {
        AboveInShort(a, "f/x");
      }
    }
  }

  /** Both changes of kind are lost in repositories of a single file. */
  lemma ChangesOfKindAreLost()
    ensures IsLost(Swap("f", "f/x", {})) && IsLost(Swap("f/x", "f", {"f"}))
  {
    ShortTrees();
    FileToDirectoryIsLost("f", "f/x", {});
    assert !Above("f", "f");
    DirectoryToFileIsLost("f/x", "f", {"f"});
  }

  lemma DeepTree()
    ensures Admissible("a/b/c") && Admissible("a") && WellFormed(Tree(map["a/b/c" := OLD], {"a", "a/b"}))
    ensures Above("a", "a/b/c") && Above("a", "a/b")
  {
    NoDots("a");
    NoDots("a/b/c");
    forall p, q: Path | Above(p, q) && q in {"a", "a/b", "a/b/c"}
      ensures p in {"a", "a/b"}
    {
      AboveInShort(p, q);
      assert q == "a/b" ==> |p| == 1;
      assert q == "a/b/c" ==> |p| == 1 || |p| == 3;
      assert |p| == 1 ==> p == "a";
      assert |p| == 3 ==> p == "a/b";
    }
  }

  /** A directory within a directory is not replaced by a file in a repository of a single file. */
  lemma NestedTreeIsRefused()
    ensures var s := Swap("a/b/c", "a", {"a", "a/b"});
            && s.Valid() && s.ModesAgree() && Journalled(WorldOf(s), "journal", ParcelOf(s))
            && LiveRun(WorldOf(s), "journal", NoCut).None?
  {
    DeepTree();
    NestedDirectoryIsRefused("a/b/c", "a", {"a", "a/b"}, "a/b");
  }

  // ---------------------------------------------------------------- an artifact that is there already

  /** The candidate holds nothing but a submitted artifact. */
  function OnlyArtifact(image: Image): Setting {
    Setting(Tree(map[], {}), {}, map[], map[FILE := image], map[FILE := EntryOf(image, true)], {FILE},
            [Change(Add, FILE, None, Some(image.content), None, Some(image.mode))], [])
  }

  lemma OnlyArtifactIsValid(image: Image)
    ensures OnlyArtifact(image).Valid() && OnlyArtifact(image).Unobstructed() && OnlyArtifact(image).ModesAgree()
  {
    var s := OnlyArtifact(image);
    NoDots(FILE);
    assert !Above(FILE, FILE);
    forall q: Path
      ensures EffectAt(s.changes, q, s.repo, s.sealed, s.artifacts) == None
    {
      OneChange(s.changes[0], q);
    }
    assert Surface(s.repo.files, s.hidden) == map[];
  }

  /** The artifact's destination holds these bytes already; the task does not link it. */
  function ArtifactParcel(image: Image, link: string): Parcel {
    var artifact := Artifact(FILE, "shelf", Some(image.content), None, Some(image.content), true, link, "task");
    Parcel(OnlyArtifact(image), false, "subject", [artifact], [], [], "task", "done")
  }

  function ArtifactWorld(image: Image, link: string): World {
    var p := ArtifactParcel(image, link);
    var context := Context(Candidate("candidate", p.delivery.sealed, p.delivery.changes), {}, p.delivery.artifacts,
                           Some("open"), Some(Commit(None, map[], "base")), None, Some("job"), true);
    World(Site(p.delivery.repo, {}, map["shelf" := image], map["task" := Task("open", [], "", [])],
        Commit(None, map[], "base")),
          map["candidate" := p.delivery.sealed], map[],
          map["journal" := Journal(Some("task"), Some("transition"), Prepared, p.Effects(), [], context)],
          map["job" := Job("task", "transition", Submitted, None)])
  }

  lemma ArtifactIsJournalled(image: Image, link: string)
    requires link != ""
    ensures Journalled(ArtifactWorld(image, link), "journal", ArtifactParcel(image, link))
  {
    OnlyArtifactIsValid(image);
    var w := ArtifactWorld(image, link);
    assert Ids(w.log) == {} by {
      assert forall day :: DayFile(w.log, day) == [];
    }
  }

  /** Live, the artifact is copied once more and linked. A crash before that loses the link: the replay takes
      the artifact for applied. */
  lemma UnlinkedArtifactIsSkipped(image: Image, link: string)
    requires link != ""
    ensures var w, p := ArtifactWorld(image, link), ArtifactParcel(image, link);
            && Journalled(w, "journal", p) && LiveRun(w, "journal", NoCut).Some?
            && !(forall crash, cuts :: crash != NoCut && NoCut !in cuts ==> Survives(w, "journal", p, crash, cuts))
  {
    var w, p := ArtifactWorld(image, link), ArtifactParcel(image, link);
    ArtifactIsJournalled(image, link);
    OnlyArtifactIsValid(image);
    p.delivery.DeliveryGoesThroughIffUnobstructed();
    assert Committable([], w.site.ignored) == {};
    LiveRunSucceedsIff(w, "journal", p);
    SubmissionSurvivesIffSafe(w, "journal", p);
    assert p.artifacts[0] in p.artifacts;
    assert ArtifactApplied(p.delivery.sealed, p.artifacts[0], w.site.artifacts);
  }
}
