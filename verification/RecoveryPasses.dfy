// Whole passes of recovery: when a pass over a listing brings one journal to its end, and how a delivered
// journal can keep every later one from being recovered.
module RecoveryPasses {
  import opened Basics
  import opened FileTree
  import opened Delivery
  import opened Integration
  import opened EventLog
  import opened Acceptance
  import opened RecoverySafety
  import opened Recovery
  import opened Convergence
  import opened Submission
  import opened SubmissionOutcome
  import opened CrashOutcome
  import opened Instances

  /** Recovering this journal changes nothing. */
  ghost predicate Standing(w: World, id: string)
    requires id in w.journals
  {
    RecoverRecord(w, id, NoCut).0 == w
  }

  /** Recovering this journal raises out of the loop. */
  ghost predicate Raising(w: World, id: string)
    requires id in w.journals
  {
    RecoverRecord(w, id, NoCut).1
  }

  /** Checking a deletion hashes the target whatever it is. */
  predicate HashesDirectory(repo: Tree, e: Effect) {
    e.File? && e.file.DeleteFile? && e.file.before.Some? && e.file.target !in repo.files && e.file.target in repo.dirs
  }

  lemma {:induction false} FirstRaisesIff(s: Site, sealed: map<Path, Image>, context: Context, effects: seq<Effect>)
    ensures FirstVerdict(s, sealed, context, effects) == Raises
            <==> exists k :: 0 <= k < |effects| && HashesDirectory(s.repo, effects[k])
                             && forall i :: 0 <= i < k ==> EffectVerdict(s, sealed, context, effects[i]) == Clear
    decreases |effects|
  {
    if effects != [] {
      var rest := effects[1..];
      FirstRaisesIff(s, sealed, context, rest);
      if EffectVerdict(s, sealed, context, effects[0]) == Clear {
        if k :| 0 <= k < |rest| && HashesDirectory(s.repo, rest[k])
                && forall i :: 0 <= i < k ==> EffectVerdict(s, sealed, context, rest[i]) == Clear {
          FirstRaiserShifts(s, sealed, context, effects, k);
        }
        if k :| 0 <= k < |effects| && HashesDirectory(s.repo, effects[k])
                && forall i :: 0 <= i < k ==> EffectVerdict(s, sealed, context, effects[i]) == Clear {
          assert k > 0 && HashesDirectory(s.repo, rest[k - 1]);
          assert forall i :: 0 <= i < k - 1 ==> rest[i] == effects[i + 1];
        }
      }
    }
  }

  lemma FirstRaiserShifts(s: Site, sealed: map<Path, Image>, context: Context, effects: seq<Effect>, k: nat)
    requires k + 1 < |effects| && EffectVerdict(s, sealed, context, effects[0]) == Clear
    requires forall i :: 0 <= i < k ==> EffectVerdict(s, sealed, context, effects[1..][i]) == Clear
    ensures forall i :: 0 <= i < k + 1 ==> EffectVerdict(s, sealed, context, effects[i]) == Clear
  {
    forall i | 0 <= i < k + 1
      ensures EffectVerdict(s, sealed, context, effects[i]) == Clear
    {
      if i > 0 {
        assert effects[i] == effects[1..][i - 1];
      }
    }
  }

  /** A journal raises, whatever its status, exactly when recovery considers it and the first of its effects
      that is not clear deletes what has become a directory. */
  lemma RaisingIff(w: World, id: string)
    requires id in w.journals
    ensures var j := w.journals[id];
            Raising(w, id)
            <==> Recoverable(w, j)
                 && exists k :: 0 <= k < |j.effects| && HashesDirectory(w.site.repo, j.effects[k])
                                && forall i :: 0 <= i < k ==>
                                     EffectVerdict(w.site, j.context.candidate.manifest, j.context, j.effects[i])
                                     == Clear
  {
    var j := w.journals[id];
    FirstRaisesIff(w.site, j.context.candidate.manifest, j.context, j.effects);
  }

  /** A journal that is committed and whose job is accepted stands, raising or not. */
  lemma SettledStands(w: World, id: string)
    requires id in w.journals && w.journals[id].status == JournalStatus.Committed
    requires w.journals[id].context.jobId.Some? && w.journals[id].context.jobId.value in w.jobs
    requires w.jobs[w.journals[id].context.jobId.value].status == Accepted
    ensures Standing(w, id)
  {
    SettledJournalIsLeftAlone(w, id, [NoCut]);
    assert [NoCut][..0] == [] && RecoverMany(w, id, []) == w;
  }

  /** So does a journal with an intervening change in its scope. */
  lemma StrangerStands(w: World, id: string, e: Effect)
    requires id in w.journals && e in w.journals[id].effects
    requires Stranger(w.site, w.journals[id].context.candidate.manifest, w.journals[id].context, e)
    ensures Standing(w, id)
  {
    StrangerStopsTheJournal(w, id, e, NoCut);
  }

  lemma AloneInAPass(w: World, id: string)
    requires id in w.journals
    ensures RecoverAll(w, [id]) == RecoverRecord(w, id, NoCut)
  {
    assert [id][..0] == [] && RecoverAll(w, []) == (w, false);
  }

  lemma {:induction false} PassConcat(w: World, a: seq<string>, b: seq<string>)
    requires forall id :: id in a + b ==> id in w.journals
    ensures forall id :: id in a ==> id in w.journals
    ensures var (before, raised) := RecoverAll(w, a);
            && (forall id :: id in b ==> id in before.journals)
            && RecoverAll(w, a + b) == if raised then (before, true) else RecoverAll(before, b)
  {
    assert forall id :: id in a ==> id in a + b;
    assert forall id :: id in b ==> id in a + b;
    if b == [] {
      assert a + b == a;
    } else {
      var init := b[..|b| - 1];
      assert (a + b)[..|a + b| - 1] == a + init;
      assert forall id :: id in a + init ==> id in a + b;
      PassConcat(w, a, init);
    }
  }

  ghost predicate SomeRaises(w: World, listing: seq<string>)
    requires forall id :: id in listing ==> id in w.journals
  {
    listing != [] && (SomeRaises(w, listing[..|listing| - 1]) || Raising(w, listing[|listing| - 1]))
  }

  lemma {:induction false} SomeRaisesIff(w: World, listing: seq<string>)
    requires forall id :: id in listing ==> id in w.journals
    ensures SomeRaises(w, listing) <==> exists id :: id in listing && Raising(w, id)
  {
    if listing != [] {
      var init, last := listing[..|listing| - 1], listing[|listing| - 1];
      SomeRaisesIff(w, init);
      assert forall id :: id in listing <==> id in init || id == last;
    }
  }

  lemma StandingStep(w: World, init: seq<string>, last: string)
    requires forall id :: id in init + [last] ==> id in w.journals
    requires last in w.journals && Standing(w, last) && RecoverAll(w, init).0 == w
    ensures RecoverAll(w, init + [last]) == (w, RecoverAll(w, init).1 || Raising(w, last))
  {
    assert (init + [last])[..|init|] == init;
  }

  /** A pass over standing journals leaves the world, and raises exactly when one of them does. */
  lemma {:induction false} StandingPass(w: World, listing: seq<string>)
    requires forall id :: id in listing ==> id in w.journals && Standing(w, id)
    ensures RecoverAll(w, listing) == (w, SomeRaises(w, listing))
    decreases |listing|
  {
    if listing != [] {
      var init, last := listing[..|listing| - 1], listing[|listing| - 1];
      StandingPass(w, init);
      assert listing == init + [last];
      StandingStep(w, init, last);
    }
  }

  /** A pass over standing journals before, this one, and standing journals after it. */
  lemma PassAround(w: World, before: seq<string>, id: string, after: seq<string>)
    requires id in w.journals
    requires forall o :: o in before ==> o in w.journals && Standing(w, o)
    requires forall o :: o in after ==> o in w.journals && Standing(RecoverRecord(w, id, NoCut).0, o)
    ensures RecoverAll(w, before + [id] + after).0
            == if exists o :: o in before && Raising(w, o) then w else RecoverRecord(w, id, NoCut).0
  {
    PassConcat(w, before + [id], after);
    PassConcat(w, before, [id]);
    StandingPass(w, before);
    SomeRaisesIff(w, before);
    assert [id][..0] == [] && RecoverAll(w, []) == (w, false);
    if !(exists o :: o in before && Raising(w, o)) {
      StandingPass(RecoverRecord(w, id, NoCut).0, after);
    }
  }

  /** A crashed acceptance is not settled. */
  lemma CrashedIsOpen(w0: World, id: string, w: World)
    requires JustPrepared(w0, id) && (MidFlight(w0, id, w) || Unsettled(w0, id, w))
    ensures JobOpen(w, w0.journals[id])
  {
  }

  /** One complete pass after a crash and any interrupted recoveries, over a listing whose other journals are
      settled or stopped, leaves the lasting outcome if and only if no journal listed before raises. */
  lemma PassDeliversIff(w0: World, id: string, p: Parcel, crash: Cut, cuts: seq<Cut>, before: seq<string>,
                        after: seq<string>)
    requires Journalled(w0, id, p) && CrashSafe(p, w0.site) && LiveRun(w0, id, NoCut).Some?
    requires crash != NoCut && NoCut !in cuts
    requires LiveRun(w0, id, crash).Some? && id in LiveRun(w0, id, crash).value.journals
    requires var w := RecoverMany(LiveRun(w0, id, crash).value, id, cuts);
             && (forall o :: o in before ==> o in w.journals && Standing(w, o))
             && (forall o :: o in after ==> o in w.journals && Standing(RecoverRecord(w, id, NoCut).0, o))
    ensures var w := RecoverMany(LiveRun(w0, id, crash).value, id, cuts);
            Lasting(w0, id, p, RecoverAll(w, before + [id] + after).0) <==> forall o :: o in before ==> !Raising(w, o)
  {
    var w := RecoverMany(LiveRun(w0, id, crash).value, id, cuts);
    SafeIsJustPrepared(w0, id, p);
    LiveCrash(w0, id, crash);
    InterruptedStays(w0, id, LiveRun(w0, id, crash).value, cuts);
    CrashedIsOpen(w0, id, w);
    PassAround(w, before, id, after);
    SubmissionSurvivesCrashes(w0, id, p, crash, cuts);
  }

  // ---------------------------------------------------------------- two submissions of one base

  /** Two crashed submissions that commit on the same head cannot both be delivered by a pass: once recovering
      the first has moved the head, the second stands, unless that head happens to be its own commit. */
  lemma OneDeliveryPerBase(w: World, first: string, second: string, e: Effect)
    requires first in w.journals && second in w.journals && first != second
    requires e in w.journals[second].effects && e.CommitChanges?
    requires w.journals[second].context.base == Some(w.site.head)
    requires var after := RecoverRecord(w, first, NoCut).0;
             after.site.head != w.site.head && !CommitExists(after.site, w.journals[second].context, e.message)
    ensures var after := RecoverRecord(w, first, NoCut).0;
            && second in after.journals && Standing(after, second)
            && RecoverAll(w, [first] + [second]).0 == after
            && after.journals[second] == w.journals[second]
  {
    var (after, raised) := RecoverRecord(w, first, NoCut);
    StrangerStands(after, second, e);
    AloneInAPass(w, first);
    PassConcat(w, [first], [second]);
    if !raised {
      AloneInAPass(after, second);
    }
  }

  // ---------------------------------------------------------------- a journal that starves the others

  lemma {:induction false} FirstToRaise(s: Site, sealed: map<Path, Image>, context: Context, effects: seq<Effect>,
                                        i: nat)
    requires i < |effects| && EffectVerdict(s, sealed, context, effects[i]) == Raises
    requires forall k :: 0 <= k < i ==> EffectVerdict(s, sealed, context, effects[k]) != Conflict
    ensures FirstVerdict(s, sealed, context, effects) == Raises
    decreases i
  {
    if i > 0 && EffectVerdict(s, sealed, context, effects[0]) == Clear {
      assert forall k :: 0 <= k < i - 1 ==> effects[1..][k] == effects[k + 1];
      FirstToRaise(s, sealed, context, effects[1..], i - 1);
    }
  }

  /** Once the plan has run, the check of a deletion never meets another file. */
  lemma DeletedIsGone(s: Setting, k: nat)
    requires s.Valid() && Run(s.repo, s.sealed, s.plan).Some? && k < |s.plan| && s.plan[k].DeleteFile?
    ensures DeletionVerdict(Run(s.repo, s.sealed, s.plan).value, s.plan[k]) != Conflict
  {
    s.RunPrefix(|s.plan|);
    assert s.plan[..|s.plan|] == s.plan;
    s.PlanItem(k);
    s.NotPromotedUnlessSealed(s.plan[k].target);
    assert s.Deleted(|s.plan|, s.plan[k].target);
    assert Get(Run(s.repo, s.sealed, s.plan).value.files, s.plan[k].target) == None;
  }

  lemma PlanLength(p: Parcel)
    ensures |p.delivery.plan| < |p.Effects()|
  {
    EffectsInParts(p);
  }

  lemma VerdictRaises(p: Parcel, context: Context, site: Site, q: Path, r: Path)
    requires p.delivery.Valid() && ArtifactsApart(p.artifacts, p.taskId) && !ReplacesNoFile(p.delivery, q, r)
    requires Run(p.delivery.repo, p.delivery.sealed, p.delivery.plan) == Some(site.repo)
    ensures FirstVerdict(site, p.delivery.sealed, context, p.Effects()) == Raises
  {
    var s, effects := p.delivery, p.Effects();
    var i := FileToDirectoryRaises(s, q, r);
    PlanLength(p);
    forall k | 0 <= k <= i
      ensures effects[k] == File(s.plan[k])
      ensures EffectVerdict(site, s.sealed, context, effects[k]) != Conflict
    {
      EffectPieces(p, k);
      assert k == i || s.plan[k].DeleteFile?;
      DeletedIsGone(s, k);
    }
    FirstToRaise(site, s.sealed, context, effects, i);
  }

  /** The world has what this journal delivered, and the journal itself, in any status. */
  ghost predicate HasDelivered(w0: World, id: string, p: Parcel, w: World) {
    && Journalled(w0, id, p) && Run(p.delivery.repo, p.delivery.sealed, p.delivery.plan) == Some(w.site.repo)
    && id in w.journals && w.journals[id] == w0.journals[id].(status := w.journals[id].status)
    && Get(w.storage, w0.journals[id].context.candidate.id) == Some(p.delivery.sealed)
  }

  /** A file delivered as a directory: checking its journal hashes the directory, and raises for good. */
  lemma DeliveredKindChangeRaises(w0: World, bad: string, p: Parcel, w: World, q: Path, r: Path)
    requires HasDelivered(w0, bad, p, w) && !ReplacesNoFile(p.delivery, q, r)
    ensures RecoverRecord(w, bad, NoCut) == (w, true)
  {
    MoveIsExpected(p);
    VerdictRaises(p, w0.journals[bad].context, w.site, q, r);
  }

  lemma RaisingEndsThePass(w: World, bad: string, rest: seq<string>)
    requires bad in w.journals && RecoverRecord(w, bad, NoCut) == (w, true)
    requires forall o :: o in rest ==> o in w.journals
    ensures RecoverAll(w, [bad] + rest) == (w, true)
  {
    assert forall o :: o in [bad] + rest ==> o in w.journals;
    AloneInAPass(w, bad);
    PassConcat(w, [bad], rest);
  }

  /** A file that was delivered in place of a directory's name, its journal committed and its job accepted,
      stops every pass that comes to its journal: nothing listed behind it is ever recovered. */
  lemma SettledJournalStarvesTheRest(w0: World, bad: string, p: Parcel, q: Path, r: Path, rest: seq<string>)
    requires Journalled(w0, bad, p) && LiveRun(w0, bad, NoCut).Some? && !ReplacesNoFile(p.delivery, q, r)
    requires forall o :: o in rest ==> o in w0.journals
    ensures var w := LiveRun(w0, bad, NoCut).value;
            && bad in w.journals && w.journals[bad].status == JournalStatus.Committed
            && w.jobs[w.journals[bad].context.jobId.value].status == Accepted
            && (forall o :: o in rest ==> o in w.journals) && RecoverAll(w, [bad] + rest) == (w, true)
  {
    EffectsGoThroughIff(w0, bad, p);
    MoveIsExpected(p);
    var u := RunLive(w0.site, p.delivery.sealed, p.Effects()).value;
    RunsLive(w0, bad, NoCut, u);
    var w := LiveRun(w0, bad, NoCut).value;
    DeliveredKindChangeRaises(w0, bad, p, w, q, r);
    RaisingEndsThePass(w, bad, rest);
  }

  /** A journal behind such a journal is not recovered. */
  lemma StarvedJournal(w0: World, bad: string, b: Parcel, w: World, id: string, q: Path, r: Path)
    requires HasDelivered(w0, bad, b, w) && !ReplacesNoFile(b.delivery, q, r) && id in w.journals
    ensures RecoverAll(w, [bad] + [id]) == (w, true)
  {
    DeliveredKindChangeRaises(w0, bad, b, w, q, r);
    RaisingEndsThePass(w, bad, [id]);
  }

  /** Without that journal it is, when it is safe. */
  lemma FedSubmission(w: World, id: string, p: Parcel)
    requires Journalled(w, id, p) && CrashSafe(p, w.site) && LiveRun(w, id, NoCut).Some?
    ensures Lasting(w, id, p, RecoverAll(w, [id]).0)
  {
    AloneInAPass(w, id);
    SubmissionSurvivesCrashes(w, id, p, AfterEffects(0), []);
    SurvivesTheCut(w, id, p, 0);
    assert p.Effects()[..0] == [] && Crashed(w, id, 0) == w;
  }

  // ---------------------------------------------------------------- two journals

  /** A candidate that changes nothing. */
  function Unchanged(repo: Tree): Setting {
    var entries := map q | q in repo.files :: Entry(q, repo.files[q].content, Some(repo.files[q].mode));
    Setting(repo, {}, entries, repo.files, entries, {}, [], [])
  }

  lemma UnchangedIsValid(repo: Tree)
    requires WellFormed(repo) && forall q :: q in repo.files ==> Admissible(q)
    ensures Unchanged(repo).Valid() && Unchanged(repo).ModesAgree() && KeepsKinds(Unchanged(repo))
    ensures Unchanged(repo).Unobstructed()
  {
    var s := Unchanged(repo);
    WellFormedIsTreeShaped(repo);
    assert Surface(repo.files, s.hidden) == repo.files;
    forall q: Path
      ensures EffectAt(s.changes, q, s.repo, s.sealed, s.artifacts) == None
    {
    }
  }

  function MoveOnly(repo: Tree): Parcel {
    Parcel(Unchanged(repo), false, "subject", [], [], [], "second", "done")
  }

  /** A world in which the first submission was delivered and settled, and a second one was prepared. */
  function Behind(s: Setting, repo: Tree): World {
    var p, w := MoveOnly(repo), WorldOf(s);
    var context := Context(Candidate("still", repo.files, []), {}, {}, Some("open"), Some(BaseOf(s)), None,
        Some("other"), true);
    var next := Journal(Some("second"), Some("transition"), Prepared, p.Effects(), [], context);
    World(w.site.(repo := repo, tasks := w.site.tasks["second" := Task("open", [], "", [])]),
          w.storage["still" := repo.files], map[],
          w.journals["journal" := w.journals["journal"].(status := JournalStatus.Committed)]["next" := next],
          w.jobs["job" := w.jobs["job"].(status := Accepted)]["other" := Job("second", "transition", Submitted, None)])
  }

  lemma NextIsJournalled(s: Setting, repo: Tree)
    requires WellFormed(repo) && forall q :: q in repo.files ==> Admissible(q)
    ensures Journalled(Behind(s, repo), "next", MoveOnly(repo)) && CrashSafe(MoveOnly(repo), Behind(s, repo).site)
    ensures LiveRun(Behind(s, repo), "next", NoCut).Some?
  {
    var w, p := Behind(s, repo), MoveOnly(repo);
    UnchangedIsValid(repo);
    assert Ids(w.log) == {} by {
      assert forall day :: DayFile(w.log, day) == [];
    }
    assert Journalled(w, "next", p);
    p.delivery.DeliveryGoesThroughIffUnobstructed();
    assert Committable([], w.site.ignored) == {};
    LiveRunSucceedsIff(w, "next", p);
  }

  ghost predicate Starves(s: Setting, q: Path, r: Path, repo: Tree) {
    && s.Valid() && !ReplacesNoFile(s, q, r) && Run(s.repo, s.sealed, s.plan) == Some(repo)
    && WellFormed(repo) && forall f :: f in repo.files ==> Admissible(f)
  }

  lemma BehindTheDelivered(s: Setting, repo: Tree)
    requires s.Valid() && Run(s.repo, s.sealed, s.plan) == Some(repo)
    ensures HasDelivered(WorldOf(s), "journal", ParcelOf(s), Behind(s, repo))
  {
    IsJournalled(s);
  }

  /** The listing that starves: the delivered change of kind first, the second submission behind it. */
  lemma StarvingListing(s: Setting, q: Path, r: Path, repo: Tree)
    requires Starves(s, q, r, repo)
    ensures var w := Behind(s, repo);
            && RecoverAll(w, ["journal"] + ["next"]) == (w, true) && w.jobs["other"].status == Submitted
            && Journalled(w, "next", MoveOnly(repo)) && Lasting(w, "next", MoveOnly(repo), RecoverAll(w, ["next"]).0)
  {
    BehindTheDelivered(s, repo);
    NextIsJournalled(s, repo);
    StarvedJournal(WorldOf(s), "journal", ParcelOf(s), Behind(s, repo), "next", q, r);
    FedSubmission(Behind(s, repo), "next", MoveOnly(repo));
  }

  lemma DeliveredIsAdmissible(s: Setting, repo: Tree)
    requires s.Valid() && s.hidden == {} && Run(s.repo, s.sealed, s.plan) == Some(repo)
    ensures WellFormed(repo) && forall f :: f in repo.files ==> Admissible(f)
  {
    s.RunPrefix(|s.plan|);
    assert s.plan[..|s.plan|] == s.plan;
    forall f | f in repo.files
      ensures Admissible(f)
    {
      assert Get(repo.files, f) == s.Expected(|s.plan|, f);
      assert f in s.before || f in s.after || f in s.repo.files;
      assert f in s.repo.files ==> f in Surface(s.repo.files, s.hidden);
    }
  }

  lemma SwapStarves(p: Path, q: Path, dirs: set<Path>)
    requires Admissible(p) && Admissible(q) && WellFormed(Tree(map[p := OLD], dirs)) && Above(p, q)
    ensures exists repo :: Starves(Swap(p, q, dirs), p, q, repo)
  {
    var s := Swap(p, q, dirs);
    FileToDirectoryIsLost(p, q, dirs);
    s.DeliveryGoesThroughIffUnobstructed();
    var repo := Run(s.repo, s.sealed, s.plan).value;
    DeliveredIsAdmissible(s, repo);
    assert Starves(s, p, q, repo);
  }

  lemma ThereIsAStarvingListing()
    ensures exists s, q, r, repo :: Starves(s, q, r, repo)
  {
    ShortTrees();
    SwapStarves("f", "f/x", {});
  }
}
