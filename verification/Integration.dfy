// Running a delivery plan on the repository, and what the run leaves behind.
module Integration {
  import opened Basics
  import opened FileTree
  import opened Delivery

  /** Apply one planned effect; `None` is a refused effect. */
  function ApplyFile(t: Tree, sealed: map<Path, Image>, e: FileEffect): Option<Tree> {
    match e
    case DeleteFile(target, _) => Unlink(t, target)
    case PromoteFile(target, _, _, _, afterMode, _) =>
      if target !in sealed then None
      else
        var mode := if afterMode.Some? then afterMode.value else sealed[target].mode;
        Write(t, target, Image(sealed[target].content, mode))
  }

  function Run(t: Tree, sealed: map<Path, Image>, plan: seq<FileEffect>): Option<Tree> {
    if plan == [] then Some(t)
    else
      var before := Run(t, sealed, plan[..|plan| - 1]);
      if before.None? then None else ApplyFile(before.value, sealed, plan[|plan| - 1])
  }

  /** The deliverable files: everything but the paths the selection rule ignores. */
  function Surface(files: map<Path, Image>, hidden: set<Path>): map<Path, Image> {
    files - hidden
  }

  /** The two surfaces agree on every path that is not a submitted artifact. */
  predicate SameSurface(files: map<Path, Image>, sealed: map<Path, Image>, hidden: set<Path>, artifacts: set<Path>) {
    Surface(files, hidden) - artifacts == sealed - artifacts
  }

  /** A manifest describes a set of files; an unrecorded mode describes nothing. */
  ghost predicate Records(m: map<Path, Entry>, files: map<Path, Image>) {
    && m.Keys == files.Keys
    && forall p :: p in m ==>
         && m[p].content == files[p].content
         && (m[p].mode.Some? ==> m[p].mode.value == files[p].mode)
  }

  /** One delivery: a repository at its baseline, a sealed candidate, their delta and its plan. */
  datatype Setting = Setting(
    repo: Tree, hidden: set<Path>, before: map<Path, Entry>,
    sealed: map<Path, Image>, after: map<Path, Entry>,
    artifacts: set<Path>, changes: seq<Change>, plan: seq<FileEffect>)
  {
    ghost predicate Valid() {
      && WellFormed(repo)
      && Records(before, Surface(repo.files, hidden))
      && Records(after, sealed) && (forall p :: p in after ==> after[p].mode.Some?)
      && TreeShaped(sealed.Keys) && sealed.Keys !! hidden
      && artifacts !! repo.files.Keys
      && (forall p :: p in before || p in after ==> Admissible(p))
      && IsDelta(changes, before, after)
      && IsPlan(plan, changes, repo, sealed, artifacts)
    }

    /** What stops the promotion of `p`: a directory there that holds a directory or an
        ignored file, or an ignored file in place of one of its parents. */
    ghost predicate Blocked(p: Path) {
      || (p in repo.dirs && exists d :: Above(p, d) && (d in repo.dirs || (d in hidden && d in repo.files)))
      || (exists q :: Above(q, p) && q in hidden && q in repo.files)
    }

    ghost predicate Promoted(k: nat, p: Path)
      requires k <= |plan|
    {
      exists i :: 0 <= i < k && plan[i].PromoteFile? && plan[i].target == p
    }

    ghost predicate Deleted(k: nat, p: Path)
      requires k <= |plan|
    {
      exists i :: 0 <= i < k && plan[i].DeleteFile? && plan[i].target == p
    }

    /** The file at `p` after the first `k` effects, in closed form. */
    ghost function Expected(k: nat, p: Path): Option<Image>
      requires k <= |plan|
    {
      if Promoted(k, p) then Get(sealed, p) else if Deleted(k, p) then None else Get(repo.files, p)
    }

    ghost predicate DirAfter(k: nat, d: Path)
      requires k <= |plan|
    {
      (d in repo.dirs && !Promoted(k, d)) || exists p :: Promoted(k, p) && Above(d, p)
    }

    ghost predicate After(k: nat, t: Tree)
      requires k <= |plan|
    {
      && (forall p :: Get(t.files, p) == Expected(k, p))
      && (forall d :: d in t.dirs <==> DirAfter(k, d))
    }

    // ------------------------------------------------ what the plan holds

    lemma PlanItem(i: nat)
      requires Valid() && i < |plan|
      ensures var p: Path := plan[i].target;
              && p !in artifacts && p !in hidden
              && (plan[i].DeleteFile? ==> p in repo.files && p !in sealed)
              && (plan[i].PromoteFile? ==> p in sealed && plan[i].afterMode == Some(sealed[p].mode))
    {
      assert plan[i] in plan;
      ChangeForIsListed(changes, plan[i].target);
    }

    lemma DifferenceIsListed(p: Path)
      requires Valid() && ChangeAt(p, before, after).Some?
      ensures ChangeFor(changes, p) == ChangeAt(p, before, after)
    {
      ChangeForIsListed(changes, p);
    }

    lemma EveryStaleFileIsDeleted(p: Path)
      requires Valid() && p in repo.files && p !in hidden && p !in sealed
      ensures Deleted(|plan|, p)
    {
      assert p in Surface(repo.files, hidden) && p in before;
      DifferenceIsListed(p);
      assert EffectAt(changes, p, repo, sealed, artifacts).value in plan;
    }

    /** A sealed file is promoted unless the repository already holds it; the only files the
        delta cannot see are mode differences of entries recorded without a mode. */
    lemma EveryNewFileIsPromoted(p: Path)
      requires Valid() && p in sealed && p !in artifacts
      requires Get(repo.files, p) != Some(sealed[p])
      requires !(p in before && before[p].mode.None? && before[p].content == sealed[p].content)
      ensures Promoted(|plan|, p)
    {
      assert p in before <==> p in Surface(repo.files, hidden);
      assert p in repo.files <==> p in before;
      DifferenceIsListed(p);
      assert EffectAt(changes, p, repo, sealed, artifacts).value in plan;
    }

    lemma UnrecordedModesAreNotPromoted(p: Path)
      requires Valid() && p in before && p in sealed
      requires before[p].mode.None? && before[p].content == sealed[p].content
      ensures !Promoted(|plan|, p)
    {
      forall i | 0 <= i < |plan|
        ensures plan[i].target != p
      {
        assert plan[i] in plan;
        ChangeForIsListed(changes, plan[i].target);
      }
    }

    lemma PromotedIsSealed(k: nat, p: Path)
      requires Valid() && k <= |plan| && Promoted(k, p)
      ensures p in sealed && !Deleted(|plan|, p) && p !in hidden
    {
      var i :| 0 <= i < k && plan[i].PromoteFile? && plan[i].target == p;
      PlanItem(i);
      forall j | 0 <= j < |plan| && plan[j].DeleteFile?
        ensures plan[j].target != p
      {
        PlanItem(j);
      }
    }

    // ------------------------------------------------ running the plan

    /** A planned deletion always goes through. */
    lemma DeleteStep(k: nat, t: Tree)
      requires Valid() && k < |plan| && plan[k].DeleteFile? && After(k, t)
      ensures Unlink(t, plan[k].target).Some?
      ensures After(k + 1, Unlink(t, plan[k].target).value)
    {
      var p := plan[k].target;
      PlanItem(k);
      assert forall q :: !Promoted(k, q);
      forall q | q in t.files
        ensures q in repo.files
      {
        assert Get(t.files, q).Some?;
      }
      assert !Obstructed(t, p);
      assert p !in t.dirs by {
        assert !DirAfter(k, p);
      }
      DeletedNext(k);
      var t' := Unlink(t, p).value;
      forall q
        ensures Get(t'.files, q) == Expected(k + 1, q)
      {
        assert Get(t.files, q) == Expected(k, q);
      }
      forall d
        ensures d in t'.dirs <==> DirAfter(k + 1, d)
      {
        assert d in t.dirs <==> DirAfter(k, d);
      }
    }

    lemma DeletedNext(k: nat)
      requires k < |plan| && plan[k].DeleteFile?
      ensures forall q :: Promoted(k + 1, q) <==> Promoted(k, q)
      ensures forall q :: Deleted(k + 1, q) <==> Deleted(k, q) || q == plan[k].target
    {
      forall q
        ensures Promoted(k + 1, q) <==> Promoted(k, q)
        ensures Deleted(k + 1, q) <==> Deleted(k, q) || q == plan[k].target
      {
        if Promoted(k, q) {
          var i :| 0 <= i < k && plan[i].PromoteFile? && plan[i].target == q;
        }
        if Deleted(k, q) {
          var i :| 0 <= i < k && plan[i].DeleteFile? && plan[i].target == q;
        }
      }
    }

    /** Whatever lies below or above a promoted path at its turn was hidden from the delta. */
    lemma OnlyHiddenInTheWay(k: nat, t: Tree, q: Path)
      requires Valid() && k < |plan| && plan[k].PromoteFile? && After(k, t)
      requires q in t.files && (Above(q, plan[k].target) || Above(plan[k].target, q))
      ensures q in hidden && q in repo.files
    {
      PlanItem(k);
      assert Get(t.files, q).Some?;
      if Promoted(k, q) {
        PromotedIsSealed(k, q);
      } else if q !in hidden && q !in sealed {
        StaleFilesGoFirst(k, q);
      }
    }

    lemma StaleFilesGoFirst(k: nat, p: Path)
      requires Valid() && k < |plan| && plan[k].PromoteFile?
      requires p in repo.files && p !in hidden && p !in sealed
      ensures Deleted(k, p)
    {
      EveryStaleFileIsDeleted(p);
      var j :| 0 <= j < |plan| && plan[j].DeleteFile? && plan[j].target == p;
      assert j < k;
    }

    lemma HiddenFilesStay(k: nat, t: Tree, q: Path)
      requires Valid() && k <= |plan| && After(k, t) && q in hidden && q in repo.files
      ensures q in t.files
    {
      forall i | 0 <= i < k
        ensures plan[i].target != q
      {
        PlanItem(i);
      }
      assert !Promoted(k, q) && !Deleted(k, q);
      assert Get(t.files, q).Some?;
    }

    /** A promotion goes through exactly when nothing the delta cannot see is in its way. */
    lemma PromoteStep(k: nat, t: Tree)
      requires Valid() && k < |plan| && plan[k].PromoteFile? && plan[k].target in sealed && After(k, t)
      ensures Write(t, plan[k].target, sealed[plan[k].target]).Some? <==> !Blocked(plan[k].target)
    {
      var p := plan[k].target;
      PlanItem(k);
      forall q | q in t.files && (Above(q, p) || Above(p, q))
        ensures q in hidden && q in repo.files
      {
        OnlyHiddenInTheWay(k, t, q);
      }
      forall q | q in hidden && q in repo.files
        ensures q in t.files
      {
        HiddenFilesStay(k, t, q);
      }
      assert Obstructed(t, p) <==> exists q :: Above(q, p) && q in hidden && q in repo.files;
      DirectoriesBelow(k, t, p);
    }

    lemma DirectoriesBelow(k: nat, t: Tree, p: Path)
      requires Valid() && k < |plan| && plan[k].PromoteFile? && plan[k].target == p && After(k, t)
      ensures p in t.dirs <==> p in repo.dirs
      ensures forall d :: Above(p, d) ==> (d in t.dirs <==> d in repo.dirs)
    {
      PlanItem(k);
      forall q | Promoted(k, q)
        ensures q in sealed && q != p && !Above(p, q)
        ensures !Above(q, p)
        ensures forall d :: Above(p, d) ==> !Above(d, q)
      {
        PromotedIsSealed(k, q);
        forall d | Above(p, d) && Above(d, q)
          ensures Above(p, q)
        {
          AboveTransitive(p, d, q);
        }
      }
    }

    lemma PromotedNext(k: nat)
      requires k < |plan| && plan[k].PromoteFile?
      ensures forall q :: Promoted(k + 1, q) <==> Promoted(k, q) || q == plan[k].target
      ensures forall q :: Deleted(k + 1, q) <==> Deleted(k, q)
    {
      forall q
        ensures Promoted(k + 1, q) <==> Promoted(k, q) || q == plan[k].target
        ensures Deleted(k + 1, q) <==> Deleted(k, q)
      {
        if Promoted(k, q) {
          var i :| 0 <= i < k && plan[i].PromoteFile? && plan[i].target == q;
        }
        if Deleted(k, q) {
          var i :| 0 <= i < k && plan[i].DeleteFile? && plan[i].target == q;
        }
      }
    }

    lemma WriteStep(k: nat, t: Tree)
      requires Valid() && k < |plan| && plan[k].PromoteFile? && plan[k].target in sealed && After(k, t)
      requires Write(t, plan[k].target, sealed[plan[k].target]).Some?
      ensures After(k + 1, Write(t, plan[k].target, sealed[plan[k].target]).value)
    {
      var p := plan[k].target;
      PlanItem(k);
      PromotedNext(k);
      var t' := Write(t, p, sealed[p]).value;
      forall q
        ensures Get(t'.files, q) == Expected(k + 1, q)
      {
        assert Get(t.files, q) == Expected(k, q);
      }
      forall d
        ensures d in t'.dirs <==> DirAfter(k + 1, d)
      {
        assert d in t.dirs <==> DirAfter(k, d);
        if Above(d, p) {
          assert Promoted(k + 1, p);
        }
        if d == p {
          NothingPromotedBelow(k + 1, p);
        }
      }
    }

    lemma NothingPromotedBelow(k: nat, p: Path)
      requires Valid() && k <= |plan| && p in sealed
      ensures forall q :: Promoted(k, q) ==> !Above(p, q)
    {
      forall q | Promoted(k, q)
        ensures !Above(p, q)
      {
        PromotedIsSealed(k, q);
      }
    }

    lemma {:induction false} RunPrefix(k: nat)
      requires Valid() && k <= |plan|
      ensures Run(repo, sealed, plan[..k]).Some? <==>
              forall i :: 0 <= i < k && plan[i].PromoteFile? ==> !Blocked(plan[i].target)
      ensures Run(repo, sealed, plan[..k]).Some? ==>
              After(k, Run(repo, sealed, plan[..k]).value) && WellFormed(Run(repo, sealed, plan[..k]).value)
    {
      if k == 0 {
        assert forall p :: !Promoted(0, p) && !Deleted(0, p);
      } else {
        RunPrefix(k - 1);
        RunUnfolds(k);
        if Run(repo, sealed, plan[..k - 1]).Some? {
          StepFrom(k - 1, Run(repo, sealed, plan[..k - 1]).value);
        }
      }
    }

    lemma RunUnfolds(k: nat)
      requires 0 < k <= |plan|
      ensures var before := Run(repo, sealed, plan[..k - 1]);
              Run(repo, sealed, plan[..k]) == if before.None? then None
                  else ApplyFile(before.value, sealed, plan[k - 1])
    {
      assert plan[..k][..k - 1] == plan[..k - 1];
      assert plan[..k][k - 1] == plan[k - 1];
    }

    lemma StepFrom(k: nat, t: Tree)
      requires Valid() && k < |plan| && After(k, t) && WellFormed(t)
      ensures ApplyFile(t, sealed, plan[k]).Some? <==> (plan[k].PromoteFile? ==> !Blocked(plan[k].target))
      ensures var t' := ApplyFile(t, sealed, plan[k]); t'.Some? ==> After(k + 1, t'.value) && WellFormed(t'.value)
    {
      PlanItem(k);
      if plan[k].DeleteFile? {
        DeleteStep(k, t);
        UnlinkKeepsShape(t, plan[k].target);
      } else {
        PromoteStep(k, t);
        assert ApplyFile(t, sealed, plan[k]) == Write(t, plan[k].target, sealed[plan[k].target]);
        if !Blocked(plan[k].target) {
          WriteStep(k, t);
          WriteKeepsShape(t, plan[k].target, sealed[plan[k].target]);
        }
      }
    }

    // ------------------------------------------------ the delivery theorems

    /** The caller's check: no sealed file outside the artifacts is blocked. */
    ghost predicate Unobstructed() {
      forall p :: p in sealed && p !in artifacts ==> !Blocked(p)
    }

    /** The delta cannot see a mode change at `p`. */
    ghost predicate Unseen(p: Path) {
      p in before && p in sealed && before[p].mode.None? && before[p].content == sealed[p].content
    }

    /** Files whose baseline mode was not recorded already carry the candidate's mode. */
    ghost predicate ModesAgree() {
      forall p :: Unseen(p) ==> Get(repo.files, p) == Some(sealed[p])
    }

    lemma DeliveryGoesThroughIffUnobstructed()
      requires Valid()
      ensures Run(repo, sealed, plan).Some? <==> Unobstructed()
    {
      RunPrefix(|plan|);
      assert plan[..|plan|] == plan;
      forall i | 0 <= i < |plan| && plan[i].PromoteFile?
        ensures plan[i].target in sealed && plan[i].target !in artifacts
      {
        PlanItem(i);
      }
      forall p | p in sealed && p !in artifacts && Blocked(p)
        ensures Promoted(|plan|, p)
      {
        BlockedIsNew(p);
        EveryNewFileIsPromoted(p);
      }
    }

    lemma BlockedIsNew(p: Path)
      requires Valid() && p in sealed && Blocked(p)
      ensures p !in repo.files && p !in before
    {
      assert p in before ==> p in repo.files;
    }

    /** Every prefix of a delivery leaves a proper tree: no file lies below another file. */
    lemma EveryPrefixIsTreeShaped(k: nat)
      requires Valid() && k <= |plan| && Run(repo, sealed, plan[..k]).Some?
      ensures TreeShaped(Run(repo, sealed, plan[..k]).value.files.Keys)
    {
      RunPrefix(k);
      WellFormedIsTreeShaped(Run(repo, sealed, plan[..k]).value);
    }

    /** A delivery that goes through ends exactly at the candidate's surface (outside the artifacts)
        if and only if no mode difference was invisible to the delta. */
    lemma DeliveryReachesTheCandidate()
      requires Valid() && Run(repo, sealed, plan).Some?
      ensures SameSurface(Run(repo, sealed, plan).value.files, sealed, hidden, artifacts) <==> ModesAgree()
      ensures var t := Run(repo, sealed, plan).value;
              forall p :: p in hidden || p in artifacts ==> Get(t.files, p) == Get(repo.files, p)
    {
      RunPrefix(|plan|);
      assert plan[..|plan|] == plan;
      var t := Run(repo, sealed, plan).value;
      forall p | p in hidden || p in artifacts
        ensures Get(t.files, p) == Get(repo.files, p)
      {
        FinalFile(p, t);
      }
      if ModesAgree() {
        AgreeingModesReachTheCandidate(t);
      } else {
        UnseenModeStays(t);
      }
    }

    lemma AgreeingModesReachTheCandidate(t: Tree)
      requires Valid() && After(|plan|, t) && ModesAgree()
      ensures SameSurface(t.files, sealed, hidden, artifacts)
    {
      var left, right := Surface(t.files, hidden) - artifacts, sealed - artifacts;
      forall p
        ensures Get(left, p) == Get(right, p)
      {
        FinalFile(p, t);
        if p !in hidden && p !in artifacts {
          assert Get(left, p) == Get(t.files, p) && Get(right, p) == Get(sealed, p);
        }
      }
      SameGetIsSameMap(left, right);
    }

    lemma UnseenModeStays(t: Tree)
      requires Valid() && After(|plan|, t) && !ModesAgree()
      ensures !SameSurface(t.files, sealed, hidden, artifacts)
    {
      var p :| Unseen(p) && Get(repo.files, p) != Some(sealed[p]);
      UnseenModeStaysAt(t, p);
    }

    lemma UnseenModeStaysAt(t: Tree, p: Path)
      requires Valid() && After(|plan|, t) && Unseen(p) && Get(repo.files, p) != Some(sealed[p])
      ensures !SameSurface(t.files, sealed, hidden, artifacts)
    {
      BaselineIsVisible(p);
      FinalFile(p, t);
      DifferenceShows(t.files, p);
    }

    lemma BaselineIsVisible(p: Path)
      requires Valid() && p in before
      ensures p in repo.files && p !in hidden && p !in artifacts
    {
      assert p in before.Keys && p in Surface(repo.files, hidden).Keys;
    }

    lemma DifferenceShows(files: map<Path, Image>, p: Path)
      requires p !in hidden && p !in artifacts && Get(files, p) != Get(sealed, p)
      ensures !SameSurface(files, sealed, hidden, artifacts)
    {
      var left, right := Surface(files, hidden) - artifacts, sealed - artifacts;
      assert Get(left, p) == Get(files, p) && Get(right, p) == Get(sealed, p);
    }

    /** The file at `p` once the whole plan has run. */
    ghost function Final(p: Path): Option<Image> {
      if p in hidden || p in artifacts || Unseen(p) then Get(repo.files, p) else Get(sealed, p)
    }

    lemma FinalFile(p: Path, t: Tree)
      requires Valid() && After(|plan|, t)
      ensures Get(t.files, p) == Final(p)
    {
      assert Get(t.files, p) == Expected(|plan|, p);
      if p in hidden || p in artifacts {
        forall i | 0 <= i < |plan|
          ensures plan[i].target != p
        {
          PlanItem(i);
        }
      } else if Unseen(p) {
        UnrecordedModesAreNotPromoted(p);
        NotDeletedWhenSealed(p);
      } else if p in sealed {
        NotDeletedWhenSealed(p);
        if Get(repo.files, p) != Some(sealed[p]) {
          EveryNewFileIsPromoted(p);
        }
      } else {
        NotPromotedUnlessSealed(p);
        if p in repo.files {
          EveryStaleFileIsDeleted(p);
        }
      }
    }

    lemma NotDeletedWhenSealed(p: Path)
      requires Valid() && p in sealed
      ensures !Deleted(|plan|, p)
    {
      forall i | 0 <= i < |plan| && plan[i].DeleteFile?
        ensures plan[i].target != p
      {
        PlanItem(i);
      }
    }

    lemma NotPromotedUnlessSealed(p: Path)
      requires Valid() && p !in sealed
      ensures !Promoted(|plan|, p)
    {
      forall i | 0 <= i < |plan| && plan[i].PromoteFile?
        ensures plan[i].target != p
      {
        PlanItem(i);
      }
    }
  }

  lemma SameGetIsSameMap<K(!new), V>(m: map<K, V>, n: map<K, V>)
    requires forall k :: Get(m, k) == Get(n, k)
    ensures m == n
  {
    forall k
      ensures k in m <==> k in n
      ensures k in m ==> m[k] == n[k]
    {
      assert Get(m, k) == Get(n, k);
    }
  }

  // ---------------------------------------------------------------- the final check

  datatype SourceError =
    | ManifestMismatch | DeleteMissed(path: Path) | SourceMissing(path: Path) | SourceMismatch(path: Path)

  /** What the check of one change reports, against the files now in the repository. */
  function ChangeError(c: Change, files: map<Path, Image>, artifacts: set<Path>): Option<SourceError> {
    if c.path in artifacts || !Admissible(c.path) then None
    else if c.kind == Delete then (if c.path in files then Some(DeleteMissed(c.path)) else None)
    else if c.path !in files then Some(SourceMissing(c.path))
    else if (c.after.Some? && files[c.path].content != c.after.value) ||
            (c.afterMode.Some? && files[c.path].mode != c.afterMode.value) then Some(SourceMismatch(c.path))
    else None
  }

  method ValidateIntegratedSource(files: map<Path, Image>, sealed: map<Path, Image>, changes: seq<Change>,
                                  hidden: set<Path>, artifacts: set<Path>)
    returns (errors: seq<SourceError>)
    ensures errors == [] <==>
            SameSurface(files, sealed, hidden, artifacts) &&
            forall i :: 0 <= i < |changes| ==> ChangeError(changes[i], files, artifacts).None?
    ensures ManifestMismatch in errors <==> !SameSurface(files, sealed, hidden, artifacts)
    ensures forall i :: 0 <= i < |changes| && ChangeError(changes[i], files, artifacts).Some? ==>
              ChangeError(changes[i], files, artifacts).value in errors
    ensures forall e :: e in errors && e != ManifestMismatch ==>
              exists i :: 0 <= i < |changes| && ChangeError(changes[i], files, artifacts) == Some(e)
  {
    var reports := CheckChanges(files, changes, artifacts);
    errors := (if SameSurface(files, sealed, hidden, artifacts) then [] else [ManifestMismatch]) + reports;
  }

  method CheckChanges(files: map<Path, Image>, changes: seq<Change>, artifacts: set<Path>)
    returns (reports: seq<SourceError>)
    ensures reports == [] <==> forall i :: 0 <= i < |changes| ==> ChangeError(changes[i], files, artifacts).None?
    ensures forall i :: 0 <= i < |changes| && ChangeError(changes[i], files, artifacts).Some? ==>
              ChangeError(changes[i], files, artifacts).value in reports
    ensures forall e :: e in reports ==>
              e != ManifestMismatch && exists i :: 0 <= i < |changes|
                                         && ChangeError(changes[i], files, artifacts) == Some(e)
  {
    reports := [];
    for n := 0 to |changes|
      invariant reports == [] <==> forall i :: 0 <= i < n ==> ChangeError(changes[i], files, artifacts).None?
      invariant forall i :: 0 <= i < n && ChangeError(changes[i], files, artifacts).Some? ==>
                  ChangeError(changes[i], files, artifacts).value in reports
      invariant forall e :: e in reports ==>
                  e != ManifestMismatch && exists i :: 0 <= i < n
                                             && ChangeError(changes[i], files, artifacts) == Some(e)
    {
      var error := ChangeError(changes[n], files, artifacts);
      if error.Some? {
        reports := reports + [error.value];
      }
    }
  }

  /** The per-change checks never report on a repository whose surface is the candidate's. */
  lemma SameSurfacePassesEveryChange(files: map<Path, Image>, sealed: map<Path, Image>, changes: seq<Change>,
                                     before: map<Path, Entry>, after: map<Path, Entry>,
                                     hidden: set<Path>, artifacts: set<Path>)
    requires IsDelta(changes, before, after) && Records(after, sealed)
    requires before.Keys !! hidden && sealed.Keys !! hidden
    requires SameSurface(files, sealed, hidden, artifacts)
    ensures forall c :: c in changes ==> ChangeError(c, files, artifacts).None?
  {
    var left, right := Surface(files, hidden) - artifacts, sealed - artifacts;
    forall c | c in changes
      ensures ChangeError(c, files, artifacts).None?
    {
      assert c.path in before || c.path in after;
      assert c.path in left <==> c.path in right;
      if c.path in right {
        assert left[c.path] == files[c.path] && right[c.path] == sealed[c.path];
      }
    }
  }

  /** The live loop over a plan none of whose effects is refused. */
  method RunPlan(repo: Tree, sealed: map<Path, Image>, plan: seq<FileEffect>) returns (t: Tree)
    requires Run(repo, sealed, plan).Some?
    ensures Run(repo, sealed, plan) == Some(t)
  {
    t := repo;
    for k := 0 to |plan|
      invariant Run(repo, sealed, plan[..k]) == Some(t)
    {
      assert plan[..k + 1][..k] == plan[..k] && plan[..k + 1][k] == plan[k];
      PrefixRuns(repo, sealed, plan, k + 1);
      t := ApplyFile(t, sealed, plan[k]).value;
    }
    assert plan[..|plan|] == plan;
  }

  /** The whole delivery, from plan to final check: an unobstructed plan runs to the end, leaves a proper tree
      and nothing changed that is ignored, and the check of the integrated source reports nothing exactly
      when no mode difference was invisible to the delta. */
  method Deliver(s: Setting) returns (t: Tree, errors: seq<SourceError>)
    requires s.Valid() && s.Unobstructed()
    ensures Run(s.repo, s.sealed, s.plan) == Some(t)
    ensures TreeShaped(t.files.Keys)
    ensures forall p :: p in s.hidden || p in s.artifacts ==> Get(t.files, p) == Get(s.repo.files, p)
    ensures errors == [] <==> s.ModesAgree()
  {
    s.DeliveryGoesThroughIffUnobstructed();
    s.DeliveryReachesTheCandidate();
    assert s.plan[..|s.plan|] == s.plan;
    s.EveryPrefixIsTreeShaped(|s.plan|);
    t := RunPlan(s.repo, s.sealed, s.plan);
    errors := ValidateIntegratedSource(t.files, s.sealed, s.changes, s.hidden, s.artifacts);
    if s.ModesAgree() {
      SameSurfacePassesEveryChange(t.files, s.sealed, s.changes, s.before, s.after, s.hidden, s.artifacts);
    }
  }

  lemma {:induction false} PrefixRuns(t: Tree, sealed: map<Path, Image>, plan: seq<FileEffect>, k: nat)
    requires Run(t, sealed, plan).Some? && k <= |plan|
    ensures Run(t, sealed, plan[..k]).Some?
  {
    if k < |plan| {
      PrefixRuns(t, sealed, plan[..|plan| - 1], k);
      assert plan[..|plan| - 1][..k] == plan[..k];
    } else {
      assert plan[..k] == plan;
    }
  }
}
