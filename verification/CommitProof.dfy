// When a commit can be proven later: the condition on the recorded tree, read off the delivery.
module CommitProof {
  import opened Basics
  import opened FileTree
  import opened Delivery
  import opened Integration
  import opened Acceptance
  import opened Recovery
  import opened Submission
  import opened SubmissionOutcome
  import opened CrashOutcome

  ghost predicate Promotes(s: Setting, q: Path) {
    s.Promoted(|s.plan|, q)
  }

  ghost predicate Deletes(s: Setting, q: Path) {
    s.Deleted(|s.plan|, q)
  }

  /** Git knows every promoted file already. */
  ghost predicate Tracked(s: Setting, tree: GitTree) {
    forall q :: Promotes(s, q) ==> q in tree
  }

  /** The owner may execute a promoted file if anybody may. */
  ghost predicate PlainModes(s: Setting) {
    forall q :: Promotes(s, q) && q in s.sealed && Executable(s.sealed[q].mode) ==> OwnerExecutable(s.sealed[q].mode)
  }

  ghost predicate SeenAt(s: Setting, tree: GitTree, q: Path) {
    || (Promotes(s, q) && q in s.sealed && Get(tree, q) != Some(BlobOf(s.sealed[q])))
    || (Deletes(s, q) && q in tree)
  }

  /** Git sees that something changed. */
  ghost predicate Visible(s: Setting, tree: GitTree) {
    exists q :: SeenAt(s, tree, q)
  }

  // ---------------------------------------------------------------- the intended tree in closed form

  ghost function IntendedAt(s: Setting, tree: GitTree, k: nat, q: Path): Option<Blob>
    requires k <= |s.plan|
  {
    if s.Promoted(k, q) && q in s.sealed then Some(Blob(s.sealed[q].content, Executable(s.sealed[q].mode)))
    else if s.Deleted(k, q) then None
    else Get(tree, q)
  }

  ghost predicate IntendedSoFar(s: Setting, tree: GitTree, k: nat)
    requires k <= |s.plan|
  {
    var intended := IntendedTree(tree, s.sealed, FileEffects(s.plan[..k]));
    && (intended.Some? <==> forall q :: s.Promoted(k, q) ==> q in tree)
    && (intended.Some? ==> forall q :: Get(intended.value, q) == IntendedAt(s, tree, k, q))
  }

  lemma {:induction false} IntendedOfFiles(s: Setting, tree: GitTree, k: nat)
    requires s.Valid() && k <= |s.plan|
    ensures IntendedSoFar(s, tree, k)
    decreases k
  {
    if k == 0 {
      assert FileEffects(s.plan[..0]) == [];
      assert forall q :: !s.Promoted(0, q) && !s.Deleted(0, q);
    } else {
      IntendedOfFiles(s, tree, k - 1);
      IntendedStep(s, tree, k - 1);
    }
  }

  lemma IntendedUnfolds(s: Setting, tree: GitTree, k: nat)
    requires k < |s.plan|
    ensures FileEffects(s.plan[..k + 1]) == FileEffects(s.plan[..k]) + [File(s.plan[k])]
    ensures var effects := FileEffects(s.plan[..k + 1]);
            effects[..|effects| - 1] == FileEffects(s.plan[..k]) && effects[|effects| - 1] == File(s.plan[k])
  {
  }

  lemma IntendedStep(s: Setting, tree: GitTree, k: nat)
    requires s.Valid() && k < |s.plan| && IntendedSoFar(s, tree, k)
    ensures IntendedSoFar(s, tree, k + 1)
  {
    IntendedUnfolds(s, tree, k);
    s.PlanItem(k);
    if s.plan[k].DeleteFile? {
      IntendedDelete(s, tree, k);
    } else {
      IntendedPromote(s, tree, k);
    }
  }

  lemma IntendedDelete(s: Setting, tree: GitTree, k: nat)
    requires s.Valid() && k < |s.plan| && IntendedSoFar(s, tree, k) && s.plan[k].DeleteFile?
    ensures IntendedSoFar(s, tree, k + 1)
  {
    IntendedUnfolds(s, tree, k);
    s.PlanItem(k);
    s.DeletedNext(k);
    var before, after := IntendedTree(tree, s.sealed, FileEffects(s.plan[..k])),
                         IntendedTree(tree, s.sealed, FileEffects(s.plan[..k + 1]));
    if before.Some? {
      assert after == Some(before.value - {s.plan[k].target});
      forall q
        ensures Get(after.value, q) == IntendedAt(s, tree, k + 1, q)
      {
        assert Get(before.value, q) == IntendedAt(s, tree, k, q);
      }
    }
  }

  lemma IntendedPromote(s: Setting, tree: GitTree, k: nat)
    requires s.Valid() && k < |s.plan| && IntendedSoFar(s, tree, k) && s.plan[k].PromoteFile?
    ensures IntendedSoFar(s, tree, k + 1)
  {
    var t := s.plan[k].target;
    IntendedUnfolds(s, tree, k);
    s.PlanItem(k);
    s.PromotedNext(k);
    s.NotDeletedWhenSealed(t);
    assert !s.Deleted(k, t);
    assert !s.Promoted(k, t);
    var before, after := IntendedTree(tree, s.sealed, FileEffects(s.plan[..k])),
                         IntendedTree(tree, s.sealed, FileEffects(s.plan[..k + 1]));
    assert s.Promoted(k + 1, t);
    if before.Some? {
      assert Get(before.value, t) == Get(tree, t);
      var blob := Blob(s.sealed[t].content, Executable(s.sealed[t].mode));
      assert after == if t in tree then Some(before.value[t := blob]) else None;
      if t in tree {
        forall q
          ensures Get(after.value, q) == IntendedAt(s, tree, k + 1, q)
        {
          assert Get(before.value, q) == IntendedAt(s, tree, k, q);
        }
      }
    }
  }

  lemma {:induction false} IntendedSkips(tree: GitTree, sealed: map<Path, Image>, a: seq<Effect>, b: seq<Effect>)
    requires forall e :: e in b ==> !e.File?
    ensures IntendedTree(tree, sealed, a + b) == IntendedTree(tree, sealed, a)
  {
    if b == [] {
      assert a + b == a;
    } else {
      assert (a + b)[..|a + b| - 1] == a + b[..|b| - 1] && b[|b| - 1] in b;
      IntendedSkips(tree, sealed, a, b[..|b| - 1]);
    }
  }

  lemma IntendedOfParcel(p: Parcel, tree: GitTree)
    requires p.delivery.Valid() && ArtifactsApart(p.artifacts, p.taskId)
    ensures IntendedSoFar(p.delivery, tree, |p.delivery.plan|)
    ensures IntendedTree(tree, p.delivery.sealed, p.Effects())
            == IntendedTree(tree, p.delivery.sealed, FileEffects(p.delivery.plan[..|p.delivery.plan|]))
  {
    var s := p.delivery;
    IntendedOfFiles(s, tree, |s.plan|);
    assert s.plan[..|s.plan|] == s.plan;
    FilesComeFirst(s.plan, p.git, p.message, p.artifacts, p.children, p.links, p.taskId, p.toState);
    OthersAreNoFiles(s.plan, p.git, p.message, p.artifacts, p.children, p.links, p.taskId, p.toState);
    IntendedSkips(tree, s.sealed, FileEffects(s.plan),
                  OtherEffects(s.plan, p.git, p.message, p.artifacts, p.children, p.links, p.taskId, p.toState));
  }

  /** A submission that adds a file to a git repository cannot prove its commit. */
  lemma AddedFileIsNotProvable(p: Parcel, site: Site, q: Path)
    requires p.delivery.Valid() && ArtifactsApart(p.artifacts, p.taskId) && p.Committed() != []
    requires Promotes(p.delivery, q) && q !in site.head.tree
    ensures !CommitProvable(p, site)
  {
    IntendedOfParcel(p, site.head.tree);
  }

  // ---------------------------------------------------------------- the tree git makes in closed form

  ghost function MadeAt(p: Parcel, site: Site, q: Path): Option<Blob> {
    if q in p.Committed() && q !in site.ignored then
      (if Promotes(p.delivery, q) && q in p.delivery.sealed then Some(BlobOf(p.delivery.sealed[q])) else None)
    else Get(site.head.tree, q)
  }

  lemma MadeInClosedForm(p: Parcel, site: Site, q: Path)
    requires p.delivery.Valid() && ArtifactsApart(p.artifacts, p.taskId)
    ensures Get(MadeTree(p, site), q) == MadeAt(p, site, q)
  {
    PromotionsOfThePlan(p, q);
  }

  lemma CommittedPaths(p: Parcel, q: Path)
    requires p.Committed() != []
    ensures q in p.Committed() <==> Promotes(p.delivery, q) || Deletes(p.delivery, q)
  {
    var plan := p.delivery.plan;
    if q in p.Committed() {
      var i :| 0 <= i < |plan| && Targets(plan)[i] == q;
      assert plan[i].target == q;
    }
    if i :| 0 <= i < |plan| && plan[i].target == q {
      assert Targets(plan)[i] == q;
    }
  }

  lemma Apart(s: Setting, q: Path)
    requires s.Valid()
    ensures Promotes(s, q) ==> q in s.sealed && !Deletes(s, q)
  {
    if Promotes(s, q) {
      s.PromotedIsSealed(|s.plan|, q);
    }
  }

  /** Where every promoted file is tracked, the two trees differ by executable bits at most. */
  lemma TreesCompare(p: Parcel, site: Site, q: Path)
    requires p.delivery.Valid() && ArtifactsApart(p.artifacts, p.taskId) && p.Committed() != []
    requires site.ignored !! site.head.tree.Keys && Tracked(p.delivery, site.head.tree)
    ensures var intended := IntendedAt(p.delivery, site.head.tree, |p.delivery.plan|, q);
            if Promotes(p.delivery, q)
            then (MadeAt(p, site, q) == intended
                  <==> (Executable(p.delivery.sealed[q].mode) ==> OwnerExecutable(p.delivery.sealed[q].mode)))
            else MadeAt(p, site, q) == intended
    ensures MadeAt(p, site, q) != Get(site.head.tree, q) <==> SeenAt(p.delivery, site.head.tree, q)
  {
    CommittedPaths(p, q);
    Apart(p.delivery, q);
  }

  /** A commit can be proven later if and only if every promoted file is tracked, its execute bits say the
      same to git and to the journal, and git sees a change. Git never ignores what it tracks. */
  lemma ProvableIff(p: Parcel, site: Site)
    requires p.delivery.Valid() && ArtifactsApart(p.artifacts, p.taskId) && p.Committed() != []
    requires site.ignored !! site.head.tree.Keys
    ensures CommitProvable(p, site)
            <==> Tracked(p.delivery, site.head.tree) && PlainModes(p.delivery) && Visible(p.delivery, site.head.tree)
  {
    var s, tree := p.delivery, site.head.tree;
    IntendedOfParcel(p, tree);
    var intended := IntendedTree(tree, s.sealed, p.Effects());
    assert intended.Some? <==> Tracked(s, tree);
    if Tracked(s, tree) {
      MadeIsIntendedIff(p, site);
      MadeIsSeenIff(p, site);
    }
  }

  lemma MadeIsIntendedIff(p: Parcel, site: Site)
    requires p.delivery.Valid() && ArtifactsApart(p.artifacts, p.taskId) && p.Committed() != []
    requires site.ignored !! site.head.tree.Keys && Tracked(p.delivery, site.head.tree)
    ensures IntendedTree(site.head.tree, p.delivery.sealed, p.Effects()) == Some(MadeTree(p, site)) <==>
            PlainModes(p.delivery)
  {
    var s, tree := p.delivery, site.head.tree;
    IntendedOfParcel(p, tree);
    var intended := IntendedTree(tree, s.sealed, p.Effects()).value;
    forall q
      ensures Get(MadeTree(p, site), q) == MadeAt(p, site, q) && Get(intended, q) == IntendedAt(s, tree, |s.plan|, q)
      ensures Promotes(s, q) ==> q in s.sealed
      ensures MadeAt(p, site, q) == IntendedAt(s, tree, |s.plan|, q) <==>
              (Promotes(s, q) && q in s.sealed && Executable(s.sealed[q].mode) ==> OwnerExecutable(s.sealed[q].mode))
    {
      MadeInClosedForm(p, site, q);
      TreesCompare(p, site, q);
      Apart(s, q);
    }
    if PlainModes(s) {
      SameGetIsSameMap(MadeTree(p, site), intended);
    }
  }

  lemma MadeIsSeenIff(p: Parcel, site: Site)
    requires p.delivery.Valid() && ArtifactsApart(p.artifacts, p.taskId) && p.Committed() != []
    requires site.ignored !! site.head.tree.Keys && Tracked(p.delivery, site.head.tree)
    ensures MadeTree(p, site) != site.head.tree <==> Visible(p.delivery, site.head.tree)
  {
    forall q
      ensures Get(MadeTree(p, site), q) != Get(site.head.tree, q) <==> SeenAt(p.delivery, site.head.tree, q)
    {
      MadeInClosedForm(p, site, q);
      TreesCompare(p, site, q);
    }
    if !Visible(p.delivery, site.head.tree) {
      SameGetIsSameMap(MadeTree(p, site), site.head.tree);
    }
  }
}
