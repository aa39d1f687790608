// From a sealed candidate to the repository: the authoritative delta of two manifests, and the ordered
// plan of deletions and promotions made from it.
module Delivery {
  import opened Basics
  import opened FileTree

  /** One manifest line. Old baselines may not record a mode. */
  datatype Entry = Entry(path: Path, content: string, mode: Option<nat>)

  datatype Kind = Add | Delete | Edit

  datatype Change = Change(kind: Kind, path: Path,
                           before: Option<string>, after: Option<string>,
                           beforeMode: Option<nat>, afterMode: Option<nat>)

  datatype FileEffect =
    | DeleteFile(target: Path, before: Option<string>)
    | PromoteFile(target: Path, before: Option<string>, beforeMode: Option<nat>,
                  after: Option<string>, afterMode: Option<nat>, existed: bool)

  // ---------------------------------------------------------------- the delta

  /** A captured manifest lists its entries in path order. */
  predicate Sorted(m: seq<Entry>) {
    forall i, j :: 0 <= i < j < |m| ==> Before(m[i].path, m[j].path)
  }

  function ByPath(m: seq<Entry>): map<Path, Entry> {
    if m == [] then map[] else ByPath(m[..|m| - 1])[m[|m| - 1].path := m[|m| - 1]]
  }

  lemma ByPathExact(m: seq<Entry>)
    requires Sorted(m)
    ensures forall i :: 0 <= i < |m| ==> m[i].path in ByPath(m) && ByPath(m)[m[i].path] == m[i]
    ensures forall p :: p in ByPath(m) ==> ByPath(m)[p] in m && ByPath(m)[p].path == p
  {
    if m != [] {
      var init, last := m[..|m| - 1], m[|m| - 1];
      ByPathExact(init);
      forall i | 0 <= i < |init|
        ensures init[i].path != last.path
      {
        BeforeTotal(m[i].path, last.path);
      }
      assert m == init + [last];
    }
  }

  /** The change recorded at `p`, read off the two manifests. */
  function ChangeAt(p: Path, before: map<Path, Entry>, after: map<Path, Entry>): Option<Change> {
    if p in after && p !in before then
      Some(Change(Add, p, None, Some(after[p].content), None, after[p].mode))
    else if p in before && p !in after then
      Some(Change(Delete, p, Some(before[p].content), None, before[p].mode, None))
    else if p in before && p in after &&
            (before[p].content != after[p].content || (before[p].mode.Some? && before[p].mode != after[p].mode)) then
      Some(Change(Edit, p, Some(before[p].content), Some(after[p].content), before[p].mode, after[p].mode))
    else None
  }

  function Rank(k: Kind): nat {
    match k case Add => 0 case Delete => 1 case Edit => 2
  }

  predicate Precedes(c: Change, d: Change) {
    Rank(c.kind) < Rank(d.kind) || (c.kind == d.kind && Before(c.path, d.path))
  }

  /** Exactly one change for every path that differs: additions, deletions, edits, each in path order. */
  ghost predicate IsDelta(changes: seq<Change>, before: map<Path, Entry>, after: map<Path, Entry>) {
    && (forall c :: c in changes ==> ChangeAt(c.path, before, after) == Some(c))
    && (forall p :: ChangeAt(p, before, after).Some? ==> ChangeAt(p, before, after).value in changes)
    && (forall i, j :: 0 <= i < j < |changes| ==> Precedes(changes[i], changes[j]))
  }

  /** All changes of one kind and no others. */
  ghost predicate Selected(changes: seq<Change>, kind: Kind, before: map<Path, Entry>, after: map<Path, Entry>) {
    && (forall c :: c in changes <==> c.kind == kind && ChangeAt(c.path, before, after) == Some(c))
    && (forall i, j :: 0 <= i < j < |changes| ==> Precedes(changes[i], changes[j]))
  }

  method ChangesOfKind(kind: Kind, listing: seq<Entry>, before: map<Path, Entry>, after: map<Path, Entry>)
    returns (changes: seq<Change>)
    requires Sorted(listing)
    requires ByPath(listing) == if kind == Delete then before else after
    ensures Selected(changes, kind, before, after)
  {
    changes := [];
    for n := 0 to |listing|
      invariant forall c :: c in changes ==> c.kind == kind && ChangeAt(c.path, before, after) == Some(c)
      invariant forall c, i :: c in changes && n <= i < |listing| ==> Before(c.path, listing[i].path)
      invariant forall i :: 0 <= i < n && ChangeAt(listing[i].path, before, after).Some?
                  && ChangeAt(listing[i].path, before, after).value.kind == kind
                  ==> ChangeAt(listing[i].path, before, after).value in changes
      invariant forall i, j :: 0 <= i < j < |changes| ==> Precedes(changes[i], changes[j])
    {
      var change := ChangeAt(listing[n].path, before, after);
      if change.Some? && change.value.kind == kind {
        changes := changes + [change.value];
      }
    }
    ByPathExact(listing);
    forall c: Change | c.kind == kind && ChangeAt(c.path, before, after) == Some(c)
      ensures c in changes
    {
      assert ByPath(listing)[c.path] in listing;
    }
  }

  lemma AssembleDelta(added: seq<Change>, deleted: seq<Change>, edited: seq<Change>,
                      before: map<Path, Entry>, after: map<Path, Entry>)
    requires Selected(added, Add, before, after)
    requires Selected(deleted, Delete, before, after)
    requires Selected(edited, Edit, before, after)
    ensures IsDelta(added + deleted + edited, before, after)
  {
    var changes := added + deleted + edited;
    forall i, j | 0 <= i < j < |changes|
      ensures Precedes(changes[i], changes[j])
    {
      assert changes[i] in added || changes[i] in deleted || changes[i] in edited;
      if j < |added| {
        assert Precedes(added[i], added[j]);
      } else if i >= |added| && j < |added| + |deleted| {
        assert Precedes(deleted[i - |added|], deleted[j - |added|]);
      } else if i >= |added| + |deleted| {
        assert Precedes(edited[i - |added| - |deleted|], edited[j - |added| - |deleted|]);
      }
    }
  }

  method ComputeDelta(baseline: Option<seq<Entry>>, candidate: seq<Entry>) returns (changes: seq<Change>)
    requires baseline.Some? ==> Sorted(baseline.value)
    requires Sorted(candidate)
    ensures IsDelta(changes, if baseline.None? then map[] else ByPath(baseline.value), ByPath(candidate))
  {
    var listed := if baseline.None? then [] else baseline.value;
    var before, after := ByPath(listed), ByPath(candidate);
    var added := ChangesOfKind(Add, candidate, before, after);
    var deleted := ChangesOfKind(Delete, listed, before, after);
    var edited := ChangesOfKind(Edit, candidate, before, after);
    AssembleDelta(added, deleted, edited, before, after);
    changes := added + deleted + edited;
  }

  // ---------------------------------------------------------------- the plan

  /** `p[i..j]` is a run of whole components. */
  predicate Components(p: Path, i: nat, j: nat)
    requires i <= j <= |p|
  {
    (i == 0 || p[i - 1] == '/') && (j == |p| || p[j] == '/')
  }

  /** A relative path that neither climbs out of the root nor enters the runtime's own directory. */
  predicate Admissible(p: Path) {
    && p != [] && p[0] != '/'
    && forall i, j :: 0 <= i <= j <= |p| && Components(p, i, j) ==> p[i..j] != ".." && p[i..j] != ".open-tulid"
  }

  /** What one change becomes, or nothing when it is skipped. */
  function Planned(c: Change, repo: Tree, sealed: map<Path, Image>, artifacts: set<Path>): Option<FileEffect> {
    if c.path in artifacts || !Admissible(c.path) then None
    else if c.kind == Delete then Some(DeleteFile(c.path, c.before))
    else if c.path !in sealed || Get(repo.files, c.path) == Some(sealed[c.path]) then None
    else Some(PromoteFile(c.path, c.before, c.beforeMode, c.after, c.afterMode, Exists(repo, c.path)))
  }

  /** The first change recorded for a path; later ones are ignored. */
  function ChangeFor(changes: seq<Change>, p: Path): Option<Change> {
    if changes == [] then None
    else
      var earlier, last := ChangeFor(changes[..|changes| - 1], p), changes[|changes| - 1];
      if earlier.Some? then earlier else if last.path == p then Some(last) else None
  }

  lemma {:induction false} ChangeForIsListed(changes: seq<Change>, p: Path)
    ensures ChangeFor(changes, p).Some? ==>
              ChangeFor(changes, p).value in changes && ChangeFor(changes, p).value.path == p
    ensures ChangeFor(changes, p).None? ==> forall c :: c in changes ==> c.path != p
  {
    if changes != [] {
      ChangeForIsListed(changes[..|changes| - 1], p);
      assert changes == changes[..|changes| - 1] + [changes[|changes| - 1]];
    }
  }

  /** The effect planned for a path. */
  function EffectAt(changes: seq<Change>, p: Path, repo: Tree, sealed: map<Path, Image>,
                    artifacts: set<Path>): Option<FileEffect> {
    var c := ChangeFor(changes, p);
    if c.None? then None else Planned(c.value, repo, sealed, artifacts)
  }

  predicate Ordered(s: seq<FileEffect>) {
    forall i, j :: 0 <= i < j < |s| ==> Before(s[i].target, s[j].target)
  }

  /** Every deletion before every promotion, each group in target order, nothing else and nothing lost. */
  ghost predicate IsPlan(plan: seq<FileEffect>, changes: seq<Change>,
                         repo: Tree, sealed: map<Path, Image>, artifacts: set<Path>)
  {
    && (forall e :: e in plan <==> EffectAt(changes, e.target, repo, sealed, artifacts) == Some(e))
    && (forall i, j :: 0 <= i < j < |plan| ==> plan[i].DeleteFile? || plan[j].PromoteFile?)
    && (forall i, j :: 0 <= i < j < |plan| ==> plan[i].target != plan[j].target)
    && (forall i, j :: 0 <= i < j < |plan| && plan[i].DeleteFile? == plan[j].DeleteFile? ==>
          Before(plan[i].target, plan[j].target))
  }

  /** One step of sorting by target. */
  function Insert(s: seq<FileEffect>, e: FileEffect): (r: seq<FileEffect>)
    requires Ordered(s)
    requires forall x :: x in s ==> x.target != e.target
    ensures Ordered(r)
    ensures forall x :: x in r <==> x in s || x == e
  {
    if s == [] || Before(e.target, s[0].target) then
      var r := [e] + s;
      assert Ordered(r) by {
        forall j | 0 < j < |s|
          ensures Before(e.target, s[j].target)
        {
          BeforeTransitive(e.target, s[0].target, s[j].target);
        }
      }
      r
    else
      BeforeTotal(e.target, s[0].target);
      var rest := Insert(s[1..], e);
      assert forall x :: x in rest ==> Before(s[0].target, x.target);
      [s[0]] + rest
  }

  /** The unordered effects: at most one for each path, taken from its first change. */
  ghost predicate Collected(planned: seq<FileEffect>, changes: seq<Change>,
                            repo: Tree, sealed: map<Path, Image>, artifacts: set<Path>)
  {
    && (forall e :: e in planned <==> EffectAt(changes, e.target, repo, sealed, artifacts) == Some(e))
    && (forall i, j :: 0 <= i < j < |planned| ==> planned[i].target != planned[j].target)
  }

  /** `seen` holds the paths already decided by the scan. */
  ghost predicate Scanned(seen: set<Path>, changes: seq<Change>, artifacts: set<Path>) {
    forall p :: p in seen <==> p !in artifacts && Admissible(p) && ChangeFor(changes, p).Some?
  }

  method CollectEffects(repo: Tree, sealed: map<Path, Image>, changes: seq<Change>, artifacts: set<Path>)
    returns (planned: seq<FileEffect>)
    ensures Collected(planned, changes, repo, sealed, artifacts)
  {
    planned := [];
    var seen: set<Path> := {};
    for n := 0 to |changes|
      invariant Collected(planned, changes[..n], repo, sealed, artifacts)
      invariant Scanned(seen, changes[..n], artifacts)
    {
      var c := changes[n];
      assert changes[..n + 1] == changes[..n] + [c];
      CollectStep(planned, seen, changes[..n], c, repo, sealed, artifacts);
      if c.path !in artifacts && Admissible(c.path) && c.path !in seen {
        seen := seen + {c.path};
        var effect := Planned(c, repo, sealed, artifacts);
        if effect.Some? {
          planned := planned + [effect.value];
        }
      }
    }
    assert changes[..|changes|] == changes;
  }

  lemma ChangeForNext(done: seq<Change>, c: Change, p: Path)
    ensures ChangeFor(done + [c], p) ==
            if ChangeFor(done, p).Some? then ChangeFor(done, p) else if c.path == p then Some(c) else None
  {
    assert (done + [c])[..|done|] == done;
  }

  lemma CollectStep(planned: seq<FileEffect>, seen: set<Path>, done: seq<Change>, c: Change,
                    repo: Tree, sealed: map<Path, Image>, artifacts: set<Path>)
    requires Collected(planned, done, repo, sealed, artifacts)
    requires Scanned(seen, done, artifacts)
    ensures var effect := Planned(c, repo, sealed, artifacts);
            Collected(if c.path !in seen && effect.Some? then planned + [effect.value] else planned,
                      done + [c], repo, sealed, artifacts)
    ensures Scanned(if c.path in artifacts || !Admissible(c.path) then seen else seen + {c.path}, done + [c], artifacts)
  {
    forall p
      ensures ChangeFor(done + [c], p).Some? <==> ChangeFor(done, p).Some? || c.path == p
    {
      ChangeForNext(done, c, p);
    }
    var effect := Planned(c, repo, sealed, artifacts);
    if c.path !in seen && effect.Some? {
      CollectNew(planned, done, c, effect.value, repo, sealed, artifacts);
    } else {
      forall e: FileEffect
        ensures EffectAt(done + [c], e.target, repo, sealed, artifacts)
                  == EffectAt(done, e.target, repo, sealed, artifacts)
      {
        EffectAtNext(done, c, e.target, repo, sealed, artifacts);
      }
    }
  }

  lemma EffectAtNext(done: seq<Change>, c: Change, p: Path, repo: Tree, sealed: map<Path, Image>, artifacts: set<Path>)
    ensures EffectAt(done + [c], p, repo, sealed, artifacts) ==
            if ChangeFor(done, p).None? && c.path == p then Planned(c, repo, sealed, artifacts)
            else EffectAt(done, p, repo, sealed, artifacts)
  {
    ChangeForNext(done, c, p);
  }

  lemma CollectNewAt(planned: seq<FileEffect>, done: seq<Change>, c: Change, effect: FileEffect, e: FileEffect,
                     repo: Tree, sealed: map<Path, Image>, artifacts: set<Path>)
    requires e in planned <==> EffectAt(done, e.target, repo, sealed, artifacts) == Some(e)
    requires ChangeFor(done, c.path).None? && Planned(c, repo, sealed, artifacts) == Some(effect)
    ensures e in planned + [effect] <==> EffectAt(done + [c], e.target, repo, sealed, artifacts) == Some(e)
  {
    EffectAtNext(done, c, e.target, repo, sealed, artifacts);
    assert e in planned + [effect] <==> e in planned || e == effect;
    if e.target == c.path {
      assert EffectAt(done, e.target, repo, sealed, artifacts) == None;
    }
  }

  lemma CollectNew(planned: seq<FileEffect>, done: seq<Change>, c: Change, effect: FileEffect,
                   repo: Tree, sealed: map<Path, Image>, artifacts: set<Path>)
    requires Collected(planned, done, repo, sealed, artifacts)
    requires ChangeFor(done, c.path).None? && Planned(c, repo, sealed, artifacts) == Some(effect)
    ensures Collected(planned + [effect], done + [c], repo, sealed, artifacts)
  {
    forall e: FileEffect
      ensures e in planned + [effect] <==> EffectAt(done + [c], e.target, repo, sealed, artifacts) == Some(e)
    {
      CollectNewAt(planned, done, c, effect, e, repo, sealed, artifacts);
    }
    forall i | 0 <= i < |planned|
      ensures planned[i].target != effect.target
    {
      assert planned[i] in planned;
      assert EffectAt(done, c.path, repo, sealed, artifacts) == None;
    }
  }

  /** `sorted` on the chosen half of the effects. */
  method SortByTarget(planned: seq<FileEffect>, deletions: bool) returns (s: seq<FileEffect>)
    requires forall i, j :: 0 <= i < j < |planned| ==> planned[i].target != planned[j].target
    ensures Ordered(s)
    ensures forall e :: e in s <==> e in planned && e.DeleteFile? == deletions
  {
    s := [];
    for n := 0 to |planned|
      invariant Ordered(s)
      invariant forall e :: e in s <==> e in planned[..n] && e.DeleteFile? == deletions
    {
      assert planned[..n + 1] == planned[..n] + [planned[n]];
      if planned[n].DeleteFile? == deletions {
        s := Insert(s, planned[n]);
      }
    }
    assert planned[..|planned|] == planned;
  }

  method CandidateChangePlan(repo: Tree, sealed: map<Path, Image>, changes: seq<Change>, artifacts: set<Path>)
    returns (plan: seq<FileEffect>)
    ensures IsPlan(plan, changes, repo, sealed, artifacts)
  {
    var planned := CollectEffects(repo, sealed, changes, artifacts);
    var deletes := SortByTarget(planned, true);
    var promotes := SortByTarget(planned, false);
    JoinPlan(planned, deletes, promotes);
    plan := deletes + promotes;
  }

  lemma JoinPlan(planned: seq<FileEffect>, deletes: seq<FileEffect>, promotes: seq<FileEffect>)
    requires forall i, j :: 0 <= i < j < |planned| ==> planned[i].target != planned[j].target
    requires Ordered(deletes) && forall e :: e in deletes <==> e in planned && e.DeleteFile?
    requires Ordered(promotes) && forall e :: e in promotes <==> e in planned && e.PromoteFile?
    ensures var plan := deletes + promotes;
            && (forall e :: e in plan <==> e in planned)
            && (forall i, j :: 0 <= i < j < |plan| ==> plan[i].DeleteFile? || plan[j].PromoteFile?)
            && (forall i, j :: 0 <= i < j < |plan| ==> plan[i].target != plan[j].target)
            && (forall i, j :: 0 <= i < j < |plan| && plan[i].DeleteFile? == plan[j].DeleteFile? ==>
                  Before(plan[i].target, plan[j].target))
  {
    var plan := deletes + promotes;
    assert forall i :: 0 <= i < |deletes| ==> plan[i] == deletes[i] && deletes[i] in deletes;
    assert forall i :: |deletes| <= i < |plan| ==> plan[i] == promotes[i - |deletes|] && plan[i] in promotes;
    forall i, j | 0 <= i < j < |plan|
      ensures plan[i].target != plan[j].target
    {
      BeforeTotal(plan[i].target, plan[j].target);
      if i < |deletes| <= j {
        var a :| 0 <= a < |planned| && planned[a] == plan[i];
        var b :| 0 <= b < |planned| && planned[b] == plan[j];
      }
    }
  }
}
