// Planning a batch of derived tasks: validate everything, then allocate decimal identifiers.
module DerivedBatch {
  import opened Basics
  import opened Numerals
  import opened CycleSearch

  datatype Draft = Draft(localId: string, title: string, deps: seq<string>, body: string)

  datatype Reading = Parsed(draft: Draft) | Malformed | Unreadable

  /** One submitted artifact: its path, what reading it gave, its promoted link, and the verdict of
      the body's schema under the contract that governs the derived task. */
  datatype Source = Source(path: string, reading: Reading, link: Option<string>, schemaValid: bool)

  datatype BatchError =
    | DuplicatePath(path: string)
    | InvalidSource(path: string)
    | UnreadableSource(path: string)
    | DuplicateLocalId(localId: string)
    | ExistingTaskCollision(localId: string)
    | SelfDependency(localId: string)
    | UnrepresentablePrerequisite(localId: string, dep: string)
    | UnknownDependency(localId: string, dep: string)
    | DependencyCycle(walk: seq<string>)
    | SchemaInvalid(path: string)

  datatype DerivedTask = DerivedTask(id: string, title: string, state: string, taskType: string, deps: seq<string>,
                                     links: seq<string>, parent: string, body: string)

  // ---------------------------------------------------------------- identifiers

  function Highest(existing: seq<string>): (n: nat)
    ensures forall id :: id in existing && IsNumericId(id) ==> NumericValue(id) <= n
  {
    if existing == [] then 0
    else
      var before, last := Highest(existing[..|existing| - 1]), existing[|existing| - 1];
      assert existing == existing[..|existing| - 1] + [last];
      if IsNumericId(last) && NumericValue(last) > before then NumericValue(last) else before
  }

  /** The identifier of the batch's `i`-th task. */
  function NumberedId(existing: seq<string>, i: nat): string {
    Decimal(Highest(existing) + 1 + i)
  }

  method AllocateNumericTaskIds(localIds: seq<string>, existing: seq<string>) returns (ids: map<string, string>)
    requires Distinct(localIds)
    ensures forall n :: n in ids <==> n in localIds
    ensures forall i :: 0 <= i < |localIds| ==> ids[localIds[i]] == NumberedId(existing, i)
  {
    var highest := 0;
    for i := 0 to |existing|
      invariant highest == Highest(existing[..i])
    {
      assert existing[..i + 1][..i] == existing[..i];
      if IsNumericId(existing[i]) && NumericValue(existing[i]) > highest {
        highest := NumericValue(existing[i]);
      }
    }
    assert existing[..|existing|] == existing;
    ids := map[];
    for i := 0 to |localIds|
      invariant forall n :: n in ids <==> n in localIds[..i]
      invariant forall k :: 0 <= k < i ==> ids[localIds[k]] == Decimal(highest + 1 + k)
    {
      ids := ids[localIds[i] := Decimal(highest + 1 + i)];
    }
  }

  /** Numbers above the highest existing one name no existing task, whatever other identifiers there are. */
  lemma AllocatedIsFresh(existing: seq<string>, n: nat)
    requires n > Highest(existing)
    ensures Decimal(n) !in existing
  {
    DecimalIsNumericId(n);
  }

  // ---------------------------------------------------------------- what makes a batch acceptable

  predicate WellParsed(sources: seq<Source>) {
    && (forall s :: s in sources ==> s.reading.Parsed?)
    && (forall i, k :: 0 <= i < k < |sources| ==> sources[i].path != sources[k].path)
    && (forall i, k :: 0 <= i < k < |sources| ==> sources[i].reading.draft.localId != sources[k].reading.draft.localId)
  }

  function Drafts(sources: seq<Source>): (drafts: seq<Draft>)
    requires forall s :: s in sources ==> s.reading.Parsed?
    ensures |drafts| == |sources| && forall i :: 0 <= i < |sources| ==> drafts[i] == sources[i].reading.draft
  {
    seq(|sources|, i requires 0 <= i < |sources| => sources[i].reading.draft)
  }

  function LocalIds(drafts: seq<Draft>): (ids: seq<string>)
    ensures |ids| == |drafts| && forall i :: 0 <= i < |drafts| ==> ids[i] == drafts[i].localId
  {
    seq(|drafts|, i requires 0 <= i < |drafts| => drafts[i].localId)
  }

  /** `by_local_id`, reduced to the dependencies. */
  function Dependencies(drafts: seq<Draft>): (g: Graph)
    ensures forall n :: n in g <==> n in LocalIds(drafts)
    ensures Distinct(LocalIds(drafts)) ==> forall i :: 0 <= i < |drafts| ==> g[drafts[i].localId] == drafts[i].deps
  {
    if drafts == [] then map[]
    else
      var init, last := drafts[..|drafts| - 1], drafts[|drafts| - 1];
      assert LocalIds(drafts) == LocalIds(init) + [last.localId];
      Dependencies(init)[last.localId := last.deps]
  }

  /** A dependency names another draft of the batch. */
  predicate DraftOk(d: Draft, batch: set<string>, existing: set<string>) {
    d.localId !in existing && forall dep :: dep in d.deps ==> dep != d.localId && dep in batch
  }

  ghost predicate Acceptable(sources: seq<Source>, existing: seq<string>) {
    && WellParsed(sources)
    && (forall d :: d in Drafts(sources) ==> DraftOk(d, Dependencies(Drafts(sources)).Keys, set id | id in existing))
    && Acyclic(Dependencies(Drafts(sources)))
    && (forall s :: s in sources ==> s.schemaValid)
  }

  // ---------------------------------------------------------------- the passes of the planner

  method ParseSources(sources: seq<Source>) returns (drafts: seq<Draft>, errors: seq<BatchError>)
    ensures errors == [] <==> WellParsed(sources)
    ensures forall e :: e in errors ==> !e.DependencyCycle?
    ensures errors == [] ==> drafts == Drafts(sources)
  {
    drafts, errors := [], [];
    var localIds, seenPaths: set<string> := {}, {};
    for n := 0 to |sources|
      invariant forall p :: p in seenPaths <==> exists i :: 0 <= i < n && sources[i].path == p
      invariant errors == [] <==> WellParsed(sources[..n])
      invariant forall e :: e in errors ==> !e.DependencyCycle?
      invariant errors == [] ==> drafts == Drafts(sources[..n])
      invariant errors == [] ==> localIds == set i | 0 <= i < n :: sources[i].reading.draft.localId
    {
      var source := sources[n];
      ghost var before := errors;
      ParseStep(sources, n);
      if source.path in seenPaths {
        errors := errors + [DuplicatePath(source.path)];
      }
      seenPaths := seenPaths + {source.path};
      match source.reading {
        case Malformed => errors := errors + [InvalidSource(source.path)];
        case Unreadable => errors := errors + [UnreadableSource(source.path)];
        case Parsed(draft) =>
          if draft.localId in localIds {
            errors := errors + [DuplicateLocalId(draft.localId)];
          }
          localIds := localIds + {draft.localId};
          drafts := drafts + [draft];
      }
    }
    assert sources[..|sources|] == sources;
  }

  lemma ParseStep(sources: seq<Source>, n: nat)
    requires n < |sources|
    ensures WellParsed(sources[..n + 1]) <==>
            && WellParsed(sources[..n])
            && (forall i :: 0 <= i < n ==> sources[i].path != sources[n].path)
            && sources[n].reading.Parsed?
            && (forall i :: 0 <= i < n ==> sources[i].reading.draft.localId != sources[n].reading.draft.localId)
    ensures WellParsed(sources[..n + 1]) ==>
              Drafts(sources[..n + 1]) == Drafts(sources[..n]) + [sources[n].reading.draft]
  {
    var next, init := sources[..n + 1], sources[..n];
    assert next == init + [sources[n]];
    assert forall i :: 0 <= i < n ==> next[i] == init[i] == sources[i];
    assert next[n] in next;
  }

  method CheckDraft(d: Draft, batch: set<string>, existing: set<string>) returns (errors: seq<BatchError>)
    ensures errors == [] <==> DraftOk(d, batch, existing)
    ensures forall e :: e in errors ==> !e.DependencyCycle?
    ensures d.localId in existing ==> ExistingTaskCollision(d.localId) in errors
    ensures forall dep :: dep in d.deps && dep != d.localId && dep !in batch ==>
              (if dep in existing then UnrepresentablePrerequisite(d.localId, dep)
                  else UnknownDependency(d.localId, dep)) in errors
  {
    errors := if d.localId in existing then [ExistingTaskCollision(d.localId)] else [];
    for i := 0 to |d.deps|
      invariant errors == [] <==>
        d.localId !in existing && forall k :: 0 <= k < i ==> d.deps[k] != d.localId && d.deps[k] in batch
      invariant forall e :: e in errors ==> !e.DependencyCycle?
      invariant d.localId in existing ==> ExistingTaskCollision(d.localId) in errors
      invariant forall k :: 0 <= k < i && d.deps[k] != d.localId && d.deps[k] !in batch ==>
        (if d.deps[k] in existing then UnrepresentablePrerequisite(d.localId, d.deps[k])
         else UnknownDependency(d.localId, d.deps[k])) in errors
    {
      var dep := d.deps[i];
      if dep == d.localId {
        errors := errors + [SelfDependency(d.localId)];
      } else if dep !in batch {
        errors := errors + [if dep in existing then UnrepresentablePrerequisite(d.localId, dep)
                            else UnknownDependency(d.localId, dep)];
      }
    }
    assert forall k :: 0 <= k < |d.deps| ==> d.deps[k] in d.deps;
  }

  method CheckBatch(drafts: seq<Draft>, existing: set<string>) returns (errors: seq<BatchError>)
    requires Distinct(LocalIds(drafts))
    ensures errors == [] <==>
              && (forall d :: d in drafts ==> DraftOk(d, Dependencies(drafts).Keys, existing))
              && Acyclic(Dependencies(drafts))
    ensures forall e :: e in errors && e.DependencyCycle? ==> ClosedWalk(Dependencies(drafts), e.walk)
  {
    errors := [];
    var graph := Dependencies(drafts);
    for i := 0 to |drafts|
      invariant errors == [] <==> forall k :: 0 <= k < i ==> DraftOk(drafts[k], graph.Keys, existing)
      invariant forall e :: e in errors ==> !e.DependencyCycle?
    {
      var more := CheckDraft(drafts[i], graph.Keys, existing);
      errors := errors + more;
    }
    var cycles := DerivedCycleErrors(LocalIds(drafts), graph);
    errors := errors + seq(|cycles|, i requires 0 <= i < |cycles| => DependencyCycle(cycles[i]));
  }

  /** Dependency `k` of task `i` is task `t`, as in the drafts. */
  predicate Names(plan: seq<DerivedTask>, sources: seq<Source>, i: nat, k: nat, t: nat)
    requires WellParsed(sources) && |plan| == |sources| && i < |plan|
  {
    && k < |plan[i].deps| && k < |sources[i].reading.draft.deps| && t < |plan|
    && sources[t].reading.draft.localId == sources[i].reading.draft.deps[k] && plan[t].id == plan[i].deps[k]
  }

  ghost predicate Named(plan: seq<DerivedTask>, sources: seq<Source>, i: nat, k: nat)
    requires WellParsed(sources) && |plan| == |sources| && i < |plan|
  {
    exists t: nat :: Names(plan, sources, i, k, t)
  }

  ghost predicate Renames(plan: seq<DerivedTask>, sources: seq<Source>)
    requires WellParsed(sources) && |plan| == |sources|
  {
    && (forall i :: 0 <= i < |plan| ==> |plan[i].deps| == |sources[i].reading.draft.deps|)
    && (forall i, k :: 0 <= i < |plan| && 0 <= k < |plan[i].deps| ==> Named(plan, sources, i, k))
  }

  predicate MirrorsAt(plan: seq<DerivedTask>, sources: seq<Source>, i: nat, existing: seq<string>, parent: string,
                      state: string, taskType: string)
    requires WellParsed(sources) && |plan| == |sources| && i < |plan|
  {
    var draft := sources[i].reading.draft;
    plan[i] == DerivedTask(NumberedId(existing, i), draft.title, state, taskType, plan[i].deps,
                           if sources[i].link.Some? then [sources[i].link.value] else [], parent, draft.body)
  }

  /** The planned tasks mirror the drafts: fresh consecutive identifiers, dependencies renamed inside the batch. */
  ghost predicate Mirrors(plan: seq<DerivedTask>, sources: seq<Source>, existing: seq<string>, parent: string,
                          state: string, taskType: string)
    requires WellParsed(sources)
  {
    && |plan| == |sources|
    && (forall i :: 0 <= i < |plan| ==>
          MirrorsAt(plan, sources, i, existing, parent, state, taskType))
    && Renames(plan, sources)
  }

  function Renamed(deps: seq<string>, ids: map<string, string>): (r: seq<string>)
    requires forall d :: d in deps ==> d in ids
    ensures |r| == |deps| && forall k :: 0 <= k < |deps| ==> r[k] == ids[deps[k]]
  {
    seq(|deps|, k requires 0 <= k < |deps| => ids[deps[k]])
  }

  function Built(source: Source, id: string, ids: map<string, string>, parent: string, state: string,
                 taskType: string): DerivedTask
    requires source.reading.Parsed? && forall d :: d in source.reading.draft.deps ==> d in ids
  {
    var draft := source.reading.draft;
    DerivedTask(id, draft.title, state, taskType, Renamed(draft.deps, ids),
                if source.link.Some? then [source.link.value] else [], parent, draft.body)
  }

  /** The loop over the files, given the identifiers. */
  method BuildEach(sources: seq<Source>, ids: map<string, string>, parent: string, state: string, taskType: string)
    returns (plan: seq<DerivedTask>)
    requires forall i :: 0 <= i < |sources| ==> sources[i].reading.Parsed? && sources[i].reading.draft.localId in ids
    requires forall i :: 0 <= i < |sources| ==> forall d :: d in sources[i].reading.draft.deps ==> d in ids
    ensures |plan| == |sources|
    ensures forall i :: 0 <= i < |plan| ==>
      plan[i] == Built(sources[i], ids[sources[i].reading.draft.localId], ids, parent, state, taskType)
  {
    plan := [];
    for i := 0 to |sources|
      invariant |plan| == i
      invariant forall k :: 0 <= k < i ==>
        plan[k] == Built(sources[k], ids[sources[k].reading.draft.localId], ids, parent, state, taskType)
    {
      plan := plan + [Built(sources[i], ids[sources[i].reading.draft.localId], ids, parent, state, taskType)];
    }
  }

  method BuildTasks(sources: seq<Source>, existing: seq<string>, parent: string, state: string, taskType: string)
    returns (plan: seq<DerivedTask>)
    requires WellParsed(sources)
    requires forall d :: d in Drafts(sources) ==> forall dep :: dep in d.deps ==> dep in Dependencies(Drafts(sources))
    ensures Mirrors(plan, sources, existing, parent, state, taskType)
  {
    var ids := AllocateNumericTaskIds(LocalIds(Drafts(sources)), existing);
    DependenciesAreAllocated(sources, ids);
    forall i | 0 <= i < |sources|
      ensures sources[i].reading.Parsed? && sources[i].reading.draft.localId in ids
      ensures ids[sources[i].reading.draft.localId] == NumberedId(existing, i)
    {
      assert LocalIds(Drafts(sources))[i] == sources[i].reading.draft.localId;
    }
    plan := BuildEach(sources, ids, parent, state, taskType);
    BuiltMirrors(plan, sources, existing, ids, parent, state, taskType);
  }

  method CheckSchemas(sources: seq<Source>) returns (errors: seq<BatchError>)
    ensures forall e :: e in errors ==> e.SchemaInvalid?
    ensures errors == [] <==> forall s :: s in sources ==> s.schemaValid
  {
    errors := [];
    for i := 0 to |sources|
      invariant errors == [] <==> forall k :: 0 <= k < i ==> sources[k].schemaValid
      invariant forall e :: e in errors ==> e.SchemaInvalid?
    {
      if !sources[i].schemaValid {
        errors := errors + [SchemaInvalid(sources[i].path)];
      }
    }
  }

  lemma DependenciesAreAllocated(sources: seq<Source>, ids: map<string, string>)
    requires WellParsed(sources)
    requires forall n :: n in ids <==> n in LocalIds(Drafts(sources))
    requires forall d :: d in Drafts(sources) ==> forall dep :: dep in d.deps ==> dep in Dependencies(Drafts(sources))
    ensures forall i, dep :: 0 <= i < |sources| && dep in sources[i].reading.draft.deps ==> dep in ids
  {
    forall i, dep | 0 <= i < |sources| && dep in sources[i].reading.draft.deps
      ensures dep in ids
    {
      assert Drafts(sources)[i] in Drafts(sources);
    }
  }

  lemma BuiltMirrors(plan: seq<DerivedTask>, sources: seq<Source>, existing: seq<string>, ids: map<string, string>,
                     parent: string, state: string, taskType: string)
    requires WellParsed(sources) && |plan| == |sources|
    requires forall n :: n in ids <==> n in LocalIds(Drafts(sources))
    requires forall i :: 0 <= i < |plan| ==> ids[LocalIds(Drafts(sources))[i]] == NumberedId(existing, i)
    requires forall i, dep :: 0 <= i < |sources| && dep in sources[i].reading.draft.deps ==> dep in ids
    requires forall i :: 0 <= i < |plan| ==>
              plan[i] == Built(sources[i], NumberedId(existing, i), ids, parent, state, taskType)
    ensures Mirrors(plan, sources, existing, parent, state, taskType)
  {
    forall i | 0 <= i < |plan|
      ensures MirrorsAt(plan, sources, i, existing, parent, state, taskType)
    {
    }
    BuiltIsRenamed(plan, sources, ids);
  }

  lemma BuiltIsRenamed(plan: seq<DerivedTask>, sources: seq<Source>, ids: map<string, string>)
    requires WellParsed(sources) && |plan| == |sources|
    requires forall n :: n in ids <==> n in LocalIds(Drafts(sources))
    requires forall t :: 0 <= t < |plan| ==> plan[t].id == ids[LocalIds(Drafts(sources))[t]]
    requires forall i :: 0 <= i < |plan| ==>
               (forall dep :: dep in sources[i].reading.draft.deps ==> dep in ids) &&
               plan[i].deps == Renamed(sources[i].reading.draft.deps, ids)
    ensures Renames(plan, sources)
  {
    forall i, k | 0 <= i < |plan| && 0 <= k < |plan[i].deps|
      ensures Named(plan, sources, i, k)
    {
      var dep := sources[i].reading.draft.deps[k];
      assert dep in LocalIds(Drafts(sources));
      var t :| 0 <= t < |plan| && LocalIds(Drafts(sources))[t] == dep;
      assert Names(plan, sources, i, k, t);
    }
  }

  /** `_derived_task_plan`: a batch is planned whole exactly when it is acceptable, otherwise nothing is planned. */
  method DerivedTaskPlan(sources: seq<Source>, existing: seq<string>, parent: string, state: string, taskType: string)
    returns (plan: seq<DerivedTask>, errors: seq<BatchError>)
    ensures errors == [] <==> Acceptable(sources, existing)
    ensures errors != [] ==> plan == []
    ensures errors == [] ==> Mirrors(plan, sources, existing, parent, state, taskType)
    ensures forall e :: e in errors && e.DependencyCycle? ==>
              WellParsed(sources) && ClosedWalk(Dependencies(Drafts(sources)), e.walk)
  {
    plan := [];
    var drafts;
    drafts, errors := ParseSources(sources);
    if errors != [] {
      return;
    }
    errors := CheckBatch(drafts, set id | id in existing);
    if errors != [] {
      return;
    }
    var built := BuildTasks(sources, existing, parent, state, taskType);
    errors := CheckSchemas(sources);
    if errors == [] {
      plan := built;
    }
  }

  // ---------------------------------------------------------------- what an accepted batch guarantees

  /** The planned tasks read as drafts under their persisted identifiers. */
  function AsDrafts(plan: seq<DerivedTask>): (drafts: seq<Draft>)
    ensures |drafts| == |plan| && forall i :: 0 <= i < |plan| ==>
              drafts[i].localId == plan[i].id && drafts[i].deps == plan[i].deps
  {
    seq(|plan|, i requires 0 <= i < |plan| => Draft(plan[i].id, plan[i].title, plan[i].deps, plan[i].body))
  }

  lemma MirroredIdsAreFresh(plan: seq<DerivedTask>, sources: seq<Source>, existing: seq<string>,
                            parent: string, state: string, taskType: string)
    requires WellParsed(sources) && Mirrors(plan, sources, existing, parent, state, taskType)
    ensures forall i, k :: 0 <= i < k < |plan| ==> plan[i].id != plan[k].id
    ensures forall i :: 0 <= i < |plan| ==> plan[i].id !in existing && IsNumericId(plan[i].id)
  {
    forall i | 0 <= i < |plan|
      ensures plan[i].id !in existing && IsNumericId(plan[i].id)
    {
      assert MirrorsAt(plan, sources, i, existing, parent, state, taskType);
      AllocatedIsFresh(existing, Highest(existing) + 1 + i);
      DecimalIsNumericId(Highest(existing) + 1 + i);
    }
    forall i, k | 0 <= i < k < |plan|
      ensures plan[i].id != plan[k].id
    {
      assert MirrorsAt(plan, sources, i, existing, parent, state, taskType);
      assert MirrorsAt(plan, sources, k, existing, parent, state, taskType);
      if plan[i].id == plan[k].id {
        DecimalInjective(Highest(existing) + 1 + i, Highest(existing) + 1 + k);
      }
    }
  }

  lemma EdgeOf(drafts: seq<Draft>, a: string, b: string) returns (i: nat, k: nat)
    requires Distinct(LocalIds(drafts)) && Edge(Dependencies(drafts), a, b)
    ensures i < |drafts| && drafts[i].localId == a && k < |drafts[i].deps| && drafts[i].deps[k] == b
  {
    assert a in LocalIds(drafts);
    i :| 0 <= i < |drafts| && LocalIds(drafts)[i] == a;
    assert Dependencies(drafts)[drafts[i].localId] == drafts[i].deps;
    k :| 0 <= k < |drafts[i].deps| && drafts[i].deps[k] == b;
  }

  lemma IsEdge(drafts: seq<Draft>, i: nat, k: nat, t: nat)
    requires Distinct(LocalIds(drafts)) && i < |drafts| && t < |drafts| && k < |drafts[i].deps|
    requires drafts[i].deps[k] == drafts[t].localId
    ensures Edge(Dependencies(drafts), drafts[i].localId, drafts[t].localId)
  {
    assert LocalIds(drafts)[i] in LocalIds(drafts) && LocalIds(drafts)[t] in LocalIds(drafts);
    assert Dependencies(drafts)[drafts[i].localId] == drafts[i].deps;
  }

  /** The draft behind each planned identifier. */
  ghost function OriginOf(plan: seq<DerivedTask>, sources: seq<Source>): map<string, string>
    requires WellParsed(sources) && |plan| == |sources|
    requires forall i, k :: 0 <= i < k < |plan| ==> plan[i].id != plan[k].id
  {
    map i | 0 <= i < |plan| :: plan[i].id := sources[i].reading.draft.localId
  }

  lemma EdgesMirrorBack(plan: seq<DerivedTask>, sources: seq<Source>)
    requires WellParsed(sources) && |plan| == |sources| && Renames(plan, sources)
    requires forall i, k :: 0 <= i < k < |plan| ==> plan[i].id != plan[k].id
    ensures Carries(Dependencies(AsDrafts(plan)), Dependencies(Drafts(sources)), OriginOf(plan, sources))
  {
    forall a, b | Edge(Dependencies(AsDrafts(plan)), a, b)
      ensures a in OriginOf(plan, sources) && b in OriginOf(plan, sources)
      ensures Edge(Dependencies(Drafts(sources)), OriginOf(plan, sources)[a], OriginOf(plan, sources)[b])
    {
      EdgeMirrorsBack(plan, sources, a, b);
    }
  }

  lemma EdgeMirrorsBack(plan: seq<DerivedTask>, sources: seq<Source>, a: string, b: string)
    requires WellParsed(sources) && |plan| == |sources| && Renames(plan, sources)
    requires forall i, k :: 0 <= i < k < |plan| ==> plan[i].id != plan[k].id
    requires Edge(Dependencies(AsDrafts(plan)), a, b)
    ensures var f := OriginOf(plan, sources);
            a in f && b in f && Edge(Dependencies(Drafts(sources)), f[a], f[b])
  {
    var i, k, t := EdgeInPlan(plan, sources, a, b);
    EdgeBehind(plan, sources, i, k, t);
  }

  lemma EdgeBehind(plan: seq<DerivedTask>, sources: seq<Source>, i: nat, k: nat, t: nat)
    requires WellParsed(sources) && |plan| == |sources| && i < |plan| && t < |plan|
    requires forall i, k :: 0 <= i < k < |plan| ==> plan[i].id != plan[k].id
    requires k < |sources[i].reading.draft.deps|
    requires sources[i].reading.draft.deps[k] == sources[t].reading.draft.localId
    ensures var f := OriginOf(plan, sources);
            && plan[i].id in f && plan[t].id in f
            && Edge(Dependencies(Drafts(sources)), f[plan[i].id], f[plan[t].id])
  {
    OriginAt(plan, sources, i);
    OriginAt(plan, sources, t);
    IsEdge(Drafts(sources), i, k, t);
  }

  lemma EdgeInPlan(plan: seq<DerivedTask>, sources: seq<Source>, a: string, b: string) returns (i: nat, k: nat, t: nat)
    requires WellParsed(sources) && |plan| == |sources| && Renames(plan, sources)
    requires forall i, k :: 0 <= i < k < |plan| ==> plan[i].id != plan[k].id
    requires Edge(Dependencies(AsDrafts(plan)), a, b)
    ensures i < |plan| && plan[i].id == a && t < |plan| && plan[t].id == b
    ensures var deps := sources[i].reading.draft.deps;
            k < |deps| && deps[k] == sources[t].reading.draft.localId
  {
    i, k := EdgeOf(AsDrafts(plan), a, b);
    assert Named(plan, sources, i, k);
    t :| 0 <= t && Names(plan, sources, i, k, t);
  }

  lemma OriginAt(plan: seq<DerivedTask>, sources: seq<Source>, i: nat)
    requires WellParsed(sources) && |plan| == |sources| && i < |plan|
    requires forall i, k :: 0 <= i < k < |plan| ==> plan[i].id != plan[k].id
    ensures var f := OriginOf(plan, sources); plan[i].id in f && f[plan[i].id] == sources[i].reading.draft.localId
  {
  }

  /** An accepted batch: distinct fresh identifiers, dependencies inside the batch, no cycle among the new tasks. */
  lemma AcceptedBatchIsSound(plan: seq<DerivedTask>, sources: seq<Source>, existing: seq<string>,
                             parent: string, state: string, taskType: string)
    requires Acceptable(sources, existing) && Mirrors(plan, sources, existing, parent, state, taskType)
    ensures Distinct(LocalIds(AsDrafts(plan)))
    ensures forall t :: t in plan ==> t.id !in existing && t.parent == parent
    ensures forall t, d :: t in plan && d in t.deps ==> exists o :: o in plan && o.id == d
    ensures Acyclic(Dependencies(AsDrafts(plan)))
  {
    MirroredIdsAreFresh(plan, sources, existing, parent, state, taskType);
    DependenciesStayInside(plan, sources);
    EdgesMirrorBack(plan, sources);
    CyclesCarryBack(Dependencies(AsDrafts(plan)), Dependencies(Drafts(sources)), OriginOf(plan, sources));
    forall t | t in plan
      ensures t.parent == parent
    {
      var i :| 0 <= i < |plan| && plan[i] == t;
      assert MirrorsAt(plan, sources, i, existing, parent, state, taskType);
    }
  }

  lemma DependenciesStayInside(plan: seq<DerivedTask>, sources: seq<Source>)
    requires WellParsed(sources) && |plan| == |sources| && Renames(plan, sources)
    ensures forall t, d :: t in plan && d in t.deps ==> exists o :: o in plan && o.id == d
  {
    forall t, d | t in plan && d in t.deps
      ensures exists o :: o in plan && o.id == d
    {
      var i :| 0 <= i < |plan| && plan[i] == t;
      var k :| 0 <= k < |t.deps| && t.deps[k] == d;
      assert Named(plan, sources, i, k);
      var n: nat :| Names(plan, sources, i, k, n);
    }
  }
}
