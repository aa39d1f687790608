// The append-only event log: one file of records per day, identifiers checked under the
// store's lock, a batch written day file by day file and possibly cut between two records.
module EventLog {
  import opened Basics

  datatype Event = Event(id: string, day: string, data: string)

  type Log = map<string, seq<Event>>

  function DayFile(log: Log, day: string): seq<Event> {
    if day in log then log[day] else []
  }

  function IdsOf(s: seq<Event>): (ids: set<string>)
  {
    set e | e in s :: e.id
  }

  function Ids(log: Log): (ids: set<string>)
    ensures forall id :: id in ids <==> exists day :: id in IdsOf(DayFile(log, day))
  {
    var ids := set day, e | day in log.Keys && e in log[day] :: e.id;
    assert forall day :: forall id :: id in IdsOf(DayFile(log, day)) ==> id in ids;
    assert forall id :: id in ids ==> exists day :: day in log && id in IdsOf(DayFile(log, day));
    ids
  }

  predicate DistinctIds(s: seq<Event>) {
    forall i, j :: 0 <= i < j < |s| ==> s[i].id != s[j].id
  }

  /** Records lie in the file of their day, and no identifier occurs twice in the whole log. */
  ghost predicate Sound(log: Log) {
    && (forall day, e :: e in DayFile(log, day) ==> e.day == day)
    && (forall day :: DistinctIds(DayFile(log, day)))
    && (forall d1, d2 :: d1 != d2 ==> IdsOf(DayFile(log, d1)) !! IdsOf(DayFile(log, d2)))
  }

  // ---------------------------------------------------------------- writing a batch

  function OfDay(s: seq<Event>, day: string): seq<Event> {
    if s == [] then []
    else
      var before, last := OfDay(s[..|s| - 1], day), s[|s| - 1];
      if last.day == day then before + [last] else before
  }

  /** The days of a batch in the order in which they first occur. */
  function Days(s: seq<Event>): seq<string> {
    if s == [] then []
    else
      var days, last := Days(s[..|s| - 1]), s[|s| - 1];
      if last.day in days then days else days + [last.day]
  }

  /** The records in the order in which they reach the disk. */
  function Grouped(days: seq<string>, s: seq<Event>): seq<Event> {
    if days == [] then [] else Grouped(days[..|days| - 1], s) + OfDay(s, days[|days| - 1])
  }

  /** The events of a batch whose identifiers are neither known nor repeated. */
  function Missing(known: set<string>, s: seq<Event>): seq<Event> {
    if s == [] then []
    else
      var before, last := Missing(known, s[..|s| - 1]), s[|s| - 1];
      if last.id in known || last.id in IdsOf(before) then before else before + [last]
  }

  function Put(log: Log, e: Event): Log {
    log[e.day := DayFile(log, e.day) + [e]]
  }

  function PutAll(log: Log, s: seq<Event>): Log {
    if s == [] then log else Put(PutAll(log, s[..|s| - 1]), s[|s| - 1])
  }

  /** What `append_many` has to write. */
  function Records(log: Log, batch: seq<Event>): seq<Event> {
    var missing := Missing(Ids(log), batch);
    Grouped(Days(missing), missing)
  }

  function AppendMany(log: Log, batch: seq<Event>): Log {
    PutAll(log, Records(log, batch))
  }

  /** A crash after `n` records of the batch (or its whole effect when fewer are left). */
  function AppendCut(log: Log, batch: seq<Event>, n: nat): Log {
    var records := Records(log, batch);
    PutAll(log, if n < |records| then records[..n] else records)
  }

  class JsonlEventStore {
    var files: Log

    constructor ()
      ensures files == map[]
    {
      files := map[];
    }

    method Append(e: Event)
      modifies this
      ensures files == AppendMany(old(files), [e])
      ensures e.id in Ids(old(files)) ==> files == old(files)
    {
      var missing := Missing(Ids(files), [e]);
      assert [e][..0] == [] && Missing(Ids(files), []) == [] && IdsOf([]) == {};
      assert missing == if e.id in Ids(files) then [] else [e];
      assert Days([]) == [] && OfDay([], e.day) == [];
      assert Days([e]) == [e.day] && OfDay([e], e.day) == [e];
      assert Grouped([e.day], [e]) == [e];
      if e.id !in Ids(files) {
        assert PutAll(files, [e]) == Put(files, e);
        files := files[e.day := DayFile(files, e.day) + [e]];
      }
    }

    method AppendBatch(batch: seq<Event>)
      modifies this
      ensures files == AppendMany(old(files), batch)
    {
      var known := Ids(files);
      ghost var missing := Missing(known, batch);
      var order, prepared := Prepare(known, batch);
      var k := 0;
      while k < |order|
        invariant 0 <= k <= |order|
        invariant files == PutAll(old(files), Grouped(order[..k], missing))
      {
        assert order[..k + 1][..k] == order[..k];
        PutDay(files, missing, order[k]);
        PutAllConcat(old(files), Grouped(order[..k], missing), OfDay(missing, order[k]));
        DayIsInhabited(missing, order[k]);
        files := files[order[k] := DayFile(files, order[k]) + prepared[order[k]]];
        k := k + 1;
      }
      assert order[..k] == order;
    }
  }

  /** Collect the lines of each day, the days in order of first use. */
  method Prepare(known: set<string>, batch: seq<Event>) returns (order: seq<string>, prepared: map<string, seq<Event>>)
    ensures order == Days(Missing(known, batch))
    ensures forall day :: DayFile(prepared, day) == OfDay(Missing(known, batch), day)
    ensures forall day :: day in order ==> day in prepared
  {
    order, prepared := [], map[];
    var existing := known;
    ghost var missing: seq<Event> := [];
    for n := 0 to |batch|
      invariant missing == Missing(known, batch[..n])
      invariant order == Days(missing)
      invariant forall day :: DayFile(prepared, day) == OfDay(missing, day)
      invariant forall day :: day in order <==> day in prepared
      invariant existing == known + IdsOf(missing)
    {
      var e := batch[n];
      assert batch[..n + 1][..n] == batch[..n];
      if e.id !in existing {
        SnocRecord(missing, e);
        if e.day !in prepared {
          order := order + [e.day];
        }
        prepared := prepared[e.day := DayFile(prepared, e.day) + [e]];
        existing := existing + {e.id};
        missing := missing + [e];
      }
    }
    assert batch[..|batch|] == batch;
  }

  lemma SnocRecord(s: seq<Event>, e: Event)
    ensures Days(s + [e]) == if e.day in Days(s) then Days(s) else Days(s) + [e.day]
    ensures forall day :: OfDay(s + [e], day) == if e.day == day then OfDay(s, day) + [e] else OfDay(s, day)
    ensures IdsOf(s + [e]) == IdsOf(s) + {e.id}
  {
    assert (s + [e])[..|s|] == s;
  }

  // ---------------------------------------------------------------- how days and batches compose

  lemma {:induction false} OfDayConcat(a: seq<Event>, b: seq<Event>, day: string)
    ensures OfDay(a + b, day) == OfDay(a, day) + OfDay(b, day)
  {
    if b == [] {
      assert a + b == a;
    } else {
      var n := |b| - 1;
      assert (a + b)[..|a + b| - 1] == a + b[..n];
      OfDayConcat(a, b[..n], day);
    }
  }

  lemma {:induction false} OfDayKeeps(s: seq<Event>, day: string)
    ensures forall e :: e in OfDay(s, day) <==> e in s && e.day == day
  {
    if s != [] {
      OfDayKeeps(s[..|s| - 1], day);
      assert s == s[..|s| - 1] + [s[|s| - 1]];
    }
  }

  lemma {:induction false} OfDayOfSameDay(s: seq<Event>, day: string, other: string)
    requires forall e :: e in s ==> e.day == day
    ensures OfDay(s, other) == if other == day then s else []
  {
    if s != [] {
      OfDayOfSameDay(s[..|s| - 1], day, other);
      assert s == s[..|s| - 1] + [s[|s| - 1]];
    }
  }

  lemma {:induction false} OfDayDistinct(s: seq<Event>, day: string)
    requires DistinctIds(s)
    ensures DistinctIds(OfDay(s, day))
  {
    if s != [] {
      OfDayDistinct(s[..|s| - 1], day);
      OfDayKeeps(s[..|s| - 1], day);
    }
  }

  lemma {:induction false} DayIsInhabited(s: seq<Event>, day: string)
    ensures day in Days(s) <==> OfDay(s, day) != []
  {
    if s != [] {
      DayIsInhabited(s[..|s| - 1], day);
    }
  }

  lemma {:induction false} DaysDistinct(s: seq<Event>)
    ensures Distinct(Days(s))
  {
    if s != [] {
      DaysDistinct(s[..|s| - 1]);
    }
  }

  lemma {:induction false} PutAllConcat(log: Log, a: seq<Event>, b: seq<Event>)
    ensures PutAll(log, a + b) == PutAll(PutAll(log, a), b)
  {
    if b == [] {
      assert a + b == a;
    } else {
      assert (a + b)[..|a + b| - 1] == a + b[..|b| - 1];
      PutAllConcat(log, a, b[..|b| - 1]);
    }
  }

  /** Each day file grows by exactly its own records, in order. */
  lemma {:induction false} PutAllByDay(log: Log, s: seq<Event>, day: string)
    ensures DayFile(PutAll(log, s), day) == DayFile(log, day) + OfDay(s, day)
  {
    if s != [] {
      PutAllByDay(log, s[..|s| - 1], day);
    }
  }

  lemma {:induction false} PutDay(log: Log, s: seq<Event>, day: string)
    ensures OfDay(s, day) != [] ==> PutAll(log, OfDay(s, day)) == log[day := DayFile(log, day) + OfDay(s, day)]
  {
    OfDayKeeps(s, day);
    PutSameDay(log, OfDay(s, day), day);
  }

  lemma {:induction false} PutSameDay(log: Log, s: seq<Event>, day: string)
    requires forall e :: e in s ==> e.day == day
    ensures s != [] ==> PutAll(log, s) == log[day := DayFile(log, day) + s]
  {
    if |s| > 1 {
      PutSameDay(log, s[..|s| - 1], day);
      assert s == s[..|s| - 1] + [s[|s| - 1]];
      assert DayFile(log, day) + s == DayFile(log, day) + s[..|s| - 1] + [s[|s| - 1]];
    } else if |s| == 1 {
      assert s == [s[0]] && s[..0] == [];
      assert PutAll(log, s) == Put(log, s[0]);
    }
  }

  lemma {:induction false} GroupedByDay(days: seq<string>, s: seq<Event>, day: string)
    requires Distinct(days)
    ensures OfDay(Grouped(days, s), day) == if day in days then OfDay(s, day) else []
  {
    if days != [] {
      var rest, last := days[..|days| - 1], days[|days| - 1];
      GroupedByDay(rest, s, day);
      GroupedStep(rest, last, s, day);
      assert days == rest + [last];
    }
  }

  lemma GroupedStep(rest: seq<string>, last: string, s: seq<Event>, day: string)
    ensures OfDay(Grouped(rest, s) + OfDay(s, last), day) ==
            OfDay(Grouped(rest, s), day) + if last == day then OfDay(s, day) else []
  {
    OfDayConcat(Grouped(rest, s), OfDay(s, last), day);
    OfDayKeeps(s, last);
    OfDayOfSameDay(OfDay(s, last), last, day);
  }

  lemma {:induction false} OfDayPrefix(s: seq<Event>, n: nat, day: string)
    requires n <= |s|
    ensures OfDay(s[..n], day) <= OfDay(s, day)
  {
    assert s == s[..n] + s[n..];
    OfDayConcat(s[..n], s[n..], day);
  }

  lemma {:induction false} MissingIsNew(known: set<string>, s: seq<Event>)
    ensures DistinctIds(Missing(known, s))
    ensures forall e :: e in Missing(known, s) ==> e in s && e.id !in known
  {
    if s != [] {
      MissingIsNew(known, s[..|s| - 1]);
      assert s == s[..|s| - 1] + [s[|s| - 1]];
    }
  }

  /** Cut or not, a batch adds to each day file a prefix of that day's missing events. */
  lemma CutByDay(log: Log, batch: seq<Event>, n: nat, day: string) returns (added: seq<Event>)
    ensures DayFile(AppendCut(log, batch, n), day) == DayFile(log, day) + added
    ensures added <= OfDay(Missing(Ids(log), batch), day)
    ensures n >= |Records(log, batch)| ==> added == OfDay(Missing(Ids(log), batch), day)
  {
    var missing, records := Missing(Ids(log), batch), Records(log, batch);
    var written := if n < |records| then records[..n] else records;
    assert records[..|records|] == records;
    PutAllByDay(log, written, day);
    OfDayPrefix(records, |written|, day);
    DaysDistinct(missing);
    GroupedByDay(Days(missing), missing, day);
    DayIsInhabited(missing, day);
    added := OfDay(written, day);
  }

  // ---------------------------------------------------------------- identifiers stay unique

  lemma CutKeepsSound(log: Log, batch: seq<Event>, n: nat)
    requires Sound(log)
    ensures Sound(AppendCut(log, batch, n))
    ensures Ids(log) <= Ids(AppendCut(log, batch, n)) <= Ids(log) + IdsOf(batch)
  {
    var log', missing := AppendCut(log, batch, n), Missing(Ids(log), batch);
    MissingIsNew(Ids(log), batch);
    forall day
      ensures forall e :: e in DayFile(log', day) ==>
                e in DayFile(log, day) || (e in missing && e.day == day && e.id !in Ids(log))
      ensures forall e :: e in DayFile(log, day) ==> e in DayFile(log', day)
      ensures DistinctIds(DayFile(log', day))
    {
      var added := CutByDay(log, batch, n, day);
      OfDayKeeps(missing, day);
      OfDayDistinct(missing, day);
      assert forall e :: e in added ==> e in OfDay(missing, day);
      assert forall e :: e in DayFile(log, day) ==> e.id in Ids(log);
    }
    forall d1, d2 | d1 != d2
      ensures IdsOf(DayFile(log', d1)) !! IdsOf(DayFile(log', d2))
    {
      forall x, y | x in DayFile(log', d1) && y in DayFile(log', d2)
        ensures x.id != y.id
      {
        SameIdSameEvent(missing, x, y);
        assert x in DayFile(log, d1) ==> x.id in IdsOf(DayFile(log, d1));
        assert y in DayFile(log, d2) ==> y.id in IdsOf(DayFile(log, d2));
      }
    }
  }

  lemma SameIdSameEvent(s: seq<Event>, x: Event, y: Event)
    requires DistinctIds(s)
    ensures x in s && y in s && x.id == y.id ==> x == y
  {
  }

  // ---------------------------------------------------------------- one batch, in order, exactly once

  function Own(s: seq<Event>, ids: set<string>): seq<Event> {
    if s == [] then []
    else
      var before, last := Own(s[..|s| - 1], ids), s[|s| - 1];
      if last.id in ids then before + [last] else before
  }

  function Unknown(known: set<string>, s: seq<Event>): seq<Event> {
    if s == [] then []
    else
      var before, last := Unknown(known, s[..|s| - 1]), s[|s| - 1];
      if last.id in known then before else before + [last]
  }

  /** In every day file the batch's events form a prefix of that day's part of the batch. */
  ghost predicate Started(log: Log, batch: seq<Event>) {
    forall day :: Own(DayFile(log, day), IdsOf(batch)) <= OfDay(batch, day)
  }

  /** In every day file the batch's events are exactly that day's part of the batch, in order. */
  ghost predicate Finished(log: Log, batch: seq<Event>) {
    forall day :: Own(DayFile(log, day), IdsOf(batch)) == OfDay(batch, day)
  }

  lemma {:induction false} OwnConcat(a: seq<Event>, b: seq<Event>, ids: set<string>)
    ensures Own(a + b, ids) == Own(a, ids) + Own(b, ids)
  {
    if b == [] {
      assert a + b == a;
    } else {
      assert (a + b)[..|a + b| - 1] == a + b[..|b| - 1];
      OwnConcat(a, b[..|b| - 1], ids);
    }
  }

  lemma {:induction false} OwnKeeps(s: seq<Event>, ids: set<string>)
    ensures forall e :: e in Own(s, ids) <==> e in s && e.id in ids
    ensures (forall e :: e in s ==> e.id in ids) ==> Own(s, ids) == s
    ensures (forall e :: e in s ==> e.id !in ids) ==> Own(s, ids) == []
  {
    if s != [] {
      OwnKeeps(s[..|s| - 1], ids);
      assert s == s[..|s| - 1] + [s[|s| - 1]];
    }
  }

  lemma {:induction false} MissingIsUnknown(known: set<string>, s: seq<Event>)
    requires DistinctIds(s)
    ensures Missing(known, s) == Unknown(known, s)
  {
    if s != [] {
      var init, last := s[..|s| - 1], s[|s| - 1];
      MissingIsUnknown(known, init);
      MissingIsNew(known, init);
      assert forall e :: e in Missing(known, init) ==> e in init && e.id != last.id;
    }
  }

  lemma {:induction false} OfDayUnknown(known: set<string>, s: seq<Event>, day: string)
    ensures OfDay(Unknown(known, s), day) == Unknown(known, OfDay(s, day))
  {
    if s != [] {
      var init, last := s[..|s| - 1], s[|s| - 1];
      OfDayUnknown(known, init, day);
      SnocRecord(Unknown(known, init), last);
      var part := OfDay(init, day);
      assert (part + [last])[..|part|] == part;
    }
  }

  lemma MissingOfDay(known: set<string>, s: seq<Event>, day: string)
    requires DistinctIds(s)
    ensures OfDay(Missing(known, s), day) == Unknown(known, OfDay(s, day))
  {
    MissingIsUnknown(known, s);
    OfDayUnknown(known, s, day);
  }

  lemma {:induction false} UnknownSuffix(known: set<string>, s: seq<Event>, n: nat)
    requires n <= |s|
    requires forall i :: 0 <= i < |s| ==> (s[i].id in known <==> i < n)
    ensures Unknown(known, s) == s[n..]
  {
    if s != [] {
      if n == |s| {
        UnknownSuffix(known, s[..|s| - 1], n - 1);
      } else {
        UnknownSuffix(known, s[..|s| - 1], n);
        assert s[n..] == s[..|s| - 1][n..] + [s[|s| - 1]];
      }
    }
  }

  /** What is still missing on a day is the rest of that day's part of the batch. */
  lemma StillMissing(log: Log, batch: seq<Event>, day: string)
    requires DistinctIds(batch) && Started(log, batch)
    ensures OfDay(Missing(Ids(log), batch), day) == OfDay(batch, day)[|Own(DayFile(log, day), IdsOf(batch))|..]
  {
    var s, n := OfDay(batch, day), |Own(DayFile(log, day), IdsOf(batch))|;
    MissingOfDay(Ids(log), batch, day);
    OfDayKeeps(batch, day);
    OfDayDistinct(batch, day);
    OwnKeeps(DayFile(log, day), IdsOf(batch));
    forall i | 0 <= i < |s|
      ensures s[i].id in Ids(log) <==> i < n
    {
      if i < n {
        assert s[i] in Own(DayFile(log, day), IdsOf(batch));
        assert s[i].id in IdsOf(DayFile(log, day));
      } else if s[i].id in Ids(log) {
        var d :| s[i].id in IdsOf(DayFile(log, d));
        var x :| x in DayFile(log, d) && x.id == s[i].id;
        LoggedOnItsDay(log, batch, d, x, s[i]);
      }
    }
    UnknownSuffix(Ids(log), s, n);
  }

  lemma LoggedOnItsDay(log: Log, batch: seq<Event>, day: string, x: Event, e: Event)
    requires DistinctIds(batch) && Started(log, batch)
    requires e in batch && x in DayFile(log, day) && x.id == e.id
    ensures x == e && e.day == day && e in Own(DayFile(log, day), IdsOf(batch))
  {
    assert e.id in IdsOf(batch);
    OwnKeeps(DayFile(log, day), IdsOf(batch));
    OfDayKeeps(batch, day);
    assert x in OfDay(batch, day);
    SameIdSameEvent(batch, x, e);
  }

  /** Writing the batch again, cut or not, continues where it stopped; a complete write finishes it. */
  lemma BatchContinues(log: Log, batch: seq<Event>, n: nat)
    requires DistinctIds(batch) && Started(log, batch)
    ensures Started(AppendCut(log, batch, n), batch)
    ensures n >= |Records(log, batch)| ==> Finished(AppendCut(log, batch, n), batch)
  {
    var ids := IdsOf(batch);
    forall day
      ensures Own(DayFile(AppendCut(log, batch, n), day), ids) <= OfDay(batch, day)
      ensures n >= |Records(log, batch)| ==> Own(DayFile(AppendCut(log, batch, n), day), ids) == OfDay(batch, day)
    {
      var added := CutByDay(log, batch, n, day);
      StillMissing(log, batch, day);
      OwnConcat(DayFile(log, day), added, ids);
      OfDayKeeps(batch, day);
      assert forall e :: e in added ==> e in OfDay(Missing(Ids(log), batch), day);
      assert forall e :: e in added ==> e in OfDay(batch, day) && e.id in ids;
      OwnKeeps(added, ids);
    }
  }

  /** Other writers do not disturb it. */
  lemma OthersDoNotInterfere(log: Log, batch: seq<Event>, other: seq<Event>, n: nat)
    requires IdsOf(other) !! IdsOf(batch)
    ensures Started(log, batch) ==> Started(AppendCut(log, other, n), batch)
    ensures Finished(log, batch) ==> Finished(AppendCut(log, other, n), batch)
  {
    var ids := IdsOf(batch);
    forall day
      ensures Own(DayFile(AppendCut(log, other, n), day), ids) == Own(DayFile(log, day), ids)
    {
      var added := CutByDay(log, other, n, day);
      MissingIsNew(Ids(log), other);
      OfDayKeeps(Missing(Ids(log), other), day);
      assert forall e :: e in added ==> e in OfDay(Missing(Ids(log), other), day);
      assert forall e :: e in added ==> e in other && e.id in IdsOf(other);
      OwnKeeps(added, ids);
      OwnConcat(DayFile(log, day), added, ids);
    }
  }

  // ---------------------------------------------------------------- whole runs

  /** One append: the events offered and how many records reached the disk before a crash, if any. */
  datatype Step = Step(events: seq<Event>, cut: Option<nat>)

  function Take(log: Log, step: Step): Log {
    match step.cut
    case None => AppendMany(log, step.events)
    case Some(n) => AppendCut(log, step.events, n)
  }

  function RunLog(log: Log, steps: seq<Step>): Log {
    if steps == [] then log else Take(RunLog(log, steps[..|steps| - 1]), steps[|steps| - 1])
  }

  lemma UncutIsLongCut(log: Log, batch: seq<Event>)
    ensures AppendMany(log, batch) == AppendCut(log, batch, |Records(log, batch)|)
  {
  }

  /** No mix of appends, batches and crashes ever records an identifier twice. */
  lemma {:induction false} IdentifiersStayUnique(log: Log, steps: seq<Step>)
    requires Sound(log)
    ensures Sound(RunLog(log, steps)) && Ids(log) <= Ids(RunLog(log, steps))
  {
    if steps != [] {
      IdentifiersStayUnique(log, steps[..|steps| - 1]);
      var before, last := RunLog(log, steps[..|steps| - 1]), steps[|steps| - 1];
      UncutIsLongCut(before, last.events);
      CutKeepsSound(before, last.events, if last.cut.Some? then last.cut.value else |Records(before, last.events)|);
    }
  }

  /** A batch written any number of times, cut anywhere and mixed with other writers' events, is in
      the log exactly once and in batch order within each day as soon as one write of it completed. */
  lemma {:induction false} BatchOccursExactlyOnce(log: Log, batch: seq<Event>, steps: seq<Step>)
    requires DistinctIds(batch) && Ids(log) !! IdsOf(batch)
    requires forall step :: step in steps ==> step.events == batch || IdsOf(step.events) !! IdsOf(batch)
    ensures Started(RunLog(log, steps), batch)
    ensures Step(batch, None) in steps ==> Finished(RunLog(log, steps), batch)
  {
    if steps == [] {
      forall day
        ensures Own(DayFile(log, day), IdsOf(batch)) == []
      {
        assert forall e :: e in DayFile(log, day) ==> e.id in IdsOf(DayFile(log, day));
        OwnKeeps(DayFile(log, day), IdsOf(batch));
      }
    } else {
      var init, last := steps[..|steps| - 1], steps[|steps| - 1];
      assert steps == init + [last];
      BatchOccursExactlyOnce(log, batch, init);
      var before := RunLog(log, init);
      UncutIsLongCut(before, last.events);
      var n := if last.cut.Some? then last.cut.value else |Records(before, last.events)|;
      if last.events == batch {
        BatchContinues(before, batch, n);
        if Step(batch, None) in init {
          FinishedStaysFinished(before, batch, n);
        }
      } else {
        OthersDoNotInterfere(before, batch, last.events, n);
      }
    }
  }

  lemma FinishedStaysFinished(log: Log, batch: seq<Event>, n: nat)
    requires DistinctIds(batch) && Finished(log, batch)
    ensures Finished(AppendCut(log, batch, n), batch)
  {
    assert Started(log, batch);
    forall day
      ensures Own(DayFile(AppendCut(log, batch, n), day), IdsOf(batch)) == OfDay(batch, day)
    {
      StillMissing(log, batch, day);
      var added := CutByDay(log, batch, n, day);
      assert DayFile(log, day) + added == DayFile(log, day);
    }
  }

  // ---------------------------------------------------------------- continuing one known log

  /** `log` is `start` plus, day by day, a prefix of the batch. */
  ghost predicate Extends(start: Log, batch: seq<Event>, log: Log) {
    forall day ::
      && DayFile(start, day) <= DayFile(log, day)
      && DayFile(log, day)[|DayFile(start, day)|..] <= OfDay(batch, day)
  }

  lemma ExtendsIsStarted(start: Log, batch: seq<Event>, log: Log, day: string)
    requires DistinctIds(batch) && Ids(start) !! IdsOf(batch) && Extends(start, batch, log)
    ensures Own(DayFile(log, day), IdsOf(batch)) == DayFile(log, day)[|DayFile(start, day)|..]
  {
    var old', added := DayFile(start, day), DayFile(log, day)[|DayFile(start, day)|..];
    assert DayFile(log, day) == old' + added;
    OwnConcat(old', added, IdsOf(batch));
    assert forall e :: e in old' ==> e.id in IdsOf(DayFile(start, day));
    OwnKeeps(old', IdsOf(batch));
    OfDayKeeps(batch, day);
    assert forall e :: e in added ==> e in OfDay(batch, day);
    assert forall e :: e in added ==> e.id in IdsOf(batch);
    OwnKeeps(added, IdsOf(batch));
  }

  /** Interrupted writes keep extending the same log, and a complete write ends where an
      uninterrupted one would have. */
  lemma ExtendsContinues(start: Log, batch: seq<Event>, log: Log, n: nat)
    requires DistinctIds(batch) && Ids(start) !! IdsOf(batch) && Extends(start, batch, log)
    ensures Extends(start, batch, AppendCut(log, batch, n))
    ensures forall day :: DayFile(AppendMany(log, batch), day) == DayFile(start, day) + OfDay(batch, day)
  {
    forall day
      ensures Own(DayFile(log, day), IdsOf(batch)) <= OfDay(batch, day)
    {
      ExtendsIsStarted(start, batch, log, day);
    }
    UncutIsLongCut(log, batch);
    var all := |Records(log, batch)|;
    forall day
      ensures DayFile(start, day) <= DayFile(AppendCut(log, batch, n), day)
      ensures DayFile(AppendCut(log, batch, n), day)[|DayFile(start, day)|..] <= OfDay(batch, day)
    {
      DayContinues(start, batch, log, n, day);
    }
    forall day
      ensures DayFile(AppendMany(log, batch), day) == DayFile(start, day) + OfDay(batch, day)
    {
      DayContinues(start, batch, log, all, day);
    }
  }

  lemma DayContinues(start: Log, batch: seq<Event>, log: Log, n: nat, day: string)
    requires DistinctIds(batch) && Ids(start) !! IdsOf(batch) && Extends(start, batch, log) && Started(log, batch)
    ensures var file, d := DayFile(AppendCut(log, batch, n), day), DayFile(start, day);
            && d <= file && file[|d|..] <= OfDay(batch, day)
            && (n >= |Records(log, batch)| ==> file == d + OfDay(batch, day))
  {
    ExtendsIsStarted(start, batch, log, day);
    StillMissing(log, batch, day);
    var added := CutByDay(log, batch, n, day);
    PrefixGrows(DayFile(start, day), OfDay(batch, day), DayFile(log, day), added);
  }

  lemma PrefixGrows<T>(start: seq<T>, s: seq<T>, file: seq<T>, added: seq<T>)
    requires start <= file && file[|start|..] <= s && added <= s[|file| - |start|..]
    ensures start <= file + added && (file + added)[|start|..] <= s
    ensures added == s[|file| - |start|..] ==> file + added == start + s
  {
    var k := |file| - |start|;
    assert file[|start|..] == s[..k];
    assert file == start + s[..k];
    assert (file + added)[|start|..] == s[..k] + added;
    assert s == s[..k] + s[k..];
    assert added == s[k..] ==> start + s[..k] + added == start + (s[..k] + added);
  }
}
