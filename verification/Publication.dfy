// Publishing derived batches. A submission reads the tracker, allocates, creates and moves under one lock;
// recovery creates and moves what dead submissions left behind without that lock. A creation or a move loads
// the project, checks, and writes the whole board later.
module Publication {
  import opened Basics
  import opened Numerals
  import opened DerivedBatch

  /** A task file is named after its identifier and the slug of its title. */
  datatype Note = Note(id: string, slug: string)

  datatype Task = Task(note: Note, parent: string)

  /** Publishers and recoveries are processes. */
  datatype Actor = Publisher(n: nat) | Recovery(n: nat)

  /** What has loaded and not written yet, with the board as it was read: each card and its column. */
  datatype Pending =
    | Creation(task: Task, column: string, cards: map<Note, string>)
    | Move(note: Note, column: string, cards: map<Note, string>)

  /** The task files and the cards of the board with their columns, who holds the lock, what each publisher
      still has to create, the creations left in the journals of publishers that died or were refused, and
      what is between its load and its write. */
  datatype State = State(tasks: seq<Task>, cards: map<Note, string>, lock: Option<nat>,
                         batches: map<nat, seq<Task>>, orphans: set<Task>, flights: map<Actor, Pending>)

  datatype Action =
    | Acquire(n: nat, parent: string, slugs: seq<string>)
    | Load(actor: Actor, task: Task, column: string)
    | LoadMove(actor: Actor, note: Note, column: string)
    | Write(actor: Actor)
    | Release(n: nat)
    | Vanish(actor: Actor)

  function Ids(tasks: seq<Task>): (ids: seq<string>)
    ensures |ids| == |tasks| && forall i :: 0 <= i < |tasks| ==> ids[i] == tasks[i].note.id
  {
    seq(|tasks|, i requires 0 <= i < |tasks| => tasks[i].note.id)
  }

  function Notes(tasks: seq<Task>): set<Note> {
    set t | t in tasks :: t.note
  }

  function Batch(existing: seq<string>, parent: string, slugs: seq<string>): (batch: seq<Task>)
    ensures |batch| == |slugs|
    ensures forall i :: 0 <= i < |batch| ==> batch[i] == Task(Note(NumberedId(existing, i), slugs[i]), parent)
  {
    seq(|slugs|, i requires 0 <= i < |slugs| => Task(Note(NumberedId(existing, i), slugs[i]), parent))
  }

  /** What loading the project accepts: no identifier twice, and exactly the tasks on the board. */
  ghost predicate Consistent(s: State) {
    Distinct(Ids(s.tasks)) && s.cards.Keys == Notes(s.tasks)
  }

  ghost predicate Refused(s: State, task: Task) {
    !Consistent(s) || task.note.id in Ids(s.tasks)
  }

  predicate Intends(s: State, actor: Actor, task: Task) {
    && actor !in s.flights
    && match actor
       case Publisher(n) => n in s.batches && s.batches[n] != [] && s.batches[n][0] == task
       case Recovery(_) => task in s.orphans
  }

  /** A publisher moves its own task when everything is created, recovery whenever a journal says so. */
  predicate IntendsMove(s: State, actor: Actor) {
    && actor !in s.flights
    && match actor
       case Publisher(n) => n in s.batches && s.batches[n] == []
       case Recovery(_) => true
  }

  /** A publisher ends before its batch is complete; its lock is free again. */
  function Abandon(s: State, n: nat): State
    requires n in s.batches
  {
    s.(lock := if s.lock == Some(n) then None else s.lock, batches := s.batches - {n},
       orphans := s.orphans + (set t | t in s.batches[n]), flights := s.flights - {Publisher(n)})
  }

  /** Where the file of this name is, or the number of files. */
  function Position(tasks: seq<Task>, note: Note): (r: nat)
    ensures r <= |tasks| && forall k :: 0 <= k < r ==> tasks[k].note != note
    ensures r < |tasks| ==> tasks[r].note == note
  {
    if tasks == [] then 0
    else
      var r := Position(tasks[..|tasks| - 1], note);
      if r < |tasks| - 1 || tasks[|tasks| - 1].note == note then r else |tasks|
  }

  /** Writing the file; one of the same name is replaced. */
  function Put(tasks: seq<Task>, task: Task): seq<Task> {
    var i := Position(tasks, task.note);
    if i < |tasks| then tasks[i := task] else tasks + [task]
  }

  /** The file and the board with the one card placed, the rest of the board as it had been read. */
  function Written(s: State, p: Pending): State {
    match p
    case Creation(task, column, cards) => s.(tasks := Put(s.tasks, task), cards := cards[task.note := column])
    case Move(note, column, cards) => s.(cards := cards[note := column])
  }

  /** One step; an action that is not possible leaves the state. A move into the column the card is in writes
      no board. */
  ghost function Act(s: State, a: Action): State {
    match a
    case Acquire(n, parent, slugs) =>
      if s.lock.Some? || n in s.batches || !Consistent(s) then s
      else s.(lock := Some(n), batches := s.batches[n := Batch(Ids(s.tasks), parent, slugs)])
    case Load(actor, task, column) =>
      if !Intends(s, actor, task) then s
      else if !Refused(s, task) then s.(flights := s.flights[actor := Creation(task, column, s.cards)])
      else if actor.Publisher? then Abandon(s, actor.n) else s
    case LoadMove(actor, note, column) =>
      if !IntendsMove(s, actor) || (Consistent(s) && note in s.cards && s.cards[note] == column) then s
      else if Consistent(s) && note in s.cards then s.(flights := s.flights[actor := Move(note, column, s.cards)])
      else if actor.Publisher? then Abandon(s, actor.n) else s
    case Write(actor) =>
      if actor in s.flights then WriteOf(s, actor) else s
    case Release(n) =>
      if n in s.batches && s.batches[n] == [] && Publisher(n) !in s.flights then Abandon(s, n) else s
    case Vanish(actor) =>
      if actor.Publisher? && actor.n in s.batches then Abandon(s, actor.n)
      else s.(flights := s.flights - {actor})
  }

  function WriteOf(s: State, actor: Actor): State
    requires actor in s.flights
  {
    var next := Written(s, s.flights[actor]).(flights := s.flights - {actor});
    if s.flights[actor].Creation? && actor.Publisher? && actor.n in s.batches && s.batches[actor.n] != []
    then next.(batches := s.batches[actor.n := s.batches[actor.n][1..]])
    else next
  }

  ghost function Run(s: State, actions: seq<Action>): State {
    if actions == [] then s else Act(Run(s, actions[..|actions| - 1]), actions[|actions| - 1])
  }

  /** A project nobody is working on. */
  ghost predicate Idle(s: State) {
    Consistent(s) && s.lock.None? && s.batches == map[] && s.flights == map[]
  }

  // ---------------------------------------------------------------- identifiers and files

  lemma BatchIsNew(existing: seq<string>, parent: string, slugs: seq<string>)
    ensures Distinct(Ids(Batch(existing, parent, slugs)))
    ensures forall t :: t in Batch(existing, parent, slugs) ==> t.note.id !in existing
  {
    var batch := Batch(existing, parent, slugs);
    forall i | 0 <= i < |batch|
      ensures batch[i].note.id !in existing
    {
      AllocatedIsFresh(existing, Highest(existing) + 1 + i);
    }
    forall i, k | 0 <= i < k < |batch|
      ensures batch[i].note.id != batch[k].note.id
    {
      if batch[i].note.id == batch[k].note.id {
        DecimalInjective(Highest(existing) + 1 + i, Highest(existing) + 1 + k);
      }
    }
  }

  lemma PutAppends(tasks: seq<Task>, task: Task)
    requires task.note !in Notes(tasks)
    ensures Put(tasks, task) == tasks + [task]
  {
    assert forall i :: 0 <= i < |tasks| ==> tasks[i] in tasks;
  }

  lemma PutReplaces(tasks: seq<Task>, task: Task)
    requires task.note in Notes(tasks) && Distinct(Ids(tasks))
    ensures Put(tasks, task) == tasks <==> task in tasks
    ensures |Put(tasks, task)| == |tasks| && Ids(Put(tasks, task)) == Ids(tasks)
    ensures Notes(Put(tasks, task)) == Notes(tasks)
  {
    var i := Position(tasks, task.note);
    var t :| t in tasks && t.note == task.note;
    assert i < |tasks|;
    forall k | 0 <= k < |tasks| && k != i
      ensures tasks[k].note != task.note
    {
      assert Ids(tasks)[k] != Ids(tasks)[i];
    }
    var put := tasks[i := task];
    assert forall u :: u in tasks ==> exists k :: 0 <= k < |tasks| && tasks[k] == u && put[k].note == u.note;
    forall note
      ensures note in Notes(put) <==> note in Notes(tasks)
    {
      if k :| 0 <= k < |tasks| && tasks[k].note == note {
        assert put[k] in put && tasks[k] in tasks;
      }
      if k :| 0 <= k < |tasks| && put[k].note == note {
        assert put[k] in put && tasks[k] in tasks;
      }
    }
  }

  lemma NotesAppend(tasks: seq<Task>, task: Task)
    ensures Notes(tasks + [task]) == Notes(tasks) + {task.note}
    ensures Ids(tasks + [task]) == Ids(tasks) + [task.note.id]
  {
    assert forall t :: t in tasks + [task] <==> t in tasks || t == task;
  }

  lemma IdOfNote(tasks: seq<Task>, note: Note)
    requires note in Notes(tasks)
    ensures note.id in Ids(tasks)
  {
    var t :| t in tasks && t.note == note;
    var i :| 0 <= i < |tasks| && tasks[i] == t;
    assert Ids(tasks)[i] == note.id;
  }

  // ---------------------------------------------------------------- the lock

  /** Only the lock holder has a batch, with distinct identifiers that no task has, and nothing was written
      since its creation loaded. */
  ghost predicate Reserved(s: State) {
    && (forall n :: n in s.batches ==>
          && s.lock == Some(n) && Distinct(Ids(s.batches[n]))
          && forall t :: t in s.batches[n] ==> t.note.id !in Ids(s.tasks))
    && (forall a :: a in s.flights && a.Publisher? ==>
          && a.n in s.batches && s.flights[a].cards == s.cards
          && match s.flights[a]
             case Creation(task, _, _) => s.batches[a.n] != [] && s.batches[a.n][0] == task
             case Move(note, _, cards) => s.batches[a.n] == [] && note in cards)
  }

  lemma ActKeepsReserved(s: State, a: Action)
    requires Consistent(s) && Reserved(s) && !(a.Write? && a.actor.Recovery?)
    ensures Consistent(Act(s, a)) && Reserved(Act(s, a)) && s.tasks <= Act(s, a).tasks
  {
    match a {
      case Acquire(n, parent, slugs) => BatchIsNew(Ids(s.tasks), parent, slugs);
      case Load(actor, task, column) => LoadKeepsReserved(s, actor, task, column);
      case LoadMove(actor, note, column) => LoadMoveKeepsReserved(s, actor, note, column);
      case Write(actor) =>
        if actor in s.flights {
          if s.flights[actor].Creation? {
            HolderWrites(s, actor.n);
          } else {
            HolderMoves(s, actor.n);
          }
        }
      case Release(n) =>
      case Vanish(actor) =>
    }
  }

  lemma LoadKeepsReserved(s: State, actor: Actor, task: Task, column: string)
    requires Consistent(s) && Reserved(s)
    ensures Consistent(Act(s, Load(actor, task, column))) && Reserved(Act(s, Load(actor, task, column)))
    ensures Act(s, Load(actor, task, column)).tasks == s.tasks
  {
  }

  lemma LoadMoveKeepsReserved(s: State, actor: Actor, note: Note, column: string)
    requires Consistent(s) && Reserved(s)
    ensures Consistent(Act(s, LoadMove(actor, note, column))) && Reserved(Act(s, LoadMove(actor, note, column)))
    ensures Act(s, LoadMove(actor, note, column)).tasks == s.tasks
  {
  }

  lemma HolderMoves(s: State, n: nat)
    requires Consistent(s) && Reserved(s) && Publisher(n) in s.flights && s.flights[Publisher(n)].Move?
    ensures var after := Act(s, Write(Publisher(n)));
            Consistent(after) && Reserved(after) && after.tasks == s.tasks
  {
    var p := s.flights[Publisher(n)];
    assert s.cards[p.note := p.column].Keys == s.cards.Keys;
  }

  lemma HolderWrites(s: State, n: nat)
    requires Consistent(s) && Reserved(s) && Publisher(n) in s.flights && s.flights[Publisher(n)].Creation?
    ensures var after := Act(s, Write(Publisher(n)));
            Consistent(after) && Reserved(after) && s.tasks <= after.tasks
  {
    var batch := s.batches[n];
    var task := batch[0];
    assert task in batch;
    if task.note in Notes(s.tasks) {
      IdOfNote(s.tasks, task.note);
    }
    PutAppends(s.tasks, task);
    NotesAppend(s.tasks, task);
    var rest := batch[1..];
    forall i, k | 0 <= i < k < |rest|
      ensures Ids(rest)[i] != Ids(rest)[k]
    {
      assert Ids(batch)[i + 1] != Ids(batch)[k + 1];
    }
    forall t | t in rest
      ensures t.note.id !in Ids(s.tasks + [task])
    {
      assert t in batch;
      var i :| 0 <= i < |rest| && rest[i] == t;
      assert Ids(batch)[i + 1] != Ids(batch)[0];
    }
  }

  /** As long as recovery writes nothing: over every interleaving of publishers, crashes and loads no two
      tasks share an identifier, every task keeps its file and its card, and no creation or move of a
      publisher is refused. */
  lemma {:induction false} LockedPublicationsNeverCollide(s: State, actions: seq<Action>)
    requires Idle(s) && forall a :: a in actions ==> !(a.Write? && a.actor.Recovery?)
    ensures Consistent(Run(s, actions)) && Reserved(Run(s, actions)) && s.tasks <= Run(s, actions).tasks
    ensures forall n, task :: Intends(Run(s, actions), Publisher(n), task) ==> !Refused(Run(s, actions), task)
  {
    if actions != [] {
      LockedPublicationsNeverCollide(s, actions[..|actions| - 1]);
      ActKeepsReserved(Run(s, actions[..|actions| - 1]), actions[|actions| - 1]);
    }
  }

  // ---------------------------------------------------------------- recovery

  /** The board to be written is the current one but for the card of its own task; and a task already there is
      the very same creation's, in the same column. */
  predicate Timely(s: State, p: Pending) {
    match p
    case Creation(task, column, cards) =>
      cards == s.cards || (task in s.tasks && s.cards == cards[task.note := column])
    case Move(note, column, cards) => cards[note := column] == s.cards[note := column]
  }

  /** The project stays loadable, every task keeps its identifier, file, parent and card, and every card but a
      moved one keeps its column. */
  ghost predicate Kept(s: State, after: State, moved: set<Note>) {
    && Consistent(after) && s.tasks <= after.tasks
    && forall note :: note in s.cards ==> note in after.cards && (note in moved || after.cards[note] == s.cards[note])
  }

  function MovedNote(p: Pending): set<Note> {
    if p.Move? then {p.note} else {}
  }

  /** What the check at load time established. */
  ghost predicate CheckedOne(p: Pending) {
    match p
    case Creation(task, _, cards) => forall note :: note in cards ==> note.id != task.note.id
    case Move(note, _, cards) => note in cards
  }

  ghost predicate Checked(s: State) {
    forall a :: a in s.flights ==> CheckedOne(s.flights[a])
  }

  /** A write does no harm if and only if it is timely. */
  lemma WriteKeepsIffTimely(s: State, p: Pending)
    requires Consistent(s) && CheckedOne(p) && (p.Move? ==> p.note in s.cards)
    ensures Kept(s, Written(s, p), MovedNote(p)) <==> Timely(s, p)
  {
    if p.Move? {
      MoveKeepsIffTimely(s, p);
    } else {
      CreationKeepsIffTimely(s, p);
    }
  }

  lemma MoveKeepsIffTimely(s: State, p: Pending)
    requires Consistent(s) && p.Move? && p.note in p.cards && p.note in s.cards
    ensures Kept(s, Written(s, p), {p.note}) <==> Timely(s, p)
  {
    var after := Written(s, p);
    assert (s.cards[p.note := p.column]).Keys == s.cards.Keys;
    if Kept(s, after, {p.note}) {
      assert after.cards == s.cards[p.note := p.column];
    }
  }

  lemma CreationKeepsIffTimely(s: State, p: Pending)
    requires Consistent(s) && p.Creation? && CheckedOne(p)
    ensures Kept(s, Written(s, p), {}) <==> Timely(s, p)
  {
    var note := p.task.note;
    if note in Notes(s.tasks) {
      AgainKeepsIffTimely(s, p);
    } else {
      NewKeepsIffTimely(s, p);
    }
  }

  lemma AgainKeepsIffTimely(s: State, p: Pending)
    requires Consistent(s) && p.Creation? && CheckedOne(p) && p.task.note in s.cards
    ensures Kept(s, Written(s, p), {}) <==> Timely(s, p)
  {
    PutReplaces(s.tasks, p.task);
    assert Put(s.tasks, p.task)[..|s.tasks|] == Put(s.tasks, p.task);
    var after := Written(s, p);
    if Kept(s, after, {}) {
      assert after.cards.Keys == s.cards.Keys;
      assert after.cards == s.cards;
    }
  }

  /** Boards without a card still differ when both have it, or one of them lost or moved another card. */
  lemma BoardsDiffer(a: map<Note, string>, b: map<Note, string>, note: Note, column: string)
    requires a != b && note !in a && note !in b
    ensures a[note := column].Keys != b.Keys + {note} || exists n :: n in b && a[note := column][n] != b[n]
  {
    if a.Keys == b.Keys {
      var n :| n in b && a[n] != b[n];
      assert n in a[note := column] && a[note := column][n] != b[n];
    } else {
      assert a.Keys == a[note := column].Keys - {note} && b.Keys == (b.Keys + {note}) - {note};
    }
  }

  lemma NewKeepsIffTimely(s: State, p: Pending)
    requires Consistent(s) && p.Creation? && CheckedOne(p) && p.task.note !in s.cards
    ensures Kept(s, Written(s, p), {}) <==> Timely(s, p)
  {
    var note := p.task.note;
    PutAppends(s.tasks, p.task);
    NotesAppend(s.tasks, p.task);
    assert p.task !in s.tasks;
    var after := Written(s, p);
    if p.cards == s.cards {
      NewId(s.tasks, note.id);
    } else {
      BoardsDiffer(p.cards, s.cards, note, p.column);
    }
  }

  lemma NewId(tasks: seq<Task>, id: string)
    requires Distinct(Ids(tasks)) && forall note :: note in Notes(tasks) ==> note.id != id
    ensures Distinct(Ids(tasks) + [id])
  {
    forall i | 0 <= i < |tasks|
      ensures Ids(tasks)[i] != id
    {
      assert tasks[i] in tasks && tasks[i].note in Notes(tasks);
    }
  }

  lemma ActKeepsChecked(s: State, a: Action)
    requires Checked(s)
    ensures Checked(Act(s, a))
  {
    if a.Load? && Intends(s, a.actor, a.task) && !Refused(s, a.task) {
      forall note | note in s.cards
        ensures note.id != a.task.note.id
      {
        IdOfNote(s.tasks, note);
      }
    }
  }

  /** The cards that moves have loaded are still there. */
  ghost predicate MovesExist(s: State) {
    forall a :: a in s.flights && s.flights[a].Move? ==> s.flights[a].note in s.cards
  }

  ghost function MovedBy(s: State, a: Action): set<Note> {
    if a.Write? && a.actor in s.flights then MovedNote(s.flights[a.actor]) else {}
  }

  /** Every step of the run kept what was there. */
  ghost predicate Orderly(s: State, actions: seq<Action>) {
    actions == [] ||
    (Orderly(s, actions[..|actions| - 1]) && OrderlyStep(Run(s, actions[..|actions| - 1]), actions[|actions| - 1]))
  }

  ghost predicate OrderlyStep(s: State, a: Action) {
    Kept(s, Act(s, a), MovedBy(s, a))
  }

  ghost predicate TimelyStep(s: State, a: Action) {
    a.Write? && a.actor in s.flights ==> Timely(s, s.flights[a.actor])
  }

  /** Every write of the run was timely. */
  ghost predicate AllTimely(s: State, actions: seq<Action>) {
    actions == [] ||
    (AllTimely(s, actions[..|actions| - 1])
     && TimelyStep(Run(s, actions[..|actions| - 1]), actions[|actions| - 1]))
  }

  lemma OnlyWritesWrite(s: State, a: Action)
    requires !(a.Write? && a.actor in s.flights)
    ensures Act(s, a).tasks == s.tasks && Act(s, a).cards == s.cards
  {
  }

  lemma StepKeepsIffTimely(s: State, a: Action)
    requires Consistent(s) && Checked(s) && MovesExist(s)
    ensures OrderlyStep(s, a) <==> TimelyStep(s, a)
  {
    var t := Act(s, a);
    if a.Write? && a.actor in s.flights {
      var p := s.flights[a.actor];
      assert t == WriteOf(s, a.actor);
      WriteKeepsIffTimely(s, p);
      SameBoard(s, Written(s, p), t, MovedNote(p));
    } else {
      OnlyWritesWrite(s, a);
    }
  }

  lemma SameBoard(s: State, t: State, u: State, moved: set<Note>)
    requires u.tasks == t.tasks && u.cards == t.cards
    ensures Kept(s, t, moved) <==> Kept(s, u, moved)
  {
  }

  lemma OrderlyKeepsMoves(s: State, a: Action)
    requires MovesExist(s) && OrderlyStep(s, a)
    ensures MovesExist(Act(s, a))
  {
  }

  /** With recovery at work, creating and moving, over every interleaving: identifiers stay unique, every task
      keeps its file, parent and card, and every card its column but for its own moves, if and only if every
      write was timely. */
  lemma {:induction false} RunsAreOrderlyIffTimely(s: State, actions: seq<Action>)
    requires Idle(s)
    ensures Orderly(s, actions) <==> AllTimely(s, actions)
    ensures Orderly(s, actions) ==>
              Consistent(Run(s, actions)) && s.tasks <= Run(s, actions).tasks && MovesExist(Run(s, actions))
    ensures Checked(Run(s, actions))
  {
    if actions != [] {
      var init, last := actions[..|actions| - 1], actions[|actions| - 1];
      RunsAreOrderlyIffTimely(s, init);
      ActKeepsChecked(Run(s, init), last);
      if Orderly(s, init) {
        StepKeepsIffTimely(Run(s, init), last);
        if Orderly(s, actions) {
          OrderlyKeepsMoves(Run(s, init), last);
        }
      }
    }
  }

  predicate Creating(s: State, actor: Actor) {
    actor in s.flights && s.flights[actor].Creation?
  }

  /** The identifiers recovery has written since the lock was last taken. */
  ghost function RecoveredSince(s: State, actions: seq<Action>): set<string> {
    if actions == [] then {}
    else
      var init, last := actions[..|actions| - 1], actions[|actions| - 1];
      var before := Run(s, init);
      if before.lock.None? && Run(s, actions).lock.Some? then {}
      else if last.Write? && last.actor.Recovery? && Creating(before, last.actor)
      then RecoveredSince(s, init) + {before.flights[last.actor].task.note.id}
      else RecoveredSince(s, init)
  }

  /** Of the holder's identifiers exactly those are taken that are in `taken`. */
  ghost predicate Holding(s: State, taken: set<string>) {
    && (forall n :: n in s.batches ==> s.lock == Some(n) && Distinct(Ids(s.batches[n])))
    && (forall n, t :: n in s.batches && t in s.batches[n] && t.note.id in Ids(s.tasks) ==> t.note.id in taken)
    && (forall a: Actor :: a.Publisher? && Creating(s, a) ==>
          a.n in s.batches && s.batches[a.n] != [] && s.flights[a].task == s.batches[a.n][0])
    && (forall a :: a in s.flights && a.Publisher? ==> a.n in s.batches)
    && (s.lock.Some? ==> forall id :: id in taken ==> id in Ids(s.tasks))
  }

  lemma WrittenIds(s: State, c: Pending)
    requires Consistent(s) && c.Creation?
    ensures forall id :: id in Ids(Put(s.tasks, c.task)) <==> id in Ids(s.tasks) || id == c.task.note.id
  {
    if c.task.note in Notes(s.tasks) {
      PutReplaces(s.tasks, c.task);
      IdOfNote(s.tasks, c.task.note);
    } else {
      PutAppends(s.tasks, c.task);
      NotesAppend(s.tasks, c.task);
    }
  }

  lemma StepKeepsHolding(s: State, a: Action, taken: set<string>)
    requires Holding(s, taken) && !(s.lock.None? && Act(s, a).lock.Some?)
    requires !(a.Write? && a.actor in s.flights)
    ensures Holding(Act(s, a), taken)
  {
    OnlyWritesWrite(s, a);
  }

  lemma MoveKeepsHolding(s: State, actor: Actor, taken: set<string>)
    requires Holding(s, taken) && actor in s.flights && s.flights[actor].Move?
    ensures Holding(Act(s, Write(actor)), taken)
  {
    assert Act(s, Write(actor)).tasks == s.tasks;
  }

  lemma WriteKeepsHolding(s: State, actor: Actor, taken: set<string>)
    requires Consistent(s) && Holding(s, taken) && Creating(s, actor)
    ensures Holding(Act(s, Write(actor)), if actor.Recovery? then taken + {s.flights[actor].task.note.id} else taken)
  {
    var c := s.flights[actor];
    WrittenIds(s, c);
    if actor.Publisher? {
      var batch := s.batches[actor.n];
      var rest := batch[1..];
      forall i, k | 0 <= i < k < |rest|
        ensures Ids(rest)[i] != Ids(rest)[k]
      {
        assert Ids(batch)[i + 1] != Ids(batch)[k + 1];
      }
      forall t | t in rest
        ensures t in batch && t.note.id != c.task.note.id
      {
        var i :| 0 <= i < |rest| && rest[i] == t;
        assert Ids(batch)[i + 1] != Ids(batch)[0];
      }
    }
  }

  lemma AcquireHolds(s: State, a: Action, taken: set<string>)
    requires Consistent(s) && Holding(s, taken) && s.lock.None? && Act(s, a).lock.Some?
    ensures Holding(Act(s, a), {})
  {
    assert s.batches == map[];
    BatchIsNew(Ids(s.tasks), a.parent, a.slugs);
  }

  lemma {:induction false} RunsKeepHolding(s: State, actions: seq<Action>)
    requires Idle(s) && Orderly(s, actions)
    ensures Holding(Run(s, actions), RecoveredSince(s, actions))
  {
    if actions != [] {
      var init, last := actions[..|actions| - 1], actions[|actions| - 1];
      RunsKeepHolding(s, init);
      RunsAreOrderlyIffTimely(s, init);
      var before, taken := Run(s, init), RecoveredSince(s, init);
      if before.lock.None? && Run(s, actions).lock.Some? {
        AcquireHolds(before, last, taken);
      } else if last.Write? && Creating(before, last.actor) {
        WriteKeepsHolding(before, last.actor, taken);
      } else if last.Write? && last.actor in before.flights {
        MoveKeepsHolding(before, last.actor, taken);
      } else {
        StepKeepsHolding(before, last, taken);
      }
    }
  }

  /** The lock holder's next creation is refused if and only if recovery has written a task with that
      identifier since the lock was taken. */
  lemma HolderIsRefusedIffRecoveryWasFaster(s: State, actions: seq<Action>, n: nat, task: Task)
    requires Idle(s) && Orderly(s, actions)
    requires Intends(Run(s, actions), Publisher(n), task)
    ensures Refused(Run(s, actions), task) <==> task.note.id in RecoveredSince(s, actions)
  {
    RunsKeepHolding(s, actions);
    RunsAreOrderlyIffTimely(s, actions);
    var end := Run(s, actions);
    assert task in end.batches[n];
  }

  // ---------------------------------------------------------------- what can go wrong

  const EMPTY := State([], map[], None, map[], {}, map[])

  function First(): Task {
    Task(Note(NumberedId([], 0), "a"), "p")
  }

  function Second(): Task {
    Task(Note(NumberedId([], 0), "b"), "q")
  }

  /** A publisher dies, another one is allocated the same identifier, and recovery loads the left-over task. */
  function Opening(): seq<Action> {
    [] + [Acquire(0, "p", ["a"])] + [Vanish(Publisher(0))] + [Acquire(1, "q", ["b"])]
    + [Load(Recovery(2), First(), "todo")]
  }

  function Opened(): State {
    State([], map[], Some(1), map[1 := [Second()]], {First()}, map[Recovery(2) := Creation(First(), "todo", map[])])
  }

  lemma RunSnoc(s: State, actions: seq<Action>, a: Action)
    ensures Run(s, actions + [a]) == Act(Run(s, actions), a)
    ensures AllTimely(s, actions + [a]) <==> AllTimely(s, actions) && TimelyStep(Run(s, actions), a)
  {
    assert (actions + [a])[..|actions|] == actions;
  }

  lemma OneTask(task: Task)
    ensures Ids([task]) == [task.note.id] && Notes([task]) == {task.note} && Distinct(Ids([task]))
    ensures Put([], task) == [task]
  {
    assert forall t :: t in [task] <==> t == task;
  }

  lemma Acquiring(s: State, n: nat, parent: string, slug: string)
    requires s.tasks == [] && s.cards == map[] && s.lock.None? && s.batches == map[]
    ensures Act(s, Acquire(n, parent, [slug]))
            == s.(lock := Some(n), batches := map[n := [Task(Note(NumberedId([], 0), slug), parent)]])
  {
    assert Ids([]) == [] && Notes([]) == {};
    assert Batch([], parent, [slug]) == [Task(Note(NumberedId([], 0), slug), parent)];
  }

  lemma Dying(s: State, n: nat, task: Task)
    requires s.batches == map[n := [task]] && s.lock == Some(n) && s.flights == map[]
    ensures Act(s, Vanish(Publisher(n))) == s.(lock := None, batches := map[], orphans := s.orphans + {task})
  {
    assert (set t | t in [task]) == {task};
  }

  lemma Orphaned()
    ensures var half := [] + [Acquire(0, "p", ["a"])] + [Vanish(Publisher(0))];
            Run(EMPTY, half) == EMPTY.(orphans := {First()}) && AllTimely(EMPTY, half)
  {
    RunSnoc(EMPTY, [], Acquire(0, "p", ["a"]));
    Acquiring(EMPTY, 0, "p", "a");
    RunSnoc(EMPTY, [] + [Acquire(0, "p", ["a"])], Vanish(Publisher(0)));
    Dying(EMPTY.(lock := Some(0), batches := map[0 := [First()]]), 0, First());
  }

  lemma Opens()
    ensures Run(EMPTY, Opening()) == Opened() && AllTimely(EMPTY, Opening())
  {
    Orphaned();
    var half := [] + [Acquire(0, "p", ["a"])] + [Vanish(Publisher(0))];
    var s := EMPTY.(orphans := {First()});
    RunSnoc(EMPTY, half, Acquire(1, "q", ["b"]));
    Acquiring(s, 1, "q", "b");
    RunSnoc(EMPTY, half + [Acquire(1, "q", ["b"])], Load(Recovery(2), First(), "todo"));
    Loading(s.(lock := Some(1), batches := map[1 := [Second()]]));
  }

  lemma Loading(s: State)
    requires s == State([], map[], Some(1), map[1 := [Second()]], {First()}, map[])
    ensures Act(s, Load(Recovery(2), First(), "todo")) == Opened()
  {
    assert Ids([]) == [] && Notes([]) == {};
  }

  /** The new holder loads before recovery writes, and writes after it: two tasks share the identifier, and
      the card of the recovered one is lost. */
  lemma RecoveryCanCollide()
    ensures var late := Opening() + [Load(Publisher(1), Second(), "todo")] + [Write(Recovery(2))]
                        + [Write(Publisher(1))];
            var end := Run(EMPTY, late);
            && end.tasks == [First(), Second()] && First().note.id == Second().note.id
            && end.cards == map[Second().note := "todo"] && First().note !in end.cards
  {
    Opens();
    var s0 := Opened();
    RunSnoc(EMPTY, Opening(), Load(Publisher(1), Second(), "todo"));
    assert Ids([]) == [] && Notes([]) == {};
    var s1 := s0.(flights := s0.flights[Publisher(1) := Creation(Second(), "todo", map[])]);
    assert Act(s0, Load(Publisher(1), Second(), "todo")) == s1;
    RunSnoc(EMPTY, Opening() + [Load(Publisher(1), Second(), "todo")], Write(Recovery(2)));
    OneTask(First());
    var s2 := Act(s1, Write(Recovery(2)));
    assert s2.tasks == [First()] && s2.flights[Publisher(1)] == Creation(Second(), "todo", map[]);
    RunSnoc(EMPTY, Opening() + [Load(Publisher(1), Second(), "todo")] + [Write(Recovery(2))], Write(Publisher(1)));
    PutAppends([First()], Second());
  }

  /** Recovery writes before the new holder loads: every write was timely, and the holder is refused. */
  lemma RecoveryCanBeatTheHolder()
    ensures var early := Opening() + [Write(Recovery(2))];
            && Orderly(EMPTY, early) && Intends(Run(EMPTY, early), Publisher(1), Second())
            && Refused(Run(EMPTY, early), Second())
  {
    Opens();
    RecoveryIsFaster();
    RunSnoc(EMPTY, Opening(), Write(Recovery(2)));
    assert Ids([]) == [] && Notes([]) == {};
    RunsAreOrderlyIffTimely(EMPTY, Opening() + [Write(Recovery(2))]);
  }

  lemma RecoveryIsFaster()
    ensures var end := Act(Opened(), Write(Recovery(2)));
            && TimelyStep(Opened(), Write(Recovery(2)))
            && Intends(end, Publisher(1), Second()) && Refused(end, Second())
  {
    OneTask(First());
    var end := Act(Opened(), Write(Recovery(2)));
    assert end.tasks == [First()] && Ids(end.tasks)[0] == Second().note.id;
  }

  /** Nobody works on a project with one task. */
  function Alone(parent: Task): State {
    State([parent], map[parent.note := "todo"], None, map[], {}, map[])
  }

  function Child(parent: Task, slug: string): Task {
    Task(Note(NumberedId([parent.note.id], 0), slug), parent.note.id)
  }

  /** Recovery reads the board to move the task while a holder has allocated a child. */
  function MoveLoaded(parent: Task, slug: string): State {
    Alone(parent).(lock := Some(0), batches := map[0 := [Child(parent, slug)]],
                   flights := map[Recovery(1) := Move(parent.note, "done", map[parent.note := "todo"])])
  }

  lemma LoadsTheMove(parent: Task, slug: string)
    ensures var s := Alone(parent);
            Act(Act(s, Acquire(0, parent.note.id, [slug])), LoadMove(Recovery(1), parent.note, "done"))
            == MoveLoaded(parent, slug)
  {
    var s := Alone(parent);
    OneTask(parent);
    assert Batch([parent.note.id], parent.note.id, [slug]) == [Child(parent, slug)];
    assert Act(s, Acquire(0, parent.note.id, [slug]))
        == s.(lock := Some(0), batches := map[0 := [Child(parent, slug)]]);
  }

  lemma ChildIsNew(parent: Task, slug: string)
    ensures Child(parent, slug).note.id != parent.note.id
    ensures !Refused(MoveLoaded(parent, slug), Child(parent, slug))
  {
    OneTask(parent);
    BatchIsNew([parent.note.id], parent.note.id, [slug]);
    assert Batch([parent.note.id], parent.note.id, [slug])[0] == Child(parent, slug);
    assert Child(parent, slug) in Batch([parent.note.id], parent.note.id, [slug]);
  }

  /** The child is created in time, and recovery then writes the board it had read. */
  lemma WritesTheOldBoard(parent: Task, slug: string)
    ensures var child, s := Child(parent, slug), MoveLoaded(parent, slug);
            var loaded := Act(s, Load(Publisher(0), child, "todo"));
            var created := Act(loaded, Write(Publisher(0)));
            && Publisher(0) in loaded.flights && TimelyStep(loaded, Write(Publisher(0)))
            && created.tasks == [parent, child] && child.note in created.cards
            && created.flights == s.flights && !TimelyStep(created, Write(Recovery(1)))
            && Act(created, Write(Recovery(1))).tasks == [parent, child]
            && Act(created, Write(Recovery(1))).cards == map[parent.note := "done"]
            && child.note != parent.note
  {
    var child, s := Child(parent, slug), MoveLoaded(parent, slug);
    ChildIsNew(parent, slug);
    OneTask(parent);
    PutAppends([parent], child);
    var loaded := Act(s, Load(Publisher(0), child, "todo"));
    assert loaded.flights[Publisher(0)] == Creation(child, "todo", s.cards);
    var created := Act(loaded, Write(Publisher(0)));
    assert child.note in created.cards[parent.note := "done"];
  }

  /** Every creation of the run is timely, yet the card of the created task is lost: recovery had read the
      board for a move before it, and writes it back afterwards. */
  lemma AMoveCanLoseACard(parent: Task, slug: string)
    ensures var s, child := Alone(parent), Child(parent, slug);
            var run := [] + [Acquire(0, parent.note.id, [slug])] + [LoadMove(Recovery(1), parent.note, "done")]
                       + [Load(Publisher(0), child, "todo")] + [Write(Publisher(0))];
            var end := Run(s, run + [Write(Recovery(1))]);
            && Idle(s) && AllTimely(s, run) && !AllTimely(s, run + [Write(Recovery(1))])
            && child.note in Run(s, run).cards && child in end.tasks && child.note !in end.cards
  {
    var s, child := Alone(parent), Child(parent, slug);
    OneTask(parent);
    LoadsTheMove(parent, slug);
    WritesTheOldBoard(parent, slug);
    var a0, a1, a2 := Acquire(0, parent.note.id, [slug]), LoadMove(Recovery(1), parent.note, "done"),
        Load(Publisher(0), child, "todo");
    RunSnoc(s, [], a0);
    RunSnoc(s, [] + [a0], a1);
    RunSnoc(s, [] + [a0] + [a1], a2);
    RunSnoc(s, [] + [a0] + [a1] + [a2], Write(Publisher(0)));
    RunSnoc(s, [] + [a0] + [a1] + [a2] + [Write(Publisher(0))], Write(Recovery(1)));
  }
}
