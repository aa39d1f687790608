// The Kanban board: reading columns and cards from its lines, and moving a card by editing the lines in
// place.
module Board {
  import opened Basics
  import opened BoardLines

  // ---------------------------------------------------------------- reading a board

  /** Where the reader is: the current column, and whether it is inside frontmatter or settings. */
  datatype Reader = Reader(column: Option<string>, frontmatter: bool, settings: bool)

  datatype Card = Card(column: string, note: string, line: Line)

  datatype BoardError = InvalidTaskRow | CardBeforeColumn

  datatype Reading = Rejected(error: BoardError) | Reading(reader: Reader, cards: seq<Card>)

  predicate Visible(r: Reader) {
    !r.frontmatter && !r.settings
  }

  function Feed(r: Reader, cards: seq<Card>, line: Line): Reading {
    var kind := line.kind;
    if kind.Rule? && !r.settings then Reading(r.(frontmatter := !r.frontmatter), cards)
    else if r.frontmatter then Reading(r, cards)
    else if kind.SettingsOpen? then Reading(r.(settings := true), cards)
    else if r.settings then Reading(if kind.SettingsClose? then r.(settings := false) else r, cards)
    else
      match kind
      case Heading(title) => Reading(r.(column := Some(title)), cards)
      case Row(note) =>
        if r.column.None? then Rejected(CardBeforeColumn) else Reading(r, cards + [Card(r.column.value, note, line)])
      case Blank => Reading(r, cards)
      case _ => Rejected(InvalidTaskRow)
  }

  function Scan(r: Reader, lines: seq<Line>): Reading {
    if lines == [] then Reading(r, [])
    else
      match Scan(r, lines[..|lines| - 1])
      case Rejected(e) => Rejected(e)
      case Reading(r', cards) => Feed(r', cards, lines[|lines| - 1])
  }

  const START := Reader(None, false, false)

  function Parse(lines: seq<Line>): Reading {
    Scan(START, lines)
  }

  /** Nothing that looks like a heading or a row hides inside frontmatter or settings. */
  predicate NothingHidden(r: Reader, lines: seq<Line>) {
    forall i :: 0 <= i < |lines| && Scan(r, lines[..i]).Reading? && !Visible(Scan(r, lines[..i]).reader) ==>
      !lines[i].kind.Heading? && !lines[i].kind.Row?
  }

  // ---------------------------------------------------------------- scanning pieces

  lemma {:induction false} ScanConcat(r: Reader, a: seq<Line>, b: seq<Line>)
    ensures Scan(r, a + b) ==
            match Scan(r, a)
            case Rejected(e) => Rejected(e)
            case Reading(r', cards) =>
              match Scan(r', b)
              case Rejected(e) => Rejected(e)
              case Reading(r'', more) => Reading(r'', cards + more)
  {
    if b == [] {
      assert a + b == a;
      if Scan(r, a).Reading? {
        assert Scan(r, a).cards + [] == Scan(r, a).cards;
      }
    } else {
      var n := |b| - 1;
      assert (a + b)[..|a + b| - 1] == a + b[..n];
      ScanConcat(r, a, b[..n]);
      if Scan(r, a).Reading? && Scan(Scan(r, a).reader, b[..n]).Reading? {
        FeedAfter(Scan(Scan(r, a).reader, b[..n]).reader, Scan(r, a).cards, Scan(Scan(r, a).reader, b[..n]).cards,
            b[n]);
      }
    }
  }

  lemma FeedAfter(r: Reader, before: seq<Card>, cards: seq<Card>, line: Line)
    ensures Feed(r, before + cards, line) ==
            match Feed(r, cards, line)
            case Rejected(e) => Rejected(e)
            case Reading(r', more) => Reading(r', before + more)
  {
  }

  lemma ScanOne(r: Reader, line: Line)
    ensures Scan(r, [line]) == Feed(r, [], line)
  {
    assert [line][..0] == [];
  }

  /** A visible row leaves the reader where it is. */
  lemma RowBetween(r: Reader, a: seq<Line>, row: Line, b: seq<Line>)
    requires Scan(r, a).Reading? && Visible(Scan(r, a).reader) && Scan(r, a).reader.column.Some? && row.kind.Row?
    ensures var at := Scan(r, a).reader;
            Scan(r, a + [row] + b) ==
            match Scan(at, b)
            case Rejected(e) => Rejected(e)
            case Reading(r'', more) =>
              Reading(r'', Scan(r, a).cards + [Card(at.column.value, row.kind.note, row)] + more)
  {
    ScanConcat(r, a + [row], b);
    ScanConcat(r, a, [row]);
    ScanOne(Scan(r, a).reader, row);
  }

  /** The line at `i` is where the `m`-th card comes from. */
  predicate IsPlace(lines: seq<Line>, i: nat, m: nat, card: Card) {
    && i < |lines| && Parse(lines[..i]).Reading? && lines[i].kind.Row?
    && var before := Parse(lines[..i]);
       && Visible(before.reader) && |before.cards| == m
       && before.reader.column == Some(card.column) && lines[i].kind.note == card.note && lines[i] == card.line
  }

  lemma ScanStep(r: Reader, lines: seq<Line>, i: nat)
    requires i < |lines|
    ensures Scan(r, lines[..i + 1]) ==
            match Scan(r, lines[..i])
            case Rejected(e) => Rejected(e)
            case Reading(r', cards) => Feed(r', cards, lines[i])
  {
    assert lines[..i + 1][..i] == lines[..i];
  }

  lemma {:induction false} RejectedStays(r: Reader, lines: seq<Line>, i: nat)
    requires i <= |lines| && Scan(r, lines[..i]).Rejected?
    ensures Scan(r, lines) == Scan(r, lines[..i])
  {
    ScanConcat(r, lines[..i], lines[i..]);
    assert lines == lines[..i] + lines[i..];
  }

  /** `_read_board`. */
  method ReadBoard(lines: seq<Line>) returns (result: Reading, places: seq<nat>)
    ensures result == Parse(lines)
    ensures result.Reading? ==> |places| == |result.cards|
    ensures result.Reading? ==> forall m :: 0 <= m < |places| ==> IsPlace(lines, places[m], m, result.cards[m])
  {
    var column: Option<string>, frontmatter, settings := None, false, false;
    var cards: seq<Card> := [];
    places := [];
    for i := 0 to |lines|
      invariant Parse(lines[..i]) == Reading(Reader(column, frontmatter, settings), cards)
      invariant |places| == |cards|
      invariant forall m :: 0 <= m < |places| ==> IsPlace(lines, places[m], m, cards[m])
    {
      ScanStep(START, lines, i);
      var line := lines[i];
      if line.kind.Rule? && !settings {
        frontmatter := !frontmatter;
        continue;
      }
      if frontmatter {
        continue;
      }
      if line.kind.SettingsOpen? {
        settings := true;
        continue;
      }
      if settings {
        if line.kind.SettingsClose? {
          settings := false;
        }
        continue;
      }
      if line.kind.Heading? {
        column := Some(line.kind.title);
        continue;
      }
      if !line.kind.Row? {
        if !line.kind.Blank? {
          RejectedStays(START, lines, i + 1);
          return Rejected(InvalidTaskRow), places;
        }
        continue;
      }
      if column.None? {
        RejectedStays(START, lines, i + 1);
        return Rejected(CardBeforeColumn), places;
      }
      cards := cards + [Card(column.value, line.kind.note, line)];
      places := places + [i];
    }
    assert lines[..|lines|] == lines;
    result := Reading(Reader(column, frontmatter, settings), cards);
  }

  // ---------------------------------------------------------------- where a column takes its next card

  /** Line `h` is the first heading with this title. */
  predicate FirstHeading(lines: seq<Line>, column: string, h: nat) {
    && h < |lines| && lines[h].kind == Heading(column)
    && forall i :: 0 <= i < h ==> lines[i].kind != Heading(column)
  }

  /** Position `k` follows the last row of the section opened by heading `h`, or the heading itself; `e` is
      where that section ends. */
  predicate SectionEnd(lines: seq<Line>, h: nat, k: nat, e: nat) {
    && h < k <= e <= |lines|
    && (forall i :: h < i < e ==> !lines[i].kind.Heading?)
    && (e == |lines| || lines[e].kind.Heading?)
    && (k == h + 1 || lines[k - 1].kind.Row?)
    && (forall i :: k <= i < e ==> !lines[i].kind.Row?)
  }

  /** `_find_column_insert_index`. */
  method FindColumnInsertIndex(lines: seq<Line>, column: string)
    returns (insertAt: Option<nat>, ghost h: nat, ghost e: nat)
    ensures insertAt.None? <==> forall i :: 0 <= i < |lines| ==> lines[i].kind != Heading(column)
    ensures insertAt.Some? ==> FirstHeading(lines, column, h) && SectionEnd(lines, h, insertAt.value, e)
  {
    var inTarget := false;
    insertAt, h, e := None, 0, 0;
    for i := 0 to |lines|
      invariant inTarget <==> insertAt.Some?
      invariant !inTarget ==> forall k :: 0 <= k < i ==> lines[k].kind != Heading(column)
      invariant inTarget ==> FirstHeading(lines, column, h) && h < insertAt.value <= i
      invariant inTarget ==> forall k :: h < k < i ==> !lines[k].kind.Heading?
      invariant inTarget ==> insertAt.value == h + 1 || lines[insertAt.value - 1].kind.Row?
      invariant inTarget ==> forall k :: insertAt.value <= k < i ==> !lines[k].kind.Row?
    {
      if lines[i].kind.Heading? {
        if inTarget {
          e := i;
          return;
        }
        inTarget := lines[i].kind.title == column;
        if inTarget {
          insertAt, h := Some(i + 1), i;
        }
        continue;
      }
      if inTarget && lines[i].kind.Row? {
        insertAt := Some(i + 1);
      }
    }
    e := |lines|;
  }

  // ---------------------------------------------------------------- a card moved

  lemma {:induction false} ReadingOfPrefix(r: Reader, lines: seq<Line>, i: nat)
    requires i <= |lines| && Scan(r, lines).Reading?
    ensures Scan(r, lines[..i]).Reading?
  {
    if Scan(r, lines[..i]).Rejected? {
      RejectedStays(r, lines, i);
    }
  }

  lemma FedColumn(r: Reader, cards: seq<Card>, line: Line)
    requires Feed(r, cards, line).Reading?
    ensures !line.kind.Heading? ==> Feed(r, cards, line).reader.column == r.column
    ensures line.kind.Heading? && Visible(r) ==> Feed(r, cards, line).reader == r.(column := Some(line.kind.title))
    ensures line.kind.Row? && Visible(r) ==> Feed(r, cards, line).reader == r
  {
  }

  lemma NotHidden(lines: seq<Line>, i: nat)
    requires Parse(lines).Reading? && NothingHidden(START, lines) && i < |lines|
    requires lines[i].kind.Heading? || lines[i].kind.Row?
    ensures Parse(lines[..i]).Reading? && Visible(Parse(lines[..i]).reader)
  {
    ReadingOfPrefix(START, lines, i);
  }

  /** With nothing hidden, the reader stands in the column of the last heading. */
  lemma {:induction false} InTheColumn(lines: seq<Line>, column: string, h: nat, n: nat)
    requires Parse(lines).Reading? && NothingHidden(START, lines)
    requires h < n <= |lines| && lines[h].kind == Heading(column)
    requires forall i :: h < i < n ==> !lines[i].kind.Heading?
    ensures Parse(lines[..n]).Reading? && Parse(lines[..n]).reader.column == Some(column)
  {
    ReadingOfPrefix(START, lines, n);
    ReadingOfPrefix(START, lines, n - 1);
    ScanStep(START, lines, n - 1);
    FedColumn(Parse(lines[..n - 1]).reader, Parse(lines[..n - 1]).cards, lines[n - 1]);
    if n == h + 1 {
      NotHidden(lines, h);
    } else {
      InTheColumn(lines, column, h, n - 1);
    }
  }

  /** And right after a heading or a row it sees what follows. */
  lemma SeesAfter(lines: seq<Line>, n: nat)
    requires Parse(lines).Reading? && NothingHidden(START, lines) && 0 < n <= |lines|
    requires lines[n - 1].kind.Heading? || lines[n - 1].kind.Row?
    ensures Parse(lines[..n]).Reading? && Visible(Parse(lines[..n]).reader)
  {
    ReadingOfPrefix(START, lines, n);
    NotHidden(lines, n - 1);
    ScanStep(START, lines, n - 1);
    FedColumn(Parse(lines[..n - 1]).reader, Parse(lines[..n - 1]).cards, lines[n - 1]);
  }

  lemma FedCards(r: Reader, cards: seq<Card>, line: Line)
    requires Feed(r, cards, line).Reading?
    ensures Feed(r, cards, line).cards ==
            if line.kind.Row? && Visible(r) && r.column.Some?
            then cards + [Card(r.column.value, line.kind.note, line)] else cards
  {
  }

  lemma SameReaderLater(lines: seq<Line>, k: nat, i: nat)
    requires k + i <= |lines| && Parse(lines[..k]).Reading? && Scan(Parse(lines[..k]).reader, lines[k..][..i]).Reading?
    ensures Parse(lines[..k + i]).Reading?
    ensures Parse(lines[..k + i]).reader == Scan(Parse(lines[..k]).reader, lines[k..][..i]).reader
  {
    TakeMore(lines, k, i);
    ScanConcat(START, lines[..k], lines[k..][..i]);
  }

  lemma TakeMore<T>(s: seq<T>, k: nat, i: nat)
    requires k + i <= |s|
    ensures s[..k] + s[k..][..i] == s[..k + i]
  {
    var left, right := s[..k] + s[k..][..i], s[..k + i];
    assert |left| == |right| && forall n :: 0 <= n < |right| ==> left[n] == right[n];
  }

  lemma HiddenLater(lines: seq<Line>, k: nat)
    requires NothingHidden(START, lines) && k <= |lines| && Parse(lines[..k]).Reading?
    ensures NothingHidden(Parse(lines[..k]).reader, lines[k..])
  {
    var r, b := Parse(lines[..k]).reader, lines[k..];
    forall i | 0 <= i < |b| && Scan(r, b[..i]).Reading? && !Visible(Scan(r, b[..i]).reader)
      ensures !b[i].kind.Heading? && !b[i].kind.Row?
    {
      SameReaderLater(lines, k, i);
    }
  }

  lemma CardsSplit(lines: seq<Line>, k: nat)
    requires Parse(lines).Reading? && k <= |lines|
    ensures Parse(lines[..k]).Reading? && Scan(Parse(lines[..k]).reader, lines[k..]).Reading?
    ensures Parse(lines).reader == Scan(Parse(lines[..k]).reader, lines[k..]).reader
    ensures Parse(lines).cards == Parse(lines[..k]).cards + Scan(Parse(lines[..k]).reader, lines[k..]).cards
  {
    ReadingOfPrefix(START, lines, k);
    ScanConcat(START, lines[..k], lines[k..]);
    assert lines == lines[..k] + lines[k..];
  }

  /** What follows a section, up to its end `e` without rows, brings no card of its column unless the
      heading is repeated. */
  lemma {:induction false} NoneAfter(r: Reader, b: seq<Line>, column: string, e: nat)
    requires Scan(r, b).Reading? && NothingHidden(r, b)
    requires forall i :: 0 <= i < |b| ==> b[i].kind != Heading(column)
    requires forall i :: 0 <= i < e && i < |b| ==> !b[i].kind.Row?
    requires e < |b| ==> b[e].kind.Heading?
    ensures forall c :: c in Scan(r, b).cards ==> c.column != column
    ensures e < |b| ==> Scan(r, b).reader.column != Some(column)
  {
    if b != [] {
      var n := |b| - 1;
      ReadingOfPrefix(r, b, n);
      HiddenPrefix(r, b, n);
      NoneAfter(r, b[..n], column, e);
      var before := Scan(r, b[..n]);
      FedColumn(before.reader, before.cards, b[n]);
      FedCards(before.reader, before.cards, b[n]);
      if b[n].kind.Heading? {
        assert Visible(before.reader);
      }
    }
  }

  lemma HiddenPrefix(r: Reader, b: seq<Line>, n: nat)
    requires NothingHidden(r, b) && n <= |b|
    ensures NothingHidden(r, b[..n])
  {
    forall i | 0 <= i < n && Scan(r, b[..n][..i]).Reading? && !Visible(Scan(r, b[..n][..i]).reader)
      ensures !b[..n][i].kind.Heading? && !b[..n][i].kind.Row?
    {
      assert b[..n][..i] == b[..i];
    }
  }

  function Without<T>(s: seq<T>, i: nat): seq<T>
    requires i < |s|
  {
    s[..i] + s[i + 1..]
  }

  function With<T>(s: seq<T>, k: nat, x: T): seq<T>
    requires k <= |s|
  {
    s[..k] + [x] + s[k..]
  }

  /** Popping the line of a card takes away that card and nothing else. */
  lemma Removing(lines: seq<Line>, i: nat, m: nat, card: Card)
    requires Parse(lines).Reading? && IsPlace(lines, i, m, card)
    ensures m < |Parse(lines).cards| && Parse(lines).cards[m] == card
    ensures Parse(Without(lines, i)) == Reading(Parse(lines).reader, Without(Parse(lines).cards, m))
  {
    RowBetween(START, lines[..i], lines[i], lines[i + 1..]);
    ScanConcat(START, lines[..i], lines[i + 1..]);
    assert lines == lines[..i] + [lines[i]] + lines[i + 1..];
  }

  /** Past the popped line the reader is where it was. */
  lemma SameReaderAfterPop(lines: seq<Line>, i: nat, m: nat, card: Card, j: nat)
    requires IsPlace(lines, i, m, card) && j < |lines|
    ensures i <= j ==>
              var now, was := Parse(Without(lines, i)[..j]), Parse(lines[..j + 1]);
              (now.Reading? <==> was.Reading?) && (now.Reading? ==> now.reader == was.reader)
    ensures j <= i ==> Parse(Without(lines, i)[..j]) == Parse(lines[..j])
  {
    if i <= j {
      var b := lines[i + 1..j + 1];
      RowBetween(START, lines[..i], lines[i], b);
      ScanConcat(START, lines[..i], b);
      assert lines[..i] + [lines[i]] + b == lines[..j + 1];
      assert lines[..i] + b == Without(lines, i)[..j];
    }
    if j <= i {
      assert Without(lines, i)[..j] == lines[..j];
    }
  }

  lemma HiddenWithout(lines: seq<Line>, i: nat, m: nat, card: Card)
    requires IsPlace(lines, i, m, card) && NothingHidden(START, lines)
    ensures NothingHidden(START, Without(lines, i))
  {
    var rest := Without(lines, i);
    forall j | 0 <= j < |rest| && Scan(START, rest[..j]).Reading? && !Visible(Scan(START, rest[..j]).reader)
      ensures !rest[j].kind.Heading? && !rest[j].kind.Row?
    {
      SameReaderAfterPop(lines, i, m, card, j);
      assert rest[j] == if j < i then lines[j] else lines[j + 1];
    }
  }

  /** What a row inserted at `k` reads as. */
  lemma Inserting(rest: seq<Line>, k: nat, row: Line)
    requires Parse(rest).Reading? && k <= |rest| && row.kind.Row?
    ensures Parse(rest[..k]).Reading? && |Parse(rest[..k]).cards| <= |Parse(rest).cards|
    ensures var at, cards := Parse(rest[..k]), Parse(rest).cards;
            && (Visible(at.reader) && at.reader.column.Some? ==>
                  Parse(With(rest, k, row)) ==
                  Reading(Parse(rest).reader,
                      With(cards, |at.cards|, Card(at.reader.column.value, row.kind.note, row))))
            && (Visible(at.reader) && at.reader.column.None? ==> Parse(With(rest, k, row)).Rejected?)
            && (!Visible(at.reader) ==> Parse(With(rest, k, row)) == Parse(rest))
  {
    CardsSplit(rest, k);
    var at := Parse(rest[..k]);
    var b := Scan(at.reader, rest[k..]);
    assert Parse(rest).cards[..|at.cards|] == at.cards && Parse(rest).cards[|at.cards|..] == b.cards;
    ScanConcat(START, rest[..k] + [row], rest[k..]);
    ScanConcat(START, rest[..k], [row]);
    ScanOne(at.reader, row);
  }

  /** The cards after a move: the moved one stands in the target column, the others in their order. */
  predicate CardMoved(cards: seq<Card>, m: nat, column: string, after: seq<Card>, j: nat) {
    && m < |cards| && j < |cards|
    && after == With(Without(cards, m), j, cards[m].(column := column))
  }

  /** A move reads back exactly when the reader stands visibly in the target column where the line goes. */
  lemma MoveReadsBackIffVisible(lines: seq<Line>, i: nat, m: nat, card: Card, k: nat, column: string)
    requires Parse(lines).Reading? && IsPlace(lines, i, m, card) && k < |lines|
    ensures var rest := Without(lines, i);
            var at := Parse(rest[..k]);
            && at.Reading?
            && ((Parse(With(rest, k, lines[i])).Reading?
                   && exists j :: CardMoved(Parse(lines).cards, m, column, Parse(With(rest, k, lines[i])).cards, j))
                <==> Visible(at.reader) && at.reader.column == Some(column))
  {
    Removing(lines, i, m, card);
    var rest, cards := Without(lines, i), Parse(lines).cards;
    Inserting(rest, k, lines[i]);
    var at, moved := Parse(rest[..k]), Parse(With(rest, k, lines[i]));
    if Visible(at.reader) && at.reader.column == Some(column) {
      assert CardMoved(cards, m, column, moved.cards, |at.cards|);
    }
    if moved.Reading? {
      forall j | CardMoved(cards, m, column, moved.cards, j)
        ensures Visible(at.reader) && at.reader.column == Some(column)
      {
        MovedOnce(Without(cards, m), moved.cards, j, card.(column := column));
        if Visible(at.reader) && at.reader.column.Some? {
          MovedOnce(Without(cards, m), moved.cards, |at.cards|, card.(column := at.reader.column.value));
          AddedTheSame(multiset(Without(cards, m)), card.(column := column), card.(column := at.reader.column.value));
        }
      }
    }
  }

  lemma AddedTheSame<T>(others: multiset<T>, a: T, b: T)
    requires others + multiset{a} == others + multiset{b}
    ensures a == b
  {
    assert (others + multiset{a})[a] == others[a] + 1;
  }

  lemma MovedOnce<T>(others: seq<T>, moved: seq<T>, j: nat, x: T)
    requires j <= |others| && moved == With(others, j, x)
    ensures multiset(moved) == multiset(others) + multiset{x}
    ensures |moved| == |others| + 1
  {
    assert others == others[..j] + others[j..];
  }

  // ---------------------------------------------------------------- moving a task

  datatype Mapping = Mapping(state: string, board: string, column: string)

  function MappingForState(mappings: seq<Mapping>, state: string): Option<Mapping> {
    if mappings == [] then None
    else if mappings[0].state == state then Some(mappings[0])
    else MappingForState(mappings[1..], state)
  }

  function StateForBoardColumn(mappings: seq<Mapping>, board: string, column: string): Option<string> {
    if mappings == [] then None
    else if mappings[0].board == board && mappings[0].column == column then Some(mappings[0].state)
    else StateForBoardColumn(mappings[1..], board, column)
  }

  predicate ColumnsDistinct(mappings: seq<Mapping>) {
    forall i, j :: 0 <= i < j < |mappings| ==>
        mappings[i].board != mappings[j].board || mappings[i].column != mappings[j].column
  }

  /** With distinct columns, a card put where a state is mapped to reads back as that state. */
  lemma {:induction false} StateReadsBack(mappings: seq<Mapping>, state: string)
    requires ColumnsDistinct(mappings) && MappingForState(mappings, state).Some?
    ensures var target := MappingForState(mappings, state).value;
            target in mappings && StateForBoardColumn(mappings, target.board, target.column) == Some(state)
  {
    if mappings[0].state != state {
      StateReadsBack(mappings[1..], state);
      var target := MappingForState(mappings, state).value;
      var i :| 0 <= i < |mappings[1..]| && mappings[1..][i] == target;
      assert mappings[i + 1] == target;
    }
  }

  datatype Refusal = Unreadable(error: BoardError) | ColumnUnmapped | DuplicateCard | CardNotFound | StateUnmapped
                   | CrossBoardMove | ColumnNotFound

  datatype Move = Moved(lines: seq<Line>) | AlreadyThere | Refused(error: Refusal)

  predicate Loadable(board: string, lines: seq<Line>, mappings: seq<Mapping>) {
    && Parse(lines).Reading?
    && (forall c :: c in Parse(lines).cards ==> StateForBoardColumn(mappings, board, c.column).Some?)
    && forall i, k :: 0 <= i < k < |Parse(lines).cards| ==> Parse(lines).cards[i].note != Parse(lines).cards[k].note
  }

  /** The note has its card on a loadable board, and the state is mapped to a column of the same board. */
  predicate Movable(board: string, lines: seq<Line>, mappings: seq<Mapping>, note: string, state: string) {
    && Loadable(board, lines, mappings)
    && (exists c :: c in Parse(lines).cards && c.note == note)
    && MappingForState(mappings, state).Some? && MappingForState(mappings, state).value.board == board
  }

  predicate HasHeading(lines: seq<Line>, column: string) {
    exists i :: 0 <= i < |lines| && lines[i].kind == Heading(column)
  }

  predicate HeadingOnce(lines: seq<Line>, column: string) {
    forall i, k :: 0 <= i < k < |lines| && lines[i].kind == Heading(column) ==> lines[k].kind != Heading(column)
  }

  /** The board after a move reads as the old one with that card alone in another column, and last in it
      when the column's heading is not repeated. */
  ghost predicate ReadsAsMoved(lines: seq<Line>, after: seq<Line>, note: string, column: string) {
    && Parse(lines).Reading? && Parse(after).Reading?
    && exists m: nat, j: nat ::
         && CardMoved(Parse(lines).cards, m, column, Parse(after).cards, j) && Parse(lines).cards[m].note == note
         && (HeadingOnce(lines, column) ==> forall c :: c in Parse(after).cards[j + 1..] ==> c.column != column)
  }

  lemma MovedLast(lines: seq<Line>, i: nat, m: nat, card: Card, column: string, h: nat, k: nat, e: nat)
    requires Parse(lines).Reading? && NothingHidden(START, lines) && IsPlace(lines, i, m, card)
    requires FirstHeading(Without(lines, i), column, h) && SectionEnd(Without(lines, i), h, k, e)
    ensures ReadsAsMoved(lines, With(Without(lines, i), k, lines[i]), card.note, column)
  {
    var rest, cards := Without(lines, i), Parse(lines).cards;
    Removing(lines, i, m, card);
    HiddenWithout(lines, i, m, card);
    InTheColumn(rest, column, h, k);
    SeesAfter(rest, k);
    Inserting(rest, k, lines[i]);
    var at, moved := Parse(rest[..k]), Parse(With(rest, k, lines[i]));
    var j := |at.cards|;
    assert CardMoved(cards, m, column, moved.cards, j);
    if HeadingOnce(lines, column) {
      OnceWithout(lines, i, column, h);
      LastInColumn(rest, column, h, k, e);
      assert moved.cards[j + 1..] == Without(cards, m)[j..];
    }
  }

  lemma OnceWithout(lines: seq<Line>, i: nat, column: string, h: nat)
    requires i < |lines| && HeadingOnce(lines, column) && FirstHeading(Without(lines, i), column, h)
    ensures forall k :: h < k < |lines| - 1 ==> Without(lines, i)[k].kind != Heading(column)
  {
    var rest := Without(lines, i);
    forall k | h < k < |rest|
      ensures rest[k].kind != Heading(column)
    {
      assert rest[h] == lines[if h < i then h else h + 1] && rest[k] == lines[if k < i then k else k + 1];
    }
  }

  lemma LastInColumn(rest: seq<Line>, column: string, h: nat, k: nat, e: nat)
    requires Parse(rest).Reading? && NothingHidden(START, rest) && SectionEnd(rest, h, k, e)
    requires forall x :: h < x < |rest| ==> rest[x].kind != Heading(column)
    ensures Parse(rest[..k]).Reading? && |Parse(rest[..k]).cards| <= |Parse(rest).cards|
    ensures forall c :: c in Parse(rest).cards[|Parse(rest[..k]).cards|..] ==> c.column != column
  {
    CardsSplit(rest, k);
    HiddenLater(rest, k);
    NoneAfter(Parse(rest[..k]).reader, rest[k..], column, e - k);
    var before := Parse(rest[..k]).cards;
    assert Parse(rest).cards[|before|..] == Scan(Parse(rest[..k]).reader, rest[k..]).cards;
  }

  // ---------------------------------------------------------------- the states notes read as

  /** Reading the board, the note's card is in a column that is mapped to the state. */
  ghost predicate ReadsAs(board: string, lines: seq<Line>, mappings: seq<Mapping>, note: string, state: string) {
    Parse(lines).Reading? && StateAmong(board, Parse(lines).cards, mappings, note, state)
  }

  ghost predicate StateAmong(board: string, cards: seq<Card>, mappings: seq<Mapping>, note: string, state: string) {
    exists c :: c in cards && c.note == note && StateForBoardColumn(mappings, board, c.column) == Some(state)
  }

  predicate NotesDistinct(cards: seq<Card>) {
    forall i, k :: 0 <= i < k < |cards| ==> cards[i].note != cards[k].note
  }

  predicate AllMapped(board: string, cards: seq<Card>, mappings: seq<Mapping>) {
    forall c :: c in cards ==> StateForBoardColumn(mappings, board, c.column).Some?
  }

  /** The moved note reads as the requested state, every other note as before, and the board loads. */
  ghost predicate OnlyStateChanged(board: string, lines: seq<Line>, after: seq<Line>, mappings: seq<Mapping>,
                                   note: string, state: string) {
    && Loadable(board, after, mappings)
    && (forall s :: ReadsAs(board, after, mappings, note, s) <==> s == state)
    && (forall n, s :: n != note ==> (ReadsAs(board, after, mappings, n, s) <==> ReadsAs(board, lines, mappings, n, s)))
  }

  lemma SplitCards<T>(cards: seq<T>, m: nat, x: T)
    requires m < |cards|
    ensures x in cards <==> x in Without(cards, m) || x == cards[m]
  {
    if x in cards && x != cards[m] {
      var i :| 0 <= i < |cards| && cards[i] == x;
      assert Without(cards, m)[if i < m then i else i - 1] == x;
    }
    if k :| 0 <= k < |Without(cards, m)| && Without(cards, m)[k] == x {
      assert cards[if k < m then k else k + 1] == x;
    }
  }

  lemma OthersAreOtherNotes(cards: seq<Card>, m: nat)
    requires m < |cards| && NotesDistinct(cards)
    ensures NotesDistinct(Without(cards, m)) && forall c :: c in Without(cards, m) ==> c.note != cards[m].note
  {
    var rest := Without(cards, m);
    forall i | 0 <= i < |rest|
      ensures rest[i] == cards[if i < m then i else i + 1] && rest[i].note != cards[m].note
    {
    }
  }

  lemma InsertedStaysDistinct(others: seq<Card>, j: nat, cards: seq<Card>)
    requires j < |cards| && Without(cards, j) == others && NotesDistinct(others)
    requires forall c :: c in others ==> c.note != cards[j].note
    ensures NotesDistinct(cards)
  {
    forall i, k | 0 <= i < k < |cards|
      ensures cards[i].note != cards[k].note
    {
      if i != j {
        assert cards[i] == others[if i < j then i else i - 1];
      }
      if k != j {
        assert cards[k] == others[if k < j then k else k - 1];
      }
    }
  }

  lemma StatesAfterMove(board: string, cards: seq<Card>, m: nat, column: string, moved: seq<Card>, j: nat,
                        mappings: seq<Mapping>, state: string, n: string, s: string)
    requires CardMoved(cards, m, column, moved, j) && NotesDistinct(cards)
    requires StateForBoardColumn(mappings, board, column) == Some(state)
    ensures StateAmong(board, moved, mappings, n, s)
            <==> if n == cards[m].note then s == state else StateAmong(board, cards, mappings, n, s)
  {
    OthersAreOtherNotes(cards, m);
    forall c
      ensures c in cards <==> c in Without(cards, m) || c == cards[m]
      ensures c in moved <==> c in Without(cards, m) || c == moved[j]
    {
      SplitCards(cards, m, c);
      SplitCards(moved, j, c);
    }
  }

  lemma MovedLoads(board: string, cards: seq<Card>, m: nat, column: string, moved: seq<Card>, j: nat,
                   mappings: seq<Mapping>)
    requires CardMoved(cards, m, column, moved, j) && NotesDistinct(cards) && AllMapped(board, cards, mappings)
    requires StateForBoardColumn(mappings, board, column).Some?
    ensures NotesDistinct(moved) && AllMapped(board, moved, mappings)
  {
    OthersAreOtherNotes(cards, m);
    InsertedStaysDistinct(Without(cards, m), j, moved);
    forall c | c in moved
      ensures StateForBoardColumn(mappings, board, c.column).Some?
    {
      SplitCards(moved, j, c);
      SplitCards(cards, m, c);
    }
  }

  /** A board that reads as moved reads as the requested state. */
  lemma MovedReadsAs(board: string, lines: seq<Line>, after: seq<Line>, mappings: seq<Mapping>, note: string,
                     state: string)
    requires ColumnsDistinct(mappings) && Movable(board, lines, mappings, note, state)
    requires ReadsAsMoved(lines, after, note, MappingForState(mappings, state).value.column)
    ensures OnlyStateChanged(board, lines, after, mappings, note, state)
  {
    var column := MappingForState(mappings, state).value.column;
    StateReadsBack(mappings, state);
    var cards, moved := Parse(lines).cards, Parse(after).cards;
    var m: nat, j: nat :| CardMoved(cards, m, column, moved, j) && cards[m].note == note;
    MovedLoads(board, cards, m, column, moved, j, mappings);
    forall n, s
      ensures StateAmong(board, moved, mappings, n, s)
              <==> if n == note then s == state else StateAmong(board, cards, mappings, n, s)
    {
      StatesAfterMove(board, cards, m, column, moved, j, mappings, state, n, s);
    }
  }

  lemma AlreadyReadsAs(board: string, lines: seq<Line>, mappings: seq<Mapping>, note: string, state: string)
    requires ColumnsDistinct(mappings) && Movable(board, lines, mappings, note, state)
    requires exists c :: c in Parse(lines).cards && c.note == note
              && c.column == MappingForState(mappings, state).value.column
    ensures ReadsAs(board, lines, mappings, note, state)
  {
    StateReadsBack(mappings, state);
  }

  /** The part of loading that looks at the cards of one board: every column mapped, no note twice. */
  method FindCard(board: string, cards: seq<Card>, mappings: seq<Mapping>, note: string)
    returns (found: Option<nat>, error: Option<Refusal>)
    ensures error.None? <==>
              && (forall c :: c in cards ==> StateForBoardColumn(mappings, board, c.column).Some?)
              && (forall i, k :: 0 <= i < k < |cards| ==> cards[i].note != cards[k].note)
              && exists c :: c in cards && c.note == note
    ensures error.None? ==> found.Some? && found.value < |cards| && cards[found.value].note == note
  {
    found, error := None, None;
    for m := 0 to |cards|
      invariant error.None?
      invariant forall x :: 0 <= x < m ==> StateForBoardColumn(mappings, board, cards[x].column).Some?
      invariant forall x, y :: 0 <= x < y < m ==> cards[x].note != cards[y].note
      invariant found.None? ==> forall x :: 0 <= x < m ==> cards[x].note != note
      invariant found.Some? ==> found.value < m && cards[found.value].note == note
    {
      if StateForBoardColumn(mappings, board, cards[m].column).None? {
        assert cards[m] in cards;
        return found, Some(ColumnUnmapped);
      }
      if exists x :: 0 <= x < m && cards[x].note == cards[m].note {
        return found, Some(DuplicateCard);
      }
      if cards[m].note == note {
        found := Some(m);
      }
    }
    if found.None? {
      error := Some(CardNotFound);
    } else {
      assert cards[found.value] in cards;
    }
  }

  /** `move_task` on the board the task's card is on. */
  method MoveTask(board: string, lines: seq<Line>, mappings: seq<Mapping>, note: string, state: string)
    returns (r: Move)
    ensures r.Refused? <==> !Movable(board, lines, mappings, note, state)
                            || (!r.AlreadyThere? && !HasHeading(lines, MappingForState(mappings, state).value.column))
    ensures r.AlreadyThere? <==>
              && Movable(board, lines, mappings, note, state)
              && exists c :: c in Parse(lines).cards && c.note == note
                   && c.column == MappingForState(mappings, state).value.column
    ensures r.Moved? ==> multiset(r.lines) == multiset(lines)
    ensures r.Moved? && NothingHidden(START, lines) ==>
              ReadsAsMoved(lines, r.lines, note, MappingForState(mappings, state).value.column)
    ensures r.Moved? && NothingHidden(START, lines) && ColumnsDistinct(mappings) ==>
              OnlyStateChanged(board, lines, r.lines, mappings, note, state)
    ensures r.AlreadyThere? && ColumnsDistinct(mappings) ==> ReadsAs(board, lines, mappings, note, state)
  {
    var reading, places := ReadBoard(lines);
    if reading.Rejected? {
      return Refused(Unreadable(reading.error));
    }
    var found, error := FindCard(board, reading.cards, mappings, note);
    if error.Some? {
      return Refused(error.value);
    }
    var m := found.value;
    var card, i := reading.cards[m], places[m];
    var target := MappingForState(mappings, state);
    if target.None? {
      return Refused(StateUnmapped);
    }
    OnlyCard(reading.cards, m, target.value.column);
    if target.value.board == board && card.column == target.value.column {
      if ColumnsDistinct(mappings) {
        AlreadyReadsAs(board, lines, mappings, note, state);
      }
      return AlreadyThere;
    }
    if target.value.board != board {
      return Refused(CrossBoardMove);
    }
    assert IsPlace(lines, i, m, card);
    HeadingsWithout(lines, i, target.value.column);
    r := MoveLine(lines, i, m, card, target.value.column);
    if r.Moved? && NothingHidden(START, lines) && ColumnsDistinct(mappings) {
      MovedReadsAs(board, lines, r.lines, mappings, note, state);
    }
  }

  lemma SameMembers<T>(a: seq<T>, b: seq<T>, x: T)
    requires multiset(a) == multiset(b) && x in a
    ensures x in b
  {
    assert x in multiset(a);
  }

  lemma LinesFromTexts(texts: seq<string>, lines: seq<Line>)
    requires multiset(lines) == multiset(LinesOf(texts))
    ensures LinesOf(TextsOf(lines)) == lines
  {
    forall i | 0 <= i < |lines|
      ensures LineOf(lines[i].text) == lines[i]
    {
      SameMembers(lines, LinesOf(texts), lines[i]);
    }
  }

  /** The same on the text of the board: the lines it is split into, and the lines it is written with. */
  method MoveTaskOnText(board: string, texts: seq<string>, mappings: seq<Mapping>, note: string, state: string)
    returns (r: Move, written: seq<string>)
    ensures r.Refused? <==> !Movable(board, LinesOf(texts), mappings, note, state)
                            || (!r.AlreadyThere? && !HasHeading(LinesOf(texts),
                                MappingForState(mappings, state).value.column))
    ensures !r.Moved? ==> written == texts
    ensures r.Moved? ==> r.lines == LinesOf(written) && multiset(r.lines) == multiset(LinesOf(texts))
    ensures !r.Refused? && NothingHidden(START, LinesOf(texts)) && ColumnsDistinct(mappings) ==>
              && ReadsAs(board, LinesOf(written), mappings, note, state)
              && forall n, s :: n != note ==>
                   (ReadsAs(board, LinesOf(written), mappings, n, s) <==>
                    ReadsAs(board, LinesOf(texts), mappings, n, s))
  {
    r := MoveTask(board, LinesOf(texts), mappings, note, state);
    written := texts;
    if r.Moved? {
      LinesFromTexts(texts, r.lines);
      written := TextsOf(r.lines);
    }
  }

  lemma OnlyCard(cards: seq<Card>, m: nat, column: string)
    requires m < |cards| && forall i, k :: 0 <= i < k < |cards| ==> cards[i].note != cards[k].note
    ensures (exists c :: c in cards && c.note == cards[m].note && c.column == column) <==> cards[m].column == column
  {
    forall c | c in cards && c.note == cards[m].note
      ensures c == cards[m]
    {
      var k :| 0 <= k < |cards| && cards[k] == c;
    }
    if cards[m].column == column {
      assert cards[m] in cards;
    }
  }

  /** Pop the card's line and insert it where the column takes its next card. */
  method MoveLine(lines: seq<Line>, i: nat, m: nat, card: Card, column: string) returns (r: Move)
    requires Parse(lines).Reading? && IsPlace(lines, i, m, card)
    ensures if HasHeading(Without(lines, i), column) then r.Moved? else r == Refused(ColumnNotFound)
    ensures r.Moved? ==> multiset(r.lines) == multiset(lines)
    ensures r.Moved? && NothingHidden(START, lines) ==> ReadsAsMoved(lines, r.lines, card.note, column)
  {
    var rest := Without(lines, i);
    var insertAt, h, e := FindColumnInsertIndex(rest, column);
    if insertAt.None? {
      return Refused(ColumnNotFound);
    }
    if NothingHidden(START, lines) {
      MovedLast(lines, i, m, card, column, h, insertAt.value, e);
    }
    SameLines(lines, i, insertAt.value);
    r := Moved(With(rest, insertAt.value, lines[i]));
  }

  lemma HeadingsWithout(lines: seq<Line>, i: nat, column: string)
    requires i < |lines| && lines[i].kind.Row?
    ensures HasHeading(lines, column) <==> HasHeading(Without(lines, i), column)
  {
    var rest := Without(lines, i);
    if HasHeading(lines, column) {
      var k :| 0 <= k < |lines| && lines[k].kind == Heading(column);
      assert rest[if k < i then k else k - 1] == lines[k];
    }
  }

  lemma SameLines(lines: seq<Line>, i: nat, k: nat)
    requires i < |lines| && k < |lines|
    ensures multiset(With(Without(lines, i), k, lines[i])) == multiset(lines)
  {
    var rest := Without(lines, i);
    assert lines == With(rest, i, lines[i]);
    MovedOnce(rest, lines, i, lines[i]);
    MovedOnce(rest, With(rest, k, lines[i]), k, lines[i]);
  }

  /** A board with a heading inside its frontmatter. */
  predicate HidesHeading(lines: seq<Line>, note: string) {
    && |lines| == 6 && lines[0].kind == Rule && lines[2].kind == Rule && lines[3].kind == Heading("Todo")
    && lines[1].kind == Heading("Done") && lines[5].kind == Heading("Done") && lines[4].kind == Row(note)
  }

  lemma HiddenBoardReads(lines: seq<Line>, note: string)
    requires HidesHeading(lines, note)
    ensures Parse(lines) == Reading(Reader(Some("Done"), false, false), [Card("Todo", note, lines[4])])
    ensures Parse(lines[..4]) == Reading(Reader(Some("Todo"), false, false), [])
  {
    assert lines[..0] == [];
    ScanStep(START, lines, 0); ScanStep(START, lines, 1); ScanStep(START, lines, 2);
    ScanStep(START, lines, 3); ScanStep(START, lines, 4); ScanStep(START, lines, 5);
    assert lines[..6] == lines;
  }

  /** Without the proviso the card can vanish: the heading inside the frontmatter takes it. */
  lemma HiddenHeadingLosesTheCard(lines: seq<Line>, note: string)
    requires HidesHeading(lines, note)
    ensures Parse(lines) == Reading(Reader(Some("Done"), false, false), [Card("Todo", note, lines[4])])
    ensures SectionEnd(Without(lines, 4), 1, 2, 3)
    ensures Parse(With(Without(lines, 4), 2, lines[4])) == Reading(Reader(Some("Done"), false, false), [])
  {
    HiddenBoardReads(lines, note);
    var rest := Without(lines, 4);
    IsPlaceOfRow(lines, note);
    Removing(lines, 4, 0, Card("Todo", note, lines[4]));
    assert rest[..0] == [];
    ScanStep(START, rest, 0); ScanStep(START, rest, 1);
    Inserting(rest, 2, lines[4]);
  }

  lemma IsPlaceOfRow(lines: seq<Line>, note: string)
    requires |lines| > 4 && Parse(lines[..4]) == Reading(Reader(Some("Todo"), false, false), [])
              && lines[4].kind == Row(note)
    ensures IsPlace(lines, 4, 0, Card("Todo", note, lines[4]))
  {
  }

  lemma HeadingText(title: string, line: string)
    requires Plain(title) && |line| == |title| + 3 && line[..3] == "## " && line[3..] == title
    ensures KindOf(line) == Heading(title)
  {
    assert line == "## " + title;
    HeadingLine(title);
  }

  lemma SixLines(rule: string, done: string, todo: string, row: string, note: string)
    requires KindOf(rule) == Rule && KindOf(done) == Heading("Done") && KindOf(todo) == Heading("Todo")
    requires KindOf(row) == Row(note)
    ensures HidesHeading(LinesOf([rule, done, rule, todo, row, done]), note)
  {
  }

  /** Such a board as text. */
  lemma HiddenHeadingIsText(note: string)
    requires Plain(note) && forall c :: c in note ==> c !in "]|#/\\"
    ensures HidesHeading(LinesOf(["---", "## Done", "---", "## Todo", "- " + ("[[" + note + "]]"), "## Done"]), note)
  {
    RuleLine();
    HeadingText("Done", "## Done");
    HeadingText("Todo", "## Todo");
    RowLine(note);
    SixLines("---", "## Done", "## Todo", "- " + ("[[" + note + "]]"), note);
  }
}
