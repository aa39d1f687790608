// Lines of a Kanban board: what a heading, a task row and the block markers look like.
module BoardLines {
  import opened Basics

  // ---------------------------------------------------------------- lines

  predicate IsSpace(c: char) {
    c in " \t\n\r"
  }

  function LeftStrip(s: string): string {
    if s != [] && IsSpace(s[0]) then LeftStrip(s[1..]) else s
  }

  function RightStrip(s: string): string {
    if s != [] && IsSpace(s[|s| - 1]) then RightStrip(s[..|s| - 1]) else s
  }

  function Strip(s: string): string {
    RightStrip(LeftStrip(s))
  }

  predicate StartsWith(s: string, prefix: string) {
    |prefix| <= |s| && s[..|prefix|] == prefix
  }

  /** `[[note]]`, the note free of `]`, `|`, `#`, `/` and `\`. */
  function TaskLink(s: string): Option<string> {
    if |s| > 4 && StartsWith(s, "[[") && s[|s| - 2..] == "]]" && forall c :: c in s[2..|s| - 2] ==> c !in "]|#/\\"
    then Some(Strip(s[2..|s| - 2])) else None
  }

  /** `parse_task_row`: a task link, alone, after a dash, or after a dash and an empty check box. */
  function ParseTaskRow(line: string): Option<string> {
    var s := Strip(line);
    if !StartsWith(s, "-") then TaskLink(s)
    else if |s| < 2 || !IsSpace(s[1]) then None
    else
      var rest := LeftStrip(s[1..]);
      if |rest| > 3 && rest[0] == '[' && IsSpace(rest[1]) && rest[2] == ']' && IsSpace(rest[3])
      then TaskLink(LeftStrip(rest[3..]))
      else TaskLink(rest)
  }

  datatype Kind = Rule | SettingsOpen | SettingsClose | Heading(title: string) | Row(note: string) | Blank | Other

  /** The parser's tests, which no line passes twice. */
  function KindOf(line: string): Kind {
    var s := Strip(line);
    if s == "---" then Rule
    else if s == "%% kanban:settings" then SettingsOpen
    else if s == "%%" then SettingsClose
    else if StartsWith(s, "## ") then Heading(Strip(s[3..]))
    else if ParseTaskRow(line).Some? then Row(ParseTaskRow(line).value)
    else if s == "" then Blank
    else Other
  }

  /** A line is a heading to the insertion search exactly when it is one to the parser, and likewise a row. */
  lemma KindsAreTheTests(line: string)
    ensures KindOf(line).Heading? <==> StartsWith(Strip(line), "## ")
    ensures KindOf(line).Heading? ==> KindOf(line).title == Strip(Strip(line)[3..])
    ensures KindOf(line).Row? <==> ParseTaskRow(line).Some?
    ensures KindOf(line).Row? ==> KindOf(line).note == ParseTaskRow(line).value
  {
    var s := Strip(line);
    if StartsWith(s, "## ") {
      assert s[0] == '#';
    }
    if ParseTaskRow(line).Some? {
      if StartsWith(s, "-") {
        assert s[0] == '-' && IsSpace(s[1]);
      } else {
        assert s[0] == "[["[0];
      }
    }
  }

  /** A line of a board with what the parser's tests make of it. */
  datatype Line = Line(text: string, kind: Kind)

  function LineOf(text: string): Line {
    Line(text, KindOf(text))
  }

  function LinesOf(texts: seq<string>): (lines: seq<Line>)
    ensures |lines| == |texts| && forall i :: 0 <= i < |texts| ==> lines[i] == LineOf(texts[i])
  {
    seq(|texts|, i requires 0 <= i < |texts| => LineOf(texts[i]))
  }

  function TextsOf(lines: seq<Line>): (texts: seq<string>)
    ensures |texts| == |lines| && forall i :: 0 <= i < |lines| ==> texts[i] == lines[i].text
  {
    seq(|lines|, i requires 0 <= i < |lines| => lines[i].text)
  }

  lemma StripsNothing(s: string)
    requires s != [] && !IsSpace(s[0]) && !IsSpace(s[|s| - 1])
    ensures Strip(s) == s
  {
  }

  /** Some characters between, none of them a space at either end. */
  predicate Plain(s: string) {
    s != [] && !IsSpace(s[0]) && !IsSpace(s[|s| - 1])
  }

  lemma RuleLine()
    ensures KindOf("---") == Rule
  {
    StripsNothing("---");
  }

  lemma HeadingLine(title: string)
    requires Plain(title)
    ensures KindOf("## " + title) == Heading(title)
  {
    var line := "## " + title;
    assert line[0] == '#' && line[|line| - 1] == title[|title| - 1];
    StripsNothing(line);
    assert line[..3] == "## " && line[3..] == title;
    StripsNothing(title);
  }

  lemma LinkReads(note: string)
    requires Plain(note) && forall c :: c in note ==> c !in "]|#/\\"
    ensures TaskLink("[[" + note + "]]") == Some(note)
  {
    var s := "[[" + note + "]]";
    assert s[..2] == "[[" && s[|s| - 2..] == "]]" && s[2..|s| - 2] == note;
    StripsNothing(note);
  }

  lemma RowLine(note: string)
    requires Plain(note) && forall c :: c in note ==> c !in "]|#/\\"
    ensures KindOf("- " + ("[[" + note + "]]")) == Row(note)
  {
    var link := "[[" + note + "]]";
    var line := "- " + link;
    assert line[0] == '-' && line[1] == ' ' && line[|line| - 1] == ']';
    StripsNothing(line);
    assert line[..1] == "-" && line[1..] == " " + link && (" " + link)[1..] == link;
    assert link[0] == '[' && link[1] == '[' && !IsSpace(link[0]) && !IsSpace(link[1]);
    assert LeftStrip(line[1..]) == LeftStrip(link) == link;
    LinkReads(note);
    KindsAreTheTests(line);
  }
}
