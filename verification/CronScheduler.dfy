/** The crontab as text: Install appends one marked line, Remove filters marked lines out. */
module CronScheduler {
  import opened Wrappers
  import opened Grouping
  import opened Strings

  const MARKER := "# TOKEN_MONITOR"

  function Entry(binaryPath: string): string {
    "*/10 * * * * " + binaryPath + " collect " + MARKER
  }

  /* Text and lines */

  function Split(text: string): (lines: seq<string>)
    ensures lines != []
  {
    if text == "" then [""]
    else
      var rest := Split(text[1..]);
      if text[0] == '\n' then [""] + rest else [[text[0]] + rest[0]] + rest[1..]
  }

  function Join(lines: seq<string>): string {
    if lines == [] then ""
    else if |lines| == 1 then lines[0]
    else lines[0] + "\n" + Join(lines[1..])
  }

  function TrimRight(text: string): string {
    if text != "" && Last(text) == '\n' then TrimRight(Front(text)) else text
  }

  predicate Marked(line: string) {
    Contains(line, MARKER)
  }

  function Unmarked(lines: seq<string>): seq<string> {
    if lines == [] then []
    else if Marked(Last(lines)) then Unmarked(Front(lines))
    else Unmarked(Front(lines)) + [Last(lines)]
  }

  function RemoveMarked(text: string): string {
    Join(Unmarked(Split(text)))
  }

  predicate OneLine(s: string) {
    '\n' !in s
  }

  lemma {:induction false} JoinSplit(text: string)
    ensures Join(Split(text)) == text
  {
    if text == "" {
    } else {
      var rest := Split(text[1..]);
      JoinSplit(text[1..]);
      assert text == [text[0]] + text[1..];
      if text[0] == '\n' {
        assert ([""] + rest)[1..] == rest;
      } else {
        assert Split(text)[1..] == rest[1..];
      }
    }
  }

  lemma {:induction false} SplitAppend(a: string, b: string)
    ensures Split(a + "\n" + b) == Split(a) + Split(b)
  {
    var text := a + "\n" + b;
    if a == "" {
      assert text[1..] == b;
    } else {
      assert text[0] == a[0] && text[1..] == a[1..] + "\n" + b;
      SplitAppend(a[1..], b);
      SplitStep(a[0], Split(a[1..]), Split(b));
    }
  }

  /** What Split does with one character in front, beside lines that follow anyway. */
  lemma {:induction false} SplitStep(c: char, rest: seq<string>, more: seq<string>)
    requires rest != []
    ensures [""] + (rest + more) == ([""] + rest) + more
    ensures [[c] + (rest + more)[0]] + (rest + more)[1..] == ([[c] + rest[0]] + rest[1..]) + more
  {
  }

  lemma {:induction false} SplitOneLine(line: string)
    requires OneLine(line)
    ensures Split(line) == [line]
  {
    if line == "" {
    } else {
      SplitOneLine(line[1..]);
      assert line == [line[0]] + line[1..];
    }
  }

  lemma {:induction false} SplitLines(text: string)
    ensures forall line :: line in Split(text) ==> OneLine(line)
  {
    if text == "" {
      assert Split(text) == [""];
    } else {
      SplitLines(text[1..]);
      var rest := Split(text[1..]);
      assert rest == [rest[0]] + rest[1..];
      assert Split(text) == if text[0] == '\n' then [""] + rest else [[text[0]] + rest[0]] + rest[1..];
      assert rest[0] in rest;
    }
  }

  lemma {:induction false} SplitJoin(lines: seq<string>)
    requires lines != [] && forall line :: line in lines ==> OneLine(line)
    ensures Split(Join(lines)) == lines
  {
    if |lines| == 1 {
      SplitOneLine(lines[0]);
    } else {
      SplitJoin(lines[1..]);
      SplitAppend(lines[0], Join(lines[1..]));
      SplitOneLine(lines[0]);
      assert lines == [lines[0]] + lines[1..];
    }
  }

  /* The marker in a text and in its lines */

  lemma {:induction false} FirstLine(text: string)
    ensures Split(text)[0] <= text
  {
    if text != "" && text[0] != '\n' {
      FirstLine(text[1..]);
      assert text == [text[0]] + text[1..];
    }
  }

  lemma {:induction false} PrefixInFirstLine(text: string, part: string)
    requires OneLine(part) && part <= text
    ensures part <= Split(text)[0]
  {
    if part == "" {
    } else {
      assert text[0] == part[0] && part[0] in part;
      assert part[1..] <= text[1..];
      PrefixInFirstLine(text[1..], part[1..]);
      assert part == [part[0]] + part[1..];
    }
  }

  /** A text mentions the marker exactly when one of its lines does. */
  lemma {:induction false} MarkerIsInALine(text: string)
    ensures Contains(text, MARKER) <==> exists line :: line in Split(text) && Marked(line)
  {
    if text == "" {
      assert forall line :: line in Split(text) ==> line == "";
    } else {
      MarkerIsInALine(text[1..]);
      var lines, rest := Split(text), Split(text[1..]);
      assert rest == [rest[0]] + rest[1..];
      if MARKER <= text {
        PrefixInFirstLine(text, MARKER);
        assert Marked(lines[0]) && lines[0] in lines;
      } else if text[0] != '\n' {
        FirstLine(text);
        assert lines[0][1..] == rest[0];
        assert Marked(lines[0]) <==> Marked(rest[0]);
        assert lines == [lines[0]] + rest[1..];
      } else {
        assert lines == [""] + rest && !Marked("");
      }
    }
  }

  lemma {:induction false} UnmarkedMembers(lines: seq<string>)
    ensures forall line :: line in Unmarked(lines) <==> line in lines && !Marked(line)
    ensures (forall line :: line in lines ==> !Marked(line)) ==> Unmarked(lines) == lines
  {
    if lines == [] {
    } else {
      assert lines == Front(lines) + [Last(lines)];
      UnmarkedMembers(Front(lines));
    }
  }

  lemma {:induction false} UnmarkedAppend(a: seq<string>, b: seq<string>)
    ensures Unmarked(a + b) == Unmarked(a) + Unmarked(b)
  {
    if b == [] {
      assert a + b == a;
    } else {
      assert Front(a + b) == a + Front(b);
      UnmarkedAppend(a, Front(b));
    }
  }

  lemma {:induction false} MarkerFreeIsUntouched(text: string)
    requires !Contains(text, MARKER)
    ensures RemoveMarked(text) == text && Unmarked(Split(text)) == Split(text)
  {
    MarkerIsInALine(text);
    UnmarkedMembers(Split(text));
    JoinSplit(text);
  }

  /* The scheduler */

  /** What one call meets: whether reading the crontab succeeds, which it never does while there is none,
      and whether writing it does. */
  datatype Op = Install(binaryPath: string, readable: bool, writable: bool) | Remove(readable: bool, writable: bool)

  function Existing(crontab: Option<string>, readable: bool): Option<string> {
    if readable then crontab else None
  }

  function Installed(existing: string, binaryPath: string): string {
    TrimRight(existing) + "\n" + Entry(binaryPath) + "\n"
  }

  function Step(crontab: Option<string>, op: Op): Option<string> {
    match op
    case Install(path, readable, writable) =>
      var existing := Existing(crontab, readable).GetOr("");
      if Contains(existing, MARKER) || !writable then crontab else Some(Installed(existing, path))
    case Remove(readable, writable) =>
      match Existing(crontab, readable)
      case None => crontab
      case Some(existing) => if writable then Some(RemoveMarked(existing)) else crontab
  }

  function RunOps(crontab: Option<string>, ops: seq<Op>): Option<string> {
    if ops == [] then crontab else Step(RunOps(crontab, Front(ops)), Last(ops))
  }

  class Crontab {
    var content: Option<string>

    method Install(binaryPath: string, readable: bool, writable: bool) returns (failed: bool)
      modifies this
      ensures content == Step(old(content), Op.Install(binaryPath, readable, writable))
      ensures failed <==> !writable && !Contains(Existing(old(content), readable).GetOr(""), MARKER)
    {
      var existing := "";
      if readable && content.Some? {
        existing := content.value;
      }
      var entry := "*/10 * * * * " + binaryPath + " collect " + MARKER;
      if Contains(existing, MARKER) {
        return false;
      }
      failed := SetCrontab(TrimRight(existing) + "\n" + entry + "\n", writable);
    }

    method Remove(readable: bool, writable: bool) returns (failed: bool)
      modifies this
      ensures content == Step(old(content), Op.Remove(readable, writable))
      ensures failed <==> readable && old(content).Some? && !writable
    {
      if !readable || content.None? {
        return false;
      }
      var filtered: seq<string> := [];
      var lines := Split(content.value);
      for i := 0 to |lines|
        invariant filtered == Unmarked(lines[..i])
        invariant content == old(content)
      {
        Snoc(lines, i);
        if !Contains(lines[i], MARKER) {
          filtered := filtered + [lines[i]];
        }
      }
      assert lines[..|lines|] == lines;
      failed := SetCrontab(Join(filtered), writable);
    }

    method SetCrontab(text: string, writable: bool) returns (failed: bool)
      modifies this
      ensures content == if writable then Some(text) else old(content)
      ensures failed <==> !writable
    {
      if writable {
        content := Some(text);
      }
      failed := !writable;
    }
  }

  /* What survives */

  function NonBlank(lines: seq<string>): seq<string> {
    if lines == [] then []
    else if Last(lines) == "" then NonBlank(Front(lines))
    else NonBlank(Front(lines)) + [Last(lines)]
  }

  /** The non-blank lines that are the user's own, in order. */
  function UserLines(crontab: Option<string>): seq<string> {
    NonBlank(Unmarked(Split(crontab.GetOr(""))))
  }

  /** How many lines are the scheduler's. */
  function MarkedLines(crontab: Option<string>): nat {
    CountMarked(Split(crontab.GetOr("")))
  }

  function CountMarked(lines: seq<string>): nat {
    if lines == [] then 0 else CountMarked(Front(lines)) + if Marked(Last(lines)) then 1 else 0
  }

  lemma {:induction false} NoneMarked(lines: seq<string>)
    requires forall line :: line in lines ==> !Marked(line)
    ensures CountMarked(lines) == 0
  {
    if lines == [] {
    } else {
      assert lines == Front(lines) + [Last(lines)];
      NoneMarked(Front(lines));
    }
  }

  lemma {:induction false} TrimRightIdempotent(text: string)
    ensures TrimRight(TrimRight(text) + "\n") == TrimRight(text)
    ensures TrimRight(TrimRight(text)) == TrimRight(text)
  {
    if text != "" && Last(text) == '\n' {
      TrimRightIdempotent(Front(text));
    }
    assert Front(TrimRight(text) + "\n") == TrimRight(text);
    TrimmedEnd(text);
  }

  lemma {:induction false} TrimmedEnd(text: string)
    ensures TrimRight(text) == "" || Last(TrimRight(text)) != '\n'
  {
    if text != "" && Last(text) == '\n' {
      TrimmedEnd(Front(text));
    }
  }

  /** Trimming drops blank lines only. */
  lemma {:induction false} TrimRightKeepsLines(text: string)
    ensures NonBlank(Split(TrimRight(text))) == NonBlank(Split(text))
    ensures !Contains(text, MARKER) ==> forall line :: line in Split(TrimRight(text)) ==> !Marked(line)
  {
    MarkerIsInALine(text);
    if text != "" && Last(text) == '\n' {
      var front := Front(text);
      TrimRightKeepsLines(front);
      assert text == front + "\n" + "";
      SplitAppend(front, "");
      MarkerIsInALine(front);
      assert Split("") == [""];
      assert Front(Split(front) + [""]) == Split(front);
    }
  }

  /** The text with its trailing newlines made one. */
  function Normal(text: string): string {
    TrimRight(text) + "\n"
  }

  lemma {:induction false} NormalLines(text: string)
    requires !Contains(text, MARKER)
    ensures Split(Normal(text)) == Split(TrimRight(text)) + [""]
    ensures !Contains(Normal(text), MARKER)
    ensures NonBlank(Split(Normal(text))) == NonBlank(Split(text))
  {
    TrimRightKeepsLines(text);
    assert Normal(text) == TrimRight(text) + "\n" + "";
    SplitAppend(TrimRight(text), "");
    assert Split("") == [""];
    MarkerIsInALine(Normal(text));
    assert !Marked("");
    assert Front(Split(TrimRight(text)) + [""]) == Split(TrimRight(text));
  }

  lemma {:induction false} EntryIsMarked(path: string)
    requires OneLine(path)
    ensures OneLine(Entry(path)) && Marked(Entry(path)) && Entry(path) != ""
  {
    assert Entry(path) == ("*/10 * * * * " + path + " collect ") + MARKER + "";
    ContainsAfter("*/10 * * * * " + path + " collect ", MARKER, "");
  }

  lemma {:induction false} InstalledLines(text: string, path: string)
    requires !Contains(text, MARKER) && OneLine(path)
    ensures Split(Installed(text, path)) == Split(TrimRight(text)) + [Entry(path)] + [""]
    ensures Contains(Installed(text, path), MARKER)
    ensures Unmarked(Split(Installed(text, path))) == Split(TrimRight(text)) + [""]
    ensures CountMarked(Split(Installed(text, path))) == 1
  {
    var trimmed, entry := TrimRight(text), Entry(path);
    EntryIsMarked(path);
    assert Installed(text, path) == trimmed + "\n" + (entry + "\n" + "");
    SplitAppend(trimmed, entry + "\n" + "");
    SplitAppend(entry, "");
    SplitOneLine(entry);
    assert Split("") == [""];
    var lines := Split(trimmed) + [entry] + [""];
    assert Split(trimmed) + ([entry] + [""]) == lines;
    TrimRightKeepsLines(text);
    UnmarkedMembers(Split(trimmed));
    NoneMarked(Split(trimmed));
    assert Front(lines) == Split(trimmed) + [entry] && Front(Front(lines)) == Split(trimmed);
    assert entry in lines;
    MarkerIsInALine(Installed(text, path));
  }

  /** The words of a line, between single spaces. */
  function Words(line: string): (words: seq<string>)
    ensures words != []
  {
    if line == "" then [""]
    else
      var rest := Words(line[1..]);
      if line[0] == ' ' then [""] + rest else [[line[0]] + rest[0]] + rest[1..]
  }

  lemma {:induction false} FirstWord(word: string, rest: string)
    requires ' ' !in word
    ensures Words(word + " " + rest) == [word] + Words(rest)
  {
    var line := word + " " + rest;
    if word == "" {
      assert line[1..] == rest;
    } else {
      assert line[1..] == word[1..] + " " + rest;
      FirstWord(word[1..], rest);
      assert [word[0]] + word[1..] == word;
    }
  }

  lemma {:induction false} OneWord(word: string)
    requires ' ' !in word
    ensures Words(word) == [word]
  {
    if word == "" {
    } else {
      OneWord(word[1..]);
      assert [word[0]] + word[1..] == word;
    }
  }

  lemma {:induction false} TwoWords(v: string, w: string, rest: string)
    requires ' ' !in v && ' ' !in w
    ensures Words(v + " " + w + " " + rest) == [v, w] + Words(rest)
  {
    assert v + " " + w + " " + rest == v + " " + (w + " " + rest);
    FirstWord(v, w + " " + rest);
    FirstWord(w, rest);
  }

  lemma {:induction false} ScheduleWords(command: string)
    ensures Words("*/10 * * * * " + command) == ["*/10", "*", "*", "*", "*"] + Words(command)
  {
    assert "*/10 * * * * " == "*/10" + " " + "*" + " " + "* * * ";
    assert "* * * " == "*" + " " + "*" + " " + "*" + " ";
    FiveWords("*/10", "*", command);
  }

  lemma {:induction false} FiveWords(v: string, w: string, rest: string)
    requires ' ' !in v && ' ' !in w
    ensures Words(v + " " + w + " " + (w + " " + w + " " + w + " ") + rest) == [v, w, w, w, w] + Words(rest)
  {
    var three := w + " " + w + " " + (w + " " + rest);
    assert v + " " + w + " " + (w + " " + w + " " + w + " ") + rest == v + " " + w + " " + three;
    TwoWords(v, w, three);
    TwoWords(w, w, w + " " + rest);
    FirstWord(w, rest);
  }

  lemma {:induction false} CommandWords(path: string, verb: string, sign: string, name: string)
    requires ' ' !in path && ' ' !in verb && ' ' !in sign && ' ' !in name
    ensures Words(path + (" " + verb + " ") + (sign + " " + name)) == [path, verb, sign, name]
  {
    assert path + (" " + verb + " ") + (sign + " " + name) == path + " " + verb + " " + (sign + " " + name);
    TwoWords(path, verb, sign + " " + name);
    FirstWord(sign, name);
    OneWord(name);
  }

  /** Read as cron reads it: every ten minutes of every hour and day, the binary is run to collect. */
  lemma {:induction false} EntryRunsCollect(path: string)
    requires ' ' !in path
    ensures Words(Entry(path)) == ["*/10", "*", "*", "*", "*"] + [path, "collect", "#", "TOKEN_MONITOR"]
  {
    CommandWords(path, "collect", "#", "TOKEN_MONITOR");
    CommandSpelled(path);
    ScheduleWords(path + " collect " + MARKER);
    assert "*/10 * * * * " + (path + " collect " + MARKER) == Entry(path);
  }

  lemma {:induction false} CommandSpelled(path: string)
    ensures path + " collect " + MARKER == path + (" " + "collect" + " ") + ("#" + " " + "TOKEN_MONITOR")
  {
    assert " collect " == " " + "collect" + " ";
    assert MARKER == "#" + " " + "TOKEN_MONITOR";
  }

  /** Remove after Install gives back the crontab, its trailing newlines made one. */
  lemma {:induction false} RemoveUndoesInstall(text: string, path: string)
    requires !Contains(text, MARKER) && OneLine(path)
    ensures RemoveMarked(Installed(text, path)) == Normal(text)
  {
    InstalledLines(text, path);
    NormalLines(text);
    JoinSplit(Normal(text));
  }

  /** The crontab is the text with one entry added. */
  ghost predicate HasOneEntry(text: string, crontab: Option<string>) {
    exists path :: OneLine(path) && crontab == Some(Installed(text, path))
  }

  /** The crontab is always the original one, or that with one final newline, or that with one entry added. */
  ghost predicate IsAsExpected(original: Option<string>, crontab: Option<string>) {
    var text := original.GetOr("");
    || crontab == original
    || crontab == Some(Normal(text))
    || HasOneEntry(text, crontab)
  }

  /** The install reads the crontab, if there is one; the path is a single line. */
  ghost predicate Proper(crontab: Option<string>, op: Op) {
    op.Install? ==> OneLine(op.binaryPath) && (crontab.Some? ==> op.readable)
  }

  ghost predicate AllProper(crontab: Option<string>, ops: seq<Op>) {
    ops != [] ==> AllProper(crontab, Front(ops)) && Proper(RunOps(crontab, Front(ops)), Last(ops))
  }

  /** Installing over the original, or over it normalised, adds the same entry to the same lines. */
  lemma {:induction false} InstallAddsEntry(text: string, path: string)
    requires OneLine(path)
    ensures Installed(Normal(text), path) == Installed(text, path)
    ensures HasOneEntry(text, Some(Installed(text, path)))
  {
    TrimRightIdempotent(text);
  }

  lemma {:induction false} InstallStaysAsExpected(original: Option<string>, crontab: Option<string>, op: Op)
    requires !Contains(original.GetOr(""), MARKER) && op.Install?
    requires IsAsExpected(original, crontab) && Proper(crontab, op)
    ensures IsAsExpected(original, Step(crontab, op))
  {
    var text := original.GetOr("");
    var existing := Existing(crontab, op.readable).GetOr("");
    if Contains(existing, MARKER) || !op.writable {
      assert Step(crontab, op) == crontab;
    } else if HasOneEntry(text, crontab) {
      EntryIsFound(text, crontab);
    } else {
      assert existing == text || existing == Normal(text);
      InstallAddsEntry(text, op.binaryPath);
    }
  }

  lemma {:induction false} EntryIsFound(text: string, crontab: Option<string>)
    requires !Contains(text, MARKER) && HasOneEntry(text, crontab)
    ensures crontab.Some? && Contains(crontab.value, MARKER)
    ensures RemoveMarked(crontab.value) == Normal(text)
  {
    var path :| OneLine(path) && crontab == Some(Installed(text, path));
    InstalledLines(text, path);
    RemoveUndoesInstall(text, path);
  }

  lemma {:induction false} RemoveStaysAsExpected(original: Option<string>, crontab: Option<string>, op: Op)
    requires !Contains(original.GetOr(""), MARKER) && op.Remove?
    requires IsAsExpected(original, crontab)
    ensures IsAsExpected(original, Step(crontab, op))
  {
    var text := original.GetOr("");
    if !op.readable || !op.writable || crontab.None? {
      assert Step(crontab, op) == crontab;
    } else if HasOneEntry(text, crontab) {
      EntryIsFound(text, crontab);
    } else {
      NormalLines(text);
      MarkerFreeIsUntouched(crontab.value);
    }
  }

  lemma {:induction false} StepStaysAsExpected(original: Option<string>, crontab: Option<string>, op: Op)
    requires !Contains(original.GetOr(""), MARKER)
    requires IsAsExpected(original, crontab) && Proper(crontab, op)
    ensures IsAsExpected(original, Step(crontab, op))
  {
    if op.Install? {
      InstallStaysAsExpected(original, crontab, op);
    } else {
      RemoveStaysAsExpected(original, crontab, op);
    }
  }

  lemma {:induction false} RunsStayAsExpected(original: Option<string>, ops: seq<Op>)
    requires !Contains(original.GetOr(""), MARKER) && AllProper(original, ops)
    ensures IsAsExpected(original, RunOps(original, ops))
  {
    if ops == [] {
    } else {
      RunsStayAsExpected(original, Front(ops));
      StepStaysAsExpected(original, RunOps(original, Front(ops)), Last(ops));
    }
  }

  lemma {:induction false} ExpectedKeepsLines(original: Option<string>, crontab: Option<string>)
    requires !Contains(original.GetOr(""), MARKER) && IsAsExpected(original, crontab)
    ensures UserLines(crontab) == UserLines(original) == NonBlank(Split(original.GetOr("")))
    ensures MarkedLines(crontab) <= 1
  {
    var text := original.GetOr("");
    NormalLines(text);
    MarkerFreeIsUntouched(text);
    MarkerFreeIsUntouched(Normal(text));
    MarkerIsInALine(text);
    MarkerIsInALine(Normal(text));
    NoneMarked(Split(text));
    NoneMarked(Split(Normal(text)));
    if path :| OneLine(path) && crontab == Some(Installed(text, path)) {
      InstalledLines(text, path);
    }
  }

  /** Whatever is installed and removed, in any order and any number of times, with writes failing now and then:
      the user's non-blank lines stay as they were, in order, beside at most one line of the scheduler's. */
  lemma {:induction false} RunsKeepUserLines(original: Option<string>, ops: seq<Op>)
    requires !Contains(original.GetOr(""), MARKER) && AllProper(original, ops)
    ensures UserLines(RunOps(original, ops)) == NonBlank(Split(original.GetOr("")))
    ensures MarkedLines(RunOps(original, ops)) <= 1
  {
    RunsStayAsExpected(original, ops);
    ExpectedKeepsLines(original, RunOps(original, ops));
  }

  /** A second Install changes nothing, on any crontab and whatever the paths. */
  lemma {:induction false} InstallIsIdempotent(crontab: Option<string>, path: string, again: string)
    requires OneLine(path)
    ensures
      var once := Step(crontab, Install(path, true, true));
      Step(once, Install(again, true, true)) == once
  {
    var existing := crontab.GetOr("");
    if !Contains(existing, MARKER) {
      InstalledLines(existing, path);
    }
  }

  /** A second Remove changes nothing, on any crontab. */
  lemma {:induction false} RemoveIsIdempotent(text: string)
    ensures RemoveMarked(RemoveMarked(text)) == RemoveMarked(text)
    ensures !Contains(RemoveMarked(text), MARKER)
  {
    var kept := Unmarked(Split(text));
    UnmarkedMembers(Split(text));
    SplitLines(text);
    if kept == [] {
      assert Split("") == [""] && !Marked("");
    } else {
      SplitJoin(kept);
    }
    MarkerIsInALine(RemoveMarked(text));
    MarkerFreeIsUntouched(RemoveMarked(text));
  }

  /** An Install that cannot read the crontab there is replaces it: the user's lines survive exactly when
      nothing is written or there are none. */
  lemma {:induction false} UnreadInstallKeepsLinesExactlyWhen(text: string, path: string, writable: bool)
    requires OneLine(path)
    ensures UserLines(Step(Some(text), Install(path, false, writable))) == UserLines(Some(text))
       <==> !writable || UserLines(Some(text)) == []
  {
    assert TrimRight("") == "" && Split("") == [""];
    assert !Contains("", MARKER);
    InstalledLines("", path);
    assert NonBlank([""] + [""]) == [] by {
      assert Front([""] + [""]) == [""] && Front([""]) == [];
    }
  }

  /** One line of the user's, an unreadable crontab, and the line is gone. */
  lemma {:induction false} UnreadInstallLosesLine(path: string)
    requires OneLine(path)
    ensures UserLines(Some("x")) == ["x"] && UserLines(Step(Some("x"), Install(path, false, true))) != ["x"]
  {
    SplitOneLine("x");
    assert !Marked("x");
    assert Unmarked(["x"]) == ["x"] && NonBlank(["x"]) == ["x"] by {
      assert Front(["x"]) == [];
    }
    UnreadInstallKeepsLinesExactlyWhen("x", path, true);
  }
}
