/**
 Normalising and cutting caption text (sau/captions/template.py, `tidy` and `fit`). Characters are
 Unicode scalar values, as in the original's strings.
 */
module CaptionText {

  /** Where `str.splitlines` ends a line: line feed to carriage return, and six separators. */
  predicate IsBreak(c: char) {
    var n := c as int;
    0x0A <= n <= 0x0D || 0x1C <= n <= 0x1E || n == 0x85 || 0x2028 <= n <= 0x2029
  }

  /** What `str.strip` takes off; every line break is among it. */
  predicate IsSpace(c: char) {
    var n := c as int;
    0x09 <= n <= 0x0D || 0x1C <= n <= 0x20 || n == 0x85 || n == 0xA0 || n == 0x1680 || 0x2000 <= n <= 0x200A
    || 0x2028 <= n <= 0x2029 || n == 0x202F || n == 0x205F || n == 0x3000
  }

  const ELLIPSIS := '\U{2026}'

  function RStrip(s: string): string {
    if s != "" && IsSpace(s[|s| - 1]) then RStrip(s[..|s| - 1]) else s
  }

  function LStrip(s: string): string {
    if s != "" && IsSpace(s[0]) then LStrip(s[1..]) else s
  }

  function Strip(s: string): string {
    LStrip(RStrip(s))
  }

  /** What has been read of a text: the lines that have ended, the one begun, and whether a CR ended the last. */
  datatype Scan = Scan(ended: seq<string>, line: string, afterCR: bool)

  function ScanOf(text: string): Scan {
    if text == "" then Scan([], "", false) else ReadChar(ScanOf(text[..|text| - 1]), text[|text| - 1])
  }

  function ReadChar(s: Scan, c: char): Scan {
    if c == '\n' && s.afterCR then Scan(s.ended, "", false)
    else if IsBreak(c) then Scan(s.ended + [s.line], "", c == '\r')
    else Scan(s.ended, s.line + [c], false)
  }

  /** `str.splitlines`: CR LF is one break, and a break at the very end starts no further line. */
  function SplitLines(text: string): seq<string> {
    var s := ScanOf(text);
    if s.line == "" then s.ended else s.ended + [s.line]
  }

  function RStripAll(lines: seq<string>): seq<string> {
    if lines == [] then [] else RStripAll(lines[..|lines| - 1]) + [RStrip(lines[|lines| - 1])]
  }

  /** Drops every blank line at the start or after another blank line. */
  function Collapse(lines: seq<string>): seq<string> {
    if lines == [] then []
    else
      var out, line := Collapse(lines[..|lines| - 1]), lines[|lines| - 1];
      if line == "" && (out == [] || out[|out| - 1] == "") then out else out + [line]
  }

  function Join(lines: seq<string>): string {
    if lines == [] then ""
    else if |lines| == 1 then lines[0]
    else Join(lines[..|lines| - 1]) + "\n" + lines[|lines| - 1]
  }

  function Tidied(text: string): string {
    Strip(Join(Collapse(RStripAll(SplitLines(text)))))
  }

  method Tidy(text: string) returns (r: string)
    ensures r == Tidied(text)
  {
    var lines := RStripLines(SplitLines(text));
    var out := DropBlanks(lines);
    r := Strip(Join(out));
  }

  method RStripLines(split: seq<string>) returns (lines: seq<string>)
    ensures lines == RStripAll(split)
  {
    lines := [];
    for n := 0 to |split|
      invariant lines == RStripAll(split[..n])
    {
      assert split[..n + 1][..n] == split[..n];
      lines := lines + [RStrip(split[n])];
    }
    assert split[..|split|] == split;
  }

  method DropBlanks(lines: seq<string>) returns (out: seq<string>)
    ensures out == Collapse(lines)
  {
    out := [];
    for n := 0 to |lines|
      invariant out == Collapse(lines[..n])
    {
      assert lines[..n + 1][..n] == lines[..n];
      var line := lines[n];
      if !(line == "" && (out == [] || out[|out| - 1] == "")) {
        out := out + [line];
      }
    }
    assert lines[..|lines|] == lines;
  }

  /** `fit`; 0.8 of the budget is compared exactly. */
  function Fit(text: string, limit: int): string {
    if limit <= 0 || |text| <= limit then text
    else RStrip(text[..CutAt(text, limit - 1)]) + [ELLIPSIS]
  }

  /** Where to cut: at the last space if that costs less than a fifth of the budget. */
  function CutAt(text: string, budget: nat): (n: nat)
    requires budget <= |text|
    ensures n <= budget && (n == budget || 5 * n > 4 * budget)
  {
    var space := LastSpace(text[..budget]);
    if 5 * space > 4 * budget then space else budget
  }

  /** `rfind(" ")`. */
  function LastSpace(s: string): (r: int)
    ensures -1 <= r < |s|
    ensures r >= 0 ==> s[r] == ' '
    ensures forall i :: r < i < |s| ==> s[i] != ' '
  {
    if s == "" then -1 else if s[|s| - 1] == ' ' then |s| - 1 else LastSpace(s[..|s| - 1])
  }

  // ---- normal form -----------------------------------------------------------------------

  /** No break but the newline, no blank before a newline, no two blank lines in a row. */
  predicate Local(t: string) {
    && (forall i :: 0 <= i < |t| && IsBreak(t[i]) ==> t[i] == '\n')
    && (forall i :: 0 < i < |t| && t[i] == '\n' ==> t[i - 1] == '\n' || !IsSpace(t[i - 1]))
    && (forall i :: 1 < i < |t| && t[i] == '\n' && t[i - 1] == '\n' ==> t[i - 2] != '\n')
  }

  predicate Trimmed(t: string) {
    t != "" ==> !IsSpace(t[0]) && !IsSpace(t[|t| - 1])
  }

  predicate NormalForm(t: string) {
    Local(t) && Trimmed(t)
  }

  lemma {:induction false} RStripIs(s: string)
    ensures |RStrip(s)| <= |s| && RStrip(s) == s[..|RStrip(s)|]
    ensures RStrip(s) != "" ==> !IsSpace(RStrip(s)[|RStrip(s)| - 1])
    ensures forall i :: |RStrip(s)| <= i < |s| ==> IsSpace(s[i])
  {
    if s != "" && IsSpace(s[|s| - 1]) {
      RStripIs(s[..|s| - 1]);
    }
  }

  lemma {:induction false} LStripIs(s: string)
    ensures |LStrip(s)| <= |s| && LStrip(s) == s[|s| - |LStrip(s)|..]
    ensures LStrip(s) != "" ==> !IsSpace(LStrip(s)[0])
  {
    if s != "" && IsSpace(s[0]) {
      LStripIs(s[1..]);
    }
  }

  lemma StripTrims(s: string)
    ensures Trimmed(Strip(s)) && (Local(s) ==> Local(Strip(s)))
  {
    RStripIs(s);
    LStripIs(RStrip(s));
  }

  lemma {:induction false} LStripDropsBlanks(s: string, i: nat)
    requires |LStrip(s)| <= |s| && i < |s| - |LStrip(s)|
    ensures IsSpace(s[i])
    decreases |s|
  {
    if i > 0 {
      LStripIs(s[1..]);
      LStripDropsBlanks(s[1..], i - 1);
    }
  }

  /** Stripping takes blanks off both ends, and all that are there. */
  lemma StripIs(s: string) returns (from: nat)
    ensures from + |Strip(s)| <= |s| && Strip(s) == s[from..from + |Strip(s)|] && Trimmed(Strip(s))
    ensures forall i :: 0 <= i < from || from + |Strip(s)| <= i < |s| ==> IsSpace(s[i])
  {
    StripTrims(s);
    RStripIs(s);
    LStripIs(RStrip(s));
    from := |RStrip(s)| - |Strip(s)|;
    StripDropsBlanksInFront(s, from);
  }

  lemma StripDropsBlanksInFront(s: string, from: nat)
    requires |RStrip(s)| <= |s| && RStrip(s) == s[..|RStrip(s)|] && from == |RStrip(s)| - |Strip(s)|
    ensures forall i :: 0 <= i < from ==> IsSpace(s[i])
  {
    forall i | 0 <= i < from ensures IsSpace(s[i]) {
      LStripDropsBlanks(RStrip(s), i);
    }
  }

  // ---- lines -----------------------------------------------------------------------------

  /** The characters that end a line, and those that are blank, by code point. */
  lemma BreaksAndBlanks(c: char)
    ensures IsBreak(c) <==>
            c as int in {0x0A, 0x0B, 0x0C, 0x0D, 0x1C, 0x1D, 0x1E, 0x85, 0x2028, 0x2029}
    ensures IsSpace(c) <==>
            IsBreak(c)
            || c as int in {0x09, 0x1F, 0x20, 0xA0, 0x1680, 0x2000, 0x2001, 0x2002, 0x2003, 0x2004, 0x2005, 0x2006,
                            0x2007, 0x2008, 0x2009, 0x200A, 0x202F, 0x205F, 0x3000}
  {
  }

  /** There is no break in the text. */
  predicate OneLine(text: string) {
    text == "" || (OneLine(text[..|text| - 1]) && !IsBreak(text[|text| - 1]))
  }

  lemma PlainCharIsRead(line: string, c: char)
    requires !IsBreak(c)
    ensures ReadChar(Scan([], line, false), c) == Scan([], line + [c], false)
  {
  }

  lemma {:induction false} ScanOfOneLine(text: string)
    requires OneLine(text)
    ensures ScanOf(text) == Scan([], text, false)
    decreases |text|
  {
    if text != "" {
      var front, c := text[..|text| - 1], text[|text| - 1];
      ScanOfOneLine(front);
      PlainCharIsRead(front, c);
      assert front + [c] == text;
    }
  }

  lemma ScanOfMore(text: string, c: char)
    ensures ScanOf(text + [c]) == ReadChar(ScanOf(text), c)
  {
    assert (text + [c])[..|text|] == text;
  }

  /** CR LF, or a break that is not the CR of one. */
  predicate IsMark(mark: string, rest: string) {
    mark == ['\r', '\n'] || (|mark| == 1 && IsBreak(mark[0]) && !(mark == "\r" && "\n" <= rest))
  }

  lemma BreakEndsTheLine(line: string, c: char)
    requires ScanOf(line) == Scan([], line, false) && IsBreak(c)
    ensures ScanOf(line + [c]) == Scan([line], "", c == '\r')
  {
    ScanOfMore(line, c);
    assert [] + [line] == [line];
  }

  lemma CrLfEndsTheLine(line: string)
    requires ScanOf(line) == Scan([], line, false)
    ensures ScanOf(line + ['\r', '\n']) == Scan([line], "", false)
  {
    BreakEndsTheLine(line, '\r');
    ScanOfMore(line + ['\r'], '\n');
    assert line + ['\r', '\n'] == line + ['\r'] + ['\n'];
  }

  lemma MarkEndsTheLine(line: string, mark: string, rest: string)
    requires ScanOf(line) == Scan([], line, false) && IsMark(mark, rest)
    ensures ScanOf(line + mark) == Scan([line], "", mark == "\r")
  {
    if mark == ['\r', '\n'] {
      CrLfEndsTheLine(line);
    } else {
      BreakEndsTheLine(line, mark[0]);
      assert mark == [mark[0]];
    }
  }

  /** What has been read before does not matter, but for a CR. */
  lemma ReadsOn(ended: seq<string>, s: Scan, c: char)
    ensures var r := ReadChar(s, c);
            ReadChar(Scan(ended + s.ended, s.line, s.afterCR), c) == Scan(ended + r.ended, r.line, r.afterCR)
  {
  }

  /** After `before`, `rest` is scanned as by itself. */
  predicate ScansAfresh(before: string, rest: string) {
    ScanOf(before + rest)
    == Scan(ScanOf(before).ended + ScanOf(rest).ended, ScanOf(rest).line, ScanOf(rest).afterCR)
  }

  lemma OneMoreAfresh(before: string, front: string, c: char)
    requires ScansAfresh(before, front)
    ensures ScansAfresh(before, front + [c])
  {
    ScanOfMore(before + front, c);
    ScanOfMore(front, c);
    ReadsOn(ScanOf(before).ended, ScanOf(front), c);
    assert before + (front + [c]) == before + front + [c];
  }

  lemma FirstAfresh(before: string, c: char)
    requires ScanOf(before).line == "" && !(ScanOf(before).afterCR && c == '\n')
    ensures ScansAfresh(before, [c])
  {
    ScanOfMore(before, c);
    ScanOfMore("", c);
    assert "" + [c] == [c];
    ReadsOn(ScanOf(before).ended, Scan([], "", false), c);
    assert ScanOf(before).ended + [] == ScanOf(before).ended;
  }

  /** After a break the scan starts afresh. */
  lemma {:induction false} ScanStartsAfresh(before: string, rest: string)
    requires ScanOf(before).line == "" && rest != "" && !(ScanOf(before).afterCR && rest[0] == '\n')
    ensures ScansAfresh(before, rest)
    decreases |rest|
  {
    var front, c := rest[..|rest| - 1], rest[|rest| - 1];
    assert rest == front + [c];
    if front == "" {
      FirstAfresh(before, c);
    } else {
      ScanStartsAfresh(before, front);
      OneMoreAfresh(before, front, c);
    }
  }

  /** A text without a break is its own line, if it is not empty. */
  lemma SplitsNowhere(text: string)
    requires OneLine(text)
    ensures SplitLines(text) == if text == "" then [] else [text]
  {
    ScanOfOneLine(text);
  }

  /** What stands before the first break is a line, and what follows it is split by itself. */
  lemma SplitsAtTheFirstBreak(line: string, mark: string, rest: string)
    requires OneLine(line) && IsMark(mark, rest)
    ensures SplitLines(line + mark + rest) == [line] + SplitLines(rest)
  {
    ScanOfOneLine(line);
    MarkEndsTheLine(line, mark, rest);
    if rest == "" {
      assert line + mark + rest == line + mark;
    } else {
      ScanStartsAfresh(line + mark, rest);
    }
  }

  /** A line is dropped exactly if it is blank and comes first or after a blank one. */
  lemma CollapseDrops(lines: seq<string>, line: string)
    ensures Collapse(lines + [line]) ==
            if line == "" && (lines == [] || lines[|lines| - 1] == "") then Collapse(lines)
            else Collapse(lines) + [line]
  {
    assert (lines + [line])[..|lines|] == lines;
  }

  // What joining lines without breaks and trailing blanks, no two of them blank in a row, gives.

  predicate CleanLine(line: string) {
    (forall i :: 0 <= i < |line| ==> !IsBreak(line[i])) && (line != "" ==> !IsSpace(line[|line| - 1]))
  }

  predicate Separated(lines: seq<string>) {
    (lines != [] ==> lines[0] != "") && (forall i :: 0 < i < |lines| && lines[i] == "" ==> lines[i - 1] != "")
  }

  lemma {:induction false} ScannedLinesHaveNoBreaks(text: string)
    ensures var s := ScanOf(text);
            && (forall i :: 0 <= i < |s.line| ==> !IsBreak(s.line[i]))
            && (forall line :: line in s.ended ==> forall i :: 0 <= i < |line| ==> !IsBreak(line[i]))
    decreases |text|
  {
    if text != "" {
      ScannedLinesHaveNoBreaks(text[..|text| - 1]);
    }
  }

  lemma {:induction false} StrippedLinesAreClean(lines: seq<string>)
    requires forall line :: line in lines ==> forall i :: 0 <= i < |line| ==> !IsBreak(line[i])
    ensures forall line :: line in RStripAll(lines) ==> CleanLine(line)
    decreases |lines|
  {
    if lines != [] {
      var last := lines[|lines| - 1];
      StrippedLinesAreClean(lines[..|lines| - 1]);
      RStripIs(last);
    }
  }

  lemma {:induction false} CollapseSeparates(lines: seq<string>)
    ensures Separated(Collapse(lines)) && (forall line :: line in Collapse(lines) ==> line in lines)
    decreases |lines|
  {
    if lines != [] {
      CollapseSeparates(lines[..|lines| - 1]);
    }
  }

  /** Ends in its last line: in a non-blank, or in one newline after one. */
  predicate EndsLike(t: string, line: string) {
    if line == "" then t != "" && t[|t| - 1] == '\n' && (|t| > 1 ==> !IsSpace(t[|t| - 2]))
    else t != "" && !IsSpace(t[|t| - 1])
  }

  lemma OneLineIsLocal(line: string)
    requires CleanLine(line) && line != ""
    ensures Local(line) && EndsLike(line, line)
  {
  }

  lemma JoinOneMore(t: string, before: string, line: string)
    requires Local(t) && CleanLine(line) && EndsLike(t, before) && (line == "" ==> before != "")
    ensures Local(t + "\n" + line) && EndsLike(t + "\n" + line, line)
  {
  }

  lemma {:induction false} JoinIsLocal(lines: seq<string>)
    requires Separated(lines) && (forall line :: line in lines ==> CleanLine(line)) && lines != []
    ensures Local(Join(lines)) && EndsLike(Join(lines), lines[|lines| - 1])
    decreases |lines|
  {
    if |lines| == 1 {
      assert lines[0] in lines;
      OneLineIsLocal(lines[0]);
    } else {
      var front := lines[..|lines| - 1];
      JoinIsLocal(front);
      JoinOneMore(Join(front), front[|front| - 1], lines[|lines| - 1]);
    }
  }

  /** Tidied text is a normal form. */
  lemma TidiedIsNormal(text: string)
    ensures NormalForm(Tidied(text))
  {
    var lines := SplitLines(text);
    ScannedLinesHaveNoBreaks(text);
    StrippedLinesAreClean(lines);
    var out := Collapse(RStripAll(lines));
    CollapseSeparates(RStripAll(lines));
    if out != [] {
      JoinIsLocal(out);
    }
    StripTrims(Join(out));
  }

  // Text in normal form survives: it is its own lines, joined.

  /** The ended lines, each with its newline. */
  function Ended(lines: seq<string>): string {
    if lines == [] then "" else Ended(lines[..|lines| - 1]) + lines[|lines| - 1] + "\n"
  }

  /** What is known of a scan of the beginning of a text in normal form. */
  predicate ScanOk(t: string) {
    ReadAs(ScanOf(t), t)
  }

  predicate ReadAs(s: Scan, t: string) {
    && !s.afterCR && Ended(s.ended) + s.line == t
    && Separated(s.ended) && (s.ended == [] ==> s.line == t) && (forall line :: line in s.ended ==> CleanLine(line))
    && (forall i :: 0 <= i < |s.line| ==> !IsBreak(s.line[i]))
  }

  lemma EndedEndsInNewline(lines: seq<string>)
    requires lines != []
    ensures Ended(lines) != "" && Ended(lines)[|Ended(lines)| - 1] == '\n'
    ensures lines[|lines| - 1] == "" && |lines| > 1 ==> |Ended(lines)| > 1 && Ended(lines)[|Ended(lines)| - 2] == '\n'
  {
  }

  lemma LineBeforeNewlineIsClean(t: string, before: string, line: string)
    requires Local(t) && t == before + line + "\n" && (forall i :: 0 <= i < |line| ==> !IsBreak(line[i]))
    ensures CleanLine(line)
  {
    if line != "" {
      var n := |before| + |line|;
      assert t[n] == '\n' && t[n - 1] == line[|line| - 1];
    }
  }

  lemma BlankLineFollowsAnother(t: string, ended: seq<string>)
    requires Local(t) && t == Ended(ended) + "\n" && Separated(ended) && ended != []
    ensures ended[|ended| - 1] != ""
  {
    EndedEndsInNewline(ended);
    var n := |t| - 1;
    assert t[n] == '\n' && t[n - 1] == Ended(ended)[n - 1];
    assert n >= 2 ==> t[n - 2] == Ended(ended)[n - 2];
  }

  /** A line that ends blank ends after one that is not. */
  lemma BlankLineIsNotFirst(s: Scan, p: string)
    requires ReadAs(s, p) && Local(p + "\n") && !IsSpace((p + "\n")[0]) && s.line == ""
    ensures s.ended != [] && s.ended[|s.ended| - 1] != ""
  {
    assert p != "";
    assert p == Ended(s.ended);
    BlankLineFollowsAnother(p + "\n", s.ended);
  }

  /** A newline ends a line that is clean, and blank only after one that is not. */
  lemma NewlineEndsALine(s: Scan, p: string)
    requires ReadAs(s, p) && Local(p + "\n") && !IsSpace((p + "\n")[0])
    ensures ReadAs(ReadChar(s, '\n'), p + "\n")
  {
    LineBeforeNewlineIsClean(p + "\n", Ended(s.ended), s.line);
    if s.line == "" {
      BlankLineIsNotFirst(s, p);
    }
    EndedGrows(s.ended, s.line);
    SeparatedGrows(s.ended, s.line);
    CleanGrows(s.ended, s.line);
  }

  lemma EndedGrows(ended: seq<string>, line: string)
    ensures Ended(ended + [line]) == Ended(ended) + line + "\n"
  {
    assert (ended + [line])[..|ended + [line]| - 1] == ended;
  }

  lemma SeparatedGrows(ended: seq<string>, line: string)
    requires Separated(ended) && (line == "" ==> ended != [] && ended[|ended| - 1] != "")
    ensures Separated(ended + [line])
  {
  }

  lemma CleanGrows(ended: seq<string>, line: string)
    requires (forall l :: l in ended ==> CleanLine(l)) && CleanLine(line)
    ensures forall l :: l in ended + [line] ==> CleanLine(l)
  {
  }

  /** Any other character of a normal form goes on with the line. */
  lemma OtherCharGoesOn(s: Scan, p: string, c: char)
    requires ReadAs(s, p) && !IsBreak(c)
    ensures ReadAs(ReadChar(s, c), p + [c])
  {
    assert Ended(s.ended) + (s.line + [c]) == Ended(s.ended) + s.line + [c];
  }

  lemma {:induction false} ScanOfNormal(t: string)
    requires Local(t) && (t != "" ==> !IsSpace(t[0]))
    ensures ScanOk(t)
    decreases |t|
  {
    if t != "" {
      var p, c := t[..|t| - 1], t[|t| - 1];
      PrefixIsLocal(t, |p|);
      ScanOfNormal(p);
      assert t == p + [c];
      if c == '\n' {
        NewlineEndsALine(ScanOf(p), p);
      } else {
        OtherCharGoesOn(ScanOf(p), p, c);
      }
    }
  }

  lemma {:induction false} RStripKeepsTrimmed(s: string)
    requires s != "" ==> !IsSpace(s[|s| - 1])
    ensures RStrip(s) == s
  {
  }

  lemma {:induction false} RStripAllKeepsClean(lines: seq<string>)
    requires forall line :: line in lines ==> CleanLine(line)
    ensures RStripAll(lines) == lines
    decreases |lines|
  {
    if lines != [] {
      RStripAllKeepsClean(lines[..|lines| - 1]);
      assert CleanLine(lines[|lines| - 1]);
      RStripKeepsTrimmed(lines[|lines| - 1]);
    }
  }

  lemma {:induction false} CollapseKeepsSeparated(lines: seq<string>)
    requires Separated(lines)
    ensures Collapse(lines) == lines
    decreases |lines|
  {
    if lines != [] {
      CollapseKeepsSeparated(lines[..|lines| - 1]);
    }
  }

  lemma {:induction false} JoinIsEndedAndLast(lines: seq<string>, last: string)
    ensures Join(lines + [last]) == Ended(lines) + last
    decreases |lines|
  {
    var all := lines + [last];
    assert all[..|all| - 1] == lines;
    if lines != [] {
      var front, prev := lines[..|lines| - 1], lines[|lines| - 1];
      JoinIsEndedAndLast(front, prev);
      assert lines == front + [prev];
      assert Join(all) == Join(lines) + "\n" + last;
    }
  }

  lemma LastLineIsThere(t: string)
    requires ScanOk(t) && t != "" && !IsSpace(t[|t| - 1])
    ensures ScanOf(t).line != "" && CleanLine(ScanOf(t).line)
  {
  }

  /** Normal forms are exactly the texts that tidying leaves alone. */
  lemma NormalIffTidied(t: string)
    ensures NormalForm(t) <==> Tidied(t) == t
  {
    if NormalForm(t) {
      ScanOfNormal(t);
      var s := ScanOf(t);
      if t != "" {
        LastLineIsThere(t);
        var lines := s.ended + [s.line];
        RStripAllKeepsClean(lines);
        CollapseKeepsSeparated(lines);
        JoinIsEndedAndLast(s.ended, s.line);
      }
      RStripKeepsTrimmed(t);
    } else {
      TidiedIsNormal(t);
    }
  }

  lemma TidyIsIdempotent(text: string)
    ensures Tidied(Tidied(text)) == Tidied(text)
  {
    TidiedIsNormal(text);
    NormalIffTidied(Tidied(text));
  }

  // ---- nothing visible is lost -----------------------------------------------------------

  function Visible(s: string): string {
    if s == "" then ""
    else if IsSpace(s[|s| - 1]) then Visible(s[..|s| - 1])
    else Visible(s[..|s| - 1]) + [s[|s| - 1]]
  }

  function VisibleIn(lines: seq<string>): string {
    if lines == [] then "" else VisibleIn(lines[..|lines| - 1]) + Visible(lines[|lines| - 1])
  }

  lemma {:induction false} VisibleConcat(a: string, b: string)
    ensures Visible(a + b) == Visible(a) + Visible(b)
    decreases |b|
  {
    if b == "" {
      assert a + b == a;
    } else {
      VisibleConcat(a, b[..|b| - 1]);
      assert (a + b)[..|a + b| - 1] == a + b[..|b| - 1];
    }
  }

  lemma {:induction false} RStripKeepsVisible(s: string)
    ensures Visible(RStrip(s)) == Visible(s)
  {
    if s != "" && IsSpace(s[|s| - 1]) {
      RStripKeepsVisible(s[..|s| - 1]);
    }
  }

  lemma {:induction false} LStripKeepsVisible(s: string)
    ensures Visible(LStrip(s)) == Visible(s)
  {
    if s != "" && IsSpace(s[0]) {
      LStripKeepsVisible(s[1..]);
      assert s == [s[0]] + s[1..];
      VisibleConcat([s[0]], s[1..]);
      assert [s[0]][..0] == "";
    }
  }

  function VisibleSoFar(s: Scan): string {
    VisibleIn(s.ended) + Visible(s.line)
  }

  lemma LineEndKeepsVisible(ended: seq<string>, line: string)
    ensures VisibleIn(ended + [line]) + Visible("") == VisibleIn(ended) + Visible(line)
  {
    assert (ended + [line])[..|ended|] == ended;
  }

  lemma BreaksAreBlank(c: char)
    requires IsBreak(c)
    ensures IsSpace(c)
  {
  }

  lemma VisibleOneMore(line: string, c: char)
    ensures Visible(line + [c]) == Visible(line) + (if IsSpace(c) then "" else [c])
  {
    assert (line + [c])[..|line|] == line;
  }

  lemma BreakIsRead(s: Scan, c: char)
    requires IsBreak(c)
    ensures var r := ReadChar(s, c);
            r.line == "" && (r.ended == s.ended + [s.line] || (s.afterCR && r.ended == s.ended))
  {
  }

  lemma BreakKeepsVisible(s: Scan, c: char)
    requires IsBreak(c) && (s.afterCR ==> s.line == "")
    ensures VisibleSoFar(ReadChar(s, c)) == VisibleSoFar(s)
  {
    BreakIsRead(s, c);
    LineEndKeepsVisible(s.ended, s.line);
  }

  lemma OtherKeepsVisible(s: Scan, c: char)
    requires !IsBreak(c)
    ensures ReadChar(s, c) == Scan(s.ended, s.line + [c], false)
    ensures VisibleSoFar(ReadChar(s, c)) == VisibleSoFar(s) + (if IsSpace(c) then "" else [c])
  {
    VisibleOneMore(s.line, c);
  }

  lemma ReadKeepsVisible(s: Scan, c: char)
    requires s.afterCR ==> s.line == ""
    ensures VisibleSoFar(ReadChar(s, c)) == VisibleSoFar(s) + (if IsSpace(c) then "" else [c])
    ensures ReadChar(s, c).afterCR ==> ReadChar(s, c).line == ""
  {
    if IsBreak(c) {
      BreaksAreBlank(c);
      BreakIsRead(s, c);
      BreakKeepsVisible(s, c);
    } else {
      OtherKeepsVisible(s, c);
    }
  }

  lemma {:induction false} ScanKeepsVisible(text: string)
    ensures VisibleSoFar(ScanOf(text)) == Visible(text)
    ensures ScanOf(text).afterCR ==> ScanOf(text).line == ""
    decreases |text|
  {
    if text != "" {
      ScanKeepsVisible(text[..|text| - 1]);
      ReadKeepsVisible(ScanOf(text[..|text| - 1]), text[|text| - 1]);
    }
  }

  lemma {:induction false} LinesKeepVisible(lines: seq<string>)
    ensures VisibleIn(RStripAll(lines)) == VisibleIn(lines)
    ensures VisibleIn(Collapse(lines)) == VisibleIn(lines)
    decreases |lines|
  {
    if lines != [] {
      var front, last := lines[..|lines| - 1], lines[|lines| - 1];
      LinesKeepVisible(front);
      RStripKeepsVisible(last);
      assert (RStripAll(front) + [RStrip(last)])[..|RStripAll(front)|] == RStripAll(front);
      assert (Collapse(front) + [last])[..|Collapse(front)|] == Collapse(front);
    }
  }

  lemma {:induction false} JoinKeepsVisible(lines: seq<string>)
    ensures Visible(Join(lines)) == VisibleIn(lines)
    decreases |lines|
  {
    if |lines| == 1 {
      assert lines[..0] == [];
    } else if |lines| > 1 {
      var front, last := lines[..|lines| - 1], lines[|lines| - 1];
      JoinKeepsVisible(front);
      VisibleConcat(Join(front) + "\n", last);
      VisibleConcat(Join(front), "\n");
      assert "\n"[..0] == "";
    }
  }

  /** Tidying takes away blanks and line breaks and nothing else. */
  lemma TidyKeepsVisible(text: string)
    ensures Visible(Tidied(text)) == Visible(text)
  {
    var lines := SplitLines(text);
    var s := ScanOf(text);
    ScanKeepsVisible(text);
    assert (s.ended + [s.line])[..|s.ended|] == s.ended;
    LinesKeepVisible(lines);
    LinesKeepVisible(RStripAll(lines));
    var joined := Join(Collapse(RStripAll(lines)));
    JoinKeepsVisible(Collapse(RStripAll(lines)));
    RStripKeepsVisible(joined);
    LStripKeepsVisible(RStrip(joined));
  }

  // ---- cutting ---------------------------------------------------------------------------

  /** Cut text is within a positive limit, and was cut only if it was too long. */
  lemma FitIsWithinLimit(text: string, limit: int)
    ensures limit > 0 ==> |Fit(text, limit)| <= limit
    ensures Fit(text, limit) == text <==> limit <= 0 || |text| <= limit
  {
    if limit > 0 && |text| > limit {
      RStripIs(text[..CutAt(text, limit - 1)]);
    }
  }

  lemma FitIsIdempotent(text: string, limit: int)
    ensures Fit(Fit(text, limit), limit) == Fit(text, limit)
  {
    FitIsWithinLimit(text, limit);
  }

  /** What is kept is a beginning of the text, and only blanks beyond a fifth of the budget can be lost. */
  lemma FitKeepsABeginning(text: string, limit: int)
    requires 0 < limit < |text|
    ensures var r := Fit(text, limit);
            && r[|r| - 1] == ELLIPSIS && r[..|r| - 1] <= text
            && (forall i :: |r| - 1 <= i < CutAt(text, limit - 1) ==> IsSpace(text[i]))
  {
    var kept := text[..CutAt(text, limit - 1)];
    RStripIs(kept);
    forall i | |RStrip(kept)| <= i < |kept| ensures IsSpace(text[i]) {
      assert kept[i] == text[i];
    }
  }

  /**
   The cut is made at a space if there is one in the last fifth of the budget, and then at the
   last; only if there is none may a word be severed.
   */
  lemma CutsAtTheLastSpaceOfTheLastFifth(text: string, budget: nat)
    requires budget <= |text|
    ensures var n := CutAt(text, budget);
            && (n < budget <==> exists i :: 0 <= i < budget && 5 * i > 4 * budget && text[i] == ' ')
            && (n < budget ==> text[n] == ' ' && forall i :: n < i < budget ==> text[i] != ' ')
  {
    var cut, space := text[..budget], LastSpace(text[..budget]);
    forall i | 0 <= i < budget ensures cut[i] == text[i] {
    }
    if exists i :: 0 <= i < budget && 5 * i > 4 * budget && text[i] == ' ' {
      var i :| 0 <= i < budget && 5 * i > 4 * budget && text[i] == ' ';
      assert cut[i] == ' ';
      assert i <= space;
    }
    forall i | CutAt(text, budget) < i < budget ensures text[i] != ' ' {
      assert cut[i] == text[i];
    }
  }

  lemma PrefixIsLocal(t: string, n: nat)
    requires Local(t) && n <= |t|
    ensures Local(t[..n])
  {
  }

  lemma MarkKeepsNormalForm(t: string)
    requires NormalForm(t)
    ensures NormalForm(t + [ELLIPSIS])
  {
  }

  /** Cutting a normal form gives one: no trailing blank, no blank line at the end. */
  lemma FitKeepsNormalForm(t: string, limit: int)
    requires NormalForm(t)
    ensures NormalForm(Fit(t, limit))
  {
    if 0 < limit < |t| {
      var kept := t[..CutAt(t, limit - 1)];
      RStripIs(kept);
      var r := RStrip(kept);
      assert r == t[..|r|];
      PrefixIsLocal(t, |r|);
      MarkKeepsNormalForm(r);
    }
  }

  /** So cutting after tidying never leaves anything to tidy. */
  lemma FitAfterTidyIsTidied(text: string, limit: int)
    ensures Tidied(Fit(Tidied(text), limit)) == Fit(Tidied(text), limit)
  {
    TidiedIsNormal(text);
    FitKeepsNormalForm(Tidied(text), limit);
    NormalIffTidied(Fit(Tidied(text), limit));
  }
}
