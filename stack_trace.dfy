/**
 * `getErrorLocation`: finds the first frame line of a JavaScript stack trace
 * after its header line and reads the function name, file and line number
 * out of it. The two regular expressions of the source are written out as
 * explicit matchers with the same backtracking outcome.
 */
module StackTrace {
  import opened Common
  import opened Text

  /** `{ function, file, line }`; `parseInt` on a digit string is its exact value here. */
  datatype ErrorLocation = ErrorLocation(func: string, file: string, line: nat)

  const Anonymous: string := "anonymous"

  /** The location reported when no frame line is found. */
  const NoLocation: ErrorLocation := ErrorLocation(Anonymous, "", 0)

  /** The captures of `(.*?):(\d+):(\d+)` when it must reach the end of the input. */
  datatype Position = Position(file: string, line: string, col: string)

  /** The captures of `^at (.+?) \((.*?):(\d+):(\d+)\)$`. */
  datatype Frame = Frame(func: string, pos: Position)

  function Render(p: Position): string {
    p.file + ":" + p.line + ":" + p.col
  }

  /** What the three captures of a position must satisfy: `.` excludes line terminators, `\d+` is non-empty. */
  predicate WellFormedPosition(p: Position) {
    NoLineTerminator(p.file) && IsDigits(p.line) && IsDigits(p.col)
  }

  /** `line.trim().startsWith('at')` */
  predicate IsFrameLine(line: string) {
    StartsWith(Trim(line), "at")
  }

  /** `lines.find(isFrameLine)` over the lines from index `from` on, as the index of the line found. */
  function FindFrame(lines: seq<string>, from: nat): (r: Option<nat>)
    requires from <= |lines|
    ensures r.Some? ==> from <= r.value < |lines| && IsFrameLine(lines[r.value])
    ensures r.Some? ==> forall j :: from <= j < r.value ==> !IsFrameLine(lines[j])
    ensures r.None? ==> forall j :: from <= j < |lines| ==> !IsFrameLine(lines[j])
    decreases |lines| - from
  {
    if from == |lines| then None
    else if IsFrameLine(lines[from]) then Some(from)
    else FindFrame(lines, from + 1)
  }

  /**
   * Splits `s` as `a:d` where `d` is the whole trailing run of digits, which
   * must be non-empty and preceded by a colon.
   */
  function LastField(s: string): (r: Option<(string, string)>)
    ensures r.Some? ==> s == r.value.0 + ":" + r.value.1 && IsDigits(r.value.1)
  {
    var c := TrailingDigits(s);
    if c == 0 || c == |s| || s[|s| - c - 1] != ':' then None
    else
      var a := s[..|s| - c - 1];
      var d := s[|s| - c..];
      assert s == a + ":" + d;
      Some((a, d))
  }

  /**
   * `(.*?):(\d+):(\d+)` matched against the whole of `s`. The two digit groups
   * cannot hold a colon, so they are the last two colon-separated fields, and
   * the match is unique.
   */
  function MatchPosition(s: string): (r: Option<Position>)
    ensures r.Some? ==> s == Render(r.value) && WellFormedPosition(r.value)
  {
    match LastField(s)
    case None => None
    case Some((s1, col)) =>
      match LastField(s1)
      case None => None
      case Some((file, line)) =>
        if NoLineTerminator(file) then Some(Position(file, line, col)) else None
  }

  /** A digit string after a non-digit is exactly the trailing digit run. */
  lemma TrailingDigitsAfter(a: string, d: string)
    requires IsDigits(d) && a != [] && !IsDigit(a[|a| - 1])
    ensures TrailingDigits(a + d) == |d|
  {
    var s := a + d;
    assert forall i :: |a| <= i < |s| ==> s[i] == d[i - |a|];
    assert s[|a| - 1] == a[|a| - 1];
  }

  /** `a:d` with `d` digits splits back into `a` and `d`, whatever `a` holds. */
  lemma LastFieldJoin(a: string, d: string)
    requires IsDigits(d)
    ensures LastField(a + ":" + d) == Some((a, d))
  {
    var s := a + ":" + d;
    TrailingDigitsAfter(a + ":", d);
    assert s == (a + ":") + d;
    assert s[..|s| - |d| - 1] == a && s[|s| - |d|..] == d;
  }

  /** Every well-formed position is matched, with exactly its own captures. */
  lemma MatchPositionRender(p: Position)
    requires WellFormedPosition(p)
    ensures MatchPosition(Render(p)) == Some(p)
  {
    LastFieldJoin(p.file + ":" + p.line, p.col);
    LastFieldJoin(p.file, p.line);
  }

  /** `f` holds the captures of the function-frame pattern matched against the whole of `t`. */
  predicate IsFuncFrame(t: string, f: Frame) {
    && t == "at " + f.func + " (" + Render(f.pos) + ")"
    && f.func != "" && NoLineTerminator(f.func) && WellFormedPosition(f.pos)
  }

  /**
   * `trimmed.match(/^at (.+?) \((.*?):(\d+):(\d+)\)$/)`: a match exactly when the
   * line has the shape, and then the one with the shortest function name.
   */
  function MatchFuncFrame(t: string): (r: Option<Frame>)
    ensures r.Some? ==> IsFuncFrame(t, r.value)
    ensures r.Some? ==> forall f :: IsFuncFrame(t, f) ==> |r.value.func| <= |f.func|
    ensures r.None? ==> forall f :: !IsFuncFrame(t, f)
  {
    if StartsWith(t, "at ") then FuncFrameFrom(t, 4)
    else
      NotFuncFrame(t);
      None
  }

  /** What follows a candidate name ending at `e`, if it is ` (P:L:C)` with a well-formed position. */
  function PositionAfter(t: string, e: nat): (r: Option<Position>)
    requires e <= |t|
    ensures r.Some? ==> t[e..] == " (" + Render(r.value) + ")" && WellFormedPosition(r.value)
  {
    var rest := t[e..];
    if |rest| >= 3 && rest[..2] == " (" && rest[|rest| - 1] == ')' then
      var pos := MatchPosition(rest[2..|rest| - 1]);
      if pos.Some? then
        assert rest == rest[..2] + rest[2..|rest| - 1] + [rest[|rest| - 1]];
        pos
      else None
    else None
  }

  /**
   * The lazy `(.+?)`: tries `t[3..e]` as the function name for e = 4, 5, ...
   * and keeps the first for which the rest of the pattern matches the rest of
   * `t`. Once the name would hold a line terminator, which `.` does not match,
   * no longer name can match either.
   */
  function FuncFrameFrom(t: string, e: nat): (r: Option<Frame>)
    requires StartsWith(t, "at ") && 4 <= e
    ensures r.Some? ==> IsFuncFrame(t, r.value) && |r.value.func| >= e - 3
    ensures r.Some? ==> forall f :: IsFuncFrame(t, f) && |f.func| >= e - 3 ==> |r.value.func| <= |f.func|
    ensures r.None? ==> forall f :: IsFuncFrame(t, f) ==> |f.func| < e - 3
    decreases |t| + 1 - e
  {
    if e > |t| || !NoLineTerminator(t[3..e]) then
      NoFuncFrameFrom(t, e);
      None
    else
      var pos := PositionAfter(t, e);
      if pos.Some? then
        FuncFrameParts(t, e, pos.value);
        Some(Frame(t[3..e], pos.value))
      else
        NoFuncFrameAt(t, e);
        FuncFrameFrom(t, e + 1)
  }

  /** A function frame line starts with `at ` and holds its name right after. */
  lemma FuncFramePrefix(t: string, f: Frame, e: nat)
    requires IsFuncFrame(t, f) && 4 <= e <= 3 + |f.func|
    ensures e <= |t| && StartsWith(t, "at ") && t[3..e] == f.func[..e - 3]
    ensures e == 3 + |f.func| ==> PositionAfter(t, e) == Some(f.pos)
  {
    FuncFrameText(t, f.func, f.pos);
    if e == 3 + |f.func| {
      MatchPositionRender(f.pos);
      var rest := t[e..];
      assert rest[..2] == " (" && rest[2..|rest| - 1] == Render(f.pos);
    }
  }

  /** A line without the `at ` prefix is no function frame. */
  lemma NotFuncFrame(t: string)
    requires !StartsWith(t, "at ")
    ensures forall f :: !IsFuncFrame(t, f)
  {
    forall f | IsFuncFrame(t, f)
      ensures false
    {
      FuncFrameText(t, f.func, f.pos);
    }
  }

  /** Past the end of the line, or past a line terminator, no name of that length or longer can match. */
  lemma NoFuncFrameFrom(t: string, e: nat)
    requires StartsWith(t, "at ") && 4 <= e
    requires e > |t| || !NoLineTerminator(t[3..e])
    ensures forall f :: IsFuncFrame(t, f) ==> |f.func| < e - 3
  {
    forall f | IsFuncFrame(t, f) && |f.func| >= e - 3
      ensures false
    {
      FuncFramePrefix(t, f, e);
    }
  }

  /** When ` (P:L:C)` does not follow `t[3..e]`, no function name has exactly that length. */
  lemma NoFuncFrameAt(t: string, e: nat)
    requires StartsWith(t, "at ") && 4 <= e <= |t| && PositionAfter(t, e).None?
    ensures forall f :: IsFuncFrame(t, f) ==> |f.func| != e - 3
  {
    forall f | IsFuncFrame(t, f) && |f.func| == e - 3
      ensures false
    {
      FuncFramePrefix(t, f, e);
    }
  }

  lemma FuncFrameParts(t: string, e: nat, p: Position)
    requires StartsWith(t, "at ") && 4 <= e <= |t|
    requires t[e..] == " (" + Render(p) + ")"
    ensures t == "at " + t[3..e] + " (" + Render(p) + ")"
  {
    assert t == t[..3] + t[3..e] + t[e..];
  }

  /** `trimmed.match(/^at (.*?):(\d+):(\d+)$/)` */
  function MatchFileFrame(t: string): (r: Option<Position>)
    ensures r.Some? ==> t == "at " + Render(r.value) && WellFormedPosition(r.value)
  {
    if StartsWith(t, "at ") then
      var r := MatchPosition(t[3..]);
      assert t == t[..3] + t[3..];
      r
    else None
  }

  /** `trimmed.replace(/^at\s+/, '')`: removes `at` and the whitespace run after it, if there is one. */
  function StripAt(t: string): (r: string)
    ensures r != t <==> StartsWith(t, "at") && |t| > 2 && IsWhiteSpace(t[2])
    ensures r != t ==> EndsWith(t, r) && forall i :: 2 <= i < |t| - |r| ==> IsWhiteSpace(t[i])
    ensures r != t && r != [] ==> !IsWhiteSpace(r[0])
  {
    if StartsWith(t, "at") && |t| > 2 && IsWhiteSpace(t[2]) then
      var k := LeadingSpace(t[2..]);
      assert t[2..][k..] == t[2 + k..];
      t[2 + k..]
    else t
  }

  /** The location read from the selected frame line once trimmed: the two patterns, then the fallback. */
  function ParseFrame(t: string): (r: ErrorLocation)
    ensures r.func != ""
  {
    match MatchFuncFrame(t)
    case Some(f) =>
      ErrorLocation(if f.func != "" then f.func else Anonymous, f.pos.file, DigitsValue(f.pos.line))
    case None =>
      match MatchFileFrame(t)
      case Some(p) => ErrorLocation(Anonymous, p.file, DigitsValue(p.line))
      case None => ErrorLocation(Anonymous, StripAt(t), 0)
  }

  /** The location read from the lines after the header: the first frame line, if any. */
  function LocationIn(body: seq<string>): (r: ErrorLocation)
    ensures r.func != ""
  {
    match FindFrame(body, 0)
    case None => NoLocation
    case Some(i) => ParseFrame(Trim(body[i]))
  }

  /** The location found in a stack-trace text: the header line is skipped. */
  function LocationOf(stack: string): ErrorLocation {
    LocationIn(Split(stack, '\n')[1..])
  }

  /** `getErrorLocation(error)`; a missing stack reads as the empty string. */
  function GetErrorLocation(error: JsError): (r: ErrorLocation)
    ensures r.func != ""
  {
    LocationOf(error.stack.GetOr(""))
  }

  /** `at F (P:L:C)` yields F, P and L, when F has no `(` (so no shorter name lets the rest match). */
  lemma {:induction false} FuncFrameLocation(func: string, p: Position)
    requires func != "" && '(' !in func && NoLineTerminator(func) && WellFormedPosition(p)
    ensures ParseFrame("at " + func + " (" + Render(p) + ")") == ErrorLocation(func, p.file, DigitsValue(p.line))
  {
    var t := "at " + func + " (" + Render(p) + ")";
    assert StartsWith(t, "at ");
    MatchPositionRender(p);
    FuncFrameSkips(t, func, p, 4);
    assert MatchFuncFrame(t) == Some(Frame(func, p));
  }

  /** A candidate name not followed by ` (` is passed over for the next longer one. */
  lemma FuncFrameStep(t: string, e: nat)
    requires StartsWith(t, "at ") && 4 <= e < |t| - 1 && NoLineTerminator(t[3..e]) && t[e + 1] != '('
    ensures FuncFrameFrom(t, e) == FuncFrameFrom(t, e + 1)
  {
    assert t[e..][1] == t[e + 1];
    assert PositionAfter(t, e).None?;
  }

  /** A candidate name followed by ` (P:L:C)` ends the search. */
  lemma FuncFrameStop(t: string, e: nat, p: Position)
    requires StartsWith(t, "at ") && 4 <= e <= |t| && NoLineTerminator(t[3..e])
    requires t[e..] == " (" + Render(p) + ")"
    requires MatchPosition(Render(p)) == Some(p)
    ensures FuncFrameFrom(t, e) == Some(Frame(t[3..e], p))
  {
    var rest := t[e..];
    assert rest[..2] == " (" && rest[2..|rest| - 1] == Render(p);
    assert PositionAfter(t, e) == Some(p);
  }

  /** Where the name and the parenthesised position sit in a function frame line. */
  lemma FuncFrameText(t: string, func: string, p: Position)
    requires t == "at " + func + " (" + Render(p) + ")"
    ensures StartsWith(t, "at ") && t[3..3 + |func|] == func
    ensures t[3 + |func|..] == " (" + Render(p) + ")"
  {
    assert t == ("at " + func) + (" (" + Render(p) + ")");
  }

  /** The lazy search moves past every shorter candidate name and stops at `func`. */
  lemma {:induction false} FuncFrameSkips(t: string, func: string, p: Position, e: nat)
    requires func != "" && '(' !in func && NoLineTerminator(func)
    requires t == "at " + func + " (" + Render(p) + ")"
    requires 4 <= e <= 3 + |func|
    requires MatchPosition(Render(p)) == Some(p)
    ensures FuncFrameFrom(t, e) == Some(Frame(func, p))
    decreases 3 + |func| - e
  {
    FuncFrameText(t, func, p);
    var name := t[3..e];
    assert name == func[..e - 3];
    assert NoLineTerminator(name);
    if e == 3 + |func| {
      FuncFrameStop(t, e, p);
    } else {
      assert t[e + 1] != '(' by {
        if e + 1 < 3 + |func| {
          assert t[e + 1] == func[e - 2];
        } else {
          assert t[e + 1] == t[3 + |func|..][0];
        }
      }
      FuncFrameStep(t, e);
      FuncFrameSkips(t, func, p, e + 1);
    }
  }

  /** `at P:L:C` yields `anonymous`, P and L. */
  lemma FileFrameLocation(p: Position)
    requires WellFormedPosition(p)
    ensures ParseFrame("at " + Render(p)) == ErrorLocation(Anonymous, p.file, DigitsValue(p.line))
  {
    var t := "at " + Render(p);
    assert t[|t| - 1] == p.col[|p.col| - 1];
    MatchPositionRender(p);
    assert t[..3] == "at " && t[3..] == Render(p);
  }

  /** A frame line that matches neither pattern: its text after `at` and whitespace becomes the file, at line 0. */
  lemma FallbackLocation(t: string)
    requires forall f :: !IsFuncFrame(t, f)
    requires forall p :: WellFormedPosition(p) ==> t != "at " + Render(p)
    ensures ParseFrame(t) == ErrorLocation(Anonymous, StripAt(t), 0)
  {
  }

  /** A line without a colon, such as `at <anonymous>`, matches neither pattern. */
  lemma NoColonNoPattern(t: string)
    requires ':' !in t
    ensures forall f :: !IsFuncFrame(t, f)
    ensures forall p :: WellFormedPosition(p) ==> t != "at " + Render(p)
  {
  }

  /** `StripAt` removes exactly `at` and a non-empty whitespace run. */
  lemma StripAtExact(space: string, rest: string)
    requires space != [] && forall i :: 0 <= i < |space| ==> IsWhiteSpace(space[i])
    requires rest == [] || !IsWhiteSpace(rest[0])
    ensures StripAt("at" + space + rest) == rest
  {
    var t := "at" + space + rest;
    assert t[2] == space[0];
    var k := LeadingSpace(t[2..]);
    assert t[2..] == space + rest;
    assert t[2 + |space|..] == rest;
  }

  /** The header line plays no part: any two headers give the same location. */
  lemma HeaderIgnored(header1: string, header2: string, body: string)
    requires '\n' !in header1 && '\n' !in header2
    ensures LocationOf(header1 + "\n" + body) == LocationOf(header2 + "\n" + body)
  {
    SplitLine(header1, body, '\n');
    SplitLine(header2, body, '\n');
    assert Split(header1 + "\n" + body, '\n')[1..] == Split(body, '\n');
    assert Split(header2 + "\n" + body, '\n')[1..] == Split(body, '\n');
  }

  /** With no frame line after the header, the location is `{anonymous, "", 0}`. */
  lemma NoFrameLineNoLocation(lines: seq<string>)
    requires |lines| >= 1 && forall i :: 0 <= i < |lines| ==> '\n' !in lines[i]
    requires forall j :: 1 <= j < |lines| ==> !IsFrameLine(lines[j])
    ensures LocationOf(Join(lines, '\n')) == NoLocation
  {
    LocationOfLines(lines);
    var body := lines[1..];
    forall j | 0 <= j < |body|
      ensures !IsFrameLine(body[j])
    {
      assert body[j] == lines[j + 1];
    }
    assert FindFrame(body, 0) == None;
  }

  /** A missing stack, an empty one, or one with only a header line has no location. */
  lemma NoStackNoLocation(name: string, message: string, header: string)
    requires '\n' !in header
    ensures GetErrorLocation(JsError(name, message, None)) == NoLocation
    ensures GetErrorLocation(JsError(name, message, Some(""))) == NoLocation
    ensures GetErrorLocation(JsError(name, message, Some(header))) == NoLocation
  {
    JoinSplit([header], '\n');
    assert Split("", '\n') == [""];
  }

  /** A stack trace given as its lines: the lines after the first are searched. */
  lemma LocationOfLines(lines: seq<string>)
    requires |lines| >= 1 && forall i :: 0 <= i < |lines| ==> '\n' !in lines[i]
    ensures LocationOf(Join(lines, '\n')) == LocationIn(lines[1..])
  {
    JoinSplit(lines, '\n');
  }

  /** Among the lines after the header, the first frame line is the one parsed. */
  lemma FirstFrameIn(lines: seq<string>, k: nat)
    requires 1 <= k < |lines| && IsFrameLine(lines[k])
    requires forall j :: 1 <= j < k ==> !IsFrameLine(lines[j])
    ensures LocationIn(lines[1..]) == ParseFrame(Trim(lines[k]))
  {
    var body := lines[1..];
    assert body[k - 1] == lines[k];
    forall j | 0 <= j < k - 1
      ensures !IsFrameLine(body[j])
    {
      assert body[j] == lines[j + 1];
    }
    assert FindFrame(body, 0) == Some(k - 1);
  }

  /** The first frame line after the header is the one parsed, whatever follows it. */
  lemma SelectsFirstFrame(lines: seq<string>, k: nat)
    requires forall i :: 0 <= i < |lines| ==> '\n' !in lines[i]
    requires 1 <= k < |lines| && IsFrameLine(lines[k])
    requires forall j :: 1 <= j < k ==> !IsFrameLine(lines[j])
    ensures LocationOf(Join(lines, '\n')) == ParseFrame(Trim(lines[k]))
  {
    LocationOfLines(lines);
    FirstFrameIn(lines, k);
  }

  /** A line indented by four spaces, as V8 prints frames, trims back to its text. */
  lemma Indented(t: string)
    requires '\n' !in t && t != [] && !IsWhiteSpace(t[0]) && !IsWhiteSpace(t[|t| - 1])
    ensures '\n' !in "    " + t && Trim("    " + t) == t
  {
    var line := "    " + t;
    assert forall i :: 0 <= i < |line| ==> line[i] == if i < 4 then ' ' else t[i - 4];
    TrimExact("    ", t, "");
    assert "    " + t + "" == line;
  }

  /** A header and one indented frame line `at ...`: the location is read from that frame. */
  lemma IndentedFrame(header: string, t: string)
    requires '\n' !in header && '\n' !in t && StartsWith(t, "at")
    requires !IsWhiteSpace(t[|t| - 1])
    ensures LocationOf(header + "\n    " + t) == ParseFrame(t)
  {
    var line := "    " + t;
    assert t[0] == 'a';
    Indented(t);
    var lines := [header, line];
    assert Join(lines, '\n') == header + "\n    " + t;
    SelectsFirstFrame(lines, 1);
  }

  /** Concatenation keeps a string free of line terminators. */
  lemma NoLineTerminatorAppend(a: string, b: string)
    requires NoLineTerminator(a) && NoLineTerminator(b)
    ensures NoLineTerminator(a + b)
  {
    assert forall i :: |a| <= i < |a + b| ==> (a + b)[i] == b[i - |a|];
  }

  /** A rendered well-formed position spans one line. */
  lemma RenderOneLine(p: Position)
    requires WellFormedPosition(p)
    ensures NoLineTerminator(Render(p))
  {
    NoLineTerminatorAppend(p.file, ":");
    NoLineTerminatorAppend(p.file + ":", p.line);
    NoLineTerminatorAppend(p.file + ":" + p.line, ":");
    NoLineTerminatorAppend(p.file + ":" + p.line + ":", p.col);
  }

  /** `at F (P:L:C)` printed under any header reads as function F, file P, line L. */
  lemma IndentedFuncFrame(header: string, func: string, p: Position)
    requires '\n' !in header && func != [] && '(' !in func && NoLineTerminator(func) && WellFormedPosition(p)
    ensures LocationOf(header + "\n    " + ("at " + func + " (" + Render(p) + ")"))
         == ErrorLocation(func, p.file, DigitsValue(p.line))
  {
    var t := "at " + func + " (" + Render(p) + ")";
    RenderOneLine(p);
    NoLineTerminatorAppend("at ", func);
    NoLineTerminatorAppend("at " + func, " (");
    NoLineTerminatorAppend("at " + func + " (", Render(p));
    NoLineTerminatorAppend("at " + func + " (" + Render(p), ")");
    assert t[|t| - 1] == ')' && t[..2] == "at";
    IndentedFrame(header, t);
    FuncFrameLocation(func, p);
  }

  /** `at P:L:C` printed under any header reads as an anonymous function in file P, line L. */
  lemma IndentedFileFrame(header: string, p: Position)
    requires '\n' !in header && WellFormedPosition(p)
    ensures LocationOf(header + "\n    " + ("at " + Render(p))) == ErrorLocation(Anonymous, p.file, DigitsValue(p.line))
  {
    var t := "at " + Render(p);
    RenderOneLine(p);
    NoLineTerminatorAppend("at ", Render(p));
    assert t[|t| - 1] == Render(p)[|Render(p)| - 1] == p.col[|p.col| - 1];
    assert t[..2] == "at";
    IndentedFrame(header, t);
    FileFrameLocation(p);
  }
}
