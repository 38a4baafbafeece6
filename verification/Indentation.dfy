/** Multi-line strings lose the indentation that their closing line shows. */
module Indentation {
  import opened Tokens

  const QUOTES := "\"\"\""

  // ----- as the lexer does it -----

  /** The part after the last newline. */
  function LastLine(s: string): (l: string)
    ensures |l| <= |s| && s[|s| - |l|..] == l && '\n' !in l
    ensures |l| < |s| ==> s[|s| - |l| - 1] == '\n'
  {
    if s == "" || s[|s| - 1] == '\n' then "" else LastLine(s[..|s| - 1]) + [s[|s| - 1]]
  }

  /** What is copied: everything before the closing line's newline, and that newline when the last line is empty. */
  function Copied(body: string): string {
    var n := |LastLine(body)|;
    if n == |body| then ""
    else
      var t := body[..|body| - n - 1];
      if t == "" || t[|t| - 1] == '\n' then t + "\n" else t
  }

  /** Removes `w` from the start of each line; `pos` counts the characters of the line so far. */
  function Strip(w: string, t: string, pos: nat): Option<string> {
    if t == "" then Some("")
    else if t[0] == '\n' then
      if 0 < pos < |w| then None else Prepend('\n', Strip(w, t[1..], 0))
    else if pos < |w| then
      if t[0] != w[pos] then None else Strip(w, t[1..], pos + 1)
    else Prepend(t[0], Strip(w, t[1..], pos + 1))
  }

  function Prepend(c: char, s: Option<string>): Option<string> {
    if s.None? then None else Some([c] + s.value)
  }

  /** `None` is a lexical error. */
  function Dedent(s: string): Option<string>
    requires |s| >= 3
  {
    var body := s[..|s| - 3];
    Strip(LastLine(body), Copied(body), 0)
  }

  predicate Reverses(a: string, b: string) {
    |a| == |b| && forall k :: 0 <= k < |a| ==> a[k] == b[|a| - 1 - k]
  }

  lemma LastLineStep(body: string, i: nat)
    requires 0 < i <= |body| && body[i - 1] != '\n'
    ensures LastLine(body[..i]) == LastLine(body[..i - 1]) + [body[i - 1]]
  {
    assert body[..i][..i - 1] == body[..i - 1];
  }

  lemma ReversesNothing()
    ensures Reverses("", "")
  {
  }

  lemma ReversesMore(a: string, c: char, b: string)
    requires Reverses(a, b)
    ensures Reverses(a + [c], [c] + b)
  {
  }

  lemma LineStart(t: string)
    requires t == "" || t[|t| - 1] == '\n'
    ensures LastLine(t) == ""
  {
  }

  lemma Regroup(a: string, b: string, c: string)
    ensures a + b + c == a + (b + c)
  {
  }

  lemma TailStep(s: string, i: nat)
    requires 0 < i <= |s|
    ensures s[i - 1..] == [s[i - 1]] + s[i..]
  {
  }

  lemma MovesLeft(body: string, i: nat)
    requires 0 < i <= |body| && body[i - 1] != '\n' && LastLine(body) == LastLine(body[..i]) + body[i..]
    ensures LastLine(body) == LastLine(body[..i - 1]) + body[i - 1..]
  {
    hide LastLine;
    var before, c, rest := LastLine(body[..i - 1]), [body[i - 1]], body[i..];
    LastLineStep(body, i);
    TailStep(body, i);
    Regroup(before, c, rest);
    calc {
      LastLine(body);
      before + c + rest;
      before + (c + rest);
    }
  }

  /** The closing line, read backwards. */
  method ReadIndent(s: string) returns (indent: string)
    requires |s| >= 3
    ensures Reverses(indent, LastLine(s[..|s| - 3]))
  {
    hide LastLine, Reverses;
    ghost var body := s[..|s| - 3];
    indent := "";
    var i := |s| - 3;
    assert body[..|body|] == body && LastLine(body) + "" == LastLine(body);
    ReversesNothing();
    while i > 0 && s[i - 1] != '\n'
      invariant 0 <= i <= |body| && |indent| == |body| - i
      invariant LastLine(body) == LastLine(body[..i]) + body[i..]
      invariant Reverses(indent, body[i..])
    {
      MovesLeft(body, i);
      TailStep(body, i);
      ReversesMore(indent, body[i - 1], body[i..]);
      i := i - 1;
      indent := indent + [s[i]];
    }
    LineStart(body[..i]);
    assert "" + body[i..] == body[i..];
  }

  lemma HeadStep(s: string, k: nat)
    requires k < |s|
    ensures s[..k + 1] == s[..k] + [s[k]]
  {
  }

  /** Where the copied text ends, seen from the last newline `k`. */
  lemma CopiedAt(body: string, k: nat)
    requires k < |body| && k == |body| - |LastLine(body)| - 1
    ensures body[k] == '\n'
    ensures Copied(body) == if k == 0 || body[k - 1] == '\n' then body[..k + 1] else body[..k]
  {
    hide LastLine;
    HeadStep(body, k);
  }

  lemma NothingCopied(body: string)
    requires |LastLine(body)| >= |body|
    ensures Copied(body) == ""
  {
  }

  /** How many characters are copied or stripped. */
  method CopyLength(s: string, n: nat) returns (forIter: nat)
    requires |s| >= 3 && n == |LastLine(s[..|s| - 3])|
    ensures forIter <= |s| && s[..forIter] == Copied(s[..|s| - 3])
  {
    hide LastLine, Copied;
    ghost var body := s[..|s| - 3];
    forIter := 0;
    if |s| < n + 4 {
      NothingCopied(body);
    } else {
      forIter := |s| - n - 4;
      CopiedAt(body, forIter);
      assert body[..forIter] == s[..forIter] && body[..forIter + 1] == s[..forIter + 1];
      if (forIter == 0 && s[0] == '\n') || (forIter > 0 && s[forIter - 1] == '\n') {
        forIter := forIter + 1;
      }
    }
  }

  /** The text read between the opening line and the closing quotes, those included, in place of itself. */
  method Perform(s: string) returns (r: Option<string>)
    requires |s| >= 3
    ensures r == Dedent(s)
  {
    hide LastLine, Copied, Strip, Append;
    var indent := ReadIndent(s);
    var n := |indent|;
    var forIter := CopyLength(s, n);
    ghost var w, t := LastLine(s[..|s| - 3]), Copied(s[..|s| - 3]);
    var result := "";
    var pos := 0;
    var k := 0;
    assert t[0..] == t;
    NothingBefore(Strip(w, t, 0));
    while k < forIter
      invariant 0 <= k <= forIter && 0 <= pos
      invariant Strip(w, t, 0) == Append(result, Strip(w, t[k..], pos))
    {
      var c := s[k];
      assert t[k] == c;
      StripStep(w, t, k, pos, result);
      if c == '\n' {
        if pos < n && pos != 0 {
          return None;
        }
        pos := 0;
        result := result + [c];
      } else {
        if pos < n {
          if c != indent[n - pos - 1] {
            return None;
          }
        } else {
          result := result + [c];
        }
        pos := pos + 1;
      }
      k := k + 1;
    }
    assert t[forIter..] == "";
    StripEnds(w, pos, result);
    r := Some(result);
  }

  /** One character of the loop. */
  lemma StripStep(w: string, t: string, k: nat, pos: nat, result: string)
    requires k < |t|
    ensures var c := t[k];
            Append(result, Strip(w, t[k..], pos)) ==
              if c == '\n' then (if 0 < pos < |w| then None else Append(result + [c], Strip(w, t[k + 1..], 0)))
              else if pos < |w| then (if c != w[pos] then None else Append(result, Strip(w, t[k + 1..], pos + 1)))
              else Append(result + [c], Strip(w, t[k + 1..], pos + 1))
  {
    assert t[k..][0] == t[k] && t[k..][1..] == t[k + 1..];
    AppendPrepend(result, t[k], Strip(w, t[k + 1..], if t[k] == '\n' then 0 else pos + 1));
  }

  lemma StripEnds(w: string, pos: nat, result: string)
    ensures Append(result, Strip(w, "", pos)) == Some(result)
  {
    assert result + "" == result;
  }

  lemma NothingBefore(r: Option<string>)
    ensures r == Append("", r)
  {
    if r.Some? {
      assert "" + r.value == r.value;
    }
  }

  function Append(a: string, b: Option<string>): Option<string> {
    if b.None? then None else Some(a + b.value)
  }

  lemma AppendPrepend(a: string, c: char, b: Option<string>)
    ensures Append(a, Prepend(c, b)) == Append(a + [c], b)
  {
    if b.Some? {
      assert a + ([c] + b.value) == a + [c] + b.value;
    }
  }

  // ----- in terms of lines -----

  type Lines = seq<string>

  predicate NoNewline(lines: Lines) {
    forall k :: 0 <= k < |lines| ==> '\n' !in lines[k]
  }

  function Join(lines: Lines): string {
    if lines == [] then "" else if |lines| == 1 then lines[0] else lines[0] + "\n" + Join(lines[1..])
  }

  /** A string literal's text as read: its lines, then the closing line `w` and the quotes. */
  function Literal(lines: Lines, w: string): string {
    Join(lines) + "\n" + w + QUOTES
  }

  /** One line without its indentation; the last line may also be cut short inside the indentation. */
  function StripLine(w: string, line: string, last: bool): Option<string> {
    if line == "" then Some("")
    else if w <= line then Some(line[|w|..])
    else if last && line <= w then Some("")
    else None
  }

  function StripLines(w: string, lines: Lines): Option<Lines> {
    if lines == [] then Some([])
    else
      var first := StripLine(w, lines[0], |lines| == 1);
      var rest := StripLines(w, lines[1..]);
      if first.None? || rest.None? then None else Some([first.value] + rest.value)
  }

  function Joined(lines: Option<Lines>): Option<string> {
    if lines.None? then None else Some(Join(lines.value))
  }

  /** One line and what follows it, from inside the indentation or after it. */
  lemma {:induction false} StripOneLine(w: string, line: string, rest: string, pos: nat)
    requires '\n' !in line
    ensures var done := StripFrom(w, line, pos);
            Strip(w, line + "\n" + rest, pos) ==
              if done.None? then None else Append(done.value + "\n", Strip(w, rest, 0))
  {
    var t := line + "\n" + rest;
    if line == "" {
      assert t[1..] == rest;
      if Strip(w, rest, 0).Some? {
        assert "" + "\n" + Strip(w, rest, 0).value == ['\n'] + Strip(w, rest, 0).value;
      }
    } else {
      assert t[1..] == line[1..] + "\n" + rest && t[0] == line[0] && line[0] in line;
      assert forall c :: c in line[1..] ==> c in line;
      StripOneLine(w, line[1..], rest, pos + 1);
      if pos >= |w| && StripFrom(w, line[1..], pos + 1).Some? && Strip(w, rest, 0).Some? {
        var a, b := StripFrom(w, line[1..], pos + 1).value, Strip(w, rest, 0).value;
        assert [line[0]] + (a + "\n" + b) == [line[0]] + a + "\n" + b;
      }
    }
  }

  /** What is left of a line before a newline, `pos` characters of it already gone. */
  function StripFrom(w: string, line: string, pos: nat): Option<string> {
    if line == "" then (if 0 < pos < |w| then None else Some(""))
    else if pos < |w| then (if line[0] != w[pos] then None else StripFrom(w, line[1..], pos + 1))
    else Prepend(line[0], StripFrom(w, line[1..], pos + 1))
  }

  lemma {:induction false} StripFromStart(w: string, line: string, pos: nat)
    requires pos <= |w|
    ensures StripFrom(w, line, pos) ==
      if line == "" then (if 0 < pos < |w| then None else Some(""))
      else if w[pos..] <= line then Some(line[|w| - pos..])
      else None
    decreases |line|
  {
    if line != "" {
      if pos == |w| {
        StripRest(w, line, pos);
      } else {
        StripFromStart(w, line[1..], pos + 1);
        assert w[pos..] == [w[pos]] + w[pos + 1..] && line == [line[0]] + line[1..];
        assert w[pos..] <= line <==> line[0] == w[pos] && w[pos + 1..] <= line[1..] by {
          PrefixCons(w[pos], w[pos + 1..], line[0], line[1..]);
        }
      }
    }
  }

  lemma PrefixCons(a: char, x: string, b: char, y: string)
    ensures [a] + x <= [b] + y <==> a == b && x <= y
  {
    if [a] + x <= [b] + y {
      assert ([a] + x)[0] == ([b] + y)[0];
      assert forall i :: 0 <= i < |x| ==> x[i] == ([a] + x)[i + 1] == ([b] + y)[i + 1] == y[i];
    }
  }

  lemma {:induction false} StripRest(w: string, line: string, pos: nat)
    requires pos >= |w|
    ensures StripFrom(w, line, pos) == Some(line)
    decreases |line|
  {
    if line != "" {
      StripRest(w, line[1..], pos + 1);
      assert [line[0]] + line[1..] == line;
    }
  }

  /** The last line, which no newline follows: it may end inside the indentation. */
  lemma {:induction false} StripLastLine(w: string, line: string, pos: nat)
    requires '\n' !in line && pos <= |w|
    ensures Strip(w, line, pos) ==
      if w[pos..] <= line then Some(line[|w| - pos..]) else if line <= w[pos..] then Some("") else None
    decreases |line|
  {
    if line != "" {
      assert line[0] in line && forall c :: c in line[1..] ==> c in line;
      if pos == |w| {
        StripKeeps(w, line, pos);
      } else {
        StripLastLine(w, line[1..], pos + 1);
        assert w[pos..] == [w[pos]] + w[pos + 1..] && line == [line[0]] + line[1..];
        PrefixCons(w[pos], w[pos + 1..], line[0], line[1..]);
        PrefixCons(line[0], line[1..], w[pos], w[pos + 1..]);
      }
    }
  }

  lemma {:induction false} StripKeeps(w: string, line: string, pos: nat)
    requires '\n' !in line && pos >= |w|
    ensures Strip(w, line, pos) == Some(line)
    decreases |line|
  {
    if line != "" {
      assert line[0] in line && forall c :: c in line[1..] ==> c in line;
      StripKeeps(w, line[1..], pos + 1);
      assert [line[0]] + line[1..] == line;
    }
  }

  /** Stripping a text strips its lines. */
  lemma {:induction false} StripJoin(w: string, lines: Lines)
    requires lines != [] && NoNewline(lines)
    ensures Strip(w, Join(lines), 0) == Joined(StripLines(w, lines))
    decreases |lines|
  {
    hide Strip;
    assert w[0..] == w;
    if |lines| == 1 {
      StripLastLine(w, lines[0], 0);
      StripEmpty(w, lines[0]);
      OneStripped(w, lines);
    } else {
      StripOneLine(w, lines[0], Join(lines[1..]), 0);
      StripFromStart(w, lines[0], 0);
      assert NoNewline(lines[1..]);
      StripJoin(w, lines[1..]);
    }
  }

  lemma StripEmpty(w: string, line: string)
    ensures line == "" && w <= line ==> line[|w|..] == ""
  {
  }

  lemma OneStripped(w: string, lines: Lines)
    requires |lines| == 1
    ensures Joined(StripLines(w, lines)) == StripLine(w, lines[0], true)
  {
    assert StripLines(w, lines[1..]) == Some([]);
  }

  lemma LastLineOf(t: string, w: string)
    requires '\n' !in w
    ensures LastLine(t + "\n" + w) == w
  {
    var body := t + "\n" + w;
    if w == "" {
    } else {
      assert body[..|body| - 1] == t + "\n" + w[..|w| - 1];
      assert forall c :: c in w[..|w| - 1] ==> c in w;
      assert w[|w| - 1] in w;
      LastLineOf(t, w[..|w| - 1]);
    }
  }

  lemma {:induction false} JoinEnds(lines: Lines)
    requires lines != [] && NoNewline(lines) && lines[|lines| - 1] != ""
    ensures Join(lines) != "" && Join(lines)[|Join(lines)| - 1] != '\n'
    decreases |lines|
  {
    if |lines| > 1 {
      assert NoNewline(lines[1..]) && lines[1..][|lines[1..]| - 1] == lines[|lines| - 1];
      JoinEnds(lines[1..]);
    } else {
      assert lines[0][|lines[0]| - 1] in lines[0];
    }
  }

  /** For every closing line `w` and every list of lines whose last is not empty: stripping removes `w` from each
      line, and fails exactly when some line is neither empty nor starts with `w`, the last line being also allowed
      to end inside `w`. */
  lemma DedentsLines(lines: Lines, w: string)
    requires lines != [] && NoNewline(lines) && lines[|lines| - 1] != "" && '\n' !in w
    ensures Dedent(Literal(lines, w)) == Joined(StripLines(w, lines))
  {
    hide Strip, LastLine, Join;
    var s, t := Literal(lines, w), Join(lines);
    var body := s[..|s| - 3];
    assert body == t + "\n" + w;
    LastLineOf(t, w);
    JoinEnds(lines);
    assert body[..|body| - |w| - 1] == t;
    StripJoin(w, lines);
  }

  function Indent(w: string, lines: Lines): Lines {
    seq(|lines|, k requires 0 <= k < |lines| => if lines[k] == "" then "" else w + lines[k])
  }

  lemma {:induction false} IndentStrips(w: string, lines: Lines)
    ensures StripLines(w, Indent(w, lines)) == Some(lines)
    decreases |lines|
  {
    if lines != [] {
      assert Indent(w, lines)[1..] == Indent(w, lines[1..]);
      IndentStrips(w, lines[1..]);
      assert lines[0] != "" ==> (w + lines[0])[|w|..] == lines[0] && w <= w + lines[0];
      assert [lines[0]] + lines[1..] == lines;
    }
  }

  /** Stripping undoes indenting. */
  lemma DedentUndoesIndent(lines: Lines, w: string)
    requires lines != [] && NoNewline(lines) && lines[|lines| - 1] != "" && '\n' !in w
    ensures Dedent(Literal(Indent(w, lines), w)) == Some(Join(lines))
  {
    hide Dedent, StripLines, Indent, Join, NoNewline;
    IndentPlain(lines, w);
    DedentsLines(Indent(w, lines), w);
    IndentStrips(w, lines);
  }

  lemma IndentPlain(lines: Lines, w: string)
    requires lines != [] && NoNewline(lines) && lines[|lines| - 1] != "" && '\n' !in w
    ensures var indented := Indent(w, lines);
            |indented| == |lines| && NoNewline(indented) && indented[|indented| - 1] != ""
  {
  }

  lemma {:induction false} BadLineFails(w: string, lines: Lines, k: nat)
    requires k + 1 < |lines| && lines[k] != "" && !(w <= lines[k])
    ensures StripLines(w, lines).None?
    decreases k
  {
    if k > 0 {
      BadLineFails(w, lines[1..], k - 1);
    }
  }

  /** A line before the last that is not empty and does not start with the closing line's indentation is an error. */
  lemma DedentRejects(lines: Lines, w: string, k: nat)
    requires NoNewline(lines) && k + 1 < |lines| && lines[|lines| - 1] != "" && '\n' !in w
    requires lines[k] != "" && !(w <= lines[k])
    ensures Dedent(Literal(lines, w)).None?
  {
    hide Dedent, StripLines;
    DedentsLines(lines, w);
    BadLineFails(w, lines, k);
  }

  lemma {:induction false} WholeLine(s: string)
    requires '\n' !in s
    ensures LastLine(s) == s
    decreases |s|
  {
    if s != "" {
      assert s[|s| - 1] in s && forall c :: c in s[..|s| - 1] ==> c in s;
      WholeLine(s[..|s| - 1]);
    }
  }

  /** Text on the closing line itself is silently dropped. */
  lemma TextBeforeQuotesDropped(text: string)
    requires '\n' !in text
    ensures Dedent(text + QUOTES) == Some("")
  {
    var s := text + QUOTES;
    assert s[..|s| - 3] == text;
    WholeLine(text);
  }

  /** Whether a line is accepted: empty, or indented, or a last line that ends inside the indentation. */
  predicate Fits(w: string, line: string, last: bool) {
    line == "" || w <= line || (last && line <= w)
  }

  lemma {:induction false} StripsExactly(w: string, lines: Lines)
    ensures StripLines(w, lines).Some? <==> forall k :: 0 <= k < |lines| ==> Fits(w, lines[k], k + 1 == |lines|)
    decreases |lines|
  {
    if lines != [] {
      var rest := lines[1..];
      StripsExactly(w, rest);
      assert forall k :: 0 <= k < |rest| ==> rest[k] == lines[k + 1];
      assert forall k :: 0 < k < |lines| ==> lines[k] == rest[k - 1];
    }
  }

  /** A text that ends in an empty line keeps one more line end. */
  function Kept(lines: Lines): Lines {
    if lines != [] && lines[|lines| - 1] == "" then lines + [""] else lines
  }

  lemma {:induction false} JoinEmpty(lines: Lines)
    requires lines != [] && lines[|lines| - 1] == ""
    ensures Join(lines + [""]) == Join(lines) + "\n"
    ensures Join(lines) == "" || Join(lines)[|Join(lines)| - 1] == '\n'
    decreases |lines|
  {
    assert (lines + [""])[1..] == lines[1..] + [""];
    if |lines| > 1 {
      JoinEmpty(lines[1..]);
    }
  }

  lemma CopiesLineEnd(t: string, w: string)
    requires '\n' !in w && (t == "" || t[|t| - 1] == '\n')
    ensures LastLine(t + "\n" + w) == w && Copied(t + "\n" + w) == t + "\n"
  {
    hide LastLine;
    LastLineOf(t, w);
    assert (t + "\n" + w)[..|t|] == t;
  }

  lemma KeptPlain(lines: Lines)
    requires lines != [] && NoNewline(lines)
    ensures Kept(lines) != [] && NoNewline(Kept(lines))
  {
  }

  /** The whole of it: for all lines and all text `w` before the closing quotes, indentation or not. That text is
      copied nowhere; its length is taken off every line. */
  lemma DedentsAll(lines: Lines, w: string)
    requires lines != [] && NoNewline(lines) && '\n' !in w
    ensures Dedent(Literal(lines, w)) == Joined(StripLines(w, Kept(lines)))
  {
    hide Strip, LastLine, Join, StripLines, Copied, NoNewline, Joined;
    if lines[|lines| - 1] != "" {
      DedentsLines(lines, w);
    } else {
      var s, t := Literal(lines, w), Join(lines);
      JoinEmpty(lines);
      assert s[..|s| - 3] == t + "\n" + w;
      CopiesLineEnd(t, w);
      KeptPlain(lines);
      StripJoin(w, Kept(lines));
    }
  }

  /** A literal is accepted exactly when each of its lines is empty or starts with the text before the closing
      quotes; the last line may instead end inside that text. */
  lemma DedentsExactly(lines: Lines, w: string)
    requires lines != [] && NoNewline(lines) && '\n' !in w
    ensures Dedent(Literal(lines, w)).Some? <==> forall k :: 0 <= k < |lines| ==> Fits(w, lines[k], k + 1 == |lines|)
  {
    hide Dedent, StripLines;
    DedentsAll(lines, w);
    StripsExactly(w, Kept(lines));
    var kept := Kept(lines);
    assert forall k :: 0 <= k < |lines| ==> kept[k] == lines[k];
    if kept != lines {
      assert kept[|lines|] == "" && Fits(w, kept[|lines|], true) && Fits(w, lines[|lines| - 1], true);
      assert forall k :: 0 <= k < |lines| - 1 ==> kept[k] == lines[k] && (k + 1 == |lines|) == (k + 1 == |kept|) == false;
    }
  }
}
