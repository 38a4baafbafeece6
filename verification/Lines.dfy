/** Expressions inside a program.  Whatever stands before and after, a call whose expression lies on one line reports
    no error exactly when the line's tokens, up to the terminator or the next line, are a well-typed sentence.

    The call is followed on the expression alone: the buffer with nothing before the expression and an end marker
    after it. */
module Lines {
  import opened Tokens
  import opened Semantics
  import opened Precedence
  import opened ExprParsing
  import opened Grammar
  import opened Completeness
  import opened Sentences
  import opened Termination
  import opened Soundness
  import opened Unambiguity
  import CodeGen
  import Machine
  import ExprLabels
  import Rules

  /** After these a token that may start an expression starts a new one. */
  predicate Closes(k: Kind) {
    IndexOf(k) == IOperand || IndexOf(k) == IRPar
  }

  /** The tokens between `pos` and `end` are on one line and have no `!` directly before `(`; at `end` stands the
      first end marker, or else the next line begins with an operand or a parenthesis after an operand or a closing
      parenthesis. */
  predicate LineEnd(ctx: Ctx, pos: nat, end: nat) {
    && pos < end < |ctx.toks| && NoBangParen(ctx.toks[pos + 1..end])
    && (forall k :: pos < k < end ==> IndexOf(ctx.toks[k].kind) != IDollar && !ctx.toks[k].eol)
    && (IndexOf(ctx.toks[end].kind) == IDollar ||
        (StartsLine(ctx.toks[end]) && pos + 1 < end && Closes(ctx.toks[end - 1].kind)))
  }

  lemma SomeTokens(ctx: Ctx, pos: nat, end: nat)
    requires LineEnd(ctx, pos, end)
    ensures ctx.toks != []
  {
  }

  /** The expression alone. */
  function Alone(ctx: Ctx, pos: nat, end: nat): (r: Ctx)
    requires pos < end <= |ctx.toks|
    ensures |r.toks| == end + 1
    ensures forall k :: pos < k < end ==> r.toks[k] == ctx.toks[k]
    ensures r.toks[end] == EmptyToken(false)
  {
    ctx.(toks := seq(pos + 1, _ => EmptyToken(false)) + ctx.toks[pos + 1..end] + [EmptyToken(false)])
  }

  lemma AloneOneLine(ctx: Ctx, pos: nat, end: nat)
    requires LineEnd(ctx, pos, end)
    ensures OneLine(Alone(ctx, pos, end)) && NoBangParen(Alone(ctx, pos, end).toks)
  {
    hide IndexOf;
    EndIndex();
    var toks := Alone(ctx, pos, end).toks;
    assert forall k :: 0 <= k <= pos ==> toks[k] == EmptyToken(false);
    assert forall k :: pos < k < end ==> toks[k] == ctx.toks[pos + 1..end][k - pos - 1];
    forall i | 0 <= i < |toks| - 1 && toks[i].kind == KNotNil
      ensures toks[i + 1].kind != KLPar
    {
      if i + 1 < end {
        assert ctx.toks[pos + 1..end][i - pos - 1].kind == KNotNil;
      }
    }
  }

  lemma ActAlone(ctx: Ctx, toks: seq<Token>, sem: Sem, h: Stack)
    requires GetRule(h) != NoRule
    ensures Act(ctx.(toks := toks), sem, GetRule(h), h) == Act(ctx, sem, GetRule(h), h)
  {
    hide CodeGen.OpCode, CodeGen.NilCheckCode, CodeGen.PushCode;
  }

  /** The state of the call, and of the same call on the expression alone. */
  predicate Twins(ctx: Ctx, end: nat, s: PState, s1: PState) {
    && end < |ctx.toks| && s1.stack == s.stack && s1.sem == s.sem && !s1.multi
    && if s1.pos < end then s.pos == s1.pos && s.cur == s1.cur
       else
         || (s.pos == end && s.cur == ctx.toks[end] && (IndexOf(s.cur.kind) == IDollar || JustClosed(s)))
         || s.cur == EmptyToken(false)
  }

  /** The token on top is one that the next line's first token cannot follow. */
  predicate JustClosed(s: PState) {
    && s.stack != [] && s.stack[|s.stack| - 1].terminal && Closes(s.stack[|s.stack| - 1].tok.kind)
    && StartsLine(s.cur)
  }

  lemma StartTwins(ctx: Ctx, pos: nat, end: nat, sem: Sem)
    requires LineEnd(ctx, pos, end)
    ensures Twins(ctx, end, Start(ctx, pos, sem), Start(Alone(ctx, pos, end), pos, sem))
  {
    hide IndexOf;
  }

  ghost predicate Mirrors(ctx: Ctx, pos: nat, end: nat, s: PState, s1: PState, tr: seq<Tree>)
    requires pos < end <= |ctx.toks|
  {
    Twins(ctx, end, s, s1) && Calm(Alone(ctx, pos, end), s1) && Sound(Alone(ctx, pos, end), pos + 1, s1, tr)
  }

  /** The next line's first token: the parser steps back and sees an end marker. */
  lemma ConflictAtLine(ctx: Ctx, s: PState)
    requires ctx.toks != [] && CalmStack(s.stack) && s.cur.eol
    ensures Conflict(ctx, s).stack == s.stack && Conflict(ctx, s).sem == s.sem
    ensures Conflict(ctx, s).cur == EmptyToken(false)
  {
    var st := s.stack + [FromToken(s.cur)];
    assert st[|s.stack|].tok.eol;
    assert st[..|st| - 0] == st && st[..|st| - 1] == s.stack;
  }

  lemma ClosedConflict(s: PState)
    requires Bottomed(s) && JustClosed(s)
    ensures Choose(s) == X
  {
  }

  /** What may stand below one end marker may stand below another. */
  lemma ToppedEnd(st: Stack, tr: seq<Tree>, a: Token, b: Token)
    requires |tr| == |st| && st != [] && Topped(st, tr, a) && IndexOf(a.kind) == IndexOf(b.kind) == IDollar
    ensures Topped(st, tr, b)
  {
    hide IndexOf, Level, Opens, ContextMin;
  }

  lemma ToppedTwin(ctx: Ctx, pos: nat, end: nat, s: PState, s1: PState, tr: seq<Tree>)
    requires LineEnd(ctx, pos, end) && Mirrors(ctx, pos, end, s, s1, tr) && !JustClosed(s)
    ensures Topped(s.stack, tr, s.cur) && IndexOf(s.cur.kind) == IndexOf(s1.cur.kind)
  {
    hide IndexOf, Topped, JustClosed, CalmStack, OneLine, NoBangParen, Stacked, Read;
    EndIndex();
    assert |tr| == |s.stack| by { TreesOf(Alone(ctx, pos, end), pos + 1, s1, tr); }
    if s1.pos == end {
      ToppedEnd(s.stack, tr, s1.cur, s.cur);
    }
  }

  lemma SameChoice(s: PState, s1: PState)
    requires s1.stack == s.stack && IndexOf(s.cur.kind) == IndexOf(s1.cur.kind)
    ensures Choose(s1) == Choose(s) && Halted(s1) == Halted(s)
  {
    hide IndexOf;
  }

  /** A reduction does the same to both. */
  lemma ReduceTwins(ctx: Ctx, pos: nat, end: nat, s: PState, s1: PState)
    requires LineEnd(ctx, pos, end) && s1.stack == s.stack != [] && s1.sem == s.sem
    requires GetRule(Handle(s.stack)) != NoRule
    ensures var a, b := Precedence.Reduce(ctx, s), Precedence.Reduce(Alone(ctx, pos, end), s1);
            && b.stack == a.stack && b.sem == a.sem && (a.pos, a.cur) == (s.pos, s.cur)
            && (b.pos, b.cur, b.multi) == (s1.pos, s1.cur, s1.multi)
  {
    hide Act, Handle, Below, GetRule, HasEol, AboveEol;
    ActAlone(ctx, Alone(ctx, pos, end).toks, s.sem, Handle(s.stack));
  }

  lemma ShiftTwins(ctx: Ctx, pos: nat, end: nat, s: PState, s1: PState)
    requires LineEnd(ctx, pos, end) && s1.stack == s.stack != [] && s1.sem == s.sem && !s1.multi
    requires s1.pos < end && pos < s1.pos && s.pos == s1.pos && s.cur == s1.cur == ctx.toks[s.pos]
    requires Choose(s) == S || Choose(s) == E
    ensures Twins(ctx, end, Pass(ctx, s), Pass(Alone(ctx, pos, end), s1))
  {
    hide IndexOf, Flagged, Precedence.Reduce, Conflict, NoBangParen;
    SameChoice(s, s1);
    var ctx1 := Alone(ctx, pos, end);
    var st := (if Choose(s) == S then Flagged(s.stack) else s.stack) + [FromToken(s.cur)];
    assert Pass(ctx, s) == s.(stack := st, pos := s.pos + 1, cur := ctx.toks[s.pos + 1]);
    assert Pass(ctx1, s1) == s1.(stack := st, pos := s.pos + 1, cur := ctx1.toks[s.pos + 1]);
  }

  lemma ShiftedIsNoEnd(s: PState)
    requires Choose(s) == S || Choose(s) == E
    ensures IndexOf(s.cur.kind) != IDollar
  {
    hide IndexOf;
  }

  lemma CurrentAlone(ctx: Ctx, pos: nat, end: nat, s: PState, s1: PState, tr: seq<Tree>)
    requires LineEnd(ctx, pos, end) && Mirrors(ctx, pos, end, s, s1, tr)
    ensures pos < s1.pos <= end && s1.cur == Alone(ctx, pos, end).toks[s1.pos] && !s1.cur.eol
    ensures s1.pos == end ==> IndexOf(s1.cur.kind) == IDollar
    ensures s1.pos < end ==> s.cur == s1.cur == ctx.toks[s.pos] && s.pos == s1.pos && !s.cur.eol
    ensures tr != [] && |tr| == |s.stack| && Stacked(s.stack, tr) && CalmStack(s.stack) && Bottomed(s)
  {
    hide IndexOf, Topped, Read, NoBangParen, Fits, Pair, Triple;
    EndIndex();
    AloneOneLine(ctx, pos, end);
    OneLineAt(Alone(ctx, pos, end), s1.pos);
  }

  /** One pass of the call that reports no error is one pass of the other, or none. */
  lemma PassMirrors(ctx: Ctx, pos: nat, end: nat, s: PState, s1: PState, tr: seq<Tree>)
    returns (s1': PState, tr': seq<Tree>)
    requires LineEnd(ctx, pos, end) && Mirrors(ctx, pos, end, s, s1, tr) && (|s.stack| == 1 || !Halted(s))
    requires s.stack != [] && Pass(ctx, s).sem.err == NO_ERR
    ensures Mirrors(ctx, pos, end, Pass(ctx, s), s1', tr')
  {
    hide IndexOf, Stacked, Topped, CalmStack, OneLine, Sound, NoBangParen, Precedence.Reduce, Conflict, LineEnd, JustClosed;
    var ctx1 := Alone(ctx, pos, end);
    CurrentAlone(ctx, pos, end, s, s1, tr);
    AloneOneLine(ctx, pos, end);
    s1', tr' := s1, tr;
    if JustClosed(s) {
      ClosedConflict(s);
      ClosedStarts(s);
      ConflictAtLine(ctx, s);
    } else {
      ToppedTwin(ctx, pos, end, s, s1, tr);
      SameChoice(s, s1);
      if Choose(s) == X {
        if s.cur.eol {
          ConflictAtLine(ctx, s);
        } else {
          ConflictFails(ctx, s, tr);
          assert false;
        }
      } else {
        s1' := Pass(ctx1, s1);
        tr' := StepMirrors(ctx, pos, end, s, s1, tr);
      }
    }
  }

  lemma ClosedStarts(s: PState)
    requires JustClosed(s)
    ensures s.cur.eol
  {
  }

  /** A pass without a conflict. */
  lemma StepMirrors(ctx: Ctx, pos: nat, end: nat, s: PState, s1: PState, tr: seq<Tree>) returns (tr': seq<Tree>)
    requires LineEnd(ctx, pos, end) && Mirrors(ctx, pos, end, s, s1, tr) && (|s.stack| == 1 || !Halted(s))
    requires s.stack != [] && Pass(ctx, s).sem.err == NO_ERR && Choose(s) != X && !JustClosed(s)
    ensures Mirrors(ctx, pos, end, Pass(ctx, s), Pass(Alone(ctx, pos, end), s1), tr')
  {
    hide IndexOf, Stacked, Topped, CalmStack, OneLine, Sound, NoBangParen, Precedence.Reduce, Conflict, LineEnd, JustClosed;
    var ctx1 := Alone(ctx, pos, end);
    CurrentAlone(ctx, pos, end, s, s1, tr);
    AloneOneLine(ctx, pos, end);
    ToppedTwin(ctx, pos, end, s, s1, tr);
    SameChoice(s, s1);
    PassShrinks(ctx1, s1);
    if Choose(s) == R {
      if GetRule(Handle(s.stack)) == NoRule {
        NoRuleFails(ctx, s);
        assert false;
      }
      ReduceTwins(ctx, pos, end, s, s1);
    } else {
      ShiftedIsNoEnd(s);
      ShiftTwins(ctx, pos, end, s, s1);
    }
    tr' := PassKeepsSound(ctx1, pos + 1, s1, tr);
  }

  lemma {:induction false} RunMirrors(ctx: Ctx, pos: nat, end: nat, s: PState, s1: PState, tr: seq<Tree>, n: nat)
    returns (s1': PState, tr': seq<Tree>)
    requires LineEnd(ctx, pos, end) && Mirrors(ctx, pos, end, s, s1, tr) && Bottomed(s)
    requires Run(ctx, s, n).sem.err == NO_ERR
    ensures Mirrors(ctx, pos, end, Run(ctx, s, n), s1', tr')
    decreases n
  {
    hide Pass, LineEnd, Mirrors, Halted;
    s1', tr' := s1, tr;
    SomeTokens(ctx, pos, end);
    if n > 0 && !Halted(s) {
      PassKeepsBottom(ctx, s);
      if Pass(ctx, s).sem.err != NO_ERR {
        RunKeepsError(ctx, Pass(ctx, s), n - 1);
      }
      s1', tr' := PassMirrors(ctx, pos, end, s, s1, tr);
      s1', tr' := RunMirrors(ctx, pos, end, Pass(ctx, s), s1', tr', n - 1);
    }
  }

  /** The tokens between `pos` and `end` are the tree's. */
  predicate Spells(ctx: Ctx, pos: nat, end: nat, t: Tree) {
    Stratified(t) && pos < end < |ctx.toks| && ctx.toks[pos + 1..end] == Yield(t)
  }

  /** A stopped call that has found no error has read the whole line. */
  lemma HaltedReadsLine(ctx: Ctx, pos: nat, end: nat, s: PState, s1: PState, tr: seq<Tree>) returns (t: Tree)
    requires LineEnd(ctx, pos, end) && Mirrors(ctx, pos, end, s, s1, tr) && Halted(s) && |s.stack| >= 2
    ensures Spells(ctx, pos, end, t)
  {
    hide IndexOf, Stacked, Topped, CalmStack, OneLine, NoBangParen, Stratified, TopKind;
    var ctx1 := Alone(ctx, pos, end);
    CurrentAlone(ctx, pos, end, s, s1, tr);
    t := HaltedReadsSentence(ctx1, pos + 1, s1, tr);
    assert s1.pos == end;
    assert ctx1.toks[pos + 1..end] == ctx.toks[pos + 1..end];
  }

  lemma {:induction false} EndsClosed(t: Tree)
    requires Stratified(t) && Closes(Yield(t)[|Yield(t)| - 1].kind)
    ensures EndsInOperand(t)
    decreases t
  {
    hide IndexOf, Level, LeftMin, RightMin, IsBinaryOperator;
    match t
    case Bang(_, bang) => KindIndex(bang.kind);
    case Bin(l, op, r) =>
      assert Yield(t)[|Yield(t)| - 1] == Yield(r)[|Yield(r)| - 1];
      EndsClosed(r);
    case _ =>
  }

  /** A sentence on a line is read to its end, whatever stands before and after. */
  lemma LineSentenceReturns(ctx: Ctx, pos: nat, end: nat, sem: Sem, t: Tree)
    requires LineEnd(ctx, pos, end) && Spells(ctx, pos, end, t)
    ensures Before(ctx, pos + 1, t) && end == pos + 1 + |Yield(t)|
    ensures Returns(ctx, pos, sem, TreeOutcome(ctx, pos + 1, sem, t))
  {
    hide IndexOf, Stratified, Returns, TreeOutcome, EndsInOperand, NoBangParen;
    assert |Yield(t)| == end - pos - 1;
    if IndexOf(ctx.toks[end].kind) == IDollar {
      SentenceReturns(ctx, pos, sem, t);
    } else {
      assert Yield(t)[|Yield(t)| - 1] == ctx.toks[end - 1];
      EndsClosed(t);
      LineReturns(ctx, pos, sem, t);
    }
  }

  /** A call that reports no error has read exactly the line's tokens, which are a sentence, and done exactly the
      sentence's actions. */
  lemma ReadsLine(ctx: Ctx, pos: nat, end: nat, sem: Sem, out: Outcome) returns (t: Tree)
    requires LineEnd(ctx, pos, end) && Returns(ctx, pos, sem, out) && out.sem.err == NO_ERR
    ensures Spells(ctx, pos, end, t) && Before(ctx, pos + 1, t) && out == TreeOutcome(ctx, pos + 1, sem, t)
  {
    hide Pass, Finish, LineEnd, Mirrors, TreeOutcome, Before;
    SomeTokens(ctx, pos, end);
    var n: nat :| ReturnsIn(ctx, pos, sem, out, n);
    var s0 := Start(ctx, pos, sem);
    var s := Loop(ctx, s0, n);
    FinishKeepsError(ctx, s);
    PassKeepsBottom(ctx, s0);
    if Pass(ctx, s0).sem.err != NO_ERR {
      RunKeepsError(ctx, Pass(ctx, s0), n);
    }
    var s1, tr := StartMirrors(ctx, pos, end, sem);
    s1, tr := PassMirrors(ctx, pos, end, s0, s1, tr);
    s1, tr := RunMirrors(ctx, pos, end, Pass(ctx, s0), s1, tr, n);
    t := HaltedReadsLine(ctx, pos, end, s, s1, tr);
    LineSentenceReturns(ctx, pos, end, sem, t);
    ReturnsOnce(ctx, pos, sem, out, TreeOutcome(ctx, pos + 1, sem, t));
  }

  lemma StartMirrors(ctx: Ctx, pos: nat, end: nat, sem: Sem) returns (s1: PState, tr: seq<Tree>)
    requires LineEnd(ctx, pos, end)
    ensures Mirrors(ctx, pos, end, Start(ctx, pos, sem), s1, tr) && |Start(ctx, pos, sem).stack| == 1
  {
    hide IndexOf, OneLine, NoBangParen, Twins, Calm, Sound;
    var ctx1 := Alone(ctx, pos, end);
    s1, tr := Start(ctx1, pos, sem), [Leaf(DOLLAR.tok)];
    StartTwins(ctx, pos, end, sem);
    AloneOneLine(ctx, pos, end);
    StartCalm(ctx1, pos, sem);
    StartSound(ctx1, pos, sem);
  }

  /** Soundness and completeness on a line of a program. */
  lemma AcceptsExactlyLines(ctx: Ctx, pos: nat, end: nat, sem: Sem)
    requires LineEnd(ctx, pos, end)
    ensures (exists out :: Returns(ctx, pos, sem, out) && out.sem.err == NO_ERR)
       <==> (exists t :: Spells(ctx, pos, end, t) && Before(ctx, pos + 1, t) &&
                         TreeOutcome(ctx, pos + 1, sem, t).sem.err == NO_ERR)
  {
    hide Returns, TreeOutcome, LineEnd, Before, Spells;
    SomeTokens(ctx, pos, end);
    if out :| Returns(ctx, pos, sem, out) && out.sem.err == NO_ERR {
      var t := ReadsLine(ctx, pos, end, sem, out);
    }
    if t :| Spells(ctx, pos, end, t) && Before(ctx, pos + 1, t) && TreeOutcome(ctx, pos + 1, sem, t).sem.err == NO_ERR {
      LineSentenceReturns(ctx, pos, end, sem, t);
      assert Returns(ctx, pos, sem, TreeOutcome(ctx, pos + 1, sem, t));
    }
  }

  /** Every call on a line that reports no error is what the statement parser expects of the expression parser. */
  lemma LineIsGood(ctx: Ctx, pos: nat, end: nat, sem: Sem, out: Outcome) returns (part: seq<Machine.Instr>)
    requires LineEnd(ctx, pos, end) && Returns(ctx, pos, sem, out) && out.sem.err == NO_ERR
    ensures out.sem.code == sem.code + part
    ensures Rules.GoodExpr(ctx.toks, pos, sem.condUid, out.pos, part, out.sem.condUid)
  {
    hide Returns, LineEnd, TreeOutcome, Before, Rules.GoodExpr;
    var t := ReadsLine(ctx, pos, end, sem, out);
    part := ExprLabels.SentenceIsGood(ctx, pos, sem, t, out);
  }
}
