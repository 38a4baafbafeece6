/** Function headers in the token buffer, and what the parser's first pass makes of them. */
module Headers {
  import opened Tokens

  /** A filled buffer ends with its only end-of-file token. */
  predicate WellBuffered(toks: seq<Token>) {
    toks != [] && forall i :: 0 <= i < |toks| ==> (toks[i].kind == KEof <==> i == |toks| - 1)
  }

  function After(toks: seq<Token>, i: nat): nat {
    if i + 1 < |toks| then i + 1 else i
  }

  predicate NoFunc(toks: seq<Token>, i: nat, j: nat) {
    forall k :: i <= k < j && k < |toks| ==> toks[k].kind != KFunc
  }

  predicate KindAt(toks: seq<Token>, i: nat, k: Kind) {
    i < |toks| && toks[i].kind == k
  }

  predicate IsTypeKind(k: Kind) {
    k == KDtInt || k == KDtDouble || k == KDtString
  }

  // ----- function headers -----

  /** The position after a parameter: label, name, colon, type. */
  function ParamEnd(toks: seq<Token>, i: nat): Option<nat> {
    if (KindAt(toks, i, KUndScr) || KindAt(toks, i, KIdentifier)) && KindAt(toks, i + 1, KIdentifier)
       && KindAt(toks, i + 2, KCol) && i + 3 < |toks| && IsTypeKind(toks[i + 3].kind)
    then Some(i + 4) else None
  }

  /** The position of the parenthesis that closes the parameters, after one of them. */
  function MoreParamsEnd(toks: seq<Token>, i: nat): Option<nat>
    decreases |toks| - i
  {
    if KindAt(toks, i, KRPar) then Some(i)
    else if KindAt(toks, i, KComma) && ParamEnd(toks, i + 1).Some? then MoreParamsEnd(toks, i + 5)
    else None
  }

  function ParamsEnd(toks: seq<Token>, i: nat): Option<nat> {
    if KindAt(toks, i, KRPar) then Some(i)
    else if ParamEnd(toks, i).Some? then MoreParamsEnd(toks, i + 4)
    else None
  }

  /** The position after the return type. */
  function ReturnTypeEnd(toks: seq<Token>, i: nat): Option<nat> {
    if !KindAt(toks, i, KRetVal) then Some(i)
    else if i + 1 < |toks| && IsTypeKind(toks[i + 1].kind) then Some(i + 2)
    else None
  }

  /** The position after the header of the function whose keyword stands at `i`. */
  function HeaderEnd(toks: seq<Token>, i: nat): Option<nat> {
    if !KindAt(toks, i + 1, KIdentifier) || !KindAt(toks, i + 2, KLPar) then None
    else
      var r := ParamsEnd(toks, i + 3);
      if r.None? then None else ReturnTypeEnd(toks, r.value + 1)
  }

  function NameAt(toks: seq<Token>, i: nat): string {
    if i + 1 < |toks| then Text(toks[i + 1]) else ""
  }

  lemma {:induction false} MoreParamsPlain(toks: seq<Token>, i: nat)
    requires MoreParamsEnd(toks, i).Some?
    ensures var r := MoreParamsEnd(toks, i).value;
            i <= r && KindAt(toks, r, KRPar) && NoFunc(toks, i, r + 1)
    decreases |toks| - i
  {
    if !KindAt(toks, i, KRPar) {
      MoreParamsPlain(toks, i + 5);
    }
  }

  lemma ParamsClosed(toks: seq<Token>, i: nat)
    requires ParamsEnd(toks, i).Some?
    ensures KindAt(toks, ParamsEnd(toks, i).value, KRPar)
  {
    if !KindAt(toks, i, KRPar) {
      MoreParamsPlain(toks, i + 4);
    }
  }

  /** A header contains no second function keyword. */
  lemma HeaderPlain(toks: seq<Token>, i: nat)
    requires WellBuffered(toks) && HeaderEnd(toks, i).Some?
    ensures i + 4 <= HeaderEnd(toks, i).value < |toks| && NoFunc(toks, i + 1, HeaderEnd(toks, i).value)
  {
    if !KindAt(toks, i + 3, KRPar) {
      MoreParamsPlain(toks, i + 7);
    }
    var r := ParamsEnd(toks, i + 3).value;
    assert toks[r].kind == KRPar;
    assert KindAt(toks, r + 1, KRetVal) ==> toks[r + 1].kind == KRetVal && toks[r + 2].kind != KEof;
  }

  lemma HeaderWalk(toks: seq<Token>, i: nat, j: nat)
    requires KindAt(toks, i + 1, KIdentifier) && KindAt(toks, i + 2, KLPar) && ParamsEnd(toks, i + 3).Some?
    requires ReturnTypeEnd(toks, ParamsEnd(toks, i + 3).value + 1) == Some(j)
    ensures HeaderEnd(toks, i) == Some(j)
  {
  }

  // ----- what the first pass finds -----

  const BUILTINS: set<string> := {"readString", "readInt", "readDouble", "write", "Int2Double", "Double2Int", "length",
                                  "substring", "ord", "chr"}

  /** Functions whose code is emitted in place of a call. */
  predicate NeedsFrame(name: string) {
    name !in BUILTINS || name == "ord" || name == "substring"
  }

  /** `seen` are the positions at which the first pass looked for the keyword: it goes token by token, but skips
      each header and the token after it; every header it found is well-formed and names a new function. */
  ghost predicate Scanned(toks: seq<Token>, seen: set<nat>, functions: set<string>) {
    && (forall i :: i in seen ==> i < |toks|)
    && (forall i :: i in seen && toks[i].kind != KFunc && i + 1 < |toks| ==> i + 1 in seen)
    && (forall i :: i in seen && toks[i].kind == KFunc ==>
          HeaderEnd(toks, i).Some? && NameAt(toks, i) in functions && NameAt(toks, i) !in BUILTINS
          && (HeaderEnd(toks, i).value + 1 < |toks| ==> HeaderEnd(toks, i).value + 1 in seen))
    && (forall i, j :: i in seen && j in seen && i != j && toks[i].kind == KFunc && toks[j].kind == KFunc ==>
          NameAt(toks, i) != NameAt(toks, j))
    && (forall f :: f in functions ==> f in BUILTINS || exists i :: i in seen && toks[i].kind == KFunc && NameAt(toks, i) == f)
  }

  lemma SeenNext(toks: seq<Token>, seen: set<nat>, functions: set<string>, i: nat)
    requires Scanned(toks, seen, functions) && i in seen && i + 1 < |toks| && toks[i].kind != KFunc
    ensures i + 1 in seen
  {
  }

  lemma SeenAfterHeader(toks: seq<Token>, seen: set<nat>, functions: set<string>, i: nat)
    requires Scanned(toks, seen, functions) && i in seen && toks[i].kind == KFunc
    ensures HeaderEnd(toks, i).Some?
    ensures HeaderEnd(toks, i).value + 1 < |toks| ==> HeaderEnd(toks, i).value + 1 in seen
  {
  }

  /** What the first pass has found when it stands at `pos`. */
  ghost predicate ScannedTo(toks: seq<Token>, seen: set<nat>, functions: set<string>, pos: nat) {
    && BUILTINS <= functions
    && (forall i :: i in seen ==> i < |toks|)
    && (forall i :: i in seen && toks[i].kind != KFunc && i + 1 < |toks| ==> i + 1 in seen || i + 1 == pos)
    && (forall i :: i in seen && toks[i].kind == KFunc ==>
          HeaderEnd(toks, i).Some? && NameAt(toks, i) in functions && NameAt(toks, i) !in BUILTINS
          && (HeaderEnd(toks, i).value + 1 < |toks| ==>
                HeaderEnd(toks, i).value + 1 in seen || HeaderEnd(toks, i).value + 1 == pos))
    && (forall i, j :: i in seen && j in seen && i != j && toks[i].kind == KFunc && toks[j].kind == KFunc ==>
          NameAt(toks, i) != NameAt(toks, j))
    && (forall f :: f in functions ==> f in BUILTINS || exists i :: i in seen && toks[i].kind == KFunc && NameAt(toks, i) == f)
    && (forall i :: i in seen ==> i < pos)
  }

  lemma StartScan(toks: seq<Token>)
    ensures ScannedTo(toks, {}, BUILTINS, 0)
  {
  }

  /** One step of the first pass, over a token or over a header. */
  lemma ScanGoes(toks: seq<Token>, seen: set<nat>, functions: set<string>, i: nat, pos: nat)
    requires ScannedTo(toks, seen, functions, i) && i < pos < |toks|
    requires toks[i].kind != KFunc ==> pos == i + 1
    requires toks[i].kind == KFunc ==>
      && HeaderEnd(toks, i).Some? && NameAt(toks, i) !in functions
      && (HeaderEnd(toks, i).value + 1 < |toks| ==> pos == HeaderEnd(toks, i).value + 1)
    ensures ScannedTo(toks, seen + {i}, if toks[i].kind == KFunc then functions + {NameAt(toks, i)} else functions, pos)
  {
    hide HeaderEnd;
  }

  lemma ScanEnds(toks: seq<Token>, seen: set<nat>, functions: set<string>, pos: nat)
    requires WellBuffered(toks) && ScannedTo(toks, seen, functions, pos) && pos < |toks| && toks[pos].kind == KEof
    ensures Scanned(toks, seen + {pos}, functions)
  {
    hide HeaderEnd, NameAt;
    assert pos == |toks| - 1;
  }

  /** An opening brace follows every header. */
  predicate Braced(toks: seq<Token>) {
    forall i :: 0 <= i < |toks| && toks[i].kind == KFunc && HeaderEnd(toks, i).Some? ==>
      KindAt(toks, HeaderEnd(toks, i).value, KLBkt)
  }

  /** Then no function keyword hides behind a header. */
  lemma {:induction false} BracedSeen(toks: seq<Token>, seen: set<nat>, functions: set<string>, i: nat, k: nat)
    requires WellBuffered(toks) && Scanned(toks, seen, functions) && Braced(toks)
    requires i in seen && i <= k && KindAt(toks, k, KFunc)
    ensures k in seen
    decreases k - i
  {
    hide HeaderEnd, NameAt, Scanned;
    if i < k {
      if toks[i].kind != KFunc {
        SeenNext(toks, seen, functions, i);
        BracedSeen(toks, seen, functions, i + 1, k);
      } else {
        SeenAfterHeader(toks, seen, functions, i);
        HeaderPlain(toks, i);
        var h := HeaderEnd(toks, i).value;
        assert KindAt(toks, h, KLBkt);
        BracedSeen(toks, seen, functions, h + 1, k);
      }
    }
  }

  // ----- the functions' names -----

  /** The names of the functions from a position on, in order. */
  function FuncNames(toks: seq<Token>, i: nat): seq<string>
    decreases |toks| - i
  {
    if i >= |toks| then []
    else (if toks[i].kind == KFunc then [NameAt(toks, i)] else []) + FuncNames(toks, i + 1)
  }

  lemma {:induction false} NamesFrom(toks: seq<Token>, i: nat, n: string)
    ensures n in FuncNames(toks, i) <==> exists k :: i <= k < |toks| && toks[k].kind == KFunc && NameAt(toks, k) == n
    decreases |toks| - i
  {
    hide NameAt;
    if i < |toks| {
      NamesFrom(toks, i + 1, n);
      var rest := FuncNames(toks, i + 1);
      if toks[i].kind == KFunc {
        assert FuncNames(toks, i) == [NameAt(toks, i)] + rest;
      } else {
        assert FuncNames(toks, i) == [] + rest == rest;
      }
    }
  }

  /** All functions with labels, the built-in ones first. */
  function AllNames(toks: seq<Token>): seq<string> {
    ["ord", "substring"] + FuncNames(toks, 0)
  }

  /** No function has a name like the label of another's end. */
  predicate NoEndNames(toks: seq<Token>) {
    forall m, n :: m in AllNames(toks) && n in AllNames(toks) ==> m != "END_" + n
  }
}
