/** Instruction sequences the code generator emits for expressions. */
module CodeGen {
  import opened Tokens
  import opened Machine
  import opened Scopes

  function OpCode(op: Kind, isInt: bool): Program {
    if op == KAdd then [Adds]
    else if op == KSub then [Subs]
    else if op == KMul then [Muls]
    else if op == KDiv then (if isInt then [IDivs] else [Divs])
    else if op == KLt then [Lts]
    else if op == KLeq then [Gts, Nots]
    else if op == KGt then [Gts]
    else if op == KGeq then [Lts, Nots]
    else if op == KEq then [Eqs]
    else if op == KNeq then [Eqs, Nots]
    else []
  }

  const OP1 := VarRef(LF, "op", 1)
  const OP2 := VarRef(LF, "op", 2)

  function NilCheckCode(id: nat): Program {
    [CreateFrame, PushFrame, DefVar(OP2), Pops(OP2), DefVar(OP1), Pops(OP1), Pushs(VNil), PushVar(OP1),
     Eqs, Nots, Pushs(VBool(true)), JumpIfNeqs(ElseL(id)), PushVar(OP1), Jump(IfEndL(id)), Lab(ElseL(id)),
     PushVar(OP2), Lab(IfEndL(id)), PopFrame]
  }

  const PARAM1 := VarRef(GF, "?PARAM", 1)
  const PARAM2 := VarRef(GF, "?PARAM", 2)
  const RESULT := VarRef(GF, "?RESULT", 1)

  const ConcatCode: Program := [Pops(PARAM2), Pops(PARAM1), Concat(RESULT, PARAM1, PARAM2), PushVar(RESULT)]

  function StackVar(i: nat): VarRef {
    VarRef(LF, "stack", i)
  }

  /** Saves the top `depth` values in `stack_0`, `stack_1`, ... */
  function SaveCode(depth: nat): Program {
    if depth == 0 then [] else SaveCode(depth - 1) + [DefVar(StackVar(depth - 1)), Pops(StackVar(depth - 1))]
  }

  /** Pushes `stack_{depth-1}`, ..., `stack_0` back. */
  function RestoreCode(depth: nat): Program {
    if depth == 0 then [] else [PushVar(StackVar(depth - 1))] + RestoreCode(depth - 1)
  }

  function Int2DoublesCode(depth: nat): Program {
    [CreateFrame, PushFrame] + SaveCode(depth) + [Int2Floats] + RestoreCode(depth) + [PopFrame]
  }

  /** Frame and uid the generator prints for a read of `id`: the innermost initialised local, else the
      global, else its default. */
  function GenVar(scopes: seq<Scope>, globals: Scope, id: string): VarRef {
    var local := SearchInitialized(scopes, id);
    if local.Some? then VarRef(LF, id, local.value.uid)
    else
      var global := Lookup(globals, id);
      if global.Some? then VarRef(GF, id, global.value.uid) else VarRef(LF, id, 0)
  }

  function PushCode(scopes: seq<Scope>, globals: Scope, t: Token): Program {
    if t.kind == KIdentifier then [PushVar(GenVar(scopes, globals, Text(t)))]
    else if t.kind == KNil then [Pushs(VNil)]
    else if t.kind == KInt then [Pushs(VInt(if t.val.IntVal? then t.val.i else 0))]
    else if t.kind == KDbl then [Pushs(VDbl(if t.val.DblVal? then t.val.d else DblLit("")))]
    else if t.kind == KString then [Pushs(VStr(Text(t)))]
    else []
  }
}
