// The grammar of one buffered statement, as the recursive-descent
// parser accepts it. Each production is a function of the token buffer
// and a cursor position returning what the production builds, where the
// cursor ends up, and the integer-usage flags recorded on the way; a
// syntax error is a `Fail` that still carries those flags, because the
// parser records them as soon as it reads a base type.

module Grammar {
  import opened Ast
  import opened Lexer

  datatype Res<T> = Ok(value: T, next: nat, flags: set<UseFlag>) | Fail(flags: set<UseFlag>)

  /** The statements: a type declaration, a class declaration, or a call. */
  datatype Stmt = TypeDef(space: string, name: string) | ClassDef(child: string, parents: seq<string>) | Call(f: Func)

  // ---------------------------------------------------------------------
  // Token access
  // ---------------------------------------------------------------------

  /** The token under the cursor; an end marker past the buffer. */
  function Peek(ts: seq<Token>, p: nat): Token
  {
    if p < |ts| then ts[p] else Token(EOF, "", 0)
  }

  predicate TypeAt(ts: seq<Token>, p: nat, tt: TokenType) { Peek(ts, p).ttype == tt }

  /** The punctuation token `ch`; the lexer gives each such token a
      one-character value. */
  predicate IsPunctTok(t: Token, ch: char)
  {
    t.ttype == PUNCT && |t.value| == 1 && t.value[0] == ch
  }

  predicate PunctAt(ts: seq<Token>, p: nat, ch: char) { IsPunctTok(Peek(ts, p), ch) }

  /** A '*', '&' or '[' under the cursor: qualifiers come next. */
  predicate QualAhead(ts: seq<Token>, p: nat)
  {
    PunctAt(ts, p, '*') || PunctAt(ts, p, '&') || PunctAt(ts, p, '[')
  }

  /** The line a statement is reported at: its first token's. */
  function StmtLine(ts: seq<Token>, linenum: int): int
  {
    if ts != [] then ts[0].line else linenum
  }

  // ---------------------------------------------------------------------
  // Qualifiers and dimension lists
  // ---------------------------------------------------------------------

  /** expr ::= ID | NUMBER; its slot is not yet assigned. */
  function ExprAt(ts: seq<Token>, p: nat): (r: Res<Expr>)
    ensures r.Ok? ==> r.next == p + 1 <= |ts|
  {
    if TypeAt(ts, p, ID) || TypeAt(ts, p, NUMBER) then Ok(Expr(ts[p].value, -1), p + 1, {}) else Fail({})
  }

  /** The (',' expr)* tail of an expression list. */
  function ExprsMore(ts: seq<Token>, p: nat, acc: seq<Expr>): (r: Res<seq<Expr>>)
    ensures r.Ok? ==> p <= r.next && (p <= |ts| ==> r.next <= |ts|)
    decreases |ts| - p
  {
    if PunctAt(ts, p, ',') then
      match ExprAt(ts, p + 1)
      case Fail(_) => Fail({})
      case Ok(e, p1, _) => ExprsMore(ts, p1, acc + [e])
    else Ok(acc, p, {})
  }

  /** exprs ::= expr (',' expr)* | empty */
  function ExprsAt(ts: seq<Token>, p: nat): (r: Res<seq<Expr>>)
    ensures r.Ok? ==> p <= r.next
  {
    if PunctAt(ts, p, ']') then Ok([], p, {})
    else
      match ExprAt(ts, p)
      case Fail(_) => Fail({})
      case Ok(e, p1, _) => ExprsMore(ts, p1, [e])
  }

  /** arrayspec ::= '[' exprs ']' */
  function ArrayspecAt(ts: seq<Token>, p: nat): (r: Res<seq<Expr>>)
    ensures r.Ok? ==> p < r.next <= |ts|
  {
    if !PunctAt(ts, p, '[') then Fail({})
    else
      match ExprsAt(ts, p + 1)
      case Fail(_) => Fail({})
      case Ok(es, p1, _) => if PunctAt(ts, p1, ']') then Ok(es, p1 + 1, {}) else Fail({})
  }

  /** aqual ::= arrayspec ['&']: an array, or an array reference. */
  function AqualAt(ts: seq<Token>, p: nat): (r: Res<TypeQual>)
    ensures r.Ok? ==> p < r.next <= |ts|
  {
    match ArrayspecAt(ts, p)
    case Fail(_) => Fail({})
    case Ok(es, p1, _) =>
      if PunctAt(ts, p1, '&') then Ok(TypeQual(ArrRef, es), p1 + 1, {}) else Ok(TypeQual(Arr, es), p1, {})
  }

  /** quals ::= '*' | '&' | aqual */
  function QualsAt(ts: seq<Token>, p: nat): (r: Res<TypeQual>)
    ensures r.Ok? ==> p < r.next <= |ts|
  {
    if PunctAt(ts, p, '*') then Ok(TypeQual(Ptr, []), p + 1, {})
    else if PunctAt(ts, p, '&') then Ok(TypeQual(Ref, []), p + 1, {})
    else AqualAt(ts, p)
  }

  // ---------------------------------------------------------------------
  // Variables
  // ---------------------------------------------------------------------

  /** An optional device tag; the host ('c') when absent. */
  function DeviceAt(ts: seq<Token>, p: nat): (char, nat)
  {
    if TypeAt(ts, p, CPU) then ('c', p + 1)
    else if TypeAt(ts, p, GPU) then ('g', p + 1)
    else ('c', p)
  }

  /** An optional direction; input ('i') when absent. */
  function IoAt(ts: seq<Token>, p: nat): (char, nat)
  {
    if TypeAt(ts, p, INPUT) then ('i', p + 1)
    else if TypeAt(ts, p, OUTPUT) then ('o', p + 1)
    else if TypeAt(ts, p, INOUT) then ('b', p + 1)
    else ('i', p)
  }

  /** A variable name, a number or a string literal. */
  function NameAt(ts: seq<Token>, p: nat): (r: Res<string>)
    ensures r.Ok? ==> p < r.next <= |ts|
  {
    if TypeAt(ts, p, ID) || TypeAt(ts, p, NUMBER) || TypeAt(ts, p, STRING) then Ok(ts[p].value, p + 1, {})
    else Fail({})
  }

  /** What follows a variable's base type: qualifiers then the name, or
      the name then an optional array qualifier. */
  function VarRestAt(ts: seq<Token>, p: nat, dev: char, io: char, base: string, fl: set<UseFlag>): (r: Res<Var>)
    ensures r.flags == fl
    ensures r.Ok? ==> p < r.next <= |ts|
  {
    if QualAhead(ts, p) then
      match QualsAt(ts, p)
      case Fail(_) => Fail(fl)
      case Ok(q, p1, _) =>
        match NameAt(ts, p1)
        case Fail(_) => Fail(fl)
        case Ok(name, p2, _) => Ok(NewVar(dev, io, base, Some(q), name), p2, fl)
    else
      match NameAt(ts, p)
      case Fail(_) => Fail(fl)
      case Ok(name, p1, _) =>
        if PunctAt(ts, p1, '[') then
          match AqualAt(ts, p1)
          case Fail(_) => Fail(fl)
          case Ok(q, p2, _) => Ok(NewVar(dev, io, base, Some(q), name), p2, fl)
        else Ok(NewVar(dev, io, base, None, name), p1, fl)
  }

  /** var ::= [devicespec] [iospec] TYPE ...; the base type is promoted
      and its flags recorded before anything after it is read. */
  function VarAt(ts: seq<Token>, p: nat, lv: int): (r: Res<Var>)
    ensures r.Ok? ==> p < r.next <= |ts|
  {
    var (dev, p1) := DeviceAt(ts, p);
    var (io, p2) := IoAt(ts, p1);
    if !TypeAt(ts, p2, ID) then Fail({})
    else VarRestAt(ts, p2 + 1, dev, io, Promote(lv, ts[p2].value), PromoteFlags(lv, ts[p2].value))
  }

  /** The (',' var)* tail of an argument list, with the flags so far. */
  function ArgsMore(ts: seq<Token>, p: nat, lv: int, acc: seq<Var>, fl: set<UseFlag>): (r: Res<seq<Var>>)
    ensures fl <= r.flags
    decreases |ts| - p
  {
    if PunctAt(ts, p, ',') then
      match VarAt(ts, p + 1, lv)
      case Fail(f2) => Fail(fl + f2)
      case Ok(v, p1, f2) => ArgsMore(ts, p1, lv, acc + [v], fl + f2)
    else Ok(acc, p, fl)
  }

  /** One step of the argument tail: a ',' and the variable `w` after it. */
  lemma ArgsMoreStep(ts: seq<Token>, p: nat, lv: int, acc: seq<Var>, fl: set<UseFlag>, w: Res<Var>)
    requires PunctAt(ts, p, ',') && w == VarAt(ts, p + 1, lv)
    ensures w.Fail? ==> ArgsMore(ts, p, lv, acc, fl) == Fail(fl + w.flags)
    ensures w.Ok? ==> ArgsMore(ts, p, lv, acc, fl) == ArgsMore(ts, w.next, lv, acc + [w.value], fl + w.flags)
  {
  }

  /** Without a ',' the tail ends where it starts. */
  lemma ArgsMoreStop(ts: seq<Token>, p: nat, lv: int, acc: seq<Var>, fl: set<UseFlag>)
    requires !PunctAt(ts, p, ',')
    ensures ArgsMore(ts, p, lv, acc, fl) == Ok(acc, p, fl)
  {
  }

  /** args ::= var (',' var)* | empty */
  function ArgsAt(ts: seq<Token>, p: nat, lv: int): Res<seq<Var>>
  {
    if PunctAt(ts, p, ')') then Ok([], p, {})
    else
      match VarAt(ts, p, lv)
      case Fail(fl) => Fail(fl)
      case Ok(v, p1, fl) => ArgsMore(ts, p1, lv, [v], fl)
  }

  /** basevar ::= TYPE [quals] ID | TYPE ID [aqual]: the declared return
      value, always a host output. */
  function BaseVarAt(ts: seq<Token>, p: nat, lv: int): Res<Var>
  {
    if !TypeAt(ts, p, ID) then Fail({})
    else
      var base, fl := Promote(lv, ts[p].value), PromoteFlags(lv, ts[p].value);
      if QualAhead(ts, p + 1) then
        match QualsAt(ts, p + 1)
        case Fail(_) => Fail(fl)
        case Ok(q, p1, _) =>
          if TypeAt(ts, p1, ID) then Ok(NewVar('c', 'o', base, Some(q), ts[p1].value), p1 + 1, fl) else Fail(fl)
      else if !TypeAt(ts, p + 1, ID) then Fail(fl)
      else
        var name := ts[p + 1].value;
        if PunctAt(ts, p + 2, '[') then
          match AqualAt(ts, p + 2)
          case Fail(_) => Fail(fl)
          case Ok(q, p1, _) => Ok(NewVar('c', 'o', base, Some(q), name), p1, fl)
        else Ok(NewVar('c', 'o', base, None, name), p + 2, fl)
  }

  // ---------------------------------------------------------------------
  // Calls and statements
  // ---------------------------------------------------------------------

  /** A freshly parsed call: no arguments, return, duplicates or id yet. */
  function NewFunc(thisv: Option<string>, classv: Option<string>, funcv: string, fname: string, line: int, fort: bool): Func
  {
    Func(thisv, classv, funcv, fname, line, fort, -1, [], [], [])
  }

  /** func ::= FORTRAN ID | NEW ID | ID '->' ID '.' ID | ID */
  function FuncAt(ts: seq<Token>, p: nat, fname: string, line: int): Res<Func>
  {
    if TypeAt(ts, p, FORTRAN) then
      if TypeAt(ts, p + 1, ID) then Ok(NewFunc(None, None, ts[p + 1].value, fname, line, true), p + 2, {}) else Fail({})
    else if TypeAt(ts, p, NEW) then
      if TypeAt(ts, p + 1, ID) then Ok(NewFunc(None, Some(ts[p + 1].value), "new", fname, line, false), p + 2, {}) else Fail({})
    else if !TypeAt(ts, p, ID) then Fail({})
    else if PunctAt(ts, p + 1, '-') then
      if PunctAt(ts, p + 2, '>') && TypeAt(ts, p + 3, ID) && PunctAt(ts, p + 4, '.') && TypeAt(ts, p + 5, ID) then
        Ok(NewFunc(Some(ts[p].value), Some(ts[p + 3].value), ts[p + 5].value, fname, line, false), p + 6, {})
      else Fail({})
    else Ok(NewFunc(None, None, ts[p].value, fname, line, false), p + 1, {})
  }

  /** The '(' args ')' ';' that completes a call. */
  function CallRestAt(ts: seq<Token>, p: nat, lv: int, f: Func): Res<Func>
  {
    if !PunctAt(ts, p, '(') then Fail({})
    else
      match ArgsAt(ts, p + 1, lv)
      case Fail(fl) => Fail(fl)
      case Ok(args, p2, fl) => CloseCallAt(ts, p2, f, args, fl)
  }

  /** The ')' ';' after a call's argument list. */
  function CloseCallAt(ts: seq<Token>, p: nat, f: Func, args: seq<Var>, fl: set<UseFlag>): Res<Func>
  {
    if PunctAt(ts, p, ')') && PunctAt(ts, p + 1, ';') then Ok(f.(args := args), p + 2, fl) else Fail(fl)
  }

  /** funcall ::= func '(' args ')' ';' */
  function FuncallAt(ts: seq<Token>, p: nat, lv: int, fname: string, line: int): Res<Func>
  {
    match FuncAt(ts, p, fname, line)
    case Fail(_) => Fail({})
    case Ok(f, p1, _) => CallRestAt(ts, p1, lv, f)
  }

  /** tdef ::= TYPEDEF ID ID ';' */
  function TdefAt(ts: seq<Token>, p: nat): Res<Stmt>
  {
    if TypeAt(ts, p, TYPEDEF) && TypeAt(ts, p + 1, ID) && TypeAt(ts, p + 2, ID) && PunctAt(ts, p + 3, ';') then
      Ok(TypeDef(ts[p + 1].value, ts[p + 2].value), p + 4, {})
    else Fail({})
  }

  /** The (',' ID)* tail of a parent list. */
  function InheritsMore(ts: seq<Token>, p: nat, acc: seq<string>): (r: Res<seq<string>>)
    ensures r.Ok? ==> |r.value| >= |acc|
    decreases |ts| - p
  {
    if PunctAt(ts, p, ',') then
      if TypeAt(ts, p + 1, ID) then InheritsMore(ts, p + 2, acc + [ts[p + 1].value]) else Fail({})
    else Ok(acc, p, {})
  }

  /** inheritslist ::= ID (',' ID)* */
  function InheritsAt(ts: seq<Token>, p: nat): (r: Res<seq<string>>)
    ensures r.Ok? ==> |r.value| >= 1
  {
    if TypeAt(ts, p, ID) then InheritsMore(ts, p + 1, [ts[p].value]) else Fail({})
  }

  /** classdef ::= CLASS ID ':' inheritslist ';' */
  function ClassdefAt(ts: seq<Token>, p: nat): Res<Stmt>
  {
    if !(TypeAt(ts, p, CLASS) && TypeAt(ts, p + 1, ID) && PunctAt(ts, p + 2, ':')) then Fail({})
    else
      match InheritsAt(ts, p + 3)
      case Fail(_) => Fail({})
      case Ok(parents, p1, _) =>
        if PunctAt(ts, p1, ';') then Ok(ClassDef(ts[p + 1].value, parents), p1 + 1, {}) else Fail({})
  }

  // ---------------------------------------------------------------------
  // The assignment lookahead
  // ---------------------------------------------------------------------

  /** The lookahead from token `i` at bracket depth `depth`. */
  function AssignFrom(ts: seq<Token>, i: nat, depth: int): bool
    requires i <= |ts|
    decreases |ts| - i
  {
    if i == |ts| then false
    else if IsPunctTok(ts[i], '[') then AssignFrom(ts, i + 1, depth + 1)
    else if IsPunctTok(ts[i], ']') then AssignFrom(ts, i + 1, depth - 1)
    else if depth == 0 && IsPunctTok(ts[i], '=') then true
    else if depth == 0 && (IsPunctTok(ts[i], '(') || IsPunctTok(ts[i], ';')) then false
    else AssignFrom(ts, i + 1, depth)
  }

  /** Whether the statement assigns a declared return value. */
  function Assigns(ts: seq<Token>): bool
  {
    AssignFrom(ts, 0, 0)
  }

  /** The bracket depth before token `i`: opening minus closing brackets. */
  function Depth(ts: seq<Token>, i: nat): int
    requires i <= |ts|
  {
    if i == 0 then 0
    else
      var t := ts[i - 1];
      Depth(ts, i - 1) + (if IsPunctTok(t, '[') then 1 else if IsPunctTok(t, ']') then -1 else 0)
  }

  predicate TopLevel(ts: seq<Token>, i: nat, ch: char)
    requires i < |ts|
  {
    IsPunctTok(ts[i], ch) && Depth(ts, i) == 0
  }

  predicate Stops(ts: seq<Token>, i: nat)
    requires i < |ts|
  {
    TopLevel(ts, i, '(') || TopLevel(ts, i, ';')
  }

  lemma {:induction false} AssignFromExact(ts: seq<Token>, i: nat)
    requires i <= |ts|
    ensures AssignFrom(ts, i, Depth(ts, i)) <==>
            exists k :: i <= k < |ts| && TopLevel(ts, k, '=') && forall j :: i <= j < k ==> !Stops(ts, j)
    decreases |ts| - i
  {
    if i < |ts| {
      AssignFromExact(ts, i + 1);
      var t := ts[i];
      if !IsPunctTok(t, '[') && !IsPunctTok(t, ']') && Depth(ts, i) == 0 && IsPunctTok(t, '=') {
        assert TopLevel(ts, i, '=');
      } else if !IsPunctTok(t, '[') && !IsPunctTok(t, ']') && Depth(ts, i) == 0 && (IsPunctTok(t, '(') || IsPunctTok(t, ';')) {
        assert Stops(ts, i);
      } else {
        assert !TopLevel(ts, i, '=') && !Stops(ts, i);
        if exists k :: i + 1 <= k < |ts| && TopLevel(ts, k, '=') && forall j :: i + 1 <= j < k ==> !Stops(ts, j) {
          var k :| i + 1 <= k < |ts| && TopLevel(ts, k, '=') && forall j :: i + 1 <= j < k ==> !Stops(ts, j);
          assert forall j :: i <= j < k ==> !Stops(ts, j);
        }
      }
    }
  }

  /** The lookahead is true iff an '=' outside brackets comes before any
      '(' or ';' outside brackets. */
  lemma AssignsExact(ts: seq<Token>)
    ensures Assigns(ts) <==>
            exists k :: 0 <= k < |ts| && TopLevel(ts, k, '=') && forall j :: 0 <= j < k ==> !Stops(ts, j)
  {
    AssignFromExact(ts, 0);
  }

  /** basevar '=' funcall: the call that follows the '=', with the
      declared value as its return and the flags of both kept. */
  function AssignedFuncallAt(ts: seq<Token>, p: nat, lv: int, fname: string, line: int): Res<Func>
  {
    match BaseVarAt(ts, p, lv)
    case Fail(fl) => Fail(fl)
    case Ok(bv, p1, fl) =>
      if !PunctAt(ts, p1, '=') then Fail(fl)
      else
        match FuncallAt(ts, p1 + 1, lv, fname, line)
        case Fail(f2) => Fail(fl + f2)
        case Ok(f, p2, f2) => Ok(f.(ret := [bv]), p2, fl + f2)
  }

  /** A call production as a statement, keeping its flags. */
  function AsCall(c: Res<Func>): Res<Stmt>
  {
    if c.Fail? then Fail(c.flags) else Ok(Call(c.value), c.next, c.flags)
  }

  /** An assignment statement: basevar '=' funcall. */
  function AssignedCallAt(ts: seq<Token>, p: nat, lv: int, fname: string, line: int): Res<Stmt>
  {
    AsCall(AssignedFuncallAt(ts, p, lv, fname, line))
  }

  /** funcall alone: a call without a declared return value. */
  function PlainCallAt(ts: seq<Token>, p: nat, lv: int, fname: string, line: int): Res<Stmt>
  {
    AsCall(FuncallAt(ts, p, lv, fname, line))
  }

  /** One statement of the buffer, parsed from its start. */
  function StatementAt(ts: seq<Token>, lv: int, fname: string, line: int): Res<Stmt>
  {
    if TypeAt(ts, 0, TYPEDEF) then TdefAt(ts, 0)
    else if TypeAt(ts, 0, CLASS) then ClassdefAt(ts, 0)
    else if Assigns(ts) then AssignedCallAt(ts, 0, lv, fname, line)
    else PlainCallAt(ts, 0, lv, fname, line)
  }

  // ---------------------------------------------------------------------
  // Properties of the grammar
  // ---------------------------------------------------------------------

  predicate IsSemicolon(t: Token) { IsPunctTok(t, ';') }

  /** The first `n` tokens end with a ';'. */
  predicate ClosedAt(ts: seq<Token>, n: nat)
  {
    0 < n <= |ts| && IsSemicolon(ts[n - 1])
  }

  /** A completed call ends just after its ';' and changes only the
      arguments of the call it completes. */
  lemma CallRestShape(ts: seq<Token>, p: nat, lv: int, f: Func)
    ensures var r := CallRestAt(ts, p, lv, f);
            r.Ok? ==> ClosedAt(ts, r.next) && r.value == f.(args := r.value.args)
  {
    var a := ArgsAt(ts, p + 1, lv);
    if PunctAt(ts, p, '(') && a.Ok? && PunctAt(ts, a.next, ')') && PunctAt(ts, a.next + 1, ';') {
      assert Peek(ts, a.next + 1) == ts[a.next + 1];
    }
  }

  /** A call ends just after its ';', with no return value and no
      duplicates yet. */
  lemma FuncallShape(ts: seq<Token>, p: nat, lv: int, fname: string, line: int)
    ensures var r := FuncallAt(ts, p, lv, fname, line);
            r.Ok? ==> ClosedAt(ts, r.next) && r.value.same == [] && r.value.ret == []
  {
    var f := FuncAt(ts, p, fname, line);
    if f.Ok? {
      assert FuncallAt(ts, p, lv, fname, line) == CallRestAt(ts, f.next, lv, f.value);
      assert f.value.same == [] && f.value.ret == [];
      CallRestShape(ts, f.next, lv, f.value);
    }
  }

  /** A declared return value followed by '=' and a call ends just
      after the call's ';', and the value becomes the call's return. */
  lemma AssignedCallShape(ts: seq<Token>, p: nat, lv: int, fname: string, line: int)
    ensures var r := AssignedCallAt(ts, p, lv, fname, line);
            r.Ok? ==> ClosedAt(ts, r.next) && r.value.Call? && r.value.f.same == [] &&
                      BaseVarAt(ts, p, lv).Ok? && r.value.f.ret == [BaseVarAt(ts, p, lv).value]
  {
    var b := BaseVarAt(ts, p, lv);
    if b.Ok? {
      FuncallShape(ts, b.next + 1, lv, fname, line);
    }
  }

  /** A statement that parses ends just after a ';'; a call statement's
      call has no duplicates yet. */
  lemma StatementShape(ts: seq<Token>, lv: int, fname: string, line: int)
    ensures var r := StatementAt(ts, lv, fname, line);
            r.Ok? ==> ClosedAt(ts, r.next) && (r.value.Call? ==> r.value.f.same == [])
  {
    if TypeAt(ts, 0, TYPEDEF) {
      if TdefAt(ts, 0).Ok? {
        assert Peek(ts, 3) == ts[3];
      }
    } else if TypeAt(ts, 0, CLASS) {
      var ps := InheritsAt(ts, 3);
      if ClassdefAt(ts, 0).Ok? {
        assert Peek(ts, ps.next) == ts[ps.next];
      }
    } else if Assigns(ts) {
      AssignedCallShape(ts, 0, lv, fname, line);
    } else {
      FuncallShape(ts, 0, lv, fname, line);
    }
  }

  /** The buffer holds one statement's tokens up to its first ';', so a
      statement that parses consumes the whole buffer. */
  lemma StatementConsumesBuffer(ts: seq<Token>, lv: int, fname: string, line: int)
    requires ts != [] && IsSemicolon(ts[|ts| - 1])
    requires forall k :: 0 <= k < |ts| - 1 ==> !IsSemicolon(ts[k])
    ensures StatementAt(ts, lv, fname, line).Ok? ==> StatementAt(ts, lv, fname, line).next == |ts|
  {
    StatementShape(ts, lv, fname, line);
  }

  /** The shape of a parsed variable: the tags and base type given, no
      category and no slots yet. */
  lemma VarRestShape(ts: seq<Token>, p: nat, dev: char, io: char, base: string, fl: set<UseFlag>)
    ensures var r := VarRestAt(ts, p, dev, io, base, fl);
            r.Ok? ==> r.value.devicespec == dev && r.value.iospec == io && r.value.basetype == base &&
                      r.value.tinfo == Unk && r.value.inputLabel == -1 && r.value.outputLabel == -1
  {
  }

  /** A missing device tag means the host and a missing direction means
      input; a parsed variable has no category and no slots yet. */
  lemma VarDefaults(ts: seq<Token>, p: nat, lv: int)
    ensures var r := VarAt(ts, p, lv);
            r.Ok? ==>
              r.value.devicespec == (if TypeAt(ts, p, GPU) then 'g' else 'c') &&
              r.value.iospec in "iob" &&
              ((!TypeAt(ts, p, CPU) && !TypeAt(ts, p, GPU) && !TypeAt(ts, p, INPUT) && !TypeAt(ts, p, OUTPUT) && !TypeAt(ts, p, INOUT))
                 ==> r.value.iospec == 'i') &&
              r.value.tinfo == Unk && r.value.inputLabel == -1 && r.value.outputLabel == -1
  {
    var (dev, p1) := DeviceAt(ts, p);
    var (io, p2) := IoAt(ts, p1);
    if TypeAt(ts, p2, ID) {
      VarRestShape(ts, p2 + 1, dev, io, Promote(lv, ts[p2].value), PromoteFlags(lv, ts[p2].value));
    }
  }

  /** A declared return value is always a host output. */
  lemma BaseVarIsOutput(ts: seq<Token>, p: nat, lv: int)
    ensures var r := BaseVarAt(ts, p, lv);
            r.Ok? ==> r.value.devicespec == 'c' && r.value.iospec == 'o' && r.value.tinfo == Unk &&
                      r.value.basetype == Promote(lv, ts[p].value) && r.flags == PromoteFlags(lv, ts[p].value)
  {
  }

  /** '*' gives a pointer and '&' a reference, both without dimensions;
      a bracketed list gives an array, or an array reference when '&'
      follows the closing bracket; empty brackets give no dimensions. */
  lemma QualShapes(ts: seq<Token>, p: nat)
    ensures var r := QualsAt(ts, p);
            (PunctAt(ts, p, '*') ==> r == Ok(TypeQual(Ptr, []), p + 1, {})) &&
            (PunctAt(ts, p, '&') ==> r == Ok(TypeQual(Ref, []), p + 1, {})) &&
            (r.Ok? && PunctAt(ts, p, '[') ==>
               (r.value.qual == ArrRef <==> PunctAt(ts, r.next - 1, '&')) && (r.value.qual == Arr || r.value.qual == ArrRef)) &&
            (PunctAt(ts, p, '[') && PunctAt(ts, p + 1, ']') ==>
               r.Ok? && r.value.args == [] && r.next == (if PunctAt(ts, p + 2, '&') then p + 3 else p + 2))
  {
    if PunctAt(ts, p, '[') {
      var a := ArrayspecAt(ts, p);
      if a.Ok? {
        assert PunctAt(ts, a.next - 1, ']');
      }
    }
  }

  /** The k-th dimension is the k-th token of the comma-separated list. */
  lemma {:induction false} ExprsMoreTokens(ts: seq<Token>, p: nat, acc: seq<Expr>, p0: nat)
    requires p == p0 + 2 * |acc| - 1 && |acc| >= 1 && p <= |ts|
    requires forall k :: 0 <= k < |acc| ==> acc[k] == Expr(ts[p0 + 2 * k].value, -1)
    ensures var r := ExprsMore(ts, p, acc);
            r.Ok? ==> r.next == p0 + 2 * |r.value| - 1 && |r.value| >= |acc| &&
                      forall k :: 0 <= k < |r.value| ==> r.value[k] == Expr(ts[p0 + 2 * k].value, -1)
    decreases |ts| - p
  {
    if PunctAt(ts, p, ',') {
      var e := ExprAt(ts, p + 1);
      if e.Ok? {
        ExprsMoreTokens(ts, e.next, acc + [e.value], p0);
      }
    }
  }

  lemma ExprsTokens(ts: seq<Token>, p: nat)
    ensures var r := ExprsAt(ts, p);
            r.Ok? ==> r.next == p + (if r.value == [] then 0 else 2 * |r.value| - 1) &&
                      forall k :: 0 <= k < |r.value| ==> r.value[k] == Expr(ts[p + 2 * k].value, -1)
  {
    if !PunctAt(ts, p, ']') {
      var e := ExprAt(ts, p);
      if e.Ok? {
        ExprsMoreTokens(ts, e.next, [e.value], p);
      }
    }
  }
}
