// The statement-buffered parser. Tokens are collected until a ';',
// the buffer is parsed as one statement, and the statement's effect is
// applied: a type or class declaration updates the context, a call is
// numbered, analysed, given its MATLAB stub and added to the function
// list unless an earlier call has the same signature, in which case it
// joins that call's duplicates.

module Parser {
  import opened Ast
  import opened Lexer
  import opened Grammar
  import opened Typecheck
  import Mgen

  // ---------------------------------------------------------------------
  // The function list
  // ---------------------------------------------------------------------

  /** The ids of a representative and of its duplicates. */
  function FuncIds(f: Func): seq<int>
  {
    [f.id] + seq(|f.same|, k requires 0 <= k < |f.same| => f.same[k].id)
  }

  /** Every id held by the function list, duplicates included. */
  function AllIds(fs: seq<Func>): seq<int>
    decreases |fs|
  {
    if fs == [] then [] else AllIds(fs[..|fs| - 1]) + FuncIds(fs[|fs| - 1])
  }

  /** 1, 2, ..., n. */
  function Upto(n: int): seq<int>
    decreases if n < 0 then 0 else n
  {
    if n <= 0 then [] else Upto(n - 1) + [n]
  }

  /** The number of times x occurs in xs. */
  function Occurrences(xs: seq<int>, x: int): nat
    decreases |xs|
  {
    if xs == [] then 0 else Occurrences(xs[..|xs| - 1], x) + (if xs[|xs| - 1] == x then 1 else 0)
  }

  /** The ids held are exactly 1..n, each once. */
  ghost predicate IdsExact(fs: seq<Func>, n: int)
  {
    forall x :: Occurrences(AllIds(fs), x) == if 1 <= x <= n then 1 else 0
  }

  /** Each signature in the table names a call at that position with
      that signature. */
  predicate LookupSound(fs: seq<Func>, lookup: map<string, nat>, lv: int)
  {
    forall s :: s in lookup ==> lookup[s] < |fs| && IdString(lv, fs[lookup[s]]) == s
  }

  /** Each call's signature maps back to its own position, so the
      representatives have pairwise distinct signatures. */
  predicate LookupComplete(fs: seq<Func>, lookup: map<string, nat>, lv: int)
  {
    forall i :: 0 <= i < |fs| ==> IdString(lv, fs[i]) in lookup && lookup[IdString(lv, fs[i])] == i
  }

  /** Every duplicate has its representative's signature and no
      duplicates of its own. */
  predicate DuplicatesMatch(fs: seq<Func>, lv: int)
  {
    forall i, j :: 0 <= i < |fs| && 0 <= j < |fs[i].same| ==>
      IdString(lv, fs[i].same[j]) == IdString(lv, fs[i]) && fs[i].same[j].same == []
  }

  /** The lookup table maps each signature to the position of the first
      call that had it. */
  predicate Indexed(fs: seq<Func>, lookup: map<string, nat>, lv: int)
  {
    LookupSound(fs, lookup, lv) && LookupComplete(fs, lookup, lv) && DuplicatesMatch(fs, lv)
  }

  /** The list and table after adding an analysed call. The table always
      points into the list (LookupSound), so the bound test only keeps
      the function total. */
  function Added(fs: seq<Func>, lookup: map<string, nat>, lv: int, g: Func): (seq<Func>, map<string, nat>)
  {
    var ids := IdString(lv, g);
    if ids in lookup && lookup[ids] < |fs| then
      var i := lookup[ids];
      (fs[i := fs[i].(same := fs[i].same + [g])], lookup)
    else
      (fs + [g], lookup[ids := |fs|])
  }

  lemma IdStringIgnoresSame(lv: int, f: Func, xs: seq<Func>)
    ensures IdString(lv, f.(same := xs)) == IdString(lv, f)
  {
    assert IdPrefix(lv, f.(same := xs)) == IdPrefix(lv, f);
  }

  lemma AddedSound(fs: seq<Func>, lookup: map<string, nat>, lv: int, g: Func)
    requires Indexed(fs, lookup, lv)
    ensures LookupSound(Added(fs, lookup, lv, g).0, Added(fs, lookup, lv, g).1, lv)
  {
    var ids := IdString(lv, g);
    if ids in lookup {
      var i := lookup[ids];
      IdStringIgnoresSame(lv, fs[i], fs[i].same + [g]);
    }
  }

  lemma AddedComplete(fs: seq<Func>, lookup: map<string, nat>, lv: int, g: Func)
    requires Indexed(fs, lookup, lv)
    ensures LookupComplete(Added(fs, lookup, lv, g).0, Added(fs, lookup, lv, g).1, lv)
  {
    var ids := IdString(lv, g);
    if ids in lookup {
      var i := lookup[ids];
      IdStringIgnoresSame(lv, fs[i], fs[i].same + [g]);
    }
  }

  lemma AddedDuplicates(fs: seq<Func>, lookup: map<string, nat>, lv: int, g: Func)
    requires Indexed(fs, lookup, lv) && g.same == []
    ensures DuplicatesMatch(Added(fs, lookup, lv, g).0, lv)
  {
    var ids := IdString(lv, g);
    if ids in lookup {
      var i := lookup[ids];
      var r := fs[i].(same := fs[i].same + [g]);
      var fs' := fs[i := r];
      assert Added(fs, lookup, lv, g).0 == fs';
      IdStringIgnoresSame(lv, fs[i], fs[i].same + [g]);
      assert IdString(lv, r) == ids;
      forall a, j | 0 <= a < |fs'| && 0 <= j < |fs'[a].same|
        ensures IdString(lv, fs'[a].same[j]) == IdString(lv, fs'[a]) && fs'[a].same[j].same == []
      {
        if a == i && j == |fs[i].same| {
          assert fs'[a].same[j] == g;
        } else if a == i {
          assert fs'[a].same[j] == fs[i].same[j];
        }
      }
    } else {
      assert Added(fs, lookup, lv, g).0 == fs + [g];
    }
  }

  /** Adding a call keeps the table consistent with the list. */
  lemma AddedIndexed(fs: seq<Func>, lookup: map<string, nat>, lv: int, g: Func)
    requires Indexed(fs, lookup, lv) && g.same == []
    ensures Indexed(Added(fs, lookup, lv, g).0, Added(fs, lookup, lv, g).1, lv)
  {
    AddedSound(fs, lookup, lv, g);
    AddedComplete(fs, lookup, lv, g);
    AddedDuplicates(fs, lookup, lv, g);
  }

  /** A call whose signature is new becomes a representative at the end
      of the list; a repeat is appended to its representative's
      duplicates and leaves the table and everything else unchanged. */
  lemma AddedPlacement(fs: seq<Func>, lookup: map<string, nat>, lv: int, g: Func)
    requires Indexed(fs, lookup, lv)
    ensures var (fs', lookup') := Added(fs, lookup, lv, g);
            (IdString(lv, g) !in lookup ==>
               fs' == fs + [g] && lookup' == lookup[IdString(lv, g) := |fs|]) &&
            (IdString(lv, g) in lookup ==>
               lookup' == lookup && |fs'| == |fs| &&
               (forall i :: 0 <= i < |fs| && IdString(lv, fs[i]) != IdString(lv, g) ==> fs'[i] == fs[i]) &&
               (forall i :: 0 <= i < |fs| && IdString(lv, fs[i]) == IdString(lv, g) ==>
                  fs'[i] == fs[i].(same := fs[i].same + [g])))
  {
  }

  lemma {:induction false} OccurrencesAppend(a: seq<int>, b: seq<int>, x: int)
    ensures Occurrences(a + b, x) == Occurrences(a, x) + Occurrences(b, x)
    decreases |b|
  {
    if b != [] {
      assert (a + b)[..|a + b| - 1] == a + b[..|b| - 1];
      OccurrencesAppend(a, b[..|b| - 1], x);
    } else {
      assert a + b == a;
    }
  }

  lemma {:induction false} AllIdsAppend(fs: seq<Func>, g: Func)
    ensures AllIds(fs + [g]) == AllIds(fs) + FuncIds(g)
  {
    assert (fs + [g])[..|fs|] == fs;
  }

  /** A duplicate joining a representative adds its id once. */
  lemma {:induction false} AllIdsJoin(fs: seq<Func>, i: nat, g: Func, x: int)
    requires i < |fs|
    ensures Occurrences(AllIds(fs[i := fs[i].(same := fs[i].same + [g])]), x) ==
            Occurrences(AllIds(fs), x) + (if g.id == x then 1 else 0)
    decreases |fs|
  {
    var fs' := fs[i := fs[i].(same := fs[i].same + [g])];
    var n := |fs| - 1;
    OccurrencesAppend(AllIds(fs'[..n]), FuncIds(fs'[n]), x);
    OccurrencesAppend(AllIds(fs[..n]), FuncIds(fs[n]), x);
    if i == n {
      assert fs'[..n] == fs[..n];
      assert FuncIds(fs'[n]) == FuncIds(fs[n]) + [g.id];
      OccurrencesAppend(FuncIds(fs[n]), [g.id], x);
      assert Occurrences([g.id], x) == if g.id == x then 1 else 0 by {
        assert [g.id][..0] == [];
      }
    } else {
      assert fs'[..n] == fs[..n][i := fs[..n][i].(same := fs[..n][i].same + [g])];
      AllIdsJoin(fs[..n], i, g, x);
    }
  }

  /** Adding the call numbered n to a list holding ids 1..n-1 gives a
      list holding ids 1..n, each once. */
  lemma AddedIdsExact(fs: seq<Func>, lookup: map<string, nat>, lv: int, g: Func, n: int)
    requires Indexed(fs, lookup, lv) && IdsExact(fs, n - 1) && g.id == n && n >= 1 && g.same == []
    ensures IdsExact(Added(fs, lookup, lv, g).0, n)
  {
    var ids := IdString(lv, g);
    var fs' := Added(fs, lookup, lv, g).0;
    forall x
      ensures Occurrences(AllIds(fs'), x) == if 1 <= x <= n then 1 else 0
    {
      if ids in lookup {
        AllIdsJoin(fs, lookup[ids], g, x);
      } else {
        AllIdsAppend(fs, g);
        OccurrencesAppend(AllIds(fs), FuncIds(g), x);
        assert FuncIds(g) == [g.id];
        assert [g.id][..0] == [];
      }
    }
  }

  lemma {:induction false} UptoCounts(n: int, x: int)
    ensures multiset(Upto(n))[x] == if 1 <= x <= n then 1 else 0
    decreases if n < 0 then 0 else n
  {
    if n > 0 {
      UptoCounts(n - 1, x);
    }
  }

  lemma {:induction false} MultisetOccurrences(xs: seq<int>, x: int)
    ensures multiset(xs)[x] == Occurrences(xs, x)
    decreases |xs|
  {
    if xs != [] {
      var n := |xs| - 1;
      assert xs == xs[..n] + [xs[n]];
      MultisetOccurrences(xs[..n], x);
    }
  }

  /** The ids held by a consistent list are a permutation of 1..n. */
  lemma IdsArePermutation(fs: seq<Func>, n: int)
    requires IdsExact(fs, n)
    ensures multiset(AllIds(fs)) == multiset(Upto(n))
  {
    forall x
      ensures multiset(AllIds(fs))[x] == multiset(Upto(n))[x]
    {
      MultisetOccurrences(AllIds(fs), x);
      UptoCounts(n, x);
    }
  }

  // ---------------------------------------------------------------------
  // The effect of a statement
  // ---------------------------------------------------------------------

  /** What a statement can change: the context and the parser's lists and
      counters. */
  datatype PState = PState(
    settings: Switches, reg: Registry, classes: map<string, seq<string>>, uses: set<UseFlag>,
    funcs: seq<Func>, lookup: map<string, nat>, funcId: int, typeErrs: nat, errFlag: nat, stubbed: seq<Func>)

  /** The function list is indexed by the table and holds the ids
      1..n, each once. */
  ghost predicate ListOk(fs: seq<Func>, lookup: map<string, nat>, lv: int, n: int)
  {
    Indexed(fs, lookup, lv) && IdsExact(fs, n) && n >= 0
  }

  ghost predicate StateOk(s: PState)
  {
    ListOk(s.funcs, s.lookup, s.settings.promoteLevel, s.funcId)
  }

  /** Adding the call numbered n+1 to a consistent list of n calls. */
  lemma AddedOk(fs: seq<Func>, lookup: map<string, nat>, lv: int, g: Func, n: int)
    requires ListOk(fs, lookup, lv, n) && g.same == [] && g.id == n + 1
    ensures ListOk(Added(fs, lookup, lv, g).0, Added(fs, lookup, lv, g).1, lv, n + 1)
  {
    AddedIndexed(fs, lookup, lv, g);
    AddedIdsExact(fs, lookup, lv, g, n + 1);
  }

  /** A type declaration registers its name in the registry its space
      names; an unknown space is a type error. */
  function Declared(s: PState, space: string, name: string): PState
  {
    if space == "numeric" then s.(reg := s.reg.(scalars := s.reg.scalars + {name}))
    else if space == "dcomplex" then s.(reg := s.reg.(zscalars := s.reg.zscalars + {name}))
    else if space == "fcomplex" then s.(reg := s.reg.(cscalars := s.reg.cscalars + {name}))
    else if space == "mxArray" then s.(reg := s.reg.(mxarrays := s.reg.mxarrays + {name}))
    else s.(typeErrs := s.typeErrs + 1)
  }

  /** An analysed call with its error count: the next id is taken, the
      errors are counted, the stub is written when stubs are on, the
      signature's flags are recorded and the call is added to the list. */
  function Recorded(s: PState, g: Func, errs: nat, writeStubs: bool): PState
  {
    var lv := s.settings.promoteLevel;
    var (fs, lookup) := Added(s.funcs, s.lookup, lv, g);
    s.(funcId := NextId(s),
       typeErrs := s.typeErrs + errs,
       stubbed := if writeStubs then s.stubbed + [g] else s.stubbed,
       uses := s.uses + IdFlags(lv, g.ret) + IdFlags(lv, g.args),
       funcs := fs, lookup := lookup)
  }

  /** The id the next completed call takes. */
  function NextId(s: PState): int
  {
    s.funcId + 1
  }

  /** A completed call takes the next id. */
  function Numbered(s: PState, fc: Func): Func
  {
    fc.(id := NextId(s))
  }

  /** A parsed call finished: it takes the next id, is analysed against
      the registry and recorded with the analysis's error count. */
  function Finished(s: PState, fc: Func, writeStubs: bool): PState
  {
    var f := Numbered(s, fc);
    Recorded(s, Analysed(s.reg, f), AnalysisErrors(s.reg, f), writeStubs)
  }

  function Applied(s: PState, st: Stmt, writeStubs: bool): PState
  {
    match st
    case TypeDef(space, name) => Declared(s, space, name)
    case ClassDef(child, parents) => s.(classes := Inherit(s.classes, child, parents))
    case Call(f) => Finished(s, f, writeStubs)
  }

  /** The effect of a production's result: the flags recorded while
      parsing are kept in every case, and a statement that parsed is
      applied. */
  function Outcome(s: PState, r: Res<Stmt>, writeStubs: bool): PState
  {
    match r
    case Fail(fl) => s.(uses := s.uses + fl)
    case Ok(st, _, fl) => Applied(s.(uses := s.uses + fl), st, writeStubs)
  }

  /** The effect of parsing one buffered statement: a syntax error
      counts once and abandons the statement. */
  function AfterLine(s: PState, ts: seq<Token>, fname: string, line: int, writeStubs: bool): PState
  {
    var r := StatementAt(ts, s.settings.promoteLevel, fname, line);
    var o := Outcome(s, r, writeStubs);
    if r.Fail? then o.(errFlag := o.errFlag + 1) else o
  }

  /** A parsed call's outcome is finishing it with the parse's flags kept. */
  /** The effect of a call production's result on a state that already
      holds its flags. */
  function Completed(s: PState, c: Res<Func>, writeStubs: bool): PState
  {
    if c.Fail? then s else Finished(s, c.value, writeStubs)
  }

  /** A parsed call that returns the declared value `bv`. */
  function Returning(c: Res<Func>, bv: Var): (d: Res<Func>)
  {
    if c.Ok? then Ok(c.value.(ret := [bv]), c.next, c.flags) else c
  }

  /** A call statement's effect is that of its call, on the state that
      holds the call's flags. */
  lemma AsCallOutcome(s: PState, c: Res<Func>, writeStubs: bool)
    ensures Outcome(s, AsCall(c), writeStubs) == Completed(s.(uses := s.uses + c.flags), c, writeStubs)
  {
    if c.Ok? {
      assert AsCall(c) == Ok(Call(c.value), c.next, c.flags);
    }
  }

  /** The state a parsed plain call leaves is the outcome of the
      statement it forms. */
  lemma PlainCallStep(s: PState, ts: seq<Token>, p: nat, lv: int, fname: string, line: int, writeStubs: bool, fc: Res<Func>, t: PState)
    requires fc == FuncallAt(ts, p, lv, fname, line)
    requires t == Completed(s.(uses := s.uses + fc.flags), fc, writeStubs)
    ensures fc.Ok? == PlainCallAt(ts, p, lv, fname, line).Ok?
    ensures t == Outcome(s, PlainCallAt(ts, p, lv, fname, line), writeStubs)
  {
    AsCallOutcome(s, fc, writeStubs);
  }

  /** The state a parsed assignment's call leaves is the outcome of the
      statement it forms. */
  lemma AssignedCallStep(s: PState, ts: seq<Token>, p: nat, lv: int, fname: string, line: int, writeStubs: bool, fc: Res<Func>, t: PState)
    requires fc == AssignedFuncallAt(ts, p, lv, fname, line)
    requires t == Completed(s.(uses := s.uses + fc.flags), fc, writeStubs)
    ensures fc.Ok? == AssignedCallAt(ts, p, lv, fname, line).Ok?
    ensures t == Outcome(s, AssignedCallAt(ts, p, lv, fname, line), writeStubs)
  {
    AsCallOutcome(s, fc, writeStubs);
  }

  lemma RecordedOk(s: PState, g: Func, errs: nat, writeStubs: bool)
    requires StateOk(s) && g.same == [] && g.id == s.funcId + 1
    ensures var s' := Recorded(s, g, errs, writeStubs);
            StateOk(s') && s'.settings == s.settings && s'.funcId == s.funcId + 1 && s'.errFlag == s.errFlag
  {
    AddedOk(s.funcs, s.lookup, s.settings.promoteLevel, g, s.funcId);
  }

  lemma FinishedOk(s: PState, fc: Func, writeStubs: bool)
    requires StateOk(s) && fc.same == []
    ensures var s' := Finished(s, fc, writeStubs);
            StateOk(s') && s'.settings == s.settings && s'.funcId == s.funcId + 1 && s'.errFlag == s.errFlag
  {
    var f := Numbered(s, fc);
    AnalysisKeepsCall(s.reg, f);
    RecordedOk(s, Analysed(s.reg, f), AnalysisErrors(s.reg, f), writeStubs);
  }

  /** Consistency depends only on the list, the table, the settings and
      the id counter. */
  lemma StateOkFrame(s: PState, s': PState)
    requires StateOk(s)
    requires s'.funcs == s.funcs && s'.lookup == s.lookup && s'.settings == s.settings && s'.funcId == s.funcId
    ensures StateOk(s')
  {
  }

  lemma DeclaredOk(s: PState, space: string, name: string)
    requires StateOk(s)
    ensures var s' := Declared(s, space, name);
            StateOk(s') && s'.settings == s.settings && s'.errFlag == s.errFlag && s'.funcId == s.funcId
  {
    DeclaredFrame(s, space, name);
    StateOkFrame(s, Declared(s, space, name));
  }

  /** A type declaration touches only the registry and the error count. */
  lemma DeclaredFrame(s: PState, space: string, name: string)
    ensures var s' := Declared(s, space, name);
            s' == s.(reg := s'.reg, typeErrs := s'.typeErrs)
  {
  }

  lemma AppliedOk(s: PState, st: Stmt, writeStubs: bool)
    requires StateOk(s) && (st.Call? ==> st.f.same == [])
    ensures var s' := Applied(s, st, writeStubs);
            StateOk(s') && s'.settings == s.settings && s'.errFlag == s.errFlag &&
            s'.funcId == s.funcId + (if st.Call? then 1 else 0)
  {
    match st
    case TypeDef(space, name) => DeclaredOk(s, space, name);
    case ClassDef(_, _) =>
    case Call(f) => FinishedOk(s, f, writeStubs);
  }

  lemma OutcomeOk(s: PState, r: Res<Stmt>, writeStubs: bool)
    requires StateOk(s) && (r.Ok? && r.value.Call? ==> r.value.f.same == [])
    ensures var s' := Outcome(s, r, writeStubs);
            StateOk(s') && s'.settings == s.settings && s'.errFlag == s.errFlag &&
            s'.funcId == s.funcId + (if r.Ok? && r.value.Call? then 1 else 0)
  {
    match r
    case Fail(_) =>
    case Ok(st, _, fl) => AppliedOk(s.(uses := s.uses + fl), st, writeStubs);
  }

  /** Every statement keeps the list consistent; exactly the completed
      calls take the next id; a failed statement counts one error and
      changes nothing but the flags. */
  lemma AfterLineOk(s: PState, ts: seq<Token>, fname: string, line: int, writeStubs: bool)
    requires StateOk(s)
    ensures var s' := AfterLine(s, ts, fname, line, writeStubs);
            var r := StatementAt(ts, s.settings.promoteLevel, fname, line);
            StateOk(s') && s'.settings == s.settings &&
            s'.funcId == s.funcId + (if r.Ok? && r.value.Call? then 1 else 0) &&
            s'.errFlag == s.errFlag + (if r.Fail? then 1 else 0) &&
            (r.Fail? ==> s' == s.(uses := s.uses + r.flags, errFlag := s.errFlag + 1))
  {
    StatementShape(ts, s.settings.promoteLevel, fname, line);
    OutcomeOk(s, StatementAt(ts, s.settings.promoteLevel, fname, line), writeStubs);
  }

  /** The buffer between statements: no ';' and no line markers. */
  predicate BufferOk(ts: seq<Token>)
  {
    forall k :: 0 <= k < |ts| ==> !IsSemicolon(ts[k]) && ts[k].ttype != EOF && ts[k].ttype != NON_C_LINE
  }

  /** The effect of feeding one token with `buf` pending. */
  function AfterFeed(s: PState, buf: seq<Token>, tok: Token, fname: string, linenum: int, writeStubs: bool): PState
  {
    if tok.ttype == EOF || tok.ttype == NON_C_LINE then
      if buf != [] then s.(errFlag := s.errFlag + 1) else s
    else if IsSemicolon(tok) then
      AfterLine(s, buf + [tok], fname, StmtLine(buf + [tok], linenum), writeStubs)
    else s
  }

  /** A ';' closes a statement that ends at its first ';' and parses it
      exactly once; a line marker discards a pending statement as one
      error; any other token only adds to the buffer. */
  lemma AfterFeedOk(s: PState, buf: seq<Token>, tok: Token, fname: string, linenum: int, writeStubs: bool)
    requires StateOk(s) && BufferOk(buf)
    ensures StateOk(AfterFeed(s, buf, tok, fname, linenum, writeStubs))
    ensures IsSemicolon(tok) ==>
              var ts := buf + [tok];
              var r := StatementAt(ts, s.settings.promoteLevel, fname, StmtLine(ts, linenum));
              r.Ok? ==> r.next == |ts|
    ensures !IsSemicolon(tok) && tok.ttype != EOF && tok.ttype != NON_C_LINE ==>
              AfterFeed(s, buf, tok, fname, linenum, writeStubs) == s && BufferOk(buf + [tok])
  {
    if tok.ttype == EOF || tok.ttype == NON_C_LINE {
      assert !IsSemicolon(tok);
    } else if IsSemicolon(tok) {
      var ts := buf + [tok];
      assert AfterFeed(s, buf, tok, fname, linenum, writeStubs) == AfterLine(s, ts, fname, StmtLine(ts, linenum), writeStubs);
      AfterLineOk(s, ts, fname, StmtLine(ts, linenum), writeStubs);
      assert forall k :: 0 <= k < |ts| - 1 ==> ts[k] == buf[k];
      StatementConsumesBuffer(ts, s.settings.promoteLevel, fname, StmtLine(ts, linenum));
    } else {
      var ts := buf + [tok];
      assert forall k :: 0 <= k < |ts| ==> ts[k] == if k < |buf| then buf[k] else tok;
    }
  }

  // ---------------------------------------------------------------------
  // The parser
  // ---------------------------------------------------------------------

  lemma UnionAssoc<T>(a: set<T>, b: set<T>, c: set<T>)
    ensures a + b + c == a + (b + c)
  {
  }

  class Parser {
    const ctx: Context
    const mexfunc: string
    /** Whether a MATLAB output file is open, so that stubs are written. */
    const writeStubs: bool

    /** The lexer's current file name and line, which the driver updates. */
    var ifname: string
    var linenum: int

    var funcs: seq<Func>
    var funcId: int
    var lookup: map<string, nat>
    var typeErrs: nat
    var errFlag: nat

    /** The token buffer of the current statement and the cursor. */
    var tokens: seq<Token>
    var pos: nat

    /** The calls whose MATLAB stubs have been written, in order. */
    var stubbed: seq<Func>

    function State(): PState
      reads this`funcs, this`lookup, this`funcId, this`typeErrs, this`errFlag, this`stubbed
      reads ctx`useGpu, ctx`generateCatch, ctx`useC99Complex, ctx`useCppComplex, ctx`promoteLevel
      reads ctx`scalarDecls, ctx`cscalarDecls, ctx`zscalarDecls, ctx`mxarrayDecls, ctx`classDecls, ctx`uses
    {
      PState(ctx.Settings(), ctx.Reg(), ctx.classDecls, ctx.uses, funcs, lookup, funcId, typeErrs, errFlag, stubbed)
    }

    /** The text of the MATLAB output file: each stubbed call's stub, in
        order. */
    function StubText(): string
      reads this`stubbed
    {
      Mgen.MatlabFile(stubbed, mexfunc)
    }

    function Level(): int reads ctx`promoteLevel { ctx.promoteLevel }

    ghost predicate Valid()
      reads this, ctx
    {
      StateOk(State()) && BufferOk(tokens)
    }

    constructor (ctx: Context, mexfunc: string, writeStubs: bool)
      ensures this.ctx == ctx && this.mexfunc == mexfunc && this.writeStubs == writeStubs
      ensures funcs == [] && lookup == map[] && funcId == 0 && typeErrs == 0 && errFlag == 0
      ensures tokens == [] && pos == 0 && stubbed == [] && ifname == "" && linenum == 0
    {
      this.ctx := ctx;
      this.mexfunc := mexfunc;
      this.writeStubs := writeStubs;
      ifname, linenum := "", 0;
      funcs, funcId, lookup := [], 0, map[];
      typeErrs, errFlag := 0, 0;
      tokens, pos, stubbed := [], 0, [];
    }

    /** A fresh parser is consistent: no calls, an empty buffer. */
    lemma InitialValid()
      requires funcs == [] && lookup == map[] && funcId == 0 && tokens == []
      ensures Valid()
    {
    }

    // -------------------------------------------------------------------
    // Token stream interface
    // -------------------------------------------------------------------

    /** Feeds one token from the lexer. */
    method Feed(tok: Token)
      requires Valid()
      modifies this`tokens, this`pos, this`funcs, this`funcId, this`lookup, this`typeErrs, this`errFlag, this`stubbed, ctx`uses, ctx`scalarDecls, ctx`cscalarDecls, ctx`zscalarDecls, ctx`mxarrayDecls, ctx`classDecls
      ensures Valid()
      ensures tokens == if IsSemicolon(tok) || tok.ttype == EOF || tok.ttype == NON_C_LINE then [] else old(tokens) + [tok]
      ensures State() == AfterFeed(old(State()), old(tokens), tok, ifname, linenum, writeStubs)
    {
      if tok.ttype == EOF || tok.ttype == NON_C_LINE {
        FeedLineEnd(tok);
      } else if IsSemicolon(tok) {
        FeedSemicolon(tok);
      } else {
        AfterFeedOk(State(), tokens, tok, ifname, linenum, writeStubs);
        tokens := tokens + [tok];
      }
    }

    /** The end of the input or a line marker drops a pending statement. */
    method FeedLineEnd(tok: Token)
      requires Valid() && (tok.ttype == EOF || tok.ttype == NON_C_LINE)
      modifies this`tokens, this`errFlag
      ensures Valid() && tokens == []
      ensures State() == AfterFeed(old(State()), old(tokens), tok, ifname, linenum, writeStubs)
    {
      AfterFeedOk(State(), tokens, tok, ifname, linenum, writeStubs);
      FlushPending();
    }

    /** A ';' closes the buffered statement, which is parsed and dropped. */
    method FeedSemicolon(tok: Token)
      requires Valid() && IsSemicolon(tok)
      modifies this`tokens, this`pos, this`funcs, this`funcId, this`lookup, this`typeErrs, this`errFlag, this`stubbed, ctx`uses, ctx`scalarDecls, ctx`cscalarDecls, ctx`zscalarDecls, ctx`mxarrayDecls, ctx`classDecls
      ensures Valid() && tokens == []
      ensures State() == AfterFeed(old(State()), old(tokens), tok, ifname, linenum, writeStubs)
    {
      ghost var s := State();
      ghost var buf := tokens;
      ghost var s' := AfterLine(s, buf + [tok], ifname, StmtLine(buf + [tok], linenum), writeStubs);
      AfterFeedOk(s, buf, tok, ifname, linenum, writeStubs);
      assert AfterFeed(s, buf, tok, ifname, linenum, writeStubs) == s';
      tokens := tokens + [tok];
      ParseLine();
      tokens := [];
      assert State() == s';
    }

    /** A statement left without its ';' is one error and is discarded. */
    method FlushPending()
      modifies this`tokens, this`errFlag
      ensures tokens == []
      ensures errFlag == old(errFlag) + (if old(tokens) != [] then 1 else 0)
    {
      if tokens != [] {
        errFlag := errFlag + 1;
        tokens := [];
      }
    }

    /** Ends one input file: a pending statement is one error, and the
        type errors found are added to the error count and reset. */
    method FinishFile()
      modifies this`tokens, this`errFlag, this`typeErrs
      ensures tokens == [] && typeErrs == 0
      ensures errFlag == old(errFlag) + (if old(tokens) != [] then 1 else 0) + old(typeErrs)
    {
      if tokens != [] {
        errFlag := errFlag + 1;
        tokens := [];
      }
      if typeErrs != 0 {
        errFlag := errFlag + typeErrs;
      }
      typeErrs := 0;
    }

    /** Finishing a file keeps the parser consistent. */
    lemma FinishFileValid(s: PState)
      requires StateOk(s)
      ensures StateOk(s.(errFlag := s.errFlag + 1)) && StateOk(s.(typeErrs := 0, errFlag := s.errFlag + s.typeErrs))
    {
    }

    // -------------------------------------------------------------------
    // Token access
    // -------------------------------------------------------------------

    method Advance() returns (t: Token)
      modifies this`pos
      ensures t == Peek(tokens, old(pos)) && pos == old(pos) + 1
    {
      t := Peek(tokens, pos);
      pos := pos + 1;
    }

    /** Consumes a token, which must have type `tt`. */
    method Expect(tt: TokenType) returns (t: Token, ok: bool)
      modifies this`pos
      ensures t == Peek(tokens, old(pos)) && ok == TypeAt(tokens, old(pos), tt) && pos == old(pos) + 1
    {
      t := Advance();
      ok := t.ttype == tt;
    }

    /** Consumes a token, which must be the punctuation `ch`. */
    method ExpectPunct(ch: char) returns (ok: bool)
      modifies this`pos
      ensures ok == PunctAt(tokens, old(pos), ch) && pos == old(pos) + 1
    {
      var t := Advance();
      ok := IsPunctTok(t, ch);
    }

    // -------------------------------------------------------------------
    // Statements
    // -------------------------------------------------------------------

    /** Parses the buffered statement from its start; a syntax error is
        counted once. */
    method ParseLine()
      modifies this`pos, this`funcs, this`funcId, this`lookup, this`typeErrs, this`errFlag, this`stubbed, ctx`uses, ctx`scalarDecls, ctx`cscalarDecls, ctx`zscalarDecls, ctx`mxarrayDecls, ctx`classDecls
      ensures State() == AfterLine(old(State()), tokens, ifname, StmtLine(tokens, linenum), writeStubs)
    {
      pos := 0;
      var ok := Statement();
      if !ok {
        errFlag := errFlag + 1;
      }
    }

    /** Parses one statement and applies its effect; false on a syntax
        error, with only the flags recorded before it kept. */
    method Statement() returns (ok: bool)
      requires pos == 0
      modifies this`pos, this`funcs, this`funcId, this`lookup, this`typeErrs, this`stubbed, ctx`uses, ctx`scalarDecls, ctx`cscalarDecls, ctx`zscalarDecls, ctx`mxarrayDecls, ctx`classDecls
      ensures var r := StatementAt(tokens, Level(), ifname, StmtLine(tokens, linenum));
              ok == r.Ok? && State() == Outcome(old(State()), r, writeStubs)
    {
      if TypeAt(tokens, pos, TYPEDEF) {
        ok := Tdef();
        return;
      }
      if TypeAt(tokens, pos, CLASS) {
        ok := Classdef();
        return;
      }
      var assign := HasAssignment();
      if assign {
        ok := AssignedCall();
      } else {
        ok := PlainCall();
      }
    }

    /** basevar '=' funcall, then the call is finished. */
    method AssignedCall() returns (ok: bool)
      modifies this`pos, this`funcs, this`funcId, this`lookup, this`typeErrs, this`stubbed, ctx`uses
      ensures ok == AssignedCallAt(tokens, old(pos), Level(), ifname, StmtLine(tokens, linenum)).Ok?
      ensures State() == Outcome(old(State()), AssignedCallAt(tokens, old(pos), Level(), ifname, StmtLine(tokens, linenum)), writeStubs)
    {
      ghost var s := State();
      var fc := ParseAssignedFuncall();
      CompleteCall(fc, s.(uses := s.uses + fc.flags));
      AssignedCallStep(s, tokens, old(pos), Level(), ifname, StmtLine(tokens, linenum), writeStubs, fc, State());
      ok := fc.Ok?;
    }

    /** funcall, then the call is finished. */
    method PlainCall() returns (ok: bool)
      modifies this`pos, this`funcs, this`funcId, this`lookup, this`typeErrs, this`stubbed, ctx`uses
      ensures ok == PlainCallAt(tokens, old(pos), Level(), ifname, StmtLine(tokens, linenum)).Ok?
      ensures State() == Outcome(old(State()), PlainCallAt(tokens, old(pos), Level(), ifname, StmtLine(tokens, linenum)), writeStubs)
    {
      ghost var s := State();
      var fc := ParseFuncall();
      CompleteCall(fc, s.(uses := s.uses + fc.flags));
      PlainCallStep(s, tokens, old(pos), Level(), ifname, StmtLine(tokens, linenum), writeStubs, fc, State());
      ok := fc.Ok?;
    }

    /** A parsed call, or the failure to parse one, takes effect on the
        state `s` that already holds its flags. */
    method CompleteCall(fc: Res<Func>, ghost s: PState)
      requires State() == s
      modifies this`funcs, this`funcId, this`lookup, this`typeErrs, this`stubbed, ctx`uses
      ensures State() == Completed(s, fc, writeStubs)
    {
      if fc.Ok? {
        FinishFunc(fc.value, s);
      }
    }

    /** The bracket-depth lookahead over the whole buffer. */
    method HasAssignment() returns (b: bool)
      ensures b == Assigns(tokens)
    {
      var depth := 0;
      var i := 0;
      while i < |tokens|
        invariant 0 <= i <= |tokens|
        invariant AssignFrom(tokens, i, depth) == AssignFrom(tokens, 0, 0)
      {
        var t := tokens[i];
        if IsPunctTok(t, '[') {
          depth := depth + 1;
        } else if IsPunctTok(t, ']') {
          depth := depth - 1;
        } else if depth == 0 && IsPunctTok(t, '=') {
          return true;
        } else if depth == 0 && (IsPunctTok(t, '(') || IsPunctTok(t, ';')) {
          return false;
        }
        i := i + 1;
      }
      return false;
    }

    /** tdef, then the registration it asks for. */
    method Tdef() returns (ok: bool)
      modifies this`pos, this`typeErrs, ctx`scalarDecls, ctx`cscalarDecls, ctx`zscalarDecls, ctx`mxarrayDecls
      ensures var r := TdefAt(tokens, old(pos)); ok == r.Ok? && State() == Outcome(old(State()), r, writeStubs)
    {
      ghost var s := State();
      assert s.(uses := s.uses + {}) == s;
      var _, ok1 := Expect(TYPEDEF);
      var space, ok2 := Expect(ID);
      var name, ok3 := Expect(ID);
      var ok4 := ExpectPunct(';');
      ok := ok1 && ok2 && ok3 && ok4;
      if !ok {
        return;
      }
      if space.value == "numeric" {
        ctx.AddScalarType(name.value);
      } else if space.value == "dcomplex" {
        ctx.AddZScalarType(name.value);
      } else if space.value == "fcomplex" {
        ctx.AddCScalarType(name.value);
      } else if space.value == "mxArray" {
        ctx.AddMxArrayType(name.value);
      } else {
        typeErrs := typeErrs + 1;
      }
    }

    /** classdef, then the parents' registration. */
    method Classdef() returns (ok: bool)
      modifies this`pos, ctx`classDecls
      ensures var r := ClassdefAt(tokens, old(pos)); ok == r.Ok? && State() == Outcome(old(State()), r, writeStubs)
    {
      ghost var s := State();
      assert s.(uses := s.uses + {}) == s;
      var _, ok1 := Expect(CLASS);
      var child, ok2 := Expect(ID);
      var ok3 := ExpectPunct(':');
      if !(ok1 && ok2 && ok3) {
        return false;
      }
      var parents := Inheritslist();
      if parents.Fail? {
        return false;
      }
      ok := ExpectPunct(';');
      if !ok {
        return;
      }
      ctx.AddInherits(child.value, parents.value);
    }

    method Inheritslist() returns (r: Res<seq<string>>)
      modifies this`pos
      ensures r == InheritsAt(tokens, old(pos)) && (r.Ok? ==> pos == r.next)
    {
      var first, ok := Expect(ID);
      if !ok {
        return Fail({});
      }
      var result := [first.value];
      while PunctAt(tokens, pos, ',')
        invariant InheritsMore(tokens, pos, result) == InheritsAt(tokens, old(pos))
        decreases |tokens| - pos
      {
        var _ := Advance();
        var next, ok := Expect(ID);
        if !ok {
          return Fail({});
        }
        result := result + [next.value];
      }
      r := Ok(result, pos, {});
    }

    // -------------------------------------------------------------------
    // Calls
    // -------------------------------------------------------------------

    /** basevar '=' funcall: the call with the declared value as its
        return; the flags of both are recorded. */
    method ParseAssignedFuncall() returns (r: Res<Func>)
      modifies this`pos, ctx`uses
      ensures r == AssignedFuncallAt(tokens, old(pos), Level(), ifname, StmtLine(tokens, linenum)) && (r.Ok? ==> pos == r.next)
      ensures ctx.uses == old(ctx.uses) + r.flags
    {
      var bv := ParseBaseVar();
      if bv.Fail? {
        return Fail(bv.flags);
      }
      var ok := ExpectPunct('=');
      if !ok {
        return Fail(bv.flags);
      }
      var fc := ParseFuncall();
      UnionAssoc(old(ctx.uses), bv.flags, fc.flags);
      if fc.Fail? {
        return Fail(bv.flags + fc.flags);
      }
      r := Ok(fc.value.(ret := [bv.value]), fc.next, bv.flags + fc.flags);
    }


    method ParseFuncall() returns (r: Res<Func>)
      modifies this`pos, ctx`uses
      ensures r == FuncallAt(tokens, old(pos), Level(), ifname, StmtLine(tokens, linenum)) && (r.Ok? ==> pos == r.next)
      ensures ctx.uses == old(ctx.uses) + r.flags
    {
      var f := ParseFunc();
      if f.Fail? {
        return Fail({});
      }
      r := CallRest(f.value);
    }

    method CallRest(f: Func) returns (r: Res<Func>)
      modifies this`pos, ctx`uses
      ensures r == CallRestAt(tokens, old(pos), Level(), f) && (r.Ok? ==> pos == r.next)
      ensures ctx.uses == old(ctx.uses) + r.flags
    {
      var ok := ExpectPunct('(');
      if !ok {
        return Fail({});
      }
      var args := ParseArgs();
      if args.Fail? {
        return Fail(args.flags);
      }
      r := CloseCall(f, args.value, args.flags);
    }

    /** The ')' ';' after a call's argument list. */
    method CloseCall(f: Func, args: seq<Var>, fl: set<UseFlag>) returns (r: Res<Func>)
      modifies this`pos
      ensures r == CloseCallAt(tokens, old(pos), f, args, fl) && (r.Ok? ==> pos == r.next)
    {
      var ok1 := ExpectPunct(')');
      var ok2 := ExpectPunct(';');
      if !(ok1 && ok2) {
        return Fail(fl);
      }
      r := Ok(f.(args := args), pos, fl);
    }

    method ParseFunc() returns (r: Res<Func>)
      modifies this`pos
      ensures r == FuncAt(tokens, old(pos), ifname, StmtLine(tokens, linenum)) && (r.Ok? ==> pos == r.next)
    {
      var line := StmtLine(tokens, linenum);
      if TypeAt(tokens, pos, FORTRAN) {
        var _ := Advance();
        var name, ok := Expect(ID);
        if !ok {
          return Fail({});
        }
        return Ok(NewFunc(None, None, name.value, ifname, line, true), pos, {});
      }
      if TypeAt(tokens, pos, NEW) {
        var _ := Advance();
        var classname, ok := Expect(ID);
        if !ok {
          return Fail({});
        }
        return Ok(NewFunc(None, Some(classname.value), "new", ifname, line, false), pos, {});
      }
      var name, ok := Expect(ID);
      if !ok {
        return Fail({});
      }
      if PunctAt(tokens, pos, '-') {
        var _ := Advance();
        var ok1 := ExpectPunct('>');
        var classname, ok2 := Expect(ID);
        var ok3 := ExpectPunct('.');
        var method_, ok4 := Expect(ID);
        if !(ok1 && ok2 && ok3 && ok4) {
          return Fail({});
        }
        return Ok(NewFunc(Some(name.value), Some(classname.value), method_.value, ifname, line, false), pos, {});
      }
      r := Ok(NewFunc(None, None, name.value, ifname, line, false), pos, {});
    }

    // -------------------------------------------------------------------
    // Arguments and variables
    // -------------------------------------------------------------------

    method ParseArgs() returns (r: Res<seq<Var>>)
      modifies this`pos, ctx`uses
      ensures r == ArgsAt(tokens, old(pos), Level()) && (r.Ok? ==> pos == r.next)
      ensures ctx.uses == old(ctx.uses) + r.flags
    {
      if PunctAt(tokens, pos, ')') {
        return Ok([], pos, {});
      }
      var v := ParseVar();
      if v.Fail? {
        return Fail(v.flags);
      }
      r := ArgsTail([v.value], v.flags);
    }

    /** The (',' var)* tail of an argument list; the flags `fl` of the
        arguments before it are already recorded. */
    method ArgsTail(acc: seq<Var>, fl: set<UseFlag>) returns (r: Res<seq<Var>>)
      requires fl <= ctx.uses
      modifies this`pos, ctx`uses
      ensures r == ArgsMore(tokens, old(pos), Level(), acc, fl) && (r.Ok? ==> pos == r.next)
      ensures ctx.uses == old(ctx.uses) + r.flags
    {
      var result, fl' := acc, fl;
      ghost var ts, lv := tokens, Level();
      ghost var target := ArgsMore(ts, pos, lv, acc, fl);
      while PunctAt(tokens, pos, ',')
        invariant tokens == ts && Level() == lv && ArgsMore(ts, pos, lv, result, fl') == target
        invariant ctx.uses == old(ctx.uses) + fl'
        decreases |tokens| - pos
      {
        var w := NextArg(result, fl');
        UnionAssoc(old(ctx.uses), fl', w.flags);
        if w.Fail? {
          return Fail(fl' + w.flags);
        }
        result, fl' := result + [w.value], fl' + w.flags;
      }
      ArgsMoreStop(ts, pos, lv, result, fl');
      r := Ok(result, pos, fl');
    }

    /** A ',' and the variable after it: one step of the argument tail
        that began with `acc` and the flags `fl`. */
    method NextArg(ghost acc: seq<Var>, ghost fl: set<UseFlag>) returns (w: Res<Var>)
      requires PunctAt(tokens, pos, ',')
      modifies this`pos, ctx`uses
      ensures w.Fail? ==> ArgsMore(tokens, old(pos), Level(), acc, fl) == Fail(fl + w.flags)
      ensures w.Ok? ==> ArgsMore(tokens, old(pos), Level(), acc, fl) == ArgsMore(tokens, pos, Level(), acc + [w.value], fl + w.flags)
      ensures ctx.uses == old(ctx.uses) + w.flags && (w.Ok? ==> old(pos) < pos)
    {
      ghost var p := pos;
      var _ := Advance();
      w := ParseVar();
      ArgsMoreStep(tokens, p, Level(), acc, fl, w);
    }

    method ParseVar() returns (r: Res<Var>)
      modifies this`pos, ctx`uses
      ensures r == VarAt(tokens, old(pos), Level()) && (r.Ok? ==> pos == r.next)
      ensures ctx.uses == old(ctx.uses) + r.flags
    {
      var dev := Devicespec();
      var io := Iospec();
      var bt, ok := Expect(ID);
      if !ok {
        return Fail({});
      }
      var base := ctx.PromoteInt(bt.value);
      r := VarRest(dev, io, base, PromoteFlags(Level(), bt.value));
    }

    /** What follows a variable's base type, whose flags `fl` are
        already recorded. */
    method VarRest(dev: char, io: char, base: string, fl: set<UseFlag>) returns (r: Res<Var>)
      modifies this`pos
      ensures r == VarRestAt(tokens, old(pos), dev, io, base, fl) && (r.Ok? ==> pos == r.next)
    {
      if QualAhead(tokens, pos) {
        var q := ParseQuals();
        if q.Fail? {
          return Fail(fl);
        }
        var name := NameOrLiteral();
        if name.Fail? {
          return Fail(fl);
        }
        return Ok(NewVar(dev, io, base, Some(q.value), name.value), pos, fl);
      }
      var name := NameOrLiteral();
      if name.Fail? {
        return Fail(fl);
      }
      if PunctAt(tokens, pos, '[') {
        var q := ParseAqual();
        if q.Fail? {
          return Fail(fl);
        }
        return Ok(NewVar(dev, io, base, Some(q.value), name.value), pos, fl);
      }
      r := Ok(NewVar(dev, io, base, None, name.value), pos, fl);
    }

    method NameOrLiteral() returns (r: Res<string>)
      modifies this`pos
      ensures r == NameAt(tokens, old(pos)) && (r.Ok? ==> pos == r.next)
    {
      var t := Peek(tokens, pos);
      if t.ttype == ID || t.ttype == NUMBER || t.ttype == STRING {
        var _ := Advance();
        return Ok(t.value, pos, {});
      }
      r := Fail({});
    }

    method Devicespec() returns (c: char)
      modifies this`pos
      ensures (c, pos) == DeviceAt(tokens, old(pos))
    {
      var t := Peek(tokens, pos);
      if t.ttype == CPU {
        var _ := Advance();
        return 'c';
      }
      if t.ttype == GPU {
        var _ := Advance();
        return 'g';
      }
      c := 'c';
    }

    method Iospec() returns (c: char)
      modifies this`pos
      ensures (c, pos) == IoAt(tokens, old(pos))
    {
      var t := Peek(tokens, pos);
      if t.ttype == INPUT || t.ttype == OUTPUT || t.ttype == INOUT {
        var _ := Advance();
        return if t.ttype == INPUT then 'i' else if t.ttype == OUTPUT then 'o' else 'b';
      }
      c := 'i';
    }

    method ParseQuals() returns (r: Res<TypeQual>)
      modifies this`pos
      ensures r == QualsAt(tokens, old(pos)) && (r.Ok? ==> pos == r.next)
    {
      if PunctAt(tokens, pos, '*') {
        var _ := Advance();
        return Ok(TypeQual(Ptr, []), pos, {});
      }
      if PunctAt(tokens, pos, '&') {
        var _ := Advance();
        return Ok(TypeQual(Ref, []), pos, {});
      }
      r := ParseAqual();
    }

    method ParseAqual() returns (r: Res<TypeQual>)
      modifies this`pos
      ensures r == AqualAt(tokens, old(pos)) && (r.Ok? ==> pos == r.next)
    {
      var es := Arrayspec();
      if es.Fail? {
        return Fail({});
      }
      if PunctAt(tokens, pos, '&') {
        var _ := Advance();
        return Ok(TypeQual(ArrRef, es.value), pos, {});
      }
      r := Ok(TypeQual(Arr, es.value), pos, {});
    }

    method Arrayspec() returns (r: Res<seq<Expr>>)
      modifies this`pos
      ensures r == ArrayspecAt(tokens, old(pos)) && (r.Ok? ==> pos == r.next)
    {
      var ok := ExpectPunct('[');
      if !ok {
        return Fail({});
      }
      var es := ParseExprs();
      if es.Fail? {
        return Fail({});
      }
      ok := ExpectPunct(']');
      if !ok {
        return Fail({});
      }
      r := Ok(es.value, pos, {});
    }

    method ParseExprs() returns (r: Res<seq<Expr>>)
      modifies this`pos
      ensures r == ExprsAt(tokens, old(pos)) && (r.Ok? ==> pos == r.next)
    {
      if PunctAt(tokens, pos, ']') {
        return Ok([], pos, {});
      }
      var e := ParseExpr();
      if e.Fail? {
        return Fail({});
      }
      var result := [e.value];
      while PunctAt(tokens, pos, ',')
        invariant ExprsMore(tokens, pos, result) == ExprsAt(tokens, old(pos))
        decreases |tokens| - pos
      {
        var _ := Advance();
        var e := ParseExpr();
        if e.Fail? {
          return Fail({});
        }
        result := result + [e.value];
      }
      r := Ok(result, pos, {});
    }

    method ParseExpr() returns (r: Res<Expr>)
      modifies this`pos
      ensures r == ExprAt(tokens, old(pos)) && (r.Ok? ==> pos == r.next)
    {
      var t := Peek(tokens, pos);
      if t.ttype == ID || t.ttype == NUMBER {
        var _ := Advance();
        return Ok(Expr(t.value, -1), pos, {});
      }
      r := Fail({});
    }

    method ParseBaseVar() returns (r: Res<Var>)
      modifies this`pos, ctx`uses
      ensures r == BaseVarAt(tokens, old(pos), Level()) && (r.Ok? ==> pos == r.next)
      ensures ctx.uses == old(ctx.uses) + r.flags
    {
      var bt, ok := Expect(ID);
      if !ok {
        return Fail({});
      }
      var base := ctx.PromoteInt(bt.value);
      var fl := PromoteFlags(Level(), bt.value);
      if QualAhead(tokens, pos) {
        var q := ParseQuals();
        if q.Fail? {
          return Fail(fl);
        }
        var name, ok := Expect(ID);
        if !ok {
          return Fail(fl);
        }
        return Ok(NewVar('c', 'o', base, Some(q.value), name.value), pos, fl);
      }
      var name, ok2 := Expect(ID);
      if !ok2 {
        return Fail(fl);
      }
      if PunctAt(tokens, pos, '[') {
        var q := ParseAqual();
        if q.Fail? {
          return Fail(fl);
        }
        return Ok(NewVar('c', 'o', base, Some(q.value), name.value), pos, fl);
      }
      r := Ok(NewVar('c', 'o', base, None, name.value), pos, fl);
    }

    // -------------------------------------------------------------------
    // Completed calls
    // -------------------------------------------------------------------

    /** Numbers, analyses and records a completed call. */
    method FinishFunc(fc: Func, ghost s: PState)
      requires State() == s
      modifies this`funcs, this`funcId, this`lookup, this`typeErrs, this`stubbed, ctx`uses
      ensures State() == Finished(s, fc, writeStubs)
    {
      var f := fc.(id := funcId + 1);
      assert f == Numbered(s, fc);
      var g, errs, _ := Typecheck.Typecheck(ctx.Reg(), f);
      assert Finished(s, fc, writeStubs) == Recorded(s, g, errs, writeStubs);
      Record(g, errs);
    }

    /** Takes the next id for an analysed call, counts its errors, writes
        its stub and adds it to the list. */
    method Record(g: Func, errs: nat)
      modifies this`funcs, this`funcId, this`lookup, this`typeErrs, this`stubbed, ctx`uses
      ensures State() == Recorded(old(State()), g, errs, writeStubs)
    {
      funcId := funcId + 1;
      typeErrs := typeErrs + errs;
      if writeStubs {
        stubbed := stubbed + [g];
      }
      AddFunc(g);
    }

    /** Adds an analysed call under its signature, or records it as a
        duplicate of the first call with that signature; computing the
        signature records the flags of every base type. */
    method AddFunc(g: Func)
      modifies this`funcs, this`lookup, ctx`uses
      ensures (funcs, lookup) == Added(old(funcs), old(lookup), Level(), g)
      ensures ctx.uses == old(ctx.uses) + IdFlags(Level(), g.ret) + IdFlags(Level(), g.args)
    {
      var lv := Level();
      ctx.uses := ctx.uses + IdFlags(lv, g.ret) + IdFlags(lv, g.args);
      var ids := IdString(lv, g);
      if ids in lookup && lookup[ids] < |funcs| {
        var i := lookup[ids];
        funcs := funcs[i := funcs[i].(same := funcs[i].same + [g])];
      } else {
        funcs := funcs + [g];
        lookup := lookup[ids := |funcs| - 1];
      }
    }
  }
}
