// Semantic analysis of one declaration: slot labelling, classification
// of every variable into a category, validation of the return value and
// the arguments, and the FORTRAN pass-by-address rewriting. Each pass
// returns the updated variables together with the number of errors it
// found.

module Typecheck {
  import opened Ast

  // ---------------------------------------------------------------------
  // Slot labelling: closed form
  // ---------------------------------------------------------------------

  /** The number of variables read from the caller. */
  function CountIn(vs: seq<Var>): nat
    decreases |vs|
  {
    if vs == [] then 0
    else CountIn(vs[..|vs| - 1]) + (if IsInputDir(vs[|vs| - 1].iospec) then 1 else 0)
  }

  /** The number of variables written back to the caller. */
  function CountOut(vs: seq<Var>): nat
    decreases |vs|
  {
    if vs == [] then 0
    else CountOut(vs[..|vs| - 1]) + (if IsOutputDir(vs[|vs| - 1].iospec) then 1 else 0)
  }

  /** The number of dimension expressions. */
  function CountDims(vs: seq<Var>): nat
    decreases |vs|
  {
    if vs == [] then 0 else CountDims(vs[..|vs| - 1]) + |Dims(vs[|vs| - 1])|
  }

  /** Dimension expressions numbered consecutively from `start`. */
  function LabelDims(es: seq<Expr>, start: int): seq<Expr>
  {
    seq(|es|, m requires 0 <= m < |es| => es[m].(inputLabel := start + m))
  }

  function LabelQual(q: Option<TypeQual>, start: int): Option<TypeQual>
  {
    if q.None? then None else Some(q.value.(args := LabelDims(q.value.args, start)))
  }

  /** A variable given input slot `i` if it is read and output slot `o`
      if it is written. */
  function SlotVar(v: Var, i: int, o: int): Var
  {
    v.(inputLabel := if IsInputDir(v.iospec) then i else v.inputLabel,
       outputLabel := if IsOutputDir(v.iospec) then o else v.outputLabel)
  }

  /** Each variable's slots are the numbers of read and of written
      variables before it, counted from `i0` and `o0`. */
  function SlotList(vs: seq<Var>, i0: int, o0: int): (ws: seq<Var>)
    ensures |ws| == |vs|
    decreases |vs|
  {
    if vs == [] then []
    else
      var n := |vs| - 1;
      SlotList(vs[..n], i0, o0) + [SlotVar(vs[n], i0 + CountIn(vs[..n]), o0 + CountOut(vs[..n]))]
  }

  /** Each variable's dimensions are numbered after all the dimensions
      before it, counted from `d0`. */
  function DimList(vs: seq<Var>, d0: int): (ws: seq<Var>)
    ensures |ws| == |vs|
    decreases |vs|
  {
    if vs == [] then []
    else
      var n := |vs| - 1;
      DimList(vs[..n], d0) + [vs[n].(qual := LabelQual(vs[n].qual, d0 + CountDims(vs[..n])))]
  }

  /** Input slot 0 belongs to the bound object when there is one. */
  function FirstInput(f: Func): nat
  {
    if f.thisv.Some? then 1 else 0
  }

  /** The first input slot given to a dimension expression: after every
      read variable of the return and of the arguments. */
  function FirstDimSlot(f: Func): nat
  {
    FirstInput(f) + CountIn(f.ret) + CountIn(f.args)
  }

  /** The first input slot and first dimension slot of the arguments:
      right after the return variable's. */
  function ArgFirstInput(f: Func): nat
  {
    FirstInput(f) + CountIn(f.ret)
  }

  function ArgFirstDim(f: Func): nat
  {
    FirstDimSlot(f) + CountDims(f.ret)
  }

  /** The declaration after slot assignment, in closed form: variables
      first (return, then arguments), then the dimension expressions
      (the return's, then the arguments'). */
  function Labelled(f: Func): Func
  {
    var i0 := FirstInput(f);
    var d0 := FirstDimSlot(f);
    f.(ret := DimList(SlotList(f.ret, i0, 0), d0),
       args := DimList(SlotList(f.args, ArgFirstInput(f), CountOut(f.ret)), ArgFirstDim(f)))
  }

  // ---------------------------------------------------------------------
  // Slot labelling: the passes
  // ---------------------------------------------------------------------

  /** Numbers a list of dimension expressions from `icount`. */
  method LabelDimArgsExpr(es: seq<Expr>, icount: int) returns (ls: seq<Expr>, next: int)
    ensures ls == LabelDims(es, icount) && next == icount + |es|
  {
    ls, next := [], icount;
    var k := 0;
    while k < |es|
      invariant 0 <= k <= |es| && next == icount + k
      invariant |ls| == k && forall m :: 0 <= m < k ==> ls[m] == es[m].(inputLabel := icount + m)
    {
      ls := ls + [es[k].(inputLabel := next)];
      next := next + 1;
      k := k + 1;
    }
  }

  /** Numbers the dimensions of each qualified variable in turn. */
  method LabelDimArgsVar(vs: seq<Var>, icount: int) returns (ws: seq<Var>, next: int)
    ensures ws == DimList(vs, icount) && next == icount + CountDims(vs)
  {
    ws, next := [], icount;
    var k := 0;
    while k < |vs|
      invariant 0 <= k <= |vs| && next == icount + CountDims(vs[..k])
      invariant ws == DimList(vs[..k], icount)
    {
      var v := vs[k];
      assert vs[..k + 1][..k] == vs[..k];
      if v.qual.Some? {
        var ls;
        ls, next := LabelDimArgsExpr(v.qual.value.args, next);
        v := v.(qual := Some(v.qual.value.(args := ls)));
      }
      ws := ws + [v];
      k := k + 1;
    }
    assert vs[..k] == vs;
  }

  /** Gives each read variable the next input slot and each written
      variable the next output slot. */
  method LabelArgsVar(vs: seq<Var>, icount: int, ocount: int) returns (ws: seq<Var>, inext: int, onext: int)
    ensures ws == SlotList(vs, icount, ocount)
    ensures inext == icount + CountIn(vs) && onext == ocount + CountOut(vs)
  {
    ws, inext, onext := [], icount, ocount;
    var k := 0;
    while k < |vs|
      invariant 0 <= k <= |vs|
      invariant inext == icount + CountIn(vs[..k]) && onext == ocount + CountOut(vs[..k])
      invariant ws == SlotList(vs[..k], icount, ocount)
    {
      var v := vs[k];
      assert vs[..k + 1][..k] == vs[..k];
      if IsInputDir(v.iospec) {
        v := v.(inputLabel := inext);
        inext := inext + 1;
      }
      if IsOutputDir(v.iospec) {
        v := v.(outputLabel := onext);
        onext := onext + 1;
      }
      ws := ws + [v];
      k := k + 1;
    }
    assert vs[..k] == vs;
  }

  /** Assigns every slot of a declaration. */
  method LabelArgs(f: Func) returns (g: Func)
    ensures g == Labelled(f)
  {
    var icount := if f.thisv.Some? then 1 else 0;
    var ocount := 0;
    var ret, args;
    ret, icount, ocount := LabelArgsVar(f.ret, icount, ocount);
    assert icount == ArgFirstInput(f) && ocount == CountOut(f.ret);
    args, icount, ocount := LabelArgsVar(f.args, icount, ocount);
    assert icount == FirstDimSlot(f);
    ret, icount := LabelDimArgsVar(ret, icount);
    assert icount == ArgFirstDim(f) by {
      SlotListKeeps(f.ret, FirstInput(f), 0);
    }
    args, icount := LabelDimArgsVar(args, icount);
    g := f.(ret := ret, args := args);
  }

  // ---------------------------------------------------------------------
  // Slot labelling: properties
  // ---------------------------------------------------------------------

  /** `s` is lo, lo+1, ..., lo+n-1: n consecutive slots from lo. */
  predicate IsRun(s: seq<int>, lo: int, n: nat)
  {
    |s| == n && forall j :: 0 <= j < n ==> s[j] == lo + j
  }

  lemma RunAppend(a: seq<int>, b: seq<int>, lo: int, n: nat, m: nat)
    requires IsRun(a, lo, n) && IsRun(b, lo + n, m)
    ensures IsRun(a + b, lo, n + m)
  {
  }

  /** The input slots of the read variables, in order. */
  function InLabels(vs: seq<Var>): seq<int>
    decreases |vs|
  {
    if vs == [] then []
    else InLabels(vs[..|vs| - 1]) + (if IsInputDir(vs[|vs| - 1].iospec) then [vs[|vs| - 1].inputLabel] else [])
  }

  /** The output slots of the written variables, in order. */
  function OutLabels(vs: seq<Var>): seq<int>
    decreases |vs|
  {
    if vs == [] then []
    else OutLabels(vs[..|vs| - 1]) + (if IsOutputDir(vs[|vs| - 1].iospec) then [vs[|vs| - 1].outputLabel] else [])
  }

  function ExprLabels(es: seq<Expr>): seq<int>
  {
    seq(|es|, m requires 0 <= m < |es| => es[m].inputLabel)
  }

  /** The input slots of all dimension expressions, in order. */
  function DimLabels(vs: seq<Var>): seq<int>
    decreases |vs|
  {
    if vs == [] then [] else DimLabels(vs[..|vs| - 1]) + ExprLabels(Dims(vs[|vs| - 1]))
  }

  /** Every input slot of a declaration except the bound object's, in
      the order they are assigned. */
  function InputSlots(f: Func): seq<int>
  {
    InLabels(f.ret) + InLabels(f.args) + DimLabels(f.ret) + DimLabels(f.args)
  }

  function OutputSlots(f: Func): seq<int>
  {
    OutLabels(f.ret) + OutLabels(f.args)
  }

  /** The slot pass keeps the dimensions. */
  lemma {:induction false} SlotListKeeps(vs: seq<Var>, i0: int, o0: int)
    ensures CountDims(SlotList(vs, i0, o0)) == CountDims(vs)
    decreases |vs|
  {
    if vs != [] {
      var n := |vs| - 1;
      var ws := SlotList(vs, i0, o0);
      SlotListKeeps(vs[..n], i0, o0);
      assert ws[..n] == SlotList(vs[..n], i0, o0);
    }
  }

  /** The dimension pass keeps the variable slots. */
  lemma {:induction false} DimListKeeps(vs: seq<Var>, d0: int)
    ensures InLabels(DimList(vs, d0)) == InLabels(vs) && OutLabels(DimList(vs, d0)) == OutLabels(vs)
    decreases |vs|
  {
    if vs != [] {
      var n := |vs| - 1;
      var ws := DimList(vs, d0);
      DimListKeeps(vs[..n], d0);
      assert ws[..n] == DimList(vs[..n], d0);
    }
  }

  lemma {:induction false} InLabelsOfSlotList(vs: seq<Var>, i0: int, o0: int)
    ensures IsRun(InLabels(SlotList(vs, i0, o0)), i0, CountIn(vs))
    ensures IsRun(OutLabels(SlotList(vs, i0, o0)), o0, CountOut(vs))
    decreases |vs|
  {
    if vs != [] {
      var n := |vs| - 1;
      var ws := SlotList(vs, i0, o0);
      InLabelsOfSlotList(vs[..n], i0, o0);
      assert ws[..n] == SlotList(vs[..n], i0, o0);
    }
  }

  lemma LabelQualDims(q: Option<TypeQual>, start: int)
    ensures var d := if q.Some? then q.value.args else [];
            IsRun(ExprLabels(if q.Some? then LabelQual(q, start).value.args else []), start, |d|)
  {
  }

  lemma {:induction false} DimLabelsOfDimList(vs: seq<Var>, d0: int)
    ensures IsRun(DimLabels(DimList(vs, d0)), d0, CountDims(vs))
    decreases |vs|
  {
    if vs != [] {
      var n := |vs| - 1;
      var ws := DimList(vs, d0);
      var start := d0 + CountDims(vs[..n]);
      assert IsRun(DimLabels(ws[..n]), d0, CountDims(vs[..n])) by {
        DimLabelsOfDimList(vs[..n], d0);
        assert ws[..n] == DimList(vs[..n], d0);
      }
      assert IsRun(ExprLabels(Dims(ws[n])), start, |Dims(vs[n])|) by {
        LabelQualDims(vs[n].qual, start);
      }
      RunAppend(DimLabels(ws[..n]), ExprLabels(Dims(ws[n])), d0, CountDims(vs[..n]), |Dims(vs[n])|);
    }
  }

  /** The input slots form one contiguous run that starts right after the
      bound object's slot, with no slot used twice; the output slots form
      one contiguous run from 0. */
  lemma LabelsContiguous(f: Func)
    ensures IsRun(InputSlots(Labelled(f)), FirstInput(f), CountIn(f.ret) + CountIn(f.args) + CountDims(f.ret) + CountDims(f.args))
    ensures IsRun(OutputSlots(Labelled(f)), 0, CountOut(f.ret) + CountOut(f.args))
  {
    ListsContiguous(f.ret, f.args, Labelled(f).ret, Labelled(f).args, FirstInput(f), FirstDimSlot(f),
                    ArgFirstInput(f), CountOut(f.ret), ArgFirstDim(f));
  }

  /** The same, for a return list and an argument list labelled one
      after the other; (i1, o1, d1) are where the argument list starts. */
  lemma ListsContiguous(ret: seq<Var>, args: seq<Var>, wr: seq<Var>, wa: seq<Var>, i0: int, d0: int, i1: int, o1: int, d1: int)
    requires i1 == i0 + CountIn(ret) && o1 == CountOut(ret)
    requires d0 == i1 + CountIn(args) && d1 == d0 + CountDims(ret)
    requires wr == DimList(SlotList(ret, i0, 0), d0)
    requires wa == DimList(SlotList(args, i1, o1), d1)
    ensures IsRun(InLabels(wr) + InLabels(wa) + DimLabels(wr) + DimLabels(wa), i0,
                  CountIn(ret) + CountIn(args) + CountDims(ret) + CountDims(args))
    ensures IsRun(OutLabels(wr) + OutLabels(wa), 0, CountOut(ret) + CountOut(args))
  {
    ListLabels(ret, wr, i0, 0, d0);
    ListLabels(args, wa, i1, o1, d1);
    FourRuns(InLabels(wr), InLabels(wa), DimLabels(wr), DimLabels(wa), i0, CountIn(ret), CountIn(args), CountDims(ret), CountDims(args));
    RunAppend(OutLabels(wr), OutLabels(wa), 0, CountOut(ret), CountOut(args));
  }

  lemma FourRuns(a: seq<int>, b: seq<int>, c: seq<int>, d: seq<int>, lo: int, na: nat, nb: nat, nc: nat, nd: nat)
    requires IsRun(a, lo, na) && IsRun(b, lo + na, nb) && IsRun(c, lo + na + nb, nc) && IsRun(d, lo + na + nb + nc, nd)
    ensures IsRun(a + b + c + d, lo, na + nb + nc + nd)
  {
    RunAppend(a, b, lo, na, nb);
    RunAppend(a + b, c, lo, na + nb, nc);
    RunAppend(a + b + c, d, lo, na + nb + nc, nd);
  }

  /** The slots of one labelled list. */
  lemma ListLabels(vs: seq<Var>, ws: seq<Var>, i0: int, o0: int, d0: int)
    requires ws == DimList(SlotList(vs, i0, o0), d0)
    ensures IsRun(InLabels(ws), i0, CountIn(vs)) && IsRun(OutLabels(ws), o0, CountOut(vs))
    ensures IsRun(DimLabels(ws), d0, CountDims(vs))
  {
    var sl := SlotList(vs, i0, o0);
    InLabelsOfSlotList(vs, i0, o0);
    DimListKeeps(sl, d0);
    assert CountDims(sl) == CountDims(vs) by {
      SlotListKeeps(vs, i0, o0);
    }
    DimLabelsOfDimList(sl, d0);
  }

  /** A freshly parsed variable has no slots yet. */
  predicate Unlabelled(v: Var)
  {
    v.inputLabel == -1 && v.outputLabel == -1
  }

  /** A variable whose input slot is set iff it is read and whose output
      slot is set iff it is written. */
  predicate SlotsMatchDirection(v: Var)
  {
    (IsInputDir(v.iospec) <==> v.inputLabel != -1) && (IsOutputDir(v.iospec) <==> v.outputLabel != -1)
  }

  /** Labelling leaves the input slot of a write-only variable and the
      output slot of a read-only variable unset, and sets every other. */
  lemma UnusedSlotsStayUnset(f: Func)
    requires forall k :: 0 <= k < |f.ret| ==> Unlabelled(f.ret[k])
    requires forall k :: 0 <= k < |f.args| ==> Unlabelled(f.args[k])
    ensures forall k :: 0 <= k < |Labelled(f).ret| ==> SlotsMatchDirection(Labelled(f).ret[k])
    ensures forall k :: 0 <= k < |Labelled(f).args| ==> SlotsMatchDirection(Labelled(f).args[k])
  {
    ListSlotsUnset(f.ret, Labelled(f).ret, FirstInput(f), 0, FirstDimSlot(f));
    ListSlotsUnset(f.args, Labelled(f).args, ArgFirstInput(f), CountOut(f.ret), ArgFirstDim(f));
  }

  lemma ListSlotsUnset(vs: seq<Var>, ws: seq<Var>, i0: int, o0: int, d0: int)
    requires ws == DimList(SlotList(vs, i0, o0), d0)
    requires i0 >= 0 && o0 >= 0 && forall k :: 0 <= k < |vs| ==> Unlabelled(vs[k])
    ensures forall k :: 0 <= k < |ws| ==> SlotsMatchDirection(ws[k])
  {
    forall k | 0 <= k < |ws|
      ensures SlotsMatchDirection(ws[k])
    {
      ListSlotAt(vs, ws, i0, o0, d0, k);
    }
  }

  /** The k-th variable of one labelled list. */
  lemma ListSlotAt(vs: seq<Var>, ws: seq<Var>, i0: int, o0: int, d0: int, k: nat)
    requires ws == DimList(SlotList(vs, i0, o0), d0) && k < |vs|
    ensures ws[k].iospec == vs[k].iospec
    ensures ws[k].inputLabel == if IsInputDir(vs[k].iospec) then i0 + CountIn(vs[..k]) else vs[k].inputLabel
    ensures ws[k].outputLabel == if IsOutputDir(vs[k].iospec) then o0 + CountOut(vs[..k]) else vs[k].outputLabel
  {
    SlotListAt(vs, i0, o0, k);
    DimListAt(SlotList(vs, i0, o0), d0, k);
  }

  lemma {:induction false} SlotListAt(vs: seq<Var>, i0: int, o0: int, k: nat)
    requires k < |vs|
    ensures SlotList(vs, i0, o0)[k] == vs[k].(inputLabel := SlotList(vs, i0, o0)[k].inputLabel, outputLabel := SlotList(vs, i0, o0)[k].outputLabel)
    ensures SlotList(vs, i0, o0)[k].inputLabel == if IsInputDir(vs[k].iospec) then i0 + CountIn(vs[..k]) else vs[k].inputLabel
    ensures SlotList(vs, i0, o0)[k].outputLabel == if IsOutputDir(vs[k].iospec) then o0 + CountOut(vs[..k]) else vs[k].outputLabel
    decreases |vs|
  {
    var n := |vs| - 1;
    if k < n {
      SlotListAt(vs[..n], i0, o0, k);
      assert vs[..n][..k] == vs[..k];
    }
  }

  lemma {:induction false} DimListAt(vs: seq<Var>, d0: int, k: nat)
    requires k < |vs|
    ensures DimList(vs, d0)[k] == vs[k].(qual := DimList(vs, d0)[k].qual)
    decreases |vs|
  {
    var n := |vs| - 1;
    if k < n {
      DimListAt(vs[..n], d0, k);
    }
  }

  // ---------------------------------------------------------------------
  // Classification
  // ---------------------------------------------------------------------

  /** A variable after a pass, and the errors the pass reported for it. */
  datatype Checked = Checked(v: Var, errs: nat)

  /** Classifies a numeric variable into one of the five categories of
      its family; more than two dimensions, or an array reference to a
      complex family (`tagar` is Unk), is an error. */
  function ScalarTinfo(v: Var, tags: VT, tagp: VT, tagr: VT, taga: VT, tagar: VT): Checked
  {
    if v.qual.None? then Checked(v.(tinfo := tags), 0)
    else match v.qual.value.qual
      case Ptr => Checked(v.(tinfo := tagp), 0)
      case Ref => Checked(v.(tinfo := tagr), 0)
      case Arr => Checked(v.(tinfo := taga), if |v.qual.value.args| > 2 then 1 else 0)
      case ArrRef => Checked(v.(tinfo := tagar), if tagar == Unk || |v.qual.value.args| > 2 then 1 else 0)
  }

  /** The text with every single quote removed. */
  function StripQuotes(s: string): (r: string)
    ensures '\'' !in r
    ensures |r| <= |s|
    ensures '\'' !in s ==> r == s
  {
    if s == [] then []
    else (if s[0] == '\'' then [] else [s[0]]) + StripQuotes(s[1..])
  }

  /** A constant's literal, without its quotes when it is quoted. */
  function ConstName(name: string): string
  {
    if |name| > 0 && name[0] == '\'' then StripQuotes(name) else name
  }

  /** Classifies a variable by its base type and qualifier. The scalar
      registries are consulted first, then the reserved names "const",
      "cstring" and "mxArray"; every other type is an object type. */
  function AssignTinfo(reg: Registry, v: Var): (r: Checked)
    ensures r.errs <= 1
    ensures r.errs == 0 ==> r.v.tinfo != Unk
    ensures r.v == v.(tinfo := r.v.tinfo, name := r.v.name)
    ensures r.v.name != v.name ==> v.basetype == "const" && r.v.tinfo == Const
  {
    var bt := v.basetype;
    if bt in reg.scalars then ScalarTinfo(v, Scalar, PScalar, RScalar, Array, RArray)
    else if bt in reg.cscalars then ScalarTinfo(v, CScalar, PCScalar, RCScalar, CArray, Unk)
    else if bt in reg.zscalars then ScalarTinfo(v, ZScalar, PZScalar, RZScalar, ZArray, Unk)
    else if bt == "const" then
      if v.qual.Some? then Checked(v, 1)
      else Checked(v.(tinfo := Const, name := ConstName(v.name)), 0)
    else if bt == "cstring" then
      if v.qual.Some? && v.qual.value.qual != Arr then Checked(v, 1)
      else if v.qual.Some? && |v.qual.value.args| > 1 then Checked(v, 1)
      else Checked(v.(tinfo := String), 0)
    else if bt == "mxArray" then
      if v.qual.Some? then Checked(v, 1) else Checked(v.(tinfo := Mx), 0)
    else if v.qual.None? then Checked(v.(tinfo := Obj), 0)
    else match v.qual.value.qual
      case Ptr => Checked(v.(tinfo := PObj), 0)
      case Ref => Checked(v.(tinfo := RObj), 0)
      case _ => Checked(v, 1)
  }

  /** Classifying an already classified variable changes nothing more:
      the category, the (unquoted) literal and the error count agree. */
  lemma AssignTinfoIdempotent(reg: Registry, v: Var)
    ensures AssignTinfo(reg, AssignTinfo(reg, v).v) == AssignTinfo(reg, v)
  {
    var w := AssignTinfo(reg, v).v;
    if v.basetype == "const" && v.basetype !in reg.scalars && v.basetype !in reg.cscalars &&
       v.basetype !in reg.zscalars && v.qual.None? {
      assert ConstName(w.name) == w.name;
    }
  }

  // A reference table for classification: the family a base type
  // belongs to and the category each qualifier gives within it.

  datatype Family = Real | SingleComplex | DoubleComplex | Constant | CString | MxArray | Object

  function FamilyOf(reg: Registry, bt: string): Family
  {
    if bt in reg.scalars then Real
    else if bt in reg.cscalars then SingleComplex
    else if bt in reg.zscalars then DoubleComplex
    else if bt == "const" then Constant
    else if bt == "cstring" then CString
    else if bt == "mxArray" then MxArray
    else Object
  }

  predicate Numeric(fam: Family)
  {
    fam == Real || fam == SingleComplex || fam == DoubleComplex
  }

  /** The category lattice: rows are families, columns are "no
      qualifier", '*', '&', array and array reference; Unk marks an
      illegal combination. */
  function Lattice(fam: Family, q: Option<QualKind>): VT
  {
    match fam
    case Real => (if q.None? then Scalar else match q.value case Ptr => PScalar case Ref => RScalar case Arr => Array case ArrRef => RArray)
    case SingleComplex => (if q.None? then CScalar else match q.value case Ptr => PCScalar case Ref => RCScalar case Arr => CArray case ArrRef => Unk)
    case DoubleComplex => (if q.None? then ZScalar else match q.value case Ptr => PZScalar case Ref => RZScalar case Arr => ZArray case ArrRef => Unk)
    case Constant => if q.None? then Const else Unk
    case CString => if q.None? || q.value == Arr then String else Unk
    case MxArray => if q.None? then Mx else Unk
    case Object => (if q.None? then Obj else match q.value case Ptr => PObj case Ref => RObj case _ => Unk)
  }

  function KindOf(q: Option<TypeQual>): Option<QualKind>
  {
    if q.None? then None else Some(q.value.qual)
  }

  /** The qualifier errors: a combination outside the lattice, more than
      two dimensions on a numeric array, more than one on a string. */
  predicate IllegalQual(fam: Family, q: Option<TypeQual>)
  {
    Lattice(fam, KindOf(q)) == Unk ||
    (Numeric(fam) && q.Some? && (q.value.qual == Arr || q.value.qual == ArrRef) && |q.value.args| > 2) ||
    (fam == CString && q.Some? && |q.value.args| > 1)
  }

  /** Classification follows the lattice; each illegal qualifier costs
      exactly one error; a numeric variable takes its lattice category even
      when in error, any other keeps the category it had. */
  lemma AssignTinfoLattice(reg: Registry, v: Var)
    ensures var fam := FamilyOf(reg, v.basetype);
            var r := AssignTinfo(reg, v);
            r.errs == (if IllegalQual(fam, v.qual) then 1 else 0) &&
            (!IllegalQual(fam, v.qual) || Numeric(fam) ==> r.v.tinfo == Lattice(fam, KindOf(v.qual))) &&
            (IllegalQual(fam, v.qual) && !Numeric(fam) ==> r.v.tinfo == v.tinfo)
  {
  }

  // ---------------------------------------------------------------------
  // Validation
  // ---------------------------------------------------------------------

  predicate HasDims(v: Var)
  {
    v.qual.Some? && |v.qual.value.args| > 0
  }

  /** The return shapes that are rejected. */
  predicate ReturnShapeError(v: Var)
  {
    (IsArray(v.tinfo) && !HasDims(v)) || v.tinfo == Const || v.tinfo == RArray ||
    (v.tinfo == String && v.qual.Some?)
  }

  /** A pass over a list of variables and the errors it reported. */
  datatype CheckedList = CheckedList(vs: seq<Var>, errs: nat)

  /** Classifies and validates the return variable, if any. */
  function CheckReturn(reg: Registry, ret: seq<Var>): (r: CheckedList)
    ensures |r.vs| == |ret|
    ensures ret == [] ==> r.errs == 0
    ensures r.errs <= 2
    ensures ret != [] && r.errs == 0 ==>
      var t := r.vs[0].tinfo;
      t != Unk && t != Const && t != RArray && (IsArray(t) ==> HasDims(r.vs[0])) && (t == String ==> r.vs[0].qual.None?)
  {
    if ret == [] then CheckedList([], 0)
    else
      var c := AssignTinfo(reg, ret[0]);
      CheckedList(ret[0 := c.v], c.errs + (if ReturnShapeError(c.v) then 1 else 0))
  }

  predicate IsDigit(c: char) { '0' <= c <= '9' }

  /** The output-role errors; the source tests them as an else-if chain,
      so at most one of them is reported. */
  predicate OutputRoleError(reg: Registry, v: Var)
  {
    var t := v.tinfo;
    (IsObj(t) && v.basetype !in reg.mxarrays) ||
    ((IsArray(t) || t == RArray) && v.iospec == 'o' && !HasDims(v)) ||
    (t == RArray && !IsOutputDir(v.iospec)) ||
    t == Scalar || t == Const ||
    (t == String && !HasDims(v)) ||
    (t == Mx && v.iospec == 'b')
  }

  /** Classifies one argument and, unless it is input-only, checks that
      it can be written back: a numeric literal cannot, and neither can
      the variables OutputRoleError describes. */
  function CheckArg(reg: Registry, v: Var): (r: Checked)
    ensures r.v == AssignTinfo(reg, v).v
    ensures IsInOnlyDir(v.iospec) ==> r.errs == AssignTinfo(reg, v).errs
    ensures r.errs <= AssignTinfo(reg, v).errs + 2
  {
    var c := AssignTinfo(reg, v);
    if IsInOnlyDir(v.iospec) then c
    else
      var digit := |c.v.name| > 0 && IsDigit(c.v.name[0]);
      Checked(c.v, c.errs + (if digit then 1 else 0) + (if OutputRoleError(reg, c.v) then 1 else 0))
  }

  /** A numeric name on a written argument costs one error more than the
      same argument named otherwise, whatever else is wrong with it. */
  lemma DigitNameCostsOne(reg: Registry, v: Var, digitName: string)
    requires !IsInOnlyDir(v.iospec) && v.basetype != "const"
    requires |digitName| > 0 && IsDigit(digitName[0])
    requires |v.name| == 0 || !IsDigit(v.name[0])
    ensures CheckArg(reg, v.(name := digitName)).errs == CheckArg(reg, v).errs + 1
  {
    var c := AssignTinfo(reg, v);
    var d := AssignTinfo(reg, v.(name := digitName));
    assert d.v == c.v.(name := digitName) && d.errs == c.errs by {
      AssignTinfoIgnoresName(reg, v, digitName);
    }
    assert OutputRoleError(reg, d.v) == OutputRoleError(reg, c.v);
  }

  /** Only a constant's classification looks at its name. */
  lemma AssignTinfoIgnoresName(reg: Registry, v: Var, name: string)
    requires v.basetype != "const"
    ensures AssignTinfo(reg, v.(name := name)) == Checked(AssignTinfo(reg, v).v.(name := name), AssignTinfo(reg, v).errs)
  {
  }

  /** The array-reference test of the chain can never fire for a legal
      direction: it is reached only for 'o' and 'b', which are both
      written. So an input-only array reference is accepted. */
  lemma ArrayRefTestUnreachable(reg: Registry, v: Var)
    requires v.iospec == 'i' || v.iospec == 'o' || v.iospec == 'b'
    requires !IsInOnlyDir(v.iospec)
    ensures !(v.tinfo == RArray && !IsOutputDir(v.iospec))
  {
  }

  /** The total errors of the argument pass. */
  function ArgErrs(reg: Registry, args: seq<Var>): nat
    decreases |args|
  {
    if args == [] then 0 else CheckArg(reg, args[0]).errs + ArgErrs(reg, args[1..])
  }

  /** Classifies and validates every argument, accumulating the errors. */
  method TypecheckArgs(reg: Registry, args: seq<Var>) returns (out: seq<Var>, err: nat)
    ensures |out| == |args| && err == ArgErrs(reg, args)
    ensures forall k :: 0 <= k < |args| ==> out[k] == AssignTinfo(reg, args[k]).v
  {
    out, err := [], 0;
    var k := 0;
    while k < |args|
      invariant 0 <= k <= |args| && err + ArgErrs(reg, args[k..]) == ArgErrs(reg, args)
      invariant |out| == k && forall m :: 0 <= m < k ==> out[m] == AssignTinfo(reg, args[m]).v
    {
      assert args[k..][1..] == args[k + 1..];
      var c := CheckArg(reg, args[k]);
      out := out + [c.v];
      err := err + c.errs;
      k := k + 1;
    }
  }

  /** With no argument errors, every argument is classified, and a
      constant, a plain scalar and a numeric literal are input-only. */
  lemma {:induction false} ErrorFreeArgs(reg: Registry, args: seq<Var>, k: nat)
    requires ArgErrs(reg, args) == 0 && k < |args|
    ensures var w := AssignTinfo(reg, args[k]).v;
            w.tinfo != Unk &&
            (w.tinfo == Const || w.tinfo == Scalar || (|w.name| > 0 && IsDigit(w.name[0])) ==> IsInOnlyDir(args[k].iospec))
    decreases |args|
  {
    if k > 0 {
      ErrorFreeArgs(reg, args[1..], k - 1);
    }
  }

  /** The argument pass reports at least the errors of each argument. */
  lemma {:induction false} ArgErrsAtLeast(reg: Registry, args: seq<Var>, k: nat)
    requires k < |args|
    ensures ArgErrs(reg, args) >= CheckArg(reg, args[k]).errs
    decreases |args|
  {
    if k > 0 {
      ArgErrsAtLeast(reg, args[1..], k - 1);
    }
  }

  /** Every output-role test and the numeric-name test costs a written
      argument an error of its own. */
  lemma WrittenArgErrors(reg: Registry, v: Var)
    requires !IsInOnlyDir(v.iospec)
    ensures var w, e := AssignTinfo(reg, v).v, CheckArg(reg, v).errs;
            (IsObj(w.tinfo) && w.basetype !in reg.mxarrays ==> e >= 1) &&
            ((IsArray(w.tinfo) || w.tinfo == RArray) && v.iospec == 'o' && !HasDims(w) ==> e >= 1) &&
            (w.tinfo == RArray && !IsOutputDir(v.iospec) ==> e >= 1) &&
            (w.tinfo == Scalar ==> e >= 1) &&
            (w.tinfo == Const ==> e >= 1) &&
            (w.tinfo == String && !HasDims(w) ==> e >= 1) &&
            (w.tinfo == Mx && v.iospec == 'b' ==> e >= 1) &&
            (|w.name| > 0 && IsDigit(w.name[0]) ==> e >= 1)
  {
  }

  /** With no argument errors, no written argument falls under an
      output-role test or has a numeric name; conversely, one that does
      makes the error count positive. */
  lemma ErrorFreeWrittenArgs(reg: Registry, args: seq<Var>, k: nat)
    requires k < |args| && !IsInOnlyDir(args[k].iospec)
    ensures var w := AssignTinfo(reg, args[k]).v;
            ArgErrs(reg, args) == 0 ==> !OutputRoleError(reg, w) && !(|w.name| > 0 && IsDigit(w.name[0]))
    ensures var w := AssignTinfo(reg, args[k]).v;
            OutputRoleError(reg, w) || (|w.name| > 0 && IsDigit(w.name[0])) ==> ArgErrs(reg, args) >= 1
  {
    ArgErrsAtLeast(reg, args, k);
  }

  // ---------------------------------------------------------------------
  // FORTRAN linkage
  // ---------------------------------------------------------------------

  /** FORTRAN passes everything by address: value and reference scalars
      become pointer scalars; objects and array references cannot be
      passed (a string only draws a warning). */
  function FortranArg(v: Var): Checked
  {
    var t := v.tinfo;
    if IsObj(t) || t == RArray then Checked(v, 1)
    else if t == Scalar || t == RScalar then Checked(v.(tinfo := PScalar), 0)
    else if t == CScalar || t == RCScalar then Checked(v.(tinfo := PCScalar), 0)
    else if t == ZScalar || t == RZScalar then Checked(v.(tinfo := PZScalar), 0)
    else Checked(v, 0)
  }

  /** A FORTRAN routine may return only a real scalar (a complex scalar
      draws a warning, not an error). */
  function FortranRet(v: Var): (e: nat)
    ensures e <= 1
    ensures e == 0 <==> v.tinfo in {Scalar, CScalar, ZScalar}
  {
    if v.tinfo == CScalar || v.tinfo == ZScalar then 0
    else if v.tinfo != Scalar then 1
    else 0
  }

  /** The number of arguments FORTRAN cannot take. */
  function FortranErrs(args: seq<Var>): nat
    decreases |args|
  {
    if args == [] then 0 else FortranErrs(args[..|args| - 1]) + FortranArg(args[|args| - 1]).errs
  }

  /** How many of `vs` fall in one of the categories `cats`. */
  function CountOf(vs: seq<Var>, cats: set<VT>): (n: nat)
    ensures n <= |vs|
    decreases |vs|
  {
    if vs == [] then 0 else CountOf(vs[..|vs| - 1], cats) + (if vs[|vs| - 1].tinfo in cats then 1 else 0)
  }

  /** The categories FORTRAN cannot pass at all. */
  const Unpassable: set<VT> := {Obj, PObj, RObj, RArray}

  /** The category an argument is passed as to FORTRAN: value and
      reference scalars of each family become that family's pointer
      scalar, every other category stays what it was. */
  function ByAddress(t: VT): VT
  {
    match t
    case Scalar | RScalar => PScalar
    case CScalar | RCScalar => PCScalar
    case ZScalar | RZScalar => PZScalar
    case _ => t
  }

  predicate ValueOrRefScalar(t: VT)
  {
    t == Scalar || t == RScalar || t == CScalar || t == RCScalar || t == ZScalar || t == RZScalar
  }

  /** The rewrite of one argument is the by-address category, and costs an
      error exactly for the categories FORTRAN cannot pass. */
  lemma FortranArgByAddress(v: Var)
    ensures FortranArg(v).v == v.(tinfo := ByAddress(v.tinfo))
    ensures FortranArg(v).errs == if v.tinfo in Unpassable then 1 else 0
  {
  }

  /** After the rewrite no value or reference scalar is left, and only
      those categories change. */
  lemma ByAddressRemovesValueScalars(t: VT)
    ensures !ValueOrRefScalar(ByAddress(t))
    ensures !ValueOrRefScalar(t) ==> ByAddress(t) == t
  {
  }

  /** The FORTRAN error count is the number of objects and array
      references among the arguments. */
  lemma {:induction false} FortranErrsCount(args: seq<Var>)
    ensures FortranErrs(args) == CountOf(args, Unpassable)
    decreases |args|
  {
    if args != [] {
      FortranErrsCount(args[..|args| - 1]);
      FortranArgByAddress(args[|args| - 1]);
    }
  }

  /** Counting over one more element. */
  lemma CountOfStep(vs: seq<Var>, cats: set<VT>, k: nat)
    requires k < |vs|
    ensures CountOf(vs[..k + 1], cats) == CountOf(vs[..k], cats) + (if vs[k].tinfo in cats then 1 else 0)
  {
    assert vs[..k + 1][..k] == vs[..k];
  }

  lemma FortranErrsStep(args: seq<Var>, k: nat)
    requires k < |args|
    ensures FortranErrs(args[..k + 1]) == FortranErrs(args[..k]) + FortranArg(args[k]).errs
  {
    assert args[..k + 1][..k] == args[..k];
  }

  /** Rewrites every argument for FORTRAN, counts the ones it cannot pass
      and the C strings it warns about. */
  method FortranizeArgs(args: seq<Var>) returns (out: seq<Var>, err: nat, warns: nat)
    ensures |out| == |args| && err == FortranErrs(args) && warns == CountOf(args, {String})
    ensures forall k :: 0 <= k < |args| ==> out[k] == FortranArg(args[k]).v
    ensures forall k :: 0 <= k < |args| ==> out[k] == args[k].(tinfo := ByAddress(args[k].tinfo))
  {
    out, err, warns := [], 0, 0;
    var k := 0;
    while k < |args|
      invariant 0 <= k <= |args| && err == FortranErrs(args[..k]) && warns == CountOf(args[..k], {String})
      invariant |out| == k && forall m :: 0 <= m < k ==> out[m] == FortranArg(args[m]).v
    {
      FortranErrsStep(args, k);
      CountOfStep(args, {String}, k);
      var c := FortranArg(args[k]);
      out := out + [c.v];
      err := err + c.errs;
      if args[k].tinfo == String {
        warns := warns + 1;
      }
      k := k + 1;
    }
    assert args[..k] == args;
    forall m | 0 <= m < |args|
      ensures out[m] == args[m].(tinfo := ByAddress(args[m].tinfo))
    {
      FortranArgByAddress(args[m]);
    }
  }

  /** A FORTRAN routine returning a complex scalar draws a warning. */
  function FortranRetWarns(v: Var): nat
  {
    if v.tinfo == CScalar || v.tinfo == ZScalar then 1 else 0
  }

  /** The error count FORTRAN rewriting adds to a classified declaration. */
  function FortranizeErrs(f: Func): nat
  {
    if !f.fort then 0
    else FortranErrs(f.args) + (if f.ret != [] then FortranRet(f.ret[0]) else 0)
  }

  /** The warnings FORTRAN rewriting prints: one per C string argument
      and one for a complex return value. */
  function FortranizeWarns(f: Func): nat
  {
    if !f.fort then 0
    else CountOf(f.args, {String}) + (if f.ret != [] then FortranRetWarns(f.ret[0]) else 0)
  }

  function FortranizedArgs(f: Func): seq<Var>
  {
    if !f.fort then f.args
    else seq(|f.args|, k requires 0 <= k < |f.args| => FortranArg(f.args[k]).v)
  }

  // ---------------------------------------------------------------------
  // The whole analysis
  // ---------------------------------------------------------------------

  function ClassifiedArgs(reg: Registry, args: seq<Var>): seq<Var>
  {
    seq(|args|, k requires 0 <= k < |args| => AssignTinfo(reg, args[k]).v)
  }

  /** The declaration after labelling, validation and FORTRAN rewriting. */
  function Analysed(reg: Registry, f: Func): Func
  {
    var l := Labelled(f);
    var h := l.(ret := CheckReturn(reg, l.ret).vs, args := ClassifiedArgs(reg, l.args));
    h.(args := FortranizedArgs(h))
  }

  /** The error count the analysis reports. */
  function AnalysisErrors(reg: Registry, f: Func): nat
  {
    var l := Labelled(f);
    var h := l.(ret := CheckReturn(reg, l.ret).vs, args := ClassifiedArgs(reg, l.args));
    CheckReturn(reg, l.ret).errs + ArgErrs(reg, l.args) + FortranizeErrs(h)
  }

  /** The warnings the analysis prints. */
  function AnalysisWarnings(reg: Registry, f: Func): nat
  {
    var l := Labelled(f);
    FortranizeWarns(l.(ret := CheckReturn(reg, l.ret).vs, args := ClassifiedArgs(reg, l.args)))
  }

  /** Runs the analysis of one declaration. */
  method Typecheck(reg: Registry, f: Func) returns (g: Func, errs: nat, warns: nat)
    ensures g == Analysed(reg, f) && errs == AnalysisErrors(reg, f) && warns == AnalysisWarnings(reg, f)
  {
    g := LabelArgs(f);
    var r := CheckReturn(reg, g.ret);
    var args, aerr := TypecheckArgs(reg, g.args);
    g := g.(ret := r.vs, args := args);
    assert args == ClassifiedArgs(reg, Labelled(f).args);
    var ferr := 0;
    warns := 0;
    if g.fort {
      var fargs;
      fargs, ferr, warns := FortranizeArgs(g.args);
      if g.ret != [] {
        ferr := ferr + FortranRet(g.ret[0]);
        warns := warns + FortranRetWarns(g.ret[0]);
      }
      g := g.(args := fargs);
    }
    errs := r.errs + aerr + ferr;
  }

  /** Analysis rewrites only the return values and the arguments: the
      call's id, name, kind and duplicates are untouched. */
  lemma AnalysisKeepsCall(reg: Registry, f: Func)
    ensures var g := Analysed(reg, f); g == f.(ret := g.ret, args := g.args)
  {
  }

  // ---------------------------------------------------------------------
  // What analysis keeps
  // ---------------------------------------------------------------------

  /** The slot-relevant parts of a variable. */
  datatype SlotInfo = SlotInfo(iospec: char, inputLabel: int, outputLabel: int, dims: seq<Expr>)

  function Slot(v: Var): SlotInfo
  {
    SlotInfo(v.iospec, v.inputLabel, v.outputLabel, Dims(v))
  }

  predicate SameSlots(vs: seq<Var>, ws: seq<Var>)
  {
    |vs| == |ws| && forall k :: 0 <= k < |vs| ==> Slot(vs[k]) == Slot(ws[k])
  }

  lemma {:induction false} SameSlotsSameLabels(vs: seq<Var>, ws: seq<Var>)
    requires SameSlots(vs, ws)
    ensures InLabels(vs) == InLabels(ws) && OutLabels(vs) == OutLabels(ws) && DimLabels(vs) == DimLabels(ws)
    ensures CountIn(vs) == CountIn(ws) && CountDims(vs) == CountDims(ws)
    decreases |vs|
  {
    if vs != [] {
      var n := |vs| - 1;
      assert SameSlots(vs[..n], ws[..n]);
      SameSlotsSameLabels(vs[..n], ws[..n]);
      assert Slot(vs[n]) == Slot(ws[n]);
    }
  }

  /** Classification and FORTRAN rewriting touch only categories and
      constant literals: every slot the labelling assigned survives. */
  lemma AnalysisKeepsSlots(reg: Registry, f: Func)
    ensures var g, l := Analysed(reg, f), Labelled(f);
            SameSlots(g.ret, l.ret) && SameSlots(g.args, l.args) && g.thisv == f.thisv && g.id == f.id
    ensures InputSlots(Analysed(reg, f)) == InputSlots(Labelled(f))
  {
    var g, l := Analysed(reg, f), Labelled(f);
    var h := l.(ret := CheckReturn(reg, l.ret).vs, args := ClassifiedArgs(reg, l.args));
    ReturnKeepsSlots(reg, l.ret);
    ClassifyKeepsSlots(reg, l.args);
    FortranKeepsSlots(h);
    SameSlotsTrans(g.args, h.args, l.args);
    SameSlotsSameLabels(g.ret, l.ret);
    SameSlotsSameLabels(g.args, l.args);
  }

  lemma ReturnKeepsSlots(reg: Registry, ret: seq<Var>)
    ensures SameSlots(CheckReturn(reg, ret).vs, ret)
  {
    if ret != [] {
      var c := AssignTinfo(reg, ret[0]).v;
      assert Slot(c) == Slot(ret[0]);
    }
  }

  lemma ClassifyKeepsSlots(reg: Registry, vs: seq<Var>)
    ensures SameSlots(ClassifiedArgs(reg, vs), vs)
  {
    var ws := ClassifiedArgs(reg, vs);
    forall k | 0 <= k < |vs|
      ensures Slot(ws[k]) == Slot(vs[k])
    {
      var c := AssignTinfo(reg, vs[k]).v;
      assert ws[k] == c;
    }
  }

  lemma FortranKeepsSlots(h: Func)
    ensures SameSlots(FortranizedArgs(h), h.args)
  {
    if h.fort {
      var ws := FortranizedArgs(h);
      forall k | 0 <= k < |h.args|
        ensures Slot(ws[k]) == Slot(h.args[k])
      {
        assert ws[k] == FortranArg(h.args[k]).v;
      }
    }
  }

  lemma SameSlotsTrans(us: seq<Var>, vs: seq<Var>, ws: seq<Var>)
    requires SameSlots(us, vs) && SameSlots(vs, ws)
    ensures SameSlots(us, ws)
  {
    forall k | 0 <= k < |us|
      ensures Slot(us[k]) == Slot(ws[k])
    {
      assert Slot(us[k]) == Slot(vs[k]);
    }
  }

  /** The k-th analysed argument is the k-th labelled argument,
      classified and, for FORTRAN, rewritten. */
  lemma AnalysedArgAt(reg: Registry, f: Func, k: nat)
    requires k < |f.args|
    ensures var c := AssignTinfo(reg, Labelled(f).args[k]).v;
            Analysed(reg, f).args[k] == if f.fort then FortranArg(c).v else c
  {
    var l := Labelled(f);
    var h := l.(ret := CheckReturn(reg, l.ret).vs, args := ClassifiedArgs(reg, l.args));
    assert |l.args| == |f.args| && h.fort == f.fort;
    assert h.args[k] == AssignTinfo(reg, l.args[k]).v;
    assert Analysed(reg, f) == h.(args := FortranizedArgs(h));
  }

  /** No argument of an error-free declaration reports an error. */
  lemma ErrorFreeArgErrs(reg: Registry, f: Func)
    requires AnalysisErrors(reg, f) == 0
    ensures ArgErrs(reg, Labelled(f).args) == 0 && |Labelled(f).args| == |f.args|
  {
  }

  /** In an error-free declaration every constant argument is input-only. */
  lemma ErrorFreeConstantsAreInputs(reg: Registry, f: Func, k: nat)
    requires AnalysisErrors(reg, f) == 0 && k < |f.args| && Analysed(reg, f).args[k].tinfo == Const
    ensures f.args[k].iospec == 'i'
  {
    var l := Labelled(f);
    var c := AssignTinfo(reg, l.args[k]).v;
    assert c.tinfo == Const by {
      AnalysedArgAt(reg, f, k);
      if f.fort {
        FortranArgByAddress(c);
      }
    }
    ErrorFreeArgErrs(reg, f);
    ErrorFreeArgs(reg, l.args, k);
    ListSlotAt(f.args, l.args, ArgFirstInput(f), CountOut(f.ret), ArgFirstDim(f), k);
  }
}
