// The decisions of the C glue generator: how slots and sizes are named,
// which C type each variable is declared with, how each argument is
// passed, which dimension checks and releases a stub performs and in
// what order its parts come, which FORTRAN names are defined and how
// they are mangled, which copiers are instantiated, and the dispatch
// table from routine ids to stubs.

module Cgen {
  import opened Ast
  import opened Typecheck
  import Parser

  // ---------------------------------------------------------------------
  // The type property table
  // ---------------------------------------------------------------------

  /** What the generator knows about a numeric base type. */
  datatype TypeProps = TypeProps(
    mxclass: string,
    accessor: Option<string>,   // accessor of the interleaved-complex API
    isSingle: bool,             // single-precision copier variants
    scalarGetter: string,
    scalarClass: string,        // class a scalar argument must have
    directInput: bool)          // input-only arrays are read in place

  const DefaultProps := TypeProps("mxVOID_CLASS", None, false, "mxWrapGetScalar", "mxDOUBLE_CLASS", false)

  /** The table entry of a base type, if it has one. */
  function TableEntry(name: string): Option<TypeProps>
  {
    if name == "double" then Some(TypeProps("mxDOUBLE_CLASS", Some("mxGetDoubles"), false, "mxWrapGetScalar", "mxDOUBLE_CLASS", true))
    else if name == "float" then Some(TypeProps("mxSINGLE_CLASS", Some("mxGetSingles"), true, "mxWrapGetScalar_single", "mxSINGLE_CLASS", true))
    else if name == "int32_t" then Some(TypeProps("mxINT32_CLASS", Some("mxGetInt32s"), false, "mxWrapGetScalar", "mxDOUBLE_CLASS", false))
    else if name == "int64_t" then Some(TypeProps("mxINT64_CLASS", Some("mxGetInt64s"), false, "mxWrapGetScalar", "mxDOUBLE_CLASS", false))
    else if name == "uint32_t" then Some(TypeProps("mxUINT32_CLASS", Some("mxGetUint32s"), false, "mxWrapGetScalar", "mxDOUBLE_CLASS", false))
    else if name == "uint64_t" then Some(TypeProps("mxUINT64_CLASS", Some("mxGetUint64s"), false, "mxWrapGetScalar", "mxDOUBLE_CLASS", false))
    else if name == "dcomplex" then Some(TypeProps("mxDOUBLE_CLASS", Some("mxGetComplexDoubles"), false, "mxWrapGetScalar", "mxDOUBLE_CLASS", false))
    else if name == "fcomplex" then Some(TypeProps("mxSINGLE_CLASS", Some("mxGetComplexSingles"), true, "mxWrapGetScalar_single", "mxSINGLE_CLASS", false))
    else if name == "char" then Some(TypeProps("mxCHAR_CLASS", None, false, "mxWrapGetScalar_char", "mxCHAR_CLASS", false))
    else None
  }

  function Props(name: string): TypeProps
  {
    if TableEntry(name).Some? then TableEntry(name).value else DefaultProps
  }

  /** The infix that selects the single-precision copiers. */
  function CopierSuffix(name: string): string
  {
    if Props(name).isSingle then "single_" else ""
  }

  /** Only the two single-precision types use the single copiers, only
      double and float are read in place, and a type outside the table
      has no class of its own. */
  lemma PropsExact(name: string)
    ensures CopierSuffix(name) == "single_" <==> name == "float" || name == "fcomplex"
    ensures CopierSuffix(name) != "single_" ==> CopierSuffix(name) == ""
    ensures Props(name).directInput <==> name == "double" || name == "float"
    ensures TableEntry(name).None? <==> Props(name).mxclass == "mxVOID_CLASS"
    ensures TableEntry(name).None? ==> Props(name).scalarClass == "mxDOUBLE_CLASS" && Props(name).accessor.None?
  {
  }

  // ---------------------------------------------------------------------
  // Slot and size names
  // ---------------------------------------------------------------------

  /** The C local that holds a variable: its output slot when it is
      output only, its input slot otherwise. */
  function VName(v: Var): string
  {
    if v.iospec == 'o' then "out" + IntToString(v.outputLabel) + "_"
    else "in" + IntToString(v.inputLabel) + "_"
  }

  /** The local that holds a dimension. */
  function DimName(e: Expr): string
  {
    "dim" + IntToString(e.inputLabel) + "_"
  }

  function DimNames(args: seq<Expr>): (ds: seq<string>)
    ensures |ds| == |args|
  {
    seq(|args|, k requires 0 <= k < |args| => DimName(args[k]))
  }

  /** The number of elements of an array with the given dimensions, as a
      C expression. */
  function AllocSize(args: seq<Expr>): string
  {
    if args == [] then "1" else Join(DimNames(args), "*")
  }

  lemma {:induction false} NatToStringLength(n: nat)
    ensures n >= 10 ==> |NatToString(n)| >= 2
  {
  }

  lemma {:induction false} NatToStringInjective(a: nat, b: nat)
    ensures NatToString(a) == NatToString(b) ==> a == b
    decreases a
  {
    if NatToString(a) == NatToString(b) {
      NatToStringLength(a);
      NatToStringLength(b);
      if a >= 10 && b >= 10 {
        var s := NatToString(a);
        var n := |s| - 1;
        assert s == NatToString(a / 10) + [DigitChar(a % 10)];
        assert s == NatToString(b / 10) + [DigitChar(b % 10)];
        assert NatToString(a / 10) == s[..n] == NatToString(b / 10);
        NatToStringInjective(a / 10, b / 10);
        DigitCharInjective(a % 10, b % 10);
        DivModSplit(a);
        DivModSplit(b);
      } else if a < 10 && b < 10 {
        DigitCharInjective(a, b);
      }
    }
  }

  lemma DigitCharInjective(d: nat, e: nat)
    requires d < 10 && e < 10
    ensures DigitChar(d) == DigitChar(e) ==> d == e
  {
  }

  lemma DivModSplit(a: nat)
    ensures a == 10 * (a / 10) + a % 10
  {
  }

  lemma IntToStringInjective(a: int, b: int)
    ensures IntToString(a) == IntToString(b) ==> a == b
  {
    if IntToString(a) == IntToString(b) {
      if a < 0 && b < 0 {
        assert NatToString(-a) == IntToString(a)[1..] == NatToString(-b);
      }
      NatToStringInjective(if a < 0 then -a else a, if b < 0 then -b else b);
    }
  }

  /** Two variables share a local only when they have the same role and
      the same label: distinct labels give distinct slots. */
  lemma VNameInjective(v: Var, w: Var)
    requires VName(v) == VName(w)
    ensures (v.iospec == 'o') == (w.iospec == 'o')
    ensures v.iospec == 'o' ==> v.outputLabel == w.outputLabel
    ensures v.iospec != 'o' ==> v.inputLabel == w.inputLabel
  {
    var s := VName(v);
    assert s[0] == (if v.iospec == 'o' then 'o' else 'i') == (if w.iospec == 'o' then 'o' else 'i');
    var a := if v.iospec == 'o' then v.outputLabel else v.inputLabel;
    var b := if w.iospec == 'o' then w.outputLabel else w.inputLabel;
    var p := if v.iospec == 'o' then 3 else 2;
    assert IntToString(a) == s[p..|s| - 1] == IntToString(b);
    IntToStringInjective(a, b);
  }

  function CountChar(s: string, c: char): nat
  {
    if s == [] then 0 else (if s[0] == c then 1 else 0) + CountChar(s[1..], c)
  }

  lemma {:induction false} CountCharAppend(a: string, b: string, c: char)
    ensures CountChar(a + b, c) == CountChar(a, c) + CountChar(b, c)
    decreases |a|
  {
    if a != [] {
      assert (a + b)[0] == a[0] && (a + b)[1..] == a[1..] + b;
      CountCharAppend(a[1..], b, c);
    } else {
      assert a + b == b;
    }
  }

  lemma {:induction false} NoStarInDigits(s: string)
    requires forall k :: 0 <= k < |s| ==> '0' <= s[k] <= '9'
    ensures CountChar(s, '*') == 0
    decreases |s|
  {
    if s != [] {
      NoStarInDigits(s[1..]);
    }
  }

  lemma NoStarInDimName(e: Expr)
    ensures CountChar(DimName(e), '*') == 0
  {
    var n := IntToString(e.inputLabel);
    if e.inputLabel < 0 {
      NoStarInDigits(NatToString(-e.inputLabel));
      CountCharAppend("-", NatToString(-e.inputLabel), '*');
    } else {
      NoStarInDigits(n);
    }
    CountCharAppend("dim", n, '*');
    CountCharAppend("dim" + n, "_", '*');
  }

  lemma {:induction false} StarsInDimProduct(args: seq<Expr>)
    requires args != []
    ensures CountChar(Join(DimNames(args), "*"), '*') == |args| - 1
    decreases |args|
  {
    NoStarInDimName(args[0]);
    if |args| > 1 {
      var ds := DimNames(args);
      assert DimNames(args[1..]) == ds[1..];
      StarsInDimProduct(args[1..]);
      CountCharAppend(ds[0], "*", '*');
      CountCharAppend(ds[0] + "*", Join(ds[1..], "*"), '*');
    }
  }

  /** The size expression multiplies exactly the dimensions, in order:
      "1" for none, otherwise one factor per dimension with one "*"
      between neighbours. */
  lemma AllocSizeFactors(args: seq<Expr>, k: nat)
    requires k < |args|
    ensures CountChar(AllocSize(args), '*') == |args| - 1
    ensures var ds := DimNames(args);
            AllocSize(args) == JoinPre(ds, "*", k) + DimName(args[k]) + JoinPost(ds, "*", k)
  {
    StarsInDimProduct(args);
    JoinAt(DimNames(args), "*", k);
  }

  lemma AllocSizeEmpty()
    ensures AllocSize([]) == "1" && CountChar(AllocSize([]), '*') == 0
  {
  }

  // ---------------------------------------------------------------------
  // Declared C types
  // ---------------------------------------------------------------------

  function CuComplex(name: string): string
  {
    if name == "fcomplex" then "cuFloatComplex"
    else if name == "dcomplex" then "cuDoubleComplex"
    else name
  }

  predicate IsScalarCategory(t: VT)
  {
    t in {Scalar, CScalar, ZScalar, RScalar, RCScalar, RZScalar, PScalar, PCScalar, PZScalar}
  }

  /** The C type a variable's local is declared with; None for the
      categories that have no local (unclassified and constants). */
  function DeclareType(v: Var): Option<string>
  {
    var elem := if v.devicespec == 'g' then CuComplex(v.basetype) else v.basetype;
    if IsObj(v.tinfo) || IsArray(v.tinfo) then Some(elem + "*")
    else if v.tinfo == RArray then Some("const " + elem + "*")
    else if IsScalarCategory(v.tinfo) then Some(v.basetype)
    else if v.tinfo == String then Some("char*")
    else if v.tinfo == Mx then Some(if v.iospec == 'i' then "const mxArray*" else "mxArray*")
    else None
  }

  /** Every category but the unclassified one and constants has a local;
      scalars of every kind are held by value in their base type, every
      other local is a pointer, and only array references and read-only
      mxArrays are declared const. */
  lemma DeclareTypeShape(v: Var)
    ensures DeclareType(v).Some? <==> v.tinfo != Unk && v.tinfo != Const
    ensures IsScalarCategory(v.tinfo) ==> DeclareType(v) == Some(v.basetype)
    ensures DeclareType(v).Some? && !IsScalarCategory(v.tinfo) ==>
              var t := DeclareType(v).value; |t| > 0 && t[|t| - 1] == '*'
    ensures v.tinfo == RArray || (v.tinfo == Mx && v.iospec == 'i') ==>
              var t := DeclareType(v).value; |t| >= 6 && t[..6] == "const "
    ensures v.tinfo == String || (v.tinfo == Mx && v.iospec != 'i') ==>
              DeclareType(v) == Some(if v.tinfo == String then "char*" else "mxArray*")
  {
  }

  /** In a declaration that checks without errors every argument is
      classified. */
  lemma ErrorFreeArgClassified(reg: Registry, f: Func, k: nat)
    requires AnalysisErrors(reg, f) == 0 && k < |f.args|
    ensures Analysed(reg, f).args[k].tinfo != Unk
  {
    var l := Labelled(f);
    var c := AssignTinfo(reg, l.args[k]).v;
    assert c.tinfo != Unk by {
      ErrorFreeArgErrs(reg, f);
      ErrorFreeArgs(reg, l.args, k);
    }
    AnalysedArgAt(reg, f, k);
    if f.fort {
      FortranArgByAddress(c);
    }
  }

  /** In a declaration that checks without errors every argument other
      than a constant has a declared type. */
  lemma ErrorFreeArgsDeclared(reg: Registry, f: Func, k: nat)
    requires AnalysisErrors(reg, f) == 0 && k < |f.args| && Analysed(reg, f).args[k].tinfo != Const
    ensures DeclareType(Analysed(reg, f).args[k]).Some?
  {
    ErrorFreeArgClassified(reg, f, k);
    DeclareTypeShape(Analysed(reg, f).args[k]);
  }

  // ---------------------------------------------------------------------
  // Argument passing
  // ---------------------------------------------------------------------

  /** How one argument is passed to the wrapped routine: objects and
      object references are dereferenced, pointer scalars passed by
      address, constants as their literal, an output mxArray as its
      place in the left-hand side, everything else by its local. */
  function CallArg(v: Var): string
  {
    var n := VName(v);
    if v.tinfo == Obj || v.tinfo == RObj then "*" + n
    else if v.tinfo == Mx && v.iospec == 'o' then "plhs+" + IntToString(v.outputLabel)
    else if v.tinfo in {PScalar, PCScalar, PZScalar} then "&" + n
    else if v.tinfo == Const then v.name
    else n
  }

  function CallArgTexts(args: seq<Var>): (ts: seq<string>)
    ensures |ts| == |args|
  {
    seq(|args|, k requires 0 <= k < |args| => CallArg(args[k]))
  }

  /** The argument list: the texts separated by ", ", with a leading
      separator when the list continues one already started. */
  function CallArgList(args: seq<Var>, first: bool): string
  {
    (if !first && args != [] then ", " else "") + Join(CallArgTexts(args), ", ")
  }

  /** The passing convention is decided by the category alone, and the
      local's name is never altered: it is passed bare, behind "*" or
      behind "&". */
  lemma CallArgConvention(v: Var)
    ensures v.tinfo == Obj || v.tinfo == RObj ==> CallArg(v) == "*" + VName(v)
    ensures v.tinfo in {PScalar, PCScalar, PZScalar} ==> CallArg(v) == "&" + VName(v)
    ensures v.tinfo == Const ==> CallArg(v) == v.name
    ensures v.tinfo == Mx && v.iospec == 'o' ==> CallArg(v) == "plhs+" + IntToString(v.outputLabel)
    ensures !(v.tinfo in {Obj, RObj, PScalar, PCScalar, PZScalar, Const}) && !(v.tinfo == Mx && v.iospec == 'o') ==>
              CallArg(v) == VName(v)
  {
  }

  /** The k-th argument's text stands in the list between the texts of
      the arguments before it and of those after it. */
  lemma CallArgAt(args: seq<Var>, k: nat)
    requires k < |args|
    ensures var ts := CallArgTexts(args);
            CallArgList(args, true) == JoinPre(ts, ", ", k) + CallArg(args[k]) + JoinPost(ts, ", ", k)
  {
    var ts := CallArgTexts(args);
    JoinAt(ts, ", ", k);
    assert ts[k] == CallArg(args[k]);
    assert "" + Join(ts, ", ") == Join(ts, ", ");
  }

  lemma {:induction false} JoinSnoc(ps: seq<string>, sep: string, x: string)
    ensures Join(ps + [x], sep) == (if ps == [] then x else Join(ps, sep) + sep + x)
    decreases |ps|
  {
    if |ps| >= 2 {
      assert (ps + [x])[1..] == ps[1..] + [x];
      JoinSnoc(ps[1..], sep, x);
    } else if |ps| == 1 {
      assert (ps + [x])[1..] == [x];
    } else {
      assert ps + [x] == [x];
    }
  }

  lemma CallArgListStep(args: seq<Var>, i: nat, first: bool)
    requires i < |args|
    ensures CallArgList(args[..i + 1], first) ==
            CallArgList(args[..i], first) + (if !first || i > 0 then ", " else "") + CallArg(args[i])
  {
    var done := CallArgTexts(args[..i]);
    assert CallArgTexts(args[..i + 1]) == done + [CallArg(args[i])];
    JoinSnoc(done, ", ", CallArg(args[i]));
  }

  /** Writes the argument list, one argument at a time. */
  method MakeCallArgs(args: seq<Var>, first: bool) returns (s: string)
    ensures s == CallArgList(args, first)
  {
    s := "";
    var fst := first;
    var i := 0;
    while i < |args|
      invariant i <= |args|
      invariant fst == (first && i == 0)
      invariant s == CallArgList(args[..i], first)
    {
      CallArgListStep(args, i, first);
      if !fst {
        s := s + ", ";
      }
      s := s + CallArg(args[i]);
      fst := false;
      i := i + 1;
    }
    assert args[..i] == args;
  }

  /** The call expression: the bound object, the callee (a constructor
      of the class for "new", the mangled name for FORTRAN) and the
      argument list. */
  function CallExpr(f: Func): string
  {
    (if f.thisv.Some? then "in0_->" else "") +
    (if f.funcv == "new" then "new " + (if f.classv.Some? then f.classv.value else "") + "("
     else (if f.fort then "MWF77_" else "") + f.funcv + "(") +
    CallArgList(f.args, true) + ")"
  }

  // ---------------------------------------------------------------------
  // Dimension checks
  // ---------------------------------------------------------------------

  /** A size check on an input array: rows and columns compared one by
      one, or the element count compared with the one dimension. */
  datatype DimCheck =
    | Shape(slot: int, rows: int, cols: int, name: string)
    | Numel(slot: int, count: int, name: string)

  /** The check performed for one argument, if any: only host arrays that
      are read and have dimensions are checked. */
  function DimCheckOf(v: Var): Option<DimCheck>
  {
    if v.iospec != 'o' && IsArray(v.tinfo) && Dims(v) != [] && v.devicespec != 'g' then
      var a := Dims(v);
      if |a| > 1 then Some(Shape(v.inputLabel, a[0].inputLabel, a[1].inputLabel, v.name))
      else Some(Numel(v.inputLabel, a[0].inputLabel, v.name))
    else None
  }

  function DimChecks(args: seq<Var>): seq<DimCheck>
    decreases |args|
  {
    if args == [] then []
    else
      var c := DimCheckOf(args[|args| - 1]);
      DimChecks(args[..|args| - 1]) + (if c.Some? then [c.value] else [])
  }

  /** Writes the checks of the arguments in order. */
  method CheckDims(args: seq<Var>) returns (cs: seq<DimCheck>)
    ensures cs == DimChecks(args)
  {
    cs := [];
    var i := 0;
    while i < |args|
      invariant i <= |args|
      invariant cs == DimChecks(args[..i])
    {
      var v := args[i];
      assert args[..i + 1][..i] == args[..i];
      if v.iospec != 'o' && IsArray(v.tinfo) && v.qual.Some? && |v.qual.value.args| > 0 && v.devicespec != 'g' {
        var a := v.qual.value.args;
        if |a| > 1 {
          cs := cs + [Shape(v.inputLabel, a[0].inputLabel, a[1].inputLabel, v.name)];
        } else {
          cs := cs + [Numel(v.inputLabel, a[0].inputLabel, v.name)];
        }
      }
      i := i + 1;
    }
    assert args[..i] == args;
  }

  /** A check belongs to an argument that is read, is a host array and
      has dimensions; each such argument has one, comparing rows and
      columns separately exactly when it has two or more dimensions, and
      against the argument's own input slot and dimension slots. */
  lemma {:induction false} DimChecksExact(args: seq<Var>, c: DimCheck)
    ensures c in DimChecks(args) <==> exists k :: 0 <= k < |args| && DimCheckOf(args[k]) == Some(c)
    decreases |args|
  {
    if args != [] {
      var n := |args| - 1;
      DimChecksExact(args[..n], c);
      if exists k :: 0 <= k < |args| && DimCheckOf(args[k]) == Some(c) {
        var k :| 0 <= k < |args| && DimCheckOf(args[k]) == Some(c);
        if k < n {
          assert args[..n][k] == args[k];
        }
      }
      if exists k :: 0 <= k < n && DimCheckOf(args[..n][k]) == Some(c) {
        var k :| 0 <= k < n && DimCheckOf(args[..n][k]) == Some(c);
        assert args[k] == args[..n][k];
      }
    }
  }

  lemma DimCheckOfShape(v: Var)
    ensures DimCheckOf(v).Some? <==> v.iospec != 'o' && IsArray(v.tinfo) && Dims(v) != [] && v.devicespec != 'g'
    ensures DimCheckOf(v).Some? ==> DimCheckOf(v).value.slot == v.inputLabel && DimCheckOf(v).value.name == v.name
    ensures DimCheckOf(v).Some? ==>
              (DimCheckOf(v).value.Shape? <==> |Dims(v)| >= 2)
    ensures DimCheckOf(v).Some? && |Dims(v)| >= 2 ==>
              DimCheckOf(v).value.rows == Dims(v)[0].inputLabel && DimCheckOf(v).value.cols == Dims(v)[1].inputLabel
    ensures DimCheckOf(v).Some? && |Dims(v)| == 1 ==> DimCheckOf(v).value.count == Dims(v)[0].inputLabel
  {
  }

  // ---------------------------------------------------------------------
  // Releases
  // ---------------------------------------------------------------------

  /** A buffer released after the error label. */
  datatype Release =
    | FreeOut(slot: int)                    // a host buffer in an output slot
    | FreeIn(slot: int)                     // a host buffer in an input slot
    | WrapFreeIn(basetype: string, slot: int)
    | WrapFreeOut(basetype: string, slot: int)
    | DestroyGpuIn(slot: int)
    | DestroyGpuOut(slot: int)

  predicate IsHostRelease(r: Release)
  {
    r.FreeOut? || r.FreeIn? || r.WrapFreeIn? || r.WrapFreeOut?
  }

  /** The releases of one variable. Host arrays and strings free the
      buffer of their slot, except input-only double and float data,
      which is read in place; mxArray-backed objects are released by
      their type's release routine, except a returned output; device
      arrays destroy their device handles. */
  function VarReleases(reg: Registry, v: Var, isReturn: bool): seq<Release>
  {
    (if v.devicespec != 'g' then
       if IsArray(v.tinfo) || v.tinfo == String then
         if v.iospec == 'o' then [FreeOut(v.outputLabel)]
         else if v.iospec == 'b' || !(v.basetype == "double" || v.basetype == "float") then [FreeIn(v.inputLabel)]
         else []
       else if IsObj(v.tinfo) && v.basetype in reg.mxarrays then
         if v.iospec == 'i' || v.iospec == 'b' then [WrapFreeIn(v.basetype, v.inputLabel)]
         else if v.iospec == 'o' && !isReturn then [WrapFreeOut(v.basetype, v.outputLabel)]
         else []
       else []
     else []) +
    (if v.devicespec == 'g' then
       (if v.iospec == 'i' || v.iospec == 'b' then [DestroyGpuIn(v.inputLabel)] else []) +
       (if v.iospec == 'o' then [DestroyGpuOut(v.outputLabel)] else [])
     else [])
  }

  function Releases(reg: Registry, vs: seq<Var>, isReturn: bool): seq<Release>
    decreases |vs|
  {
    if vs == [] then [] else Releases(reg, vs[..|vs| - 1], isReturn) + VarReleases(reg, vs[|vs| - 1], isReturn)
  }

  /** The releases of a stub: the return value's unless it may be null,
      then the arguments'. */
  function Deallocs(reg: Registry, f: Func): seq<Release>
  {
    (if !NullableReturn(f) then Releases(reg, f.ret, true) else []) + Releases(reg, f.args, false)
  }

  /** Writes the releases of a list of variables in order. */
  method DeallocVars(reg: Registry, vs: seq<Var>, isReturn: bool) returns (rs: seq<Release>)
    ensures rs == Releases(reg, vs, isReturn)
  {
    rs := [];
    var i := 0;
    while i < |vs|
      invariant i <= |vs|
      invariant rs == Releases(reg, vs[..i], isReturn)
    {
      assert vs[..i + 1][..i] == vs[..i];
      rs := rs + VarReleases(reg, vs[i], isReturn);
      i := i + 1;
    }
    assert vs[..i] == vs;
  }

  /** A variable with a legal direction releases at most one buffer, and
      it is its own: the output slot when it is output only, the input
      slot otherwise. */
  lemma AtMostOneRelease(reg: Registry, v: Var, isReturn: bool)
    requires v.iospec == 'i' || v.iospec == 'o' || v.iospec == 'b'
    ensures var rs := VarReleases(reg, v, isReturn);
            |rs| <= 1 &&
            (rs != [] ==> IsHostRelease(rs[0]) == (v.devicespec != 'g')) &&
            (rs != [] ==> rs[0].slot == if v.iospec == 'o' then v.outputLabel else v.inputLabel)
  {
  }

  /** A host array or string is freed unless it is input only with a
      double or float base type; an inout one frees its input slot and an
      output-only one its output slot. */
  lemma HostBufferRelease(reg: Registry, v: Var, isReturn: bool)
    requires v.devicespec != 'g' && (IsArray(v.tinfo) || v.tinfo == String)
    ensures v.iospec == 'o' ==> VarReleases(reg, v, isReturn) == [FreeOut(v.outputLabel)]
    ensures v.iospec == 'b' ==> VarReleases(reg, v, isReturn) == [FreeIn(v.inputLabel)]
    ensures v.iospec == 'i' ==>
              (VarReleases(reg, v, isReturn) == [] <==> v.basetype == "double" || v.basetype == "float")
  {
  }

  /** How the data of a host input array is obtained. */
  datatype Unpack = CopyComplex | ReadInPlace | Copy

  function UnpackPath(v: Var): Unpack
  {
    if IsComplex(v.tinfo) && TableEntry(v.basetype).Some? then CopyComplex
    else if Props(v.basetype).directInput && v.iospec == 'i' then ReadInPlace
    else Copy
  }

  /** A real host array read only is left unreleased exactly when its
      data is read in place, so every copy is freed and nothing that
      belongs to the caller is. */
  lemma ZeroCopyNotFreed(reg: Registry, v: Var, isReturn: bool)
    requires v.devicespec != 'g' && v.tinfo == Array && (v.iospec == 'i' || v.iospec == 'b')
    ensures VarReleases(reg, v, isReturn) == [] <==> UnpackPath(v) == ReadInPlace
  {
    PropsExact(v.basetype);
  }

  // ---------------------------------------------------------------------
  // FORTRAN names
  // ---------------------------------------------------------------------

  function Callees(fs: seq<Func>): (ns: seq<string>)
    ensures |ns| == |fs|
  {
    seq(|fs|, k requires 0 <= k < |fs| => fs[k].funcv)
  }

  /** The FORTRAN routines, each callee name once, at its first
      occurrence. */
  function FortranFirsts(funcs: seq<Func>): seq<Func>
    decreases |funcs|
  {
    if funcs == [] then []
    else
      var pre := FortranFirsts(funcs[..|funcs| - 1]);
      var f := funcs[|funcs| - 1];
      if f.fort && f.funcv !in Callees(pre) then pre + [f] else pre
  }

  /** Yields the FORTRAN routines not seen before, remembering the names
      seen. */
  method FortranFuncs(funcs: seq<Func>) returns (out: seq<Func>)
    ensures out == FortranFirsts(funcs)
  {
    var seen: set<string> := {};
    out := [];
    var i := 0;
    while i < |funcs|
      invariant i <= |funcs|
      invariant out == FortranFirsts(funcs[..i])
      invariant forall n :: n in seen <==> n in Callees(out)
    {
      var f := funcs[i];
      assert funcs[..i + 1][..i] == funcs[..i];
      if f.fort && f.funcv !in seen {
        seen := seen + {f.funcv};
        assert Callees(out + [f]) == Callees(out) + [f.funcv];
        out := out + [f];
      }
      i := i + 1;
    }
    assert funcs[..i] == funcs;
  }

  lemma CalleesSnoc(fs: seq<Func>, f: Func)
    ensures Callees(fs + [f]) == Callees(fs) + [f.funcv]
  {
  }

  /** The list holds only FORTRAN routines of the input, with distinct
      callee names, and every FORTRAN callee of the input is in it. */
  lemma {:induction false} FortranFirstsExact(funcs: seq<Func>)
    ensures var out := FortranFirsts(funcs);
            (forall j :: 0 <= j < |out| ==> out[j].fort && out[j] in funcs) &&
            (forall i, j :: 0 <= i < j < |out| ==> out[i].funcv != out[j].funcv) &&
            (forall k :: 0 <= k < |funcs| && funcs[k].fort ==> funcs[k].funcv in Callees(out))
    decreases |funcs|
  {
    if funcs != [] {
      var n := |funcs| - 1;
      var pre := FortranFirsts(funcs[..n]);
      FortranFirstsExact(funcs[..n]);
      var f := funcs[n];
      var out := FortranFirsts(funcs);
      forall j | 0 <= j < |pre|
        ensures pre[j] in funcs
      {
        assert pre[j] in funcs[..n];
      }
      if f.fort && f.funcv !in Callees(pre) {
        CalleesSnoc(pre, f);
        forall i, j | 0 <= i < j < |out|
          ensures out[i].funcv != out[j].funcv
        {
          if j == |pre| {
            assert Callees(pre)[i] == out[i].funcv;
          }
        }
      }
      forall k | 0 <= k < |funcs| && funcs[k].fort
        ensures funcs[k].funcv in Callees(out)
      {
        if k < n {
          assert funcs[..n][k] == funcs[k];
          var j :| 0 <= j < |pre| && Callees(pre)[j] == funcs[k].funcv;
          assert Callees(out)[j] == funcs[k].funcv;
        } else if f.funcv !in Callees(pre) {
          assert Callees(out)[|pre|] == f.funcv;
        }
      }
    }
  }

  lemma FortranFirstsCover(funcs: seq<Func>, k: nat)
    requires k < |funcs| && funcs[k].fort
    ensures funcs[k].funcv in Callees(FortranFirsts(funcs))
  {
    FortranFirstsExact(funcs);
  }

  /** Each listed routine is the first FORTRAN routine of its name: no
      FORTRAN routine before it has the same callee, and the list keeps
      the input's order. */
  lemma {:induction false} FortranFirstsOrder(funcs: seq<Func>) returns (idx: seq<nat>)
    ensures var out := FortranFirsts(funcs);
            |idx| == |out| &&
            (forall j :: 0 <= j < |out| ==> idx[j] < |funcs| && out[j] == funcs[idx[j]]) &&
            (forall i, j :: 0 <= i < j < |out| ==> idx[i] < idx[j]) &&
            (forall j, k :: 0 <= j < |out| && 0 <= k < idx[j] && funcs[k].fort ==> funcs[k].funcv != out[j].funcv)
    decreases |funcs|
  {
    if funcs == [] {
      idx := [];
    } else {
      var n := |funcs| - 1;
      var pre := FortranFirsts(funcs[..n]);
      var pidx := FortranFirstsOrder(funcs[..n]);
      var f := funcs[n];
      forall j | 0 <= j < |pre|
        ensures pidx[j] < n && pre[j] == funcs[pidx[j]]
        ensures forall k :: 0 <= k < pidx[j] && funcs[k].fort ==> funcs[k].funcv != pre[j].funcv
      {
        assert funcs[..n][pidx[j]] == funcs[pidx[j]];
        forall k | 0 <= k < pidx[j] && funcs[k].fort
          ensures funcs[k].funcv != pre[j].funcv
        {
          assert funcs[..n][k] == funcs[k];
        }
      }
      if f.fort && f.funcv !in Callees(pre) {
        idx := pidx + [n];
        forall k | 0 <= k < n && funcs[k].fort
          ensures funcs[k].funcv != f.funcv
        {
          assert funcs[..n][k] == funcs[k];
          FortranFirstsCover(funcs[..n], k);
        }
        assert FortranFirsts(funcs) == pre + [f];
      } else {
        idx := pidx;
        assert FortranFirsts(funcs) == pre;
      }
    }
  }

  /** The four name-mangling conventions of FORTRAN compilers. */
  datatype Convention = Caps | Underscore1 | Underscore0 | F2c

  function UpperChar(c: char): char
  {
    if 'a' <= c <= 'z' then (c as int - 32) as char else c
  }

  function LowerChar(c: char): char
  {
    if 'A' <= c <= 'Z' then (c as int + 32) as char else c
  }

  function Upper(s: string): (r: string)
    ensures |r| == |s|
  {
    seq(|s|, k requires 0 <= k < |s| => UpperChar(s[k]))
  }

  function Lower(s: string): (r: string)
    ensures |r| == |s|
  {
    seq(|s|, k requires 0 <= k < |s| => LowerChar(s[k]))
  }

  /** The symbol a FORTRAN callee is linked under. */
  function Mangle(conv: Convention, name: string): string
  {
    match conv
    case Caps => Upper(name)
    case Underscore1 => Lower(name) + "_"
    case Underscore0 => Lower(name)
    case F2c => Lower(name) + (if '_' in Lower(name) then "__" else "_")
  }

  /** The conventions differ only in case and trailing underscores: all
      agree when lower-cased, one underscore is appended by the
      single-underscore and f2c conventions, and f2c appends a second
      one exactly when the name itself holds an underscore. */
  lemma ManglingsAgree(name: string)
    ensures Lower(Mangle(Caps, name)) == Mangle(Underscore0, name)
    ensures Mangle(Underscore1, name) == Mangle(Underscore0, name) + "_"
    ensures Mangle(F2c, name) == Mangle(Underscore1, name) + (if '_' in name then "_" else "")
    ensures Lower(Mangle(Underscore0, name)) == Mangle(Underscore0, name)
  {
    assert forall k :: 0 <= k < |name| ==> LowerChar(UpperChar(name[k])) == LowerChar(name[k]);
    assert forall k :: 0 <= k < |name| ==> (Lower(name)[k] == '_' <==> name[k] == '_');
    assert ('_' in Lower(name)) == ('_' in name) by {
      if '_' in name {
        var k :| 0 <= k < |name| && name[k] == '_';
        assert Lower(name)[k] == '_';
      }
      if '_' in Lower(name) {
        var k :| 0 <= k < |name| && Lower(name)[k] == '_';
        assert name[k] == '_';
      }
    }
  }

  /** One definition per FORTRAN callee, mapping the name the glue calls
      to the linked symbol. */
  function FortranDefines(conv: Convention, funcs: seq<Func>): seq<(string, string)>
  {
    var fs := FortranFirsts(funcs);
    seq(|fs|, k requires 0 <= k < |fs| => ("MWF77_" + fs[k].funcv, Mangle(conv, fs[k].funcv)))
  }

  /** Every FORTRAN call of the file is defined, once, under each
      convention: the callee's macro name appears in exactly one
      definition, and it is the one that maps to the mangled name. */
  lemma FortranCallDefined(conv: Convention, funcs: seq<Func>, k: nat)
    requires k < |funcs| && funcs[k].fort && funcs[k].funcv != "new"
    ensures var name := "MWF77_" + funcs[k].funcv;
            var ds := FortranDefines(conv, funcs);
            |CallExpr(funcs[k])| > 0 &&
            (exists j :: 0 <= j < |ds| && ds[j] == (name, Mangle(conv, funcs[k].funcv))) &&
            (forall i, j :: 0 <= i < j < |ds| ==> ds[i].0 != ds[j].0)
  {
    var fs := FortranFirsts(funcs);
    FortranFirstsExact(funcs);
    var j :| 0 <= j < |fs| && Callees(fs)[j] == funcs[k].funcv;
    var ds := FortranDefines(conv, funcs);
    assert ds[j] == ("MWF77_" + funcs[k].funcv, Mangle(conv, funcs[k].funcv));
    forall i, j | 0 <= i < j < |ds|
      ensures ds[i].0 != ds[j].0
    {
      assert ds[i].0[6..] == fs[i].funcv;
      assert ds[j].0[6..] == fs[j].funcv;
    }
  }

  // ---------------------------------------------------------------------
  // Sorted listing of a set of names
  // ---------------------------------------------------------------------

  /** The order of strings by code point, a proper prefix first. */
  predicate StrLess(a: string, b: string)
    decreases |a|
  {
    if a == [] then b != []
    else b != [] && (a[0] < b[0] || (a[0] == b[0] && StrLess(a[1..], b[1..])))
  }

  lemma {:induction false} StrLessIrreflexive(a: string)
    ensures !StrLess(a, a)
    decreases |a|
  {
    if a != [] {
      StrLessIrreflexive(a[1..]);
    }
  }

  lemma {:induction false} StrLessTransitive(a: string, b: string, c: string)
    requires StrLess(a, b) && StrLess(b, c)
    ensures StrLess(a, c)
    decreases |a|
  {
    if a != [] && a[0] == b[0] && b[0] == c[0] {
      StrLessTransitive(a[1..], b[1..], c[1..]);
    }
  }

  lemma {:induction false} StrLessTotal(a: string, b: string)
    requires a != b
    ensures StrLess(a, b) || StrLess(b, a)
    decreases |a|
  {
    if a != [] && b != [] && a[0] == b[0] {
      assert a == [a[0]] + a[1..] && b == [b[0]] + b[1..];
      StrLessTotal(a[1..], b[1..]);
    }
  }

  predicate IsLeast(m: string, s: set<string>)
  {
    m in s && forall x :: x in s && x != m ==> StrLess(m, x)
  }

  lemma {:induction false} LeastExists(s: set<string>)
    requires s != {}
    ensures exists m :: IsLeast(m, s)
    decreases |s|
  {
    var y :| y in s;
    if s == {y} {
      assert IsLeast(y, s);
    } else {
      LeastExists(s - {y});
      var m :| IsLeast(m, s - {y});
      StrLessTotal(m, y);
      if StrLess(m, y) {
        assert IsLeast(m, s);
      } else {
        forall x | x in s && x != y
          ensures StrLess(y, x)
        {
          if x != m {
            StrLessTransitive(y, m, x);
          }
        }
        assert IsLeast(y, s);
      }
    }
  }

  lemma LeastUnique(s: set<string>)
    ensures forall m, n :: IsLeast(m, s) && IsLeast(n, s) ==> m == n
  {
    forall m, n | IsLeast(m, s) && IsLeast(n, s)
      ensures m == n
    {
      if m != n {
        StrLessTransitive(m, n, m);
        StrLessIrreflexive(m);
      }
    }
  }

  /** The elements of a set of names in ascending order. */
  function SortedSet(s: set<string>): (r: seq<string>)
    ensures |r| == |s|
    ensures forall x :: x in r <==> x in s
    ensures forall i, j :: 0 <= i < j < |r| ==> StrLess(r[i], r[j])
    decreases |s|
  {
    if s == {} then []
    else
      LeastExists(s);
      LeastUnique(s);
      var m :| IsLeast(m, s);
      [m] + SortedSet(s - {m})
  }

  // ---------------------------------------------------------------------
  // Copier definitions
  // ---------------------------------------------------------------------

  /** The usage flag without which an extended integer type's copiers are
      left out. */
  function ExtendedFlag(name: string): Option<UseFlag>
  {
    if name == "int32_t" then Some(UseInt32)
    else if name == "int64_t" then Some(UseInt64)
    else if name == "uint32_t" then Some(UseUInt32)
    else if name == "uint64_t" then Some(UseUInt64)
    else if name == "ulong" then Some(UseULong)
    else if name == "uint" then Some(UseUInt)
    else if name == "ushort" then Some(UseUShort)
    else if name == "uchar" then Some(UseUChar)
    else None
  }

  predicate CopiersWanted(uses: set<UseFlag>, name: string)
  {
    ExtendedFlag(name).None? || ExtendedFlag(name).value in uses
  }

  /** The copier family instantiated for one type: the real family, or
      the complex family over float or double parts. */
  datatype CopierDef = RealCopiers(name: string) | ComplexCopiers(name: string, parts: string)

  function RealDefs(names: seq<string>, uses: set<UseFlag>): seq<CopierDef>
    decreases |names|
  {
    if names == [] then []
    else
      var n := names[|names| - 1];
      RealDefs(names[..|names| - 1], uses) + (if CopiersWanted(uses, n) then [RealCopiers(n)] else [])
  }

  function ComplexDefs(names: seq<string>, parts: string): (ds: seq<CopierDef>)
    ensures |ds| == |names|
  {
    seq(|names|, k requires 0 <= k < |names| => ComplexCopiers(names[k], parts))
  }

  /** The copiers of a file: the real types, then the single and the
      double complex types, each group in ascending order. */
  function CopierDefs(reg: Registry, uses: set<UseFlag>): seq<CopierDef>
  {
    RealDefs(SortedSet(reg.scalars), uses) +
    ComplexDefs(SortedSet(reg.cscalars), "float") +
    ComplexDefs(SortedSet(reg.zscalars), "double")
  }

  /** Writes the copier definitions, type by type. */
  method DefineCopiers(reg: Registry, uses: set<UseFlag>) returns (defs: seq<CopierDef>)
    ensures defs == CopierDefs(reg, uses)
  {
    var rdefs := DefineRealCopiers(SortedSet(reg.scalars), uses);
    var cdefs := DefineComplexCopiers(SortedSet(reg.cscalars), "float");
    var zdefs := DefineComplexCopiers(SortedSet(reg.zscalars), "double");
    defs := rdefs + cdefs + zdefs;
  }

  /** The real copiers of the listed types whose usage allows them. */
  method DefineRealCopiers(names: seq<string>, uses: set<UseFlag>) returns (defs: seq<CopierDef>)
    ensures defs == RealDefs(names, uses)
  {
    defs := [];
    var i := 0;
    while i < |names|
      invariant i <= |names|
      invariant defs == RealDefs(names[..i], uses)
    {
      assert names[..i + 1][..i] == names[..i];
      if CopiersWanted(uses, names[i]) {
        defs := defs + [RealCopiers(names[i])];
      }
      i := i + 1;
    }
    assert names[..i] == names;
  }

  /** The complex copiers of each listed type. */
  method DefineComplexCopiers(names: seq<string>, parts: string) returns (defs: seq<CopierDef>)
    ensures defs == ComplexDefs(names, parts)
  {
    defs := [];
    var i := 0;
    while i < |names|
      invariant i <= |names|
      invariant defs == ComplexDefs(names[..i], parts)
    {
      defs := defs + [ComplexCopiers(names[i], parts)];
      i := i + 1;
    }
    assert names[..i] == names;
  }

  lemma {:induction false} RealDefsExact(names: seq<string>, uses: set<UseFlag>)
    ensures forall d :: d in RealDefs(names, uses) ==> d.RealCopiers? && d.name in names && CopiersWanted(uses, d.name)
    ensures forall n :: n in names && CopiersWanted(uses, n) ==> RealCopiers(n) in RealDefs(names, uses)
    decreases |names|
  {
    if names != [] {
      var k := |names| - 1;
      RealDefsExact(names[..k], uses);
      assert names == names[..k] + [names[k]];
    }
  }

  lemma {:induction false} RealDefsBelow(names: seq<string>, uses: set<UseFlag>, x: string)
    requires forall i :: 0 <= i < |names| ==> StrLess(names[i], x)
    ensures forall d :: d in RealDefs(names, uses) ==> StrLess(d.name, x)
    decreases |names|
  {
    if names != [] {
      var k := |names| - 1;
      var pre := names[..k];
      forall i | 0 <= i < k
        ensures StrLess(pre[i], x)
      {
        assert pre[i] == names[i];
      }
      RealDefsBelow(pre, uses, x);
      assert StrLess(names[k], x);
    }
  }

  predicate NamesAscending(ds: seq<CopierDef>)
  {
    forall i, j :: 0 <= i < j < |ds| ==> StrLess(ds[i].name, ds[j].name)
  }

  lemma {:induction false} RealDefsAscending(names: seq<string>, uses: set<UseFlag>)
    requires forall i, j :: 0 <= i < j < |names| ==> StrLess(names[i], names[j])
    ensures NamesAscending(RealDefs(names, uses))
    decreases |names|
  {
    if names != [] {
      var k := |names| - 1;
      var pre := names[..k];
      forall i, j | 0 <= i < j < k
        ensures StrLess(pre[i], pre[j])
      {
        assert pre[i] == names[i] && pre[j] == names[j];
      }
      RealDefsAscending(pre, uses);
      forall i | 0 <= i < k
        ensures StrLess(pre[i], names[k])
      {
        assert pre[i] == names[i];
      }
      RealDefsBelow(pre, uses, names[k]);
      var ds := RealDefs(pre, uses);
      assert NamesAscending(ds);
      var all := RealDefs(names, uses);
      assert all == ds + (if CopiersWanted(uses, names[k]) then [RealCopiers(names[k])] else []);
      forall i, j | 0 <= i < j < |all|
        ensures StrLess(all[i].name, all[j].name)
      {
        if j < |ds| {
          assert all[i] == ds[i] && all[j] == ds[j];
        } else {
          assert all[i] == ds[i] && all[j].name == names[k];
          assert ds[i] in ds;
        }
      }
    }
  }

  lemma ComplexDefsExact(names: seq<string>, parts: string, n: string, p: string)
    ensures ComplexCopiers(n, p) in ComplexDefs(names, parts) <==> n in names && p == parts
    ensures forall d :: d in ComplexDefs(names, parts) ==> d.ComplexCopiers?
  {
    var ds := ComplexDefs(names, parts);
    if ComplexCopiers(n, p) in ds {
      var k :| 0 <= k < |ds| && ds[k] == ComplexCopiers(n, p);
      assert names[k] == n;
    }
    if n in names && p == parts {
      var k :| 0 <= k < |names| && names[k] == n;
      assert ds[k] == ComplexCopiers(n, p);
    }
  }

  /** A real type gets copiers exactly when it is declared and, for the
      eight extended integer types, its usage flag is set; each complex
      type gets the family over its own parts; within each group the types
      come in ascending order. */
  lemma CopierDefsExact(reg: Registry, uses: set<UseFlag>, n: string)
    ensures RealCopiers(n) in CopierDefs(reg, uses) <==> n in reg.scalars && CopiersWanted(uses, n)
    ensures ComplexCopiers(n, "float") in CopierDefs(reg, uses) <==> n in reg.cscalars
    ensures ComplexCopiers(n, "double") in CopierDefs(reg, uses) <==> n in reg.zscalars
    ensures NamesAscending(RealDefs(SortedSet(reg.scalars), uses))
  {
    var names := SortedSet(reg.scalars);
    RealDefsExact(names, uses);
    RealDefsAscending(names, uses);
    ComplexDefsExact(SortedSet(reg.cscalars), "float", n, "float");
    ComplexDefsExact(SortedSet(reg.cscalars), "float", n, "double");
    ComplexDefsExact(SortedSet(reg.zscalars), "double", n, "float");
    ComplexDefsExact(SortedSet(reg.zscalars), "double", n, "double");
  }


  // ---------------------------------------------------------------------
  // Routine ids and the dispatch table
  // ---------------------------------------------------------------------

  /** The largest routine id of the representatives, and 0 for none. */
  method MaxRoutineId(funcs: seq<Func>) returns (maxid: int)
    ensures maxid >= 0
    ensures forall k :: 0 <= k < |funcs| ==> funcs[k].id <= maxid
    ensures maxid == 0 || exists k :: 0 <= k < |funcs| && funcs[k].id == maxid
  {
    maxid := 0;
    var i := 0;
    while i < |funcs|
      invariant i <= |funcs| && maxid >= 0
      invariant forall k :: 0 <= k < i ==> funcs[k].id <= maxid
      invariant maxid == 0 || exists k :: 0 <= k < i && funcs[k].id == maxid
    {
      if funcs[i].id > maxid {
        maxid := funcs[i].id;
      }
      i := i + 1;
    }
  }

  /** A route sends a routine id to the id of the stub that serves it. */
  datatype Route = Route(id: int, stub: int)

  /** A representative serves its own id and the ids of its duplicates. */
  function FuncRoutes(f: Func): (rs: seq<Route>)
    ensures |rs| == |f.same| + 1
  {
    [Route(f.id, f.id)] + seq(|f.same|, k requires 0 <= k < |f.same| => Route(f.same[k].id, f.id))
  }

  function Routes(fs: seq<Func>): seq<Route>
    decreases |fs|
  {
    if fs == [] then [] else Routes(fs[..|fs| - 1]) + FuncRoutes(fs[|fs| - 1])
  }

  /** The table the routes build, a later route for an id replacing an
      earlier one. */
  function RouteMap(rs: seq<Route>): map<int, int>
    decreases |rs|
  {
    if rs == [] then map[] else RouteMap(rs[..|rs| - 1])[rs[|rs| - 1].id := rs[|rs| - 1].stub]
  }

  function Keys(rs: seq<Route>): (ks: seq<int>)
    ensures |ks| == |rs|
  {
    seq(|rs|, k requires 0 <= k < |rs| => rs[k].id)
  }

  /** The largest of 0 and the given ids. */
  function MaxOf(xs: seq<int>): int
    decreases |xs|
  {
    if xs == [] then 0
    else
      var m := MaxOf(xs[..|xs| - 1]);
      if xs[|xs| - 1] > m then xs[|xs| - 1] else m
  }

  /** The stub table: nothing when no id is positive, otherwise entry 0
      and every id without a route hold NULL and every other entry the
      stub its route names. */
  function StubTable(m: map<int, int>, maxid: int): seq<Option<int>>
  {
    if maxid <= 0 then []
    else seq(maxid + 1, i requires 0 <= i <= maxid => if i != 0 && i in m then Some(m[i]) else None)
  }

  lemma RoutesStep(fs: seq<Func>, i: nat)
    requires i < |fs|
    ensures Routes(fs[..i + 1]) == Routes(fs[..i]) + FuncRoutes(fs[i])
  {
    assert fs[..i + 1][..i] == fs[..i];
  }

  lemma RouteMapSnoc(rs: seq<Route>, r: Route)
    ensures RouteMap(rs + [r]) == RouteMap(rs)[r.id := r.stub]
    ensures MaxOf(Keys(rs + [r])) == if r.id > MaxOf(Keys(rs)) then r.id else MaxOf(Keys(rs))
  {
    assert (rs + [r])[..|rs|] == rs;
    assert Keys(rs + [r])[..|rs|] == Keys(rs);
  }

  /** Records one representative's routes: its own id, then each
      duplicate's, all sent to its stub; the largest id seen is kept. */
  method AddRoutes(ghost done: seq<Route>, m: map<int, int>, mx: int, fc: Func)
    returns (m': map<int, int>, mx': int)
    requires m == RouteMap(done) && mx == MaxOf(Keys(done))
    ensures m' == RouteMap(done + FuncRoutes(fc)) && mx' == MaxOf(Keys(done + FuncRoutes(fc)))
  {
    ghost var own := FuncRoutes(fc);
    ghost var acc := done + [Route(fc.id, fc.id)];
    RouteMapSnoc(done, Route(fc.id, fc.id));
    assert own[..1] == [Route(fc.id, fc.id)];
    m' := m[fc.id := fc.id];
    mx' := if fc.id > mx then fc.id else mx;
    var j := 0;
    while j < |fc.same|
      invariant j <= |fc.same|
      invariant acc == done + own[..j + 1]
      invariant m' == RouteMap(acc) && mx' == MaxOf(Keys(acc))
    {
      var r := Route(fc.same[j].id, fc.id);
      RouteMapSnoc(acc, r);
      PrefixSnoc(own, j + 1);
      assert own[j + 1] == r;
      SnocAssoc(done, own[..j + 1], r);
      acc := acc + [r];
      m' := m'[r.id := r.stub];
      if r.id > mx' {
        mx' := r.id;
      }
      j := j + 1;
    }
    assert own[..j + 1] == own;
  }

  lemma SnocAssoc<T>(a: seq<T>, b: seq<T>, x: T)
    ensures a + b + [x] == a + (b + [x])
  {
  }

  lemma PrefixSnoc<T>(xs: seq<T>, i: nat)
    requires i < |xs|
    ensures xs[..i + 1] == xs[..i] + [xs[i]]
  {
  }

  /** Lays out the table from the map: nothing when no id is positive,
      else NULL at 0 and at every id without a stub. */
  method LayOutTable(m: map<int, int>, maxid: int) returns (entries: seq<Option<int>>)
    ensures entries == StubTable(m, maxid)
  {
    if maxid <= 0 {
      return [];
    }
    entries := [None];
    var k := 1;
    while k <= maxid
      invariant 1 <= k <= maxid + 1 && |entries| == k
      invariant forall t :: 0 <= t < k ==> entries[t] == if t != 0 && t in m then Some(m[t]) else None
    {
      entries := entries + [if k in m then Some(m[k]) else None];
      k := k + 1;
    }
  }

  /** Builds the id-to-stub map over every representative and duplicate,
      then the table of maxid + 1 entries. */
  method PrintStubTable(funcs: seq<Func>) returns (entries: seq<Option<int>>, maxid: int)
    ensures maxid == NumStubs(funcs) && entries == TableOf(funcs)
  {
    var idToStub: map<int, int> := map[];
    maxid := 0;
    var i := 0;
    while i < |funcs|
      invariant i <= |funcs|
      invariant idToStub == RouteMap(Routes(funcs[..i]))
      invariant maxid == MaxOf(Keys(Routes(funcs[..i])))
    {
      RoutesStep(funcs, i);
      idToStub, maxid := AddRoutes(Routes(funcs[..i]), idToStub, maxid, funcs[i]);
      i := i + 1;
    }
    assert funcs[..i] == funcs;
    entries := LayOutTable(idToStub, maxid);
  }

  /** The routes' ids are the ids held by the list, duplicates included,
      in the same order. */
  lemma {:induction false} RouteKeysAreIds(fs: seq<Func>)
    ensures Keys(Routes(fs)) == Parser.AllIds(fs)
    decreases |fs|
  {
    if fs != [] {
      var n := |fs| - 1;
      RouteKeysAreIds(fs[..n]);
      var a := Routes(fs[..n]);
      var b := FuncRoutes(fs[n]);
      assert Keys(a + b) == Keys(a) + Keys(b);
      assert Keys(b) == Parser.FuncIds(fs[n]);
    }
  }

  /** The routes of one representative: its own id and its duplicates'
      ids, each sent to its stub. */
  lemma FuncRoutesMember(f: Func, r: Route)
    ensures r in FuncRoutes(f) <==> r.stub == f.id && r.id in Parser.FuncIds(f)
  {
    var own := FuncRoutes(f);
    var ids := Parser.FuncIds(f);
    assert forall t :: 0 <= t < |own| ==> own[t] == Route(ids[t], f.id);
    if r.stub == f.id && r.id in ids {
      var t :| 0 <= t < |ids| && ids[t] == r.id;
      assert own[t] == r;
    }
  }

  /** Some representative of the list holds the route's id and names its
      stub. */
  ghost predicate Serves(fs: seq<Func>, r: Route)
  {
    exists k :: 0 <= k < |fs| && r.stub == fs[k].id && r.id in Parser.FuncIds(fs[k])
  }

  lemma ServesSnoc(fs: seq<Func>, r: Route)
    requires fs != []
    ensures Serves(fs, r) <==> Serves(fs[..|fs| - 1], r) || (r.stub == fs[|fs| - 1].id && r.id in Parser.FuncIds(fs[|fs| - 1]))
  {
    var n := |fs| - 1;
    if Serves(fs[..n], r) {
      var k :| 0 <= k < n && r.stub == fs[..n][k].id && r.id in Parser.FuncIds(fs[..n][k]);
      assert fs[..n][k] == fs[k];
    }
    if Serves(fs, r) {
      var k :| 0 <= k < |fs| && r.stub == fs[k].id && r.id in Parser.FuncIds(fs[k]);
      if k < n {
        assert fs[..n][k] == fs[k];
      }
    }
  }

  /** A route is an id of a representative or of one of its duplicates,
      sent to the representative's stub. */
  lemma {:induction false} RoutesMember(fs: seq<Func>, r: Route)
    ensures r in Routes(fs) <==> Serves(fs, r)
    decreases |fs|
  {
    if fs != [] {
      var n := |fs| - 1;
      RoutesMember(fs[..n], r);
      FuncRoutesMember(fs[n], r);
      ServesSnoc(fs, r);
    }
  }

  /** Every id of a route is in the table, and the table only sends an
      id somewhere a route sends it. */
  lemma {:induction false} RouteMapDomain(rs: seq<Route>, x: int)
    ensures x in RouteMap(rs) <==> x in Keys(rs)
    ensures x in RouteMap(rs) ==> Route(x, RouteMap(rs)[x]) in rs
    decreases |rs|
  {
    if rs != [] {
      var n := |rs| - 1;
      RouteMapDomain(rs[..n], x);
      assert Keys(rs) == Keys(rs[..n]) + [rs[n].id];
      if x in RouteMap(rs[..n]) {
        assert Route(x, RouteMap(rs[..n])[x]) in rs[..n];
      }
    }
  }

  lemma {:induction false} OccurrencesIn(xs: seq<int>, x: int)
    ensures Parser.Occurrences(xs, x) > 0 <==> x in xs
    decreases |xs|
  {
    if xs != [] {
      var n := |xs| - 1;
      OccurrencesIn(xs[..n], x);
      assert xs == xs[..n] + [xs[n]];
    }
  }

  lemma RouteInPrefix(rs: seq<Route>, r: Route)
    requires rs != []
    ensures r in rs ==> r == rs[|rs| - 1] || r.id in Keys(rs[..|rs| - 1])
  {
    if r in rs && r != rs[|rs| - 1] {
      var t :| 0 <= t < |rs| && rs[t] == r;
      assert Keys(rs[..|rs| - 1])[t] == r.id;
    }
  }

  /** An id routed only once is sent where its route says. */
  lemma {:induction false} RouteMapUnique(rs: seq<Route>, r: Route)
    requires r in rs && Parser.Occurrences(Keys(rs), r.id) == 1
    ensures r.id in RouteMap(rs) && RouteMap(rs)[r.id] == r.stub
    decreases |rs|
  {
    var n := |rs| - 1;
    var ks := Keys(rs);
    assert ks[..n] == Keys(rs[..n]);
    if rs[n].id == r.id {
      RouteInPrefix(rs, r);
      OccurrencesIn(Keys(rs[..n]), r.id);
      assert r == rs[n];
      assert RouteMap(rs) == RouteMap(rs[..n])[r.id := r.stub];
    } else {
      assert r in rs[..n];
      RouteMapUnique(rs[..n], r);
    }
  }

  lemma {:induction false} MaxOfBounds(xs: seq<int>)
    ensures MaxOf(xs) >= 0
    ensures forall k :: 0 <= k < |xs| ==> xs[k] <= MaxOf(xs)
    ensures MaxOf(xs) == 0 || MaxOf(xs) in xs
    decreases |xs|
  {
    if xs != [] {
      var n := |xs| - 1;
      MaxOfBounds(xs[..n]);
      assert forall k :: 0 <= k < n ==> xs[k] == xs[..n][k];
    }
  }

  /** The number of stubs the table announces, and the table, for a
      list of representatives. */
  function NumStubs(fs: seq<Func>): int
  {
    MaxOf(Keys(Routes(fs)))
  }

  function TableOf(fs: seq<Func>): seq<Option<int>>
  {
    StubTable(RouteMap(Routes(fs)), NumStubs(fs))
  }

  /** For a list whose ids are exactly 1..n, each once, as the parser
      keeps it, the table has n + 1 entries, entry 0 is NULL and every
      other entry i names the stub of the representative that holds id i,
      whether as its own or as a duplicate's. */
  lemma ParsedStubTable(fs: seq<Func>, n: int, r: nat, i: int)
    requires Parser.IdsExact(fs, n) && n >= 1 && r < |fs| && i in Parser.FuncIds(fs[r])
    ensures NumStubs(fs) == n && |TableOf(fs)| == n + 1 && TableOf(fs)[0].None?
    ensures 1 <= i <= n && TableOf(fs)[i] == Some(fs[r].id)
  {
    var rs := Routes(fs);
    RouteKeysAreIds(fs);
    var ks := Keys(rs);
    MaxOfBounds(ks);
    OccurrencesIn(ks, n);
    if MaxOf(ks) != 0 {
      OccurrencesIn(ks, MaxOf(ks));
    }
    assert MaxOf(ks) == n;
    var route := Route(i, fs[r].id);
    RoutesMember(fs, route);
    assert route in rs;
    var t :| 0 <= t < |rs| && rs[t] == route;
    assert ks[t] == i;
    OccurrencesIn(ks, i);
    RouteMapUnique(rs, route);
  }

  /** Some representative holds each id 1..n. */
  lemma ParsedIdHeld(fs: seq<Func>, n: int, i: int) returns (k: nat)
    requires Parser.IdsExact(fs, n) && 1 <= i <= n
    ensures k < |fs| && i in Parser.FuncIds(fs[k])
  {
    var rs := Routes(fs);
    RouteKeysAreIds(fs);
    OccurrencesIn(Keys(rs), i);
    var t :| 0 <= t < |rs| && rs[t].id == i;
    assert rs[t] in rs;
    RoutesMember(fs, rs[t]);
    assert Serves(fs, rs[t]);
    k :| 0 <= k < |fs| && rs[t].stub == fs[k].id && i in Parser.FuncIds(fs[k]);
  }

  /** The fast path of the entry point: a numeric id selects its table
      entry when it is in 1..mwNumStubs_ and the entry is not NULL;
      anything else is an unknown function id. */
  function Dispatch(table: seq<Option<int>>, numStubs: int, id: int): Option<int>
  {
    if 0 < id <= numStubs && id < |table| then table[id] else None
  }

  /** For a parsed list with ids 1..n, every id the parser handed out
      dispatches, to the stub of the representative holding it, and no
      other id dispatches. */
  lemma ParsedDispatch(fs: seq<Func>, n: int, id: int)
    requires Parser.IdsExact(fs, n) && n >= 1
    ensures Dispatch(TableOf(fs), NumStubs(fs), id).Some? <==> 1 <= id <= n
    ensures 1 <= id <= n ==>
              exists k :: 0 <= k < |fs| && id in Parser.FuncIds(fs[k]) &&
                          Dispatch(TableOf(fs), NumStubs(fs), id) == Some(fs[k].id)
  {
    var k0 := ParsedIdHeld(fs, n, 1);
    ParsedStubTable(fs, n, k0, 1);
    if 1 <= id <= n {
      var k := ParsedIdHeld(fs, n, id);
      ParsedStubTable(fs, n, k, id);
    }
  }

  // ---------------------------------------------------------------------
  // The phases of one stub
  // ---------------------------------------------------------------------

  /** The parts of a generated stub, in the terms of the decisions they
      carry; the C text of each is not modelled. */
  datatype Section =
    | Comment(fname: string, line: int, decl: string, alsoAt: Option<(string, int)>)
    | StubIds(id: int, ids: string)
    | Header(id: int)
    | DeclareLocals
    | UnpackDims
    | CheckSize(check: DimCheck)
    | UnpackInputs
    | CheckInputs
    | AllocOutputs
    | RecordCall(id: int)
    | MakeCall(expr: string)
    | MarshalResults
    | ErrLabel
    | Free(release: Release)
    | ReportError

  /** The position of a section's phase in the stub. */
  function Rank(x: Section): nat
  {
    match x
    case Comment(_, _, _, _) => 0
    case StubIds(_, _) => 1
    case Header(_) => 2
    case DeclareLocals => 3
    case UnpackDims => 4
    case CheckSize(_) => 5
    case UnpackInputs => 6
    case CheckInputs => 7
    case AllocOutputs => 8
    case RecordCall(_) => 9
    case MakeCall(_) => 10
    case MarshalResults => 11
    case ErrLabel => 12
    case Free(_) => 13
    case ReportError => 14
  }

  /** The header comment cites the declaration and, of its duplicates,
      only the first. */
  function StubComment(f: Func): Section
  {
    Comment(f.fname, f.line, PrintFunc(f),
            if f.same != [] then Some((f.same[0].fname, f.same[0].line)) else None)
  }

  function CheckSections(cs: seq<DimCheck>): (xs: seq<Section>)
    ensures |xs| == |cs|
  {
    seq(|cs|, k requires 0 <= k < |cs| => CheckSize(cs[k]))
  }

  function FreeSections(rs: seq<Release>): (xs: seq<Section>)
    ensures |xs| == |rs|
  {
    seq(|rs|, k requires 0 <= k < |rs| => Free(rs[k]))
  }

  function Opening(comment: Section, ids: string, id: int): seq<Section>
  {
    [comment, StubIds(id, ids), Header(id), DeclareLocals, UnpackDims]
  }

  function Middle(id: int, call: string): seq<Section>
  {
    [UnpackInputs, CheckInputs, AllocOutputs, RecordCall(id), MakeCall(call), MarshalResults, ErrLabel]
  }

  /** A stub laid out from its parts: the comment, the signature, the
      routine id, the size checks, the call and the releases. */
  function Layout(comment: Section, ids: string, id: int, checks: seq<DimCheck>, call: string,
                  frees: seq<Release>): seq<Section>
  {
    Opening(comment, ids, id) + CheckSections(checks) + Middle(id, call) + FreeSections(frees) + [ReportError]
  }

  /** The stub of one representative, phase by phase. */
  function StubSections(level: int, reg: Registry, f: Func): seq<Section>
  {
    Layout(StubComment(f), IdString(level, f), f.id, DimChecks(f.args), CallExpr(f), Deallocs(reg, f))
  }

  method AppendChecks(secs: seq<Section>, cs: seq<DimCheck>) returns (secs': seq<Section>)
    ensures secs' == secs + CheckSections(cs)
  {
    secs' := secs;
    var i := 0;
    while i < |cs|
      invariant i <= |cs|
      invariant secs' == secs + CheckSections(cs[..i])
    {
      PrefixSnoc(cs, i);
      assert CheckSections(cs[..i + 1]) == CheckSections(cs[..i]) + [CheckSize(cs[i])];
      secs' := secs' + [CheckSize(cs[i])];
      i := i + 1;
    }
    assert cs[..i] == cs;
  }

  method AppendFrees(secs: seq<Section>, rs: seq<Release>) returns (secs': seq<Section>)
    ensures secs' == secs + FreeSections(rs)
  {
    secs' := secs;
    var j := 0;
    while j < |rs|
      invariant j <= |rs|
      invariant secs' == secs + FreeSections(rs[..j])
    {
      PrefixSnoc(rs, j);
      assert FreeSections(rs[..j + 1]) == FreeSections(rs[..j]) + [Free(rs[j])];
      secs' := secs' + [Free(rs[j])];
      j := j + 1;
    }
    assert rs[..j] == rs;
  }

  /** Writes one stub, phase by phase. */
  method PrintMexStub(level: int, reg: Registry, f: Func) returns (secs: seq<Section>)
    ensures secs == StubSections(level, reg, f)
  {
    var comment := StubComment(f);
    var ids := IdString(level, f);
    secs := Opening(comment, ids, f.id);
    var cs := CheckDims(f.args);
    secs := AppendChecks(secs, cs);
    var args := MakeCallArgs(f.args, true);
    var call := (if f.thisv.Some? then "in0_->" else "") +
      (if f.funcv == "new" then "new " + (if f.classv.Some? then f.classv.value else "") + "("
       else (if f.fort then "MWF77_" else "") + f.funcv + "(") + args + ")";
    assert call == CallExpr(f);
    secs := secs + Middle(f.id, call);
    var rs: seq<Release> := [];
    if !NullableReturn(f) {
      rs := DeallocVars(reg, f.ret, true);
    }
    var ra := DeallocVars(reg, f.args, false);
    rs := rs + ra;
    assert rs == Deallocs(reg, f);
    secs := AppendFrees(secs, rs);
    secs := secs + [ReportError];
  }

  /** Phases appear in their fixed order. */
  predicate InPhaseOrder(xs: seq<Section>)
  {
    forall i, j :: 0 <= i < j < |xs| ==> Rank(xs[i]) <= Rank(xs[j])
  }

  lemma OrderedConcat(a: seq<Section>, b: seq<Section>, r: int)
    requires InPhaseOrder(a) && InPhaseOrder(b)
    requires forall x :: x in a ==> Rank(x) <= r
    requires forall y :: y in b ==> r <= Rank(y)
    ensures InPhaseOrder(a + b)
  {
    forall i, j | 0 <= i < j < |a + b| ensures Rank((a + b)[i]) <= Rank((a + b)[j]) {
      if j < |a| {
        assert (a + b)[i] == a[i] && (a + b)[j] == a[j];
      } else if i >= |a| {
        assert (a + b)[i] == b[i - |a|] && (a + b)[j] == b[j - |a|];
      } else {
        assert (a + b)[i] in a && (a + b)[j] in b;
      }
    }
  }

  lemma ConcatMembers(a: seq<Section>, b: seq<Section>, r: int)
    requires forall x :: x in a ==> Rank(x) <= r
    requires forall y :: y in b ==> Rank(y) <= r
    ensures forall x :: x in a + b ==> Rank(x) <= r
  {
  }

  /** A stub laid out from any parts lists its phases in order. */
  lemma LayoutInOrder(comment: Section, ids: string, id: int, checks: seq<DimCheck>, call: string,
                      frees: seq<Release>)
    requires comment.Comment?
    ensures InPhaseOrder(Layout(comment, ids, id, checks, call, frees))
  {
    var o := Opening(comment, ids, id);
    var c := CheckSections(checks);
    var m := Middle(id, call);
    var d := FreeSections(frees);
    var e: seq<Section> := [ReportError];
    OpeningOrder(comment, ids, id);
    MiddleOrder(id, call);
    UniformOrder(c, 5);
    UniformOrder(d, 13);
    UniformOrder(e, 14);
    OrderedConcat(o, c, 5);
    ConcatMembers(o, c, 5);
    OrderedConcat(o + c, m, 6);
    ConcatMembers(o + c, m, 12);
    OrderedConcat(o + c + m, d, 13);
    ConcatMembers(o + c + m, d, 13);
    OrderedConcat(o + c + m + d, e, 14);
  }

  lemma OpeningOrder(comment: Section, ids: string, id: int)
    requires comment.Comment?
    ensures InPhaseOrder(Opening(comment, ids, id))
    ensures forall x :: x in Opening(comment, ids, id) ==> Rank(x) <= 4
  {
    var o := Opening(comment, ids, id);
    assert forall i :: 0 <= i < |o| ==> Rank(o[i]) == i;
  }

  lemma MiddleOrder(id: int, call: string)
    ensures InPhaseOrder(Middle(id, call))
    ensures forall x :: x in Middle(id, call) ==> 6 <= Rank(x) <= 12
  {
    var m := Middle(id, call);
    assert forall i :: 0 <= i < |m| ==> Rank(m[i]) == i + 6;
  }

  lemma UniformOrder(xs: seq<Section>, r: nat)
    requires forall i :: 0 <= i < |xs| ==> Rank(xs[i]) == r
    ensures InPhaseOrder(xs)
    ensures forall x :: x in xs ==> Rank(x) == r
  {
  }

  /** Every stub lists its phases in the fixed order: comment, ids,
      header, declarations, dimension unpacking, size checks, input
      unpacking, input checks, output allocation, profiler count, call,
      marshalling, the error label, releases, error report. */
  lemma StubPhaseOrder(level: int, reg: Registry, f: Func)
    ensures InPhaseOrder(StubSections(level, reg, f))
  {
    LayoutInOrder(StubComment(f), IdString(level, f), f.id, DimChecks(f.args), CallExpr(f), Deallocs(reg, f));
  }

  /** In any laid-out stub the error label occurs once; every size check,
      the profiler count and the call come before it, and after it come
      the releases, in order, and the error report. */
  lemma LayoutErrorLabel(comment: Section, ids: string, id: int, checks: seq<DimCheck>, call: string,
                         frees: seq<Release>) returns (e: nat)
    requires comment.Comment?
    ensures var xs := Layout(comment, ids, id, checks, call, frees);
            e < |xs| && xs[e] == ErrLabel &&
            (forall i :: 0 <= i < |xs| && i != e ==> xs[i] != ErrLabel) &&
            (forall i :: 0 <= i < e ==> !xs[i].Free?) &&
            (forall i :: e < i < |xs| ==> !xs[i].CheckSize? && !xs[i].RecordCall? && !xs[i].MakeCall?) &&
            xs[e + 1..] == FreeSections(frees) + [ReportError]
  {
    var xs := Layout(comment, ids, id, checks, call, frees);
    var c := CheckSections(checks);
    e := 5 + |c| + 6;
    LayoutInOrder(comment, ids, id, checks, call, frees);
    var head := Opening(comment, ids, id) + c + Middle(id, call);
    var tail := FreeSections(frees) + [ReportError];
    assert |head| == e + 1;
    assert xs == head + tail;
    assert xs[e] == head[e] == ErrLabel;
    assert xs[e + 1..] == tail;
    forall i | 0 <= i < |xs| && i != e ensures xs[i] != ErrLabel {
      if i < e {
        assert Rank(xs[i]) <= Rank(xs[e]);
        assert xs[i] == head[i];
        if i < 5 + |c| {
          assert head[i] == (Opening(comment, ids, id) + c)[i];
        } else {
          assert head[i] == Middle(id, call)[i - 5 - |c|];
        }
      } else {
        assert xs[i] == tail[i - e - 1];
      }
    }
  }

  /** The stub of a representative: one error label, the releases of
      its variables after it and nothing else but the error report, and
      the size checks, the profiler count and the call before it. */
  lemma StubErrorLabel(level: int, reg: Registry, f: Func) returns (e: nat)
    ensures var xs := StubSections(level, reg, f);
            e < |xs| && xs[e] == ErrLabel &&
            (forall i :: 0 <= i < |xs| && i != e ==> xs[i] != ErrLabel) &&
            (forall i :: 0 <= i < e ==> !xs[i].Free?) &&
            (forall i :: e < i < |xs| ==> !xs[i].CheckSize? && !xs[i].RecordCall? && !xs[i].MakeCall?) &&
            xs[e + 1..] == FreeSections(Deallocs(reg, f)) + [ReportError]
  {
    e := LayoutErrorLabel(StubComment(f), IdString(level, f), f.id, DimChecks(f.args), CallExpr(f), Deallocs(reg, f));
  }
}
