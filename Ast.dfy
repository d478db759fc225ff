// The abstract syntax of an mwrap declaration, the type categories the
// analyser assigns, the compilation context (type registries, the class
// hierarchy, integer-promotion policy and usage flags), and the canonical
// signature string used to detect duplicate declarations.

module Ast {

  datatype Option<T> = None | Some(value: T)

  // ---------------------------------------------------------------------
  // Type categories
  // ---------------------------------------------------------------------

  /** The closed set of categories a variable is classified into. */
  datatype VT =
    | Unk | Obj | Array | CArray | ZArray | RArray
    | Scalar | CScalar | ZScalar | String | Mx
    | PObj | PScalar | PCScalar | PZScalar
    | RObj | RScalar | RCScalar | RZScalar | Const

  /** The enumeration's numeric code, as the source numbers it. */
  function Code(t: VT): (n: nat)
    ensures n < 20
    ensures t == Unk <==> n == 0
  {
    match t
    case Unk => 0       case Obj => 1       case Array => 2     case CArray => 3
    case ZArray => 4    case RArray => 5    case Scalar => 6    case CScalar => 7
    case ZScalar => 8   case String => 9    case Mx => 10       case PObj => 11
    case PScalar => 12  case PCScalar => 13 case PZScalar => 14 case RObj => 15
    case RScalar => 16  case RCScalar => 17 case RZScalar => 18 case Const => 19
  }

  lemma CodeInjective(s: VT, t: VT)
    ensures Code(s) == Code(t) ==> s == t
  {
  }

  // Direction tags: 'i' input, 'o' output, 'b' both (inout).

  predicate IsInputDir(c: char) { c == 'i' || c == 'b' }
  predicate IsOutputDir(c: char) { c == 'o' || c == 'b' }
  predicate IsInOnlyDir(c: char) { c == 'i' }

  /** Every legal direction is an input or an output; 'b' is both, and
      input-only means input and not output. */
  lemma DirectionsExact(c: char)
    requires c == 'i' || c == 'o' || c == 'b'
    ensures IsInputDir(c) || IsOutputDir(c)
    ensures IsInputDir(c) && IsOutputDir(c) <==> c == 'b'
    ensures IsInOnlyDir(c) <==> IsInputDir(c) && !IsOutputDir(c)
    ensures !IsInputDir(c) <==> c == 'o'
  {
  }

  predicate IsArray(t: VT) { t == Array || t == CArray || t == ZArray }
  predicate IsObj(t: VT) { t == Obj || t == PObj || t == RObj }

  predicate IsComplex(t: VT)
  {
    t == CArray || t == ZArray || t == CScalar || t == ZScalar ||
    t == RCScalar || t == RZScalar || t == PCScalar || t == PZScalar
  }

  /** The array and object category sets are disjoint, no object is
      complex, and exactly two array categories are complex. */
  lemma CategorySetsDisjoint(t: VT)
    ensures !(IsArray(t) && IsObj(t))
    ensures IsObj(t) ==> !IsComplex(t)
    ensures IsArray(t) && IsComplex(t) <==> t == CArray || t == ZArray
  {
  }

  // ---------------------------------------------------------------------
  // Syntax tree
  // ---------------------------------------------------------------------

  /** A dimension expression (an identifier or a number) and its input slot. */
  datatype Expr = Expr(value: string, inputLabel: int)

  /** The four qualifiers: '*' pointer, '&' reference, 'a' array (written
      "[dims]") and 'r' array reference (written "[dims]&"). */
  datatype QualKind = Ptr | Ref | Arr | ArrRef

  /** The one-letter code of a qualifier. */
  function QualChar(k: QualKind): (c: char)
  {
    match k
    case Ptr => '*'
    case Ref => '&'
    case Arr => 'a'
    case ArrRef => 'r'
  }

  lemma QualCharInjective(k: QualKind, l: QualKind)
    ensures QualChar(k) == QualChar(l) ==> k == l
  {
  }

  /** A type qualifier; the two array forms carry their dimension expressions. */
  datatype TypeQual = TypeQual(qual: QualKind, args: seq<Expr>)

  datatype Var = Var(
    devicespec: char,          // 'c' host or 'g' accelerator
    iospec: char,              // 'i', 'o' or 'b'
    basetype: string,
    qual: Option<TypeQual>,
    name: string,
    tinfo: VT,
    inputLabel: int,
    outputLabel: int)

  datatype Func = Func(
    thisv: Option<string>,     // bound object of a method call
    classv: Option<string>,    // its class
    funcv: string,             // callee name
    fname: string,
    line: int,
    fort: bool,                // FORTRAN linkage
    id: int,
    args: seq<Var>,
    ret: seq<Var>,             // zero or one element
    same: seq<Func>)           // later declarations with the same signature

  /** A freshly parsed variable: category unknown, no slots. */
  function NewVar(dev: char, io: char, basetype: string, qual: Option<TypeQual>, name: string): (v: Var)
    ensures v.tinfo == Unk && v.inputLabel == -1 && v.outputLabel == -1
    ensures v.devicespec == dev && v.iospec == io && v.basetype == basetype && v.qual == qual && v.name == name
  {
    Var(dev, io, basetype, qual, name, Unk, -1, -1)
  }

  /** The dimension expressions of a variable (none when unqualified). */
  function Dims(v: Var): seq<Expr>
  {
    if v.qual.Some? then v.qual.value.args else []
  }

  /** True when the return value may legitimately be a null pointer and is
      therefore neither allocated up front nor released. */
  predicate NullableReturn(f: Func)
  {
    |f.ret| > 0 &&
    var t := f.ret[0].tinfo;
    t == String || t == Array || t == CArray || t == ZArray ||
    t == PScalar || t == PCScalar || t == PZScalar
  }

  /** Exactly the array, string and pointer-scalar returns are nullable. */
  lemma NullableReturnExact(f: Func)
    ensures NullableReturn(f) <==> |f.ret| > 0 && (IsArray(f.ret[0].tinfo) || f.ret[0].tinfo in {String, PScalar, PCScalar, PZScalar})
  {
  }

  // ---------------------------------------------------------------------
  // Strings
  // ---------------------------------------------------------------------

  function Join(parts: seq<string>, sep: string): (r: string)
  {
    if |parts| == 0 then []
    else if |parts| == 1 then parts[0]
    else parts[0] + sep + Join(parts[1..], sep)
  }

  function DigitChar(d: nat): char
    requires d < 10
  {
    "0123456789"[d]
  }

  /** Decimal text of a natural number. */
  function NatToString(n: nat): (s: string)
    ensures |s| > 0
    ensures forall k :: 0 <= k < |s| ==> '0' <= s[k] <= '9'
    decreases n
  {
    if n < 10 then [DigitChar(n)] else NatToString(n / 10) + [DigitChar(n % 10)]
  }

  /** Decimal text of an integer, with a leading '-' when negative. */
  function IntToString(n: int): (s: string)
    ensures |s| > 0
    ensures (s[0] == '-') <==> n < 0
  {
    if n < 0 then "-" + NatToString(-n) else NatToString(n)
  }

  // ---------------------------------------------------------------------
  // Integer promotion
  // ---------------------------------------------------------------------

  /** The usage flags the context keeps for extended integer types. */
  datatype UseFlag =
    | UseInt32 | UseInt64 | UseUInt32 | UseUInt64 | UseLongLong
    | UseULongLong | UseULong | UseUInt | UseUShort | UseUChar

  predicate IsPromotable(name: string)
  {
    name == "int" || name == "long" || name == "uint" || name == "ulong"
  }

  /** The name a base type is rewritten to under promotion level `level`. */
  function Promote(level: int, name: string): (r: string)
  {
    if level == 1 then
      if name == "int" then "long" else if name == "uint" then "ulong" else name
    else if level == 2 then
      if name == "int" || name == "long" then "long"
      else if name == "uint" || name == "ulong" then "ulong"
      else name
    else if level == 3 then
      if name == "int" || name == "long" then "int32_t"
      else if name == "uint" || name == "ulong" then "uint64_t"
      else name
    else if level == 4 then
      if name == "int" || name == "long" then "int64_t"
      else if name == "uint" || name == "ulong" then "uint64_t"
      else name
    else name
  }

  /** The flags recorded for a name whatever the level. */
  function NameFlags(name: string): set<UseFlag>
  {
    if name == "int32_t" then {UseInt32}
    else if name == "int64_t" then {UseInt64}
    else if name == "uint32_t" then {UseUInt32}
    else if name == "uint64_t" then {UseUInt64}
    else if name == "ulong" then {UseULong}
    else if name == "uint" then {UseUInt}
    else if name == "ushort" then {UseUShort}
    else if name == "uchar" then {UseUChar}
    else {}
  }

  /** The extra flags a promotion level records for the four rewritten names. */
  function LevelFlags(level: int, name: string): set<UseFlag>
  {
    if level == 1 then (if name == "uint" then {UseULong} else {})
    else if level == 2 then (if name == "uint" || name == "ulong" then {UseULong} else {})
    else if level == 3 then
      if name == "int" then {UseInt32}
      else if name == "long" then {UseInt64}
      else if name == "uint" then {UseUInt32}
      else if name == "ulong" then {UseUInt64}
      else {}
    else if level == 4 then
      if name == "int" || name == "long" then {UseInt64}
      else if name == "uint" || name == "ulong" then {UseUInt64}
      else {}
    else {}
  }

  /** Everything promoting `name` once records. */
  function PromoteFlags(level: int, name: string): (fs: set<UseFlag>)
    ensures NameFlags(name) <= fs
    ensures !IsPromotable(name) ==> fs == NameFlags(name)
  {
    NameFlags(name) + LevelFlags(level, name)
  }

  /** The usage flag that governs the copiers of a fixed-width type name. */
  function TypeFlag(name: string): Option<UseFlag>
  {
    if name == "int32_t" then Some(UseInt32)
    else if name == "int64_t" then Some(UseInt64)
    else if name == "uint32_t" then Some(UseUInt32)
    else if name == "uint64_t" then Some(UseUInt64)
    else None
  }

  /** A promoted name is a fixed point: promoting it again returns it. */
  lemma PromoteIdempotent(level: int, name: string)
    ensures Promote(level, Promote(level, name)) == Promote(level, name)
  {
  }

  /** Level 0 leaves every name alone. */
  lemma PromoteLevelZero(name: string)
    ensures Promote(0, name) == name
  {
  }

  /** Only the four promotable names are ever rewritten: all four at
      levels 3 and 4, only "int" and "uint" at levels 1 and 2 (where
      "long" and "ulong" already are the target), none at other levels. */
  lemma PromoteOnlyPromotable(level: int, name: string)
    ensures !IsPromotable(name) ==> Promote(level, name) == name
    ensures 3 <= level <= 4 ==> (Promote(level, name) != name <==> IsPromotable(name))
    ensures 1 <= level <= 2 ==> (Promote(level, name) != name <==> name == "int" || name == "uint")
    ensures level < 1 || level > 4 ==> Promote(level, name) == name
  {
  }

  /** Promoting a name and then the result again (as the signature string
      does) records the usage flag of the fixed-width type finally used,
      even at level 3 where the first promotion of "long" and "uint" records
      the flag of a different width. */
  lemma RepromotionRecordsResultFlag(level: int, name: string)
    requires TypeFlag(Promote(level, name)).Some?
    ensures TypeFlag(Promote(level, name)).value in PromoteFlags(level, name) + PromoteFlags(level, Promote(level, name))
  {
  }

  // ---------------------------------------------------------------------
  // The compilation context
  // ---------------------------------------------------------------------

  /** The four type registries, as a value. */
  datatype Registry = Registry(scalars: set<string>, cscalars: set<string>, zscalars: set<string>, mxarrays: set<string>)

  /** The global switches, as a value. */
  datatype Switches = Switches(useGpu: bool, generateCatch: bool, useC99Complex: bool, useCppComplex: bool, promoteLevel: int)

  /** The base numeric types every run starts with. */
  const StandardScalars: seq<string> :=
    ["double", "float", "long", "int", "short", "char",
     "ulong", "uint", "ushort", "uchar",
     "int32_t", "int64_t", "uint32_t", "uint64_t",
     "bool", "size_t", "ptrdiff_t"]

  /** The class map after registering `child` under one parent: the child
      goes in front of the parent's existing subclasses. */
  function InsertChild(m: map<string, seq<string>>, child: string, parent: string): map<string, seq<string>>
  {
    m[parent := [child] + (if parent in m then m[parent] else [])]
  }

  /** The class map after registering `child` under each parent in turn. */
  function Inherit(m: map<string, seq<string>>, child: string, parents: seq<string>): map<string, seq<string>>
    decreases |parents|
  {
    if parents == [] then m
    else InsertChild(Inherit(m, child, parents[..|parents| - 1]), child, parents[|parents| - 1])
  }

  function Copies(x: string, n: nat): (s: seq<string>)
    ensures |s| == n && forall k :: 0 <= k < n ==> s[k] == x
  {
    if n == 0 then [] else [x] + Copies(x, n - 1)
  }

  /** The parents registered are exactly the old ones plus the listed ones. */
  lemma {:induction false} InheritDomain(m: map<string, seq<string>>, child: string, parents: seq<string>)
    ensures Inherit(m, child, parents).Keys == m.Keys + set p | p in parents
    decreases |parents|
  {
    if parents != [] {
      var init := parents[..|parents| - 1];
      InheritDomain(m, child, init);
      assert parents == init + [parents[|parents| - 1]];
    }
  }

  /** A parent not listed keeps its subclass list. */
  lemma {:induction false} InheritUnlisted(m: map<string, seq<string>>, child: string, parents: seq<string>, p: string)
    requires p !in parents && p in m
    ensures p in Inherit(m, child, parents) && Inherit(m, child, parents)[p] == m[p]
    decreases |parents|
  {
    if parents != [] {
      InheritUnlisted(m, child, parents[..|parents| - 1], p);
    }
  }

  /** A listed parent gets the child in front once per listing, and its
      existing subclasses follow in their old order. */
  lemma {:induction false} InheritListed(m: map<string, seq<string>>, child: string, parents: seq<string>, p: string)
    requires p in parents
    ensures p in Inherit(m, child, parents)
    ensures Inherit(m, child, parents)[p] ==
            Copies(child, multiset(parents)[p]) + (if p in m then m[p] else [])
    decreases |parents|
  {
    var init := parents[..|parents| - 1];
    var last := parents[|parents| - 1];
    assert parents == init + [last];
    assert multiset(parents) == multiset(init) + multiset{last};
    if p in init {
      InheritListed(m, child, init, p);
    } else {
      assert multiset(init)[p] == 0;
      if p in m {
        InheritUnlisted(m, child, init, p);
      } else {
        InheritDomain(m, child, init);
      }
    }
    if p in init && p == last {
      assert Copies(child, multiset(parents)[p]) == [child] + Copies(child, multiset(init)[p]);
    }
  }

  class Context {
    var useGpu: bool
    var generateCatch: bool
    var useC99Complex: bool
    var useCppComplex: bool
    var promoteLevel: int

    var scalarDecls: set<string>
    var cscalarDecls: set<string>
    var zscalarDecls: set<string>
    var mxarrayDecls: set<string>
    var classDecls: map<string, seq<string>>

    /** The usage flags currently set. */
    var uses: set<UseFlag>

    function Settings(): Switches
      reads this`useGpu, this`generateCatch, this`useC99Complex, this`useCppComplex, this`promoteLevel
    {
      Switches(useGpu, generateCatch, useC99Complex, useCppComplex, promoteLevel)
    }

    function Reg(): Registry
      reads this`scalarDecls, this`cscalarDecls, this`zscalarDecls, this`mxarrayDecls
    {
      Registry(scalarDecls, cscalarDecls, zscalarDecls, mxarrayDecls)
    }

    constructor ()
      ensures Settings() == Switches(false, false, false, false, 0)
      ensures Reg() == Registry({}, {}, {}, {})
      ensures classDecls == map[] && uses == {}
    {
      useGpu, generateCatch, useC99Complex, useCppComplex := false, false, false, false;
      promoteLevel := 0;
      scalarDecls, cscalarDecls, zscalarDecls, mxarrayDecls := {}, {}, {}, {};
      classDecls := map[];
      uses := {};
    }

    /** Clears the scalar registry and seeds it with the base types. */
    method InitScalarTypes()
      modifies this
      ensures scalarDecls == set t | t in StandardScalars
      ensures Settings() == old(Settings()) && uses == old(uses) && classDecls == old(classDecls)
      ensures cscalarDecls == old(cscalarDecls) && zscalarDecls == old(zscalarDecls) && mxarrayDecls == old(mxarrayDecls)
    {
      scalarDecls := {};
      var i := 0;
      while i < |StandardScalars|
        invariant 0 <= i <= |StandardScalars|
        invariant scalarDecls == set t | t in StandardScalars[..i]
        invariant Settings() == old(Settings()) && uses == old(uses) && classDecls == old(classDecls)
        invariant cscalarDecls == old(cscalarDecls) && zscalarDecls == old(zscalarDecls) && mxarrayDecls == old(mxarrayDecls)
      {
        assert StandardScalars[..i + 1] == StandardScalars[..i] + [StandardScalars[i]];
        scalarDecls := scalarDecls + {StandardScalars[i]};
        i := i + 1;
      }
      assert StandardScalars[..i] == StandardScalars;
    }

    predicate IsScalarType(name: string) reads this { name in scalarDecls }
    predicate IsCScalarType(name: string) reads this { name in cscalarDecls }
    predicate IsZScalarType(name: string) reads this { name in zscalarDecls }
    predicate IsMxArrayType(name: string) reads this { name in mxarrayDecls }

    method AddScalarType(name: string)
      modifies this`scalarDecls
      ensures Reg() == old(Reg()).(scalars := old(scalarDecls) + {name})
      ensures Settings() == old(Settings()) && uses == old(uses) && classDecls == old(classDecls)
    {
      scalarDecls := scalarDecls + {name};
    }

    method AddCScalarType(name: string)
      modifies this`cscalarDecls
      ensures Reg() == old(Reg()).(cscalars := old(cscalarDecls) + {name})
      ensures Settings() == old(Settings()) && uses == old(uses) && classDecls == old(classDecls)
    {
      cscalarDecls := cscalarDecls + {name};
    }

    method AddZScalarType(name: string)
      modifies this`zscalarDecls
      ensures Reg() == old(Reg()).(zscalars := old(zscalarDecls) + {name})
      ensures Settings() == old(Settings()) && uses == old(uses) && classDecls == old(classDecls)
    {
      zscalarDecls := zscalarDecls + {name};
    }

    method AddMxArrayType(name: string)
      modifies this`mxarrayDecls
      ensures Reg() == old(Reg()).(mxarrays := old(mxarrayDecls) + {name})
      ensures Settings() == old(Settings()) && uses == old(uses) && classDecls == old(classDecls)
    {
      mxarrayDecls := mxarrayDecls + {name};
    }

    /** Rewrites an integer type name under the current promotion level
        and records the usage flags that promotion implies. */
    method PromoteInt(name: string) returns (r: string)
      modifies this`uses
      ensures r == Promote(promoteLevel, name)
      ensures uses == old(uses) + PromoteFlags(promoteLevel, name)
      ensures Settings() == old(Settings()) && Reg() == old(Reg()) && classDecls == old(classDecls)
    {
      if name == "int32_t" { uses := uses + {UseInt32}; }
      if name == "int64_t" { uses := uses + {UseInt64}; }
      if name == "uint32_t" { uses := uses + {UseUInt32}; }
      if name == "uint64_t" { uses := uses + {UseUInt64}; }
      if name == "ulong" { uses := uses + {UseULong}; }
      if name == "uint" { uses := uses + {UseUInt}; }
      if name == "ushort" { uses := uses + {UseUShort}; }
      if name == "uchar" { uses := uses + {UseUChar}; }
      assert uses == old(uses) + NameFlags(name);
      r := name;
      if promoteLevel == 1 {
        if name == "uint" { uses := uses + {UseULong}; }
        if name == "int" { r := "long"; } else if name == "uint" { r := "ulong"; }
      } else if promoteLevel == 2 {
        if name == "uint" || name == "ulong" { uses := uses + {UseULong}; }
        if name == "int" || name == "long" { r := "long"; }
        else if name == "uint" || name == "ulong" { r := "ulong"; }
      } else if promoteLevel == 3 {
        if name == "int" { uses := uses + {UseInt32}; }
        if name == "long" { uses := uses + {UseInt64}; }
        if name == "uint" { uses := uses + {UseUInt32}; }
        if name == "ulong" { uses := uses + {UseUInt64}; }
        if name == "int" || name == "long" { r := "int32_t"; }
        else if name == "uint" || name == "ulong" { r := "uint64_t"; }
      } else if promoteLevel == 4 {
        if name == "int" || name == "long" { uses := uses + {UseInt64}; }
        if name == "uint" || name == "ulong" { uses := uses + {UseUInt64}; }
        if name == "int" || name == "long" { r := "int64_t"; }
        else if name == "uint" || name == "ulong" { r := "uint64_t"; }
      }
    }

    /** Registers `child` as the newest subclass of each listed parent. */
    method AddInherits(child: string, parents: seq<string>)
      modifies this`classDecls
      ensures classDecls == Inherit(old(classDecls), child, parents)
      ensures Settings() == old(Settings()) && Reg() == old(Reg()) && uses == old(uses)
    {
      var i := 0;
      while i < |parents|
        invariant 0 <= i <= |parents|
        invariant classDecls == Inherit(old(classDecls), child, parents[..i])
        invariant Settings() == old(Settings()) && Reg() == old(Reg()) && uses == old(uses)
      {
        var parent := parents[i];
        if parent !in classDecls {
          classDecls := classDecls[parent := []];
        }
        classDecls := classDecls[parent := [child] + classDecls[parent]];
        assert parents[..i + 1][..i] == parents[..i];
        i := i + 1;
      }
      assert parents[..i] == parents;
    }
  }

  // ---------------------------------------------------------------------
  // Canonical signature string
  // ---------------------------------------------------------------------

  /** One 'x' per dimension: the dimension names do not matter. */
  function IdExpr(args: seq<Expr>): (s: string)
  {
    seq(|args|, _ => 'x')
  }

  function IdQual(q: Option<TypeQual>): string
  {
    if q.None? then ""
    else if q.value.qual == Arr then "[" + IdExpr(q.value.args) + "]"
    else [QualChar(q.value.qual)]
  }

  function DeviceTag(c: char): string
  {
    if c == 'c' then "c " else if c == 'g' then "g " else ""
  }

  function DirectionTag(c: char): string
  {
    if c == 'i' then "i " else if c == 'o' then "o " else "io "
  }

  /** The canonical text of everything about a variable except a
      constant's literal. */
  function IdVarShape(level: int, v: Var): string
  {
    DeviceTag(v.devicespec) + DirectionTag(v.iospec) + Promote(level, v.basetype) + IdQual(v.qual)
  }

  function IdVarSingle(level: int, v: Var): string
  {
    IdVarShape(level, v) + (if v.tinfo == Const then " " + v.name else "")
  }

  function IdVarParts(level: int, vs: seq<Var>): (ps: seq<string>)
  {
    seq(|vs|, k requires 0 <= k < |vs| => IdVarSingle(level, vs[k]))
  }

  function IdVar(level: int, vs: seq<Var>): string
  {
    Join(IdVarParts(level, vs), ", ")
  }

  function IdPrefix(level: int, f: Func): string
  {
    (if f.ret != [] then IdVar(level, f.ret) + " = " else "") +
    (if f.thisv.Some? then f.thisv.value + "->" + (if f.classv.Some? then f.classv.value else "") + "." else "")
  }

  /** The canonical signature of a declaration. */
  function IdString(level: int, f: Func): string
  {
    IdPrefix(level, f) + f.funcv + "(" + IdVar(level, f.args) + ")"
  }

  /** The usage flags computing the signature records (it promotes every
      base type once more). */
  function IdFlags(level: int, vs: seq<Var>): set<UseFlag>
  {
    if vs == [] then {} else PromoteFlags(level, vs[0].basetype) + IdFlags(level, vs[1..])
  }

  /** Two variables with the same canonical shape: they may differ in
      the names of non-constant variables, in dimension names and in slots. */
  predicate SameShape(v: Var, w: Var)
  {
    v.devicespec == w.devicespec && v.iospec == w.iospec && v.basetype == w.basetype &&
    v.tinfo == w.tinfo && (v.tinfo == Const ==> v.name == w.name) &&
    v.qual.Some? == w.qual.Some? &&
    (v.qual.Some? ==> v.qual.value.qual == w.qual.value.qual && |v.qual.value.args| == |w.qual.value.args|)
  }

  predicate AllSameShape(vs: seq<Var>, ws: seq<Var>)
  {
    |vs| == |ws| && forall k :: 0 <= k < |vs| ==> SameShape(vs[k], ws[k])
  }

  lemma SameShapeSameId(level: int, v: Var, w: Var)
    requires SameShape(v, w)
    ensures IdVarSingle(level, v) == IdVarSingle(level, w)
  {
    assert IdQual(v.qual) == IdQual(w.qual);
  }

  /** Variable and dimension names do not enter the signature. */
  lemma IdIgnoresNames(level: int, f: Func, g: Func)
    requires AllSameShape(f.ret, g.ret) && AllSameShape(f.args, g.args)
    requires f.thisv == g.thisv && f.classv == g.classv && f.funcv == g.funcv
    ensures IdString(level, f) == IdString(level, g)
  {
    forall k | 0 <= k < |f.ret| ensures IdVarSingle(level, f.ret[k]) == IdVarSingle(level, g.ret[k]) {
      SameShapeSameId(level, f.ret[k], g.ret[k]);
    }
    forall k | 0 <= k < |f.args| ensures IdVarSingle(level, f.args[k]) == IdVarSingle(level, g.args[k]) {
      SameShapeSameId(level, f.args[k], g.args[k]);
    }
    assert IdVarParts(level, f.ret) == IdVarParts(level, g.ret);
    assert IdVarParts(level, f.args) == IdVarParts(level, g.args);
  }

  /** The text a join puts before part k. */
  function JoinPre(ps: seq<string>, sep: string, k: nat): string
    requires k < |ps|
  {
    Join(ps[..k], sep) + (if k > 0 then sep else [])
  }

  /** The text a join puts after part k. */
  function JoinPost(ps: seq<string>, sep: string, k: nat): string
    requires k < |ps|
  {
    if k + 1 < |ps| then sep + Join(ps[k + 1..], sep) else []
  }

  lemma {:induction false} JoinAt(ps: seq<string>, sep: string, k: nat)
    requires k < |ps|
    ensures Join(ps, sep) == JoinPre(ps, sep, k) + ps[k] + JoinPost(ps, sep, k)
    decreases k
  {
    if k > 0 {
      var tl := ps[1..];
      JoinAt(tl, sep, k - 1);
      assert tl[k - 1] == ps[k];
      assert tl[k..] == ps[k + 1..];
      assert JoinPost(tl, sep, k - 1) == JoinPost(ps, sep, k);
      assert tl[..k - 1] == ps[1..k];
      assert ps[..k][1..] == ps[1..k];
      if k == 1 {
        assert JoinPre(ps, sep, k) == ps[0] + sep;
      } else {
        assert Join(ps[..k], sep) == ps[0] + sep + Join(ps[1..k], sep);
        assert JoinPre(ps, sep, k) == ps[0] + sep + JoinPre(tl, sep, k - 1);
      }
    }
  }

  lemma Cancel(a: string, x: string, y: string, b: string)
    requires a + x + b == a + y + b
    ensures x == y
  {
    var s := a + x + b;
    assert |x| == |y|;
    assert x == s[|a|..|a| + |x|];
    assert y == (a + y + b)[|a|..|a| + |y|];
  }

  /** Changing the literal of one constant variable changes the text of
      the variable list. */
  lemma IdVarSeparatesConstants(level: int, vs: seq<Var>, k: nat, lit: string)
    requires k < |vs| && vs[k].tinfo == Const && lit != vs[k].name
    ensures IdVar(level, vs) != IdVar(level, vs[k := vs[k].(name := lit)])
  {
    var v := vs[k];
    var w := v.(name := lit);
    var ws := vs[k := w];
    var ps, qs := IdVarParts(level, vs), IdVarParts(level, ws);
    PartsAgreeOutside(level, vs, ws, k);
    var shape := IdVarShape(level, v) + " ";
    assert IdVarShape(level, w) == IdVarShape(level, v);
    assert ps[k] == IdVarSingle(level, v) == shape + v.name;
    assert qs[k] == IdVarSingle(level, w) == shape + lit;
    JoinDiffers(ps, qs, ", ", k, shape, v.name, lit);
  }

  /** Joins of parts that agree except at k, where they share a prefix
      and then differ, are different. */
  lemma JoinDiffers(ps: seq<string>, qs: seq<string>, sep: string, k: nat, shape: string, x: string, y: string)
    requires k < |ps| && k < |qs| && x != y
    requires ps[k] == shape + x && qs[k] == shape + y
    requires JoinPre(ps, sep, k) == JoinPre(qs, sep, k) && JoinPost(ps, sep, k) == JoinPost(qs, sep, k)
    ensures Join(ps, sep) != Join(qs, sep)
  {
    JoinAt(ps, sep, k);
    JoinAt(qs, sep, k);
    assert x == ps[k][|shape|..] && y == qs[k][|shape|..];
    if Join(ps, sep) == Join(qs, sep) {
      Cancel(JoinPre(ps, sep, k), ps[k], qs[k], JoinPost(ps, sep, k));
    }
  }

  lemma PartsAgreeOutside(level: int, vs: seq<Var>, ws: seq<Var>, k: nat)
    requires k < |vs| == |ws| && forall j :: 0 <= j < |vs| && j != k ==> vs[j] == ws[j]
    ensures JoinPre(IdVarParts(level, vs), ", ", k) == JoinPre(IdVarParts(level, ws), ", ", k)
    ensures JoinPost(IdVarParts(level, vs), ", ", k) == JoinPost(IdVarParts(level, ws), ", ", k)
  {
    var ps, qs := IdVarParts(level, vs), IdVarParts(level, ws);
    assert ps[..k] == qs[..k];
    assert ps[k + 1..] == qs[k + 1..];
  }

  /** Two declarations that differ only in the literal of one constant
      argument have different signatures. */
  lemma IdSeparatesConstants(level: int, f: Func, k: nat, lit: string)
    requires k < |f.args| && f.args[k].tinfo == Const && lit != f.args[k].name
    ensures IdString(level, f) != IdString(level, f.(args := f.args[k := f.args[k].(name := lit)]))
  {
    var g := f.(args := f.args[k := f.args[k].(name := lit)]);
    IdVarSeparatesConstants(level, f.args, k, lit);
    var head := IdPrefix(level, f) + f.funcv + "(";
    assert IdPrefix(level, g) == IdPrefix(level, f);
    assert IdString(level, f) == head + IdVar(level, f.args) + ")";
    assert IdString(level, g) == head + IdVar(level, g.args) + ")";
    if IdString(level, f) == IdString(level, g) {
      Cancel(head, IdVar(level, f.args), IdVar(level, g.args), ")");
    }
  }

  // ---------------------------------------------------------------------
  // Human-readable rendering (used in generated C comments)
  // ---------------------------------------------------------------------

  function PrintQual(q: Option<TypeQual>): string
  {
    if q.None? then ""
    else if q.value.qual == Arr then "[" + Join(seq(|q.value.args|, k requires 0 <= k < |q.value.args| => q.value.args[k].value), ", ") + "]"
    else [QualChar(q.value.qual)]
  }

  function PrintVar(v: Var): (s: string)
    ensures |s| > |v.name| && s[|s| - |v.name| - 1..] == " " + v.name
  {
    v.basetype + PrintQual(v.qual) + " " + v.name
  }

  function PrintArg(v: Var): string
  {
    (if v.devicespec == 'g' then "gpu " else "") +
    (if v.iospec == 'o' then "output " else if v.iospec == 'b' then "inout " else "") +
    PrintVar(v)
  }

  function PrintArgs(args: seq<Var>): (ps: seq<string>)
    ensures |ps| == |args|
  {
    seq(|args|, k requires 0 <= k < |args| => PrintArg(args[k]))
  }

  /** Everything of the rendered call before its first argument. */
  function PrintHead(f: Func): string
  {
    (if f.ret != [] then PrintVar(f.ret[0]) + " = " else "") + CallHead(f)
  }

  /** The callee with its object, if any, and the opening parenthesis. */
  function CallHead(f: Func): string
  {
    (if f.thisv.Some? then f.thisv.value + "->" + (if f.classv.Some? then f.classv.value else "") + "." else "") +
    f.funcv + "("
  }

  /** The declaration rendered back as a call statement. */
  function PrintFunc(f: Func): (s: string)
    ensures |s| >= |f.funcv| + 4 && s[|s| - 3..] == ");\n"
    ensures f.ret == [] && f.thisv.None? ==> s[..|f.funcv| + 1] == f.funcv + "("
  {
    PrintHead(f) + Join(PrintArgs(f.args), ", ") + ");\n"
  }

  /** Each argument appears rendered in its place: after the head and the
      arguments before it with their separators, and before the ones
      after it and the closing ");". */
  lemma PrintFuncArgAt(f: Func, k: nat)
    requires k < |f.args|
    ensures var ps := PrintArgs(f.args);
            PrintFunc(f) == PrintHead(f) + JoinPre(ps, ", ", k) + PrintArg(f.args[k]) + JoinPost(ps, ", ", k) + ");\n"
  {
    var ps := PrintArgs(f.args);
    JoinAt(ps, ", ", k);
    assert ps[k] == PrintArg(f.args[k]);
    ConcatRegroup(PrintHead(f), JoinPre(ps, ", ", k), ps[k], JoinPost(ps, ", ", k), ");\n");
  }

  /** A call without arguments renders as its head and ");". */
  lemma PrintFuncNoArgs(f: Func)
    requires f.args == []
    ensures PrintFunc(f) == PrintHead(f) + ");\n"
  {
  }

  /** A declared return value comes first, followed by " = " and the
      rendering of the same call without it. */
  lemma PrintFuncReturnFirst(f: Func)
    requires f.ret != []
    ensures PrintFunc(f) == PrintVar(f.ret[0]) + " = " + PrintFunc(f.(ret := []))
  {
    var g := f.(ret := []);
    var h := CallHead(f);
    var rest := Join(PrintArgs(f.args), ", ") + ");\n";
    assert CallHead(g) == h;
    assert PrintHead(g) == "" + h == h;
    ConcatAssoc(PrintVar(f.ret[0]) + " = ", h, rest);
  }

  lemma ConcatAssoc(a: string, b: string, c: string)
    ensures a + b + c == a + (b + c)
  {
  }

  lemma ConcatRegroup(h: string, a: string, x: string, b: string, t: string)
    ensures h + (a + x + b) + t == h + a + x + b + t
  {
  }
}
