// The MATLAB stub printed for each declaration. The stub sets the
// routine id, names the written variables on the left and passes the
// read values to the MEX entry point. Each piece of text is paired with
// the slot it stands for, so that the agreement between the stub's
// argument order and the slot labelling can be stated and proved.

module Mgen {
  import opened Ast
  import opened Typecheck

  /** A piece of the stub's text and the slot it fills. */
  datatype Operand = Operand(text: string, slot: int)

  function Texts(ops: seq<Operand>): seq<string>
  {
    seq(|ops|, k requires 0 <= k < |ops| => ops[k].text)
  }

  function Slots(ops: seq<Operand>): seq<int>
  {
    seq(|ops|, k requires 0 <= k < |ops| => ops[k].slot)
  }

  lemma SlotsAppend(a: seq<Operand>, b: seq<Operand>)
    ensures Slots(a + b) == Slots(a) + Slots(b)
  {
  }

  /** The written variables' names, each with its output slot. */
  function OutputOperands(vs: seq<Var>): seq<Operand>
    decreases |vs|
  {
    if vs == [] then []
    else
      var v := vs[|vs| - 1];
      OutputOperands(vs[..|vs| - 1]) + (if IsOutputDir(v.iospec) then [Operand(v.name, v.outputLabel)] else [])
  }

  /** The names of the output and inout variables, in order. */
  function OutputArgNames(vs: seq<Var>): seq<string>
  {
    Texts(OutputOperands(vs))
  }

  /** What the read arguments contribute: ", 0" for a constant (the glue
      routine supplies its literal), ", name" for an input or inout
      variable, nothing for an output-only one. */
  function InputOperands(vs: seq<Var>): seq<Operand>
    decreases |vs|
  {
    if vs == [] then []
    else
      var v := vs[|vs| - 1];
      InputOperands(vs[..|vs| - 1]) +
        (if v.tinfo == Const then [Operand(", 0", v.inputLabel)]
         else if IsInputDir(v.iospec) then [Operand(", " + v.name, v.inputLabel)]
         else [])
  }

  function ExprOperands(es: seq<Expr>): seq<Operand>
  {
    seq(|es|, m requires 0 <= m < |es| => Operand(", " + es[m].value, es[m].inputLabel))
  }

  /** Every dimension expression's text, whatever its variable's direction. */
  function DimOperands(vs: seq<Var>): seq<Operand>
    decreases |vs|
  {
    if vs == [] then [] else DimOperands(vs[..|vs| - 1]) + ExprOperands(Dims(vs[|vs| - 1]))
  }

  /** The values passed after the routine id: the bound object, the read
      arguments, then the return's and the arguments' dimensions. */
  function CallOperands(f: Func): seq<Operand>
  {
    (if f.thisv.Some? then [Operand(", " + f.thisv.value, 0)] else []) +
    InputOperands(f.args) + DimOperands(f.ret) + DimOperands(f.args)
  }

  function CallNames(f: Func): seq<string>
  {
    OutputArgNames(f.ret) + OutputArgNames(f.args)
  }

  /** The stub's left-hand side: empty when nothing is written. */
  function OutputList(names: seq<string>): (s: string)
    ensures names == [] <==> s == ""
  {
    if names == [] then "" else "[" + Join(names, ", ") + "] = "
  }

  /** The MATLAB text for one declaration. */
  function MatlabCall(f: Func, mexfunc: string): (s: string)
    ensures var head := "mex_id_ = " + IntToString(f.id) + ";\n";
            |s| > |head| && s[..|head|] == head
    ensures |s| >= 3 && s[|s| - 3..] == ");\n"
  {
    var head := "mex_id_ = " + IntToString(f.id) + ";\n";
    var call := mexfunc + "(" + "mex_id_" + Join(Texts(CallOperands(f)), "") + ");\n";
    assert (head + OutputList(CallNames(f)) + call)[..|head|] == head;
    head + OutputList(CallNames(f)) + call
  }

  /** The MATLAB output file after the stubs of `calls`, in order; it is
      empty exactly when no stub was written. */
  function MatlabFile(calls: seq<Func>, mexfunc: string): (s: string)
    ensures s == "" <==> calls == []
    decreases |calls|
  {
    if calls == [] then ""
    else MatlabFile(calls[..|calls| - 1], mexfunc) + MatlabCall(calls[|calls| - 1], mexfunc)
  }

  // ---------------------------------------------------------------------
  // Agreement with the slot labelling
  // ---------------------------------------------------------------------

  lemma {:induction false} OutputOperandSlots(vs: seq<Var>)
    ensures Slots(OutputOperands(vs)) == OutLabels(vs)
    decreases |vs|
  {
    if vs != [] {
      var n := |vs| - 1;
      OutputOperandSlots(vs[..n]);
      var v := vs[n];
      SlotsAppend(OutputOperands(vs[..n]), if IsOutputDir(v.iospec) then [Operand(v.name, v.outputLabel)] else []);
    }
  }

  /** When every constant is read, the read arguments contribute exactly
      their input slots, in order. */
  lemma {:induction false} InputOperandSlots(vs: seq<Var>)
    requires forall k :: 0 <= k < |vs| && vs[k].tinfo == Const ==> IsInputDir(vs[k].iospec)
    ensures Slots(InputOperands(vs)) == InLabels(vs)
    decreases |vs|
  {
    if vs != [] {
      var n := |vs| - 1;
      assert forall k :: 0 <= k < n ==> vs[..n][k] == vs[k];
      InputOperandSlots(vs[..n]);
      var v := vs[n];
      SlotsAppend(InputOperands(vs[..n]),
        if v.tinfo == Const then [Operand(", 0", v.inputLabel)]
        else if IsInputDir(v.iospec) then [Operand(", " + v.name, v.inputLabel)]
        else []);
    }
  }

  lemma {:induction false} DimOperandSlots(vs: seq<Var>)
    ensures Slots(DimOperands(vs)) == DimLabels(vs)
    decreases |vs|
  {
    if vs != [] {
      var n := |vs| - 1;
      DimOperandSlots(vs[..n]);
      SlotsAppend(DimOperands(vs[..n]), ExprOperands(Dims(vs[n])));
    }
  }

  lemma {:induction false} NoReadNoInLabels(vs: seq<Var>)
    requires forall k :: 0 <= k < |vs| ==> !IsInputDir(vs[k].iospec)
    ensures InLabels(vs) == [] && CountIn(vs) == 0
    decreases |vs|
  {
    if vs != [] {
      var n := |vs| - 1;
      assert forall k :: 0 <= k < n ==> vs[..n][k] == vs[k];
      NoReadNoInLabels(vs[..n]);
    }
  }

  /** For a declaration with no errors and a write-only return value (as
      every parsed return is), the k-th value after the routine id fills
      input slot k: the stub and the glue routine agree argument by
      argument. */
  lemma StubInputsFollowSlots(reg: Registry, f: Func)
    requires AnalysisErrors(reg, f) == 0
    requires forall k :: 0 <= k < |f.ret| ==> f.ret[k].iospec == 'o'
    ensures var ops := CallOperands(Analysed(reg, f));
            IsRun(Slots(ops), 0, |ops|)
  {
    var g := Analysed(reg, f);
    AnalysisKeepsSlots(reg, f);
    LabelsContiguous(f);
    AnalysedRetNotRead(reg, f);
    AnalysedConstantsRead(reg, f);
    OperandsRun(g, FirstInput(f));
  }

  lemma AnalysedRetNotRead(reg: Registry, f: Func)
    requires forall k :: 0 <= k < |f.ret| ==> f.ret[k].iospec == 'o'
    ensures forall k :: 0 <= k < |Analysed(reg, f).ret| ==> !IsInputDir(Analysed(reg, f).ret[k].iospec)
  {
    var g, l := Analysed(reg, f), Labelled(f);
    AnalysisKeepsSlots(reg, f);
    forall k | 0 <= k < |g.ret|
      ensures !IsInputDir(g.ret[k].iospec)
    {
      assert Slot(g.ret[k]) == Slot(l.ret[k]);
      ListSlotAt(f.ret, l.ret, FirstInput(f), 0, FirstDimSlot(f), k);
    }
  }

  lemma AnalysedConstantsRead(reg: Registry, f: Func)
    requires AnalysisErrors(reg, f) == 0
    ensures forall k :: 0 <= k < |Analysed(reg, f).args| && Analysed(reg, f).args[k].tinfo == Const ==>
              IsInputDir(Analysed(reg, f).args[k].iospec)
  {
    var g, l := Analysed(reg, f), Labelled(f);
    AnalysisKeepsSlots(reg, f);
    forall k | 0 <= k < |g.args| && g.args[k].tinfo == Const
      ensures IsInputDir(g.args[k].iospec)
    {
      ErrorFreeConstantsAreInputs(reg, f, k);
      assert Slot(g.args[k]) == Slot(l.args[k]);
      ListSlotAt(f.args, l.args, ArgFirstInput(f), CountOut(f.ret), ArgFirstDim(f), k);
    }
  }

  /** The stub's values follow the slots of any declaration whose slots
      after the bound object's form a run, whose return is not read and
      whose constants are read. */
  lemma OperandsRun(g: Func, lo: nat)
    requires lo == if g.thisv.Some? then 1 else 0
    requires IsRun(InputSlots(g), lo, |InputSlots(g)|)
    requires forall k :: 0 <= k < |g.ret| ==> !IsInputDir(g.ret[k].iospec)
    requires forall k :: 0 <= k < |g.args| && g.args[k].tinfo == Const ==> IsInputDir(g.args[k].iospec)
    ensures IsRun(Slots(CallOperands(g)), 0, |CallOperands(g)|)
  {
    var t := if g.thisv.Some? then [Operand(", " + g.thisv.value, 0)] else [];
    CallSlots(g, t);
    assert IsRun(Slots(t), 0, |t|) && |t| == lo;
    RunAppend(Slots(t), InputSlots(g), 0, |t|, |InputSlots(g)|);
  }

  /** The slots the stub's values fill: the bound object's, then the
      declaration's input slots in the order they were assigned. */
  lemma CallSlots(g: Func, t: seq<Operand>)
    requires t == if g.thisv.Some? then [Operand(", " + g.thisv.value, 0)] else []
    requires forall k :: 0 <= k < |g.ret| ==> !IsInputDir(g.ret[k].iospec)
    requires forall k :: 0 <= k < |g.args| && g.args[k].tinfo == Const ==> IsInputDir(g.args[k].iospec)
    ensures Slots(CallOperands(g)) == Slots(t) + InputSlots(g)
  {
    NoReadNoInLabels(g.ret);
    InputOperandSlots(g.args);
    DimOperandSlots(g.ret);
    DimOperandSlots(g.args);
    var a, b, c := InputOperands(g.args), DimOperands(g.ret), DimOperands(g.args);
    assert CallOperands(g) == t + a + b + c;
    SlotsAppend(t, a);
    SlotsAppend(t + a, b);
    SlotsAppend(t + a + b, c);
  }

  /** The names on the stub's left-hand side fill output slots 0, 1, ...
      in order: the k-th name is the variable the glue routine returns
      in slot k. */
  lemma StubOutputsFollowSlots(reg: Registry, f: Func)
    ensures var g := Analysed(reg, f);
            var ops := OutputOperands(g.ret) + OutputOperands(g.args);
            Texts(ops) == CallNames(g) && IsRun(Slots(ops), 0, |ops|)
  {
    var g, l := Analysed(reg, f), Labelled(f);
    AnalysisKeepsSlots(reg, f);
    LabelsContiguous(f);
    TextsAppend(OutputOperands(g.ret), OutputOperands(g.args));
    OutputsRun(g.ret, g.args, l.ret, l.args);
  }

  lemma TextsAppend(a: seq<Operand>, b: seq<Operand>)
    ensures Texts(a + b) == Texts(a) + Texts(b)
  {
  }

  lemma OutputsRun(gr: seq<Var>, ga: seq<Var>, lr: seq<Var>, la: seq<Var>)
    requires SameSlots(gr, lr) && SameSlots(ga, la)
    requires IsRun(OutLabels(lr) + OutLabels(la), 0, |OutLabels(lr) + OutLabels(la)|)
    ensures IsRun(Slots(OutputOperands(gr) + OutputOperands(ga)), 0, |OutputOperands(gr) + OutputOperands(ga)|)
  {
    var a, b := OutputOperands(gr), OutputOperands(ga);
    SameSlotsSameLabels(gr, lr);
    SameSlotsSameLabels(ga, la);
    OutputOperandSlots(gr);
    OutputOperandSlots(ga);
    SlotsAppend(a, b);
    assert Slots(a + b) == OutLabels(lr) + OutLabels(la);
  }

  /** Each argument contributes at most one value, and exactly one when
      it is read or constant; the dimension values number the
      dimension expressions. */
  lemma {:induction false} OperandCounts(vs: seq<Var>)
    ensures |InputOperands(vs)| <= |vs|
    ensures |DimOperands(vs)| == CountDims(vs)
    ensures |OutputOperands(vs)| == CountOut(vs)
    decreases |vs|
  {
    if vs != [] {
      OperandCounts(vs[..|vs| - 1]);
    }
  }
}
