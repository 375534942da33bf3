/** DiracImprovedStaggeredKD: the improved-staggered operator preconditioned by
    the Kahler-Dirac block inverse. The state is the operator object itself;
    the stencil, block-inverse, coarsening and scaling kernels are recorded as
    terms (see module Fields); `errorQuda` is a returned failure. */
module DiracKD {
  import opened QudaTypes
  import opened Fields
  import opened KDOperator

  /** The part of DiracParam the operator reads. `parent` is the type of the
      operator pointed to by `param.dirac`, or None for a null pointer. */
  datatype DiracParam = DiracParam(
    gauge: GaugeField?,
    fatGauge: GaugeField?,
    longGauge: GaugeField?,
    xInvKD: GaugeField?,
    parent: Option<DiracType>,
    mass: real,
    dagger: DagType)

  /** The `src` and `sol` pointers set by prepare and prepareSpecialMG. */
  datatype Prepared = Prepared(src: SpinorField, sol: SpinorField)

  /** A multigrid transfer operator, as far as this operator reads it. */
  datatype Transfer = Transfer(transferType: TransferType)

  /** The call createCoarseOp makes to the external coarsening kernel, which
      writes the coarse link field `y` and the coarse diagonal field `x`. */
  datatype CoarseOpCall = StaggeredCoarseOp(
    y: GaugeField,
    x: GaugeField,
    transfer: Transfer,
    fat: GaugeField,
    long: GaugeField,
    xinv: GaugeField,
    mass: real,
    allowTruncation: bool,
    diracType: DiracType,
    matpcType: MatPCType)

  /** Dirac::flipDagger: QUDA_DAG_YES becomes QUDA_DAG_NO and every other flag
      QUDA_DAG_YES. It toggles a valid flag, and it turns QUDA_DAG_INVALID into
      a flag the kernels read the same way, so flipping that one twice does not
      give it back. */
  function FlipDagger(d: DagType): (r: DagType)
    ensures r != DagInvalid
    ensures d != DagInvalid ==> r != d
    ensures d == DagInvalid ==> AsBool(r) == AsBool(d)
  {
    if d == DagYes then DagNo else DagYes
  }

  /** Dirac::newTmp: keep the slot's field if it holds one (reset is false),
      otherwise create a zero field shaped like `like` (reset is true). */
  method NewTmp(slot: SpinorField?, like: SpinorField) returns (tmp: SpinorField, reset: bool)
    ensures reset == (slot == null)
    ensures reset ==> fresh(tmp) && tmp.SameShape(like)
    ensures reset ==> tmp.data == Zeros
    ensures !reset ==> tmp == slot
    ensures DeleteTmp(tmp, reset) == slot
  {
    if slot == null {
      tmp := new SpinorField.Like(like);
      reset := true;
    } else {
      tmp := slot;
      reset := false;
    }
  }

  /** Dirac::deleteTmp: the slot's value after releasing `tmp`; the slot is
      emptied exactly when newTmp created the field, and otherwise keeps the
      lent field. */
  function DeleteTmp(tmp: SpinorField, reset: bool): (r: SpinorField?)
    ensures r == null <==> reset
    ensures r != null ==> r == tmp
  {
    if reset then null else tmp
  }

  /** Dirac::checkFullSpinor: both fields 5-dimensional, of one precision and
      full-lattice, and `out`'s volume twice the gauge field's checkerboard
      volume (`input`'s volume is not checked). */
  function CheckFullSpinor(out: SpinorField, input: SpinorField, gauge: GaugeField): (r: Outcome)
    ensures r.Pass? <==>
              input.nDim == 5 && out.nDim == 5 && input.precision == out.precision &&
              input.siteSubset == FullSiteSubset && out.siteSubset == FullSiteSubset &&
              out.volume / out.extent4 == 2 * gauge.volumeCB
  {
    if input.nDim != 5 || out.nDim != 5 then Fail(WrongDimension)
    else if input.precision != out.precision then Fail(PrecisionMismatch)
    else if input.siteSubset != FullSiteSubset || out.siteSubset != FullSiteSubset then Fail(NotFullParity)
    else if out.volume / out.extent4 != 2 * gauge.volumeCB then Fail(VolumeMismatch)
    else Pass
  }

  /** checkParitySpinor as written: it accepts a full `input` with a non-full
      `out`, so its volume clause can never reject. */
  function CheckParitySpinor(input: SpinorField, out: SpinorField, gauge: GaugeField): (r: Outcome)
    ensures r.Pass? <==>
              input.nDim == 5 && out.nDim == 5 && input.precision == out.precision &&
              input.siteSubset == FullSiteSubset && out.siteSubset != FullSiteSubset
    ensures r != Fail(VolumeMismatch)
  {
    if input.nDim != 5 || out.nDim != 5 then Fail(WrongDimension)
    else if input.precision != out.precision then Fail(PrecisionMismatch)
    else if input.siteSubset != FullSiteSubset || out.siteSubset == FullSiteSubset then Fail(NotFullParity)
    else if out.volume / out.extent4 != 2 * gauge.volumeCB && out.siteSubset == FullSiteSubset then
      Fail(VolumeMismatch)
    else Pass
  }

  /** checkParitySpinor as its message and its volume clause intend: both
      fields full, and the volume clause then decides. That is the full-spinor
      check with `out` first. */
  function CheckParitySpinorIntended(input: SpinorField, out: SpinorField, gauge: GaugeField): (r: Outcome)
    ensures r.Pass? <==>
              input.nDim == 5 && out.nDim == 5 && input.precision == out.precision &&
              input.siteSubset == FullSiteSubset && out.siteSubset == FullSiteSubset &&
              out.volume / out.extent4 == 2 * gauge.volumeCB
  {
    CheckFullSpinor(out, input, gauge)
  }

  /** With QUDA_DAG_INVALID, flipDagger yields a flag the kernels read the same
      way, so MdagM applies M's adjoint-flag sequence twice; that sequence is
      not its own adjoint. */
  lemma MdagMInvalidNotSelfAdjoint(fat: GaugeField, long: GaugeField, xinv: GaugeField, mass: real)
    ensures var s := MKernels(fat, long, xinv, mass, AsBool(DagInvalid)) +
                     MKernels(fat, long, xinv, mass, AsBool(FlipDagger(DagInvalid)));
            Adjoint(s) != s
  {
    var fwd := MKernels(fat, long, xinv, mass, false);
    var adj := MKernels(fat, long, xinv, mass, true);
    MAdjoint(fat, long, xinv, mass);
    AdjointInvolutive(fwd);
    AdjointAppend(adj, adj);
    assert (fwd + fwd)[0] != (adj + adj)[0];
  }

  /** Two well-formed full fields: the written check rejects them, the intended one accepts them. */
  lemma ParityCheckRejectsFullOutput(input: SpinorField, out: SpinorField, gauge: GaugeField)
    requires input.nDim == 5 && out.nDim == 5 && input.precision == out.precision
    requires input.siteSubset == FullSiteSubset && out.siteSubset == FullSiteSubset
    requires out.volume / out.extent4 == 2 * gauge.volumeCB
    ensures CheckParitySpinor(input, out, gauge) == Fail(NotFullParity)
    ensures CheckParitySpinorIntended(input, out, gauge) == Pass
  {
  }

  class ImprovedStaggeredKD {
    /** Dirac::gauge, the field the base class checks volumes against. */
    var gauge: GaugeField?
    var fatGauge: GaugeField?
    var longGauge: GaugeField?
    /** The Kahler-Dirac block inverse. */
    var xinv: GaugeField?
    /** The type of the operator this one was built to precondition. */
    var parentDiracType: DiracType
    var mass: real
    var dagger: DagType
    /** Flops performed so far. */
    var flops: nat
    /** Scratch slots; null when no field is lent. */
    var tmp1: SpinorField?
    var tmp2: SpinorField?

    /** Every field reference the kernels dereference is set. */
    predicate Configured()
      reads this
    {
      gauge != null && fatGauge != null && longGauge != null && xinv != null
    }

    constructor (param: DiracParam)
      ensures gauge == param.gauge && fatGauge == param.fatGauge && longGauge == param.longGauge
      ensures xinv == param.xInvKD
      ensures parentDiracType == (if param.parent.None? then InvalidDirac else param.parent.value)
      ensures mass == param.mass && dagger == param.dagger
      ensures flops == 0 && tmp1 == null && tmp2 == null
    {
      gauge := param.gauge;
      fatGauge := param.fatGauge;
      longGauge := param.longGauge;
      mass := param.mass;
      dagger := param.dagger;
      flops := 0;
      tmp1 := null;
      tmp2 := null;
      xinv := param.xInvKD;
      parentDiracType := if param.parent.None? then InvalidDirac else param.parent.value;
    }

    constructor Copy(dirac: ImprovedStaggeredKD)
      ensures gauge == dirac.gauge && fatGauge == dirac.fatGauge && longGauge == dirac.longGauge
      ensures xinv == dirac.xinv && parentDiracType == dirac.parentDiracType
      ensures mass == dirac.mass && dagger == dirac.dagger
      ensures flops == 0 && tmp1 == null && tmp2 == null
    {
      gauge := dirac.gauge;
      fatGauge := dirac.fatGauge;
      longGauge := dirac.longGauge;
      mass := dirac.mass;
      dagger := dirac.dagger;
      flops := 0;
      tmp1 := null;
      tmp2 := null;
      xinv := dirac.xinv;
      parentDiracType := dirac.parentDiracType;
    }

    /** operator=: copies the configuration of `dirac`; assigning an operator to itself changes nothing. */
    method Assign(dirac: ImprovedStaggeredKD)
      modifies this
      ensures dirac == this ==> unchanged(this)
      ensures dirac != this ==>
                gauge == old(dirac.gauge) && fatGauge == old(dirac.fatGauge) &&
                longGauge == old(dirac.longGauge) && mass == old(dirac.mass) &&
                dagger == old(dirac.dagger) &&
                xinv == old(dirac.xinv) && parentDiracType == old(dirac.parentDiracType)
      ensures flops == old(flops) && tmp1 == old(tmp1) && tmp2 == old(tmp2)
    {
      if dirac != this {
        // the base-class assignment
        gauge := dirac.gauge;
        fatGauge := dirac.fatGauge;
        longGauge := dirac.longGauge;
        mass := dirac.mass;
        dagger := dirac.dagger;
        // this class's own members
        xinv := dirac.xinv;
        parentDiracType := dirac.parentDiracType;
      }
    }

    /** There is no single-parity form: Dslash always fails. */
    method Dslash(out: SpinorField, input: SpinorField, parity: Parity) returns (r: Outcome)
      ensures r == Fail(NoSingleParityForm)
    {
      r := Fail(NoSingleParityForm);
    }

    /** There is no single-parity form: DslashXpay always fails. */
    method DslashXpay(out: SpinorField, input: SpinorField, parity: Parity, x: SpinorField, k: real)
      returns (r: Outcome)
      ensures r == Fail(NoSingleParityForm)
    {
      r := Fail(NoSingleParityForm);
    }

    /** The full operator: on success `out` holds M applied to `input`, flops grow
        by the same amount whatever the adjoint flag, and the scratch slot is
        as it was. */
    method M(out: SpinorField, input: SpinorField) returns (r: Outcome)
      requires Configured()
      requires tmp2 != null ==> tmp2 != out && tmp2 != input
      modifies this`flops, this`tmp2, out, tmp2
      ensures r == CheckFullSpinor(out, input, gauge)
      ensures tmp2 == old(tmp2)
      ensures r.Fail? ==> flops == old(flops) && out.data == old(out.data)
      ensures r.Fail? && tmp2 != null ==> tmp2.data == old(tmp2.data)
      ensures r.Pass? ==> out.data == Apply(MKernels(fatGauge, longGauge, xinv, mass, AsBool(dagger)), old(input.data))
      ensures r.Pass? ==> flops == old(flops) + MFlops(mass == 0.0, input.volume)
    {
      r := CheckFullSpinor(out, input, gauge);
      if r.Fail? {
        return;
      }
      var t, reset := NewTmp(tmp2, input);
      tmp2 := t;

      if dagger == DagNo {
        if mass == 0.0 {
          t.data := Applied(ImprovedStaggered(fatGauge, longGauge, 0.0, AsBool(DagYes)), input.data);
          flops := flops + 1146 * input.volume;
        } else {
          t.data := Applied(ImprovedStaggered(fatGauge, longGauge, 2.0 * mass, AsBool(dagger)), input.data);
          flops := flops + 1158 * input.volume;
        }
        out.data := Applied(KahlerDiracInverse(xinv, false), t.data);
        flops := flops + (8 * 48 - 2) * 48 * input.volume / 16;
      } else {
        t.data := Applied(KahlerDiracInverse(xinv, true), input.data);
        flops := flops + (8 * 48 - 2) * 48 * input.volume / 16;
        if mass == 0.0 {
          out.data := Applied(ImprovedStaggered(fatGauge, longGauge, 0.0, AsBool(DagNo)), t.data);
          flops := flops + 1146 * input.volume;
        } else {
          out.data := Applied(ImprovedStaggered(fatGauge, longGauge, 2.0 * mass, AsBool(dagger)), t.data);
          flops := flops + 1158 * input.volume;
        }
      }

      tmp2 := DeleteTmp(t, reset);
      ghost var ops := MKernels(fatGauge, longGauge, xinv, mass, AsBool(dagger));
      ApplyPair(ops[0], ops[1], old(input.data));
    }

    /** Dirac::Mdag: M with the adjoint flag flipped for the duration of the
        call. A valid flag is restored and M runs with the opposite one;
        QUDA_DAG_INVALID runs M's own kernels and ends as QUDA_DAG_NO. When M
        fails the program aborts before the flag is flipped back, so the flag
        is left flipped once. */
    method Mdag(out: SpinorField, input: SpinorField) returns (r: Outcome)
      requires Configured()
      requires tmp2 != null ==> tmp2 != out && tmp2 != input
      modifies this`flops, this`tmp2, this`dagger, out, tmp2
      ensures r == CheckFullSpinor(out, input, gauge)
      ensures tmp2 == old(tmp2)
      ensures r.Pass? ==> dagger == FlipDagger(FlipDagger(old(dagger)))
      ensures r.Pass? && old(dagger) != DagInvalid ==> dagger == old(dagger)
      ensures r.Fail? ==> dagger == FlipDagger(old(dagger))
      ensures r.Fail? ==> flops == old(flops) && out.data == old(out.data)
      ensures r.Fail? && tmp2 != null ==> tmp2.data == old(tmp2.data)
      ensures r.Pass? ==> out.data == Apply(MKernels(fatGauge, longGauge, xinv, mass, AsBool(FlipDagger(old(dagger)))), old(input.data))
      ensures r.Pass? && old(dagger) != DagInvalid ==>
                out.data == Apply(MKernels(fatGauge, longGauge, xinv, mass, !AsBool(old(dagger))), old(input.data))
      ensures r.Pass? ==> flops == old(flops) + MFlops(mass == 0.0, input.volume)
    {
      dagger := FlipDagger(dagger);
      r := M(out, input);
      if r.Fail? {
        return;
      }
      dagger := FlipDagger(dagger);
    }

    /** The scratch fields already lent, if any, are not the caller's fields
        and not each other. */
    predicate ScratchDisjoint(out: SpinorField, input: SpinorField)
      reads this
    {
      (tmp1 != null ==> tmp1 != out && tmp1 != input) &&
      (tmp2 != null ==> tmp2 != out && tmp2 != input && tmp2 != tmp1)
    }

    /** MdagM: `out` receives Mdag(M(input)) by way of the scratch field `scratch`
        (the lent tmp1, or a fresh field shaped like `input`); both scratch
        slots end as they began. For QUDA_DAG_NO and QUDA_DAG_YES the result is
        self-adjoint (MdagMSelfAdjoint). With QUDA_DAG_INVALID both steps run
        M's adjoint-flag kernels, the result is not self-adjoint
        (MdagMInvalidNotSelfAdjoint), and the flag ends as QUDA_DAG_NO. A failure
        in the Mdag step aborts with the flag flipped once. */
    method MdagM(out: SpinorField, input: SpinorField) returns (r: Outcome, ghost scratch: SpinorField)
      requires Configured()
      requires ScratchDisjoint(out, input)
      modifies this`flops, this`tmp1, this`tmp2, this`dagger, out, tmp1, tmp2
      ensures old(tmp1) != null ==> scratch == old(tmp1)
      ensures old(tmp1) == null ==> fresh(scratch) && scratch.SameShape(input)
      ensures r.Pass? <==> CheckFullSpinor(scratch, input, gauge).Pass? && CheckFullSpinor(out, scratch, gauge).Pass?
      ensures r.Pass? && old(dagger) != DagInvalid ==> dagger == old(dagger)
      ensures r.Pass? ==> dagger == FlipDagger(FlipDagger(old(dagger)))
      ensures r.Fail? && CheckFullSpinor(scratch, input, gauge).Fail? ==> dagger == old(dagger)
      ensures r.Fail? && CheckFullSpinor(scratch, input, gauge).Pass? ==> dagger == FlipDagger(old(dagger))
      ensures tmp2 == old(tmp2)
      ensures r.Pass? ==> tmp1 == old(tmp1)
      ensures r.Pass? ==>
                out.data == Apply(MKernels(fatGauge, longGauge, xinv, mass, AsBool(old(dagger))) +
                                  MKernels(fatGauge, longGauge, xinv, mass, AsBool(FlipDagger(old(dagger)))),
                                  old(input.data))
      ensures r.Pass? && old(dagger) != DagInvalid ==>
                out.data == Apply(MdagMKernels(fatGauge, longGauge, xinv, mass, AsBool(old(dagger))), old(input.data))
      ensures r.Pass? ==> flops == old(flops) + MFlops(mass == 0.0, input.volume) + MFlops(mass == 0.0, scratch.volume)
    {
      var t, reset := NewTmp(tmp1, input);
      tmp1 := t;
      scratch := t;

      r := M(t, input);
      if r.Fail? {
        return;
      }
      ghost var mid := t.data;
      r := Mdag(out, t);
      if r.Fail? {
        return;
      }

      tmp1 := DeleteTmp(t, reset);
      ghost var fwd := MKernels(fatGauge, longGauge, xinv, mass, AsBool(old(dagger)));
      ghost var adj := MKernels(fatGauge, longGauge, xinv, mass, AsBool(FlipDagger(old(dagger))));
      ApplyAppend(fwd, adj, old(input.data));
    }

    /** KahlerDiracInv: the block inverse, adjoint exactly when the flag is QUDA_DAG_YES. */
    method KahlerDiracInv(out: SpinorField, input: SpinorField)
      requires xinv != null
      modifies out
      ensures out.data == Applied(KahlerDiracInverse(xinv, dagger == DagYes), old(input.data))
    {
      out.data := Applied(KahlerDiracInverse(xinv, dagger == DagYes), input.data);
    }

    /** prepare: refuses the two single-parity solution types; otherwise the
        solver works on `b` and `x` themselves and no data changes. */
    method Prepare(x: SpinorField, b: SpinorField, solType: SolutionType) returns (r: Result<Prepared>)
      ensures r.Err? <==> solType == MatPCSolution || solType == MatPCDagMatPCSolution
      ensures r.Err? ==> r.error == PreconditionedSolution
      ensures r.Ok? ==> r.value.src == b && r.value.sol == x
    {
      if IsPCSolution(solType) {
        return Err(PreconditionedSolution);
      }
      r := Ok(Prepared(b, x));
    }

    /** prepareSpecialMG: after the solution-type and field checks, `b` is
        replaced by the right-hand side its parent type calls for; an unknown
        parent is refused before `b` is written. */
    method PrepareSpecialMG(x: SpinorField, b: SpinorField, solType: SolutionType) returns (r: Result<Prepared>)
      requires gauge != null && xinv != null
      requires tmp1 != null ==> tmp1 != b
      modifies this`tmp1, b, tmp1
      ensures IsPCSolution(solType) ==> r == Err(PreconditionedSolution)
      ensures !IsPCSolution(solType) && CheckFullSpinor(x, b, gauge).Fail? ==> r == Err(CheckFullSpinor(x, b, gauge).error)
      ensures !IsPCSolution(solType) && CheckFullSpinor(x, b, gauge).Pass? ==>
                var rhs := PreparedRhs(parentDiracType, xinv, dagger == DagYes, mass, old(b.data));
                (rhs.Err? ==> r == Err(rhs.error)) &&
                (rhs.Ok? ==> r == Ok(Prepared(b, x)) && b.data == rhs.value)
      ensures r.Err? ==> b.data == old(b.data)
      ensures r.Ok? ==> tmp1 == old(tmp1)
    {
      if IsPCSolution(solType) {
        return Err(PreconditionedSolution);
      }
      var check := CheckFullSpinor(x, b, gauge);
      if check.Fail? {
        return Err(check.error);
      }

      var t, reset := NewTmp(tmp1, b);
      tmp1 := t;
      KahlerDiracInv(t, b);

      if parentDiracType == AsqtadDirac {
        b.data := t.data;
      } else if parentDiracType == AsqtadPCDirac {
        b.data := t.data;
        b.data := Applied(Ax(0.5, mass), b.data);
      } else {
        return Err(UnexpectedParentType(parentDiracType));
      }

      tmp1 := DeleteTmp(t, reset);
      r := Ok(Prepared(b, x));
    }

    /** reconstruct: nothing to undo. */
    method Reconstruct(x: SpinorField, b: SpinorField, solType: SolutionType)
      ensures unchanged(this, x, b)
    {
    }

    /** reconstructSpecialMG: nothing to undo. */
    method ReconstructSpecialMG(x: SpinorField, b: SpinorField, solType: SolutionType)
      ensures unchanged(this, x, b)
    {
    }

    /** updateFields: swaps in new fat and long links (the base class records
        the fat links as its gauge field); the first gauge argument and the
        clover field are ignored, and Xinv and the parent type are kept. */
    method UpdateFields(gaugeIn: GaugeField?, fatGaugeIn: GaugeField?, longGaugeIn: GaugeField?, cloverIn: CloverField?)
      modifies this`gauge, this`fatGauge, this`longGauge
      ensures gauge == fatGaugeIn && fatGauge == fatGaugeIn && longGauge == longGaugeIn
    {
      gauge := fatGaugeIn;
      fatGauge := fatGaugeIn;
      longGauge := longGaugeIn;
    }

    /** createCoarseOp: only aggregation coarsening is supported; the kernel
        gets the mass argument (not the operator's own), the truncation flag,
        and the fixed ASQTADKD and no-preconditioning tags. */
    method CreateCoarseOp(y: GaugeField, x: GaugeField, t: Transfer, kappa: real, mass: real, mu: real,
                          muFactor: real, allowTruncation: bool) returns (r: Result<CoarseOpCall>)
      requires t.transferType == TransferAggregate ==> fatGauge != null && longGauge != null && xinv != null
      ensures r.Ok? <==> t.transferType == TransferAggregate
      ensures r.Err? ==> r.error == AggregationOnly
      ensures r.Ok? ==> r.value.y == y && r.value.x == x && r.value.transfer == t
      ensures r.Ok? ==> r.value.fat == fatGauge && r.value.long == longGauge && r.value.xinv == xinv
      ensures r.Ok? ==> r.value.mass == mass && r.value.allowTruncation == allowTruncation
      ensures r.Ok? ==> r.value.diracType == AsqtadKDDirac && r.value.matpcType == MatPCInvalid
    {
      if t.transferType != TransferAggregate {
        return Err(AggregationOnly);
      }
      r := Ok(StaggeredCoarseOp(y, x, t, fatGauge, longGauge, xinv, mass, allowTruncation,
                                AsqtadKDDirac, MatPCInvalid));
    }

    /** prefetch: the fat and long links move to `memSpace`, and so does Xinv
        when it is set. */
    method Prefetch(memSpace: FieldLocation)
      requires fatGauge != null && longGauge != null
      modifies fatGauge, longGauge, xinv
      ensures fatGauge.location == memSpace && longGauge.location == memSpace
      ensures xinv != null ==> xinv.location == memSpace
    {
      // the base class's prefetch
      fatGauge.location := memSpace;
      longGauge.location := memSpace;
      if xinv != null {
        xinv.location := memSpace;
      }
    }
  }

  /** An operator built without a parent operator records QUDA_INVALID_DIRAC,
      so prepareSpecialMG always fails on it and leaves `b` alone. */
  method PrepareSpecialMGWithoutParent(param: DiracParam, x: SpinorField, b: SpinorField, solType: SolutionType)
    returns (r: Result<Prepared>)
    requires param.parent.None?
    requires param.gauge != null && param.xInvKD != null
    modifies b
    ensures r.Err? && b.data == old(b.data)
  {
    var op := new ImprovedStaggeredKD(param);
    r := op.PrepareSpecialMG(x, b, solType);
  }
}
