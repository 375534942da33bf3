/** Specification of the Kahler-Dirac preconditioned improved-staggered operator
    as sequences of kernel calls, with the properties the operator relies on:
    the forward and adjoint forms are adjoint to each other, MdagM is
    self-adjoint for either boolean adjoint flag, the flop count does not
    depend on the adjoint flag, and, for an ASQTAD parent with the forward
    flag, the prepared right-hand side gives a system with the parent's
    solutions. */
module KDOperator {
  import opened QudaTypes
  import opened Fields

  /** The stencil call M makes. The kernel only adds the diagonal term when its
      coefficient is non-zero, so at zero mass M applies the stencil with the
      opposite adjoint flag (D^dagger = -D) to keep the sign of 2m - D. */
  function StencilKernel(fat: GaugeField, long: GaugeField, mass: real, adjoint: bool): Kernel
  {
    if mass == 0.0 then ImprovedStaggered(fat, long, 0.0, !adjoint)
    else ImprovedStaggered(fat, long, 2.0 * mass, adjoint)
  }

  /** The kernels M applies, first one first: stencil then forward block
      inverse, or adjoint block inverse then stencil. */
  function MKernels(fat: GaugeField, long: GaugeField, xinv: GaugeField, mass: real, adjoint: bool): (ops: seq<Kernel>)
    ensures |ops| == 2
    ensures var kd := if adjoint then ops[0] else ops[1];
            kd == KahlerDiracInverse(xinv, adjoint)
    ensures var st := if adjoint then ops[1] else ops[0];
            st.ImprovedStaggered? && st.fat == fat && st.long == long &&
            st.diag == (if mass == 0.0 then 0.0 else 2.0 * mass) &&
            st.dagger == (if mass == 0.0 then !adjoint else adjoint)
  {
    if !adjoint then [StencilKernel(fat, long, mass, false), KahlerDiracInverse(xinv, false)]
    else [KahlerDiracInverse(xinv, true), StencilKernel(fat, long, mass, true)]
  }

  /** MdagM: M with the operator's flag, then M with the flag toggled. */
  function MdagMKernels(fat: GaugeField, long: GaugeField, xinv: GaugeField, mass: real, adjoint: bool): seq<Kernel>
  {
    MKernels(fat, long, xinv, mass, adjoint) + MKernels(fat, long, xinv, mass, !adjoint)
  }

  // ---------------------------------------------------------------------------
  // Adjoints

  /** The kernels' adjoint convention: the dagger flag of the stencil (with a
      real diagonal coefficient) and of the block inverse selects the adjoint;
      scaling by a real number is self-adjoint. */
  function AdjointKernel(k: Kernel): Kernel
  {
    match k
    case ImprovedStaggered(fat, long, diag, dagger) => ImprovedStaggered(fat, long, diag, !dagger)
    case KahlerDiracInverse(xinv, dagger) => KahlerDiracInverse(xinv, !dagger)
    case Ax(_, _) => k
  }

  /** The adjoint of a product: the factors reversed, each replaced by its adjoint. */
  function Adjoint(ops: seq<Kernel>): seq<Kernel>
    decreases |ops|
  {
    if ops == [] then [] else Adjoint(ops[1..]) + [AdjointKernel(ops[0])]
  }

  lemma {:induction false} AdjointAppend(a: seq<Kernel>, b: seq<Kernel>)
    ensures Adjoint(a + b) == Adjoint(b) + Adjoint(a)
    decreases |a|
  {
    if a == [] {
      assert a + b == b;
    } else {
      assert (a + b)[1..] == a[1..] + b;
      AdjointAppend(a[1..], b);
    }
  }

  lemma {:induction false} AdjointInvolutive(ops: seq<Kernel>)
    ensures Adjoint(Adjoint(ops)) == ops
    decreases |ops|
  {
    if ops != [] {
      var k := AdjointKernel(ops[0]);
      AdjointAppend(Adjoint(ops[1..]), [k]);
      assert Adjoint([k]) == [ops[0]] by {
        assert [k][1..] == [];
      }
      AdjointInvolutive(ops[1..]);
      assert [ops[0]] + ops[1..] == ops;
    }
  }

  lemma {:induction false} ApplyAppend(a: seq<Kernel>, b: seq<Kernel>, v: Vec)
    ensures Apply(a + b, v) == Apply(b, Apply(a, v))
    decreases |a|
  {
    if a == [] {
      assert a + b == b;
    } else {
      assert (a + b)[1..] == a[1..] + b;
      ApplyAppend(a[1..], b, Applied(a[0], v));
    }
  }

  lemma ApplyPair(k0: Kernel, k1: Kernel, v: Vec)
    ensures Apply([k0, k1], v) == Applied(k1, Applied(k0, v))
  {
    assert [k0, k1][1..] == [k1];
    assert [k1][1..] == [];
    assert Apply([k1], Applied(k0, v)) == Applied(k1, Applied(k0, v));
  }

  lemma AdjointPair(k0: Kernel, k1: Kernel)
    ensures Adjoint([k0, k1]) == [AdjointKernel(k1), AdjointKernel(k0)]
  {
    assert [k0, k1][1..] == [k1];
    assert [k1][1..] == [];
    assert Adjoint([k1]) == [AdjointKernel(k1)];
  }

  /** M with the adjoint flag set is the adjoint of M without it, for zero and
      non-zero mass alike. */
  lemma MAdjoint(fat: GaugeField, long: GaugeField, xinv: GaugeField, mass: real)
    ensures MKernels(fat, long, xinv, mass, true) == Adjoint(MKernels(fat, long, xinv, mass, false))
  {
    AdjointPair(StencilKernel(fat, long, mass, false), KahlerDiracInverse(xinv, false));
  }

  /** MdagM is self-adjoint for either boolean adjoint flag, that is for
      QUDA_DAG_NO and QUDA_DAG_YES; QUDA_DAG_INVALID does not lead here (see
      DiracKD.MdagMInvalidNotSelfAdjoint). */
  lemma MdagMSelfAdjoint(fat: GaugeField, long: GaugeField, xinv: GaugeField, mass: real, adjoint: bool)
    ensures Adjoint(MdagMKernels(fat, long, xinv, mass, adjoint)) == MdagMKernels(fat, long, xinv, mass, adjoint)
  {
    var fwd := MKernels(fat, long, xinv, mass, false);
    var adj := MKernels(fat, long, xinv, mass, true);
    MAdjoint(fat, long, xinv, mass);
    AdjointInvolutive(fwd);
    assert Adjoint(adj) == fwd;
    if adjoint {
      AdjointAppend(adj, fwd);
    } else {
      AdjointAppend(fwd, adj);
    }
  }

  // ---------------------------------------------------------------------------
  // Flop accounting

  /** Flops of one stencil call: 1146 per site without the diagonal term, 1158 with it. */
  function StencilFlops(massIsZero: bool, volume: nat): nat
  {
    (if massIsZero then 1146 else 1158) * volume
  }

  /** Flops of one block-inverse call, counted per 2^4 block of 16 sites. */
  function KahlerDiracInverseFlops(volume: nat): (f: nat)
    ensures f == 1146 * volume
  {
    (8 * 48 - 2) * 48 * volume / 16
  }

  /** Flops of one application of M; the same with the adjoint flag set or not. */
  function MFlops(massIsZero: bool, volume: nat): (f: nat)
    ensures f == (if massIsZero then 2292 else 2304) * volume
  {
    StencilFlops(massIsZero, volume) + KahlerDiracInverseFlops(volume)
  }

  // ---------------------------------------------------------------------------
  // Right-hand side for the special multigrid embedding

  /** The right-hand side prepareSpecialMG leaves in `b`, by parent operator type. */
  function PreparedRhs(parent: DiracType, xinv: GaugeField, adjoint: bool, mass: real, rhs: Vec): (r: Result<Vec>)
    ensures r.Ok? <==> parent == AsqtadDirac || parent == AsqtadPCDirac
    ensures r.Err? ==> r.error == UnexpectedParentType(parent)
    ensures parent == AsqtadDirac ==> r.value == Applied(KahlerDiracInverse(xinv, adjoint), rhs)
    ensures parent == AsqtadPCDirac ==>
              r.value == Applied(Ax(0.5, mass), Applied(KahlerDiracInverse(xinv, adjoint), rhs))
  {
    var kd := Applied(KahlerDiracInverse(xinv, adjoint), rhs);
    match parent
    case AsqtadDirac => Ok(kd)
    case AsqtadPCDirac => Ok(Applied(Ax(0.5, mass), kd))
    case _ => Err(UnexpectedParentType(parent))
  }

  /** For an unpreconditioned asqtad parent, the forward KD operator with the
      prepared right-hand side has exactly the solutions of the parent's
      staggered system: this is why reconstruction has nothing to do. The
      block inverse is invertible; in the model every kernel application is
      injective. Only the forward flag with an ASQTAD parent is covered: what
      the 0.5/mass rescaling for an ASQTADPC parent achieves is not stated. */
  lemma PreparedSystemEquivalent(fat: GaugeField, long: GaugeField, xinv: GaugeField, mass: real, x: Vec, b: Vec)
    ensures Apply(MKernels(fat, long, xinv, mass, false), x) == PreparedRhs(AsqtadDirac, xinv, false, mass, b).value
            <==> Applied(StencilKernel(fat, long, mass, false), x) == b
  {
    var s := StencilKernel(fat, long, mass, false);
    var k := KahlerDiracInverse(xinv, false);
    calc {
      Apply(MKernels(fat, long, xinv, mass, false), x);
      Apply([k], Applied(s, x));
      { assert [k][1..] == []; }
      Applied(k, Applied(s, x));
    }
  }
}
