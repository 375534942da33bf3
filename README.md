# Improved-staggered Kähler-Dirac operator (QUDA) in Dafny

This project models `DiracImprovedStaggeredKD` from QUDA. It is the improved (asqtad) staggered
Dirac operator preconditioned by the Kähler-Dirac (KD) block inverse `Xinv`. The operator does
little arithmetic of its own. It validates fermion-field metadata and calls external kernels in a
fixed order with fixed arguments: the staggered stencil, the KD block inverse, the coarsening
kernel and `blas::ax`. Along the way it counts flops, borrows and returns the scratch fields
`tmp1`/`tmp2`, and rescales the right-hand side according to the type of its parent operator.

Files and modules:

- `quda_types.dfy` (`QudaTypes`): the QUDA enumerations the operator reads (precision, site subset,
  dagger flag, Dirac type, solution type, transfer type, field location). It also holds the error
  kinds and the `Outcome`/`Result` types. A call to `errorQuda` becomes a returned failure.
- `fields.dfy` (`Fields`): gauge fields and fermion fields as classes. A fermion field has fixed
  shape metadata (`Ndim`, precision, site subset, `Volume`, `X(4)`) and contents `data`. The
  external kernels are uninterpreted: field contents are a term `Applied(kernel, arg)`. Each term
  records one kernel call and the arguments that distinguish it (gauge fields, diagonal
  coefficient, dagger flag, block field, scale factor).
- `kd_operator.dfy` (`KDOperator`): the specification of `M` as a sequence of kernel calls, and the
  adjoint of such a sequence. Under the kernels' adjoint convention, the dagger flag selects the
  adjoint and a real scale factor is self-adjoint. This file also holds the flop counts and the
  prepared right-hand side of the special multigrid path, with lemmas about them.
- `dirac_kd.dfy` (`DiracKD`): the class `ImprovedStaggeredKD` with the operator's state:
  - the base class's `gauge`, plus `fatGauge`, `longGauge`, `xinv` (the source's `Xinv`),
    `parentDiracType`, `mass`, `dagger`, `flops`, `tmp1` and `tmp2`;
  - every member function of the source file as a method;
  - the field-metadata checks as functions.

The base-class helpers that the source file calls but does not contain are given the behaviour
the code around them relies on:
- `checkFullSpinor` checks dimension, precision, full subset and volume against the gauge field.
- `newTmp` lends the slot's field or creates a zero field shaped like its argument, and reports
  which.
- `deleteTmp` clears the slot exactly when `newTmp` created the field.
- `Mdag` is `M` with the dagger flag flipped for the duration of the call.
- `Dirac::updateFields` records its first argument as `gauge`.
- The base assignment and constructors copy the gauge references, the mass and the dagger flag.
- The base `prefetch` moves the fat and long links.

## Model

| member | source | states |
|---|---|---|
| `DiracKD.CheckParitySpinor` | lib/dirac_improved_staggered_kd.cpp:34-49 | accepts exactly when both fields are 5-d, precisions agree, `in` is full and `out` is not full; never fails with the volume error (the clause at :46 is dead) |
| `DiracKD.CheckParitySpinorIntended` | lib/dirac_improved_staggered_kd.cpp:42-47 | corrected check: accepts exactly when both fields are 5-d, of one precision, both full, and `out`'s volume matches twice the gauge field's checkerboard volume |
| `DiracKD.ParityCheckRejectsFullOutput` | lib/dirac_improved_staggered_kd.cpp:42-46 | for two well-formed full fields the written check fails with "not full parity" and the corrected one passes |
| `DiracKD.ImprovedStaggeredKD.Dslash` | lib/dirac_improved_staggered_kd.cpp:51-54 | fails on every input with the no-single-parity-form error |
| `DiracKD.ImprovedStaggeredKD.DslashXpay` | lib/dirac_improved_staggered_kd.cpp:56-60 | fails on every input with the no-single-parity-form error |
| `KDOperator.MKernels` | lib/dirac_improved_staggered_kd.cpp:74-103 | two calls. Forward: stencil, then forward KD inverse. Adjoint: adjoint KD inverse, then stencil. Stencil diagonal is 0 at zero mass and 2·mass otherwise. Stencil dagger is the operator's flag negated at zero mass, equal otherwise |
| `KDOperator.MAdjoint` | lib/dirac_improved_staggered_kd.cpp:74-103 | the kernel sequence of M with the dagger flag set is exactly the adjoint of the sequence without it, at zero and non-zero mass |
| `KDOperator.ApplyPair` | lib/dirac_improved_staggered_kd.cpp:77-91 | applying a two-kernel sequence feeds the first kernel's result (the scratch field) to the second |
| `KDOperator.ApplyAppend` | lib/dirac_improved_staggered_kd.cpp:112-113 | applying a concatenated sequence is applying the first part, then the second to its result |
| `KDOperator.AdjointAppend` | lib/dirac_improved_staggered_kd.cpp:108-116 | the adjoint of a concatenation is the adjoint of the second part followed by that of the first |
| `KDOperator.AdjointInvolutive` | lib/dirac_improved_staggered_kd.cpp:108-116 | taking the adjoint twice gives back the original kernel sequence |
| `KDOperator.AdjointPair` | lib/dirac_improved_staggered_kd.cpp:74-103 | the adjoint of a two-kernel sequence swaps the kernels and flips each one's dagger flag |
| `KDOperator.MdagMSelfAdjoint` | lib/dirac_improved_staggered_kd.cpp:108-116 | the kernel sequence of MdagM equals its own adjoint for either boolean flag, i.e. for QUDA_DAG_NO and QUDA_DAG_YES |
| `DiracKD.MdagMInvalidNotSelfAdjoint` | lib/dirac_improved_staggered_kd.cpp:108-116 | with QUDA_DAG_INVALID the base `flipDagger` makes MdagM apply M's adjoint-flag sequence twice, and that sequence is not its own adjoint: the self-adjoint guarantee fails for that flag |
| `KDOperator.KahlerDiracInverseFlops` | lib/dirac_improved_staggered_kd.cpp:87 | the block-inverse count (8·48−2)·48·V/16 is exactly 1146·V |
| `KDOperator.MFlops` | lib/dirac_improved_staggered_kd.cpp:79-101 | one application of M counts 2292·V flops at zero mass and 2304·V otherwise; the count has no dagger argument |
| `DiracKD.ImprovedStaggeredKD.M` | lib/dirac_improved_staggered_kd.cpp:63-106 | fails exactly when the full-spinor check fails, and then changes nothing: not `out`, not the flops, not the lent `tmp2`'s contents. Otherwise `out` holds `MKernels` applied to `in` and flops grow by `MFlops`. `tmp2` ends as it began |
| `DiracKD.ImprovedStaggeredKD.Mdag` | lib/dirac_improved_staggered_kd.cpp:113 | as `M`, run with the flipped flag. For QUDA_DAG_NO/YES that is the kernel sequence of the opposite flag, and the flag ends as it began. For QUDA_DAG_INVALID it is `M`'s own sequence, and the flag ends as QUDA_DAG_NO. On failure the flag is left flipped once, as the abort inside `M` leaves it |
| `DiracKD.ImprovedStaggeredKD.MdagM` | lib/dirac_improved_staggered_kd.cpp:108-116 | uses the lent `tmp1` or a fresh field shaped like `in`. Succeeds exactly when both full-spinor checks of the two steps pass. `out` then holds M's sequence for the flag followed by M's sequence for the flipped flag, which for QUDA_DAG_NO/YES is `MdagMKernels`. Flops grow by two M counts, and both slots end as they began. On success a valid flag is kept and QUDA_DAG_INVALID ends as QUDA_DAG_NO. A failure in the first step leaves the flag as it was, and a failure in the second leaves it flipped once |
| `DiracKD.FlipDagger` | lib/dirac_improved_staggered_kd.cpp:113 | the base `flipDagger` that `Mdag` uses: never yields QUDA_DAG_INVALID, toggles a valid flag, and maps QUDA_DAG_INVALID to a flag the kernels read as the same adjoint choice |
| `DiracKD.NewTmp` | lib/dirac_improved_staggered_kd.cpp:72 | the base `newTmp` called at :72, :110 and :146: reset exactly when the slot is empty; then a fresh zero field shaped like the argument, else the slot's own field; releasing it with `DeleteTmp` gives back the slot's original value |
| `DiracKD.DeleteTmp` | lib/dirac_improved_staggered_kd.cpp:105 | the base `deleteTmp` called at :105, :115 and :158: the slot is emptied exactly when `newTmp` reported a reset, and otherwise keeps the lent field |
| `DiracKD.ImprovedStaggeredKD.KahlerDiracInv` | lib/dirac_improved_staggered_kd.cpp:118-121 | `out` holds the block inverse of `in`, adjoint exactly when the flag is QUDA_DAG_YES |
| `DiracKD.ImprovedStaggeredKD.Prepare` | lib/dirac_improved_staggered_kd.cpp:123-134 | fails exactly for QUDA_MATPC_SOLUTION and QUDA_MATPCDAG_MATPC_SOLUTION; otherwise `src` is `b`, `sol` is `x`, and nothing is modified |
| `KDOperator.PreparedRhs` | lib/dirac_improved_staggered_kd.cpp:147-156 | defined exactly for an ASQTAD or ASQTADPC parent. ASQTAD: the KD inverse of `b`. ASQTADPC: that result scaled by 0.5/mass. Any other parent: the unexpected-parent error |
| `KDOperator.PreparedSystemEquivalent` | lib/dirac_improved_staggered_kd.cpp:145-169 | for an ASQTAD parent and the forward flag, M x equals the prepared right-hand side exactly when the parent's stencil applied to x equals `b`, so reconstruction has nothing to do |
| `DiracKD.ImprovedStaggeredKD.PrepareSpecialMG` | lib/dirac_improved_staggered_kd.cpp:136-161 | rejects the two preconditioned solution types, then the full-spinor check. Otherwise `b` becomes `PreparedRhs` of its old value and `src`/`sol` are `b`/`x`. An unknown parent fails without writing `b`, and `tmp1` ends as it began on success |
| `DiracKD.PrepareSpecialMGWithoutParent` | lib/dirac_improved_staggered_kd.cpp:13 | an operator built with a null parent operator fails in prepareSpecialMG for every input and leaves `b` unchanged |
| `DiracKD.ImprovedStaggeredKD.Reconstruct` | lib/dirac_improved_staggered_kd.cpp:163-169 | changes nothing |
| `DiracKD.ImprovedStaggeredKD.ReconstructSpecialMG` | lib/dirac_improved_staggered_kd.cpp:171-178 | changes nothing |
| `DiracKD.ImprovedStaggeredKD.UpdateFields` | lib/dirac_improved_staggered_kd.cpp:180-186 | the fat and long links (and the base gauge field) become the given fat and long links. Only these three fields may change, so the first gauge argument, the clover field, `xinv` and the parent type have no effect |
| `DiracKD.ImprovedStaggeredKD.CreateCoarseOp` | lib/dirac_improved_staggered_kd.cpp:188-195 | fails exactly when the transfer is not aggregation. Otherwise the coarsening call gets `Y`, `X`, the transfer, the operator's fat/long/Xinv fields, the mass argument (not the operator's mass), the truncation flag, QUDA_ASQTADKD_DIRAC and QUDA_MATPC_INVALID |
| `DiracKD.ImprovedStaggeredKD.Prefetch` | lib/dirac_improved_staggered_kd.cpp:197-201 | the fat and long links move to the requested memory space, and so does Xinv when it is set; nothing else may change |
| `DiracKD.ImprovedStaggeredKD.constructor` | lib/dirac_improved_staggered_kd.cpp:10-15 | takes Xinv from the parameters; the parent type is QUDA_INVALID_DIRAC when there is no parent operator, else that operator's type |
| `DiracKD.ImprovedStaggeredKD.Copy` | lib/dirac_improved_staggered_kd.cpp:17-20 | copies Xinv, the parent type and the base configuration |
| `DiracKD.ImprovedStaggeredKD.Assign` | lib/dirac_improved_staggered_kd.cpp:24-32 | assigning an operator to itself changes nothing. Otherwise Xinv, the parent type and the base configuration are copied |
| `DiracKD.CheckFullSpinor` | lib/dirac_improved_staggered_kd.cpp:70 | the base-class full-spinor check that `M` and `prepareSpecialMG` call: passes exactly when both fields are 5-d, of one precision and full, and `out`'s volume matches twice the gauge field's checkerboard volume (`in`'s volume is not checked) |

## Findings

| source | as written | input that shows it | evidently intended | confidence | as-written member | corrected member |
|---|---|---|---|---|---|---|
| lib/dirac_improved_staggered_kd.cpp:42 | rejects when `out` IS full (`out.SiteSubset() == QUDA_FULL_SITE_SUBSET`), so a full `in` with a single-parity `out` passes and the volume clause at :46 can never fire | `in` and `out` both 5-d, same precision, both full, volume matching: rejected with "ColorSpinorFields are not full parity" | reject when `out` is NOT full, so that both fields must be full as the message says and the :46 volume clause decides | medium; not executed | `DiracKD.CheckParitySpinor` with `DiracKD.ParityCheckRejectsFullOutput` | `DiracKD.CheckParitySpinorIntended` |

Nothing in the source file calls `checkParitySpinor`; `Dslash` and `DslashXpay` raise their error
without it. The corrected check therefore has no caller in this model either.

## Left out

- The floating-point arithmetic of the kernels `ApplyImprovedStaggered`,
  `ApplyStaggeredKahlerDiracInverse`, `StaggeredCoarseOp` and `blas::ax`. They are
  uninterpreted: a call is recorded with its arguments. So the model does not capture numerical
  properties such as the identity-Xinv scenario or tolerance-based adjoint tests. The adjoint
  property is captured as an identity between kernel sequences under the kernels' dagger
  convention.
- The stencil's reference-field argument, its parity (always QUDA_INVALID_PARITY here),
  `commDim` and `profile`. In every call the reference field is the stencil's own input.
- CreateCoarseOp: the contents the coarsening kernel writes into `Y` and `X` are not modelled. The
  method returns the record of the kernel call instead. The unused `kappa`, `mu` and `mu_factor`
  arguments are accepted and ignored.
- `mass` is a real number and `0.5/mass` is kept unevaluated (`Ax(0.5, mass)`), so a zero mass
  with an ASQTADPC parent is represented rather than computed.
- `flops` is an unbounded natural number; the 64-bit wrap-around of the counter is not modelled.
- `errorQuda` ends the process; here it returns a failure. State written before the failure
  stays as the aborting program would leave it: on an unknown parent, `tmp1` may still hold the
  field that `newTmp` created, and a failing `Mdag` leaves the dagger flag flipped once. The
  scratch slots are only promised back on success.
- PreparedSystemEquivalent: covers an ASQTAD parent with the forward flag only; no property is
  stated about what the 0.5/mass rescaling for an ASQTADPC parent achieves.
- M, MdagM, PrepareSpecialMG: require a scratch field that is already lent to be distinct from
  the caller's fields. The source assumes this without checking.
- Assign, Copy, constructor: the base class's handling of `flops` and the scratch slots is not
  part of this model. Assignment leaves them as they were, and both constructors start with
  zero flops and empty slots. Base members other than the gauge references, mass and dagger
  flag are left out.
- Prefetch: memory-space and stream semantics are reduced to a `location` field on each gauge
  field. Base-class prefetching of anything other than the fat and long links is not part of
  this model.
- The destructor (empty) and the concurrency rules for `updateFields` are not modelled.
