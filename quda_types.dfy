/** Enumerations of the QUDA interface that the improved-staggered Kahler-Dirac
    operator reads, its error kinds, and the failure-carrying result types that
    stand in for `errorQuda`. */
module QudaTypes {

  /** QudaPrecision: the numeric precision tag of a field. */
  datatype Precision =
    | QuarterPrecision
    | HalfPrecision
    | SinglePrecision
    | DoublePrecision
    | InvalidPrecision

  /** QudaSiteSubset: whether a fermion field spans one parity or the full lattice. */
  datatype SiteSubset = ParitySiteSubset | FullSiteSubset | InvalidSiteSubset

  /** QudaDagType: the operator's adjoint flag. */
  datatype DagType = DagNo | DagYes | DagInvalid

  /** QudaParity, as passed to the single-parity Dslash entry points. */
  datatype Parity = EvenParity | OddParity | InvalidParity

  /** The members of QudaDiracType that matter here; every other value behaves
      like `WilsonDirac` (it is neither of the two asqtad parents). */
  datatype DiracType =
    | WilsonDirac
    | WilsonPCDirac
    | CloverDirac
    | CloverPCDirac
    | StaggeredDirac
    | StaggeredPCDirac
    | StaggeredKDDirac
    | AsqtadDirac
    | AsqtadPCDirac
    | AsqtadKDDirac
    | CoarseDirac
    | CoarsePCDirac
    | InvalidDirac

  /** QudaSolutionType: which system the outer solver wants solved. */
  datatype SolutionType =
    | MatSolution
    | MatDagMatSolution
    | MatPCSolution
    | MatPCDagSolution
    | MatPCDagMatPCSolution
    | MatPCDagMatPCShiftSolution
    | InvalidSolution

  /** QudaMatPCType: the even-odd preconditioning convention handed to the coarsening kernel. */
  datatype MatPCType =
    | MatPCEvenEven
    | MatPCOddOdd
    | MatPCEvenEvenAsymmetric
    | MatPCOddOddAsymmetric
    | MatPCInvalid

  /** QudaTransferType: the coarsening strategy of a multigrid transfer operator. */
  datatype TransferType =
    | TransferAggregate
    | TransferCoarseKD
    | TransferOptimizedKD
    | TransferOptimizedKDDropLong
    | TransferInvalid

  /** QudaFieldLocation: the memory space a field resides in. */
  datatype FieldLocation = CpuFieldLocation | CudaFieldLocation | InvalidFieldLocation

  /** The conditions under which the operator calls `errorQuda`, one constructor per message. */
  datatype KDError =
    | WrongDimension            // fields must be 5-dimensional
    | PrecisionMismatch         // input and output precisions differ
    | NotFullParity             // site-subset check failed
    | VolumeMismatch            // field volume does not match the gauge field
    | NoSingleParityForm        // Dslash / DslashXpay do not exist for this operator
    | PreconditionedSolution    // a single-parity solution type was requested
    | UnexpectedParentType(parent: DiracType)  // prepareSpecialMG with an unknown parent
    | AggregationOnly           // createCoarseOp with a non-aggregate transfer

  /** The result of an operation with no value: it either returns or raises. */
  datatype Outcome = Pass | Fail(error: KDError)

  /** The result of an operation that produces a value or raises. */
  datatype Result<T> = Ok(value: T) | Err(error: KDError)

  datatype Option<T> = None | Some(value: T)

  /** The kernels take the adjoint flag as a C++ `bool`: QUDA_DAG_NO is 0 and
      converts to false, QUDA_DAG_YES and QUDA_DAG_INVALID are non-zero. */
  function AsBool(d: DagType): bool
  {
    d != DagNo
  }

  /** The two solution types that ask for the single-parity (Schur) system. */
  predicate IsPCSolution(solType: SolutionType)
  {
    solType == MatPCSolution || solType == MatPCDagMatPCSolution
  }
}
