/** The field entities the operator works on. Their numerical contents are
    produced by kernels the model cannot see, so a field's contents are a term
    that records which kernels were applied, with which arguments, to what. */
module Fields {
  import opened QudaTypes

  /** A gauge-like field (fat links, long links, or the Kahler-Dirac block
      inverse Xinv). The operator only holds references to it. */
  class GaugeField {
    /** Number of sites of one parity (VolumeCB). */
    const volumeCB: nat
    /** Where the field currently resides; changed only by prefetch. */
    var location: FieldLocation

    constructor (volumeCB: nat, location: FieldLocation)
      ensures this.volumeCB == volumeCB && this.location == location
    {
      this.volumeCB := volumeCB;
      this.location := location;
    }
  }

  /** A clover field; this operator receives one in updateFields and ignores it. */
  class CloverField {
    constructor () { }
  }

  /** One call of an external kernel, with the arguments that distinguish it.
      - ImprovedStaggered: ApplyImprovedStaggered over the full lattice with
        diagonal coefficient `diag` and adjoint flag `dagger`; the reference
        field it is given is always its own input in this operator.
      - KahlerDiracInverse: ApplyStaggeredKahlerDiracInverse with block field `xinv`.
      - Ax: blas::ax scaling by numerator / denominator, kept unevaluated so
        that a zero denominator is representable. */
  datatype Kernel =
    | ImprovedStaggered(fat: GaugeField, long: GaugeField, diag: real, dagger: bool)
    | KahlerDiracInverse(xinv: GaugeField, dagger: bool)
    | Ax(numerator: real, denominator: real)

  /** The contents of a fermion field: a zero-created field, an opaque input,
      or a kernel applied to other contents. */
  datatype Vec = Zeros | Source(id: nat) | Applied(kernel: Kernel, arg: Vec)

  /** Applies `ops` in order: `ops[0]` first. */
  function Apply(ops: seq<Kernel>, v: Vec): Vec
    decreases |ops|
  {
    if ops == [] then v else Apply(ops[1..], Applied(ops[0], v))
  }

  type Extent = n: nat | n > 0 witness 1

  /** ColorSpinorField: shape metadata that never changes, and contents that kernels overwrite. */
  class SpinorField {
    /** Ndim(): number of dimensions, 5 for a staggered field. */
    const nDim: int
    const precision: Precision
    const siteSubset: SiteSubset
    /** Volume(): number of sites, the fifth dimension included. */
    const volume: nat
    /** X(4): extent of the fifth dimension. */
    const extent4: Extent
    var data: Vec

    constructor (nDim: int, precision: Precision, siteSubset: SiteSubset, volume: nat, extent4: Extent, data: Vec)
      ensures this.nDim == nDim && this.precision == precision && this.siteSubset == siteSubset
      ensures this.volume == volume && this.extent4 == extent4 && this.data == data
    {
      this.nDim := nDim;
      this.precision := precision;
      this.siteSubset := siteSubset;
      this.volume := volume;
      this.extent4 := extent4;
      this.data := data;
    }

    /** A zero-created field with the shape of `f`. */
    constructor Like(f: SpinorField)
      ensures SameShape(f) && data == Zeros
    {
      nDim := f.nDim;
      precision := f.precision;
      siteSubset := f.siteSubset;
      volume := f.volume;
      extent4 := f.extent4;
      data := Zeros;
    }

    predicate SameShape(f: SpinorField)
    {
      nDim == f.nDim && precision == f.precision && siteSubset == f.siteSubset &&
      volume == f.volume && extent4 == f.extent4
    }
  }
}
