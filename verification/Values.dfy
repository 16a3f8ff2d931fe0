/** Values that several models share. */
module Values {

  datatype Option<T> = None | Some(value: T)

  /** The range of Go's int64, which is also its int on 64-bit platforms. */
  const MIN_INT64: int := -0x8000_0000_0000_0000
  const MAX_INT64: int := 0x7fff_ffff_ffff_ffff
}
