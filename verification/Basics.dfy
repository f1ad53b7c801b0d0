/** Identifiers, optional values and error kinds shared by all services. */
module Basics {

  /** A UUID.  Only equality matters, so a number stands for it; 0 is `uuid.Nil`. */
  type Id = nat
  const NIL: Id := 0

  /** PostgreSQL INTEGER / Go int32, and BIGINT / int64. */
  const MAX_INT32 := 0x7fff_ffff
  const MIN_INT32 := -0x8000_0000
  type Int32 = x: int | MIN_INT32 <= x <= MAX_INT32
  type Int64 = x: int | -0x8000_0000_0000_0000 <= x <= 0x7fff_ffff_ffff_ffff

  datatype Option<+T> = None | Some(value: T)

  /** The error kinds of pkg/errors that the modelled code tells apart. */
  datatype Kind = InvalidInput | NotFound | AlreadyExists | Unauthenticated | Internal

  datatype Result<+T> = Ok(value: T) | Err(kind: Kind)
}
