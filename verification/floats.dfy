/** The `f32` side of the interpreter, kept abstract. A float is its 32-bit
    pattern; every operation on it (IEEE arithmetic and comparison, the `as`
    casts to and from `i32`, text parsing and printing) is supplied from
    outside through a `FloatOps` record, so no property below depends on how
    floats round. */
module Floats {
  import opened Results
  import opened Numerals

  datatype F32 = F32(bits: bv32)

  datatype FloatOps = FloatOps(
    add: (F32, F32) -> F32,
    sub: (F32, F32) -> F32,
    mul: (F32, F32) -> F32,
    div: (F32, F32) -> F32,
    eq: (F32, F32) -> bool,     // IEEE `==`
    lt: (F32, F32) -> bool,     // IEEE `<`
    gt: (F32, F32) -> bool,     // IEEE `>`
    fromInt: Int32 -> F32,      // `i as f32`
    truncate: F32 -> Int32,     // `f as i32`
    parse: string -> Option<F32>, // `str::parse::<f32>`
    show: F32 -> string         // `Display` for `f32`
  )
}
