/** Small datatypes shared by the modules of the model. */
module Common {
  datatype Option<+T> = None | Some(value: T)

  datatype Result<+T, +E> = Ok(value: T) | Err(error: E)

  /** 64-bit unsigned limit, and the addition that stops at it. */
  const U64_MAX: nat := 0xFFFF_FFFF_FFFF_FFFF

  function SaturatingAdd(a: nat, b: nat): nat {
    if a + b > U64_MAX then U64_MAX else a + b
  }

  /** Wallet amounts in millisatoshi, at most 21 million bitcoin. */
  const MAX_AMOUNT: nat := 2_100_000_000_000_000_000

  type Amount = x: nat | x <= MAX_AMOUNT

  function AmountAdd(a: Amount, b: Amount): Amount { if a + b > MAX_AMOUNT then MAX_AMOUNT else a + b }

  function AmountSub(a: Amount, b: Amount): Amount { if a < b then 0 else a - b }
}
