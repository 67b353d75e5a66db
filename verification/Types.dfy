/**
 What several models share.
 */
module Types {

  type Byte = n: nat | n < 256

  datatype Option<T> = None | Some(value: T)

  datatype Cpu = Arm7 | Arm9

  function Min(a: nat, b: nat): nat { if a <= b then a else b }

  function Max(a: nat, b: nat): nat { if a <= b then b else a }
}
