/** What every part of the model shares. */
module Basics {

  datatype Option<T> = None | Some(value: T)

  function Min(a: nat, b: nat): nat {
    if a <= b then a else b
  }

  function Max(a: nat, b: nat): nat {
    if a >= b then a else b
  }

  lemma Regroup<T>(a: seq<T>, b: seq<T>, d: seq<T>)
    ensures (a + b) + d == a + (b + d)
  {
  }
}

/** The status codes that checks and probes use. */
module Http {
  const STATUS_OK := 200
  const STATUS_NOT_FOUND := 404
  const STATUS_EXPECTATION_FAILED := 417
  const STATUS_TOO_MANY_REQUESTS := 429
  const STATUS_INTERNAL_SERVER_ERROR := 500
}
