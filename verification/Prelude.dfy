// Shapes every other module uses.
module Prelude {
  datatype Option<+T> = None | Some(value: T)

  datatype Result<+T, +E> = Ok(value: T) | Err(error: E)

  // How a statement may end: done; not done, with an error; done, with an error all the same.
  datatype Write = Written | Refused | Unconfirmed

  ghost predicate Distinct<T(!new)>(keys: seq<T>) {
    forall i, j :: 0 <= i < j < |keys| ==> keys[i] != keys[j]
  }

  lemma {:induction false} DistinctSize<T(!new)>(keys: seq<T>)
    requires Distinct(keys)
    ensures |set k | k in keys| == |keys|
  {
    if keys != [] {
      DistinctSize(keys[1..]);
      assert keys[0] !in keys[1..];
      assert (set k | k in keys) == (set k | k in keys[1..]) + {keys[0]};
    }
  }

  // Names that are never in short supply: one of every length.
  function NthName(n: nat): (name: string)
    ensures |name| == n
  {
    seq(n, _ => 'm')
  }
}
