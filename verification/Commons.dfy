/** What several components use. */
module Commons {
  datatype Option<T> = None | Some(value: T)

  function One(b: bool): nat { if b then 1 else 0 }

  lemma MulMonotone(a: nat, b: nat, e: nat)
    requires a <= b
    ensures a * e <= b * e
  {
  }
}
