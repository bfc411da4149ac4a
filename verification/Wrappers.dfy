/** Shared by every component. */
module Wrappers {

  datatype Option<+T> = None | Some(value: T)

  /** A uuid, as its canonical text. */
  type Uuid = string

  const NIL_UUID: Uuid := "00000000-0000-0000-0000-000000000000"

  predicate IsHex(c: char) { '0' <= c <= '9' || 'a' <= c <= 'f' }

  predicate IsUuid(id: Uuid) { |id| == 36 && forall c :: c in id ==> IsHex(c) || c == '-' }

  lemma SubsetSize<T>(a: set<T>, b: set<T>)
    requires a <= b
    ensures |a| <= |b|
  {
    assert |b - a| == |b| - |a|;
  }
}
