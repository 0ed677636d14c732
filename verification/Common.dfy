/** Values shared by every component: optional values, opaque identities and append-only histories. */
module Common {

  datatype Option<+T> = None | Some(value: T)

  /** Kubernetes UIDs, digests and bindings are compared and never inspected. */
  type Uid = nat

  /** An append-only history; `Then` is the only way it grows. */
  datatype Log<T> = Start | Then(past: Log<T>, last: T)

  function Max(a: int, b: int): (m: int)
  {
    if a < b then b else a
  }

  function Min(a: int, b: int): (m: int)
  {
    if a < b then a else b
  }

  /** offerBlocks: the blocks one offer generates; an omitted count is one block. */
  function OfferBlocks(count: int): (n: int)
    ensures 1 <= n && (1 <= count ==> n == count)
  {
    if count < 1 then 1 else count
  }
}
