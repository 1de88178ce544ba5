/** What the chain identifies and counts. */
module Chain {
  type Address = nat

  type Epoch = nat

  /** Seven epochs; the first week is 1. */
  type Week = nat
}
