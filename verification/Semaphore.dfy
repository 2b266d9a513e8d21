/** The counting semaphore the containers are built on: a take that finds no
    token fails, and a give saturates at the limit. */
module Semaphore {

  predicate CanTake(count: nat) {
    count > 0
  }

  function Given(count: nat, limit: nat): (r: nat)
    ensures count <= limit ==> count <= r <= limit && (r == count <==> count == limit)
  {
    if count < limit then count + 1 else count
  }

  class Sem {
    var count: nat
    const limit: nat

    constructor (count: nat, limit: nat)
      ensures this.count == count && this.limit == limit
    {
      this.count, this.limit := count, limit;
    }

    method TryTake() returns (ok: bool)
      modifies this
      ensures ok == CanTake(old(count))
      ensures count == if ok then old(count) - 1 else old(count)
    {
      ok := count > 0;
      if ok {
        count := count - 1;
      }
    }

    method Give()
      modifies this
      ensures count == Given(old(count), limit)
    {
      if count < limit {
        count := count + 1;
      }
    }
  }
}
