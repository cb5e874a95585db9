/**
 * The message-id allocator: an unsigned 64-bit atomic counter and
 * `get_last_seq`, which src/client.rs and src/wsconn.rs both define.
 */
module Sequence {
  import opened Wrappers

  const U64_MODULUS: nat := 0x1_0000_0000_0000_0000

  type u64 = x: int | 0 <= x < U64_MODULUS

  /** The counter value after one `fetch_add(1)`: it wraps from the largest u64 to 0. */
  function Successor(v: u64): (w: u64)
    ensures v + 1 < U64_MODULUS ==> w == v + 1
    ensures v + 1 == U64_MODULUS ==> w == 0
  {
    (v + 1) % U64_MODULUS
  }

  /** The id `get_last_seq` hands out when the counter held `v`: none for 0, `v` otherwise. */
  function IdOf(v: u64): (id: Option<nat>)
    ensures id.None? <==> v == 0
    ensures id.Some? ==> id.value == v
  {
    if v == 0 then None else Some(v)
  }

  /** The shared `Arc<AtomicU64>` holding the next message id. */
  class Counter {
    var value: u64

    constructor (initial: u64)
      ensures value == initial
    {
      value := initial;
    }

    /** `get_last_seq`: raise the counter by one and return the previous value as an id. */
    method GetLastSeq() returns (id: Option<nat>)
      modifies this
      ensures value == Successor(old(value))
      ensures id == IdOf(old(value))
    {
      var previous := value;
      value := Successor(value);
      id := if previous == 0 then None else Some(previous);
    }
  }

  /** The ids handed out by `n` successive calls of `get_last_seq` on a counter holding `v`. */
  function Allocations(v: u64, n: nat): (ids: seq<Option<nat>>)
    ensures |ids| == n
    ensures n > 0 ==> ids[0] == IdOf(v)
    decreases n
  {
    if n == 0 then [] else [IdOf(v)] + Allocations(Successor(v), n - 1)
  }

  /**
   * Away from the wrap-around, successive allocations from `v >= 1` are
   * `Some(v)`, `Some(v + 1)`, ...: never `None` and strictly increasing.
   */
  lemma {:induction false} AllocationsCountUp(v: u64, n: nat)
    requires 1 <= v && v + n <= U64_MODULUS
    ensures forall i :: 0 <= i < n ==> Allocations(v, n)[i] == Some(v + i)
    decreases n
  {
    if n > 0 {
      if n > 1 {
        assert Successor(v) == v + 1;
        AllocationsCountUp(v + 1, n - 1);
      }
      forall i | 0 <= i < n
        ensures Allocations(v, n)[i] == Some(v + i)
      {
        if i > 0 {
          assert Allocations(v, n)[i] == Allocations(Successor(v), n - 1)[i - 1];
        }
      }
    }
  }

  /** A fresh allocator, as `HassClient::new` and `WsConn::connect` create it, starts handing out 1, 2, 3, ... */
  lemma FreshAllocatorStartsAtOne(n: nat)
    requires n < U64_MODULUS
    ensures forall i :: 0 <= i < n ==> Allocations(1, n)[i] == Some(i + 1)
    ensures forall i, j :: 0 <= i < j < n ==> Allocations(1, n)[i].value < Allocations(1, n)[j].value
  {
    AllocationsCountUp(1, n);
  }
}
