// The sequence view of the packet queue. The array ring in Workqueue.dfy is
// proved to compute exactly these functions, and the thread model in
// Pipeline.dfy runs on them.
module Fifo {

  function Min(a: nat, b: nat): nat {
    if a < b then a else b
  }

  /** One slot of the ring always stays unused, so a ring of `capacity` slots
      holds at most `capacity - 1` packets and drops what comes after that. */
  predicate Full<T>(queue: seq<T>, capacity: nat) {
    |queue| + 1 >= capacity
  }

  /** What a pop comes to once the mutex is held. */
  datatype Popped<T> = Wait | Nothing(size: nat) | Some(items: seq<T>, rest: seq<T>)

  function Pop<T>(queue: seq<T>, released: bool, want: nat): Popped<T> {
    var n := Min(want, |queue|);
    if released then Nothing(n)
    else if queue == [] then Wait
    else Some(queue[..n], queue[n..])
  }

  function Put<T>(queue: seq<T>, capacity: nat, packet: T): seq<T> {
    if Full(queue, capacity) then queue else queue + [packet]
  }
}
