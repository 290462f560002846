/** Everything a handler reads from outside the daemon, as one value per step. */
module Environments {
  import opened Base
  import opened Sessions

  /** `stamp` is the clock as a registration or heartbeat reads it, `now` as elections and launches read it.
      `socketOrder` and `idOrder` give the order in which a hash table with the given keys is walked. */
  datatype Env = Env(
    stamp: int, now: int,
    connected: set<Socket>,
    uuid: Id, actor: Requestor,
    socketOrder: set<Socket> -> seq<Socket>,
    idOrder: set<Id> -> seq<Id>,
    lockHeld: bool, candidate: Option<Id>, starts: bool, jitter: nat)
  {
    /** Walks visit every key once, and erasing a key does not reorder the others. */
    ghost predicate Valid() {
      && (forall s :: Enumerates(socketOrder(s), s))
      && (forall s, t :: t <= s ==> socketOrder(t) == Only(socketOrder(s), t))
      && (forall s :: Enumerates(idOrder(s), s))
      && jitter <= 120
    }
  }
}
