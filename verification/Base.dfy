/** Names and small sequence facts shared by every module. */
module Base {

  /** A connected peer. The daemon compares sockets by identity only. */
  type Socket = nat

  /** A session id ("cookie"), a provider id or a key id. */
  type Id = string

  /** A peer process id, as the kernel reports it for a socket. */
  type Pid = int

  datatype Option<+T> = None | Some(value: T)

  ghost predicate Distinct<T>(xs: seq<T>) {
    forall i, j :: 0 <= i < j < |xs| ==> xs[i] != xs[j]
  }

  /** `xs` lists the elements of `s`, each exactly once. */
  ghost predicate Enumerates<T(!new)>(xs: seq<T>, s: set<T>) {
    Distinct(xs) && forall x :: x in xs <==> x in s
  }

  /** The elements of `xs` that are in `keep`, in the order of `xs`. */
  function Only<T(==)>(xs: seq<T>, keep: set<T>): seq<T> {
    if xs == [] then []
    else if xs[0] in keep then [xs[0]] + Only(xs[1..], keep)
    else Only(xs[1..], keep)
  }

  function Members(xs: seq<Socket>): set<Socket> {
    set x | x in xs
  }

  function Concat<T>(xss: seq<seq<T>>): seq<T> {
    if xss == [] then [] else xss[0] + Concat(xss[1..])
  }
}
