/** The assumptions about the surroundings can be met, whatever happens around the daemon otherwise. */
module EnvironmentExamples {
  import opened Base
  import opened Environments

  ghost function Least(s: set<Socket>): (m: Socket)
    requires s != {}
    ensures m in s && forall x :: x in s ==> m <= x
    decreases |s|
  {
    var a :| a in s;
    if s == {a} then a
    else
      var b := Least(s - {a});
      assert forall x :: x in s ==> x == a || x in s - {a};
      if a <= b then a else b
  }

  ghost function Sorted(s: set<Socket>): seq<Socket>
    decreases |s|
  {
    if s == {} then [] else [Least(s)] + Sorted(s - {Least(s)})
  }

  lemma {:induction false} SortedEnumerates(s: set<Socket>)
    ensures Enumerates(Sorted(s), s)
    decreases |s|
  {
    if s != {} {
      SortedEnumerates(s - {Least(s)});
    }
  }

  lemma {:induction false} OnlySame(xs: seq<Socket>, a: set<Socket>, b: set<Socket>)
    requires forall x :: x in xs ==> (x in a <==> x in b)
    ensures Only(xs, a) == Only(xs, b)
  {
    if xs != [] {
      assert xs[0] in xs && forall x :: x in xs[1..] ==> x in xs;
      OnlySame(xs[1..], a, b);
    }
  }

  /** Erasing keys from a sorted table does not reorder the rest. */
  lemma {:induction false} SortedOnly(s: set<Socket>, t: set<Socket>)
    requires t <= s
    ensures Sorted(t) == Only(Sorted(s), t)
    decreases |s|
  {
    if s != {} {
      var m := Least(s);
      var rest := s - {m};
      SortedEnumerates(rest);
      if m in t {
        assert Least(t) == m;
        SortedOnly(rest, t - {m});
        OnlySame(Sorted(rest), t - {m}, t);
      } else {
        SortedOnly(rest, t);
      }
      assert Sorted(s)[1..] == Sorted(rest);
    }
  }

  ghost function Listed(s: set<Id>): seq<Id>
    decreases |s|
  {
    if s == {} then []
    else
      var x :| x in s;
      [x] + Listed(s - {x})
  }

  lemma {:induction false} ListedEnumerates(s: set<Id>)
    ensures Enumerates(Listed(s), s)
    decreases |s|
  {
    if s != {} {
      var x :| x in s && Listed(s) == [x] + Listed(s - {x});
      ListedEnumerates(s - {x});
    }
  }

  /** Any circumstances are possible with some order of the tables. */
  lemma EnvironmentsExist(e: Env) returns (env: Env)
    requires e.jitter <= 120
    ensures env.Valid() && env == e.(socketOrder := env.socketOrder, idOrder := env.idOrder)
  {
    env := e.(socketOrder := s => Sorted(s), idOrder := s => Listed(s));
    forall s ensures Enumerates(env.socketOrder(s), s) {
      SortedEnumerates(s);
    }
    forall s, t: set<Socket> | t <= s ensures env.socketOrder(t) == Only(env.socketOrder(s), t) {
      SortedOnly(s, t);
    }
    forall s ensures Enumerates(env.idOrder(s), s) {
      ListedEnumerates(s);
    }
  }
}
