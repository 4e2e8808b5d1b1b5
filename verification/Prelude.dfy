/** Small shared definitions: optional values and the ascending enumeration of a finite set. */
module Prelude {

  datatype Option<+T> = None | Some(value: T)

  lemma {:induction false} LeastExists(s: set<nat>)
    requires s != {}
    ensures exists m :: m in s && forall x | x in s :: m <= x
  {
    var m :| m in s;
    if k :| k in s && k < m {
      var below := set x | x in s && x < m;
      assert below < s by {
        assert m in s && m !in below;
      }
      assert k in below;
      LeastExists(below);
      var n :| n in below && forall x | x in below :: n <= x;
      assert forall x | x in s :: x in below || m <= x;
      assert n in s && forall x | x in s :: n <= x;
    }
  }

  function Least(s: set<nat>): (m: nat)
    requires s != {}
    ensures m in s && forall x | x in s :: m <= x
  {
    LeastExists(s);
    var m :| m in s && forall x | x in s :: m <= x;
    m
  }

  ghost predicate Ascending(s: seq<nat>) {
    forall i, j | 0 <= i < j < |s| :: s[i] < s[j]
  }

  /** The members of a finite set in ascending order, each once. */
  function Sorted(s: set<nat>): (r: seq<nat>)
    ensures Ascending(r)
    ensures forall x :: x in r <==> x in s
  {
    if s == {} then [] else
      var m := Least(s);
      var rest := Sorted(s - {m});
      assert forall i | 0 <= i < |rest| :: rest[i] in rest;
      [m] + rest
  }

  /** f applied n times. */
  ghost function Power<S(!new)>(f: S -> S, s: S, n: nat): S
    decreases n
  {
    if n == 0 then s else Power(f, f(s), n - 1)
  }

  /** The step f has reached a fixpoint at f(s), or has made s smaller. */
  ghost predicate Progresses<S(!new)>(f: S -> S, keeps: S -> bool, size: S -> nat, s: S) {
    var t := f(s);
    keeps(t) && (f(t) == t || size(t) < size(s))
  }

  lemma {:induction false} PowerStays<S(!new)>(f: S -> S, s: S, n: nat)
    requires f(s) == s
    ensures Power(f, s, n) == s
  {
    if n > 0 {
      PowerStays(f, s, n - 1);
    }
  }

  lemma {:induction false} PowerSettles<S(!new)>(f: S -> S, keeps: S -> bool, size: S -> nat, s: S, n: nat)
    requires forall x | keeps(x) :: Progresses(f, keeps, size, x)
    requires keeps(s) && n > size(s)
    ensures f(Power(f, s, n)) == Power(f, s, n)
    decreases n
  {
    assert Progresses(f, keeps, size, s);
    var t := f(s);
    if f(t) == t {
      PowerStays(f, t, n - 1);
    } else {
      PowerSettles(f, keeps, size, t, n - 1);
    }
  }
}
