/** Types and counting facts shared by every module. */
module Prelude {

  datatype Option<+T> = None | Some(value: T)

  /** A uuid as the API prints it. The Go code writes "no uuid" as the empty string;
      here an absent uuid is `None`, so the printed form is never empty. */
  type Uuid = u: string | u != "" witness "0"

  /** What a write to an API server did: stored and acknowledged, not stored, or stored
      although the caller was told it failed (the reply was lost). */
  datatype WriteReply = Applied | Refused | Unacked

  lemma {:induction false} SubsetSize<T>(a: set<T>, b: set<T>)
    requires a <= b
    ensures |a| <= |b|
    ensures |a| == |b| ==> a == b
  {
    if a != {} {
      var x :| x in a;
      SubsetSize(a - {x}, b - {x});
    }
  }

  predicate Distinct(xs: seq<string>) {
    forall i, j :: 0 <= i < j < |xs| ==> xs[i] != xs[j]
  }

  function Elements(xs: seq<string>): (es: set<string>)
    ensures forall x :: x in es <==> x in xs
  {
    set x | x in xs
  }

  /** `visit` lists every element of `keys` exactly once: one order in which Go may range over a map. */
  predicate Lists(visit: seq<string>, keys: set<string>) {
    Distinct(visit) && Elements(visit) == keys
  }

  /** Any set can be listed. */
  lemma {:induction false} ListingExists(keys: set<string>) returns (visit: seq<string>)
    ensures Lists(visit, keys)
  {
    visit := [];
    if keys != {} {
      var k :| k in keys;
      var rest := ListingExists(keys - {k});
      visit := [k] + rest;
      forall i, j | 0 <= i < j < |visit| ensures visit[i] != visit[j] {
        assert visit[j] == rest[j - 1] && rest[j - 1] in Elements(rest);
      }
    }
  }

  /** A list has at most as many elements as places, and exactly as many iff nothing repeats. */
  lemma {:induction false} ElementsSize(xs: seq<string>)
    ensures |Elements(xs)| <= |xs|
    ensures |Elements(xs)| == |xs| <==> Distinct(xs)
  {
    if xs != [] {
      var last := xs[|xs| - 1];
      var front := xs[..|xs| - 1];
      ElementsSize(front);
      assert xs == front + [last];
      if last in front {
        assert Elements(xs) == Elements(front);
        var i :| 0 <= i < |front| && front[i] == last;
        assert xs[i] == xs[|xs| - 1];
      } else {
        assert Elements(xs) == Elements(front) + {last};
        if Distinct(front) {
          forall i, j | 0 <= i < j < |xs| ensures xs[i] != xs[j] {
            assert xs[i] == front[i];
          }
        } else {
          var i, j :| 0 <= i < j < |front| && front[i] == front[j];
          assert xs[i] == xs[j];
        }
      }
    }
  }
}
