/** Small vocabulary shared by every module of the model. */
module Base {

  datatype Option<+T> = None | Some(value: T)

  /** The elements of `s` that `match_` rejects, in their original order. */
  function DropMatching<T>(s: seq<T>, match_: T -> bool): (r: seq<T>)
    ensures |r| <= |s|
  {
    if s == [] then []
    else
      var rest := DropMatching(s[..|s| - 1], match_);
      if match_(s[|s| - 1]) then rest else rest + [s[|s| - 1]]
  }

  lemma DropMatchingMembers<T>(s: seq<T>, match_: T -> bool)
    ensures forall x :: x in DropMatching(s, match_) <==> x in s && !match_(x)
  {
  }

  lemma {:induction false} MinimumExists(s: set<nat>) returns (least: nat)
    requires s != {}
    ensures least in s && forall y | y in s :: least <= y
  {
    var x :| x in s;
    least := x;
    if s != {x} {
      var other := MinimumExists(s - {x});
      if other < x { least := other; }
      forall y | y in s ensures least <= y { assert y == x || y in s - {x}; }
    } else {
      forall y | y in s ensures least <= y { assert y in {x}; }
    }
  }

  lemma LeastExists(s: set<nat>)
    requires s != {}
    ensures exists x :: x in s && forall y | y in s :: x <= y
  {
    var least := MinimumExists(s);
  }

  ghost function Least(s: set<nat>): (x: nat)
    requires s != {}
    ensures x in s && forall y | y in s :: x <= y
  {
    LeastExists(s);
    var x :| x in s && forall y | y in s :: x <= y;
    x
  }

  /** The members of `s`, smallest first: the order in which a store lists its keys. */
  ghost function Ascending(s: set<nat>): seq<nat>
  {
    if s == {} then []
    else [Least(s)] + Ascending(s - {Least(s)})
  }

  ghost predicate StrictlyAscending(q: seq<nat>) {
    forall i, j :: 0 <= i < j < |q| ==> q[i] < q[j]
  }

  /** Unfolds `Ascending` once: its head is the least member. */
  lemma AscendingHead(s: set<nat>) returns (x: nat)
    requires s != {}
    ensures x in s && forall y | y in s :: x <= y
    ensures Ascending(s) == [x] + Ascending(s - {x})
  {
    x := Least(s);
  }

  lemma {:induction false} AscendingIsSorted(s: set<nat>)
    ensures StrictlyAscending(Ascending(s))
    ensures forall x :: x in Ascending(s) <==> x in s
  {
    if s != {} {
      var x := AscendingHead(s);
      var rest := Ascending(s - {x});
      AscendingIsSorted(s - {x});
      forall i, j | 0 <= i < j < |Ascending(s)| ensures Ascending(s)[i] < Ascending(s)[j] {
        assert rest[j - 1] in rest;
        if i > 0 { assert rest[i - 1] < rest[j - 1]; }
      }
    }
  }

  /** A strictly ascending list is determined by its set of members. */
  lemma {:induction false} AscendingIsUnique(q: seq<nat>, s: set<nat>)
    requires StrictlyAscending(q)
    requires forall x :: x in q <==> x in s
    ensures q == Ascending(s)
    decreases |q|
  {
    if q == [] {
      assert forall x :: x in s ==> x in q;
      assert s == {};
    } else {
      assert q[0] in s;
      var least := AscendingHead(s);
      assert least in q && q[0] == least;
      forall x ensures x in q[1..] <==> x in s - {least} {
        if x in q[1..] {
          var i :| 0 <= i < |q[1..]| && q[1..][i] == x;
          assert q[0] < q[i + 1] && q[i + 1] == x && x in q;
        }
        if x in s - {least} { assert x in q; }
      }
      AscendingIsUnique(q[1..], s - {least});
    }
  }
}
