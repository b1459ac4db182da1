/** The FIFO queue over a slice of a backing array (queue/queue.go). */
module Queues {
  import opened Base

  /** What `match_` keeps of the first `n` items. */
  ghost function KeptOf<T>(items: seq<T>, n: nat, match_: T -> bool): (kept: seq<T>)
    requires n <= |items|
    ensures |kept| <= n
  {
    if n == 0 then []
    else if match_(items[n - 1]) then KeptOf(items, n - 1, match_)
    else KeptOf(items, n - 1, match_) + [items[n - 1]]
  }

  lemma {:induction false} KeptOfPrefix<T>(items: seq<T>, n: nat, match_: T -> bool)
    requires n <= |items|
    ensures KeptOf(items, n, match_) == DropMatching(items[..n], match_)
  {
    if n > 0 {
      KeptOfPrefix(items, n - 1, match_);
      assert items[..n][..n - 1] == items[..n - 1];
    }
  }

  class Queue<T> {
    // the slice is buf[start .. start + len]; every slot outside it holds the zero value
    var buf: array<T>
    var start: nat
    var len: nat
    const zero: T

    ghost predicate Valid()
      reads this, buf
    {
      && start + len <= buf.Length
      && (forall i :: 0 <= i < start ==> buf[i] == zero)
      && (forall i :: start + len <= i < buf.Length ==> buf[i] == zero)
    }

    /** The queue as a mathematical sequence, oldest first. */
    ghost function Contents(): seq<T>
      reads this, buf
      requires Valid()
    {
      buf[start..start + len]
    }

    constructor (zero: T)
      ensures Valid() && Contents() == [] && fresh(buf) && this.zero == zero
    {
      this.zero := zero;
      start, len := 0, 0;
      buf := new T[0];
    }

    /** append: write in place while capacity lasts, otherwise move to a larger array. */
    method Enqueue(item: T)
      requires Valid()
      modifies this, buf
      ensures Valid() && (buf == old(buf) || fresh(buf))
      ensures Contents() == old(Contents()) + [item]
    {
      if start + len == buf.Length {
        Grow();
      }
      buf[start + len] := item;
      len := len + 1;
    }

    method Grow()
      requires Valid()
      modifies this`buf, this`start
      ensures Valid() && fresh(buf) && start + len < buf.Length
      ensures Contents() == old(Contents())
    {
      var bigger := new T[2 * len + 1](_ => zero);
      forall i | 0 <= i < len {
        bigger[i] := buf[start + i];
      }
      buf, start := bigger, 0;
    }

    method Dequeue() returns (item: Option<T>)
      requires Valid()
      modifies this, buf
      ensures Valid() && buf == old(buf)
      ensures old(Contents()) == [] ==> item == None && Contents() == []
      ensures old(Contents()) != [] ==> item == Some(old(Contents())[0]) && Contents() == old(Contents())[1..]
    {
      if len == 0 {
        return None;
      }
      item := Some(buf[start]);
      buf[start] := zero;
      start, len := start + 1, len - 1;
    }

    /** Compaction with a write index: a stable filter that reports how many items it dropped. */
    method RemoveAllFunc(match_: T -> bool) returns (removed: nat)
      requires Valid()
      modifies this, buf
      ensures Valid() && buf == old(buf)
      ensures Contents() == DropMatching(old(Contents()), match_)
      ensures removed == |old(Contents())| - |Contents()|
    {
      var n := MoveKept(buf, start, len, match_);
      removed := len - n;
      ghost var kept := buf[start..start + n];
      ClearFrom(buf, start + n, start + len, zero);
      assert buf[start..start + n] == kept;
      len := n;
    }
  }

  /** The first loop: moves the kept items of a[lo..lo + len] to its front; `n` of them. */
  method MoveKept<T>(a: array<T>, lo: nat, len: nat, match_: T -> bool) returns (n: nat)
    requires lo + len <= a.Length
    modifies a
    ensures n <= len
    ensures a[lo..lo + n] == DropMatching(old(a[lo..lo + len]), match_)
    ensures forall k :: 0 <= k < lo || lo + len <= k < a.Length ==> a[k] == old(a[k])
  {
    n := 0;
    ghost var items, kept := a[lo..lo + len], [];
    for i := 0 to len
      invariant n == |kept| <= i && kept == KeptOf(items, i, match_)
      invariant a[lo..lo + n] == kept
      invariant forall k :: i <= k < len ==> a[lo..lo + len][k] == items[k]
      invariant forall k :: 0 <= k < lo || lo + len <= k < a.Length ==> a[k] == old(a[k])
    {
      var item := a[lo + i];
      assert item == a[lo..lo + len][i];
      if !match_(item) {
        a[lo + n] := item;
        assert a[lo..lo + n] == kept;
        n := n + 1;
        kept := kept + [item];
      }
    }
    KeptOfPrefix(items, len, match_);
    assert items[..len] == items;
  }

  /** The second loop: zeroes a[lo..hi]. */
  method ClearFrom<T>(a: array<T>, lo: nat, hi: nat, zero: T)
    requires lo <= hi <= a.Length
    modifies a
    ensures forall k :: lo <= k < hi ==> a[k] == zero
    ensures forall k :: 0 <= k < lo || hi <= k < a.Length ==> a[k] == old(a[k])
  {
    for i := lo to hi
      invariant forall k :: lo <= k < i ==> a[k] == zero
      invariant forall k :: 0 <= k < lo || i <= k < a.Length ==> a[k] == old(a[k])
    {
      a[i] := zero;
    }
  }

  // ---- what any client sees ----

  datatype Op<!T> = Put(item: T) | Take | Purge(match_: T -> bool)

  /** The queue left by a run of operations. */
  ghost function Left<T>(q: seq<T>, ops: seq<Op<T>>): seq<T>
    decreases |ops|
  {
    if ops == [] then q
    else match ops[0]
         case Put(x) => Left(q + [x], ops[1..])
         case Take => Left(if q == [] then q else q[1..], ops[1..])
         case Purge(m) => Left(DropMatching(q, m), ops[1..])
  }

  /** The items a run of operations takes, in order. */
  ghost function Taken<T>(q: seq<T>, ops: seq<Op<T>>): seq<T>
    decreases |ops|
  {
    if ops == [] then []
    else match ops[0]
         case Put(x) => Taken(q + [x], ops[1..])
         case Take => if q == [] then Taken(q, ops[1..]) else [q[0]] + Taken(q[1..], ops[1..])
         case Purge(m) => Taken(DropMatching(q, m), ops[1..])
  }

  ghost function Puts<T>(ops: seq<Op<T>>): seq<T> {
    if ops == [] then []
    else (if ops[0].Put? then [ops[0].item] else []) + Puts(ops[1..])
  }

  /** `s` is what is left of `t` after dropping some items: the order is that of `t`. */
  ghost predicate InOrder<T>(s: seq<T>, t: seq<T>) {
    s == [] ||
    (t != [] && (InOrder(s, t[..|t| - 1]) || (s[|s| - 1] == t[|t| - 1] && InOrder(s[..|s| - 1], t[..|t| - 1]))))
  }

  lemma {:induction false} InOrderAll<T>(s: seq<T>)
    ensures InOrder(s, s)
  {
    if s != [] { InOrderAll(s[..|s| - 1]); }
  }

  lemma {:induction false} InOrderAppend<T>(s: seq<T>, t: seq<T>, more: seq<T>)
    requires InOrder(s, t)
    ensures InOrder(s + more, t + more)
  {
    if more == [] {
      assert s + more == s && t + more == t;
    } else {
      var rest := more[..|more| - 1];
      InOrderAppend(s, t, rest);
      assert (s + more)[..|s + more| - 1] == s + rest && (t + more)[..|t + more| - 1] == t + rest;
    }
  }

  lemma {:induction false} InOrderPrepend<T>(x: T, s: seq<T>, t: seq<T>)
    requires InOrder(s, t)
    ensures InOrder([x] + s, [x] + t)
  {
    if s == [] {
      InOrderHead(x, t);
      assert [x] + s == [x];
    } else {
      var t' := t[..|t| - 1];
      assert ([x] + t)[..|[x] + t| - 1] == [x] + t';
      if InOrder(s, t') {
        InOrderPrepend(x, s, t');
      } else {
        InOrderPrepend(x, s[..|s| - 1], t');
        assert ([x] + s)[..|[x] + s| - 1] == [x] + s[..|s| - 1];
      }
    }
  }

  lemma {:induction false} InOrderHead<T>(x: T, t: seq<T>)
    ensures InOrder([x], [x] + t)
  {
    if t == [] {
      assert [x] + t == [x] && [x][..0] == [];
    } else {
      InOrderHead(x, t[..|t| - 1]);
      assert ([x] + t)[..|[x] + t| - 1] == [x] + t[..|t| - 1];
    }
  }

  lemma {:induction false} InOrderTransitive<T>(s: seq<T>, t: seq<T>, u: seq<T>)
    requires InOrder(s, t) && InOrder(t, u)
    ensures InOrder(s, u)
    decreases |u|
  {
    if s != [] {
      var u' := u[..|u| - 1];
      if InOrder(t, u') {
        InOrderTransitive(s, t, u');
      } else if InOrder(s, t[..|t| - 1]) {
        InOrderTransitive(s, t[..|t| - 1], u');
      } else {
        InOrderTransitive(s[..|s| - 1], t[..|t| - 1], u');
      }
    }
  }

  lemma {:induction false} PurgeKeepsOrder<T>(q: seq<T>, match_: T -> bool)
    ensures InOrder(DropMatching(q, match_), q)
  {
    if q != [] { PurgeKeepsOrder(q[..|q| - 1], match_); }
  }

  lemma Regroup<T>(x: T, taken: seq<T>, left: seq<T>)
    ensures ([x] + taken) + left == [x] + (taken + left)
  {
  }

  ghost predicate FifoHolds<T>(q: seq<T>, ops: seq<Op<T>>) {
    InOrder(Taken(q, ops) + Left(q, ops), q + Puts(ops))
  }

  lemma FifoAfterPut<T>(q: seq<T>, x: T, ops: seq<Op<T>>, rest: seq<Op<T>>)
    requires ops != [] && ops[0] == Put(x) && rest == ops[1..] && FifoHolds(q + [x], rest)
    ensures FifoHolds(q, ops)
  {
    assert q + ([x] + Puts(rest)) == (q + [x]) + Puts(rest);
  }

  lemma TakeInOrder<T>(x: T, taken: seq<T>, left: seq<T>, tail: seq<T>, puts: seq<T>)
    requires InOrder(taken + left, tail + puts)
    ensures InOrder(([x] + taken) + left, ([x] + tail) + puts)
  {
    InOrderPrepend(x, taken + left, tail + puts);
    Regroup(x, taken, left);
    Regroup(x, tail, puts);
  }

  lemma FifoAfterTake<T>(q: seq<T>, ops: seq<Op<T>>, rest: seq<Op<T>>)
    requires ops != [] && ops[0] == Take && rest == ops[1..] && q != [] && FifoHolds(q[1..], rest)
    ensures FifoHolds(q, ops)
  {
    TakeInOrder(q[0], Taken(q[1..], rest), Left(q[1..], rest), q[1..], Puts(rest));
    TakeUnfolds(q, ops, rest);
    assert [q[0]] + q[1..] == q;
  }

  lemma TakeUnfolds<T>(q: seq<T>, ops: seq<Op<T>>, rest: seq<Op<T>>)
    requires ops != [] && ops[0] == Take && rest == ops[1..] && q != []
    ensures Taken(q, ops) == [q[0]] + Taken(q[1..], rest) && Left(q, ops) == Left(q[1..], rest) && Puts(ops) == Puts(rest)
  {
  }

  lemma FifoAfterPurge<T>(q: seq<T>, m: T -> bool, ops: seq<Op<T>>, rest: seq<Op<T>>)
    requires ops != [] && ops[0] == Purge(m) && rest == ops[1..] && FifoHolds(DropMatching(q, m), rest)
    ensures FifoHolds(q, ops)
  {
    var kept := DropMatching(q, m);
    PurgeKeepsOrder(q, m);
    InOrderAppend(kept, q, Puts(rest));
    InOrderTransitive(Taken(kept, rest) + Left(kept, rest), kept + Puts(rest), q + Puts(rest));
    assert Puts(ops) == Puts(rest);
  }

  /** With purges too, items leave in the order they came: what was taken followed by what is left is
      what was there followed by what was put, less the items purged. */
  lemma {:induction false} FifoThroughPurges<T>(q: seq<T>, ops: seq<Op<T>>)
    ensures InOrder(Taken(q, ops) + Left(q, ops), q + Puts(ops))
    decreases |ops|
  {
    if ops == [] {
      InOrderAll(q);
      assert [] + q == q && q + [] == q;
    } else {
      var rest := ops[1..];
      match ops[0] {
        case Put(x) =>
          FifoThroughPurges(q + [x], rest);
          FifoAfterPut(q, x, ops, rest);
        case Take =>
          FifoThroughPurges(if q == [] then q else q[1..], rest);
          if q != [] { FifoAfterTake(q, ops, rest); } else { assert Puts(ops) == Puts(rest); }
        case Purge(m) =>
          FifoThroughPurges(DropMatching(q, m), rest);
          FifoAfterPurge(q, m, ops, rest);
      }
    }
  }

  /** One operation: what it takes and leaves accounts for what was there and what it put. */
  lemma FifoStep<T>(q: seq<T>, ops: seq<Op<T>>, rest: seq<Op<T>>)
    requires ops != [] && rest == ops[1..] && !ops[0].Purge?
    requires var q' := if ops[0].Put? then q + [ops[0].item] else if q == [] then q else q[1..];
             Taken(q', rest) + Left(q', rest) == q' + Puts(rest)
    ensures Taken(q, ops) + Left(q, ops) == q + Puts(ops)
  {
    if ops[0].Put? {
      var x := ops[0].item;
      assert q + ([x] + Puts(rest)) == (q + [x]) + Puts(rest);
    } else if q == [] {
      assert Puts(ops) == Puts(rest);
    } else {
      Regroup(q[0], Taken(q[1..], rest), Left(q[1..], rest));
      Regroup(q[0], q[1..], Puts(rest));
      assert q == [q[0]] + q[1..] && Puts(ops) == Puts(rest);
    }
  }

  /** First in, first out: without purges, what was taken followed by what is left is exactly
      what was there followed by what was put, in order. */
  lemma {:induction false} Fifo<T>(q: seq<T>, ops: seq<Op<T>>)
    requires forall i :: 0 <= i < |ops| ==> !ops[i].Purge?
    ensures Taken(q, ops) + Left(q, ops) == q + Puts(ops)
    decreases |ops|
  {
    if ops != [] {
      var rest := ops[1..];
      Fifo(if ops[0].Put? then q + [ops[0].item] else if q == [] then q else q[1..], rest);
      FifoStep(q, ops, rest);
    }
  }
}
