/** The last lines of a stored log (tailLines in worker/worker.go). */
module Logs {
  newtype Byte = b: int | 0 <= b < 256

  const NEWLINE: Byte := 10

  /** Where the last line of `b` begins: right after the last newline that is not b's final byte. */
  function LastStart(b: seq<Byte>): (s: nat)
    requires b != []
    ensures s < |b|
    ensures s == 0 || b[s - 1] == NEWLINE
    ensures forall p :: s <= p < |b| - 1 ==> b[p] != NEWLINE
  {
    LastStartBefore(b, |b| - 1)
  }

  function LastStartBefore(b: seq<Byte>, i: nat): (s: nat)
    requires i < |b|
    ensures s <= i
    ensures s == 0 || b[s - 1] == NEWLINE
    ensures forall p :: s <= p < i ==> b[p] != NEWLINE
  {
    if i == 0 then 0 else if b[i - 1] == NEWLINE then i else LastStartBefore(b, i - 1)
  }

  /** The lines of `b`, each with its newline; an unterminated last line counts. */
  function Lines(b: seq<Byte>): seq<seq<Byte>>
    decreases |b|
  {
    if b == [] then [] else Lines(b[..LastStart(b)]) + [b[LastStart(b)..]]
  }

  function Concat(ls: seq<seq<Byte>>): seq<Byte> {
    if ls == [] then [] else Concat(ls[..|ls| - 1]) + ls[|ls| - 1]
  }

  function LastOf(ls: seq<seq<Byte>>, n: nat): seq<seq<Byte>> {
    if n >= |ls| then ls else ls[|ls| - n..]
  }

  /** A line is not empty and has no newline except possibly at its end. */
  predicate IsLine(l: seq<Byte>) {
    l != [] && forall p :: 0 <= p < |l| - 1 ==> l[p] != NEWLINE
  }

  predicate Terminated(b: seq<Byte>) {
    b == [] || b[|b| - 1] == NEWLINE
  }

  lemma Unfold(b: seq<Byte>) returns (front: seq<Byte>, line: seq<Byte>)
    requires b != []
    ensures front + line == b && |front| < |b| && front == b[..LastStart(b)]
    ensures Lines(b) == Lines(front) + [line] && Terminated(front) && IsLine(line)
    ensures Terminated(b) <==> Terminated(line)
  {
    front, line := b[..LastStart(b)], b[LastStart(b)..];
  }

  lemma ConcatSnoc(ls: seq<seq<Byte>>, l: seq<Byte>)
    ensures Concat(ls + [l]) == Concat(ls) + l
  {
  }

  lemma {:induction false} LinesRejoin(b: seq<Byte>)
    ensures Concat(Lines(b)) == b
    decreases |b|
  {
    if b != [] {
      var front, line := Unfold(b);
      LinesRejoin(front);
      ConcatSnoc(Lines(front), line);
    }
  }

  /** `Lines` is the split at newlines: lines that put together give `b` back, all terminated except
      possibly the last. */
  lemma {:induction false} LinesSplit(b: seq<Byte>)
    ensures Concat(Lines(b)) == b
    ensures forall i :: 0 <= i < |Lines(b)| ==> IsLine(Lines(b)[i]) && (Terminated(Lines(b)[i]) || (i == |Lines(b)| - 1 && !Terminated(b)))
    decreases |b|
  {
    LinesRejoin(b);
    if b != [] {
      var front, line := Unfold(b);
      LinesSplit(front);
    }
  }

  /** A line after terminated text is its last line. */
  lemma LinesSnoc(b: seq<Byte>, l: seq<Byte>)
    requires Terminated(b) && IsLine(l)
    ensures Lines(b + l) == Lines(b) + [l]
  {
    NextStart(b + l, |b|);
    assert (b + l)[..|b|] == b && (b + l)[|b|..] == l;
  }

  /** Where the last `n` lines begin. */
  function TailStart(b: seq<Byte>, n: nat): (s: nat)
    ensures s <= |b|
    decreases n
  {
    if n == 0 then |b| else if b == [] then 0 else TailStart(b[..LastStart(b)], n - 1)
  }

  /** What follows `TailStart` is exactly the last min(n, count) lines. */
  lemma TailIsLastLines(b: seq<Byte>, n: nat)
    ensures Lines(b[TailStart(b, n)..]) == LastOf(Lines(b), n)
    ensures b[TailStart(b, n)..] == Concat(LastOf(Lines(b), n))
  {
    TailLinesOf(b, n);
    LinesRejoin(b[TailStart(b, n)..]);
  }

  lemma SuffixLines(front: seq<Byte>, line: seq<Byte>, t: nat)
    requires t <= |front| && Terminated(front) && IsLine(line)
    ensures Lines((front + line)[t..]) == Lines(front[t..]) + [line]
  {
    assert (front + line)[t..] == front[t..] + line;
    LinesSnoc(front[t..], line);
  }

  ghost predicate TailRight(b: seq<Byte>, n: nat) {
    Lines(b[TailStart(b, n)..]) == LastOf(Lines(b), n)
  }

  lemma TailStep(b: seq<Byte>, front: seq<Byte>, line: seq<Byte>, n: nat)
    requires b != [] && front == b[..LastStart(b)] && b == front + line && Terminated(front) && IsLine(line)
    requires Lines(b) == Lines(front) + [line] && n > 0 && TailRight(front, n - 1)
    ensures TailRight(b, n)
  {
    var t := TailStart(front, n - 1);
    assert TailStart(b, n) == t;
    SuffixLines(front, line, t);
    LastOfSnoc(Lines(front), line, n);
  }

  lemma TailOfNone(b: seq<Byte>)
    ensures TailRight(b, 0)
  {
  }

  lemma TailOfEmpty(n: nat)
    ensures TailRight([], n)
  {
  }

  lemma {:induction false} TailLinesOf(b: seq<Byte>, n: nat)
    ensures TailRight(b, n)
    decreases n
  {
    if n == 0 {
      TailOfNone(b);
    } else if b == [] {
      TailOfEmpty(n);
    } else {
      var front, line := Unfold(b);
      TailLinesOf(front, n - 1);
      TailStep(b, front, line, n);
    }
  }

  lemma LastOfSnoc(ls: seq<seq<Byte>>, l: seq<Byte>, n: nat)
    requires n > 0
    ensures LastOf(ls + [l], n) == LastOf(ls, n - 1) + [l]
  {
  }

  /** The backward scan has looked at blob[i + 1..] and found the line start `end`; the wanted tail
      begins where the last `left` lines of blob[..end] begin. */
  ghost predicate Scanned(blob: seq<Byte>, i: int, end: nat, want: nat, left: nat) {
    && -1 <= i < end <= |blob|
    && (end == |blob| || (i < end - 1 && blob[end - 1] == NEWLINE))
    && (forall p :: i < p < end - 1 ==> blob[p] != NEWLINE)
    && want == TailStart(blob[..end], left)
  }

  lemma ScanStarts(blob: seq<Byte>, n: nat)
    requires blob != []
    ensures Scanned(blob, |blob| - 1, |blob|, TailStart(blob, n), n)
  {
    assert blob[..|blob|] == blob;
  }

  lemma ScanFinds(blob: seq<Byte>, i: nat, end: nat, want: nat, left: nat)
    requires Scanned(blob, i, end, want, left) && left > 0
    requires blob[i] == NEWLINE && i + 1 < |blob|
    ensures Scanned(blob, i - 1, i + 1, want, left - 1)
  {
    NextStart(blob[..end], i + 1);
    assert blob[..end][..i + 1] == blob[..i + 1];
  }

  lemma ScanSkips(blob: seq<Byte>, i: nat, end: nat, want: nat, left: nat)
    requires Scanned(blob, i, end, want, left)
    requires blob[i] != NEWLINE || i + 1 == |blob|
    ensures Scanned(blob, i - 1, end, want, left)
  {
  }

  lemma ScanEnds(blob: seq<Byte>, end: nat, want: nat, left: nat)
    requires blob != [] && Scanned(blob, -1, end, want, left) && left > 0
    ensures want == 0
  {
  }

  /** Nothing left to find: the tail begins at the last line start that was found. */
  lemma ScanDone(blob: seq<Byte>, i: int, end: nat, want: nat)
    requires Scanned(blob, i, end, want, 0)
    ensures want == end
  {
  }

  /** tailLines scans backwards and stops at the start of the n-th line from the end. */
  method TailLines(blob: seq<Byte>, n: int) returns (tail: seq<Byte>)
    ensures n > 0 ==> tail == Concat(LastOf(Lines(blob), n))
    ensures n <= 0 ==> tail == blob
  {
    if n <= 0 || |blob| == 0 {
      if n > 0 { assert LastOf(Lines(blob), n) == []; }
      return blob;
    }
    var start := ScanBack(blob, n);
    TailIsLastLines(blob, n);
    return blob[start..];
  }

  /** The backward loop; it leaves the start at 0 when there are fewer than `n` lines. */
  method ScanBack(blob: seq<Byte>, n: nat) returns (start: nat)
    requires n > 0 && blob != []
    ensures start == TailStart(blob, n)
  {
    var lines := 0;
    ghost var want, end: nat, left: nat := TailStart(blob, n), |blob|, n;
    ScanStarts(blob, n);
    var i := |blob| - 1;
    while i >= 0
      invariant -1 <= i < |blob| && lines + left == n && left > 0
      invariant Scanned(blob, i, end, want, left)
    {
      if blob[i] == NEWLINE && i + 1 < |blob| {
        ScanFinds(blob, i, end, want, left);
        end, left := i + 1, left - 1;
        lines := lines + 1;
        if lines >= n {
          ScanDone(blob, i - 1, end, want);
          return i + 1;
        }
      } else {
        ScanSkips(blob, i, end, want, left);
      }
      i := i - 1;
    }
    ScanEnds(blob, end, want, left);
    return 0;
  }

  lemma NextStart(b: seq<Byte>, s: nat)
    requires s < |b| && (s == 0 || b[s - 1] == NEWLINE)
    requires forall p :: s <= p < |b| - 1 ==> b[p] != NEWLINE
    ensures LastStart(b) == s
  {
  }

  /** Taking a tail of a tail is taking the shorter tail. */
  lemma TailOfTail(b: seq<Byte>, m: nat, n: nat)
    ensures var first := Concat(LastOf(Lines(b), m));
            Concat(LastOf(Lines(first), n)) == Concat(LastOf(Lines(b), if m <= n then m else n))
  {
    TailIsLastLines(b, m);
    assert LastOf(LastOf(Lines(b), m), n) == LastOf(Lines(b), if m <= n then m else n);
  }
}
