/** Index-based edits on lists of lines, as the rewriting scripts perform them. */
module LineEdits {

  function Indices(positions: seq<nat>): set<int> {
    set q | q in positions
  }

  /** The lines whose original index (counted from `base`) is not in `drop`, in order. */
  function Drop<T>(lines: seq<T>, base: int, drop: set<int>): (r: seq<T>)
    ensures |r| <= |lines|
    ensures forall l :: l in r ==> l in lines
  {
    if lines == [] then []
    else (if base in drop then [] else [lines[0]]) + Drop(lines[1..], base + 1, drop)
  }

  lemma {:induction false} DropNothing<T>(lines: seq<T>, base: int, drop: set<int>)
    requires forall i :: base <= i < base + |lines| ==> i !in drop
    ensures Drop(lines, base, drop) == lines
    decreases |lines|
  {
    if lines != [] {
      DropNothing(lines[1..], base + 1, drop);
    }
  }

  lemma ConcatAssoc<T>(a: seq<T>, b: seq<T>, c: seq<T>)
    ensures a + (b + c) == (a + b) + c
  {
  }

  lemma {:induction false} DropAppend<T>(first: seq<T>, second: seq<T>, base: int, drop: set<int>)
    ensures Drop(first + second, base, drop) == Drop(first, base, drop) + Drop(second, base + |first|, drop)
    decreases |first|
  {
    if first == [] {
      assert first + second == second;
    } else {
      assert (first + second)[1..] == first[1..] + second;
      DropAppend(first[1..], second, base + 1, drop);
      ConcatAssoc(if base in drop then [] else [first[0]],
                  Drop(first[1..], base + 1, drop), Drop(second, base + |first|, drop));
    }
  }

  lemma {:induction false} DropSameIndices<T>(lines: seq<T>, base: int, one: set<int>, other: set<int>)
    requires forall i :: base <= i < base + |lines| ==> (i in one <==> i in other)
    ensures Drop(lines, base, one) == Drop(lines, base, other)
    decreases |lines|
  {
    if lines != [] {
      DropSameIndices(lines[1..], base + 1, one, other);
    }
  }

  lemma DropHead<T>(x: T, back: seq<T>, base: int, drop: set<int>)
    ensures Drop([x] + back, base, drop) ==
            if base in drop then Drop(back, base + 1, drop) else [x] + Drop(back, base + 1, drop)
  {
    assert ([x] + back)[1..] == back;
  }

  lemma {:induction false} DropBehind<T>(front: seq<T>, rest: seq<T>, base: int, drop: set<int>)
    requires forall i :: base <= i < base + |front| ==> i !in drop
    ensures Drop(front + rest, base, drop) == front + Drop(rest, base + |front|, drop)
    decreases |front|
  {
    if front == [] {
      assert front + rest == rest;
    } else {
      assert (front + rest)[1..] == front[1..] + rest;
      DropBehind(front[1..], rest, base + 1, drop);
    }
  }

  lemma DropOne<T>(x: T, base: int, drop: set<int>)
    ensures Drop([x], base, drop) == if base in drop then [] else [x]
  {
    assert [x][1..] == [];
  }

  lemma DropLast<T>(front: seq<T>, x: T, drop: set<int>)
    requires drop == {|front|}
    ensures Drop(front + [x], 0, drop) == front
  {
    DropBehind(front, [x], 0, drop);
    DropOne(x, |front|, drop);
  }

  /** Popping in front of everything popped so far works on original indices. */
  lemma PopInFront<T>(lines: seq<T>, popped: set<int>, at: int)
    requires 0 <= at < |lines| && forall i :: i in popped ==> at < i
    ensures var r := Drop(lines, 0, popped);
            && at < |r| && r[..at + 1] == lines[..at + 1]
            && Drop(lines, 0, popped + {at}) == r[..at] + r[at + 1..]
  {
    var front, back := lines[..at], lines[at + 1..];
    assert lines == front + ([lines[at]] + back);
    DropInside(front, lines[at], back, popped);
    DropInside(front, lines[at], back, popped + {at});
    DropSameIndices(back, at + 1, popped, popped + {at});
    CutAround(front, lines[at], Drop(back, at + 1, popped), Drop(lines, 0, popped));
    assert lines[..at + 1] == front + [lines[at]];
  }

  lemma DropInside<T>(front: seq<T>, x: T, back: seq<T>, drop: set<int>)
    requires forall i :: 0 <= i < |front| ==> i !in drop
    ensures Drop(front + ([x] + back), 0, drop) ==
            front + if |front| in drop then Drop(back, |front| + 1, drop) else [x] + Drop(back, |front| + 1, drop)
  {
    DropBehind(front, [x] + back, 0, drop);
    DropHead(x, back, |front|, drop);
  }

  lemma CutAround<T>(front: seq<T>, x: T, tail: seq<T>, r: seq<T>)
    requires r == front + ([x] + tail)
    ensures r[..|front|] == front && r[|front| + 1..] == tail && r[..|front| + 1] == front + [x]
  {
  }

  lemma {:induction false} DropKeeps<T>(lines: seq<T>, base: int, drop: set<int>, i: nat)
    requires i < |lines| && base + i !in drop
    ensures lines[i] in Drop(lines, base, drop)
    decreases |lines|
  {
    if i > 0 {
      DropKeeps(lines[1..], base + 1, drop, i - 1);
    }
  }

  lemma {:induction false} DropShortens<T>(lines: seq<T>, base: int, drop: set<int>, i: nat)
    requires i < |lines| && base + i in drop
    ensures |Drop(lines, base, drop)| < |lines|
    decreases |lines|
  {
    if i > 0 {
      DropShortens(lines[1..], base + 1, drop, i - 1);
    }
  }

  ghost predicate Ascending(positions: seq<nat>) {
    forall i, j :: 0 <= i < j < |positions| ==> positions[i] < positions[j]
  }

  /** Popping from the back keeps the remaining original indices valid. */
  method RemoveLines<T>(original: seq<T>, positions: seq<nat>) returns (lines: seq<T>)
    requires Ascending(positions) && forall k :: 0 <= k < |positions| ==> positions[k] < |original|
    ensures lines == Drop(original, 0, Indices(positions))
  {
    lines := original;
    var n := |positions|;
    ghost var popped: set<int> := {};
    DropNothing(original, 0, {});
    while n > 0
      invariant 0 <= n <= |positions|
      invariant popped == Indices(positions[n..])
      invariant lines == Drop(original, 0, popped)
    {
      n := n - 1;
      var pos := positions[n];
      PopInFront(original, popped, pos);
      lines := lines[..pos] + lines[pos + 1..];
      popped := popped + {pos};
      assert positions[n..] == [pos] + positions[n + 1..];
    }
    assert positions[0..] == positions;
  }

  /** Classifying every line. */
  function Map<A, B>(f: A -> B, lines: seq<A>): (r: seq<B>)
    ensures |r| == |lines|
    ensures forall i :: 0 <= i < |r| ==> r[i] == f(lines[i])
  {
    seq(|lines|, i requires 0 <= i < |lines| => f(lines[i]))
  }

  lemma {:induction false} DropMap<A, B>(f: A -> B, lines: seq<A>, base: int, drop: set<int>)
    ensures Map(f, Drop(lines, base, drop)) == Drop(Map(f, lines), base, drop)
    decreases |lines|
  {
    if lines != [] {
      DropMap(f, lines[1..], base + 1, drop);
      assert Map(f, lines)[1..] == Map(f, lines[1..]);
      var rest := Drop(lines[1..], base + 1, drop);
      assert Map(f, [lines[0]] + rest) == [f(lines[0])] + Map(f, rest);
    }
  }

  function Insert<T>(lines: seq<T>, at: nat, inserted: seq<T>): (r: seq<T>)
    requires at <= |lines|
    ensures |r| == |lines| + |inserted|
  {
    lines[..at] + inserted + lines[at..]
  }

  /** Inserting behind an inserted line. */
  lemma InsertBehind<T>(lines: seq<T>, at: nat, first: seq<T>, second: seq<T>)
    requires at <= |lines|
    ensures Insert(Insert(lines, at, first), at + |first|, second) == Insert(lines, at, first + second)
    ensures at < |lines| ==> Insert(lines, at, first)[at + |first|] == lines[at]
  {
  }

  /** An insertion at `p`, seen from `at` on. */
  lemma InsertCut<T>(lines: seq<T>, at: nat, p: nat, inserted: seq<T>)
    requires at <= p <= |lines|
    ensures Insert(lines, p, inserted) == lines[..at] + (lines[at..p] + (inserted + lines[p..]))
    ensures lines[at..] == lines[at..p] + lines[p..]
  {
    assert lines[..p] == lines[..at] + lines[at..p];
  }

  /** What was inserted can be taken out again. */
  lemma InsertDelete<T>(lines: seq<T>, at: nat, inserted: seq<T>)
    requires at <= |lines|
    ensures var r := Insert(lines, at, inserted);
            && r[..at] + r[at + |inserted|..] == lines
            && r[..at] == lines[..at]
            && r[at..at + |inserted|] == inserted
            && forall i :: 0 <= i < |inserted| ==> r[at + i] == inserted[i]
  {
  }

  lemma DropUntouched<T>(lines: seq<T>, n: nat, drop: set<int>)
    requires n <= |lines| && forall i :: i in drop ==> n <= i
    ensures n <= |Drop(lines, 0, drop)| && Drop(lines, 0, drop)[..n] == lines[..n]
  {
    assert lines == lines[..n] + lines[n..];
    DropAppend(lines[..n], lines[n..], 0, drop);
    DropNothing(lines[..n], 0, drop);
  }

  lemma MapInsert<A, B>(f: A -> B, lines: seq<A>, at: nat, inserted: seq<A>)
    requires at <= |lines|
    ensures Map(f, Insert(lines, at, inserted)) == Insert(Map(f, lines), at, Map(f, inserted))
  {
  }

  function Repeat<T>(x: T, n: nat): (r: seq<T>)
    ensures |r| == n && forall i :: 0 <= i < n ==> r[i] == x
  {
    seq(n, _ => x)
  }

  lemma MapAround<A, B>(f: A -> B, first: A, filler: A, n: nat, x: A, y: A)
    ensures Map(f, [first] + Repeat(filler, n) + [x, y]) == [f(first)] + Repeat(f(filler), n) + [f(x), f(y)]
  {
  }

  // ---- counting lines ----

  function CountIf<T>(lines: seq<T>, p: T -> bool): nat {
    if lines == [] then 0 else (if p(lines[0]) then 1 else 0) + CountIf(lines[1..], p)
  }

  lemma {:induction false} CountAppend<T>(one: seq<T>, other: seq<T>, p: T -> bool)
    ensures CountIf(one + other, p) == CountIf(one, p) + CountIf(other, p)
    decreases |one|
  {
    if one == [] {
      assert one + other == other;
    } else {
      assert (one + other)[1..] == one[1..] + other;
      CountAppend(one[1..], other, p);
    }
  }

  lemma CountInsert<T>(lines: seq<T>, at: nat, block: seq<T>, p: T -> bool)
    requires at <= |lines|
    ensures CountIf(Insert(lines, at, block), p) == CountIf(lines, p) + CountIf(block, p)
  {
    assert lines == lines[..at] + lines[at..];
    CountAppend(lines[..at], lines[at..], p);
    CountAppend(lines[..at] + block, lines[at..], p);
    CountAppend(lines[..at], block, p);
  }

  lemma {:induction false} CountNone<T>(lines: seq<T>, p: T -> bool)
    requires forall i :: 0 <= i < |lines| ==> !p(lines[i])
    ensures CountIf(lines, p) == 0
    decreases |lines|
  {
    if lines != [] {
      CountNone(lines[1..], p);
    }
  }

  /** How many of the dropped lines count. */
  function CountDropped<T>(lines: seq<T>, base: int, drop: set<int>, p: T -> bool): nat {
    if lines == [] then 0
    else (if base in drop && p(lines[0]) then 1 else 0) + CountDropped(lines[1..], base + 1, drop, p)
  }

  /** Every counting line is kept or dropped. */
  lemma {:induction false} CountSplit<T>(lines: seq<T>, base: int, drop: set<int>, p: T -> bool)
    ensures CountIf(lines, p) == CountIf(Drop(lines, base, drop), p) + CountDropped(lines, base, drop, p)
    decreases |lines|
  {
    if lines != [] {
      var rest := Drop(lines[1..], base + 1, drop);
      CountSplit(lines[1..], base + 1, drop, p);
      CountHead(lines[0], rest, p);
    }
  }

  lemma CountHead<T>(x: T, rest: seq<T>, p: T -> bool)
    ensures CountIf([x] + rest, p) == (if p(x) then 1 else 0) + CountIf(rest, p)
    ensures [] + rest == rest
  {
    assert ([x] + rest)[1..] == rest;
  }

  lemma {:induction false} NoneDropped<T>(lines: seq<T>, base: int, drop: set<int>, p: T -> bool)
    requires forall i :: 0 <= i < |lines| && p(lines[i]) ==> base + i !in drop
    ensures CountDropped(lines, base, drop, p) == 0
    decreases |lines|
  {
    if lines != [] {
      var rest := lines[1..];
      forall i | 0 <= i < |rest| && p(rest[i])
        ensures base + 1 + i !in drop
      {
        assert rest[i] == lines[i + 1] && base + (i + 1) !in drop;
      }
      NoneDropped(rest, base + 1, drop, p);
    }
  }

  /** Dropping lines that do not count. */
  lemma CountWithout<T>(lines: seq<T>, drop: set<int>, p: T -> bool)
    requires forall i :: 0 <= i < |lines| && p(lines[i]) ==> i !in drop
    ensures CountDropped(lines, 0, drop, p) == 0
    ensures CountIf(Drop(lines, 0, drop), p) == CountIf(lines, p)
  {
    CountSplit(lines, 0, drop, p);
    NoneDropped(lines, 0, drop, p);
  }

  /** No line is left that would be dropped for its content. */
  lemma {:induction false} KeptLines<T>(lines: seq<T>, base: int, drop: set<int>, p: T -> bool)
    requires forall i :: 0 <= i < |lines| && p(lines[i]) ==> base + i in drop
    ensures forall k :: 0 <= k < |Drop(lines, base, drop)| ==> !p(Drop(lines, base, drop)[k])
    decreases |lines|
  {
    if lines != [] {
      var rest := lines[1..];
      forall i | 0 <= i < |rest| && p(rest[i])
        ensures base + 1 + i in drop
      {
        assert rest[i] == lines[i + 1] && base + (i + 1) in drop;
      }
      KeptLines(rest, base + 1, drop, p);
    }
  }

  /** When every counting line is dropped, only the inserted block counts. */
  lemma CountReplaced<T>(lines: seq<T>, drop: set<int>, at: nat, block: seq<T>, p: T -> bool)
    requires forall i :: 0 <= i < |lines| && p(lines[i]) ==> i in drop
    requires at <= |Drop(lines, 0, drop)|
    ensures CountIf(Insert(Drop(lines, 0, drop), at, block), p) == CountIf(block, p)
  {
    KeptLines(lines, 0, drop, p);
    CountNone(Drop(lines, 0, drop), p);
    CountInsert(Drop(lines, 0, drop), at, block, p);
  }

  lemma IndicesAppend(positions: seq<nat>, q: nat)
    ensures Indices(positions + [q]) == Indices(positions) + {q}
  {
  }
}
