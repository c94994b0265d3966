// Two shapes the projections share: a stable sort by a comparator, and a one-pass fold of a
// history into a keyed map that may first delete entries and then write one.

module Sorting {
  import opened Sequences

  type Comparator<!T> = (T, T) -> int

  ghost predicate TotalPreorder<T(!new)>(cmp: Comparator<T>) {
    && (forall x, y :: cmp(x, y) < 0 <==> cmp(y, x) > 0)
    && (forall x, y, z :: cmp(x, y) <= 0 && cmp(y, z) <= 0 ==> cmp(x, z) <= 0)
  }

  // No two different elements of `s` tie.
  ghost predicate Separates<T>(cmp: Comparator<T>, s: seq<T>) {
    forall x, y :: x in s && y in s && cmp(x, y) == 0 ==> x == y
  }

  ghost predicate Sorted<T>(cmp: Comparator<T>, s: seq<T>) {
    forall i, j :: 0 <= i < j < |s| ==> cmp(s[i], s[j]) <= 0
  }

  function Insert<T>(cmp: Comparator<T>, s: seq<T>, x: T): seq<T> {
    if s == [] then [x]
    else if cmp(s[|s| - 1], x) <= 0 then s + [x]
    else Insert(cmp, s[..|s| - 1], x) + [s[|s| - 1]]
  }

  // Array.prototype.sort: elements that compare equal keep their order.
  function Sort<T>(cmp: Comparator<T>, s: seq<T>): seq<T> {
    if s == [] then [] else Insert(cmp, Sort(cmp, s[..|s| - 1]), s[|s| - 1])
  }

  lemma {:induction false} InsertAdds<T(!new)>(cmp: Comparator<T>, s: seq<T>, x: T)
    ensures multiset(Insert(cmp, s, x)) == multiset(s) + multiset{x}
  {
    if s != [] {
      InsertAdds(cmp, s[..|s| - 1], x);
      assert s == s[..|s| - 1] + [s[|s| - 1]];
    }
  }

  lemma InsertMembers<T(!new)>(cmp: Comparator<T>, s: seq<T>, x: T, y: T)
    ensures y in Insert(cmp, s, x) <==> y in s || y == x
  {
    InsertAdds(cmp, s, x);
    assert y in Insert(cmp, s, x) <==> y in multiset(Insert(cmp, s, x));
  }

  lemma Transitive<T(!new)>(cmp: Comparator<T>, x: T, y: T, z: T)
    requires TotalPreorder(cmp) && cmp(x, y) <= 0 && cmp(y, z) <= 0
    ensures cmp(x, z) <= 0
  {}

  lemma Turned<T(!new)>(cmp: Comparator<T>, x: T, y: T)
    requires TotalPreorder(cmp)
    ensures cmp(x, y) < 0 <==> cmp(y, x) > 0
    ensures cmp(x, y) > 0 <==> cmp(y, x) < 0
  {}

  // Appending an element that everything before it may precede.
  lemma AppendSorted<T>(cmp: Comparator<T>, s: seq<T>, x: T)
    requires Sorted(cmp, s) && forall y :: y in s ==> cmp(y, x) <= 0
    ensures Sorted(cmp, s + [x])
  {
    var t := s + [x];
    forall i, j | 0 <= i < j < |t| ensures cmp(t[i], t[j]) <= 0 {
      if j == |s| { assert t[i] in s; }
    }
  }

  lemma {:induction false} InsertSorted<T(!new)>(cmp: Comparator<T>, s: seq<T>, x: T)
    requires TotalPreorder(cmp) && Sorted(cmp, s)
    ensures Sorted(cmp, Insert(cmp, s, x))
  {
    hide TotalPreorder;
    if s != [] {
      var front, last := s[..|s| - 1], s[|s| - 1];
      if cmp(last, x) <= 0 {
        forall y | y in s ensures cmp(y, x) <= 0 {
          if y != last {
            Transitive(cmp, y, last, x);
          }
        }
        AppendSorted(cmp, s, x);
      } else {
        InsertSorted(cmp, front, x);
        forall y | y in Insert(cmp, front, x) ensures cmp(y, last) <= 0 {
          InsertMembers(cmp, front, x, y);
          Turned(cmp, last, x);
        }
        AppendSorted(cmp, Insert(cmp, front, x), last);
      }
    }
  }

  lemma {:induction false} SortSorts<T(!new)>(cmp: Comparator<T>, s: seq<T>)
    requires TotalPreorder(cmp)
    ensures multiset(Sort(cmp, s)) == multiset(s)
    ensures Sorted(cmp, Sort(cmp, s))
  {
    hide TotalPreorder;
    if s != [] {
      var front, last := s[..|s| - 1], s[|s| - 1];
      SortSorts(cmp, front);
      InsertAdds(cmp, Sort(cmp, front), last);
      InsertSorted(cmp, Sort(cmp, front), last);
      assert s == front + [last];
    }
  }

  lemma SortMembers<T(!new)>(cmp: Comparator<T>, s: seq<T>)
    requires TotalPreorder(cmp)
    ensures |Sort(cmp, s)| == |s|
    ensures forall x :: x in Sort(cmp, s) <==> x in s
  {
    SortSorts(cmp, s);
    hide TotalPreorder;
    assert |multiset(Sort(cmp, s))| == |multiset(s)|;
    forall x ensures x in Sort(cmp, s) <==> x in s {
      assert x in Sort(cmp, s) <==> x in multiset(Sort(cmp, s));
    }
  }

  lemma SameHead<T(!new)>(cmp: Comparator<T>, a: seq<T>, b: seq<T>)
    requires TotalPreorder(cmp) && Separates(cmp, a) && a != [] && b != []
    requires Sorted(cmp, a) && Sorted(cmp, b) && b[0] in a && a[0] in b
    ensures a[0] == b[0]
  {
    hide TotalPreorder;
    var i :| 0 <= i < |b| && b[i] == a[0];
    var j :| 0 <= j < |a| && a[j] == b[0];
    Turned(cmp, a[0], b[0]);
    assert a[0] in a;
  }

  lemma TailOf<T(!new)>(a: seq<T>, b: seq<T>)
    requires a != [] && b != [] && a[0] == b[0] && multiset(a) == multiset(b)
    ensures multiset(a[1..]) == multiset(b[1..])
  {
    assert a == [a[0]] + a[1..] && b == [b[0]] + b[1..];
    assert multiset(a[1..]) == multiset(a) - multiset{a[0]};
    assert multiset(b[1..]) == multiset(b) - multiset{b[0]};
  }

  lemma SameMembers<T(!new)>(a: seq<T>, b: seq<T>)
    requires multiset(a) == multiset(b)
    ensures |a| == |b| && forall x :: x in a <==> x in b
  {
    assert |multiset(a)| == |multiset(b)|;
    forall x ensures x in a <==> x in b {
      assert x in a <==> x in multiset(a);
      assert x in b <==> x in multiset(b);
    }
  }

  // When nothing ties, a sorted arrangement of a multiset is unique.
  lemma {:induction false} SortedIsUnique<T(!new)>(cmp: Comparator<T>, a: seq<T>, b: seq<T>)
    requires TotalPreorder(cmp) && Separates(cmp, a)
    requires Sorted(cmp, a) && Sorted(cmp, b) && multiset(a) == multiset(b)
    ensures a == b
  {
    SameMembers(a, b);
    if a != [] {
      SameHead(cmp, a, b);
      TailOf(a, b);
      SortedTail(cmp, a);
      SortedTail(cmp, b);
      hide *;
      SortedIsUnique(cmp, a[1..], b[1..]);
      assert a == [a[0]] + a[1..] && b == [b[0]] + b[1..];
    }
  }

  lemma SortedTail<T>(cmp: Comparator<T>, a: seq<T>)
    requires Sorted(cmp, a) && a != []
    ensures Sorted(cmp, a[1..])
    ensures Separates(cmp, a) ==> Separates(cmp, a[1..])
  {}

  lemma SortIgnoresArrivalOrder<T(!new)>(cmp: Comparator<T>, a: seq<T>, b: seq<T>)
    requires TotalPreorder(cmp) && Separates(cmp, a) && multiset(a) == multiset(b)
    ensures Sort(cmp, a) == Sort(cmp, b)
  {
    SortSorts(cmp, a);
    SortSorts(cmp, b);
    SameMembers(a, Sort(cmp, a));
    assert Separates(cmp, Sort(cmp, a));
    hide *;
    SortedIsUnique(cmp, Sort(cmp, a), Sort(cmp, b));
  }

  lemma {:induction false} DistinctOnce<T(!new)>(s: seq<T>, x: T)
    requires Distinct(s)
    ensures multiset(s)[x] <= 1
  {
    if s != [] {
      var front, last := s[..|s| - 1], s[|s| - 1];
      assert s == front + [last];
      DistinctOnce(front, x);
      if last == x { assert x !in front; }
    }
  }

  lemma DistinctIgnoresOrder<T(!new)>(a: seq<T>, b: seq<T>)
    requires Distinct(a) && multiset(a) == multiset(b)
    ensures Distinct(b)
  {
    forall i, j | 0 <= i < j < |b| ensures b[i] != b[j] {
      DistinctOnce(a, b[i]);
      assert b == b[..j] + [b[j]] + b[j + 1..];
      assert b[i] in b[..j];
    }
  }

  // A sum over a sequence does not depend on the order of its elements.
  function Total<T>(s: seq<T>, weight: T -> nat): nat {
    if s == [] then 0 else Total(s[..|s| - 1], weight) + weight(s[|s| - 1])
  }

  lemma {:induction false} TotalAround<T>(s: seq<T>, i: nat, weight: T -> nat)
    requires i < |s|
    ensures Total(s, weight) == Total(s[..i] + s[i + 1..], weight) + weight(s[i])
  {
    var front := s[..|s| - 1];
    if i == |s| - 1 {
      assert s[..i] + s[i + 1..] == front;
    } else {
      TotalAround(front, i, weight);
      var rest := s[..i] + s[i + 1..];
      assert rest[..|rest| - 1] == front[..i] + front[i + 1..];
    }
  }

  lemma WithoutIndex<T(!new)>(s: seq<T>, i: nat)
    requires i < |s|
    ensures multiset(s[..i] + s[i + 1..]) == multiset(s) - multiset{s[i]}
  {
    assert s == s[..i] + [s[i]] + s[i + 1..];
  }

  lemma {:induction false} TotalIgnoresOrder<T(!new)>(a: seq<T>, b: seq<T>, weight: T -> nat)
    requires multiset(a) == multiset(b)
    ensures Total(a, weight) == Total(b, weight)
  {
    SameMembers(a, b);
    if a != [] {
      var n := |a| - 1;
      assert a[n] in b;
      var i :| 0 <= i < |b| && b[i] == a[n];
      WithoutIndex(a, n);
      WithoutIndex(b, i);
      assert a[..n] + a[n + 1..] == a[..n];
      hide *;
      TotalIgnoresOrder(a[..n], b[..i] + b[i + 1..], weight);
      TotalAround(a, n, weight);
      TotalAround(b, i, weight);
    }
  }

  // The order on identifiers and timestamps: lexicographic on their characters.
  function CompareText(a: string, b: string): int {
    if a == [] && b == [] then 0
    else if a == [] then -1
    else if b == [] then 1
    else if a[0] != b[0] then (a[0] as int) - (b[0] as int)
    else CompareText(a[1..], b[1..])
  }

  lemma {:induction false} CompareTextAntisymmetric(a: string, b: string)
    ensures CompareText(a, b) < 0 <==> CompareText(b, a) > 0
    ensures CompareText(a, b) == 0 <==> a == b
  {
    if a != [] && b != [] && a[0] == b[0] {
      CompareTextAntisymmetric(a[1..], b[1..]);
      assert a == [a[0]] + a[1..] && b == [b[0]] + b[1..];
    }
  }

  lemma {:induction false} CompareTextTransitive(a: string, b: string, c: string)
    requires CompareText(a, b) <= 0 && CompareText(b, c) <= 0
    ensures CompareText(a, c) <= 0
    ensures CompareText(a, b) < 0 || CompareText(b, c) < 0 ==> CompareText(a, c) < 0
  {
    if a != [] && b != [] && c != [] && a[0] == b[0] == c[0] {
      CompareTextTransitive(a[1..], b[1..], c[1..]);
    }
  }
}

module LastWriter {
  import opened Options
  import opened OrderedMaps

  type Resolver<!R, !V> = (OrderedMap<string, V>, R) -> OrderedMap<string, V>
  type Writer<!R, +V> = R -> Option<(string, V)>
  type Kill<!R, !V> = (R, string, V) -> bool

  // One step: delete what the record resolves, then write what it writes.
  function Apply<R, V>(m: OrderedMap<string, V>, r: R, resolve: Resolver<R, V>, write: Writer<R, V>)
    : OrderedMap<string, V>
  {
    match write(r)
    case None => resolve(m, r)
    case Some((k, v)) => Put(resolve(m, r), k, v)
  }

  function Fold<R, V>(rs: seq<R>, resolve: Resolver<R, V>, write: Writer<R, V>): OrderedMap<string, V> {
    if rs == [] then Empty()
    else Apply(Fold(rs[..|rs| - 1], resolve, write), rs[|rs| - 1], resolve, write)
  }

  // `resolve` deletes exactly the entries `kill` names and changes nothing else.
  ghost predicate ResolvesBy<R(!new), V(!new)>(resolve: Resolver<R, V>, kill: Kill<R, V>) {
    forall m, r :: DeletesExactly(m, resolve(m, r), kill, r)
  }

  ghost predicate DeletesExactly<R, V(!new)>(m: OrderedMap<string, V>, m': OrderedMap<string, V>,
                                             kill: Kill<R, V>, r: R) {
    && (forall k :: k in m'.vals <==> k in m.vals && !kill(r, k, m.vals[k]))
    && (forall k :: k in m'.vals ==> m'.vals[k] == m.vals[k])
  }

  ghost predicate Touches<R, V>(r: R, kill: Kill<R, V>, write: Writer<R, V>, k: string, v: V) {
    kill(r, k, v) || (write(r).Some? && write(r).value.0 == k)
  }

  // Record i wrote (k, v) and no later record touches it.
  ghost predicate LiveAt<R, V>(rs: seq<R>, i: int, kill: Kill<R, V>, write: Writer<R, V>, k: string, v: V) {
    && 0 <= i < |rs|
    && write(rs[i]) == Some((k, v))
    && forall j :: i < j < |rs| ==> !Touches(rs[j], kill, write, k, v)
  }

  ghost predicate Live<R, V>(rs: seq<R>, kill: Kill<R, V>, write: Writer<R, V>, k: string, v: V) {
    exists i :: LiveAt(rs, i, kill, write, k, v)
  }

  lemma LiveInFront<R, V>(rs: seq<R>, front: seq<R>, kill: Kill<R, V>, write: Writer<R, V>, k: string, v: V)
    requires rs != [] && front == rs[..|rs| - 1] && !Touches(rs[|rs| - 1], kill, write, k, v)
    ensures Live(rs, kill, write, k, v) <==> Live(front, kill, write, k, v)
  {
    forall i ensures LiveAt(rs, i, kill, write, k, v) <==> LiveAt(front, i, kill, write, k, v) {
      if LiveAt(front, i, kill, write, k, v) {
        forall j | i < j < |rs| ensures !Touches(rs[j], kill, write, k, v) {
          if j < |front| { assert rs[j] == front[j]; }
        }
      }
      if LiveAt(rs, i, kill, write, k, v) && i < |front| {
        forall j | i < j < |front| ensures !Touches(front[j], kill, write, k, v) {
          assert rs[j] == front[j];
        }
      }
    }
  }

  // The map holds exactly the writes that nothing later touched.
  lemma {:induction false} FoldIsLastWriter<R(!new), V(!new)>(
    rs: seq<R>, resolve: Resolver<R, V>, kill: Kill<R, V>, write: Writer<R, V>, k: string, v: V)
    requires ResolvesBy(resolve, kill)
    ensures (k in Fold(rs, resolve, write).vals && Fold(rs, resolve, write).vals[k] == v)
            <==> Live(rs, kill, write, k, v)
  {
    if rs != [] {
      var front, n := rs[..|rs| - 1], |rs| - 1;
      var m := Fold(front, resolve, write);
      assert DeletesExactly(m, resolve(m, rs[n]), kill, rs[n]);
      if write(rs[n]) == Some((k, v)) {
        assert LiveAt(rs, n, kill, write, k, v);
      } else if Touches(rs[n], kill, write, k, v) {
        forall i ensures !LiveAt(rs, i, kill, write, k, v) {
          if LiveAt(rs, i, kill, write, k, v) && i < n { assert false; }
        }
      } else {
        FoldIsLastWriter(front, resolve, kill, write, k, v);
        LiveInFront(rs, front, kill, write, k, v);
      }
    }
  }
}
