/**
 Python's `sorted`: a stable sort by a tuple key.  Every key in the scripts is a tuple of integers
 followed by strings, so one key type and one linear order serve all of them.
 */
module Ordering {

  ghost predicate Linear<T(!new)>(leq: (T, T) -> bool) {
    && (forall a, b :: leq(a, b) || leq(b, a))
    && (forall a, b :: leq(a, b) && leq(b, a) ==> a == b)
    && (forall a, b, c :: leq(a, b) && leq(b, c) ==> leq(a, c))
  }

  /** Lexicographic comparison, as on Python strings, lists and tuples. */
  predicate Lex<T(==)>(leq: (T, T) -> bool, a: seq<T>, b: seq<T>) {
    a == [] || (b != [] && if a[0] == b[0] then Lex(leq, a[1..], b[1..]) else leq(a[0], b[0]))
  }

  lemma {:induction false} LexTotal<T(!new)>(leq: (T, T) -> bool, a: seq<T>, b: seq<T>)
    requires Linear(leq)
    ensures Lex(leq, a, b) || Lex(leq, b, a)
    ensures Lex(leq, a, b) && Lex(leq, b, a) ==> a == b
  {
    if a != [] && b != [] && a[0] == b[0] {
      LexTotal(leq, a[1..], b[1..]);
      assert a == [a[0]] + a[1..] && b == [b[0]] + b[1..];
    }
  }

  lemma {:induction false} LexTransitive<T(!new)>(leq: (T, T) -> bool, a: seq<T>, b: seq<T>, c: seq<T>)
    requires Linear(leq) && Lex(leq, a, b) && Lex(leq, b, c)
    ensures Lex(leq, a, c)
  {
    if a != [] && a[0] == b[0] && b[0] == c[0] {
      LexTransitive(leq, a[1..], b[1..], c[1..]);
    }
  }

  lemma {:induction false} LexPrefix<T(!new)>(leq: (T, T) -> bool, a: seq<T>, b: seq<T>, n: nat)
    requires n <= |a| && n <= |b| && Lex(leq, a, b)
    ensures Lex(leq, a[..n], b[..n])
  {
    if n > 0 && a[0] == b[0] {
      assert a[..n][1..] == a[1..][..n - 1] && b[..n][1..] == b[1..][..n - 1];
      LexPrefix(leq, a[1..], b[1..], n - 1);
    }
  }

  predicate CharLeq(a: char, b: char) { a <= b }

  predicate IntLeq(a: int, b: int) { a <= b }

  predicate StrLeq(a: string, b: string) { Lex(CharLeq, a, b) }

  datatype Key = Key(ranks: seq<int>, texts: seq<string>)

  predicate KeyLeq(a: Key, b: Key) {
    if a.ranks == b.ranks then Lex(StrLeq, a.texts, b.texts) else Lex(IntLeq, a.ranks, b.ranks)
  }

  lemma StrTotal(a: string, b: string)
    ensures StrLeq(a, b) || StrLeq(b, a)
    ensures StrLeq(a, b) && StrLeq(b, a) ==> a == b
  {
    LexTotal(CharLeq, a, b);
  }

  lemma StrTransitive(a: string, b: string, c: string)
    requires StrLeq(a, b) && StrLeq(b, c)
    ensures StrLeq(a, c)
  {
    LexTransitive(CharLeq, a, b, c);
  }

  lemma FirstText(a: seq<string>, b: seq<string>)
    requires a != [] && b != [] && Lex(StrLeq, a, b)
    ensures StrLeq(a[0], b[0])
    ensures a[0] == b[0] ==> Lex(StrLeq, a[1..], b[1..])
  {
    StrTotal(a[0], a[0]);
  }

  lemma StrOrder()
    ensures Linear(StrLeq)
  {
    hide StrLeq;
    forall a, b ensures StrLeq(a, b) || StrLeq(b, a) ensures StrLeq(a, b) && StrLeq(b, a) ==> a == b { StrTotal(a, b); }
    forall a, b, c | StrLeq(a, b) && StrLeq(b, c) ensures StrLeq(a, c) { StrTransitive(a, b, c); }
  }

  lemma KeyTotal(a: Key, b: Key)
    ensures KeyLeq(a, b) || KeyLeq(b, a)
    ensures KeyLeq(a, b) && KeyLeq(b, a) ==> a == b
  {
    StrOrder();
    LexTotal(IntLeq, a.ranks, b.ranks);
    LexTotal(StrLeq, a.texts, b.texts);
  }

  lemma KeyTransitive(a: Key, b: Key, c: Key)
    requires KeyLeq(a, b) && KeyLeq(b, c)
    ensures KeyLeq(a, c)
  {
    StrOrder();
    LexTotal(IntLeq, a.ranks, b.ranks);
    LexTotal(IntLeq, b.ranks, c.ranks);
    if a.ranks == b.ranks == c.ranks {
      LexTransitive(StrLeq, a.texts, b.texts, c.texts);
    } else {
      LexTotal(IntLeq, a.ranks, c.ranks);
      LexTransitive(IntLeq, a.ranks, b.ranks, c.ranks);
    }
  }

  // ---------------------------------------------------------------- stable sort

  /** Insert x after every element whose key does not exceed its own. */
  function Insert<T>(s: seq<T>, x: T, key: T -> Key): seq<T> {
    if s == [] || KeyLeq(key(s[|s| - 1]), key(x)) then s + [x]
    else Insert(s[..|s| - 1], x, key) + [s[|s| - 1]]
  }

  /** Python's `sorted(s, key=key)`. */
  function Sort<T>(s: seq<T>, key: T -> Key): seq<T> {
    if s == [] then [] else Insert(Sort(s[..|s| - 1], key), s[|s| - 1], key)
  }

  ghost predicate IsSorted<T>(s: seq<T>, key: T -> Key) {
    forall i, j :: 0 <= i < j < |s| ==> KeyLeq(key(s[i]), key(s[j]))
  }

  /** The elements of s with key k, in the order in which they occur. */
  ghost function Class<T>(s: seq<T>, k: Key, key: T -> Key): seq<T> {
    if s == [] then []
    else Class(s[..|s| - 1], k, key) + if key(s[|s| - 1]) == k then [s[|s| - 1]] else []
  }

  /** r is a stable sort of s. */
  ghost predicate StableSortOf<T(!new)>(r: seq<T>, s: seq<T>, key: T -> Key) {
    IsSorted(r, key) && forall k :: Class(r, k, key) == Class(s, k, key)
  }

  lemma {:induction false} InsertMultiset<T>(s: seq<T>, x: T, key: T -> Key)
    ensures multiset(Insert(s, x, key)) == multiset(s) + multiset{x}
    ensures |Insert(s, x, key)| == |s| + 1
  {
    if s != [] {
      assert s == s[..|s| - 1] + [s[|s| - 1]];
      if !KeyLeq(key(s[|s| - 1]), key(x)) { InsertMultiset(s[..|s| - 1], x, key); }
    }
  }

  lemma {:induction false} SortMultiset<T>(s: seq<T>, key: T -> Key)
    ensures multiset(Sort(s, key)) == multiset(s)
    ensures |Sort(s, key)| == |s|
  {
    if s != [] {
      assert s == s[..|s| - 1] + [s[|s| - 1]];
      SortMultiset(s[..|s| - 1], key);
      InsertMultiset(Sort(s[..|s| - 1], key), s[|s| - 1], key);
    }
  }

  lemma {:induction false} InsertSorted<T>(s: seq<T>, x: T, key: T -> Key)
    requires IsSorted(s, key)
    ensures IsSorted(Insert(s, x, key), key)
  {
    hide KeyLeq;
    if s == [] {
    } else if KeyLeq(key(s[|s| - 1]), key(x)) {
      forall i | 0 <= i < |s| ensures KeyLeq(key(s[i]), key(x)) {
        if i < |s| - 1 { KeyTransitive(key(s[i]), key(s[|s| - 1]), key(x)); }
      }
    } else {
      var front, last := s[..|s| - 1], s[|s| - 1];
      InsertSorted(front, x, key);
      InsertMultiset(front, x, key);
      KeyTotal(key(last), key(x));
      var r := Insert(front, x, key);
      forall i | 0 <= i < |r| ensures KeyLeq(key(r[i]), key(last)) {
        assert r[i] in multiset(front) + multiset{x};
        if r[i] != x { assert r[i] in front; }
      }
    }
  }

  lemma {:induction false} SortSorted<T>(s: seq<T>, key: T -> Key)
    ensures IsSorted(Sort(s, key), key)
  {
    if s != [] {
      SortSorted(s[..|s| - 1], key);
      InsertSorted(Sort(s[..|s| - 1], key), s[|s| - 1], key);
    }
  }

  lemma {:induction false} InsertClass<T>(s: seq<T>, x: T, k: Key, key: T -> Key)
    ensures Class(Insert(s, x, key), k, key) == Class(s, k, key) + if key(x) == k then [x] else []
  {
    hide KeyLeq;
    KeyTotal(key(x), key(x));
    if s == [] || KeyLeq(key(s[|s| - 1]), key(x)) {
      assert (s + [x])[..|s|] == s;
    } else {
      var front, last := s[..|s| - 1], s[|s| - 1];
      InsertClass(front, x, k, key);
      var r := Insert(front, x, key) + [last];
      assert r[..|r| - 1] == Insert(front, x, key);
    }
  }

  lemma {:induction false} SortClass<T>(s: seq<T>, k: Key, key: T -> Key)
    ensures Class(Sort(s, key), k, key) == Class(s, k, key)
  {
    if s != [] {
      SortClass(s[..|s| - 1], k, key);
      InsertClass(Sort(s[..|s| - 1], key), s[|s| - 1], k, key);
    }
  }

  lemma SortIsStable<T(!new)>(s: seq<T>, key: T -> Key)
    ensures StableSortOf(Sort(s, key), s, key)
  {
    SortSorted(s, key);
    forall k ensures Class(Sort(s, key), k, key) == Class(s, k, key) { SortClass(s, k, key); }
  }

  lemma {:induction false} ClassMember<T>(s: seq<T>, k: Key, key: T -> Key)
    ensures Class(s, k, key) != [] <==> exists i :: 0 <= i < |s| && key(s[i]) == k
  {
    if s != [] { ClassMember(s[..|s| - 1], k, key); }
  }

  lemma LastBounds<T>(a: seq<T>, b: seq<T>, key: T -> Key)
    requires a != [] && b != [] && IsSorted(a, key)
    requires forall k :: Class(a, k, key) == Class(b, k, key)
    ensures KeyLeq(key(b[|b| - 1]), key(a[|a| - 1]))
  {
    hide KeyLeq;
    var k := key(b[|b| - 1]);
    ClassMember(b, k, key);
    ClassMember(a, k, key);
    var i :| 0 <= i < |a| && key(a[i]) == k;
    KeyTotal(k, k);
  }

  /** A stable sort is determined by its input: whatever algorithm Python uses, it returns Sort(s, key). */
  lemma {:induction false} StableSortUnique<T(!new)>(a: seq<T>, b: seq<T>, key: T -> Key)
    requires IsSorted(a, key) && IsSorted(b, key)
    requires forall k :: Class(a, k, key) == Class(b, k, key)
    ensures a == b
    decreases |a|
  {
    hide KeyLeq;
    if a == [] {
      if b != [] { ClassMember(a, key(b[0]), key); ClassMember(b, key(b[0]), key); }
    } else {
      ClassMember(a, key(a[|a| - 1]), key);
      ClassMember(b, key(a[|a| - 1]), key);
      var x, y := a[|a| - 1], b[|b| - 1];
      LastBounds(a, b, key);
      LastBounds(b, a, key);
      KeyTotal(key(x), key(y));
      var ca, cb := Class(a, key(x), key), Class(b, key(x), key);
      assert ca[|ca| - 1] == x && cb[|cb| - 1] == y;
      var a', b' := a[..|a| - 1], b[..|b| - 1];
      forall k ensures Class(a', k, key) == Class(b', k, key) {
        assert Class(a, k, key) == Class(a', k, key) + if key(x) == k then [x] else [];
        assert Class(b, k, key) == Class(b', k, key) + if key(x) == k then [x] else [];
        if key(x) == k {
          assert Class(a', k, key) == Class(a, k, key)[..|Class(a, k, key)| - 1];
          assert Class(b', k, key) == Class(b, k, key)[..|Class(b, k, key)| - 1];
        } else {
          assert Class(a', k, key) + [] == Class(a', k, key) && Class(b', k, key) + [] == Class(b', k, key);
        }
      }
      StableSortUnique(a', b', key);
      assert a == a' + [x] && b == b' + [y];
    }
  }

  lemma StableSortIsSort<T(!new)>(r: seq<T>, s: seq<T>, key: T -> Key)
    requires StableSortOf(r, s, key)
    ensures r == Sort(s, key)
  {
    SortIsStable(s, key);
    StableSortUnique(r, Sort(s, key), key);
  }

  lemma {:induction false} SortOfSorted<T>(s: seq<T>, key: T -> Key)
    requires IsSorted(s, key)
    ensures Sort(s, key) == s
  {
    if s != [] {
      SortOfSorted(s[..|s| - 1], key);
      assert s == s[..|s| - 1] + [s[|s| - 1]];
    }
  }

  /** Sorting a list that was sorted before one row arrived gives what sorting everything gives. */
  lemma SortAppend<T>(s: seq<T>, x: T, key: T -> Key)
    ensures Sort(Sort(s, key) + [x], key) == Sort(s + [x], key)
  {
    SortSorted(s, key);
    SortOfSorted(Sort(s, key), key);
    assert (Sort(s, key) + [x])[..|Sort(s, key)|] == Sort(s, key);
    assert (s + [x])[..|s|] == s;
  }

  // ---------------------------------------------------------------- sequences

  function Map<T, U>(f: T -> U, s: seq<T>): (r: seq<U>)
    ensures |r| == |s| && forall i :: 0 <= i < |s| ==> r[i] == f(s[i])
  {
    seq(|s|, i requires 0 <= i < |s| => f(s[i]))
  }

  function Filter<T>(p: T -> bool, s: seq<T>): seq<T> {
    if s == [] then []
    else Filter(p, s[..|s| - 1]) + if p(s[|s| - 1]) then [s[|s| - 1]] else []
  }

  function Sum(s: seq<int>): int {
    if s == [] then 0 else Sum(s[..|s| - 1]) + s[|s| - 1]
  }

  function Concat<T>(s: seq<seq<T>>): seq<T> {
    if s == [] then [] else Concat(s[..|s| - 1]) + s[|s| - 1]
  }

  /** `s[-n:]` */
  function LastN<T>(s: seq<T>, n: nat): seq<T> { if |s| <= n then s else s[|s| - n..] }

  function Elements<T>(s: seq<T>): set<T> { set x | x in s }

  ghost predicate Distinct<T>(s: seq<T>) {
    forall i, j :: 0 <= i < j < |s| ==> s[i] != s[j]
  }

  /** The first i + 1 elements are the first i and the next one: the step of every loop over a list. */
  lemma Prefix<T>(s: seq<T>, i: nat)
    requires i < |s|
    ensures s[..i + 1] != [] && s[..i + 1][..|s[..i + 1]| - 1] == s[..i] && s[..i + 1] == s[..i] + [s[i]]
  {
  }

  lemma FilterStep<T>(p: T -> bool, s: seq<T>, i: nat)
    requires i < |s|
    ensures Filter(p, s[..i + 1]) == if p(s[i]) then Filter(p, s[..i]) + [s[i]] else Filter(p, s[..i])
    ensures Filter(p, s[..0]) == []
  {
    Prefix(s, i);
    assert Filter(p, s[..i]) + [] == Filter(p, s[..i]);
  }

  lemma {:induction false} FilterMultiset<T>(p: T -> bool, s: seq<T>, x: T)
    ensures multiset(Filter(p, s))[x] == if p(x) then multiset(s)[x] else 0
  {
    if s != [] {
      assert s == s[..|s| - 1] + [s[|s| - 1]];
      FilterMultiset(p, s[..|s| - 1], x);
    }
  }

  lemma FilterMember<T>(p: T -> bool, s: seq<T>, x: T)
    ensures x in Filter(p, s) <==> x in s && p(x)
  {
    FilterMultiset(p, s, x);
    assert x in Filter(p, s) <==> x in multiset(Filter(p, s));
    assert x in s <==> x in multiset(s);
  }

  lemma FilterPermutation<T>(p: T -> bool, s: seq<T>, t: seq<T>)
    requires multiset(s) == multiset(t)
    ensures multiset(Filter(p, s)) == multiset(Filter(p, t))
  {
    var a, b := multiset(Filter(p, s)), multiset(Filter(p, t));
    forall x | x in a + b ensures a[x] == b[x] {
      FilterMultiset(p, s, x);
      FilterMultiset(p, t, x);
    }
    assert a == b;
  }

  lemma {:induction false} FilterDistinct<T>(p: T -> bool, s: seq<T>)
    requires Distinct(s)
    ensures Distinct(Filter(p, s))
  {
    if s != [] {
      var front, last := s[..|s| - 1], s[|s| - 1];
      var kept := Filter(p, front);
      FilterDistinct(p, front);
      forall i | 0 <= i < |kept| ensures kept[i] != last {
        FilterMember(p, front, kept[i]);
        var k :| 0 <= k < |front| && front[k] == kept[i];
        assert s[k] != last;
      }
    }
  }

  /** Elements that a key tells apart are told apart after filtering, too. */
  lemma {:induction false} FilterKeepsKeys<T, U>(p: T -> bool, f: T -> U, s: seq<T>)
    requires Distinct(Map(f, s))
    ensures Distinct(Map(f, Filter(p, s)))
  {
    if s != [] {
      var front, last := s[..|s| - 1], s[|s| - 1];
      assert Map(f, s) == Map(f, front) + [f(last)];
      var kept := Filter(p, front);
      FilterKeepsKeys(p, f, front);
      forall i | 0 <= i < |kept| ensures f(kept[i]) != f(last) {
        FilterMember(p, front, kept[i]);
        var k :| 0 <= k < |front| && front[k] == kept[i];
        assert Map(f, s)[k] != Map(f, s)[|s| - 1];
      }
    }
  }

  lemma {:induction false} FilterAppend<T>(p: T -> bool, a: seq<T>, b: seq<T>)
    ensures Filter(p, a + b) == Filter(p, a) + Filter(p, b)
  {
    if b == [] {
      assert a + b == a;
    } else {
      assert (a + b)[..|a + b| - 1] == a + b[..|b| - 1];
      FilterAppend(p, a, b[..|b| - 1]);
    }
  }

  /** Filtering after a map that the filter cannot see. */
  lemma {:induction false} FilterOfMap<T, U>(f: T -> U, p: U -> bool, q: T -> bool, s: seq<T>)
    requires forall x :: x in s ==> p(f(x)) == q(x)
    ensures Filter(p, Map(f, s)) == Map(f, Filter(q, s))
  {
    if s != [] {
      assert Map(f, s)[..|s| - 1] == Map(f, s[..|s| - 1]);
      FilterOfMap(f, p, q, s[..|s| - 1]);
    }
  }

  lemma {:induction false} FilterTwice<T>(p: T -> bool, q: T -> bool, both: T -> bool, s: seq<T>)
    requires forall x :: both(x) == (p(x) && q(x))
    ensures Filter(q, Filter(p, s)) == Filter(both, s)
  {
    if s != [] {
      var front, last := s[..|s| - 1], s[|s| - 1];
      FilterTwice(p, q, both, front);
      if p(last) {
        assert (Filter(p, front) + [last])[..|Filter(p, front)|] == Filter(p, front);
      } else {
        assert Filter(p, front) + [] == Filter(p, front);
      }
    }
  }

  lemma FilterMapStep<T, U>(p: U -> bool, f: T -> U, s: seq<T>, i: nat)
    requires i < |s|
    ensures Filter(p, Map(f, s[..i + 1])) == Filter(p, Map(f, s[..i])) + if p(f(s[i])) then [f(s[i])] else []
    ensures Filter(p, Map(f, s[..0])) == []
  {
    assert Map(f, s[..i + 1])[..i] == Map(f, s[..i]);
  }

  lemma ConcatMapStep<T, U>(f: T -> seq<U>, s: seq<T>, i: nat)
    requires i < |s|
    ensures Concat(Map(f, s[..i + 1])) == Concat(Map(f, s[..i])) + f(s[i])
    ensures Concat(Map(f, s[..0])) == []
  {
    assert Map(f, s[..i + 1])[..i] == Map(f, s[..i]);
  }

  lemma MapMember<T, U>(f: T -> U, s: seq<T>, y: U)
    ensures y in Map(f, s) <==> exists x :: x in s && f(x) == y
  {
    if y in Map(f, s) {
      var i :| 0 <= i < |s| && Map(f, s)[i] == y;
      assert s[i] in s;
    }
    if x :| x in s && f(x) == y {
      var i :| 0 <= i < |s| && s[i] == x;
      assert Map(f, s)[i] == y;
    }
  }

  lemma RemoveAt<T>(t: seq<T>, i: nat)
    requires i < |t|
    ensures multiset(t[..i] + t[i + 1..]) == multiset(t) - multiset{t[i]}
  {
    assert t == t[..i] + [t[i]] + t[i + 1..];
  }

  lemma MapRemoveAt<T, U>(f: T -> U, t: seq<T>, i: nat)
    requires i < |t|
    ensures multiset(Map(f, t)) == multiset(Map(f, t[..i] + t[i + 1..])) + multiset{f(t[i])}
  {
    assert Map(f, t[..i] + t[i + 1..]) == Map(f, t)[..i] + Map(f, t)[i + 1..];
    RemoveAt(Map(f, t), i);
    assert Map(f, t)[i] == f(t[i]);
    assert f(t[i]) in multiset(Map(f, t));
  }

  lemma {:induction false} MapPermutation<T, U>(f: T -> U, s: seq<T>, t: seq<T>)
    requires multiset(s) == multiset(t)
    ensures multiset(Map(f, s)) == multiset(Map(f, t))
    decreases |s|
  {
    if s == [] {
      assert |t| == |multiset(t)| == 0;
    } else {
      var n := |s| - 1;
      assert s[n] in multiset(t);
      var i :| 0 <= i < |t| && t[i] == s[n];
      RemoveAt(s, n);
      RemoveAt(t, i);
      MapRemoveAt(f, s, n);
      MapRemoveAt(f, t, i);
      MapPermutation(f, s[..n] + s[n + 1..], t[..i] + t[i + 1..]);
    }
  }

  function Equals<T, C(==)>(f: T -> C, c: C): T -> bool { x => f(x) == c }

  lemma EqualsHolds<T, C>(f: T -> C, c: C, x: T)
    ensures Equals(f, c)(x) <==> f(x) == c
  {
  }

  /** The elements of s that f maps to c, in order. */
  function Having<T, C(==)>(s: seq<T>, f: T -> C, c: C): seq<T> { Filter(Equals(f, c), s) }

  lemma HavingStep<T, C>(s: seq<T>, f: T -> C, c: C)
    requires s != []
    ensures Having(s, f, c) == Having(s[..|s| - 1], f, c) + if f(s[|s| - 1]) == c then [s[|s| - 1]] else []
  {
  }

  lemma HavingMember<T, C>(s: seq<T>, f: T -> C, c: C, x: T)
    ensures x in Having(s, f, c) <==> x in s && f(x) == c
  {
    FilterMember(Equals(f, c), s, x);
  }

  function Split<T, C(==)>(s: seq<T>, f: T -> C, cs: seq<C>): (parts: seq<seq<T>>)
    ensures |parts| == |cs| && forall i :: 0 <= i < |cs| ==> parts[i] == Having(s, f, cs[i])
  {
    seq(|cs|, i requires 0 <= i < |cs| => Having(s, f, cs[i]))
  }

  lemma {:induction false} SplitMultiset<T, C>(s: seq<T>, f: T -> C, cs: seq<C>, x: T)
    requires Distinct(cs)
    ensures multiset(Concat(Split(s, f, cs)))[x] == if f(x) in cs then multiset(s)[x] else 0
  {
    if cs != [] {
      var front, last := cs[..|cs| - 1], cs[|cs| - 1];
      SplitMultiset(s, f, front, x);
      FilterMultiset(Equals(f, last), s, x);
      assert Split(s, f, cs)[..|cs| - 1] == Split(s, f, front);
      assert cs == front + [last];
    }
  }

  /** Splitting a list by distinct classes that cover it loses and duplicates nothing. */
  lemma SplitCovers<T, C>(s: seq<T>, f: T -> C, cs: seq<C>)
    requires Distinct(cs) && forall x :: x in s ==> f(x) in cs
    ensures multiset(Concat(Split(s, f, cs))) == multiset(s)
  {
    var a, b := multiset(Concat(Split(s, f, cs))), multiset(s);
    forall x | x in a + b ensures a[x] == b[x] {
      SplitMultiset(s, f, cs, x);
      assert x in s <==> x in b;
    }
    assert a == b;
  }

  lemma {:induction false} ConcatMap<T, U>(parts: seq<seq<T>>, texts: seq<seq<U>>, f: T -> U)
    requires |parts| == |texts|
    requires forall i :: 0 <= i < |parts| ==> multiset(texts[i]) == multiset(Map(f, parts[i]))
    ensures multiset(Concat(texts)) == multiset(Map(f, Concat(parts)))
  {
    if parts != [] {
      var n := |parts| - 1;
      ConcatMap(parts[..n], texts[..n], f);
      assert Map(f, Concat(parts)) == Map(f, Concat(parts[..n])) + Map(f, parts[n]);
    }
  }

  lemma {:induction false} ConcatMember<T>(parts: seq<seq<T>>, x: T)
    ensures x in Concat(parts) <==> exists i :: 0 <= i < |parts| && x in parts[i]
  {
    if parts != [] {
      var front := parts[..|parts| - 1];
      ConcatMember(front, x);
      assert forall i :: 0 <= i < |front| ==> front[i] == parts[i];
    }
  }

  lemma {:induction false} ConcatLength<T>(parts: seq<seq<T>>, lengths: seq<int>)
    requires |parts| == |lengths| && forall i :: 0 <= i < |parts| ==> lengths[i] == |parts[i]|
    ensures Sum(lengths) == |Concat(parts)|
  {
    if parts != [] { ConcatLength(parts[..|parts| - 1], lengths[..|parts| - 1]); }
  }

  lemma SameLength<T>(a: seq<T>, b: seq<T>)
    requires multiset(a) == multiset(b)
    ensures |a| == |b|
  {
    assert |a| == |multiset(a)| == |multiset(b)| == |b|;
  }

  lemma {:induction false} DistinctCounts<T>(s: seq<T>)
    requires Distinct(s)
    ensures forall x :: multiset(s)[x] <= 1
    ensures |Elements(s)| == |s|
  {
    if s != [] {
      var front, last := s[..|s| - 1], s[|s| - 1];
      DistinctCounts(front);
      assert s == front + [last];
      assert last !in front;
      assert Elements(s) == Elements(front) + {last};
    }
  }

  /** The positions of a list that pass. */
  ghost function Passing<T>(p: T -> bool, s: seq<T>): set<nat> { set i: nat | i < |s| && p(s[i]) }

  lemma {:induction false} FilterIndices<T>(p: T -> bool, s: seq<T>)
    ensures |Filter(p, s)| == |Passing(p, s)|
  {
    if s == [] {
      assert Passing(p, s) == {};
    } else {
      var front, n := s[..|s| - 1], |s| - 1;
      FilterIndices(p, front);
      assert Passing(p, s) == Passing(p, front) + if p(s[n]) then {n} else {};
    }
  }

  lemma {:induction false} ElementsBound<T>(s: seq<T>)
    ensures |Elements(s)| <= |s|
  {
    if s != [] {
      var front, last := s[..|s| - 1], s[|s| - 1];
      ElementsBound(front);
      assert s == front + [last];
      assert Elements(s) == Elements(front) + {last};
    }
  }

  lemma {:induction false} SubsetSize<T>(a: set<T>, b: set<T>)
    requires a <= b
    ensures |a| <= |b|
  {
    assert b == a + (b - a);
  }

  /** A list without repetition is no longer than any list that contains it. */
  lemma DistinctFits<T>(s: seq<T>, t: seq<T>)
    requires Distinct(s) && forall x :: x in s ==> x in t
    ensures |s| <= |t|
  {
    DistinctCounts(s);
    ElementsBound(t);
    SubsetSize(Elements(s), Elements(t));
  }

  lemma SameMembers<T>(s: seq<T>, t: seq<T>)
    requires multiset(s) == multiset(t) && Distinct(s)
    ensures forall x :: x in s <==> x in t
    ensures Distinct(t)
  {
    forall x ensures x in s <==> x in t {
      assert x in s <==> x in multiset(s);
      assert x in t <==> x in multiset(t);
    }
    if i, j :| 0 <= i < j < |t| && t[i] == t[j] {
      assert t == t[..j] + [t[j]] + t[j + 1..];
      assert t[i] in t[..j];
      assert multiset(t)[t[i]] >= 2;
      DistinctCounts(s);
    }
  }

  /** The keys of a sorted list are determined by the multiset of its rows. */
  lemma SortedKeysOfPermutation<T>(s: seq<T>, t: seq<T>, key: T -> Key)
    requires multiset(s) == multiset(t)
    ensures Map(key, Sort(s, key)) == Map(key, Sort(t, key))
  {
    SortSorted(s, key);
    SortSorted(t, key);
    SortMultiset(s, key);
    SortMultiset(t, key);
    MapPermutation(key, Sort(s, key), Sort(t, key));
    SortedKeysEqual(Map(key, Sort(s, key)), Map(key, Sort(t, key)));
  }

  ghost predicate SortedKeys(a: seq<Key>) {
    forall i, j :: 0 <= i < j < |a| ==> KeyLeq(a[i], a[j])
  }

  lemma LastKey(a: seq<Key>, b: seq<Key>)
    requires SortedKeys(a) && a != [] && b != [] && multiset(a) == multiset(b)
    ensures KeyLeq(b[|b| - 1], a[|a| - 1])
  {
    var y := b[|b| - 1];
    assert y in multiset(a);
    var j :| 0 <= j < |a| && a[j] == y;
    KeyTotal(y, y);
  }

  lemma {:induction false} SortedKeysEqual(a: seq<Key>, b: seq<Key>)
    requires SortedKeys(a) && SortedKeys(b) && multiset(a) == multiset(b)
    ensures a == b
    decreases |a|
  {
    hide KeyLeq;
    assert |a| == |multiset(a)| == |multiset(b)| == |b|;
    if a != [] {
      var n := |a| - 1;
      LastKey(a, b);
      LastKey(b, a);
      KeyTotal(a[n], b[n]);
      RemoveAt(a, n);
      RemoveAt(b, n);
      assert a[..n] + a[n + 1..] == a[..n] && b[..n] + b[n + 1..] == b[..n];
      SortedKeysEqual(a[..n], b[..n]);
      assert a == a[..n] + [a[n]] && b == b[..n] + [b[n]];
    }
  }

  // ---------------------------------------------------------------- lists and sets of strings

  function TextKey(s: string): Key { Key([], [s]) }

  /** `sorted(s)` for a list of strings. */
  function SortTexts(s: seq<string>): seq<string> { Sort(s, TextKey) }

  lemma TextKeyOrder(a: string, b: string)
    ensures KeyLeq(TextKey(a), TextKey(b)) <==> StrLeq(a, b)
  {
    assert [a][1..] == [] && [b][1..] == [];
    assert Lex(StrLeq, [a][1..], [b][1..]);
    StrTotal(a, a);
  }

  /** `sorted(a) == sorted(b)` compares the two lists as multisets. */
  lemma SortTextsEqual(a: seq<string>, b: seq<string>)
    ensures SortTexts(a) == SortTexts(b) <==> multiset(a) == multiset(b)
  {
    SortMultiset(a, TextKey);
    SortMultiset(b, TextKey);
    if multiset(a) == multiset(b) {
      SortedKeysOfPermutation(a, b, TextKey);
      var x, y := SortTexts(a), SortTexts(b);
      forall i | 0 <= i < |x| ensures x[i] == y[i] {
        assert Map(TextKey, x)[i] == Map(TextKey, y)[i];
        assert TextKey(x[i]).texts[0] == TextKey(y[i]).texts[0];
      }
    }
  }

  ghost predicate Ascending(s: seq<string>) {
    forall i, j :: 0 <= i < j < |s| ==> StrLeq(s[i], s[j]) && s[i] != s[j]
  }

  lemma {:induction false} LeastExists(s: set<string>)
    requires s != {}
    ensures exists m :: m in s && forall y :: y in s ==> StrLeq(m, y)
  {
    hide StrLeq;
    var x :| x in s;
    StrTotal(x, x);
    if s == {x} {
      assert forall y :: y in s ==> StrLeq(x, y);
    } else {
      LeastExists(s - {x});
      var m :| m in s - {x} && forall y :: y in s - {x} ==> StrLeq(m, y);
      StrTotal(m, x);
      if StrLeq(m, x) {
        assert forall y :: y in s ==> StrLeq(m, y);
      } else {
        forall y | y in s ensures StrLeq(x, y) {
          if y != x { StrTransitive(x, m, y); }
        }
      }
    }
  }

  lemma ConsAscending(m: string, s: set<string>, rest: seq<string>)
    requires m in s && forall y :: y in s ==> StrLeq(m, y)
    requires Ascending(rest) && Elements(rest) == s - {m}
    ensures Ascending([m] + rest) && Elements([m] + rest) == s
  {
    forall j | 0 <= j < |rest| ensures StrLeq(m, rest[j]) && m != rest[j] { assert rest[j] in Elements(rest); }
    assert Elements([m] + rest) == {m} + Elements(rest);
  }

  /** `sorted(s)` for a set of strings. */
  function SortedSet(s: set<string>): (r: seq<string>)
    ensures Ascending(r)
    ensures Elements(r) == s
    ensures |r| == |s|
  {
    if s == {} then []
    else
      LeastExists(s);
      assert forall a, b :: StrLeq(a, b) && StrLeq(b, a) ==> a == b by {
        forall a, b ensures StrLeq(a, b) && StrLeq(b, a) ==> a == b { StrTotal(a, b); }
      }
      var m :| m in s && forall y :: y in s ==> StrLeq(m, y);
      var rest := SortedSet(s - {m});
      ConsAscending(m, s, rest);
      [m] + rest
  }

  lemma {:induction false} AscendingUnique(a: seq<string>, b: seq<string>)
    requires Ascending(a) && Ascending(b) && Elements(a) == Elements(b)
    ensures a == b
    decreases |a|
  {
    hide StrLeq;
    assert b != [] ==> b[0] in Elements(b);
    if a != [] {
      assert a[0] in Elements(a);
      assert b != [];
      var i :| 0 <= i < |a| && a[i] == b[0];
      var j :| 0 <= j < |b| && b[j] == a[0];
      StrTotal(a[0], b[0]);
      assert a[0] == b[0];
      assert Elements(a[1..]) == Elements(a) - {a[0]};
      assert Elements(b[1..]) == Elements(b) - {b[0]};
      AscendingUnique(a[1..], b[1..]);
      assert a == [a[0]] + a[1..] && b == [b[0]] + b[1..];
    }
  }

  lemma AscendingDistinct(s: seq<string>)
    requires Ascending(s)
    ensures Distinct(s) && |s| == |Elements(s)|
  {
    AscendingUnique(s, SortedSet(Elements(s)));
  }

  /** A list is already `sorted(set(list))` exactly when it is ascending. */
  lemma SortedSetFixed(s: seq<string>)
    ensures SortedSet(Elements(s)) == s <==> Ascending(s)
  {
    if Ascending(s) { AscendingUnique(s, SortedSet(Elements(s))); }
  }

  lemma SortTextsOfAscending(s: seq<string>)
    requires Ascending(s)
    ensures SortTexts(s) == s
  {
    forall i, j | 0 <= i < j < |s| ensures KeyLeq(TextKey(s[i]), TextKey(s[j])) { TextKeyOrder(s[i], s[j]); }
    SortOfSorted(s, TextKey);
  }
}
