/** Lexicographic order on strings and on lists of strings, as std::string and the
    comparators of the service use it, and sorting by such a key. */
module Order {

  /** operator< of std::string. */
  predicate StrLess(a: string, b: string) {
    if b == "" then false
    else if a == "" then true
    else if a[0] != b[0] then a[0] < b[0]
    else StrLess(a[1..], b[1..])
  }

  lemma {:induction false} StrTrichotomy(a: string, b: string)
    ensures a == b || StrLess(a, b) || StrLess(b, a)
    ensures !(StrLess(a, b) && StrLess(b, a))
    ensures !StrLess(a, a)
  {
    if a != "" {
      StrTrichotomy(a[1..], a[1..]);
    }
    if a != "" && b != "" && a[0] == b[0] {
      StrTrichotomy(a[1..], b[1..]);
      assert a == [a[0]] + a[1..] && b == [b[0]] + b[1..];
    }
  }

  lemma {:induction false} StrTransitive(a: string, b: string, c: string)
    requires StrLess(a, b) && StrLess(b, c)
    ensures StrLess(a, c)
  {
    if a != "" && a[0] == b[0] == c[0] {
      StrTransitive(a[1..], b[1..], c[1..]);
    }
  }

  /** The lexicographic order by character code, a proper prefix first. */
  lemma {:induction false} StrLessIsLexicographic(a: string, b: string)
    ensures StrLess(a, b) <==> exists k: nat :: SmallerAt(a, b, k)
  {
    if a != "" && b != "" && a[0] == b[0] {
      StrLessIsLexicographic(a[1..], b[1..]);
      if k: nat :| SmallerAt(a, b, k) {
        assert SmallerAt(a[1..], b[1..], k - 1);
      }
      if k: nat :| SmallerAt(a[1..], b[1..], k) {
        assert a == [a[0]] + a[1..] && b == [b[0]] + b[1..];
        assert SmallerAt(a, b, k + 1);
      }
    } else {
      assert StrLess(a, b) ==> SmallerAt(a, b, 0);
    }
  }

  /** The texts agree before position k, where a ends or has the smaller character. */
  ghost predicate SmallerAt(a: string, b: string, k: nat) {
    k <= |a| && k < |b| && (k < |a| ==> a[k] < b[k]) && forall i :: 0 <= i < k ==> a[i] == b[i]
  }

  /** A sort key: compared component by component. */
  type Key = seq<string>

  predicate KeyLess(a: Key, b: Key) {
    if b == [] then false
    else if a == [] then true
    else if a[0] != b[0] then StrLess(a[0], b[0])
    else KeyLess(a[1..], b[1..])
  }

  lemma {:induction false} KeyTrichotomy(a: Key, b: Key)
    ensures a == b || KeyLess(a, b) || KeyLess(b, a)
    ensures !(KeyLess(a, b) && KeyLess(b, a))
    ensures !KeyLess(a, a)
  {
    if a != [] {
      KeyTrichotomy(a[1..], a[1..]);
    }
    if a != [] && b != [] {
      StrTrichotomy(a[0], b[0]);
      if a[0] == b[0] {
        KeyTrichotomy(a[1..], b[1..]);
        assert a == [a[0]] + a[1..] && b == [b[0]] + b[1..];
      }
    }
  }

  lemma {:induction false} KeyTransitive(a: Key, b: Key, c: Key)
    requires KeyLess(a, b) && KeyLess(b, c)
    ensures KeyLess(a, c)
  {
    if a != [] {
      if a[0] == b[0] == c[0] {
        KeyTransitive(a[1..], b[1..], c[1..]);
      } else if a[0] != b[0] && b[0] != c[0] {
        StrTransitive(a[0], b[0], c[0]);
        StrTrichotomy(a[0], b[0]);
      }
    }
  }

  lemma {:induction false} SingleLess(x: string, y: string)
    ensures KeyLess([x], [y]) <==> StrLess(x, y)
  {
    StrTrichotomy(x, y);
    assert [x][1..] == [] && [y][1..] == [];
    assert !KeyLess([], []);
  }

  /** Keys of two components: the first decides, the second on a tie. */
  lemma {:induction false} PairLess(a: string, x: string, b: string, y: string)
    ensures KeyLess([a, x], [b, y]) <==> StrLess(a, b) || (a == b && StrLess(x, y))
  {
    StrTrichotomy(a, b);
    SingleLess(x, y);
    assert [a, x][1..] == [x] && [b, y][1..] == [y];
    hide StrLess;
  }

  ghost predicate StrictlySorted<T>(xs: seq<T>, key: T -> Key) {
    forall i, j :: 0 <= i < j < |xs| ==> KeyLess(key(xs[i]), key(xs[j]))
  }

  ghost predicate DistinctKeys<T>(xs: seq<T>, key: T -> Key) {
    forall i, j :: 0 <= i < j < |xs| ==> key(xs[i]) != key(xs[j])
  }

  /** A strictly sorted sequence is determined by the set of its elements. */
  lemma {:induction false} StrictlySortedUnique<T>(a: seq<T>, b: seq<T>, key: T -> Key)
    requires StrictlySorted(a, key) && StrictlySorted(b, key)
    requires forall x :: x in a <==> x in b
    ensures a == b
  {
    assert b != [] ==> b[0] in b;
    if a != [] {
      assert a[0] in b && b[0] in a;
      var i :| 0 <= i < |b| && b[i] == a[0];
      var j :| 0 <= j < |a| && a[j] == b[0];
      KeyTrichotomy(key(a[0]), key(b[0]));
      assert a[0] == b[0];
      forall x ensures x in a[1..] <==> x in b[1..] {
        KeyTrichotomy(key(a[0]), key(a[0]));
        assert x in a <==> x == a[0] || x in a[1..];
        assert x in b <==> x == b[0] || x in b[1..];
      }
      StrictlySortedUnique(a[1..], b[1..], key);
      assert a == [a[0]] + a[1..] && b == [b[0]] + b[1..];
    }
  }

  /** One insertion of the sort below: x goes before the first element not smaller. */
  function Insert<T>(x: T, xs: seq<T>, key: T -> Key): (r: seq<T>)
    ensures multiset(r) == multiset([x] + xs)
  {
    if xs == [] then [x]
    else if KeyLess(key(xs[0]), key(x)) then
      assert xs == [xs[0]] + xs[1..];
      [xs[0]] + Insert(x, xs[1..], key)
    else [x] + xs
  }

  /** std::sort: the library only promises a sorted permutation, which with distinct
      keys leaves one result. */
  function SortBy<T>(xs: seq<T>, key: T -> Key): (r: seq<T>)
    ensures multiset(r) == multiset(xs)
  {
    if xs == [] then []
    else
      assert xs == [xs[0]] + xs[1..];
      Insert(xs[0], SortBy(xs[1..], key), key)
  }

  lemma {:induction false} InsertSorted<T>(x: T, xs: seq<T>, key: T -> Key)
    requires StrictlySorted(xs, key)
    requires forall y :: y in xs ==> key(y) != key(x)
    ensures StrictlySorted(Insert(x, xs, key), key)
  {
    if xs != [] {
      KeyTrichotomy(key(xs[0]), key(x));
      if KeyLess(key(xs[0]), key(x)) {
        InsertSorted(x, xs[1..], key);
        forall y | y in Insert(x, xs[1..], key) ensures KeyLess(key(xs[0]), key(y)) {
          assert y in multiset(Insert(x, xs[1..], key));
          assert y in multiset([x] + xs[1..]);
          if y != x { var j :| 0 <= j < |xs| - 1 && xs[1..][j] == y; }
        }
        PrependSorted(xs[0], Insert(x, xs[1..], key), key);
      } else {
        forall y | y in xs ensures KeyLess(key(x), key(y)) {
          if y != xs[0] { KeyTransitive(key(x), key(xs[0]), key(y)); }
        }
        PrependSorted(x, xs, key);
      }
    }
  }

  lemma {:induction false} PrependSorted<T>(x: T, xs: seq<T>, key: T -> Key)
    requires StrictlySorted(xs, key)
    requires forall y :: y in xs ==> KeyLess(key(x), key(y))
    ensures StrictlySorted([x] + xs, key)
  {
    hide KeyLess;
  }

  lemma {:induction false} SortBySorted<T>(xs: seq<T>, key: T -> Key)
    requires DistinctKeys(xs, key)
    ensures StrictlySorted(SortBy(xs, key), key)
  {
    if xs != [] {
      SortBySorted(xs[1..], key);
      forall y | y in SortBy(xs[1..], key) ensures key(y) != key(xs[0]) {
        assert y in multiset(SortBy(xs[1..], key));
        assert y in xs[1..];
      }
      InsertSorted(xs[0], SortBy(xs[1..], key), key);
    }
  }
}
