/** The attribute values an entity carries, the Python 2 ordering `list.sort` uses on them, and the
    stable sort itself. */
module PyValues {
  import opened Wrappers
  import opened Seqs

  /** An attribute value: a string or a number (Python's int and float compare as reals). */
  datatype Value = Str(s: string) | Num(n: real)

  /** Lexicographic order on strings, character code by character code. */
  predicate StrLe(a: string, b: string) {
    if a == [] then true
    else if b == [] then false
    else if a[0] != b[0] then a[0] < b[0]
    else StrLe(a[1..], b[1..])
  }

  lemma {:induction false} StrLeTotal(a: string, b: string)
    ensures StrLe(a, b) || StrLe(b, a)
  {
    if a != [] && b != [] && a[0] == b[0] {
      StrLeTotal(a[1..], b[1..]);
    }
  }

  lemma {:induction false} StrLeReflexive(a: string)
    ensures StrLe(a, a)
  {
    if a != [] {
      StrLeReflexive(a[1..]);
    }
  }

  lemma {:induction false} StrLeAntisymmetric(a: string, b: string)
    requires StrLe(a, b) && StrLe(b, a)
    ensures a == b
  {
    if a != [] && b != [] {
      StrLeAntisymmetric(a[1..], b[1..]);
      assert a == [a[0]] + a[1..] && b == [b[0]] + b[1..];
    }
  }

  lemma {:induction false} StrLeTransitive(a: string, b: string, c: string)
    requires StrLe(a, b) && StrLe(b, c)
    ensures StrLe(a, c)
  {
    if a != [] && b != [] && c != [] && a[0] == b[0] == c[0] {
      StrLeTransitive(a[1..], b[1..], c[1..]);
    }
  }

  /** Python 2's ordering of sort keys: None first, then numbers by value, then strings. */
  predicate KeyLe(a: Option<Value>, b: Option<Value>) {
    match (a, b)
    case (None, _) => true
    case (Some(_), None) => false
    case (Some(Num(x)), Some(Num(y))) => x <= y
    case (Some(Num(_)), Some(Str(_))) => true
    case (Some(Str(_)), Some(Num(_))) => false
    case (Some(Str(x)), Some(Str(y))) => StrLe(x, y)
  }

  lemma KeyLeTotal(a: Option<Value>, b: Option<Value>)
    ensures KeyLe(a, b) || KeyLe(b, a)
  {
    if a.Some? && b.Some? && a.value.Str? && b.value.Str? {
      StrLeTotal(a.value.s, b.value.s);
    }
  }

  /** KeyLe in both directions only between equal keys. */
  lemma KeyLeAntisymmetric(a: Option<Value>, b: Option<Value>)
    requires KeyLe(a, b) && KeyLe(b, a)
    ensures a == b
  {
    if a.Some? && b.Some? && a.value.Str? && b.value.Str? {
      StrLeAntisymmetric(a.value.s, b.value.s);
    }
  }

  lemma KeyLeTransitive(a: Option<Value>, b: Option<Value>, c: Option<Value>)
    requires KeyLe(a, b) && KeyLe(b, c)
    ensures KeyLe(a, c)
  {
    if a.Some? && b.Some? && c.Some? && a.value.Str? && b.value.Str? && c.value.Str? {
      StrLeTransitive(a.value.s, b.value.s, c.value.s);
    }
  }

  /** Ascending by key. */
  ghost predicate SortedBy<E>(xs: seq<E>, key: E -> Option<Value>) {
    forall i, j :: 0 <= i < j < |xs| ==> KeyLe(key(xs[i]), key(xs[j]))
  }

  /** Stable insertion of `x`, which comes after every entry of `xs` in the input: it goes after every
      entry whose key is not above its own. */
  function Insert<E>(xs: seq<E>, x: E, key: E -> Option<Value>): seq<E> {
    if xs == [] then [x]
    else if KeyLe(key(xs[0]), key(x)) then [xs[0]] + Insert(xs[1..], x, key)
    else [x] + xs
  }

  /** `list.sort(key=...)`: a stable sort, here an insertion sort over the list's entries in order. */
  function SortBy<E>(xs: seq<E>, key: E -> Option<Value>): seq<E> {
    if xs == [] then [] else Insert(SortBy(xs[..|xs| - 1], key), xs[|xs| - 1], key)
  }

  lemma {:induction false} InsertPermutes<E>(xs: seq<E>, x: E, key: E -> Option<Value>)
    ensures multiset(Insert(xs, x, key)) == multiset(xs) + multiset{x}
  {
    if xs != [] && KeyLe(key(xs[0]), key(x)) {
      InsertPermutes(xs[1..], x, key);
      assert xs == [xs[0]] + xs[1..];
    }
  }

  lemma {:induction false} InsertSorted<E>(xs: seq<E>, x: E, key: E -> Option<Value>)
    requires SortedBy(xs, key)
    ensures SortedBy(Insert(xs, x, key), key)
  {
    if xs != [] {
      if KeyLe(key(xs[0]), key(x)) {
        var rest := xs[1..];
        assert SortedBy(rest, key);
        InsertSorted(rest, x, key);
        InsertPermutes(rest, x, key);
        var r := Insert(rest, x, key);
        forall j | 0 <= j < |r|
          ensures KeyLe(key(xs[0]), key(r[j]))
        {
          assert r[j] in multiset(r);
          assert r[j] in multiset(rest) || r[j] == x;
        }
      } else {
        KeyLeTotal(key(xs[0]), key(x));
        forall j | 0 <= j < |xs|
          ensures KeyLe(key(x), key(xs[j]))
        {
          if j > 0 {
            KeyLeTransitive(key(x), key(xs[0]), key(xs[j]));
          }
        }
      }
    }
  }

  /** The sort returns its input, reordered, ascending by key. */
  lemma {:induction false} SortBySortsAndPermutes<E>(xs: seq<E>, key: E -> Option<Value>)
    ensures SortedBy(SortBy(xs, key), key)
    ensures multiset(SortBy(xs, key)) == multiset(xs)
  {
    if xs != [] {
      var init, last := xs[..|xs| - 1], xs[|xs| - 1];
      SortBySortsAndPermutes(init, key);
      InsertSorted(SortBy(init, key), last, key);
      InsertPermutes(SortBy(init, key), last, key);
      assert xs == init + [last];
    }
  }

  /** The test "has key value `v`". */
  function KeyIs<E>(key: E -> Option<Value>, v: Option<Value>): E -> bool {
    e => key(e) == v
  }

  /** Entries with equal keys keep their input order: selecting one key value from the sorted list gives
      the same list as selecting it from the input. */
  lemma {:induction false} SortByStable<E>(xs: seq<E>, key: E -> Option<Value>, v: Option<Value>)
    ensures Filter(SortBy(xs, key), KeyIs(key, v)) == Filter(xs, KeyIs(key, v))
  {
    if xs != [] {
      var init, last := xs[..|xs| - 1], xs[|xs| - 1];
      SortByStable(init, key, v);
      SortBySortsAndPermutes(init, key);
      InsertStable(SortBy(init, key), last, key, v);
    }
  }

  lemma {:induction false} InsertStable<E>(xs: seq<E>, x: E, key: E -> Option<Value>, v: Option<Value>)
    requires SortedBy(xs, key)
    ensures Filter(Insert(xs, x, key), KeyIs(key, v))
         == Filter(xs, KeyIs(key, v)) + (if key(x) == v then [x] else [])
  {
    if xs == [] {
      assert Insert(xs, x, key) == [] + [x];
    } else if KeyLe(key(xs[0]), key(x)) {
      SortedTail(xs, key);
      InsertStable(xs[1..], x, key, v);
      InsertAfterStable(xs, x, key, v);
    } else {
      InsertBeforeStable(xs, x, key, v);
    }
  }

  /** An entry inserted past the head: the head's entry comes first on both sides. */
  lemma InsertAfterStable<E>(xs: seq<E>, x: E, key: E -> Option<Value>, v: Option<Value>)
    requires xs != [] && KeyLe(key(xs[0]), key(x))
    requires Filter(Insert(xs[1..], x, key), KeyIs(key, v))
          == Filter(xs[1..], KeyIs(key, v)) + (if key(x) == v then [x] else [])
    ensures Filter(Insert(xs, x, key), KeyIs(key, v))
         == Filter(xs, KeyIs(key, v)) + (if key(x) == v then [x] else [])
  {
    var p := KeyIs(key, v);
    var head, rest := xs[0], xs[1..];
    InsertPast(xs, x, key);
    assert xs == [head] + rest;
    FilterConsAppend(head, Insert(rest, x, key), rest, if key(x) == v then [x] else [], p);
  }

  /** The tail of a sorted list is sorted. */
  lemma SortedTail<E>(xs: seq<E>, key: E -> Option<Value>)
    requires SortedBy(xs, key) && xs != []
    ensures SortedBy(xs[1..], key)
  { }

  /** Insertion past the head keeps the head in front. */
  lemma InsertPast<E>(xs: seq<E>, x: E, key: E -> Option<Value>)
    requires xs != [] && KeyLe(key(xs[0]), key(x))
    ensures Insert(xs, x, key) == [xs[0]] + Insert(xs[1..], x, key)
  { }

  /** An entry inserted at the front keeps its place after the entries of its own key, as there are none. */
  lemma InsertBeforeStable<E>(xs: seq<E>, x: E, key: E -> Option<Value>, v: Option<Value>)
    requires SortedBy(xs, key) && xs != [] && !KeyLe(key(xs[0]), key(x))
    ensures Filter(Insert(xs, x, key), KeyIs(key, v))
         == Filter(xs, KeyIs(key, v)) + (if key(x) == v then [x] else [])
  {
    var p := KeyIs(key, v);
    assert Insert(xs, x, key) == [x] + xs;
    FilterCons(x, xs, p);
    if key(x) == v {
      NoneKeyedBelow(xs, x, key);
      FilterNone(xs, p);
    }
  }

  /** An entry that sorts before the head of a sorted list shares its key with no entry of the list. */
  lemma NoneKeyedBelow<E>(xs: seq<E>, x: E, key: E -> Option<Value>)
    requires SortedBy(xs, key) && xs != [] && !KeyLe(key(xs[0]), key(x))
    ensures forall e :: e in xs ==> key(e) != key(x)
  {
    forall e | e in xs
      ensures key(e) != key(x)
    {
      var j :| 0 <= j < |xs| && xs[j] == e;
      if j > 0 {
        assert KeyLe(key(xs[0]), key(xs[j]));
      } else if key(x).Some? && key(x).value.Str? {
        StrLeReflexive(key(x).value.s);
      }
    }
  }
}
