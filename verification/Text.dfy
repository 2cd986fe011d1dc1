/** Strings as the source handles them: byte order, the library sort, and decimal printing. */
module Text {
  import opened Prelude

  /** Lexicographic order, smaller or equal. */
  predicate AtMost(a: string, b: string) {
    if a == "" then true
    else if b == "" then false
    else if a[0] != b[0] then a[0] < b[0]
    else AtMost(a[1..], b[1..])
  }

  lemma {:induction false} AtMostTotal(a: string, b: string)
    ensures AtMost(a, b) || AtMost(b, a)
    ensures AtMost(a, b) && AtMost(b, a) ==> a == b
  {
    if a == "" || b == "" || a[0] != b[0] {
    } else {
      AtMostTotal(a[1..], b[1..]);
      assert a == [a[0]] + a[1..] && b == [b[0]] + b[1..];
    }
  }

  lemma {:induction false} AtMostTransitive(a: string, b: string, c: string)
    requires AtMost(a, b) && AtMost(b, c)
    ensures AtMost(a, c)
  {
    if a == "" || b == "" || c == "" || !(a[0] == b[0] == c[0]) {
    } else {
      AtMostTransitive(a[1..], b[1..], c[1..]);
    }
  }

  /** The order of dictionaries: a prefix, or smaller where the two first differ. */
  lemma {:induction false} AtMostMeans(a: string, b: string)
    ensures AtMost(a, b) <==> a <= b || exists i :: 0 <= i < |a| && i < |b| && a[..i] == b[..i] && a[i] < b[i]
  {
    if a == "" || b == "" {
    } else if a[0] != b[0] {
      assert a[..0] == b[..0];
      assert forall i :: 0 < i < |a| && i < |b| && a[..i] == b[..i] ==> a[..i][0] == b[..i][0];
    } else {
      var x, y := a[1..], b[1..];
      AtMostMeans(x, y);
      assert a == [a[0]] + x && b == [b[0]] + y;
      if i :| 0 <= i < |x| && i < |y| && x[..i] == y[..i] && x[i] < y[i] {
        assert a[..i + 1] == [a[0]] + x[..i] && b[..i + 1] == [b[0]] + y[..i] && a[i + 1] < b[i + 1];
      }
      if i :| 0 <= i < |a| && i < |b| && a[..i] == b[..i] && a[i] < b[i] {
        assert i > 0 && x[..i - 1] == a[..i][1..] && y[..i - 1] == b[..i][1..] && x[i - 1] < y[i - 1];
      }
    }
  }

  ghost predicate Ascending<T>(s: seq<T>, key: T -> string) {
    forall i, j :: 0 <= i < j < |s| ==> AtMost(key(s[i]), key(s[j]))
  }

  /** Puts x into an ascending sequence, behind the entries that may stand before it. */
  function Insert<T>(x: T, s: seq<T>, key: T -> string): seq<T> {
    if s == [] then [x]
    else
      var last := |s| - 1;
      if AtMost(key(s[last]), key(x)) then s + [x] else Insert(x, s[..last], key) + [s[last]]
  }

  /** What the library sort returns: the same entries in ascending key order. */
  function Sorted<T>(s: seq<T>, key: T -> string): seq<T> {
    if s == [] then [] else Insert(s[|s| - 1], Sorted(s[..|s| - 1], key), key)
  }

  lemma AscendingAppend<T>(s: seq<T>, x: T, key: T -> string)
    requires Ascending(s, key) && forall y :: y in s ==> AtMost(key(y), key(x))
    ensures Ascending(s + [x], key)
  {
    hide AtMost;
    forall i, j | 0 <= i < j < |s + [x]| ensures AtMost(key((s + [x])[i]), key((s + [x])[j])) {
      assert s[i] in s;
    }
  }

  /** Everything in an ascending sequence may stand before what its last entry may stand before. */
  lemma BelowLast<T>(s: seq<T>, x: T, key: T -> string)
    requires Ascending(s, key) && s != [] && AtMost(key(s[|s| - 1]), key(x))
    ensures forall y :: y in s ==> AtMost(key(y), key(x))
  {
    hide AtMost;
    forall y | y in s ensures AtMost(key(y), key(x)) {
      var i: nat :| i < |s| && s[i] == y;
      if i < |s| - 1 {
        AtMostTransitive(key(s[i]), key(s[|s| - 1]), key(x));
      }
    }
  }

  lemma AscendingPrefix<T>(s: seq<T>, key: T -> string)
    requires Ascending(s, key) && s != []
    ensures Ascending(s[..|s| - 1], key)
    ensures forall y :: y in s[..|s| - 1] ==> AtMost(key(y), key(s[|s| - 1]))
  {
    hide AtMost;
  }

  lemma {:induction false} InsertKeeps<T>(x: T, s: seq<T>, key: T -> string)
    requires Ascending(s, key)
    ensures multiset(Insert(x, s, key)) == multiset(s) + multiset{x}
    ensures Ascending(Insert(x, s, key), key)
  {
    hide Ascending, AtMost;
    if s == [] {
      AscendingOne(x, key);
    } else {
      var init, y := s[..|s| - 1], s[|s| - 1];
      assert s == init + [y];
      if AtMost(key(y), key(x)) {
        BelowLast(s, x, key);
        AscendingAppend(s, x, key);
      } else {
        AtMostTotal(key(y), key(x));
        AscendingPrefix(s, key);
        InsertKeeps(x, init, key);
        var r := Insert(x, init, key);
        forall z | z in r ensures AtMost(key(z), key(y)) {
          assert z in multiset(r);
        }
        AscendingAppend(r, y, key);
      }
    }
  }

  lemma AscendingOne<T>(x: T, key: T -> string)
    ensures Ascending([x], key)
  {
  }

  lemma NothingAscends<T>(key: T -> string)
    ensures Ascending([], key)
  {
  }

  lemma {:induction false} SortedKeeps<T>(s: seq<T>, key: T -> string)
    ensures multiset(Sorted(s, key)) == multiset(s)
    ensures Ascending(Sorted(s, key), key)
  {
    hide Ascending, Insert;
    if s == [] {
      assert Ascending(Sorted(s, key), key) by {
        NothingAscends(key);
      }
    } else {
      SortedKeeps(s[..|s| - 1], key);
      InsertKeeps(s[|s| - 1], Sorted(s[..|s| - 1], key), key);
      assert s == s[..|s| - 1] + [s[|s| - 1]];
    }
  }

  /** The greatest key stands last. */
  lemma LastIsGreatest<T>(a: seq<T>, x: T, key: T -> string)
    requires Ascending(a, key) && x in a
    ensures AtMost(key(x), key(a[|a| - 1]))
  {
    var i: nat :| i < |a| && a[i] == x;
    AtMostTotal(key(x), key(x));
  }

  /** Two ascending sequences of the same entries end in the same key. */
  lemma SameLast<T>(a: seq<T>, b: seq<T>, key: T -> string)
    requires Ascending(a, key) && Ascending(b, key)
    requires a != [] && b != [] && a[|a| - 1] in b && b[|b| - 1] in a
    ensures key(a[|a| - 1]) == key(b[|b| - 1])
  {
    LastIsGreatest(a, b[|b| - 1], key);
    LastIsGreatest(b, a[|a| - 1], key);
    AtMostTotal(key(a[|a| - 1]), key(b[|b| - 1]));
  }

  /** Entries with distinct keys have one ascending arrangement only. */
  lemma {:induction false} AscendingUnique<T>(a: seq<T>, b: seq<T>, key: T -> string)
    requires Ascending(a, key) && Ascending(b, key)
    requires forall x, y :: x in a && y in a && key(x) == key(y) ==> x == y
    requires multiset(a) == multiset(b)
    ensures a == b
  {
    hide Ascending;
    if a == [] {
      assert |multiset(b)| == 0;
    } else {
      assert |multiset(a)| == |multiset(b)|;
      assert a[|a| - 1] in multiset(b) && b[|b| - 1] in multiset(a);
      AscendingPrefix(a, key);
      AscendingPrefix(b, key);
      SameLast(a, b, key);
      LastRemoved(a);
      LastRemoved(b);
      AscendingUnique(a[..|a| - 1], b[..|b| - 1], key);
      SameEnds(a, b);
    }
  }

  function Itself(s: string): string {
    s
  }

  /** Sorting by a key and then printing the keys is printing the keys and then sorting them. */
  lemma {:induction false} SortedKeys<T>(s: seq<T>, key: T -> string)
    ensures Mapped(Sorted(s, key), key) == Sorted(Mapped(s, key), Itself)
  {
    if s == [] {
    } else {
      SortedKeys(s[..|s| - 1], key);
      InsertedKeys(s[|s| - 1], Sorted(s[..|s| - 1], key), key);
      assert Mapped(s, key)[..|s| - 1] == Mapped(s[..|s| - 1], key);
    }
  }

  lemma {:induction false} InsertedKeys<T>(x: T, s: seq<T>, key: T -> string)
    ensures Mapped(Insert(x, s, key), key) == Insert(key(x), Mapped(s, key), Itself)
  {
    if s == [] {
    } else {
      InsertedKeys(x, s[..|s| - 1], key);
      assert Mapped(s, key)[..|s| - 1] == Mapped(s[..|s| - 1], key);
    }
  }

  lemma InsertPasses<T>(x: T, s: seq<T>, key: T -> string)
    requires s != [] && !AtMost(key(s[|s| - 1]), key(x))
    ensures Insert(x, s, key) == Insert(x, s[..|s| - 1], key) + [s[|s| - 1]]
  {
  }

  lemma InsertStays<T>(x: T, s: seq<T>, key: T -> string)
    requires s != [] ==> AtMost(key(s[|s| - 1]), key(x))
    ensures Insert(x, s, key) == s + [x]
  {
  }

  /** The place of x lies one entry further down. */
  lemma InsertSinks<T>(x: T, s: seq<T>, j: nat, key: T -> string)
    requires 0 < j <= |s| && !AtMost(key(s[j - 1]), key(x))
    requires Insert(x, s, key) == Insert(x, s[..j], key) + s[j..]
    ensures Insert(x, s, key) == Insert(x, s[..j - 1], key) + s[j - 1..]
  {
    hide Insert, AtMost;
    InsertPasses(x, s[..j], key);
    assert s[..j][..j - 1] == s[..j - 1];
    assert s[j - 1..] == [s[j - 1]] + s[j..];
  }

  /** One round of the in-place sort: the entry at i sinks to its place among the i entries before it. */
  method Sink<T>(a: array<T>, i: nat, key: T -> string)
    requires i < a.Length
    modifies a
    ensures a[..i + 1] == Insert(old(a[i]), old(a[..i]), key)
    ensures a[i + 1..] == old(a[i + 1..])
  {
    hide Insert, AtMost;
    var x, j := a[i], i;
    ghost var s := a[..i];
    assert s[..i] == s && s[i..] == [];
    while j > 0 && !AtMost(key(a[j - 1]), key(x))
      invariant 0 <= j <= i
      invariant forall k :: 0 <= k < j ==> a[k] == s[k]
      invariant forall k :: j <= k < i ==> a[k + 1] == s[k]
      invariant forall k :: i < k < a.Length ==> a[k] == old(a[k])
      invariant Insert(x, s, key) == Insert(x, s[..j], key) + s[j..]
    {
      InsertSinks(x, s, j, key);
      a[j] := a[j - 1];
      j := j - 1;
    }
    a[j] := x;
    InsertStays(x, s[..j], key);
    assert a[..i + 1] == s[..j] + [x] + s[j..];
  }

  method SortInPlace<T>(a: array<T>, key: T -> string)
    modifies a
    ensures a[..] == Sorted(old(a[..]), key)
  {
    ghost var was := a[..];
    var i := 0;
    while i < a.Length
      invariant 0 <= i <= a.Length
      invariant a[..i] == Sorted(was[..i], key)
      invariant a[i..] == was[i..]
    {
      assert a[i] == a[i..][0] == was[i];
      Sink(a, i, key);
      assert was[..i + 1][..i] == was[..i];
      assert a[i + 1..] == was[i..][1..];
      i := i + 1;
    }
    assert was[..a.Length] == was;
  }

  /** Decimal digits of a natural number, without leading zeros. */
  function Digits(n: nat): string {
    if n < 10 then [Digit(n)] else Digits(n / 10) + [Digit(n % 10)]
  }

  function Digit(d: nat): char
    requires d < 10
  {
    "0123456789"[d]
  }

  /** How the source prints an integer with the verb %d. */
  function Decimal(n: int): string {
    if n < 0 then "-" + Digits(-n) else Digits(n)
  }

  /** The number that a string of decimal digits stands for. */
  function Read(s: string): int {
    if s == "" then 0 else 10 * Read(s[..|s| - 1]) + (s[|s| - 1] as int - '0' as int)
  }

  /** What is printed reads back as the number, and starts with a zero for zero only. */
  lemma {:induction false} DigitsRead(n: nat)
    ensures Digits(n) != "" && Read(Digits(n)) == n && (Digits(n)[0] == '0' ==> n == 0)
  {
    assert forall d: nat :: d < 10 ==> Digit(d) as int - '0' as int == d;
    if n < 10 {
      assert [Digit(n)][..0] == "";
    } else {
      DigitsRead(n / 10);
      var s := Digits(n);
      assert s[..|s| - 1] == Digits(n / 10) && s[|s| - 1] == Digit(n % 10);
    }
  }

  lemma DigitsInjective(m: nat, n: nat)
    requires Digits(m) == Digits(n)
    ensures m == n
  {
    DigitsRead(m);
    DigitsRead(n);
  }

  /** Digits only: not empty, no sign, no colon. */
  lemma {:induction false} DigitsNonEmpty(n: nat)
    ensures Digits(n) != "" && '-' !in Digits(n) && ':' !in Digits(n)
  {
    if n < 10 {
    } else {
      DigitsNonEmpty(n / 10);
    }
  }

  /** The sign stands first, and only below zero. */
  lemma SignTells(n: int)
    ensures Decimal(n) != "" && (n < 0 <==> Decimal(n)[0] == '-')
    ensures n < 0 ==> Decimal(n)[1..] == Digits(-n)
  {
    hide Digits;
    DigitsNonEmpty(if n < 0 then -n else n);
    assert n >= 0 ==> Digits(n)[0] in Digits(n);
  }

  lemma DecimalInjective(m: int, n: int)
    requires Decimal(m) == Decimal(n)
    ensures m == n
  {
    hide Digits;
    SignTells(m);
    SignTells(n);
    if m < 0 {
      DigitsInjective(-m, -n);
    } else {
      DigitsInjective(m, n);
    }
  }

  lemma DecimalHasNoColon(n: int)
    ensures ':' !in Decimal(n)
  {
    DigitsNonEmpty(if n < 0 then -n else n);
  }
}
