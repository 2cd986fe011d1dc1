/** The cart fingerprint before it is hashed, and why it identifies the cart exactly. */
module Fingerprint {
  import opened Prelude
  import opened Schema
  import opened Text

  function Entry(line: CartLine): string {
    line.variant.text + ":" + Decimal(line.quantity)
  }

  function Joined(parts: seq<string>): string {
    if parts == [] then "" else Joined(parts[..|parts| - 1]) + parts[|parts| - 1]
  }

  /** The bytes the source feeds to SHA-256. */
  function Preimage(lines: seq<CartLine>): string {
    Joined(Sorted(Mapped(lines, Entry), Itself))
  }

  method Build(lines: seq<CartLine>) returns (text: string)
    ensures text == Preimage(lines)
  {
    var entries := new string[|lines|];
    var i := 0;
    while i < |lines|
      invariant 0 <= i <= |lines|
      invariant entries[..i] == Mapped(lines[..i], Entry)
    {
      entries[i] := Entry(lines[i]);
      i := i + 1;
    }
    assert lines[..|lines|] == lines && entries[..] == entries[..|lines|];
    SortInPlace(entries, Itself);
    text := "";
    i := 0;
    while i < entries.Length
      invariant 0 <= i <= entries.Length
      invariant text == Joined(entries[..i])
    {
      text := text + entries[i];
      assert entries[..i + 1][..i] == entries[..i];
      i := i + 1;
    }
    assert entries[..entries.Length] == entries[..];
  }

  /** Where the last colon stands; every entry has exactly one, behind its 36 id characters. */
  lemma LastColon(head: string, line: CartLine)
    ensures var s := head + Entry(line);
            |s| > |head| + 36 && s[|head| + 36] == ':' && forall i :: |head| + 36 < i < |s| ==> s[i] != ':'
  {
    var s := head + Entry(line);
    DecimalHasNoColon(line.quantity);
    forall i | |head| + 36 < i < |s| ensures s[i] != ':' {
      assert s[i] == Decimal(line.quantity)[i - |head| - 37];
    }
  }

  /** The last entry can be split off a concatenation in one way only. */
  lemma LastEntryUnique(a: string, x: CartLine, b: string, y: CartLine)
    requires a + Entry(x) == b + Entry(y)
    ensures a == b && x == y
  {
    LastColon(a, x);
    LastColon(b, y);
    var s := a + Entry(x);
    assert |a| == |b|;
    assert s[|a|..] == Entry(x) && s[|b|..] == Entry(y);
    assert s[..|a|] == a && s[..|b|] == b;
    EntryInjective(x, y);
  }

  lemma EntryInjective(x: CartLine, y: CartLine)
    requires Entry(x) == Entry(y)
    ensures x == y
  {
    assert Entry(x)[..36] == x.variant.text && Entry(y)[..36] == y.variant.text;
    assert Entry(x)[37..] == Decimal(x.quantity) && Entry(y)[37..] == Decimal(y.quantity);
    DecimalInjective(x.quantity, y.quantity);
  }

  /** Without any separator the concatenation still decodes into one list of lines only. */
  lemma {:induction false} JoinedInjective(p: seq<CartLine>, q: seq<CartLine>)
    requires Joined(Mapped(p, Entry)) == Joined(Mapped(q, Entry))
    ensures p == q
  {
    if p != [] { JoinedLast(p); }
    if q != [] { JoinedLast(q); }
    if p == [] || q == [] {
    } else {
      LastEntryUnique(Joined(Mapped(p[..|p| - 1], Entry)), p[|p| - 1], Joined(Mapped(q[..|q| - 1], Entry)), q[|q| - 1]);
      JoinedInjective(p[..|p| - 1], q[..|q| - 1]);
      SameEnds(p, q);
    }
  }

  lemma JoinedLast(p: seq<CartLine>)
    requires p != []
    ensures Joined(Mapped(p, Entry)) == Joined(Mapped(p[..|p| - 1], Entry)) + Entry(p[|p| - 1]) != ""
  {
    assert Mapped(p, Entry)[..|p| - 1] == Mapped(p[..|p| - 1], Entry);
    LastColon(Joined(Mapped(p[..|p| - 1], Entry)), p[|p| - 1]);
  }

  /** Main result: two carts have the same pre-image exactly when their lines are permutations of each other. */
  lemma FingerprintExact(a: seq<CartLine>, b: seq<CartLine>)
    ensures Preimage(a) == Preimage(b) <==> multiset(a) == multiset(b)
  {
    var sa, sb := Sorted(a, Entry), Sorted(b, Entry);
    SortedKeeps(a, Entry);
    SortedKeeps(b, Entry);
    SortedKeys(a, Entry);
    SortedKeys(b, Entry);
    if Preimage(a) == Preimage(b) {
      JoinedInjective(sa, sb);
    }
    if multiset(a) == multiset(b) {
      forall x, y | x in sa && y in sa && Entry(x) == Entry(y) ensures x == y {
        EntryInjective(x, y);
      }
      AscendingUnique(sa, sb, Entry);
    }
  }
}
