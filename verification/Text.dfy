/**
 * Strings as the source compares, measures and trims them. A Dafny character
 * stands for one UTF-16 code unit.
 */
module Text {

  /** The order of JavaScript's `<` on strings. */
  predicate TextBefore(a: string, b: string) {
    if b == "" then false
    else if a == "" then true
    else a[0] < b[0] || (a[0] == b[0] && TextBefore(a[1..], b[1..]))
  }

  lemma {:induction false} TextIrreflexive(a: string)
    ensures !TextBefore(a, a)
  {
    if a != "" { TextIrreflexive(a[1..]); }
  }

  lemma {:induction false} TextTotal(a: string, b: string)
    ensures a == b || TextBefore(a, b) || TextBefore(b, a)
  {
    if a != "" && b != "" && a[0] == b[0] {
      TextTotal(a[1..], b[1..]);
      assert a == [a[0]] + a[1..] && b == [b[0]] + b[1..];
    }
  }

  lemma {:induction false} TextTransitive(a: string, b: string, c: string)
    requires TextBefore(a, b) && TextBefore(b, c)
    ensures TextBefore(a, c)
  {
    if a != "" && a[0] == b[0] && b[0] == c[0] {
      TextTransitive(a[1..], b[1..], c[1..]);
    }
  }

  /** The laws together, ready for comparators built on text. */
  lemma TextOrder()
    ensures forall a :: !TextBefore(a, a)
    ensures forall a, b :: a == b || TextBefore(a, b) || TextBefore(b, a)
    ensures forall a, b, c :: TextBefore(a, b) && TextBefore(b, c) ==> TextBefore(a, c)
  {
    forall a ensures !TextBefore(a, a) { TextIrreflexive(a); }
    forall a, b ensures a == b || TextBefore(a, b) || TextBefore(b, a) { TextTotal(a, b); }
    forall a, b, c | TextBefore(a, b) && TextBefore(b, c) ensures TextBefore(a, c) { TextTransitive(a, b, c); }
  }

  /** Where two strings first part, one of them ends, or has the smaller code unit there. */
  ghost predicate PartsBelow(a: string, b: string, i: nat) {
    && i <= |a| && i < |b| && a[..i] == b[..i]
    && (i == |a| || a[i] < b[i])
  }

  /** The order is that of the first code unit in which two strings differ, a beginning coming first. */
  lemma {:induction false} BeforeIffPartsBelow(a: string, b: string)
    ensures TextBefore(a, b) <==> exists i: nat :: PartsBelow(a, b, i)
  {
    if a == "" && b != "" {
      assert PartsBelow(a, b, 0);
    } else if a != "" && b != "" {
      BeforeIffPartsBelow(a[1..], b[1..]);
      if a[0] < b[0] {
        assert PartsBelow(a, b, 0);
      } else if a[0] == b[0] {
        if i: nat :| PartsBelow(a[1..], b[1..], i) {
          assert a[..i + 1] == [a[0]] + a[1..][..i] && b[..i + 1] == [b[0]] + b[1..][..i];
          assert PartsBelow(a, b, i + 1);
        }
        if i: nat :| PartsBelow(a, b, i) {
          assert 0 < i && a[1..][..i - 1] == a[..i][1..] && b[1..][..i - 1] == b[..i][1..];
          assert PartsBelow(a[1..], b[1..], i - 1);
        }
      } else {
        forall i: nat ensures !PartsBelow(a, b, i) {
          if 0 < i <= |a| && i <= |b| { assert a[..i][0] == a[0] && b[..i][0] == b[0]; }
        }
      }
    }
  }

  predicate IsSpace(c: char) {
    c in " \t\n\r\U{B}\U{C}\U{A0}\U{1680}\U{2028}\U{2029}\U{202F}\U{205F}\U{3000}\U{FEFF}"
    || '\U{2000}' <= c <= '\U{200A}'
  }

  /** `value.trim().length > 0`. */
  predicate NonEmpty(s: string) {
    exists i :: 0 <= i < |s| && !IsSpace(s[i])
  }

  /** A lower-case hexadecimal SHA-256. */
  predicate IsDigest(s: string) {
    |s| == 64 && forall i | 0 <= i < 64 :: '0' <= s[i] <= '9' || 'a' <= s[i] <= 'f'
  }

  const MAX_SAFE_INTEGER := 9007199254740991

  predicate SafeInteger(n: int) {
    -MAX_SAFE_INTEGER <= n <= MAX_SAFE_INTEGER
  }

  function Decimal(n: int): string
    decreases if n < 0 then 1 - n else n
  {
    if n < 0 then "-" + Decimal(-n)
    else if n < 10 then [('0' as int + n) as char]
    else Decimal(n / 10) + [('0' as int + n % 10) as char]
  }
}
