/**
 Byte strings and the classification of bytes.

 A Go string is a sequence of bytes; here it is a `string` whose characters stand for bytes.
 `unicode.IsLetter(rune(b))` and its kin see a byte as a code point below 256, so the classes below
 are those of Latin-1. Characters above 255 fall in no class, and every result holds for them too.
 */
module Text {

  datatype Option<+T> = None | Some(value: T)

  /** unicode.IsSpace on one byte. */
  predicate IsSpace(c: char) {
    '\t' <= c <= '\r' || c == ' ' || c == '\U{85}' || c == '\U{A0}'
  }

  /** unicode.IsLetter on one byte. */
  predicate IsLetter(c: char) {
    || 'A' <= c <= 'Z' || 'a' <= c <= 'z'
    || c == '\U{AA}' || c == '\U{B5}' || c == '\U{BA}'
    || '\U{C0}' <= c <= '\U{D6}' || '\U{D8}' <= c <= '\U{F6}' || '\U{F8}' <= c <= '\U{FF}'
  }

  /** unicode.IsDigit on one byte. */
  predicate IsDigit(c: char) {
    '0' <= c <= '9'
  }

  /** strings.HasPrefix(s[i:], w). */
  predicate HasAt(s: string, i: nat, w: string)
    ensures HasAt(s, i, w) ==> i + |w| <= |s|
  {
    i + |w| <= |s| && s[i..i + |w|] == w
  }

  predicate CharAt(s: string, i: nat, c: char) {
    i < |s| && s[i] == c
  }

  /** A text that sits in `s` is cut in two the way it was put together. */
  lemma HasAtSplit(s: string, i: nat, a: string, b: string)
    requires HasAt(s, i, a + b)
    ensures HasAt(s, i, a) && HasAt(s, i + |a|, b)
  {
    assert s[i..i + |a|] == s[i..i + |a + b|][..|a|] == (a + b)[..|a|] == a;
    assert s[i + |a|..i + |a| + |b|] == s[i..i + |a + b|][|a|..] == (a + b)[|a|..] == b;
  }

  lemma HasAtIndex(s: string, i: nat, w: string, k: nat)
    requires HasAt(s, i, w) && k < |w|
    ensures i + k < |s| && s[i + k] == w[k]
  {
    assert s[i..i + |w|][k] == w[k];
  }

  /** Go's `<` on strings: byte by byte, a proper prefix first. */
  predicate Less(a: string, b: string) {
    b != "" && (a == "" || a[0] < b[0] || (a[0] == b[0] && Less(a[1..], b[1..])))
  }

  /** The comparison is a strict total order, so `<=` is "less or equal" and `!(b < a)` alike. */
  lemma {:induction false} LessTrichotomy(a: string, b: string)
    ensures Less(a, b) || Less(b, a) || a == b
    ensures !(Less(a, b) && Less(b, a))
    ensures !Less(a, a)
  {
    if a != "" {
      LessTrichotomy(a[1..], a[1..]);
      if b != "" {
        LessTrichotomy(a[1..], b[1..]);
        assert a == [a[0]] + a[1..] && b == [b[0]] + b[1..];
      }
    }
  }

  /** Before in the dictionary: the texts agree on the first k bytes, then `a` ends or has the smaller byte. */
  predicate DiffersAt(a: string, b: string, k: nat) {
    && k <= |a| && k < |b| && a[..k] == b[..k]
    && (k < |a| ==> a[k] < b[k])
  }

  /** The comparison is the order of a dictionary. */
  lemma {:induction false} LessIs(a: string, b: string)
    ensures Less(a, b) <==> exists k: nat :: DiffersAt(a, b, k)
  {
    if b == "" || a == "" || a[0] != b[0] {
      if Less(a, b) {
        assert DiffersAt(a, b, 0);
      }
      if k: nat :| DiffersAt(a, b, k) {
        if k > 0 {
          DiffersLater(a, b, k);
        }
      }
    } else {
      LessIs(a[1..], b[1..]);
      if Less(a, b) {
        var k: nat :| DiffersAt(a[1..], b[1..], k);
        assert a[..k + 1] == [a[0]] + a[1..][..k] && b[..k + 1] == [b[0]] + b[1..][..k];
        assert DiffersAt(a, b, k + 1);
      }
      if k: nat :| DiffersAt(a, b, k) {
        DiffersLater(a, b, k);
      }
    }
  }

  lemma DiffersLater(a: string, b: string, k: nat)
    requires DiffersAt(a, b, k) && k > 0
    ensures a != "" && b != "" && a[0] == b[0] && DiffersAt(a[1..], b[1..], k - 1)
  {
    assert a[..k][0] == b[..k][0];
    assert a[1..][..k - 1] == a[..k][1..] && b[1..][..k - 1] == b[..k][1..];
  }
}
