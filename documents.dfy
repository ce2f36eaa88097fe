/** Document identifiers and the natural order of a collection. A stored
    document's `_id` is an ObjectId, written as 24 hexadecimal digits; the
    handlers accept an id in either case, and `new ObjectId(id)` reads it
    as the same twelve bytes, which print back in lower case. */
module Documents {

  predicate IsHexDigit(c: char) {
    ('0' <= c <= '9') || ('a' <= c <= 'f') || ('A' <= c <= 'F')
  }

  /** `ObjectId.isValid(id)` on a string: exactly 24 hexadecimal digits. */
  predicate IsValidId(id: string) {
    |id| == 24 && forall i :: 0 <= i < |id| ==> IsHexDigit(id[i])
  }

  /** The form an ObjectId prints in: 24 lower-case hexadecimal digits. */
  predicate IsCanonical(id: string) {
    |id| == 24 && forall i :: 0 <= i < |id| ==> ('0' <= id[i] <= '9') || ('a' <= id[i] <= 'f')
  }

  function LowerHex(c: char): (d: char)
    requires IsHexDigit(c)
    ensures ('0' <= d <= '9') || ('a' <= d <= 'f')
  {
    if 'A' <= c <= 'F' then (c as int - 'A' as int + 'a' as int) as char else c
  }

  /** The id `new ObjectId(id)` denotes, in its printed form. */
  function CanonicalId(id: string): (key: string)
    requires IsValidId(id)
    ensures IsCanonical(key) && IsValidId(key)
    ensures forall i :: 0 <= i < 24 ==> key[i] == LowerHex(id[i])
  {
    seq(24, i requires 0 <= i < 24 => LowerHex(id[i]))
  }

  /** A canonical id denotes itself, so reading back a stored id finds the
      same document. */
  lemma CanonicalIdFixesCanonical(id: string)
    requires IsCanonical(id)
    ensures IsValidId(id) && CanonicalId(id) == id
  {
  }

  /** Two spellings denote the same document exactly when they agree up to
      the case of their letters. */
  lemma CanonicalIdIgnoresCase(a: string, b: string)
    requires IsValidId(a) && IsValidId(b)
    ensures CanonicalId(a) == CanonicalId(b) <==> forall i :: 0 <= i < 24 ==> LowerHex(a[i]) == LowerHex(b[i])
  {
    if forall i :: 0 <= i < 24 ==> LowerHex(a[i]) == LowerHex(b[i]) {
      assert CanonicalId(a) == CanonicalId(b);
    }
  }

  predicate NoDuplicates(s: seq<string>) {
    forall i, j :: 0 <= i < j < |s| ==> s[i] != s[j]
  }

  /** The ids in `order` without `key`, the rest kept in order. */
  function Without(order: seq<string>, key: string): (r: seq<string>)
    ensures forall k :: k in r <==> k in order && k != key
    ensures NoDuplicates(order) ==> NoDuplicates(r)
    ensures |r| <= |order|
  {
    if order == [] then []
    else
      var init := Without(order[..|order| - 1], key);
      var last := order[|order| - 1];
      assert order == order[..|order| - 1] + [last];
      if last == key then init
      else
        assert NoDuplicates(order) ==> NoDuplicates(init + [last]) by {
          if NoDuplicates(order) {
            assert last !in order[..|order| - 1];
          }
        }
        init + [last]
  }

  /** Removing an id that is not there changes nothing. */
  lemma {:induction false} WithoutAbsent(order: seq<string>, key: string)
    requires key !in order
    ensures Without(order, key) == order
  {
    if order != [] {
      WithoutAbsent(order[..|order| - 1], key);
      assert order == order[..|order| - 1] + [order[|order| - 1]];
    }
  }
}
