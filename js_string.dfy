/**
 * The JavaScript string built-ins the core relies on, over `seq<char>`:
 * `toLowerCase`, `includes`, `trim` and the relational operator `<`.
 */
module JsString {

  // ---------------------------------------------------------------- toLowerCase

  /** Case mapping of one character: ASCII and the Latin-1 capitals. */
  function LowerChar(c: char): (d: char)
    ensures ('A' <= c <= 'Z') ==> d as int == c as int + 32
    ensures ('\U{C0}' <= c <= '\U{DE}') && c != '\U{D7}' ==> d as int == c as int + 32
    ensures !('A' <= c <= 'Z') && !('\U{C0}' <= c <= '\U{DE}' && c != '\U{D7}') ==> d == c
  {
    if 'A' <= c <= 'Z' then (c as int + 32) as char
    else if '\U{C0}' <= c <= '\U{DE}' && c != '\U{D7}' then (c as int + 32) as char
    else c
  }

  /** `s.toLowerCase()`: every character mapped on its own. */
  function Lower(s: string): (r: string)
    ensures |r| == |s|
  {
    seq(|s|, i requires 0 <= i < |s| => LowerChar(s[i]))
  }

  /** Lower-casing twice is lower-casing once. */
  lemma LowerIdempotent(s: string)
    ensures Lower(Lower(s)) == Lower(s)
  {
  }

  // ---------------------------------------------------------------- includes

  /** `s.startsWith(q)`. */
  predicate StartsWith(s: string, q: string) {
    |q| <= |s| && s[..|q|] == q
  }

  /** `q` occurs in `s` starting at position `i`. */
  predicate OccursAt(s: string, q: string, i: int) {
    0 <= i <= |s| - |q| && s[i..i + |q|] == q
  }

  /** `s.includes(q)`: `q` occurs at some position of `s`. */
  predicate Includes(s: string, q: string) {
    exists i :: 0 <= i <= |s| && OccursAt(s, q, i)
  }

  /** `includes` scans the start positions from left to right. */
  lemma {:induction false} IncludesScan(s: string, q: string)
    ensures Includes(s, q) <==> StartsWith(s, q) || (s != [] && Includes(s[1..], q))
  {
    if StartsWith(s, q) {
      assert OccursAt(s, q, 0);
    }
    if s != [] {
      var t := s[1..];
      if Includes(s, q) {
        var i :| 0 <= i <= |s| && OccursAt(s, q, i);
        if i > 0 {
          assert t[i - 1..i - 1 + |q|] == q;
          assert OccursAt(t, q, i - 1);
        }
      }
      if Includes(t, q) {
        var i :| 0 <= i <= |t| && OccursAt(t, q, i);
        assert s[i + 1..i + 1 + |q|] == q;
        assert OccursAt(s, q, i + 1);
      }
    }
  }

  /** Every string includes the empty string. */
  lemma IncludesEmpty(s: string)
    ensures Includes(s, [])
  {
    assert OccursAt(s, [], 0);
  }

  /** A string includes itself, and a string includes every piece of it. */
  lemma {:induction false} IncludesPiece(a: string, q: string, b: string)
    ensures Includes(a + q + b, q)
  {
    assert (a + q + b)[|a|..|a| + |q|] == q;
    assert OccursAt(a + q + b, q, |a|);
  }

  /** Every character of an included string occurs in the including one. */
  lemma IncludesChars(s: string, q: string, c: char)
    requires Includes(s, q) && c in q
    ensures c in s
  {
    var i :| 0 <= i <= |s| && OccursAt(s, q, i);
    var k :| 0 <= k < |q| && q[k] == c;
    assert s[i + k] == s[i..i + |q|][k];
  }

  // ---------------------------------------------------------------- trim

  /**
   * The characters `String.prototype.trim` removes: the ECMAScript WhiteSpace
   * code points (tab, vertical tab, form feed, space, no-break space, the byte
   * order mark and the Unicode space separators) and the four line terminators.
   */
  predicate IsWhitespace(c: char) {
    c == '\t' || c == '\n' || c == '\U{B}' || c == '\U{C}' || c == '\r' || c == ' ' ||
    c == '\U{A0}' || c == '\U{1680}' || ('\U{2000}' <= c <= '\U{200A}') ||
    c == '\U{2028}' || c == '\U{2029}' || c == '\U{202F}' || c == '\U{205F}' ||
    c == '\U{3000}' || c == '\U{FEFF}'
  }

  function TrimStart(s: string): (r: string)
    ensures |r| <= |s| && r == s[|s| - |r|..]
    ensures r != [] ==> !IsWhitespace(r[0])
    ensures forall i :: 0 <= i < |s| - |r| ==> IsWhitespace(s[i])
  {
    if s != [] && IsWhitespace(s[0]) then TrimStart(s[1..]) else s
  }

  function TrimEnd(s: string): (r: string)
    ensures |r| <= |s| && r == s[..|r|]
    ensures r != [] ==> !IsWhitespace(r[|r| - 1])
    ensures forall i :: |r| <= i < |s| ==> IsWhitespace(s[i])
  {
    if s != [] && IsWhitespace(s[|s| - 1]) then TrimEnd(s[..|s| - 1]) else s
  }

  /** `s.trim()`. */
  function Trim(s: string): string {
    TrimEnd(TrimStart(s))
  }

  /** `s.trim()` is empty (falsy) exactly when every character of `s` is whitespace. */
  lemma TrimEmpty(s: string)
    ensures Trim(s) == [] <==> forall i :: 0 <= i < |s| ==> IsWhitespace(s[i])
  {
    var t := TrimStart(s);
    if Trim(s) != [] {
      assert !IsWhitespace(t[0]);
      assert s[|s| - |t|] == t[0];
    } else {
      forall i | |s| - |t| <= i < |s| ensures IsWhitespace(s[i]) {
        assert s[i] == t[i - (|s| - |t|)];
      }
    }
  }

  // ---------------------------------------------------------------- comparison

  /**
   * `a < b` on strings: lexicographic on characters, a proper prefix first.
   */
  predicate Less(a: string, b: string) {
    if b == [] then false
    else if a == [] then true
    else if a[0] != b[0] then a[0] < b[0]
    else Less(a[1..], b[1..])
  }

  lemma {:induction false} LessIrreflexive(a: string)
    ensures !Less(a, a)
  {
    if a != [] {
      LessIrreflexive(a[1..]);
    }
  }

  lemma {:induction false} LessAsymmetric(a: string, b: string)
    ensures Less(a, b) ==> !Less(b, a)
  {
    if a != [] && b != [] && a[0] == b[0] {
      LessAsymmetric(a[1..], b[1..]);
    }
  }

  lemma {:induction false} LessTransitive(a: string, b: string, c: string)
    requires Less(a, b) && Less(b, c)
    ensures Less(a, c)
  {
    if a != [] && a[0] == b[0] && b[0] == c[0] {
      LessTransitive(a[1..], b[1..], c[1..]);
    }
  }

  /** Distinct strings are always ordered one way or the other. */
  lemma {:induction false} LessTotal(a: string, b: string)
    requires a != b
    ensures Less(a, b) || Less(b, a)
  {
    if a != [] && b != [] && a[0] == b[0] {
      assert a == [a[0]] + a[1..] && b == [b[0]] + b[1..];
      LessTotal(a[1..], b[1..]);
    }
  }
}
