/** The string rules the script relies on: Python's `in` on strings,
    `str.strip()` and the digit test of `str.isdigit()`. */
module Text {

  /** The characters Python's `str.isspace` accepts, which `str.strip()` removes. */
  predicate IsSpace(c: char) {
    || ('\t' <= c <= '\r')
    || ('\U{1C}' <= c <= ' ')
    || c == '\U{85}' || c == '\U{A0}' || c == '\U{1680}'
    || ('\U{2000}' <= c <= '\U{200A}')
    || c == '\U{2028}' || c == '\U{2029}' || c == '\U{202F}' || c == '\U{205F}'
    || c == '\U{3000}'
  }

  /** Python's `sub in s`. */
  function Contains(s: string, sub: string): bool
    decreases |s|
  {
    sub <= s || (|s| > 0 && Contains(s[1..], sub))
  }

  /** `sub` occurs in `s` starting at index `i`. */
  predicate OccursAt(s: string, sub: string, i: int) {
    0 <= i <= |s| - |sub| && s[i..i + |sub|] == sub
  }

  /** An occurrence past the first character is an occurrence in the tail. */
  lemma OccursInTail(s: string, sub: string, i: int)
    requires |s| > 0 && i >= 1
    ensures OccursAt(s, sub, i) <==> OccursAt(s[1..], sub, i - 1)
  {
    if 0 <= i - 1 <= |s[1..]| - |sub| {
      assert s[1..][i - 1..i - 1 + |sub|] == s[i..i + |sub|];
    }
  }

  /** `sub in s` holds exactly when `sub` occurs as a slice of `s`. */
  lemma {:induction false} ContainsIffOccurs(s: string, sub: string)
    ensures Contains(s, sub) <==> exists i :: OccursAt(s, sub, i)
  {
    assert OccursAt(s, sub, 0) <==> sub <= s;
    if |s| > 0 {
      ContainsIffOccurs(s[1..], sub);
      forall i | i >= 1
        ensures OccursAt(s, sub, i) <==> OccursAt(s[1..], sub, i - 1)
      {
        OccursInTail(s, sub, i);
      }
      if Contains(s[1..], sub) {
        var i :| OccursAt(s[1..], sub, i);
        assert OccursAt(s, sub, i + 1);
      }
    }
  }

  /** Python's `s.lstrip()`: `s` without its leading whitespace. */
  function TrimStart(s: string): string
    decreases |s|
  {
    if s != [] && IsSpace(s[0]) then TrimStart(s[1..]) else s
  }

  /** Python's `s.rstrip()`: `s` without its trailing whitespace. */
  function TrimEnd(s: string): string
    decreases |s|
  {
    if s != [] && IsSpace(s[|s| - 1]) then TrimEnd(s[..|s| - 1]) else s
  }

  /** `TrimStart` drops a run of whitespace from the front and stops at the
      first other character. */
  lemma {:induction false} TrimStartSpec(s: string)
    decreases |s|
    ensures var r := TrimStart(s);
            && |r| <= |s| && r == s[|s| - |r|..]
            && (forall k :: 0 <= k < |s| - |r| ==> IsSpace(s[k]))
            && (r != [] ==> !IsSpace(r[0]))
  {
    if s != [] && IsSpace(s[0]) {
      TrimStartSpec(s[1..]);
      var r := TrimStart(s[1..]);
      assert s[1..][|s[1..]| - |r|..] == s[|s| - |r|..];
      assert forall k :: 1 <= k < |s| - |r| ==> s[k] == s[1..][k - 1];
    }
  }

  /** `TrimEnd` drops a run of whitespace from the back and stops at the
      last other character. */
  lemma {:induction false} TrimEndSpec(s: string)
    decreases |s|
    ensures var r := TrimEnd(s);
            && |r| <= |s| && r == s[..|r|]
            && (forall k :: |r| <= k < |s| ==> IsSpace(s[k]))
            && (r != [] ==> !IsSpace(r[|r| - 1]))
  {
    if s != [] && IsSpace(s[|s| - 1]) {
      var t := s[..|s| - 1];
      TrimEndSpec(t);
      var r := TrimEnd(t);
      assert t[..|r|] == s[..|r|];
      assert forall k :: |r| <= k < |t| ==> s[k] == t[k];
    }
  }

  /** Neither end of `s` is whitespace. */
  predicate Trimmed(s: string) {
    s == [] || (!IsSpace(s[0]) && !IsSpace(s[|s| - 1]))
  }

  /** `s` is `r` with only whitespace before it (the first `i` characters)
      and only whitespace after it. */
  predicate PaddedAt(s: string, r: string, i: int) {
    && 0 <= i <= |s| - |r| && r == s[i..i + |r|]
    && (forall k :: 0 <= k < i ==> IsSpace(s[k]))
    && (forall k :: i + |r| <= k < |s| ==> IsSpace(s[k]))
  }

  /** Python's `s.strip()`. */
  function Strip(s: string): string {
    TrimEnd(TrimStart(s))
  }

  /** `Strip` leaves the slice of `s` between its leading and its trailing
      whitespace, and that slice neither begins nor ends with whitespace. */
  lemma StripSpec(s: string)
    ensures Trimmed(Strip(s))
    ensures PaddedAt(s, Strip(s), |s| - |TrimStart(s)|)
  {
    var t := TrimStart(s);
    var r := TrimEnd(t);
    TrimStartSpec(s);
    TrimEndSpec(t);
    TrailingSpaces(s, t, r);
    if r != [] {
      assert r[0] == t[0];
    }
  }

  /** Whitespace after `r` in the tail `t` of `s` is whitespace after it in `s`. */
  lemma TrailingSpaces(s: string, t: string, r: string)
    requires |t| <= |s| && t == s[|s| - |t|..]
    requires |r| <= |t| && r == t[..|r|]
    requires forall k :: |r| <= k < |t| ==> IsSpace(t[k])
    ensures var i := |s| - |t|;
            r == s[i..i + |r|] && forall k :: i + |r| <= k < |s| ==> IsSpace(s[k])
  {
    var i := |s| - |t|;
    assert s[i..i + |r|] == t[..|r|];
    forall k | i + |r| <= k < |s| ensures IsSpace(s[k]) {
      assert s[k] == t[k - i];
    }
  }

  /** A non-empty string without surrounding whitespace sits at only one
      place of a string padded with whitespace around it. */
  lemma PaddedUnique(s: string, r: string, i: int, r2: string, i2: int)
    requires PaddedAt(s, r, i) && Trimmed(r) && PaddedAt(s, r2, i2) && Trimmed(r2) && r2 != []
    ensures r == r2 && i == i2
  {
    assert s[i2] == r2[0] && s[i2 + |r2| - 1] == r2[|r2| - 1];
    if r != [] {
      assert s[i] == r[0] && s[i + |r| - 1] == r[|r| - 1];
    }
  }

  /** Stripping a string that is already trimmed changes nothing, so `Strip` is idempotent. */
  lemma StripTrimmed(s: string)
    requires Trimmed(s)
    ensures Strip(s) == s
  {
    assert TrimStart(s) == s;
  }

  /** Pieces without surrounding whitespace concatenate to a string without it. */
  lemma TrimmedConcat(a: string, b: string)
    requires Trimmed(a) && Trimmed(b)
    ensures Trimmed(a + b)
  {
    if a != [] && b != [] {
      assert (a + b)[0] == a[0] && (a + b)[|a + b| - 1] == b[|b| - 1];
    } else if a == [] {
      assert a + b == b;
    } else {
      assert a + b == a;
    }
  }

  predicate IsDigit(c: char) {
    '0' <= c <= '9'
  }

  /** Python's `s.isdigit()` restricted to ASCII digits: false on the empty string. */
  predicate IsDigits(s: string) {
    |s| > 0 && forall i :: 0 <= i < |s| ==> IsDigit(s[i])
  }
}
