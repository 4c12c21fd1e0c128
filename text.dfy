/**
 * The Python string built-ins the assistant relies on: `str.strip()`,
 * `str.lower()` (for the START command only), `sep.join(parts)`,
 * `startswith` and substring search, together with the facts about them
 * that the rest of the model uses.
 */
module Text {

  /** Characters for which Python's `str.isspace()` holds. */
  predicate IsSpace(c: char) {
    || c == ' '
    || ('\t' <= c <= '\r')
    || ('\U{1c}' <= c <= '\U{1f}')
    || c == '\U{85}' || c == '\U{a0}' || c == '\U{1680}'
    || ('\U{2000}' <= c <= '\U{200a}')
    || c == '\U{2028}' || c == '\U{2029}' || c == '\U{202f}'
    || c == '\U{205f}' || c == '\U{3000}'
  }

  ghost predicate AllSpace(s: string) {
    forall k :: 0 <= k < |s| ==> IsSpace(s[k])
  }

  /** Neither end of `s` is whitespace (vacuously true of the empty string). */
  ghost predicate Trimmed(s: string) {
    s == [] || (!IsSpace(s[0]) && !IsSpace(s[|s| - 1]))
  }

  /** `s.lstrip()`: drops whitespace from the front. */
  function TrimStart(s: string): (r: string)
    ensures |r| <= |s|
  {
    if |s| > 0 && IsSpace(s[0]) then TrimStart(s[1..]) else s
  }

  /** What `lstrip` keeps is a suffix that does not start with whitespace, and all it drops is whitespace. */
  lemma {:induction false} TrimStartCut(s: string)
    ensures var r := TrimStart(s);
            && r == s[|s| - |r|..]
            && AllSpace(s[..|s| - |r|])
            && (r == [] || !IsSpace(r[0]))
  {
    if |s| > 0 && IsSpace(s[0]) {
      TrimStartCut(s[1..]);
      var r := TrimStart(s);
      assert s[1..][..|s| - 1 - |r|] == s[1..|s| - |r|];
      assert forall k :: 1 <= k < |s| - |r| ==> s[k] == s[1..|s| - |r|][k - 1];
    }
  }

  /** `s.rstrip()`: drops whitespace from the end. */
  function TrimEnd(s: string): (r: string)
    ensures |r| <= |s|
  {
    if |s| > 0 && IsSpace(s[|s| - 1]) then TrimEnd(s[..|s| - 1]) else s
  }

  /** What `rstrip` keeps is a prefix that does not end with whitespace, and all it drops is whitespace. */
  lemma {:induction false} TrimEndCut(s: string)
    ensures var r := TrimEnd(s);
            && r == s[..|r|]
            && AllSpace(s[|r|..])
            && (r == [] || !IsSpace(r[|r| - 1]))
  {
    if |s| > 0 && IsSpace(s[|s| - 1]) {
      var t := s[..|s| - 1];
      TrimEndCut(t);
      var r := TrimEnd(s);
      assert t[..|r|] == s[..|r|];
      assert forall k :: |r| <= k < |s| - 1 ==> s[k] == t[|r|..][k - |r|];
    }
  }

  /** `s.strip()`. */
  function Strip(s: string): (r: string)
    ensures |r| <= |s|
  {
    TrimEnd(TrimStart(s))
  }

  /** What `strip` keeps has no whitespace at either end. */
  lemma StripTrimmed(s: string)
    ensures Trimmed(Strip(s))
  {
    var t := TrimStart(s);
    TrimStartCut(s);
    TrimEndCut(t);
    var r := TrimEnd(t);
    assert r != [] ==> r[0] == t[0];
  }

  /** `r` is `s[i..i + |r|]` and everything around it in `s` is whitespace. */
  ghost predicate PaddedSlice(r: string, s: string, i: nat) {
    i + |r| <= |s| && r == s[i..i + |r|] && AllSpace(s[..i]) && AllSpace(s[i + |r|..])
  }

  /** `s.strip()` is a slice of `s`, and everything cut away on either side of it is whitespace. */
  lemma StripCutsOnlySpace(s: string)
    ensures exists i: nat :: PaddedSlice(Strip(s), s, i)
  {
    var t := TrimStart(s);
    TrimStartCut(s);
    TrimEndCut(t);
    var r := TrimEnd(t);
    var i := |s| - |t|;
    assert t == s[i..];
    assert r == s[i..i + |r|] by { assert r == t[..|r|]; }
    assert AllSpace(s[i + |r|..]) by { assert t[|r|..] == s[i + |r|..]; }
    assert PaddedSlice(r, s, i);
    assert Strip(s) == r;
  }

  /** Leading whitespace in front of a string that does not start with whitespace is all `lstrip` removes. */
  lemma {:induction false} TrimStartPadded(p: string, x: string)
    requires AllSpace(p)
    requires x == [] || !IsSpace(x[0])
    ensures TrimStart(p + x) == x
  {
    if p != [] {
      assert (p + x)[1..] == p[1..] + x;
      TrimStartPadded(p[1..], x);
    }
  }

  /** Trailing whitespace after a string that does not end with whitespace is all `rstrip` removes. */
  lemma {:induction false} TrimEndPadded(x: string, q: string)
    requires AllSpace(q)
    requires x == [] || !IsSpace(x[|x| - 1])
    ensures TrimEnd(x + q) == x
  {
    if q != [] {
      assert (x + q)[..|x + q| - 1] == x + q[..|q| - 1];
      TrimEndPadded(x, q[..|q| - 1]);
    }
  }

  /** `(p + w + q).strip() == w` whenever `p` and `q` are whitespace and `w` has none at its ends. */
  lemma StripPadded(p: string, w: string, q: string)
    requires AllSpace(p) && AllSpace(q) && Trimmed(w)
    ensures Strip(p + w + q) == w
  {
    assert p + w + q == p + (w + q);
    if w == [] {
      assert p + w + q == (p + q) + [];
      TrimStartPadded(p + q, []);
    } else {
      TrimStartPadded(p, w + q);
      TrimEndPadded(w, q);
    }
  }

  /** Stripping twice is stripping once. */
  lemma StripIdempotent(s: string)
    ensures Strip(Strip(s)) == Strip(s)
  {
    var w := Strip(s);
    StripTrimmed(s);
    assert [] + w + [] == w;
    StripPadded([], w, []);
  }

  /** `c.lower()` for the ASCII capitals; every other character is left as it is. */
  function LowerChar(c: char): char {
    if 'A' <= c <= 'Z' then (c as int + 32) as char else c
  }

  /** `s.lower()`, character by character. */
  function Lower(s: string): (r: string)
    ensures |r| == |s|
  {
    if s == [] then [] else [LowerChar(s[0])] + Lower(s[1..])
  }

  /** Each character of `s.lower()` is the lower-case form of the character at the same place. */
  lemma {:induction false} LowerAt(s: string, k: nat)
    requires k < |s|
    ensures Lower(s)[k] == LowerChar(s[k])
  {
    if k > 0 {
      LowerAt(s[1..], k - 1);
    }
  }

  /** `sep.join(parts)`. */
  function Join(parts: seq<string>, sep: string): string {
    if |parts| == 0 then ""
    else if |parts| == 1 then parts[0]
    else parts[0] + sep + Join(parts[1..], sep)
  }

  /** Joining one more part adds exactly one separator and the part itself at the end. */
  lemma {:induction false} JoinSnoc(parts: seq<string>, x: string, sep: string)
    requires parts != []
    ensures Join(parts + [x], sep) == Join(parts, sep) + sep + x
  {
    if |parts| > 1 {
      assert (parts + [x])[1..] == parts[1..] + [x];
      JoinSnoc(parts[1..], x, sep);
    }
  }

  /** `s.startswith(p)`. */
  predicate IsPrefix(p: string, s: string) {
    |p| <= |s| && s[..|p|] == p
  }

  /** `t` occurs in `s` at offset `i`. */
  predicate OccursAt(t: string, s: string, i: nat) {
    i + |t| <= |s| && s[i..i + |t|] == t
  }

  /** Python's `t in s` for strings. */
  ghost predicate Occurs(t: string, s: string) {
    exists i: nat :: OccursAt(t, s, i)
  }

  /** Every part of a join occurs in it. */
  lemma {:induction false} JoinOccurs(parts: seq<string>, k: nat, sep: string)
    requires k < |parts|
    ensures Occurs(parts[k], Join(parts, sep))
  {
    var s := Join(parts, sep);
    if |parts| == 1 {
      assert OccursAt(parts[0], s, 0);
    } else if k == 0 {
      assert s == parts[0] + (sep + Join(parts[1..], sep));
      assert OccursAt(parts[0], s, 0);
    } else {
      JoinOccurs(parts[1..], k - 1, sep);
      var rest := Join(parts[1..], sep);
      var i: nat :| OccursAt(parts[k], rest, i);
      var off := |parts[0] + sep|;
      assert s == (parts[0] + sep) + rest;
      assert s[off + i..off + i + |parts[k]|] == rest[i..i + |parts[k]|];
      assert OccursAt(parts[k], s, off + i);
    }
  }

  /** The first part of a join is a prefix of it. */
  lemma JoinHead(parts: seq<string>, sep: string)
    requires parts != []
    ensures IsPrefix(parts[0], Join(parts, sep))
  {
    if |parts| > 1 {
      assert Join(parts, sep) == parts[0] + (sep + Join(parts[1..], sep));
    }
  }

  /** A string sits inside the concatenation of its surroundings. */
  lemma OccursBetween(p: string, t: string, q: string)
    ensures Occurs(t, p + t + q)
  {
    assert (p + t + q)[|p|..|p| + |t|] == t;
    assert OccursAt(t, p + t + q, |p|);
  }

  /** What occurs in a part of a string occurs in the string. */
  lemma OccursTransitive(a: string, b: string, c: string)
    requires Occurs(a, b) && Occurs(b, c)
    ensures Occurs(a, c)
  {
    var i: nat :| OccursAt(a, b, i);
    var j: nat :| OccursAt(b, c, j);
    forall k | 0 <= k < |a| ensures c[j + i + k] == a[k] {
      assert a[k] == b[i + k] && b[i + k] == c[j + i + k];
    }
    assert c[j + i..j + i + |a|] == a;
    assert OccursAt(a, c, j + i);
  }
}
