/** The two string operations the description is built from:
    `s.split('\n')[0]` and Python's argument-less `str.strip()`. */
module Text {

  /** Python's `str.isspace()` on one character: the characters that an
      argument-less `strip()` removes. */
  predicate IsSpace(c: char) {
    var n := c as int;
    || 0x09 <= n <= 0x0D
    || 0x1C <= n <= 0x20
    || n == 0x85 || n == 0xA0 || n == 0x1680
    || 0x2000 <= n <= 0x200A
    || n == 0x2028 || n == 0x2029 || n == 0x202F || n == 0x205F || n == 0x3000
  }

  predicate AllSpace(s: string) {
    forall k | 0 <= k < |s| :: IsSpace(s[k])
  }

  predicate NoSpace(s: string) {
    forall k | 0 <= k < |s| :: !IsSpace(s[k])
  }

  /** A string with no whitespace at either end, the shape `strip()` leaves. */
  predicate Trimmed(s: string) {
    s == [] || (!IsSpace(s[0]) && !IsSpace(s[|s| - 1]))
  }

  /** `s.split('\n')[0]` */
  function FirstLine(s: string): string {
    if s == [] || s[0] == '\n' then [] else [s[0]] + FirstLine(s[1..])
  }

  /** `lstrip()` */
  function TrimLeft(s: string): (r: string)
    ensures |r| <= |s|
  {
    if s != [] && IsSpace(s[0]) then TrimLeft(s[1..]) else s
  }

  /** `rstrip()` */
  function TrimRight(s: string): string {
    if s != [] && IsSpace(s[|s| - 1]) then TrimRight(s[..|s| - 1]) else s
  }

  /** `strip()`: `rstrip()` after `lstrip()`. */
  function Strip(s: string): string {
    TrimRight(TrimLeft(s))
  }

  /** Where `strip()`'s result begins in its input. */
  function StripStart(s: string): nat {
    |s| - |TrimLeft(s)|
  }

  /** The first line is the longest prefix without a line feed: it is a
      prefix, holds no line feed, and is followed by one or by the end. */
  lemma {:induction false} FirstLineShape(s: string)
    ensures FirstLine(s) <= s && '\n' !in FirstLine(s)
    ensures FirstLine(s) == s || s[|FirstLine(s)|] == '\n'
  {
    if s != [] && s[0] != '\n' {
      FirstLineShape(s[1..]);
    }
  }

  /** `lstrip()` drops exactly the leading whitespace. */
  lemma {:induction false} TrimLeftShape(s: string)
    ensures |TrimLeft(s)| <= |s|
    ensures forall k | 0 <= k < |TrimLeft(s)| :: TrimLeft(s)[k] == s[|s| - |TrimLeft(s)| + k]
    ensures forall k | 0 <= k < |s| - |TrimLeft(s)| :: IsSpace(s[k])
    ensures TrimLeft(s) == [] || !IsSpace(TrimLeft(s)[0])
  {
    if s != [] && IsSpace(s[0]) {
      TrimLeftShape(s[1..]);
    }
  }

  /** `rstrip()` drops exactly the trailing whitespace. */
  lemma {:induction false} TrimRightShape(s: string)
    ensures TrimRight(s) <= s
    ensures forall k | |TrimRight(s)| <= k < |s| :: IsSpace(s[k])
    ensures TrimRight(s) == [] || !IsSpace(TrimRight(s)[|TrimRight(s)| - 1])
  {
    if s != [] && IsSpace(s[|s| - 1]) {
      TrimRightShape(s[..|s| - 1]);
    }
  }

  /** What `strip()` keeps is one contiguous, trimmed slice of its input,
      and only whitespace lies on either side of it. */
  lemma StripSlice(s: string)
    ensures Trimmed(Strip(s))
    ensures StripStart(s) + |Strip(s)| <= |s|
    ensures Strip(s) == s[StripStart(s)..StripStart(s) + |Strip(s)|]
    ensures forall k | 0 <= k < StripStart(s) :: IsSpace(s[k])
    ensures forall k | StripStart(s) + |Strip(s)| <= k < |s| :: IsSpace(s[k])
  {
    StripTrimmed(s);
    StripInside(s);
    StripOutside(s);
  }

  lemma StripTrimmed(s: string)
    ensures Trimmed(Strip(s))
  {
    var t := TrimLeft(s);
    TrimLeftShape(s);
    TrimRightShape(t);
    if Strip(s) != [] {
      assert Strip(s)[0] == t[0];
    }
  }

  lemma StripInside(s: string)
    ensures StripStart(s) + |Strip(s)| <= |s|
    ensures Strip(s) == s[StripStart(s)..StripStart(s) + |Strip(s)|]
  {
    var t := TrimLeft(s);
    var r := Strip(s);
    var i := StripStart(s);
    TrimLeftShape(s);
    TrimRightShape(t);
    forall k | 0 <= k < |r| ensures r[k] == s[i + k] {
      assert r[k] == t[k];
    }
  }

  lemma StripOutside(s: string)
    ensures StripStart(s) + |Strip(s)| <= |s|
    ensures forall k | 0 <= k < StripStart(s) :: IsSpace(s[k])
    ensures forall k | StripStart(s) + |Strip(s)| <= k < |s| :: IsSpace(s[k])
  {
    var t := TrimLeft(s);
    var i := StripStart(s);
    TrimLeftShape(s);
    TrimRightShape(t);
    forall k | i + |Strip(s)| <= k < |s| ensures IsSpace(s[k]) {
      assert s[k] == t[k - i];
    }
  }

  lemma {:induction false} TrimLeftOfSpaces(a: string, t: string)
    requires AllSpace(a)
    requires t == [] || !IsSpace(t[0])
    ensures TrimLeft(a + t) == t
    decreases |a|
  {
    if a != [] {
      assert (a + t)[1..] == a[1..] + t;
      TrimLeftOfSpaces(a[1..], t);
    } else {
      assert a + t == t;
    }
  }

  lemma {:induction false} TrimRightOfSpaces(m: string, b: string)
    requires AllSpace(b)
    requires m == [] || !IsSpace(m[|m| - 1])
    ensures TrimRight(m + b) == m
    decreases |b|
  {
    if b != [] {
      assert (m + b)[..|m + b| - 1] == m + b[..|b| - 1];
      TrimRightOfSpaces(m, b[..|b| - 1]);
    } else {
      assert m + b == m;
    }
  }

  /** `strip()` is determined by its result's shape: whatever whitespace
      surrounds a trimmed middle part, the middle part is what is left. */
  lemma StripUnique(a: string, m: string, b: string)
    requires AllSpace(a) && AllSpace(b) && Trimmed(m)
    ensures Strip(a + m + b) == m
  {
    if m == [] {
      assert a + m + b == a + b;
      TrimLeftOfSpaces(a + b, []);
      assert a + b + [] == a + b;
    } else {
      assert a + m + b == a + (m + b);
      TrimLeftOfSpaces(a, m + b);
      TrimRightOfSpaces(m, b);
    }
  }

  lemma {:induction false} FirstLineUpTo(s: string, rest: string)
    requires '\n' !in s
    requires rest == [] || rest[0] == '\n'
    ensures FirstLine(s + rest) == s
    decreases |s|
  {
    if s == [] {
      assert s + rest == rest;
    } else {
      assert (s + rest)[1..] == s[1..] + rest;
      FirstLineUpTo(s[1..], rest);
    }
  }
}
