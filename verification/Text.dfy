/** Strings as the relay compares them: code-point order, prefixes, hexadecimal names. */
module Text {

  datatype Option<+T> = None | Some(value: T)

  /** The last code point, which the relay appends to a prefix to close its search range. */
  const LAST_CODE_POINT: char := '\U{10FFFF}'

  function Max(a: int, b: int): int {
    if a > b then a else b
  }

  function Min(a: int, b: int): int {
    if a < b then a else b
  }

  /** Strict lexicographic order by code point: SQLite's BINARY collation on UTF-8 text. */
  predicate Less(v: string, w: string) {
    if w == [] then false
    else if v == [] then true
    else v[0] < w[0] || (v[0] == w[0] && Less(v[1..], w[1..]))
  }

  lemma {:induction false} LessIrreflexive(v: string)
    ensures !Less(v, v)
  {
    if v != [] {
      LessIrreflexive(v[1..]);
    }
  }

  lemma {:induction false} LessTransitive(u: string, v: string, w: string)
    requires Less(u, v) && Less(v, w)
    ensures Less(u, w)
  {
    if u != [] && u[0] == v[0] == w[0] {
      LessTransitive(u[1..], v[1..], w[1..]);
    }
  }

  lemma {:induction false} LessTotal(v: string, w: string)
    ensures Less(v, w) || v == w || Less(w, v)
  {
    if v != [] && w != [] && v[0] == w[0] {
      LessTotal(v[1..], w[1..]);
      assert v == [v[0]] + v[1..] && w == [w[0]] + w[1..];
    }
  }

  predicate IsLowerHex(s: string, length: nat) {
    |s| == length && forall i :: 0 <= i < |s| ==> s[i] in "0123456789abcdef"
  }

  /** The half-open range test of the compiled query: p <= v < p + U+10FFFF. */
  predicate InPrefixRange(p: string, v: string) {
    !Less(v, p) && Less(v, p + [LAST_CODE_POINT])
  }

  /** For every pair of strings, the range test is the prefix test, except that it leaves out the
      values that carry the last code point right after the prefix. */
  lemma {:induction false} PrefixRange(p: string, v: string)
    ensures InPrefixRange(p, v) <==> p <= v && (|v| > |p| ==> v[|p|] != LAST_CODE_POINT)
  {
    if p == [] {
      assert p + [LAST_CODE_POINT] == [LAST_CODE_POINT];
      if v != [] {
        assert v[0] < LAST_CODE_POINT || v[0] == LAST_CODE_POINT;
        assert !Less(v[1..], [LAST_CODE_POINT][1..]);
        assert Less(v, [LAST_CODE_POINT]) == (v[0] < LAST_CODE_POINT);
      }
    } else if v != [] {
      assert (p + [LAST_CODE_POINT])[1..] == p[1..] + [LAST_CODE_POINT];
      if v[0] == p[0] {
        PrefixRange(p[1..], v[1..]);
        assert p <= v <==> p[1..] <= v[1..] by {
          assert p == [p[0]] + p[1..] && v == [v[0]] + v[1..];
        }
      }
    }
  }

  /** Decimal rendering of an integer (Python's str). */
  function Decimal(n: int): string
    decreases if n < 0 then 1 - n else n
  {
    if n < 0 then "-" + Decimal(-n)
    else if n < 10 then ["0123456789"[n]]
    else Decimal(n / 10) + ["0123456789"[n % 10]]
  }

  /** Bytes that UTF-8 uses for a string. */
  function Utf8Length(s: string): nat {
    if s == [] then 0
    else
      var code := s[0] as int;
      (if code < 0x80 then 1 else if code < 0x800 then 2 else if code < 0x10000 then 3 else 4) + Utf8Length(s[1..])
  }

  /** A text takes as many bytes as its parts. */
  lemma {:induction false} Utf8LengthAdds(s: string, t: string)
    ensures Utf8Length(s + t) == Utf8Length(s) + Utf8Length(t)
  {
    if s == [] {
      assert s + t == t;
    } else {
      Utf8LengthAdds(s[1..], t);
      assert (s + t)[1..] == s[1..] + t;
    }
  }

  /** A character takes one to four bytes, by the RFC 3629 ranges. */
  lemma Utf8Widths(c: char)
    ensures Utf8Length([c]) == 1 <==> c <= '\U{7F}'
    ensures Utf8Length([c]) == 2 <==> '\U{80}' <= c <= '\U{7FF}'
    ensures Utf8Length([c]) == 3 <==> '\U{800}' <= c <= '\U{FFFF}'
    ensures Utf8Length([c]) == 4 <==> '\U{10000}' <= c
  {
    assert Utf8Length([]) == 0;
  }

  /** The characters Python's strip removes. */
  predicate IsSpace(c: char) {
    var code := c as int;
    9 <= code <= 13 || 28 <= code <= 32 || code == 0x85 || code == 0xA0 || code == 0x1680
    || 0x2000 <= code <= 0x200A || code == 0x2028 || code == 0x2029 || code == 0x202F || code == 0x205F
      || code == 0x3000
  }

  function Strip(s: string): string
    decreases |s|
  {
    if s == [] then []
    else if IsSpace(s[0]) then Strip(s[1..])
    else if IsSpace(s[|s| - 1]) then Strip(s[..|s| - 1])
    else s
  }

  /** Stripping leaves the stretch between the first and the last character that is no space, or nothing. */
  lemma {:induction false} StripTrims(s: string) returns (i: nat, j: nat)
    ensures i <= j <= |s| && Strip(s) == s[i..j]
    ensures forall x :: (0 <= x < i || j <= x < |s|) ==> IsSpace(s[x])
    ensures i < j ==> !IsSpace(s[i]) && !IsSpace(s[j - 1])
    decreases |s|
  {
    hide IsSpace;
    i, j := 0, |s|;
    if s != [] && IsSpace(s[0]) {
      i, j := StripTrims(s[1..]);
      assert s[1..][i..j] == s[i + 1..j + 1];
      assert forall x :: 0 <= x < |s| - 1 ==> s[1..][x] == s[x + 1];
      forall x | 0 <= x < i + 1 || j + 1 <= x < |s| ensures IsSpace(s[x]) {
        assert x > 0 ==> IsSpace(s[1..][x - 1]);
      }
      i, j := i + 1, j + 1;
    } else if s != [] && IsSpace(s[|s| - 1]) {
      i, j := StripTrims(s[..|s| - 1]);
    }
  }

  /** The characters at which Python's splitlines breaks a text. */
  predicate IsLineBreak(c: char) {
    var code := c as int;
    10 <= code <= 13 || 28 <= code <= 30 || code == 0x85 || code == 0x2028 || code == 0x2029
  }

  function FirstBreak(s: string): (n: nat)
    ensures n <= |s|
    ensures n < |s| ==> IsLineBreak(s[n])
    ensures forall i :: 0 <= i < n ==> !IsLineBreak(s[i])
  {
    if s == [] || IsLineBreak(s[0]) then 0 else 1 + FirstBreak(s[1..])
  }

  /** The lines of a text; a carriage return and line feed pair leaves an empty line between them. */
  function Lines(s: string): seq<string>
    decreases |s|
  {
    var n := FirstBreak(s);
    if n == |s| then [s] else [s[..n]] + Lines(s[n + 1..])
  }

  /** The characters i to j of a text are one of its lines: no break inside, and one or an end of the text on
      either side. */
  predicate IsLineAt(s: string, i: nat, j: nat) {
    && i <= j <= |s|
    && (forall x :: i <= x < j ==> !IsLineBreak(s[x]))
    && (i == 0 || IsLineBreak(s[i - 1])) && (j == |s| || IsLineBreak(s[j]))
  }

  lemma StretchShifts(s: string, n: nat, i: nat, j: nat)
    requires n < |s| && IsLineBreak(s[n])
    ensures IsLineAt(s[n + 1..], i, j) <==> IsLineAt(s, n + 1 + i, n + 1 + j)
    ensures IsLineAt(s[n + 1..], i, j) ==> s[n + 1..][i..j] == s[n + 1 + i..n + 1 + j]
  {
    hide IsLineBreak;
    var rest := s[n + 1..];
    assert forall x :: 0 <= x < |rest| ==> rest[x] == s[n + 1 + x];
    if IsLineAt(s, n + 1 + i, n + 1 + j) {
      forall x | i <= x < j ensures !IsLineBreak(rest[x]) {
        assert !IsLineBreak(s[n + 1 + x]);
      }
    }
  }

  lemma FirstLine(s: string)
    ensures IsLineAt(s, 0, FirstBreak(s)) && s[0..FirstBreak(s)] == s[..FirstBreak(s)]
    ensures forall line :: line in Lines(s) <==>
      line == s[..FirstBreak(s)] || (FirstBreak(s) < |s| && line in Lines(s[FirstBreak(s) + 1..]))
  {
    hide IsLineBreak;
    if FirstBreak(s) == |s| {
      assert s[..|s|] == s;
    }
  }

  /** The lines of a text are exactly its stretches between breaks. */
  lemma {:induction false} LineIsStretch(s: string, line: string) returns (i: nat, j: nat)
    requires line in Lines(s)
    ensures IsLineAt(s, i, j) && line == s[i..j]
    decreases |s|
  {
    hide IsLineBreak, Lines, IsLineAt;
    FirstLine(s);
    var n := FirstBreak(s);
    if n < |s| && line in Lines(s[n + 1..]) {
      i, j := LineIsStretch(s[n + 1..], line);
      StretchShifts(s, n, i, j);
      i, j := n + 1 + i, n + 1 + j;
    } else {
      i, j := 0, n;
    }
  }

  lemma {:induction false} StretchIsLine(s: string, i: nat, j: nat)
    requires IsLineAt(s, i, j)
    ensures s[i..j] in Lines(s)
    decreases |s|
  {
    hide IsLineBreak, Lines;
    FirstLine(s);
    var n := FirstBreak(s);
    if i <= n {
      assert i == 0 && j == n;
    } else {
      StretchShifts(s, n, i - n - 1, j - n - 1);
      StretchIsLine(s[n + 1..], i - n - 1, j - n - 1);
    }
  }
}
