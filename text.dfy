/** The string primitives the screens and the search route rely on: JavaScript's `trim`,
    `toLowerCase`, `includes`, `split` and `padStart`, `String(n)`, and Python's `str.split()`
    and slicing. Strings are sequences of Unicode scalar values. */
module Text {
  import opened Wrappers

  // ---------------------------------------------------------------------------------------
  // Whitespace

  /** ECMAScript WhiteSpace and LineTerminator code points: what `String.prototype.trim` strips. */
  predicate IsJsSpace(c: char) {
    c == ' ' || c == '\t' || c == '\n' || c == '\U{B}' || c == '\U{C}' || c == '\r'
    || c == '\U{A0}' || c == '\U{1680}' || ('\U{2000}' <= c <= '\U{200A}')
    || c == '\U{2028}' || c == '\U{2029}' || c == '\U{202F}' || c == '\U{205F}'
    || c == '\U{3000}' || c == '\U{FEFF}'
  }

  /** Python's `str.isspace`: the separators `str.split()` with no argument splits on. */
  predicate IsPySpace(c: char) {
    ('\t' <= c <= '\r') || ('\U{1C}' <= c <= ' ') || c == '\U{85}' || c == '\U{A0}'
    || c == '\U{1680}' || ('\U{2000}' <= c <= '\U{200A}') || c == '\U{2028}' || c == '\U{2029}'
    || c == '\U{202F}' || c == '\U{205F}' || c == '\U{3000}'
  }

  /** Every character is whitespace (the empty string included). */
  predicate IsBlank(s: string) {
    forall i :: 0 <= i < |s| ==> IsJsSpace(s[i])
  }

  function TrimStart(s: string): (r: string)
    ensures r == "" || !IsJsSpace(r[0])
    decreases |s|
  {
    if |s| > 0 && IsJsSpace(s[0]) then TrimStart(s[1..]) else s
  }

  function TrimEnd(s: string): (r: string)
    decreases |s|
  {
    if |s| > 0 && IsJsSpace(s[|s| - 1]) then TrimEnd(s[..|s| - 1]) else s
  }

  /** `s.trim()` */
  function Trim(s: string): string {
    TrimEnd(TrimStart(s))
  }

  lemma {:induction false} TrimStartEmpty(s: string)
    ensures TrimStart(s) == "" <==> IsBlank(s)
    decreases |s|
  {
    if |s| > 0 && IsJsSpace(s[0]) {
      TrimStartEmpty(s[1..]);
      assert IsBlank(s) <==> IsBlank(s[1..]) by {
        if IsBlank(s[1..]) {
          forall i | 0 <= i < |s| ensures IsJsSpace(s[i]) {
            if i > 0 { assert s[i] == s[1..][i - 1]; }
          }
        }
      }
    }
  }

  lemma {:induction false} TrimEndNonEmpty(s: string)
    requires s != "" && !IsJsSpace(s[0])
    ensures TrimEnd(s) != ""
    decreases |s|
  {
    if IsJsSpace(s[|s| - 1]) {
      TrimEndNonEmpty(s[..|s| - 1]);
    }
  }

  /** Trimming leaves nothing exactly when the text is all whitespace; this is the screens'
      test for blank input. */
  lemma TrimEmptyIff(s: string)
    ensures Trim(s) == "" <==> IsBlank(s)
  {
    TrimStartEmpty(s);
    var t := TrimStart(s);
    if t != "" {
      assert !IsJsSpace(t[0]);
      TrimEndNonEmpty(t);
    }
  }

  // ---------------------------------------------------------------------------------------
  // Case

  /** `toLowerCase` on one character, restricted to the ASCII letters. */
  function LowerChar(c: char): char {
    if 'A' <= c <= 'Z' then (c as int + 32) as char else c
  }

  function Lower(s: string): (r: string)
    ensures |r| == |s|
    ensures forall i :: 0 <= i < |s| ==> r[i] == LowerChar(s[i])
  {
    seq(|s|, i requires 0 <= i < |s| => LowerChar(s[i]))
  }

  /** Lowercasing twice is lowercasing once. */
  lemma LowerIdempotent(s: string)
    ensures Lower(Lower(s)) == Lower(s)
  {
    assert forall i :: 0 <= i < |s| ==> LowerChar(LowerChar(s[i])) == LowerChar(s[i]);
  }

  // ---------------------------------------------------------------------------------------
  // Substrings

  /** `t` occurs in `s` starting at index `i`. */
  predicate OccursAt(s: string, t: string, i: int) {
    0 <= i && i + |t| <= |s| && s[i..i + |t|] == t
  }

  /** The first occurrence of `t` in `s` at or after index `k`. */
  function IndexFrom(s: string, t: string, k: nat): (r: Option<nat>)
    requires k <= |s|
    ensures r.Some? ==> k <= r.value && OccursAt(s, t, r.value)
    ensures r.Some? ==> forall j :: k <= j < r.value ==> !OccursAt(s, t, j)
    ensures r.None? ==> forall j :: k <= j ==> !OccursAt(s, t, j)
    decreases |s| - k
  {
    if OccursAt(s, t, k) then Some(k)
    else if k + |t| >= |s| then None
    else IndexFrom(s, t, k + 1)
  }

  /** `s.indexOf(t)`, with `None` for -1. */
  function IndexOf(s: string, t: string): Option<nat> {
    IndexFrom(s, t, 0)
  }

  /** `s.includes(t)` */
  function Contains(s: string, t: string): (b: bool)
    ensures b <==> exists i :: OccursAt(s, t, i)
  {
    IndexOf(s, t).Some?
  }

  /** Any of the words occurs in `s`. */
  predicate ContainsAny(s: string, words: seq<string>) {
    exists k :: 0 <= k < |words| && Contains(s, words[k])
  }

  /** A text that holds `t` also holds every text `t` holds. */
  lemma ContainsTransitive(s: string, t: string, u: string)
    requires Contains(s, t) && Contains(t, u)
    ensures Contains(s, u)
  {
    var i :| OccursAt(s, t, i);
    var j :| OccursAt(t, u, j);
    forall k | 0 <= k < |u| ensures s[i + j + k] == u[k] {
      assert u[k] == t[j..j + |u|][k] == t[j + k];
      assert t[j + k] == s[i..i + |t|][j + k] == s[i + j + k];
    }
    assert s[i + j..i + j + |u|] == u;
    assert OccursAt(s, u, i + j);
  }

  // ---------------------------------------------------------------------------------------
  // split and join on a separator string

  /** `s.split(sep)` for a non-empty separator string. */
  function Split(s: string, sep: string): (parts: seq<string>)
    requires |sep| > 0
    ensures |parts| >= 1
    decreases |s|
  {
    match IndexOf(s, sep)
    case None => [s]
    case Some(i) => [s[..i]] + Split(s[i + |sep|..], sep)
  }

  /** `parts.join(sep)` */
  function Join(parts: seq<string>, sep: string): string
    decreases |parts|
  {
    if |parts| == 0 then ""
    else if |parts| == 1 then parts[0]
    else parts[0] + sep + Join(parts[1..], sep)
  }

  lemma JoinCons(head: string, tail: seq<string>, sep: string)
    requires |tail| >= 1
    ensures Join([head] + tail, sep) == head + sep + Join(tail, sep)
  {
    assert ([head] + tail)[1..] == tail;
  }

  /** Every part can be found in the joined text. */
  lemma {:induction false} JoinHoldsParts(parts: seq<string>, sep: string)
    ensures forall k :: 0 <= k < |parts| ==> Contains(Join(parts, sep), parts[k])
    decreases |parts|
  {
    if |parts| >= 1 {
      var s := Join(parts, sep);
      assert OccursAt(s, parts[0], 0) by {
        if |parts| > 1 {
          assert s[..|parts[0]|] == parts[0];
        }
      }
      if |parts| > 1 {
        var rest := Join(parts[1..], sep);
        JoinHoldsParts(parts[1..], sep);
        assert s == (parts[0] + sep) + rest;
        assert OccursAt(s, rest, |parts[0] + sep|);
        forall k | 1 <= k < |parts| ensures Contains(s, parts[k]) {
          assert parts[k] == parts[1..][k - 1];
          ContainsTransitive(s, rest, parts[k]);
        }
      }
    }
  }

  lemma ReassembleAt(s: string, sep: string, i: nat)
    requires OccursAt(s, sep, i)
    ensures s[..i] + sep + s[i + |sep|..] == s
  {
    assert s[i..i + |sep|] == sep;
    assert s[i..] == s[i..i + |sep|] + s[i + |sep|..];
    assert s == s[..i] + s[i..];
  }

  /** Joining the pieces of a split with the same separator gives back the text. */
  lemma {:induction false} JoinSplit(s: string, sep: string)
    requires |sep| > 0
    ensures Join(Split(s, sep), sep) == s
    decreases |s|
  {
    match IndexOf(s, sep)
    case None =>
    case Some(i) =>
      var rest := s[i + |sep|..];
      JoinSplit(rest, sep);
      var tail := Split(rest, sep);
      assert Split(s, sep) == [s[..i]] + tail;
      JoinCons(s[..i], tail, sep);
      ReassembleAt(s, sep, i);
  }

  /** No piece of a split holds the separator. */
  lemma {:induction false} SplitPiecesAvoidSep(s: string, sep: string)
    requires |sep| > 0
    ensures forall k :: 0 <= k < |Split(s, sep)| ==> !Contains(Split(s, sep)[k], sep)
    decreases |s|
  {
    match IndexOf(s, sep)
    case None =>
    case Some(i) =>
      var rest := s[i + |sep|..];
      SplitPiecesAvoidSep(rest, sep);
      var head := s[..i];
      forall j | OccursAt(head, sep, j) ensures false {
        assert s[j..j + |sep|] == head[j..j + |sep|];
        assert OccursAt(s, sep, j);
      }
      assert Split(s, sep) == [head] + Split(rest, sep);
  }

  /** Splitting `p + sep + rest` when `p` has no space: with a separator that starts with a
      space, no occurrence can begin inside `p`, so `p` is the first piece and the rest is
      split on its own. */
  lemma SplitFirstPiece(p: string, sep: string, rest: string)
    requires |sep| > 0 && sep[0] == ' '
    requires forall i :: 0 <= i < |p| ==> p[i] != ' '
    ensures Split(p + sep + rest, sep) == [p] + Split(rest, sep)
  {
    var s := p + sep + rest;
    forall j | 0 <= j < |p| ensures !OccursAt(s, sep, j) {
      assert s[j] == p[j];
    }
    assert s[|p|..|p| + |sep|] == sep;
    assert OccursAt(s, sep, |p|);
    assert IndexOf(s, sep) == Some(|p|);
    assert s[..|p|] == p;
    assert s[|p| + |sep|..] == rest;
  }

  /** A text without the separator splits into itself alone. */
  lemma SplitWithoutSep(s: string, sep: string)
    requires |sep| > 0 && !Contains(s, sep)
    ensures Split(s, sep) == [s]
  {
  }

  // ---------------------------------------------------------------------------------------
  // Python's str.split() with no argument

  /** The length of the run of non-space characters at the front of `s`. */
  function WordLength(s: string): (n: nat)
    ensures n <= |s|
    ensures forall i :: 0 <= i < n ==> !IsPySpace(s[i])
    ensures n < |s| ==> IsPySpace(s[n])
    decreases |s|
  {
    if |s| == 0 || IsPySpace(s[0]) then 0 else 1 + WordLength(s[1..])
  }

  /** `s.split()`: the maximal runs of non-whitespace characters, in order. */
  function Tokens(s: string): (r: seq<string>)
    ensures forall k :: 0 <= k < |r| ==> |r[k]| > 0
    ensures forall k, i :: 0 <= k < |r| && 0 <= i < |r[k]| ==> !IsPySpace(r[k][i])
    decreases |s|
  {
    if |s| == 0 then []
    else if IsPySpace(s[0]) then Tokens(s[1..])
    else
      var n := WordLength(s);
      [s[..n]] + Tokens(s[n..])
  }

  /** The characters of `s` that are not whitespace, in order. */
  function NonSpace(s: string): string
    decreases |s|
  {
    if |s| == 0 then "" else (if IsPySpace(s[0]) then "" else [s[0]]) + NonSpace(s[1..])
  }

  function Concat(parts: seq<string>): string
    decreases |parts|
  {
    if |parts| == 0 then "" else parts[0] + Concat(parts[1..])
  }

  lemma {:induction false} NonSpaceOfWord(s: string, n: nat)
    requires n <= |s|
    requires forall i :: 0 <= i < n ==> !IsPySpace(s[i])
    ensures NonSpace(s) == s[..n] + NonSpace(s[n..])
    decreases n
  {
    if n > 0 {
      NonSpaceOfWord(s[1..], n - 1);
      assert s[1..][n - 1..] == s[n..];
      assert s[..n] == [s[0]] + s[1..][..n - 1];
    }
  }

  /** Tokenising loses only the whitespace: the tokens, run together, are the text without it. */
  lemma {:induction false} TokensKeepText(s: string)
    ensures Concat(Tokens(s)) == NonSpace(s)
    decreases |s|
  {
    if |s| == 0 {
    } else if IsPySpace(s[0]) {
      TokensKeepText(s[1..]);
    } else {
      var n := WordLength(s);
      TokensKeepText(s[n..]);
      NonSpaceOfWord(s, n);
      var rest := Tokens(s[n..]);
      assert ([s[..n]] + rest)[1..] == rest;
    }
  }

  /** The query has no token exactly when it is all whitespace. */
  lemma {:induction false} TokensEmptyIff(s: string)
    ensures Tokens(s) == [] <==> forall i :: 0 <= i < |s| ==> IsPySpace(s[i])
    decreases |s|
  {
    if |s| > 0 && IsPySpace(s[0]) {
      TokensEmptyIff(s[1..]);
      if forall i :: 0 <= i < |s[1..]| ==> IsPySpace(s[1..][i]) {
        forall i | 0 <= i < |s| ensures IsPySpace(s[i]) {
          if i > 0 { assert s[i] == s[1..][i - 1]; }
        }
      }
    }
  }

  // ---------------------------------------------------------------------------------------
  // Decimal numerals and padding

  predicate IsDigit(c: char) {
    '0' <= c <= '9'
  }

  predicate AllDigits(s: string) {
    forall i :: 0 <= i < |s| ==> IsDigit(s[i])
  }

  function DigitChar(d: nat): (c: char)
    requires d < 10
    ensures IsDigit(c)
  {
    ('0' as int + d) as char
  }

  function DigitValue(c: char): (d: nat)
    requires IsDigit(c)
    ensures d < 10
  {
    c as int - '0' as int
  }

  /** `String(n)` for a natural number: its decimal numeral, without leading zeros. */
  function DecimalString(n: nat): (r: string)
    ensures |r| > 0 && AllDigits(r)
    ensures r[0] == '0' ==> n == 0
    decreases n
  {
    if n < 10 then [DigitChar(n)] else DecimalString(n / 10) + [DigitChar(n % 10)]
  }

  /** The value of a string of decimal digits (leading zeros allowed). */
  function ParseDecimal(s: string): nat
    requires AllDigits(s)
    decreases |s|
  {
    if |s| == 0 then 0 else 10 * ParseDecimal(s[..|s| - 1]) + DigitValue(s[|s| - 1])
  }

  /** Reading back a rendered number gives the number. */
  lemma {:induction false} ParseDecimalString(n: nat)
    ensures ParseDecimal(DecimalString(n)) == n
    decreases n
  {
    if n >= 10 {
      ParseDecimalString(n / 10);
      var s := DecimalString(n);
      assert s[..|s| - 1] == DecimalString(n / 10);
    }
  }

  /** Numbers below 1000 have at most three digits, the others at least four. */
  lemma {:induction false} DecimalStringLength(n: nat)
    ensures |DecimalString(n)| <= 3 <==> n < 1000
    decreases n
  {
    if n >= 10 {
      DecimalStringLength(n / 10);
      if n / 10 >= 10 {
        DecimalStringLength(n / 100);
        assert |DecimalString(n / 10)| == |DecimalString(n / 100)| + 1;
      }
    }
  }

  /** Leading zeros do not change the value. */
  lemma {:induction false} ParseDecimalLeadingZeros(z: string, s: string)
    requires forall i :: 0 <= i < |z| ==> z[i] == '0'
    requires AllDigits(s)
    ensures AllDigits(z + s) && ParseDecimal(z + s) == ParseDecimal(s)
    decreases |s|
  {
    if |s| == 0 {
      assert z + s == z;
      ZerosParseToZero(z);
    } else {
      ParseDecimalLeadingZeros(z, s[..|s| - 1]);
      assert (z + s)[..|z + s| - 1] == z + s[..|s| - 1];
    }
  }

  lemma {:induction false} ZerosParseToZero(z: string)
    requires forall i :: 0 <= i < |z| ==> z[i] == '0'
    ensures AllDigits(z) && ParseDecimal(z) == 0
    decreases |z|
  {
    if |z| > 0 {
      ZerosParseToZero(z[..|z| - 1]);
    }
  }

  /** `s.padStart(width, fill)` for a one-character fill string. */
  function PadStart(s: string, width: nat, fill: char): (r: string)
    ensures |r| == if |s| >= width then |s| else width
    ensures r[|r| - |s|..] == s
    ensures forall i :: 0 <= i < |r| - |s| ==> r[i] == fill
  {
    if |s| >= width then s else seq(width - |s|, _ => fill) + s
  }
}
