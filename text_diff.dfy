/** The diff checker of test.ts: both texts are trimmed, then walked in
    lockstep; the first divergence (a differing character, or one text ending
    before the other) is reported together with a 1-based line:column
    position counted over the first argument. */
module TextDiff {
  import opened Wrappers

  // ---------------------------------------------------------------------
  // Trimming (String.prototype.trim)
  // ---------------------------------------------------------------------

  /** The characters JavaScript's `trim` removes: WhiteSpace (TAB, VT, FF,
      ZWNBSP and every Unicode "Zs" space) and LineTerminator (LF, CR, LS, PS). */
  predicate IsWhitespace(c: char) {
    || c == '\t' || c == '\n' || c == '\U{B}' || c == '\U{C}' || c == '\r'
    || c == ' ' || c == '\U{A0}' || c == '\U{1680}'
    || ('\U{2000}' <= c <= '\U{200A}')
    || c == '\U{2028}' || c == '\U{2029}' || c == '\U{202F}' || c == '\U{205F}'
    || c == '\U{3000}' || c == '\U{FEFF}'
  }

  predicate AllWhitespace(s: string) {
    forall k :: 0 <= k < |s| ==> IsWhitespace(s[k])
  }

  /** `s` without its leading whitespace: a suffix of `s` that starts with a
      non-whitespace character, all of whose dropped characters are whitespace. */
  function TrimStart(s: string): (r: string)
    ensures |r| <= |s| && r == s[|s| - |r|..]
    ensures r == [] || !IsWhitespace(r[0])
    ensures AllWhitespace(s[..|s| - |r|])
  {
    if s != [] && IsWhitespace(s[0]) then TrimStart(s[1..]) else s
  }

  /** `s` without its trailing whitespace: a prefix of `s` that ends with a
      non-whitespace character, all of whose dropped characters are whitespace. */
  function TrimEnd(s: string): (r: string)
    ensures |r| <= |s| && r == s[..|r|]
    ensures r == [] || !IsWhitespace(r[|r| - 1])
    ensures AllWhitespace(s[|r|..])
  {
    if s != [] && IsWhitespace(s[|s| - 1]) then TrimEnd(s[..|s| - 1]) else s
  }

  function Trim(s: string): (r: string)
    ensures |r| <= |s|
    ensures r == [] || (!IsWhitespace(r[0]) && !IsWhitespace(r[|r| - 1]))
  {
    TrimEnd(TrimStart(s))
  }

  /** Trim cuts `s` into a whitespace prefix, the result, and a whitespace suffix. */
  lemma TrimSplits(s: string) returns (a: nat, b: nat)
    ensures a <= b <= |s|
    ensures Trim(s) == s[a..b]
    ensures AllWhitespace(s[..a]) && AllWhitespace(s[b..])
  {
    var t := TrimStart(s);
    a := |s| - |t|;
    b := a + |Trim(s)|;
    assert t == s[a..];
    assert Trim(s) == t[..|Trim(s)|];
    assert t[|Trim(s)|..] == s[b..];
  }

  lemma {:induction false} TrimStartSkips(p: string, t: string)
    requires AllWhitespace(p)
    requires t == [] || !IsWhitespace(t[0])
    ensures TrimStart(p + t) == t
  {
    if p != [] {
      assert (p + t)[1..] == p[1..] + t;
      TrimStartSkips(p[1..], t);
    } else {
      assert p + t == t;
    }
  }

  lemma {:induction false} TrimEndSkips(t: string, q: string)
    requires AllWhitespace(q)
    requires t == [] || !IsWhitespace(t[|t| - 1])
    ensures TrimEnd(t + q) == t
  {
    if q != [] {
      assert (t + q)[..|t + q| - 1] == t + q[..|q| - 1];
      TrimEndSkips(t, q[..|q| - 1]);
    } else {
      assert t + q == t;
    }
  }

  /** Reference characterisation of trim: whatever whitespace surrounds a text
      that neither starts nor ends with whitespace, trim returns that text. */
  lemma TrimUnique(p: string, m: string, q: string)
    requires AllWhitespace(p) && AllWhitespace(q)
    requires m == [] || (!IsWhitespace(m[0]) && !IsWhitespace(m[|m| - 1]))
    ensures Trim(p + m + q) == m
  {
    if m == [] {
      assert p + m + q == (p + q) + [];
      assert AllWhitespace(p + q);
      TrimStartSkips(p + q, []);
    } else {
      assert p + m + q == p + (m + q);
      TrimStartSkips(p, m + q);
      TrimEndSkips(m, q);
    }
  }

  lemma TrimIdempotent(s: string)
    ensures Trim(Trim(s)) == Trim(s)
  {
    var m := Trim(s);
    TrimUnique([], m, []);
    assert [] + m + [] == m;
  }

  lemma AllWhitespaceAppend(a: string, b: string)
    requires AllWhitespace(a) && AllWhitespace(b)
    ensures AllWhitespace(a + b)
  {
  }

  lemma Regroup(p: string, s: string, q: string, a: nat, b: nat)
    requires a <= b <= |s|
    ensures p + s + q == (p + s[..a]) + s[a..b] + (s[b..] + q)
  {
    assert s == s[..a] + s[a..b] + s[b..];
  }

  /** Surrounding whitespace, such as a trailing newline, never changes the
      trimmed text. */
  lemma TrimIgnoresSurroundingWhitespace(p: string, s: string, q: string)
    requires AllWhitespace(p) && AllWhitespace(q)
    ensures Trim(p + s + q) == Trim(s)
  {
    var a, b := TrimSplits(s);
    AllWhitespaceAppend(p, s[..a]);
    AllWhitespaceAppend(s[b..], q);
    Regroup(p, s, q, a, b);
    TrimUnique(p + s[..a], s[a..b], s[b..] + q);
  }

  // ---------------------------------------------------------------------
  // Positions: 1-based line and column of index i in s
  // ---------------------------------------------------------------------

  /** 1 plus the number of newlines before index `i`. */
  function Line(s: string, i: nat): (ln: nat)
    requires i <= |s|
  {
    1 + multiset(s[..i])['\n']
  }

  /** The index just after the last newline before index `i`, or 0. */
  function LineStart(s: string, i: nat): (k: nat)
    requires i <= |s|
    ensures k <= i
    ensures k == 0 || s[k - 1] == '\n'
    ensures forall j :: k <= j < i ==> s[j] != '\n'
  {
    if i == 0 then 0 else if s[i - 1] == '\n' then i else LineStart(s, i - 1)
  }

  /** 1 plus the number of characters since the last newline before index `i`. */
  function Column(s: string, i: nat): (col: nat)
    requires i <= |s|
  {
    i - LineStart(s, i) + 1
  }

  // ---------------------------------------------------------------------
  // The specification of diff
  // ---------------------------------------------------------------------

  /** What diff reports. The names follow test.ts's messages:
      `EofReadingAnswer` is "Unexpected EOF while reading answer." (the second
      text ended first) and `EofReadingOutput` is "Unexpected EOF while reading
      output." (the first text ended first). */
  datatype Divergence =
    | Mismatch(expected: char, found: char, line: nat, column: nat)
    | EofReadingAnswer
    | EofReadingOutput

  /** Length of the longest common prefix of `x` and `y`. */
  function CommonPrefixLength(x: string, y: string): (n: nat)
    ensures n <= |x| && n <= |y|
    ensures x[..n] == y[..n]
    ensures n < |x| && n < |y| ==> x[n] != y[n]
  {
    if x == [] || y == [] || x[0] != y[0] then 0
    else
      var n := 1 + CommonPrefixLength(x[1..], y[1..]);
      assert x[..n] == [x[0]] + x[1..][..n - 1];
      assert y[..n] == [y[0]] + y[1..][..n - 1];
      n
  }

  /** Any index up to which `x` and `y` agree and at which they cannot agree
      further is the common prefix length. */
  lemma CommonPrefixAt(x: string, y: string, i: nat)
    requires i <= |x| && i <= |y| && x[..i] == y[..i]
    requires i == |x| || i == |y| || x[i] != y[i]
    ensures CommonPrefixLength(x, y) == i
  {
    var n := CommonPrefixLength(x, y);
    assert forall k :: 0 <= k < i ==> x[k] == x[..i][k] == y[..i][k] == y[k];
    assert forall k :: 0 <= k < n ==> x[k] == x[..n][k] == y[..n][k] == y[k];
  }

  /** The result of diff on two already trimmed texts, stated through the
      first index where they differ: a character mismatch (expected: the
      second text's character; found: the first text's; position counted over
      the first text), or one text ending first. */
  function DiffOf(x: string, y: string): Option<Divergence> {
    var n := CommonPrefixLength(x, y);
    if n < |x| && n < |y| then Some(Mismatch(y[n], x[n], Line(x, n), Column(x, n)))
    else if n < |x| then Some(EofReadingAnswer)
    else if n < |y| then Some(EofReadingOutput)
    else None
  }

  /** No divergence exactly when the two texts are equal. */
  lemma DiffNoneIffEqual(x: string, y: string)
    ensures DiffOf(x, y) == None <==> x == y
  {
    if x == y {
      CommonPrefixAt(x, y, |x|);
    } else {
      var n := CommonPrefixLength(x, y);
      assert x[..|x|] == x && y[..|y|] == y;
    }
  }

  /** At the first differing index within both texts diff names the two
      characters and the line:column of that index in the first text. */
  lemma DiffMismatchAt(x: string, y: string, i: nat)
    requires i < |x| && i < |y| && x[..i] == y[..i] && x[i] != y[i]
    ensures DiffOf(x, y) == Some(Mismatch(y[i], x[i], Line(x, i), Column(x, i)))
  {
    CommonPrefixAt(x, y, i);
  }

  /** When the second text is a proper prefix of the first: EOF reading answer. */
  lemma DiffSecondEndsFirst(x: string, y: string)
    requires |y| < |x| && x[..|y|] == y
    ensures DiffOf(x, y) == Some(EofReadingAnswer)
  {
    assert y[..|y|] == y;
    CommonPrefixAt(x, y, |y|);
  }

  /** When the first text is a proper prefix of the second: EOF reading output. */
  lemma DiffFirstEndsFirst(x: string, y: string)
    requires |x| < |y| && y[..|x|] == x
    ensures DiffOf(x, y) == Some(EofReadingOutput)
  {
    assert x[..|x|] == x;
    CommonPrefixAt(x, y, |x|);
  }

  lemma PrefixStep(x: string, y: string, i: nat)
    requires i < |x| && i < |y| && x[..i] == y[..i] && x[i] == y[i]
    ensures x[..i + 1] == y[..i + 1]
  {
    assert x[..i + 1] == x[..i] + [x[i]];
    assert y[..i + 1] == y[..i] + [y[i]];
  }

  /** Moving past index `i` starts a new line on a newline and otherwise
      advances the column. */
  lemma PositionStep(s: string, i: nat)
    requires i < |s|
    ensures Line(s, i + 1) == if s[i] == '\n' then Line(s, i) + 1 else Line(s, i)
    ensures Column(s, i + 1) == if s[i] == '\n' then 1 else Column(s, i) + 1
  {
    assert s[..i + 1] == s[..i] + [s[i]];
  }

  /** diff of a text against itself finds nothing, and whitespace around
      either text (a trailing newline, say) never changes the outcome. */
  lemma DiffIgnoresSurroundingWhitespace(s: string, t: string, p: string, q: string)
    requires AllWhitespace(p) && AllWhitespace(q)
    ensures DiffOf(Trim(s), Trim(s)) == None
    ensures DiffOf(Trim(p + s + q), Trim(t)) == DiffOf(Trim(s), Trim(t))
    ensures DiffOf(Trim(s), Trim(p + t + q)) == DiffOf(Trim(s), Trim(t))
  {
    DiffNoneIffEqual(Trim(s), Trim(s));
    TrimIgnoresSurroundingWhitespace(p, s, q);
    TrimIgnoresSurroundingWhitespace(p, t, q);
  }

  /** Worked example (both texts are already trimmed): "ab\ncd" against
      "ab\nce" differs at line 2, column 2. */
  lemma DiffExampleMismatch()
    ensures DiffOf("ab\ncd", "ab\nce") == Some(Mismatch('e', 'd', 2, 2))
  {
    var x, y := "ab\ncd", "ab\nce";
    assert x[..4] == y[..4];
    assert x[..4] == ['a', 'b'] + ['\n'] + ['c'];
    assert LineStart(x, 4) == 3;
    DiffMismatchAt(x, y, 4);
  }

  /** Worked example: "123" against "1234" ends first, "1234" against "123" second. */
  lemma DiffExampleEof()
    ensures DiffOf("123", "1234") == Some(EofReadingOutput)
    ensures DiffOf("1234", "123") == Some(EofReadingAnswer)
  {
    var a, b := "123", "1234";
    assert b[..3] == a;
    DiffFirstEndsFirst(a, b);
    DiffSecondEndsFirst(b, a);
  }

  // ---------------------------------------------------------------------
  // diff (test.ts, Test.diff)
  // ---------------------------------------------------------------------

  /** Trims both texts, walks them in lockstep keeping the line and column
      of the current index of the first text, and stops at the first
      divergence. */
  method Diff(istr: string, astr: string) returns (r: Option<Divergence>)
    ensures r == DiffOf(Trim(istr), Trim(astr))
    ensures r == None <==> Trim(istr) == Trim(astr)
  {
    var x, y := Trim(istr), Trim(astr);
    DiffNoneIffEqual(x, y);
    var ln, col := 1, 1;
    var i := 0;
    while i < |x|
      invariant i <= |x| && i <= |y|
      invariant x[..i] == y[..i]
      invariant ln == Line(x, i) && col == Column(x, i)
    {
      if i >= |y| {
        CommonPrefixAt(x, y, i);
        return Some(EofReadingAnswer);
      }
      if x[i] != y[i] {
        CommonPrefixAt(x, y, i);
        return Some(Mismatch(y[i], x[i], ln, col));
      }
      PrefixStep(x, y, i);
      PositionStep(x, i);
      if x[i] == '\n' {
        ln, col := ln + 1, 1;
      } else {
        col := col + 1;
      }
      i := i + 1;
    }
    CommonPrefixAt(x, y, i);
    if |x| != |y| {
      return Some(EofReadingOutput);
    }
    return None;
  }

  // ---------------------------------------------------------------------
  // The message text
  // ---------------------------------------------------------------------

  /** Decimal digits of `n`, as a template literal renders a number. */
  function Decimal(n: nat): (s: string)
    ensures |s| >= 1
    ensures forall k :: 0 <= k < |s| ==> '0' <= s[k] <= '9'
  {
    var d := ['0' + (n % 10) as char];
    if n < 10 then d else Decimal(n / 10) + d
  }

  /** The number a string of decimal digits denotes. */
  function DecimalValue(s: string): nat
    requires forall k :: 0 <= k < |s| ==> '0' <= s[k] <= '9'
  {
    if s == [] then 0
    else 10 * DecimalValue(s[..|s| - 1]) + (s[|s| - 1] - '0') as nat
  }

  lemma {:induction false} DecimalRoundTrip(n: nat)
    ensures DecimalValue(Decimal(n)) == n
  {
    var s := Decimal(n);
    if n >= 10 {
      assert s[..|s| - 1] == Decimal(n / 10);
      DecimalRoundTrip(n / 10);
    }
  }

  /** The text diff returns; `escape` is the global percent-encoding function
      applied to one character. Every message is non-empty, so the caller's
      truthiness test on the text is the same as a test for a divergence. */
  function Render(d: Divergence, escape: char -> string): (text: string)
    ensures |text| > 0
  {
    match d
    case Mismatch(e, f, ln, col) =>
      "Expected " + escape(e) + " but found " + escape(f) + " at " + Decimal(ln) + ":" + Decimal(col)
    case EofReadingAnswer => "Unexpected EOF while reading answer."
    case EofReadingOutput => "Unexpected EOF while reading output."
  }
}
