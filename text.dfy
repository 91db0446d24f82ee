/** The JavaScript string operations the pages rely on: `trim`, `trimEnd`,
    `toLowerCase`, `toUpperCase`, `includes`, `split(/\s+/)`,
    `replace(/\D/g, "")` and the decimal rendering of a number. */
module Text {
  import Seqs

  predicate IsDigit(c: char) { '0' <= c <= '9' }

  predicate IsDigits(s: string) { forall i :: 0 <= i < |s| ==> IsDigit(s[i]) }

  /** ECMAScript WhiteSpace and LineTerminator code points: what `trim`
      removes and what the regular-expression class `\s` matches. */
  predicate IsSpace(c: char) {
    c == ' ' || c == '\t' || c == '\n' || c == '\r' || c == '\U{B}' || c == '\U{C}'
    || c == '\U{A0}' || c == '\U{1680}' || ('\U{2000}' <= c <= '\U{200A}')
    || c == '\U{2028}' || c == '\U{2029}' || c == '\U{202F}' || c == '\U{205F}'
    || c == '\U{3000}' || c == '\U{FEFF}'
  }

  predicate NoSpace(s: string) { forall i :: 0 <= i < |s| ==> !IsSpace(s[i]) }

  predicate AllSpace(s: string) { forall i :: 0 <= i < |s| ==> IsSpace(s[i]) }

  // ---------------------------------------------------------------
  // replace(/\D/g, "")
  // ---------------------------------------------------------------

  /** The decimal digits of `s`, in order. */
  function Digits(s: string): (r: string)
    ensures IsDigits(r) && |r| <= |s|
  {
    Seqs.Filter(s, IsDigit)
  }

  /** The last digit of `s` stands at a position after which `s` has no
      digit. */
  lemma {:induction false} LastDigitPosition(s: string)
    requires Digits(s) != []
    ensures exists i ::
              0 <= i < |s| && s[i] == Digits(s)[|Digits(s)| - 1] &&
              forall j :: i < j < |s| ==> !IsDigit(s[j])
  {
    var rest := Digits(s[1..]);
    assert Digits(s) == (if IsDigit(s[0]) then [s[0]] else []) + rest;
    if rest != [] {
      LastDigitPosition(s[1..]);
      var k :| 0 <= k < |s[1..]| && s[1..][k] == rest[|rest| - 1] &&
        forall j :: k < j < |s[1..]| ==> !IsDigit(s[1..][j]);
      forall j | k + 1 < j < |s| ensures !IsDigit(s[j]) {
        assert s[j] == s[1..][j - 1];
      }
      assert s[k + 1] == Digits(s)[|Digits(s)| - 1];
    } else {
      forall j | 0 < j < |s| ensures !IsDigit(s[j]) {
        assert s[j] in s[1..];
        Seqs.FilterMembership(s[1..], IsDigit, s[j]);
      }
      assert s[0] == Digits(s)[|Digits(s)| - 1];
    }
  }

  lemma DigitsOfDigits(s: string)
    requires IsDigits(s)
    ensures Digits(s) == s
  {
    Seqs.FilterAll(s, IsDigit);
  }

  // ---------------------------------------------------------------
  // trimStart / trimEnd / trim
  // ---------------------------------------------------------------

  /** The number of white-space characters `s` starts with. */
  function LeadingSpace(s: string): (n: nat)
    ensures n <= |s| && AllSpace(s[..n])
    ensures n < |s| ==> !IsSpace(s[n])
  {
    if s != [] && IsSpace(s[0]) then
      var m := LeadingSpace(s[1..]);
      m + 1
    else 0
  }

  /** The number of white-space characters `s` ends with. */
  function TrailingSpace(s: string): (n: nat)
    ensures n <= |s| && AllSpace(s[|s| - n..])
    ensures n < |s| ==> !IsSpace(s[|s| - n - 1])
  {
    if s != [] && IsSpace(s[|s| - 1]) then
      var m := TrailingSpace(s[..|s| - 1]);
      m + 1
    else 0
  }

  /** `s.trimStart()`: `s` without its leading white space. */
  function TrimStart(s: string): (r: string)
    ensures |r| <= |s|
    ensures r != [] ==> !IsSpace(r[0])
  {
    s[LeadingSpace(s)..]
  }

  /** `s.trimEnd()`: `s` without its trailing white space. */
  function TrimEnd(s: string): (r: string)
    ensures |r| <= |s|
    ensures r != [] ==> !IsSpace(r[|r| - 1])
  {
    s[..|s| - TrailingSpace(s)]
  }

  /** `s.trim()`. */
  function Trim(s: string): (r: string)
    ensures |r| <= |s|
  {
    TrimEnd(TrimStart(s))
  }

  /** The trimmed string is a contiguous slice of `s` outside of which there
      is only white space. */
  lemma TrimSlice(s: string)
    ensures var r := Trim(s);
      exists i :: 0 <= i <= |s| - |r| && r == s[i..i + |r|] && AllSpace(s[..i]) && AllSpace(s[i + |r|..])
  {
    var i := LeadingSpace(s);
    var r := Trim(s);
    assert i <= |s| - |r| && r == s[i..i + |r|] && AllSpace(s[i + |r|..]) by {
      var t := s[i..];
      var n := TrailingSpace(t);
      assert r == t[..|t| - n];
      assert s[i + |r|..] == t[|t| - n..];
    }
  }

  /** The trimmed string neither starts nor ends with white space. */
  lemma TrimEnds(s: string)
    ensures var r := Trim(s);
      r == [] || (!IsSpace(r[0]) && !IsSpace(r[|r| - 1]))
  {
    var t := TrimStart(s);
    var r := TrimEnd(t);
    if r != [] {
      assert r[0] == t[0];
    }
  }

  /** A string trims to nothing exactly when it is all white space. */
  lemma TrimEmptyIffAllSpace(s: string)
    ensures Trim(s) == [] <==> AllSpace(s)
  {
    var t := TrimStart(s);
    if Trim(s) == [] {
      assert AllSpace(t[0..]);
      assert t == [];
      assert s[..|s|] == s;
    } else {
      assert t[0] == s[|s| - |t|];
      assert !IsSpace(s[|s| - |t|]);
    }
  }

  /** Leading white space is gone after `trimStart`, so a second one is a no-op. */
  lemma TrimStartOfTrimmed(s: string)
    requires s == [] || !IsSpace(s[0])
    ensures TrimStart(s) == s
  {
  }

  /** Trailing white space is gone after `trimEnd`, so a second one is a no-op. */
  lemma TrimEndOfTrimmed(s: string)
    requires s == [] || !IsSpace(s[|s| - 1])
    ensures TrimEnd(s) == s
  {
  }

  /** `trimStart` drops exactly a white-space prefix before a non-space. */
  lemma {:induction false} TrimStartPadded(a: string, y: string)
    requires AllSpace(a) && (y == [] || !IsSpace(y[0]))
    ensures TrimStart(a + y) == y
  {
    if a == [] {
      assert a + y == y;
      TrimStartOfTrimmed(y);
    } else {
      assert (a + y)[1..] == a[1..] + y;
      TrimStartPadded(a[1..], y);
    }
  }

  /** `trimEnd` drops exactly a white-space suffix after a non-space. */
  lemma {:induction false} TrimEndPadded(y: string, b: string)
    requires AllSpace(b) && (y == [] || !IsSpace(y[|y| - 1]))
    ensures TrimEnd(y + b) == y
  {
    if b == [] {
      assert y + b == y;
      TrimEndOfTrimmed(y);
    } else {
      var n := |b| - 1;
      assert (y + b)[..|y + b| - 1] == y + b[..n];
      TrimEndPadded(y, b[..n]);
    }
  }

  /** Trimming a string padded with white space on both sides gives back the
      string, when it neither starts nor ends with white space. */
  lemma TrimPadded(a: string, x: string, b: string)
    requires AllSpace(a) && AllSpace(b)
    requires x != [] && !IsSpace(x[0]) && !IsSpace(x[|x| - 1])
    ensures Trim(a + x + b) == x
  {
    assert a + x + b == a + (x + b);
    TrimStartPadded(a, x + b);
    TrimEndPadded(x, b);
  }

  /** Trimming is idempotent: a trimmed string is left as it is. */
  lemma TrimIdempotent(s: string)
    ensures Trim(Trim(s)) == Trim(s)
  {
    var r := Trim(s);
    TrimStartOfTrimmed(r);
  }

  // ---------------------------------------------------------------
  // toLowerCase / toUpperCase (ASCII letters)
  // ---------------------------------------------------------------

  function LowerChar(c: char): char {
    if 'A' <= c <= 'Z' then (c as int + 32) as char else c
  }

  function UpperChar(c: char): char {
    if 'a' <= c <= 'z' then (c as int - 32) as char else c
  }

  function ToLower(s: string): (r: string)
    ensures |r| == |s|
    ensures forall i :: 0 <= i < |s| ==> r[i] == LowerChar(s[i])
  {
    seq(|s|, i requires 0 <= i < |s| => LowerChar(s[i]))
  }

  function ToUpper(s: string): (r: string)
    ensures |r| == |s|
    ensures forall i :: 0 <= i < |s| ==> r[i] == UpperChar(s[i])
  {
    seq(|s|, i requires 0 <= i < |s| => UpperChar(s[i]))
  }

  /** Upper-casing twice is upper-casing once. */
  lemma ToUpperIdempotent(s: string)
    ensures ToUpper(ToUpper(s)) == ToUpper(s)
  {
  }

  /** Lower-casing twice is lower-casing once. */
  lemma ToLowerIdempotent(s: string)
    ensures ToLower(ToLower(s)) == ToLower(s)
  {
  }

  /** Case folding forgets whether a letter was upper- or lower-case. */
  lemma ToLowerOfToUpper(s: string)
    ensures ToLower(ToUpper(s)) == ToLower(s)
  {
  }

  /** Case mapping never touches white space. */
  lemma LowerCharSpace(c: char)
    ensures IsSpace(LowerChar(c)) <==> IsSpace(c)
  {
  }

  /** Case mapping commutes with `trimStart`. */
  lemma {:induction false} TrimStartToLower(s: string)
    ensures ToLower(TrimStart(s)) == TrimStart(ToLower(s))
  {
    var l := ToLower(s);
    if s != [] {
      LowerCharSpace(s[0]);
      assert l[0] == LowerChar(s[0]);
      if IsSpace(s[0]) {
        assert l[1..] == ToLower(s[1..]);
        TrimStartToLower(s[1..]);
      }
    }
  }

  lemma {:induction false} TrimEndToLower(s: string)
    ensures ToLower(TrimEnd(s)) == TrimEnd(ToLower(s))
  {
    var l := ToLower(s);
    if s != [] {
      LowerCharSpace(s[|s| - 1]);
      assert l[|s| - 1] == LowerChar(s[|s| - 1]);
      if IsSpace(s[|s| - 1]) {
        assert l[..|s| - 1] == ToLower(s[..|s| - 1]);
        TrimEndToLower(s[..|s| - 1]);
      }
    }
  }

  /** `s.toLowerCase().trim()` is `s.trim().toLowerCase()`. */
  lemma TrimToLowerCommute(s: string)
    ensures Trim(ToLower(s)) == ToLower(Trim(s))
  {
    TrimStartToLower(s);
    TrimEndToLower(TrimStart(s));
  }

  // ---------------------------------------------------------------
  // includes
  // ---------------------------------------------------------------

  /** `sub` occurs in `s` starting at index `i`. */
  predicate OccursAt(s: string, sub: string, i: int) {
    0 <= i <= |s| && sub <= s[i..]
  }

  /** `s.includes(sub)`. */
  predicate Contains(s: string, sub: string)
    decreases |s|
  {
    sub <= s || (s != [] && Contains(s[1..], sub))
  }

  /** `includes` means an occurrence at some index, both directions. */
  lemma {:induction false} ContainsIffOccurs(s: string, sub: string)
    ensures Contains(s, sub) <==> exists i :: OccursAt(s, sub, i)
  {
    assert s[0..] == s;
    if sub <= s {
      assert OccursAt(s, sub, 0);
    } else if s != [] {
      ContainsIffOccurs(s[1..], sub);
      if exists i :: OccursAt(s[1..], sub, i) {
        var i :| OccursAt(s[1..], sub, i);
        assert s[1..][i..] == s[i + 1..];
        assert OccursAt(s, sub, i + 1);
      }
      if exists i :: OccursAt(s, sub, i) {
        var i :| OccursAt(s, sub, i);
        assert i != 0;
        assert s[1..][i - 1..] == s[i..];
        assert OccursAt(s[1..], sub, i - 1);
      }
    }
  }

  /** A string without white space contains only strings without white space. */
  lemma ContainsNoSpace(w: string, q: string)
    requires NoSpace(w) && Contains(w, q)
    ensures NoSpace(q)
  {
    ContainsIffOccurs(w, q);
    var i :| OccursAt(w, q, i);
    forall j | 0 <= j < |q| ensures !IsSpace(q[j]) {
      assert q[j] == w[i + j];
    }
  }

  /** Nothing but the empty string occurs in the empty string. */
  lemma ContainsInEmpty(sub: string)
    requires Contains([], sub)
    ensures sub == []
  {
  }

  // ---------------------------------------------------------------
  // split(/\s+/)
  // ---------------------------------------------------------------

  /** Index of the first white-space character of `s`, or `|s|`. */
  function FirstSpace(s: string): (i: nat)
    ensures i <= |s| && NoSpace(s[..i])
    ensures i < |s| ==> IsSpace(s[i])
  {
    if s == [] || IsSpace(s[0]) then 0 else 1 + FirstSpace(s[1..])
  }

  /** Where the second word starts: past the first run of white space. */
  function NextWord(s: string): (n: nat)
    requires FirstSpace(s) < |s|
    ensures FirstSpace(s) < n <= |s|
    ensures n < |s| ==> !IsSpace(s[n])
  {
    var i := FirstSpace(s);
    i + LeadingSpace(s[i..])
  }

  /** `s.split(/\s+/)`: the pieces between maximal runs of white space; a
      leading or trailing run gives an empty first or last piece. */
  function SplitWords(s: string): (words: seq<string>)
    ensures |words| >= 1
    decreases |s|
  {
    var i := FirstSpace(s);
    if i == |s| then [s]
    else [s[..i]] + SplitWords(s[NextWord(s)..])
  }

  /** No word of `s.split(/\s+/)` holds white space. */
  lemma {:induction false} SplitWordsNoSpace(s: string, k: nat)
    requires k < |SplitWords(s)|
    ensures NoSpace(SplitWords(s)[k])
    decreases |s|
  {
    if FirstSpace(s) < |s| && k > 0 {
      SplitWordsNoSpace(s[NextWord(s)..], k - 1);
    }
  }

  /** A word of `s.split(/\s+/)` that contains `q` proves `q` free of white space. */
  lemma SplitWordContainsNoSpace(s: string, q: string, k: nat)
    requires k < |SplitWords(s)| && Contains(SplitWords(s)[k], q)
    ensures NoSpace(q)
  {
    SplitWordsNoSpace(s, k);
    ContainsNoSpace(SplitWords(s)[k], q);
  }

  /** `words.some((w) => w.includes(q))`. */
  predicate SomeWordContains(words: seq<string>, q: string) {
    exists k :: 0 <= k < |words| && Contains(words[k], q)
  }

  /** An occurrence of `sub` inside an occurrence of `w` is an occurrence in `s`. */
  lemma OccursWithin(s: string, w: string, j: int, sub: string, p: int)
    requires OccursAt(s, w, j) && OccursAt(w, sub, p)
    ensures OccursAt(s, sub, j + p)
  {
    forall m | 0 <= m < |sub| ensures s[j + p + m] == sub[m] {
      assert sub[m] == w[p..][m] == w[p + m] == s[j..][p + m];
    }
  }

  /** Every word of `s.split(/\s+/)` occurs in `s`. */
  lemma {:induction false} WordOccurs(s: string, k: nat)
    requires k < |SplitWords(s)|
    ensures exists j :: OccursAt(s, SplitWords(s)[k], j)
    decreases |s|
  {
    var i := FirstSpace(s);
    assert s[0..] == s;
    if i == |s| {
      assert OccursAt(s, SplitWords(s)[k], 0);
    } else if k == 0 {
      assert OccursAt(s, SplitWords(s)[k], 0);
    } else {
      var n := NextWord(s);
      var rest := s[n..];
      WordOccurs(rest, k - 1);
      var w := SplitWords(rest)[k - 1];
      var j :| OccursAt(rest, w, j);
      assert OccursAt(s, rest, n);
      OccursWithin(s, rest, n, w, j);
      LaterWord(s, k - 1);
    }
  }

  /** An occurrence in `s` of a string without white space lies inside one
      of the words of `s.split(/\s+/)`. */
  lemma {:induction false} OccursInWord(s: string, q: string, i: int)
    requires OccursAt(s, q, i) && NoSpace(q)
    ensures SomeWordContains(SplitWords(s), q)
    decreases |s|, 1
  {
    var fs := FirstSpace(s);
    if q == [] {
      assert Contains(SplitWords(s)[0], q);
    } else if fs == |s| {
      ContainsIffOccurs(s, q);
      assert Contains(SplitWords(s)[0], q);
    } else if i + |q| <= fs {
      OccursInFirstWord(s, q, i);
    } else {
      OccursInLaterWord(s, q, i);
    }
  }

  /** An occurrence that reaches past the first white space is in a later word. */
  lemma {:induction false} OccursInLaterWord(s: string, q: string, i: int)
    requires OccursAt(s, q, i) && q != [] && NoSpace(q)
    requires FirstSpace(s) < |s| && FirstSpace(s) < i + |q|
    ensures SomeWordContains(SplitWords(s), q)
    decreases |s|, 0
  {
    var n := NextWord(s);
    OccursPastFirstSpace(s, q, i);
    OccursInWord(s[n..], q, i - n);
    var k :| 0 <= k < |SplitWords(s[n..])| && Contains(SplitWords(s[n..])[k], q);
    LaterWord(s, k);
  }

  /** Past the first white space, the words are those of the rest. */
  lemma LaterWord(s: string, k: int)
    requires FirstSpace(s) < |s| && 0 <= k < |SplitWords(s[NextWord(s)..])|
    ensures k + 1 < |SplitWords(s)| && SplitWords(s)[k + 1] == SplitWords(s[NextWord(s)..])[k]
  {
  }

  /** An occurrence that ends before the first white space is in the first word. */
  lemma OccursInFirstWord(s: string, q: string, i: int)
    requires OccursAt(s, q, i) && i + |q| <= FirstSpace(s) < |s|
    ensures Contains(SplitWords(s)[0], q)
  {
    var w := s[..FirstSpace(s)];
    assert w[i..][..|q|] == s[i..][..|q|];
    assert OccursAt(w, q, i);
    ContainsIffOccurs(w, q);
  }

  /** An occurrence without white space that does not end before the first
      white space starts where a later word does or further on. */
  lemma OccursPastFirstSpace(s: string, q: string, i: int)
    requires OccursAt(s, q, i) && q != [] && NoSpace(q) && FirstSpace(s) < i + |q|
    requires FirstSpace(s) < |s|
    ensures NextWord(s) <= i && OccursAt(s[NextWord(s)..], q, i - NextWord(s))
  {
    var fs := FirstSpace(s);
    var t := s[fs..];
    assert !IsSpace(s[fs + (i - fs)]) by {
      assert s[i] == q[0];
    }
    SpaceRunEnds(t, LeadingSpace(t), i - fs);
    assert s[NextWord(s)..][i - NextWord(s)..] == s[i..];
  }

  /** A character that is not white space lies past a white-space prefix. */
  lemma SpaceRunEnds(t: string, n: nat, m: nat)
    requires n <= |t| && m < |t| && AllSpace(t[..n]) && !IsSpace(t[m])
    ensures n <= m
  {
    forall i | 0 <= i < n ensures IsSpace(t[i]) {
      assert t[..n][i] == t[i];
    }
  }

  /** Some word of `s.split(/\s+/)` contains `q` exactly when `q` has no
      white space and occurs in `s`. */
  lemma SomeWordContainsIff(s: string, q: string)
    ensures SomeWordContains(SplitWords(s), q) <==> NoSpace(q) && Contains(s, q)
  {
    ContainsIffOccurs(s, q);
    if SomeWordContains(SplitWords(s), q) {
      var k :| 0 <= k < |SplitWords(s)| && Contains(SplitWords(s)[k], q);
      var w := SplitWords(s)[k];
      SplitWordContainsNoSpace(s, q, k);
      WordOccurs(s, k);
      var j :| OccursAt(s, w, j);
      ContainsIffOccurs(w, q);
      var p :| OccursAt(w, q, p);
      OccursWithin(s, w, j, q, p);
    }
    if NoSpace(q) && Contains(s, q) {
      var i :| OccursAt(s, q, i);
      OccursInWord(s, q, i);
    }
  }

  /** Lower-casing a string lower-cases each of its occurrences. */
  lemma OccursToLower(s: string, x: string, i: int)
    requires OccursAt(s, x, i)
    ensures OccursAt(ToLower(s), ToLower(x), i)
  {
    assert ToLower(s)[i..][..|x|] == ToLower(x);
  }

  // ---------------------------------------------------------------
  // "*".repeat(n) and Number.prototype.toString()
  // ---------------------------------------------------------------

  function Repeat(c: char, n: nat): (r: string)
    ensures |r| == n && forall i :: 0 <= i < n ==> r[i] == c
  {
    seq(n, _ => c)
  }

  function DigitChar(d: nat): char
    requires d < 10
  {
    ('0' as int + d) as char
  }

  function DigitValue(c: char): nat
    requires IsDigit(c)
  {
    c as int - '0' as int
  }

  /** The decimal rendering of `n`, without leading zeros. */
  function DecimalString(n: nat): (s: string)
    ensures IsDigits(s) && |s| >= 1
    ensures n >= 10 ==> s[0] != '0'
  {
    if n < 10 then [DigitChar(n)] else DecimalString(n / 10) + [DigitChar(n % 10)]
  }

  /** The number a digit string denotes. */
  function DecimalValue(s: string): nat
    requires IsDigits(s)
  {
    if s == [] then 0 else 10 * DecimalValue(s[..|s| - 1]) + DigitValue(s[|s| - 1])
  }

  /** Reading back a rendered number gives the number. */
  lemma {:induction false} DecimalRoundTrip(n: nat)
    ensures DecimalValue(DecimalString(n)) == n
  {
    if n >= 10 {
      var s := DecimalString(n);
      assert s[..|s| - 1] == DecimalString(n / 10);
      DecimalRoundTrip(n / 10);
    }
  }

  /** The rendering has one digit per power of ten below `n`. */
  lemma {:induction false} DecimalLength(n: nat, k: nat)
    requires Pow10(k) <= n < 10 * Pow10(k)
    ensures |DecimalString(n)| == k + 1
  {
    if k > 0 {
      DecimalLength(n / 10, k - 1);
    }
  }

  function Pow10(k: nat): (p: nat)
    ensures p >= 1
  {
    if k == 0 then 1 else 10 * Pow10(k - 1)
  }
}
