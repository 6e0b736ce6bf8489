/** Values and JavaScript string operations shared by every route handler. */
module Common {

  datatype Option<+T> = None | Some(value: T)

  /** Outcome of the single upstream HTTP call a handler makes: a decoded
      body, an error response with its HTTP status, or no response at all
      (network failure or the 10-second timeout). */
  datatype Upstream<+T> = Ok(data: T) | Http(status: int) | Network

  // ---------------------------------------------------------------------
  // Case mapping (String.prototype.toUpperCase / toLowerCase on ASCII)
  // ---------------------------------------------------------------------

  predicate IsLowerAscii(c: char) { 'a' <= c <= 'z' }
  predicate IsUpperAscii(c: char) { 'A' <= c <= 'Z' }

  function UpperChar(c: char): char
  {
    if IsLowerAscii(c) then (c as int - 32) as char else c
  }

  function LowerChar(c: char): char
  {
    if IsUpperAscii(c) then (c as int + 32) as char else c
  }

  function ToUpper(s: string): (r: string)
    ensures |r| == |s|
    ensures forall i :: 0 <= i < |s| ==> r[i] == UpperChar(s[i])
  {
    if s == [] then [] else [UpperChar(s[0])] + ToUpper(s[1..])
  }

  function ToLower(s: string): (r: string)
    ensures |r| == |s|
    ensures forall i :: 0 <= i < |s| ==> r[i] == LowerChar(s[i])
  {
    if s == [] then [] else [LowerChar(s[0])] + ToLower(s[1..])
  }

  /** The case-insensitive equality a `/^x$/i` regular expression performs
      on text without metacharacters. */
  predicate EqualsIgnoreCase(a: string, b: string)
  {
    ToLower(a) == ToLower(b)
  }

  /** Upper-casing is idempotent, so an already normalised key is its own key. */
  lemma UpperIdempotent(s: string)
    ensures ToUpper(ToUpper(s)) == ToUpper(s)
  {
  }

  /** Lower-casing is idempotent. */
  lemma LowerIdempotent(s: string)
    ensures ToLower(ToLower(s)) == ToLower(s)
  {
  }

  /** Two characters have the same upper-case form exactly when they have
      the same lower-case form. */
  lemma CharCasesAgree(a: char, b: char)
    ensures UpperChar(a) == UpperChar(b) <==> LowerChar(a) == LowerChar(b)
  {
  }

  /** Two strings have the same upper-case form exactly when they are equal
      ignoring case: "usd" and "USD" name one currency entry. */
  lemma UpperAgreesWithIgnoreCase(a: string, b: string)
    ensures ToUpper(a) == ToUpper(b) <==> EqualsIgnoreCase(a, b)
  {
    if |a| == |b| {
      forall i | 0 <= i < |a|
        ensures ToUpper(a)[i] == ToUpper(b)[i] <==> ToLower(a)[i] == ToLower(b)[i]
      {
        CharCasesAgree(a[i], b[i]);
      }
      if ToUpper(a) != ToUpper(b) {
        var i :| 0 <= i < |a| && ToUpper(a)[i] != ToUpper(b)[i];
        assert ToLower(a)[i] != ToLower(b)[i];
      } else {
        assert forall i :: 0 <= i < |a| ==> ToLower(a)[i] == ToLower(b)[i];
      }
    }
  }

  /** A string matches its own upper-case form ignoring case. */
  lemma IgnoreCaseOfUpper(s: string)
    ensures EqualsIgnoreCase(ToUpper(s), s)
  {
    UpperAgreesWithIgnoreCase(ToUpper(s), s);
  }

  // ---------------------------------------------------------------------
  // String.prototype.trim
  // ---------------------------------------------------------------------

  /** The characters `trim` removes: ECMAScript WhiteSpace (tab, vertical
      tab, form feed, space, no-break space, byte-order mark and every
      space separator) and LineTerminator (LF, CR, LS, PS). */
  predicate IsJsSpace(c: char)
  {
    c == '\t' || c == '\n' || c == '\U{B}' || c == '\U{C}' || c == '\r' || c == ' '
    || c == '\U{A0}' || c == '\U{1680}' || ('\U{2000}' <= c <= '\U{200A}')
    || c == '\U{2028}' || c == '\U{2029}' || c == '\U{202F}' || c == '\U{205F}'
    || c == '\U{3000}' || c == '\U{FEFF}'
  }

  /** `r` is `s[i..j]`, with only white space before `i` and from `j` on. */
  ghost predicate StrippedAt(r: string, s: string, i: int, j: int)
  {
    && 0 <= i <= j <= |s| && r == s[i..j]
    && (forall k :: 0 <= k < i ==> IsJsSpace(s[k]))
    && (forall k :: j <= k < |s| ==> IsJsSpace(s[k]))
  }

  /** `s.trim()`: the text left after dropping white space at both ends. */
  function Trim(s: string): (r: string)
    ensures |r| <= |s|
    ensures forall i :: 0 <= i < |r| ==> r[i] in s
    ensures r == [] <==> forall i :: 0 <= i < |s| ==> IsJsSpace(s[i])
  {
    if s != [] && IsJsSpace(s[0]) then Trim(s[1..])
    else if s != [] && IsJsSpace(s[|s| - 1]) then Trim(s[..|s| - 1])
    else s
  }

  /** Trimming removes exactly the white space at both ends: the result
      is an infix of the input with only white space around it. */
  lemma {:induction false} TrimStrips(s: string)
    ensures exists i, j :: StrippedAt(Trim(s), s, i, j)
  {
    if s != [] && IsJsSpace(s[0]) {
      TrimStrips(s[1..]);
      var i, j :| StrippedAt(Trim(s[1..]), s[1..], i, j);
      assert s[1..][i..j] == s[i + 1..j + 1];
      forall k | 0 <= k < i + 1 ensures IsJsSpace(s[k]) {
        if k > 0 { assert s[k] == s[1..][k - 1]; }
      }
      forall k | j + 1 <= k < |s| ensures IsJsSpace(s[k]) {
        assert s[k] == s[1..][k - 1];
      }
      assert StrippedAt(Trim(s), s, i + 1, j + 1);
    } else if s != [] && IsJsSpace(s[|s| - 1]) {
      TrimStrips(s[..|s| - 1]);
      var i, j :| StrippedAt(Trim(s[..|s| - 1]), s[..|s| - 1], i, j);
      assert s[..|s| - 1][i..j] == s[i..j];
      forall k | j <= k < |s| ensures IsJsSpace(s[k]) {
        if k < |s| - 1 { assert s[k] == s[..|s| - 1][k]; }
      }
      assert StrippedAt(Trim(s), s, i, j);
    } else {
      assert StrippedAt(Trim(s), s, 0, |s|);
    }
  }

  /** The trimmed text neither starts nor ends with white space, so
      trimming twice is trimming once. */
  lemma {:induction false} TrimIdempotent(s: string)
    ensures Trim(s) != [] ==> !IsJsSpace(Trim(s)[0]) && !IsJsSpace(Trim(s)[|Trim(s)| - 1])
    ensures Trim(Trim(s)) == Trim(s)
  {
    if s != [] && IsJsSpace(s[0]) {
      TrimIdempotent(s[1..]);
    } else if s != [] && IsJsSpace(s[|s| - 1]) {
      TrimIdempotent(s[..|s| - 1]);
    }
  }

  // ---------------------------------------------------------------------
  // Other string helpers
  // ---------------------------------------------------------------------

  /** `s.split(',')[0]`: the text before the first comma. */
  function BeforeComma(s: string): (r: string)
    ensures |r| <= |s| && r == s[..|r|]
    ensures ',' !in r
    ensures |r| < |s| ==> s[|r|] == ','
  {
    if s == [] || s[0] == ',' then [] else [s[0]] + BeforeComma(s[1..])
  }

  predicate StartsWith(s: string, prefix: string)
  {
    |prefix| <= |s| && s[..|prefix|] == prefix
  }

  predicate EndsWith(s: string, suffix: string)
  {
    |suffix| <= |s| && s[|s| - |suffix|..] == suffix
  }

  function DigitChar(d: nat): char
    requires d < 10
  {
    ('0' as int + d) as char
  }

  /** The value of a decimal digit. */
  function DigitValue(c: char): int
  {
    c as int - '0' as int
  }

  /** The number a string of decimal digits denotes, read left to right. */
  function DecimalValue(s: string): int
  {
    if s == [] then 0 else 10 * DecimalValue(s[..|s| - 1]) + DigitValue(s[|s| - 1])
  }

  /** Decimal text of a natural number, as a template literal prints it:
      digits with no leading zero that denote `n`. */
  function NatToString(n: nat): (r: string)
    ensures |r| >= 1
    ensures forall i :: 0 <= i < |r| ==> '0' <= r[i] <= '9'
    ensures |r| > 1 ==> r[0] != '0'
    ensures DecimalValue(r) == n
  {
    if n < 10 then [DigitChar(n)]
    else
      var high := NatToString(n / 10);
      var r := high + [DigitChar(n % 10)];
      assert r[..|r| - 1] == high;
      r
  }
}
