/**
  The character-level predicates the screens' validators are built from:
  JavaScript's `String.prototype.trim`, `value.replace(/\D/g, '')` and the two
  regular expressions for dates and e-mail addresses, written out over
  `seq<char>`.
 */
module Text {

  /** `\d` in a regular expression without the `u` flag: ASCII 0-9 only. */
  predicate IsDigit(c: char) {
    '0' <= c <= '9'
  }

  /**
    The characters `trim` removes and `\s` matches: the ECMAScript WhiteSpace
    and LineTerminator productions (tab, line tabulation, form feed, space,
    no-break space, zero-width no-break space, the Unicode space separators,
    line feed, carriage return, line and paragraph separators).
   */
  predicate IsWhitespace(c: char) {
    || c == '\t' || c == '\n' || c == '\U{B}' || c == '\U{C}' || c == '\r' || c == ' '
    || c == '\U{A0}' || c == '\U{1680}' || ('\U{2000}' <= c <= '\U{200A}')
    || c == '\U{2028}' || c == '\U{2029}' || c == '\U{202F}' || c == '\U{205F}'
    || c == '\U{3000}' || c == '\U{FEFF}'
  }

  /** `s` with its leading whitespace removed. */
  function TrimStart(s: string): string {
    if s != [] && IsWhitespace(s[0]) then TrimStart(s[1..]) else s
  }

  /** `s` with its trailing whitespace removed. */
  function TrimEnd(s: string): string {
    if s != [] && IsWhitespace(s[|s| - 1]) then TrimEnd(s[..|s| - 1]) else s
  }

  /** `s.trim()`. */
  function Trim(s: string): string {
    TrimEnd(TrimStart(s))
  }

  /** `!s.trim()`, equivalently `s.trim().length === 0`. */
  predicate IsBlank(s: string) {
    Trim(s) == ""
  }

  /** Every character of `s` is whitespace. */
  predicate AllWhitespace(s: string) {
    forall i :: 0 <= i < |s| ==> IsWhitespace(s[i])
  }

  lemma {:induction false} TrimStartEmpty(s: string)
    ensures TrimStart(s) == "" <==> AllWhitespace(s)
    decreases |s|
  {
    if s != [] && IsWhitespace(s[0]) {
      TrimStartEmpty(s[1..]);
      assert forall i :: 1 <= i < |s| ==> s[i] == s[1..][i - 1];
    }
  }

  lemma {:induction false} TrimStartKeepsNonBlankHead(s: string)
    ensures TrimStart(s) == "" || !IsWhitespace(TrimStart(s)[0])
    decreases |s|
  {
    if s != [] && IsWhitespace(s[0]) {
      TrimStartKeepsNonBlankHead(s[1..]);
    }
  }

  lemma {:induction false} TrimEndOfNonBlankHead(s: string)
    requires s != [] && !IsWhitespace(s[0])
    ensures TrimEnd(s) != ""
    decreases |s|
  {
    if IsWhitespace(s[|s| - 1]) {
      TrimEndOfNonBlankHead(s[..|s| - 1]);
    }
  }

  /** A value is blank after trimming exactly when it holds whitespace only. */
  lemma BlankIffAllWhitespace(s: string)
    ensures IsBlank(s) <==> AllWhitespace(s)
  {
    TrimStartEmpty(s);
    TrimStartKeepsNonBlankHead(s);
    if TrimStart(s) != "" {
      TrimEndOfNonBlankHead(TrimStart(s));
    }
  }

  /** A value holding one non-whitespace character is not blank. */
  lemma NotBlankAt(s: string, i: int)
    requires 0 <= i < |s| && !IsWhitespace(s[i])
    ensures !IsBlank(s)
  {
    BlankIffAllWhitespace(s);
  }

  /** `s.replace(/\D/g, '')`: the ASCII digits of `s`, in order. */
  function StripNonDigits(s: string): (r: string)
    ensures |r| <= |s|
    ensures forall i :: 0 <= i < |r| ==> IsDigit(r[i])
    ensures forall c :: IsDigit(c) ==> multiset(r)[c] == multiset(s)[c]
  {
    if s == [] then []
    else
      assert s == [s[0]] + s[1..];
      if IsDigit(s[0]) then [s[0]] + StripNonDigits(s[1..])
      else StripNonDigits(s[1..])
  }

  /** The length the validators compare: how many ASCII digits `s` holds. */
  function DigitCount(s: string): nat {
    |StripNonDigits(s)|
  }

  /** Stripping distributes over concatenation. */
  lemma {:induction false} StripConcat(a: string, b: string)
    ensures StripNonDigits(a + b) == StripNonDigits(a) + StripNonDigits(b)
    decreases |a|
  {
    if a == [] {
      assert a + b == b;
    } else {
      assert (a + b)[0] == a[0];
      assert (a + b)[1..] == a[1..] + b;
      StripConcat(a[1..], b);
    }
  }

  /** A string made of digits only is left as it is. */
  lemma {:induction false} StripAllDigits(s: string)
    requires forall i :: 0 <= i < |s| ==> IsDigit(s[i])
    ensures StripNonDigits(s) == s
    decreases |s|
  {
    if s != [] {
      StripAllDigits(s[1..]);
    }
  }

  /**
    Punctuation never changes the count: inserting a non-digit anywhere leaves
    the digit count as it was, so "123.456.789-01" and "12345678901" count alike.
   */
  lemma PunctuationIndependent(a: string, c: char, b: string)
    requires !IsDigit(c)
    ensures DigitCount(a + [c] + b) == DigitCount(a + b)
  {
    StripConcat(a + [c], b);
    StripConcat(a, [c]);
    StripConcat(a, b);
  }

  /** A blank value holds no digit. */
  lemma {:induction false} BlankHasNoDigits(s: string)
    ensures IsBlank(s) ==> DigitCount(s) == 0
  {
    BlankIffAllWhitespace(s);
    if IsBlank(s) {
      NoDigitsInWhitespace(s);
    }
  }

  lemma {:induction false} NoDigitsInWhitespace(s: string)
    requires AllWhitespace(s)
    ensures StripNonDigits(s) == []
    decreases |s|
  {
    if s != [] {
      NoDigitsInWhitespace(s[1..]);
    }
  }

  /** The numeric value of an ASCII digit. */
  function DigitValue(c: char): int
    requires IsDigit(c)
  {
    c as int - '0' as int
  }

  /** `(0[1-9]|[12][0-9]|3[01])`: two characters spelling a day from 01 to 31. */
  predicate IsDayField(a: char, b: char) {
    || (a == '0' && '1' <= b <= '9')
    || ((a == '1' || a == '2') && IsDigit(b))
    || (a == '3' && (b == '0' || b == '1'))
  }

  /** `(0[1-9]|1[0-2])`: two characters spelling a month from 01 to 12. */
  predicate IsMonthField(a: char, b: char) {
    || (a == '0' && '1' <= b <= '9')
    || (a == '1' && '0' <= b <= '2')
  }

  /**
    `/^(0[1-9]|[12][0-9]|3[01])\/(0[1-9]|1[0-2])\/\d{4}$/.test(s)`. This is a
    purely syntactic check: the day is not compared with the month's length.
   */
  predicate IsDateShaped(s: string) {
    && |s| == 10
    && IsDayField(s[0], s[1]) && s[2] == '/'
    && IsMonthField(s[3], s[4]) && s[5] == '/'
    && IsDigit(s[6]) && IsDigit(s[7]) && IsDigit(s[8]) && IsDigit(s[9])
  }

  /** The positions of a `DD/MM/YYYY` value that hold digits. */
  predicate DigitsAtDatePositions(s: string)
    requires |s| == 10
  {
    forall i :: 0 <= i < 10 && i != 2 && i != 5 ==> IsDigit(s[i])
  }

  /**
    The date pattern read numerically: ten characters, slashes at positions 2
    and 5, digits elsewhere, day value 1..31 and month value 1..12, any year.
   */
  lemma DateShapedMeaning(s: string)
    ensures IsDateShaped(s) <==>
      && |s| == 10 && s[2] == '/' && s[5] == '/' && DigitsAtDatePositions(s)
      && 1 <= 10 * DigitValue(s[0]) + DigitValue(s[1]) <= 31
      && 1 <= 10 * DigitValue(s[3]) + DigitValue(s[4]) <= 12
  {
  }

  /** A value of the date shape is never blank, as it starts with a digit. */
  lemma DateShapedNotBlank(s: string)
    ensures IsDateShaped(s) ==> !IsBlank(s)
  {
    if IsDateShaped(s) {
      NotBlankAt(s, 0);
    }
  }

  /** Calendar validity is not checked: impossible days pass, a zero day fails. */
  lemma DatePatternExamples()
    ensures IsDateShaped("31/02/2024") && IsDateShaped("29/02/2023")
    ensures IsDateShaped("30/02/2023") && IsDateShaped("29/02/2024")
    ensures !IsDateShaped("00/01/2020") && !IsDateShaped("12/13/2020")
    ensures !IsDateShaped("1/02/2020") && !IsDateShaped("01/02/20201")
  {
  }

  /** One segment of the e-mail pattern, `[^\s@]+`. */
  predicate IsEmailPart(t: string) {
    |t| > 0 && forall k :: 0 <= k < |t| ==> !IsWhitespace(t[k]) && t[k] != '@'
  }

  /**
    `/^[^\s@]+@[^\s@]+\.[^\s@]+$/.test(s)` as the regular expression defines
    it: `s` splits into a local part, `@`, a domain part, `.` and a final part,
    none of the three parts empty or holding whitespace or `@`.
   */
  ghost predicate MatchesEmailPattern(s: string) {
    exists i, j :: 0 < i && i + 1 < j < |s| - 1 && s[i] == '@' && s[j] == '.'
      && IsEmailPart(s[..i]) && IsEmailPart(s[i + 1..j]) && IsEmailPart(s[j + 1..])
  }

  /** The position of the first `c` in `s`, or `|s|` when there is none. */
  function IndexOf(s: string, c: char): (r: nat)
    ensures r <= |s|
    ensures r < |s| ==> s[r] == c
    ensures forall k :: 0 <= k < r ==> s[k] != c
  {
    if s == [] then 0
    else if s[0] == c then 0
    else 1 + IndexOf(s[1..], c)
  }

  /**
    The e-mail check, computed directly: a non-empty local part before the
    first `@`, no whitespace or further `@` after it, and a `.` with at least
    one character on each side within the domain.
   */
  predicate IsEmailShaped(s: string) {
    var i := IndexOf(s, '@');
    && 0 < i && i + 3 < |s|
    && IsEmailPart(s[..i])
    && IsEmailPart(s[i + 1..])
    && '.' in s[i + 2..|s| - 1]
  }

  lemma EmailShapedMatches(s: string)
    requires IsEmailShaped(s)
    ensures MatchesEmailPattern(s)
  {
    var i := IndexOf(s, '@');
    var d := s[i + 1..];
    var k :| i + 2 <= k < |s| - 1 && s[k] == '.' by {
      var t := s[i + 2..|s| - 1];
      var m :| 0 <= m < |t| && t[m] == '.';
      assert s[i + 2 + m] == t[m];
    }
    assert s[i + 1..k] == d[..k - i - 1];
    assert s[k + 1..] == d[k - i..];
    assert IsEmailPart(s[i + 1..k]) by {
      forall q | 0 <= q < k - i - 1 ensures s[i + 1..k][q] == d[q] { }
    }
    assert IsEmailPart(s[k + 1..]);
  }

  /** `IndexOf` finds the first occurrence. */
  lemma {:induction false} IndexOfFirst(s: string, c: char, i: nat)
    requires i < |s| && s[i] == c
    requires forall k :: 0 <= k < i ==> s[k] != c
    ensures IndexOf(s, c) == i
    decreases i
  {
    if i > 0 {
      IndexOfFirst(s[1..], c, i - 1);
    }
  }

  /** The domain, dot and final part together form one segment free of `@` and whitespace. */
  lemma DomainIsPart(s: string, i: int, j: int)
    requires 0 < i && i + 1 < j < |s| - 1 && s[j] == '.'
    requires IsEmailPart(s[i + 1..j]) && IsEmailPart(s[j + 1..])
    ensures IsEmailPart(s[i + 1..])
  {
    assert s[i + 1..] == s[i + 1..j] + [s[j]] + s[j + 1..];
  }

  lemma MatchesIsEmailShaped(s: string)
    requires MatchesEmailPattern(s)
    ensures IsEmailShaped(s)
  {
    var i, j :| 0 < i && i + 1 < j < |s| - 1 && s[i] == '@' && s[j] == '.'
      && IsEmailPart(s[..i]) && IsEmailPart(s[i + 1..j]) && IsEmailPart(s[j + 1..]);
    assert forall k :: 0 <= k < i ==> s[k] == s[..i][k];
    IndexOfFirst(s, '@', i);
    DomainIsPart(s, i, j);
    assert s[i + 2..|s| - 1][j - i - 2] == '.';
  }

  /** The direct check accepts exactly the strings the pattern matches. */
  lemma EmailShapedIffPattern(s: string)
    ensures IsEmailShaped(s) <==> MatchesEmailPattern(s)
  {
    if IsEmailShaped(s) {
      EmailShapedMatches(s);
    }
    if MatchesEmailPattern(s) {
      MatchesIsEmailShaped(s);
    }
  }

  /** An address of the right shape is never blank: its first character is not whitespace. */
  lemma EmailShapedNotBlank(s: string)
    ensures IsEmailShaped(s) ==> !IsBlank(s)
  {
    if IsEmailShaped(s) {
      assert s[..IndexOf(s, '@')][0] == s[0];
      NotBlankAt(s, 0);
    }
  }

  /** A well-formed address passes. */
  lemma EmailExampleAccepted()
    ensures IsEmailShaped("ana@escola.br")
  {
    var s := "ana@escola.br";
    IndexOfFirst(s, '@', 3);
    assert s[..3] == "ana" && s[4..] == "escola.br";
    assert IsEmailPart("ana") by {
      forall k | 0 <= k < 3 ensures !IsWhitespace("ana"[k]) && "ana"[k] != '@' { }
    }
    assert IsEmailPart("escola.br") by {
      forall k | 0 <= k < 9 ensures !IsWhitespace("escola.br"[k]) && "escola.br"[k] != '@' { }
    }
    assert s[5..12][5] == '.';
  }

  /** An address without a dot after the `@`, or without a local part, fails. */
  lemma EmailExamplesRejected()
    ensures !IsEmailShaped("ana@escola")
    ensures !IsEmailShaped("@escola.br")
  {
    IndexOfFirst("ana@escola", '@', 3);
    assert "ana@escola"[5..9] == "scol";
    IndexOfFirst("@escola.br", '@', 0);
  }

  /** Whitespace anywhere, even before a well-formed address, fails the check. */
  lemma EmailWithSpaceFails(s: string)
    requires IsEmailShaped(s)
    ensures !IsEmailShaped([' '] + s)
  {
    var t := [' '] + s;
    if IndexOf(t, '@') > 0 {
      assert t[..IndexOf(t, '@')][0] == ' ';
    }
  }
}
