/** The two input patterns of the sign-in and member forms:
    `/^[^\s@]+@[^\s@]+\.[^\s@]+$/` for e-mail addresses and
    `/^(?=.*[A-Z])(?=.*\d).{5,}$/` for passwords. Each is stated once as
    the set of strings the pattern matches (a ghost predicate with the
    pattern's own quantifiers) and once as a scan, and the two are proved
    to agree. */
module FormValidation {

  /** `\s` of ECMAScript regular expressions: WhiteSpace and LineTerminator. */
  predicate IsWhitespace(c: char)
  {
    || c == ' ' || c == '\t' || c == '\n' || c == '\r' || c == '\U{b}' || c == '\U{c}'
    || c == '\U{a0}' || c == '\U{1680}' || ('\U{2000}' <= c <= '\U{200a}')
    || c == '\U{2028}' || c == '\U{2029}' || c == '\U{202f}' || c == '\U{205f}'
    || c == '\U{3000}' || c == '\U{feff}'
  }

  /** `[^\s@]` */
  predicate AddressChar(c: char)
  {
    !IsWhitespace(c) && c != '@'
  }

  /** The classes the password pattern tests, on UTF-16 code units:
      LineTerminator (the units `.` does not match without the `s` flag),
      `[A-Z]`, and `\d` (ASCII digits only). */
  predicate IsLineTerminatorUnit(u: int) { u == 0x0A || u == 0x0D || u == 0x2028 || u == 0x2029 }
  predicate IsUpperUnit(u: int) { 0x41 <= u <= 0x5A }
  predicate IsDigitUnit(u: int) { 0x30 <= u <= 0x39 }

  /** The same classes on characters. */
  predicate IsLineTerminator(c: char) { IsLineTerminatorUnit(c as int) }
  predicate IsUpper(c: char) { IsUpperUnit(c as int) }
  predicate IsDigit(c: char) { IsDigitUnit(c as int) }

  // ---------------------------------------------------------------- e-mail

  /** The strings the e-mail pattern matches: a non-empty local part, `@`,
      a non-empty domain, a `.`, and a non-empty last label, with no
      whitespace and no other `@` anywhere. The domain may itself hold dots. */
  ghost predicate MatchesEmailPattern(s: string)
  {
    exists at: nat, dot: nat ::
      && 0 < at && at + 1 < dot && dot + 1 < |s|
      && s[at] == '@' && s[dot] == '.'
      && (forall k :: 0 <= k < |s| && k != at ==> AddressChar(s[k]))
  }

  /** The index of the first `c` in `s`, or `|s|` when there is none. */
  function Find(s: string, c: char): (p: nat)
    ensures p <= |s|
    ensures p < |s| ==> s[p] == c
    ensures forall k :: 0 <= k < p ==> s[k] != c
  {
    if |s| == 0 then 0
    else if s[0] == c then 0
    else
      assert forall k :: 1 <= k < |s| ==> s[k] == s[1..][k - 1];
      1 + Find(s[1..], c)
  }

  function NoWhitespace(s: string): (r: bool)
    ensures r <==> forall k :: 0 <= k < |s| ==> !IsWhitespace(s[k])
  {
    if |s| == 0 then true
    else
      assert forall k :: 1 <= k < |s| ==> s[k] == s[1..][k - 1];
      !IsWhitespace(s[0]) && NoWhitespace(s[1..])
  }

  /** The check `regex.test(email)` performs, as a scan: the first `@` is
      not at the start, no second `@` follows, and a `.` sits at least one
      character after it and before the last character. */
  function IsEmail(s: string): bool
  {
    var at := Find(s, '@');
    && NoWhitespace(s)
    && 0 < at && at + 3 < |s|
    && Find(s[at + 1..], '@') == |s| - at - 1
    && '.' in s[at + 2..|s| - 1]
  }

  lemma EmailScanMatchesPattern(s: string)
    ensures IsEmail(s) <==> MatchesEmailPattern(s)
  {
    if IsEmail(s) {
      EmailScanSound(s);
    }
    if MatchesEmailPattern(s) {
      EmailScanComplete(s);
    }
  }

  /** Every string the scan accepts matches the pattern. */
  lemma EmailScanSound(s: string)
    requires IsEmail(s)
    ensures MatchesEmailPattern(s)
  {
    var at := Find(s, '@');
    var tail := s[at + 2..|s| - 1];
    var i :| 0 <= i < |tail| && tail[i] == '.';
    var dot: nat := at + 2 + i;
    assert s[dot] == '.';
    forall k | 0 <= k < |s| && k != at
      ensures AddressChar(s[k])
    {
      if k > at {
        assert s[k] == s[at + 1..][k - at - 1];
      }
    }
    assert 0 < at && at + 1 < dot && dot + 1 < |s| && s[at] == '@' && s[dot] == '.';
  }

  /** Every string matching the pattern passes the scan. */
  lemma EmailScanComplete(s: string)
    requires MatchesEmailPattern(s)
    ensures IsEmail(s)
  {
    var a: nat, d: nat :| && 0 < a && a + 1 < d && d + 1 < |s|
                          && s[a] == '@' && s[d] == '.'
                          && (forall k :: 0 <= k < |s| && k != a ==> AddressChar(s[k]));
    var at := Find(s, '@');
    assert at <= a;
    assert s[at] == '@';
    assert at == a;
    forall k | 0 <= k < |s| ensures !IsWhitespace(s[k]) {
      if k != a {
        assert AddressChar(s[k]);
      }
    }
    var rest := s[a + 1..];
    forall k | 0 <= k < |rest| ensures rest[k] != '@' {
      assert rest[k] == s[a + 1 + k];
    }
    FindAbsent(rest, '@');
    assert s[a + 2..|s| - 1][d - a - 2] == '.';
  }

  lemma FindAbsent(s: string, c: char)
    requires forall k :: 0 <= k < |s| ==> s[k] != c
    ensures Find(s, c) == |s|
  {
  }

  /** A plain address matches; one without a dot after the `@` does not. */
  lemma EmailExamples()
    ensures IsEmail("a@b.c")
    ensures !IsEmail("a@bc")
  {
    var s := "a@b.c";
    assert Find(s, '@') == 1;
    assert Find(s[2..], '@') == 3;
    assert s[3..4][0] == '.';
  }

  /** A second `@` or an empty local part fails the match. */
  lemma EmailCounterExamples()
    ensures !IsEmail("a@b@c.d")
    ensures !IsEmail("@b.c")
  {
  }

  // -------------------------------------------------------------- password

  /** The pattern has no `u` flag, so it runs over UTF-16 code units: a
      character above U+FFFF is a high and a low surrogate, each matched by
      `.` on its own. (The e-mail pattern needs no such care: surrogates
      are neither whitespace nor `@`, so it accepts the same strings either
      way.) */
  function Utf16Units(c: char): (u: seq<int>)
    ensures |u| == (if c as int > 0xFFFF then 2 else 1)
    ensures c as int <= 0xFFFF ==> u == [c as int]
    ensures c as int > 0xFFFF ==> forall k :: 0 <= k < |u| ==> 0xD800 <= u[k] <= 0xDFFF
  {
    if c as int <= 0xFFFF then [c as int]
    else
      var v := c as int - 0x10000;
      [0xD800 + v / 0x400, 0xDC00 + v % 0x400]
  }

  /** The code units a JavaScript string holds for `s`. */
  function Utf16(s: string): seq<int>
  {
    if |s| == 0 then [] else Utf16Units(s[0]) + Utf16(s[1..])
  }

  /** `.length` of the JavaScript string: characters above U+FFFF count twice. */
  function Utf16Length(s: string): (n: nat)
    ensures |s| <= n <= 2 * |s|
  {
    if |s| == 0 then 0 else (if s[0] as int > 0xFFFF then 2 else 1) + Utf16Length(s[1..])
  }

  lemma {:induction false} Utf16LengthCountsUnits(s: string)
    ensures Utf16Length(s) == |Utf16(s)|
  {
    if |s| > 0 {
      Utf16LengthCountsUnits(s[1..]);
    }
  }

  /** The strings the password pattern matches: at least five code units,
      none a line terminator, one of them an ASCII capital and one an ASCII
      digit. */
  ghost predicate MatchesPasswordPattern(s: string)
  {
    var u := Utf16(s);
    && |u| >= 5
    && (forall k :: 0 <= k < |u| ==> !IsLineTerminatorUnit(u[k]))
    && (exists k :: 0 <= k < |u| && IsUpperUnit(u[k]))
    && (exists k :: 0 <= k < |u| && IsDigitUnit(u[k]))
  }

  /** Some unit of a concatenation is in a class exactly when some unit of
      either part is. */
  lemma ExistsInConcat(h: seq<int>, t: seq<int>, P: int -> bool)
    ensures (exists k :: 0 <= k < |h + t| && P((h + t)[k]))
            <==> (exists k :: 0 <= k < |h| && P(h[k])) || (exists k :: 0 <= k < |t| && P(t[k]))
  {
    if exists k :: 0 <= k < |t| && P(t[k]) {
      var k :| 0 <= k < |t| && P(t[k]);
      assert (h + t)[|h| + k] == t[k];
    }
    if exists k :: 0 <= k < |h| && P(h[k]) {
      var k :| 0 <= k < |h| && P(h[k]);
      assert (h + t)[k] == h[k];
    }
    if exists k :: 0 <= k < |h + t| && P((h + t)[k]) {
      var k :| 0 <= k < |h + t| && P((h + t)[k]);
      if k >= |h| {
        assert t[k - |h|] == (h + t)[k];
      } else {
        assert h[k] == (h + t)[k];
      }
    }
  }

  /** Some character of a non-empty string is in a class exactly when the
      first one or some later one is. */
  lemma ExistsInString(s: string, P: int -> bool)
    requires |s| > 0
    ensures (exists k :: 0 <= k < |s| && P(s[k] as int))
            <==> P(s[0] as int) || (exists k :: 0 <= k < |s[1..]| && P(s[1..][k] as int))
  {
    if exists k :: 0 <= k < |s[1..]| && P(s[1..][k] as int) {
      var k :| 0 <= k < |s[1..]| && P(s[1..][k] as int);
      assert s[k + 1] == s[1..][k];
    }
    if exists k :: 0 <= k < |s| && P(s[k] as int) {
      var k :| 0 <= k < |s| && P(s[k] as int);
      if k > 0 {
        assert s[1..][k - 1] == s[k];
      }
    }
  }

  /** A class of BMP code points other than surrogates holds for some unit
      of `s` exactly when it holds for some character of `s`. */
  lemma {:induction false} UnitClassIsCharClass(s: string, P: int -> bool)
    requires forall u :: (0xD800 <= u <= 0xDFFF || 0xFFFF < u) ==> !P(u)
    ensures (exists k :: 0 <= k < |Utf16(s)| && P(Utf16(s)[k])) <==> (exists k :: 0 <= k < |s| && P(s[k] as int))
  {
    if |s| > 0 {
      var h, t := Utf16Units(s[0]), Utf16(s[1..]);
      UnitClassIsCharClass(s[1..], P);
      assert Utf16(s) == h + t;
      ExistsInConcat(h, t, P);
      ExistsInString(s, P);
      if s[0] as int <= 0xFFFF {
        assert h[0] == s[0] as int;
      } else {
        assert !P(h[0]) && !P(h[1]) && !P(s[0] as int);
      }
    }
  }

  /** One pass over the characters, tracking the two classes seen so far;
      a line terminator fails the whole match. */
  function PasswordScan(s: string, seenUpper: bool, seenDigit: bool): (r: bool)
    ensures r <==>
              && (forall k :: 0 <= k < |s| ==> !IsLineTerminator(s[k]))
              && (seenUpper || exists k :: 0 <= k < |s| && IsUpper(s[k]))
              && (seenDigit || exists k :: 0 <= k < |s| && IsDigit(s[k]))
  {
    if |s| == 0 then seenUpper && seenDigit
    else
      assert forall k :: 1 <= k < |s| ==> s[k] == s[1..][k - 1];
      assert forall k :: 0 <= k < |s[1..]| ==> s[1..][k] == s[k + 1];
      !IsLineTerminator(s[0]) && PasswordScan(s[1..], seenUpper || IsUpper(s[0]), seenDigit || IsDigit(s[0]))
  }

  function IsPassword(s: string): bool
  {
    Utf16Length(s) >= 5 && PasswordScan(s, false, false)
  }

  lemma PasswordScanMatchesPattern(s: string)
    ensures IsPassword(s) <==> MatchesPasswordPattern(s)
  {
    Utf16LengthCountsUnits(s);
    UnitClassIsCharClass(s, IsLineTerminatorUnit);
    UnitClassIsCharClass(s, IsUpperUnit);
    UnitClassIsCharClass(s, IsDigitUnit);
  }

  /** Five characters with a capital and a digit pass; four do not. */
  lemma PasswordExamples()
    ensures IsPassword("Abc12")
    ensures !IsPassword("Ab12")
  {
    assert "Abc12"[0] == 'A';
    assert "Abc12"[3] == '1';
  }

  /** A missing capital, a missing digit or a line feed fails the match. */
  lemma PasswordCounterExamples()
    ensures !IsPassword("abc12")
    ensures !IsPassword("Abcde")
    ensures !IsPassword("Abc1\n2")
  {
    assert "Abc1\n2"[4] == '\n';
  }

  /** Length counts code units: two characters above U+FFFF make a capital
      and a digit long enough, one does not. */
  lemma PasswordLengthInCodeUnits()
    ensures IsPassword("A1\U{1F600}\U{1F600}")
    ensures !IsPassword("A1\U{1F600}")
  {
    assert "A1\U{1F600}\U{1F600}"[0] == 'A';
    assert "A1\U{1F600}\U{1F600}"[1] == '1';
  }

  /** Error texts the forms show under an invalid field. */
  const EmailErrorText: string := "Некорректный email"
  const PasswordErrorText: string :=
    "Пароль должен содержать минимум 5 символов, одну заглавную букву и одну цифру"
}
