/** The cheap first tier of the PII engine and the patterns of the second: where the
    first finds nothing, five of the seven patterns have no match. */
module TierOne {
  import opened Slices

  // ---- Digit sequences -----------------------------------------------------

  predicate IsAsciiDigit(c: char)
  {
    '0' <= c <= '9'
  }

  predicate IsSeparator(c: char)
  {
    c == ' ' || c == '-'
  }

  function Digits(text: string): nat
  {
    if text == "" then 0
    else Digits(text[..|text| - 1]) + if IsAsciiDigit(text[|text| - 1]) then 1 else 0
  }

  predicate DigitsAndSeparators(text: string)
  {
    forall k | 0 <= k < |text| :: IsAsciiDigit(text[k]) || IsSeparator(text[k])
  }

  /** A stretch of digits, spaces and dashes with at least `n` digits. */
  predicate HasStretch(text: string, n: nat)
  {
    exists a, b :: 0 <= a <= b <= |text| && DigitsAndSeparators(text[a..b]) && Digits(text[a..b]) >= n
  }

  lemma {:induction false} DigitsOfConcat(a: string, b: string)
    ensures Digits(a + b) == Digits(a) + Digits(b)
  {
    if b == "" {
      assert a + b == a;
    } else {
      var n := |b| - 1;
      DigitsOfConcat(a, b[..n]);
      assert (a + b)[..|a + b| - 1] == a + b[..n];
    }
  }

  lemma DigitsOfSuffix(text: string, start: nat, a: nat, b: nat)
    requires start <= a <= b <= |text|
    ensures Digits(text[a..b]) <= Digits(text[start..b])
  {
    assert text[start..b] == text[start..a] + text[a..b];
    DigitsOfConcat(text[start..a], text[a..b]);
  }

  /** No stretch that ends by `i` has `n` digits. */
  ghost predicate NoStretchBy(text: string, i: nat, n: nat)
    requires i <= |text|
  {
    forall a, b | 0 <= a <= b <= i && DigitsAndSeparators(text[a..b]) :: Digits(text[a..b]) < n
  }

  /** The longest stretch that ends at `i` starts at `start`. */
  ghost predicate Block(text: string, start: nat, i: nat)
  {
    && start <= i <= |text| && DigitsAndSeparators(text[start..i])
    && (start > 0 ==> !IsAsciiDigit(text[start - 1]) && !IsSeparator(text[start - 1]))
  }

  lemma NotLonger(text: string, start: nat, i: nat, a: nat)
    requires Block(text, start, i) && a <= i
    ensures a < start ==> !DigitsAndSeparators(text[a..i])
  {
    if a < start { assert text[a..i][start - 1 - a] == text[start - 1]; }
  }

  lemma NoStretchStep(text: string, start: nat, i: nat, n: nat)
    requires i < |text| && NoStretchBy(text, i, n)
    requires Block(text, start, i + 1) && Digits(text[start..i + 1]) < n
    ensures NoStretchBy(text, i + 1, n)
  {
    forall a, b | 0 <= a <= b <= i + 1 && DigitsAndSeparators(text[a..b]) ensures Digits(text[a..b]) < n {
      if b == i + 1 {
        NotLonger(text, start, i + 1, a);
        DigitsOfSuffix(text, start, a, b);
      }
    }
  }

  lemma BlockStep(text: string, start: nat, i: nat)
    requires i < |text| && Block(text, start, i) && (IsAsciiDigit(text[i]) || IsSeparator(text[i]))
    ensures Block(text, start, i + 1)
    ensures Digits(text[start..i + 1]) == Digits(text[start..i]) + if IsAsciiDigit(text[i]) then 1 else 0
  {
    assert text[start..i + 1] == text[start..i] + [text[i]];
    assert text[start..i + 1][..i - start] == text[start..i];
  }

  /** `contains_digit_sequence`: a result of `true` needs at least one digit. */
  method ContainsDigitSequence(text: string, minLen: nat) returns (found: bool)
    ensures found <==> HasStretch(text, if minLen == 0 then 1 else minLen)
  {
    ghost var n := if minLen == 0 then 1 else minLen;
    var count := 0;
    ghost var start := 0;
    for i := 0 to |text|
      invariant 0 <= start && Block(text, start, i) && count == Digits(text[start..i]) < n
      invariant NoStretchBy(text, i, n)
    {
      var ch := text[i];
      if IsAsciiDigit(ch) {
        count := count + 1;
        BlockStep(text, start, i);
        if count >= minLen { return true; }
      } else if ch != ' ' && ch != '-' {
        count := 0;
        start := i + 1;
      } else {
        BlockStep(text, start, i);
      }
      NoStretchStep(text, start, i, n);
    }
    return false;
  }

  // ---- Keywords ------------------------------------------------------------

  const INDIAN_KEYWORDS := ["aadhaar", "aadhar", "pan card", "pan number", "ifsc"]
  const OTHER_KEYWORDS := ["credit card", "debit card", "card number", "bank account", "account number",
                           "ssn", "social security", "@"]

  function Lower(c: char): char
  {
    if 'A' <= c <= 'Z' then (c - 'A') + 'a' else c
  }

  predicate FoundAt(text: string, keyword: string, i: int)
  {
    0 <= i <= |text| - |keyword| && forall k | 0 <= k < |keyword| :: Lower(text[i + k]) == keyword[k]
  }

  /** Some keyword occurs, ASCII letters compared without case. */
  predicate HasKeyword(text: string, keywords: seq<string>)
  {
    exists w, i :: 0 <= w < |keywords| && 0 <= i <= |text| && FoundAt(text, keywords[w], i)
  }

  /** Tier 1 lets the text through without a deep scan. */
  predicate Bypassed(text: string)
  {
    !HasKeyword(text, INDIAN_KEYWORDS) && !HasKeyword(text, OTHER_KEYWORDS) && !HasStretch(text, 9)
  }

  // ---- Patterns ------------------------------------------------------------

  /** The character classes of the regular expressions: decimal digits and word
      characters of Unicode, which agree with ASCII on ASCII. */
  datatype Classes = Classes(digit: char -> bool, word: char -> bool)

  predicate IsUpper(c: char) { 'A' <= c <= 'Z' }

  predicate IsLetter(c: char) { 'A' <= c <= 'Z' || 'a' <= c <= 'z' }

  predicate IsAlnum(c: char) { IsLetter(c) || IsAsciiDigit(c) }

  ghost predicate ExtendsAscii(cs: Classes)
  {
    (forall c | IsAsciiDigit(c) :: cs.digit(c)) && (forall c | IsAlnum(c) || c == '_' :: cs.word(c))
  }

  /** The text has no digits but ASCII digits. */
  predicate AsciiDigitsOnly(cs: Classes, text: string)
  {
    forall k | 0 <= k < |text| && cs.digit(text[k]) :: IsAsciiDigit(text[k])
  }

  predicate Boundary(cs: Classes, text: string, i: nat)
    requires i <= |text|
  {
    (i > 0 && cs.word(text[i - 1])) != (i < |text| && cs.word(text[i]))
  }

  predicate AllDigits(cs: Classes, s: string)
  {
    forall k | 0 <= k < |s| :: cs.digit(s[k])
  }

  function CountDigits(cs: Classes, s: string): nat
  {
    if s == "" then 0 else CountDigits(cs, s[..|s| - 1]) + if cs.digit(s[|s| - 1]) then 1 else 0
  }

  datatype Pattern = Ssn | CreditCard | Email | Aadhaar | BankAccount | Pan | Ifsc

  predicate IsOptionalSeparator(s: string)
  {
    s == "" || s == " " || s == "-"
  }

  predicate IsAadhaar(cs: Classes, s: string, i: int, j: int)
  {
    && 4 <= i && i + 4 <= j && j + 4 <= |s|
    && |s[4..i]| <= 1 && |s[i + 4..j]| <= 1 && |s| == j + 4
    && AllDigits(cs, s[..4]) && IsOptionalSeparator(s[4..i])
    && AllDigits(cs, s[i..i + 4]) && IsOptionalSeparator(s[i + 4..j]) && AllDigits(cs, s[j..])
  }

  predicate IsEmail(s: string, at: int, dot: int)
  {
    && 0 < at && at + 1 < dot < |s| && s[at] == '@' && s[dot] == '.' && 2 <= |s| - dot - 1 <= 7
    && (forall k | 0 <= k < at :: IsAlnum(s[k]) || s[k] in "._%+-")
    && (forall k | at < k < dot :: IsAlnum(s[k]) || s[k] in ".-")
    && (forall k | dot < k < |s| :: IsLetter(s[k]))
  }

  /** `s` as a whole is in the language of the pattern, boundaries aside. */
  ghost predicate InLanguage(cs: Classes, p: Pattern, s: string)
  {
    match p
    case Ssn =>
      |s| == 11 && AllDigits(cs, s[..3]) && s[3] == '-' && AllDigits(cs, s[4..6]) && s[6] == '-' && AllDigits(cs, s[7..])
    case CreditCard =>
      && s != "" && cs.digit(s[0]) && 13 <= CountDigits(cs, s) <= 16
      && forall k | 0 <= k < |s| :: cs.digit(s[k]) || IsSeparator(s[k])
    case Email => exists at, dot :: IsEmail(s, at, dot)
    case Aadhaar => exists i, j :: IsAadhaar(cs, s, i, j)
    case BankAccount => 9 <= |s| <= 18 && AllDigits(cs, s)
    case Pan =>
      |s| == 10 && (forall k | 0 <= k < 5 :: IsUpper(s[k])) && AllDigits(cs, s[5..9]) && IsUpper(s[9])
    case Ifsc =>
      |s| == 11 && (forall k | 0 <= k < 4 :: IsUpper(s[k])) && s[4] == '0'
      && forall k | 5 <= k < 11 :: IsUpper(s[k]) || IsAsciiDigit(s[k])
  }

  ghost predicate MatchesAt(cs: Classes, p: Pattern, text: string, i: nat, j: nat)
  {
    i <= j <= |text| && Boundary(cs, text, i) && Boundary(cs, text, j) && InLanguage(cs, p, text[i..j])
  }

  ghost predicate Matches(cs: Classes, p: Pattern, text: string)
  {
    exists i: nat, j: nat :: MatchesAt(cs, p, text, i, j)
  }

  // ---- The gate hides nothing of five patterns -----------------------------

  lemma {:induction false} CountsAgree(cs: Classes, s: string)
    requires ExtendsAscii(cs) && AsciiDigitsOnly(cs, s)
    ensures CountDigits(cs, s) == Digits(s)
  {
    if s != "" { CountsAgree(cs, s[..|s| - 1]); }
  }

  lemma {:induction false} AllDigitsCount(cs: Classes, s: string)
    requires AsciiDigitsOnly(cs, s) && AllDigits(cs, s)
    ensures Digits(s) == |s| && DigitsAndSeparators(s)
  {
    if s != "" { AllDigitsCount(cs, s[..|s| - 1]); }
  }

  lemma DigitsOfFive(a: string, b: string, c: string, d: string, e: string)
    ensures Digits(a + b + c + d + e) == Digits(a) + Digits(b) + Digits(c) + Digits(d) + Digits(e)
    ensures (DigitsAndSeparators(a) && DigitsAndSeparators(b) && DigitsAndSeparators(c)
             && DigitsAndSeparators(d) && DigitsAndSeparators(e)) ==> DigitsAndSeparators(a + b + c + d + e)
  {
    DigitsOfConcat(a, b);
    DigitsOfConcat(a + b, c);
    DigitsOfConcat(a + b + c, d);
    DigitsOfConcat(a + b + c + d, e);
  }

  lemma SsnDigits(cs: Classes, s: string)
    requires AsciiDigitsOnly(cs, s) && InLanguage(cs, Ssn, s)
    ensures Digits(s) >= 9 && DigitsAndSeparators(s)
  {
    AllDigitsCount(cs, s[..3]);
    AllDigitsCount(cs, s[4..6]);
    AllDigitsCount(cs, s[7..]);
    DigitsOfFive(s[..3], s[3..4], s[4..6], s[6..7], s[7..]);
    assert s == s[..3] + s[3..4] + s[4..6] + s[6..7] + s[7..];
  }

  lemma AadhaarDigits(cs: Classes, s: string, i: int, j: int)
    requires AsciiDigitsOnly(cs, s) && IsAadhaar(cs, s, i, j)
    ensures Digits(s) >= 9 && DigitsAndSeparators(s)
  {
    var a, b, c, d, e := s[..4], s[4..i], s[i..i + 4], s[i + 4..j], s[j..];
    assert s == a + b + c + d + e;
    assert AsciiDigitsOnly(cs, a) && AsciiDigitsOnly(cs, c) && AsciiDigitsOnly(cs, e);
    AllDigitsCount(cs, a);
    AllDigitsCount(cs, c);
    AllDigitsCount(cs, e);
    DigitsOfFive(a, b, c, d, e);
  }

  /** Every match of these patterns is a stretch of nine digits, or has an `@`. */
  lemma MatchIsIndicated(cs: Classes, p: Pattern, s: string)
    requires ExtendsAscii(cs) && AsciiDigitsOnly(cs, s) && InLanguage(cs, p, s) && p != Pan && p != Ifsc
    ensures if p == Email then '@' in s else Digits(s) >= 9 && DigitsAndSeparators(s)
  {
    match p
    case Ssn => SsnDigits(cs, s);
    case CreditCard => CountsAgree(cs, s);
    case Email =>
    case Aadhaar =>
      var i, j :| IsAadhaar(cs, s, i, j);
      AadhaarDigits(cs, s, i, j);
    case BankAccount => AllDigitsCount(cs, s);
  }

  lemma PieceMeansDeepScan(cs: Classes, p: Pattern, text: string, a: nat, b: nat)
    requires ExtendsAscii(cs) && AsciiDigitsOnly(cs, text) && p != Pan && p != Ifsc
    requires a <= b <= |text| && InLanguage(cs, p, text[a..b])
    ensures !Bypassed(text)
  {
    var found := text[a..b];
    assert AsciiDigitsOnly(cs, found);
    MatchIsIndicated(cs, p, found);
    if p == Email {
      var k :| 0 <= k < |found| && found[k] == '@';
      assert FoundAt(text, OTHER_KEYWORDS[7], a + k);
      assert HasKeyword(text, OTHER_KEYWORDS);
    } else {
      assert HasStretch(text, 9);
    }
  }

  lemma MatchMeansDeepScan(cs: Classes, p: Pattern, text: string, a: nat, b: nat)
    requires ExtendsAscii(cs) && AsciiDigitsOnly(cs, text) && p != Pan && p != Ifsc
    requires a <= b <= |text| && Matches(cs, p, text[a..b])
    ensures !Bypassed(text)
  {
    var i: nat, j: nat :| MatchesAt(cs, p, text[a..b], i, j);
    SliceOfSlice(text, a, b, i, j);
    PieceMeansDeepScan(cs, p, text, a + i, a + j);
  }

  /** If the fast bypass is taken, the SSN, credit-card, e-mail, Aadhaar and
      bank-account patterns have no match in the text or in any piece of it. */
  lemma BypassHidesNothing(cs: Classes, p: Pattern, text: string, a: nat, b: nat)
    requires ExtendsAscii(cs) && AsciiDigitsOnly(cs, text) && Bypassed(text) && p != Pan && p != Ifsc
    requires a <= b <= |text|
    ensures !Matches(cs, p, text[a..b])
  {
    if Matches(cs, p, text[a..b]) { MatchMeansDeepScan(cs, p, text, a, b); }
  }

  /** The bypass hides a match exactly if a PAN or IFSC number stands alone. */
  lemma BypassHidesIffPanOrIfsc(cs: Classes, text: string)
    requires ExtendsAscii(cs) && AsciiDigitsOnly(cs, text) && Bypassed(text)
    ensures (exists p: Pattern :: Matches(cs, p, text)) <==> Matches(cs, Pan, text) || Matches(cs, Ifsc, text)
  {
    assert text[0..|text|] == text;
    forall p: Pattern | p != Pan && p != Ifsc ensures !Matches(cs, p, text) {
      BypassHidesNothing(cs, p, text, 0, |text|);
    }
  }

  lemma NeverFound(text: string, keyword: string, k: nat)
    requires k < |keyword| && forall m | 0 <= m < |text| :: Lower(text[m]) != keyword[k]
    ensures forall i :: !FoundAt(text, keyword, i)
  {
    forall i ensures !FoundAt(text, keyword, i) {
      assert 0 <= i <= |text| - |keyword| ==> Lower(text[i + k]) != keyword[k];
    }
  }

  lemma BarePanHasNoKeyword()
    ensures !HasKeyword("ABCDE1234F", INDIAN_KEYWORDS) && !HasKeyword("ABCDE1234F", OTHER_KEYWORDS)
  {
    var text := "ABCDE1234F";
    NeverFound(text, "aadhaar", 3);
    NeverFound(text, "aadhar", 3);
    NeverFound(text, "pan card", 0);
    NeverFound(text, "pan number", 0);
    NeverFound(text, "ifsc", 0);
    NeverFound(text, "credit card", 1);
    NeverFound(text, "debit card", 4);
    NeverFound(text, "card number", 2);
    NeverFound(text, "bank account", 2);
    NeverFound(text, "account number", 3);
    NeverFound(text, "ssn", 0);
    NeverFound(text, "social security", 0);
    NeverFound(text, "@", 0);
  }

  lemma BarePanHasNoStretch()
    ensures !HasStretch("ABCDE1234F", 9)
  {
    var text := "ABCDE1234F";
    forall a, b | 0 <= a <= b <= |text| && DigitsAndSeparators(text[a..b]) ensures Digits(text[a..b]) < 9 {
      assert a < 5 && a < b ==> text[a..b][0] == text[a];
      DigitsAtMost(text[a..b]);
    }
  }

  /** A bare PAN number is such a text. */
  lemma BarePanIsHidden(cs: Classes)
    requires ExtendsAscii(cs)
    ensures Bypassed("ABCDE1234F") && Matches(cs, Pan, "ABCDE1234F")
  {
    var text := "ABCDE1234F";
    BarePanHasNoKeyword();
    BarePanHasNoStretch();
    assert text[0..10] == text && text[5..9] == "1234";
    assert MatchesAt(cs, Pan, text, 0, 10);
  }

  lemma {:induction false} DigitsAtMost(s: string)
    ensures Digits(s) <= |s|
  {
    if s != "" { DigitsAtMost(s[..|s| - 1]); }
  }

  // ---- What the gate reads, letter by letter -------------------------------

  /** The keyword's character, or its capital, 32 places before. */
  predicate SameLetter(c: char, small: char)
  {
    c as int + (if 'A' <= c <= 'Z' then 32 else 0) == small as int
  }

  predicate SpelledAt(text: string, word: string, i: nat)
  {
    i + |word| <= |text| && forall k | 0 <= k < |word| :: SameLetter(text[i + k], word[k])
  }

  /** One of the words stands in the text, in any mix of cases. */
  ghost predicate Spells(text: string, words: seq<string>)
  {
    exists w, i: nat :: 0 <= w < |words| && SpelledAt(text, words[w], i)
  }

  lemma SpellsIffHasKeyword(text: string, words: seq<string>)
    ensures Spells(text, words) <==> HasKeyword(text, words)
  {
    forall c, small ensures SameLetter(c, small) <==> Lower(c) == small {}
    if Spells(text, words) {
      var w, i: nat :| 0 <= w < |words| && SpelledAt(text, words[w], i);
      assert FoundAt(text, words[w], i);
    }
    if HasKeyword(text, words) {
      var w, i :| 0 <= w < |words| && 0 <= i <= |text| && FoundAt(text, words[w], i);
      assert SpelledAt(text, words[w], i);
    }
  }

  /** The places of digits between `a` and `b`. */
  function DigitPlaces(text: string, a: nat, b: nat): set<nat>
    requires b <= |text|
  {
    set k: nat | a <= k < b && '0' <= text[k] <= '9'
  }

  lemma NextPlace(text: string, a: nat, b: nat)
    requires a < b <= |text|
    ensures |DigitPlaces(text, a, b)| == |DigitPlaces(text, a, b - 1)| + if '0' <= text[b - 1] <= '9' then 1 else 0
  {
    assert DigitPlaces(text, a, b)
        == DigitPlaces(text, a, b - 1) + if '0' <= text[b - 1] <= '9' then {b - 1} else {};
  }

  lemma NextDigit(text: string, a: nat, b: nat)
    requires a < b <= |text|
    ensures Digits(text[a..b]) == Digits(text[a..b - 1]) + if '0' <= text[b - 1] <= '9' then 1 else 0
  {
    assert text[a..b][..b - a - 1] == text[a..b - 1];
  }

  lemma {:induction false} DigitsArePlaces(text: string, a: nat, b: nat)
    requires a <= b <= |text|
    ensures Digits(text[a..b]) == |DigitPlaces(text, a, b)|
    decreases b
  {
    if a < b {
      DigitsArePlaces(text, a, b - 1);
      NextPlace(text, a, b);
      NextDigit(text, a, b);
    } else {
      assert DigitPlaces(text, a, b) == {};
    }
  }

  /** Between `a` and `b` are only digits, spaces and dashes, nine or more of them digits. */
  ghost predicate NineDigits(text: string, a: nat, b: nat)
  {
    && a <= b <= |text| && |DigitPlaces(text, a, b)| >= 9
    && forall k | a <= k < b :: '0' <= text[k] <= '9' || text[k] == ' ' || text[k] == '-'
  }

  lemma StretchOfNine(text: string)
    ensures HasStretch(text, 9) <==> exists a, b :: NineDigits(text, a, b)
  {
    forall a: nat, b: nat | a <= b <= |text|
      ensures NineDigits(text, a, b) <==> DigitsAndSeparators(text[a..b]) && Digits(text[a..b]) >= 9
    {
      DigitsArePlaces(text, a, b);
      if DigitsAndSeparators(text[a..b]) {
        forall k | a <= k < b ensures '0' <= text[k] <= '9' || text[k] == ' ' || text[k] == '-' {
          assert text[a..b][k - a] == text[k];
        }
      }
    }
    if HasStretch(text, 9) {
      var a: nat, b: nat :| 0 <= a <= b <= |text| && DigitsAndSeparators(text[a..b]) && Digits(text[a..b]) >= 9;
      assert NineDigits(text, a, b);
    }
  }

  /** The text spells a keyword, in any mix of cases, or has nine digits in a stretch of
      digits, spaces and dashes. */
  ghost predicate Indicated(text: string)
  {
    || Spells(text, ["aadhaar", "aadhar", "pan card", "pan number", "ifsc"])
    || Spells(text, ["credit card", "debit card", "card number", "bank account", "account number",
                     "ssn", "social security", "@"])
    || exists a, b :: NineDigits(text, a, b)
  }

  /** The gate in plain characters. */
  lemma BypassedIffNotIndicated(text: string)
    ensures Bypassed(text) <==> !Indicated(text)
    ensures HasKeyword(text, INDIAN_KEYWORDS) <==> Spells(text, ["aadhaar", "aadhar", "pan card", "pan number", "ifsc"])
  {
    SpellsIffHasKeyword(text, INDIAN_KEYWORDS);
    SpellsIffHasKeyword(text, OTHER_KEYWORDS);
    StretchOfNine(text);
  }
}
