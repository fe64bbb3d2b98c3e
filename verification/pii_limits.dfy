/** Where redaction misses: an entity over two strings, and an entity behind an
    occurrence of the same characters. And where it does not: an entity that is let
    through alone, behind its keyword. */
module PiiLimits {
  import opened Wrappers
  import opened Json
  import opened Redaction
  import opened TierOne
  import opened PiiEngine

  /** The character classes treat space and letters as they should. */
  ghost predicate Usual(cs: Classes)
  {
    ExtendsAscii(cs) && !cs.digit(' ') && !cs.word(' ') && !cs.digit('a')
  }

  lemma {:induction false} CountOfDigits(cs: Classes, s: string)
    requires ExtendsAscii(cs) && forall k | 0 <= k < |s| :: IsAsciiDigit(s[k])
    ensures CountDigits(cs, s) == |s|
  {
    if s != "" { CountOfDigits(cs, s[..|s| - 1]); }
  }

  lemma {:induction false} CountsOfConcat(cs: Classes, a: string, b: string)
    ensures CountDigits(cs, a + b) == CountDigits(cs, a) + CountDigits(cs, b)
  {
    if b == "" {
      assert a + b == a;
    } else {
      var n := |b| - 1;
      CountsOfConcat(cs, a, b[..n]);
      assert (a + b)[..|a + b| - 1] == a + b[..n];
    }
  }

  // ---- A scan that finds one entity ----------------------------------------

  lemma ListedAreDifferent(reps: seq<Replacement>, m: map<string, string>, i: nat, j: nat)
    requires Lists(reps, m) && i < j < |reps|
    ensures reps[i].token != reps[j].token
  {
  }

  lemma SingleListed(reps: seq<Replacement>, t: string, original: string)
    requires Lists(reps, map[t := original])
    ensures reps == [Replacement(original, t)]
  {
    var m := map[t := original];
    assert t in m && IsListed(t, reps);
    assert forall i | 0 <= i < |reps| :: reps[i].token in m && reps[i] == Replacement(original, t);
    if |reps| > 1 { ListedAreDifferent(reps, m, 0, 1); }
  }

  lemma OneEntityMap(text: string, e: Entity, ids: nat -> string)
    requires InRange(e, text) && e.start <= e.end
    ensures TokenMap(text, [e], ids) == map[MakeToken(e.kind, ids(0)) := text[e.start..e.end]]
    ensures CountInRange(text, [e]) == 1
  {
    assert [e][..0] == [];
    assert TokenMap(text, [], ids) == map[];
  }

  lemma OneEntityScan(
    r: Result<RedactionResult, Error>, applied: seq<Replacement>,
    v: Json, order: FieldOrder, analyze: Analyzer, ids: nat -> string, e: Entity)
    requires var text := TextOf(v, order);
      && text != "" && !Bypassed(text) && analyze(text) == Ok([e]) && InRange(e, text) && e.start <= e.end
    requires Scans(r, applied, v, order, analyze, ids)
    ensures var original, token := TextOf(v, order)[e.start..e.end], MakeToken(e.kind, ids(0));
      && applied == [Replacement(original, token)]
      && r.Ok? && r.value.tokenMap == map[token := original] && r.value.redactedCount == 1
      && r.value.sanitized == RedactTree(v, applied)
  {
    var text := TextOf(v, order);
    OneEntityMap(text, e, ids);
    SingleListed(applied, MakeToken(e.kind, ids(0)), text[e.start..e.end]);
  }

  // ---- An entity over two strings ------------------------------------------

  /** A card number split over two strings. */
  const LEFT: string := "1234567"
  const RIGHT: string := "8901234"
  const CARD: string := LEFT + " " + RIGHT
  const SPLIT := Arr([Str(LEFT), Str(RIGHT)])

  lemma CardIsInLanguage(cs: Classes)
    requires Usual(cs)
    ensures InLanguage(cs, CreditCard, CARD)
  {
    CountOfDigits(cs, LEFT);
    CountOfDigits(cs, RIGHT);
    CountsOfConcat(cs, LEFT, " ");
    CountsOfConcat(cs, LEFT + " ", RIGHT);
    assert CountDigits(cs, " ") == 0 by { assert " "[0..0] == ""; }
  }

  lemma SplitText(order: FieldOrder)
    ensures TextOf(SPLIT, order) == CARD + " "
  {
    assert TextOfItems(SPLIT, 0, order) == "";
    assert TextOfItems(SPLIT, 1, order) == LEFT + " ";
    assert TextOfItems(SPLIT, 2, order) == LEFT + " " + (RIGHT + " ");
  }

  lemma NeitherHoldsCard()
    ensures forall s | HasString(SPLIT, s) :: Absent(s, CARD)
  {
    forall s | HasString(SPLIT, s) ensures |s| == 7 {
      var i :| 0 <= i < |SPLIT.items| && HasString(SPLIT.items[i], s);
      assert SPLIT.items[i] == Str(LEFT) || SPLIT.items[i] == Str(RIGHT);
    }
  }

  /** The collected text of a card number split over two strings has a match of the
      credit-card pattern, boundaries included, but neither string contains it. */
  lemma SplitCardNumber(order: FieldOrder, cs: Classes)
    requires Usual(cs)
    ensures MatchesAt(cs, CreditCard, TextOf(SPLIT, order), 0, 15) && TextOf(SPLIT, order)[..15] == CARD
    ensures forall s | HasString(SPLIT, s) :: Absent(s, CARD)
  {
    SplitText(order);
    CardIsInLanguage(cs);
    NeitherHoldsCard();
    assert (CARD + " ")[0..15] == CARD;
  }

  /** A scan whose backend reports that match counts one entity and lets the number out
      as it came in. */
  lemma SplitCardIsKept(
    r: Result<RedactionResult, Error>, applied: seq<Replacement>,
    order: FieldOrder, cs: Classes, analyze: Analyzer, ids: nat -> string)
    requires Usual(cs) && analyze(TextOf(SPLIT, order)) == Ok([Entity("CREDIT_CARD", 0, 15)])
    requires Scans(r, applied, SPLIT, order, analyze, ids)
    ensures r.Ok? && r.value.sanitized == SPLIT && r.value.redactedCount == 1
    ensures r.value.tokenMap == map[MakeToken("CREDIT_CARD", ids(0)) := CARD]
  {
    var text := TextOf(SPLIT, order);
    SplitText(order);
    SplitCardNumber(order, cs);
    PieceMeansDeepScan(cs, CreditCard, text, 0, 15);
    OneEntityScan(r, applied, SPLIT, order, analyze, ids, Entity("CREDIT_CARD", 0, 15));
    UnchangedWithoutOriginals(SPLIT, applied);
  }

  // ---- An entity behind the same characters --------------------------------

  const NUMBER: string := "123456789"
  /** The first run of digits has no word boundary before it, the second does. */
  const TWICE: string := "a" + NUMBER + " " + NUMBER

  /** Of the two runs only the second is a bank-account number. */
  lemma SecondRunMatches(order: FieldOrder, cs: Classes)
    requires Usual(cs)
    ensures TextOf(Str(TWICE), order) == TWICE + " "
    ensures MatchesAt(cs, BankAccount, TWICE + " ", 11, 20) && !Boundary(cs, TWICE + " ", 1)
    ensures !Bypassed(TWICE + " ")
  {
    var text := TWICE + " ";
    assert text[11..20] == NUMBER;
    PieceMeansDeepScan(cs, BankAccount, text, 11, 20);
  }

  lemma FirstRunIsFound()
    ensures Find(TWICE, NUMBER) == Some(1)
  {
    assert TWICE[0..9][0] == 'a';
    assert TWICE[1..10] == NUMBER;
    assert OccursAt(TWICE, NUMBER, 1);
  }

  lemma TwiceRedacted(token: string)
    ensures RedactString(TWICE, [Replacement(NUMBER, token)]) == "a" + token + " " + NUMBER
  {
    var reps := [Replacement(NUMBER, token)];
    FirstRunIsFound();
    assert reps[..0] == [] && RedactString(TWICE, reps[..0]) == TWICE;
    assert TWICE[..1] == "a" && TWICE[10..] == " " + NUMBER;
    assert "a" + token + (" " + NUMBER) == "a" + token + " " + NUMBER;
  }

  lemma NumberAtEnd(cs: Classes, before: string)
    requires Usual(cs)
    ensures var out := before + " " + NUMBER; MatchesAt(cs, BankAccount, out, |out| - 9, |out|)
  {
    var out := before + " " + NUMBER;
    assert out[|before| + 1..|before| + 10] == NUMBER;
    assert out[|before|] == ' ';
  }

  lemma TwiceScanned(
    r: Result<RedactionResult, Error>, applied: seq<Replacement>,
    order: FieldOrder, cs: Classes, analyze: Analyzer, ids: nat -> string)
    requires Usual(cs) && analyze(TWICE + " ") == Ok([Entity("BANK_ACCOUNT", 11, 20)])
    requires Scans(r, applied, Str(TWICE), order, analyze, ids)
    ensures var token := MakeToken("BANK_ACCOUNT", ids(0));
      && r.Ok? && r.value.redactedCount == 1
      && r.value.sanitized == Str(RedactString(TWICE, [Replacement(NUMBER, token)]))
  {
    SecondRunMatches(order, cs);
    assert (TWICE + " ")[11..20] == NUMBER;
    OneEntityScan(r, applied, Str(TWICE), order, analyze, ids, Entity("BANK_ACCOUNT", 11, 20));
  }

  /** A scan whose backend reports the second run replaces the first, and the reported
      number goes out, still a match of the pattern. */
  lemma WrongRunIsReplaced(
    r: Result<RedactionResult, Error>, applied: seq<Replacement>,
    order: FieldOrder, cs: Classes, analyze: Analyzer, ids: nat -> string)
    requires Usual(cs) && analyze(TWICE + " ") == Ok([Entity("BANK_ACCOUNT", 11, 20)])
    requires Scans(r, applied, Str(TWICE), order, analyze, ids)
    ensures r.Ok? && r.value.sanitized.Str? && r.value.redactedCount == 1
    ensures var out, token := r.value.sanitized.s, MakeToken("BANK_ACCOUNT", ids(0));
      out == "a" + token + " " + NUMBER && MatchesAt(cs, BankAccount, out, |out| - 9, |out|)
  {
    var token := MakeToken("BANK_ACCOUNT", ids(0));
    TwiceScanned(r, applied, order, cs, analyze, ids);
    TwiceRedacted(token);
    NumberAtEnd(cs, "a" + token);
  }

  // ---- An entity behind a keyword ------------------------------------------

  /** The keyword in capitals and small letters, and the number. */
  const LABELLED: string := "PAN Card ABCDE1234F"

  lemma LabelIsSpelled()
    ensures !Bypassed(LABELLED + " ")
    ensures HasKeyword(LABELLED + " ", INDIAN_KEYWORDS)
  {
    var words := ["aadhaar", "aadhar", "pan card", "pan number", "ifsc"];
    assert words[2] == "pan card" && SpelledAt(LABELLED + " ", words[2], 0);
    BypassedIffNotIndicated(LABELLED + " ");
  }

  lemma PanIsFound()
    ensures LABELLED[9..19] == "ABCDE1234F" && Find(LABELLED, "ABCDE1234F") == Some(9)
  {
    forall i | 0 <= i < 9 ensures !OccursAt(LABELLED, "ABCDE1234F", i) {
      assert LABELLED[i..i + 10][0] == LABELLED[i] && LABELLED[i..i + 10][1] == LABELLED[i + 1];
    }
    assert OccursAt(LABELLED, "ABCDE1234F", 9);
  }

  lemma LabelStays(token: string)
    ensures RedactString(LABELLED, [Replacement("ABCDE1234F", token)]) == "PAN Card " + token
  {
    var reps := [Replacement("ABCDE1234F", token)];
    PanIsFound();
    assert reps[..0] == [] && RedactString(LABELLED, reps[..0]) == LABELLED;
    assert LABELLED[..9] == "PAN Card " && LABELLED[19..] == "";
  }

  /** A PAN number that is let through alone is redacted behind its keyword, whatever the
      keyword's case, if the backend reports it. */
  lemma LabelledPanIsRedacted(
    r: Result<RedactionResult, Error>, applied: seq<Replacement>, order: FieldOrder, analyze: Analyzer, ids: nat -> string)
    requires analyze("PAN Card ABCDE1234F" + " ") == Ok([Entity("PAN", 9, 19)])
    requires Scans(r, applied, Str("PAN Card ABCDE1234F"), order, analyze, ids)
    ensures var token := "<PAN_REDACTED>_" + ids(0);
      r == Ok(RedactionResult(Str("PAN Card " + token), map[token := "ABCDE1234F"], 1, true))
  {
    var token := MakeToken("PAN", ids(0));
    assert "<" + "PAN" + "_REDACTED>_" == "<PAN_REDACTED>_";
    LabelIsSpelled();
    PanIsFound();
    assert (LABELLED + " ")[9..19] == LABELLED[9..19];
    OneEntityScan(r, applied, Str(LABELLED), order, analyze, ids, Entity("PAN", 9, 19));
    LabelStays(token);
  }
}
