/** The two-tier scan: collect the text of a JSON payload, gate it, ask the analyzer,
    and replace what it found in every string of the payload. */
module PiiEngine {
  import opened Wrappers
  import opened Json
  import opened Redaction
  import opened TierOne

  // ---- Collecting text -----------------------------------------------------

  /** The order in which an object's fields are visited. */
  type FieldOrder = set<string> -> seq<string>

  ghost predicate Enumerates(order: FieldOrder)
  {
    forall keys: set<string> :: (set k | k in order(keys)) == keys
  }

  /** Every string of the tree, each followed by a space. */
  function TextOf(v: Json, order: FieldOrder): string
    decreases v, 1, 0
  {
    match v
    case Str(s) => s + " "
    case Arr(items) => TextOfItems(v, |items|, order)
    case Obj(fields) => TextOfFields(v, order(fields.Keys), order)
    case _ => ""
  }

  function TextOfItems(v: Json, n: nat, order: FieldOrder): string
    requires v.Arr? && n <= |v.items|
    decreases v, 0, n
  {
    if n == 0 then "" else TextOfItems(v, n - 1, order) + TextOf(v.items[n - 1], order)
  }

  function TextOfFields(v: Json, keys: seq<string>, order: FieldOrder): string
    requires v.Obj?
    decreases v, 0, |keys|
  {
    if keys == [] then ""
    else
      var k := keys[|keys| - 1];
      TextOfFields(v, keys[..|keys| - 1], order) + if k in v.fields then TextOf(v.fields[k], order) else ""
  }

  method CollectText(v: Json, order: FieldOrder, buf: string) returns (out: string)
    ensures out == buf + TextOf(v, order)
    decreases v
  {
    out := buf;
    match v
    case Str(s) =>
      out := out + s;
      out := out + " ";
      assert buf + s + " " == buf + (s + " ");
    case Arr(items) =>
      for i := 0 to |items|
        invariant out == buf + TextOfItems(v, i, order)
      {
        ghost var before := TextOfItems(v, i, order);
        out := CollectText(items[i], order, out);
        assert buf + before + TextOf(items[i], order) == buf + (before + TextOf(items[i], order));
      }
    case Obj(fields) =>
      var keys := order(fields.Keys);
      for i := 0 to |keys|
        invariant out == buf + TextOfFields(v, keys[..i], order)
      {
        assert keys[..i + 1][..i] == keys[..i];
        if keys[i] in fields {
          ghost var before := TextOfFields(v, keys[..i], order);
          out := CollectText(fields[keys[i]], order, out);
          assert buf + before + TextOf(fields[keys[i]], order) == buf + (before + TextOf(fields[keys[i]], order));
        } else {
          assert TextOfFields(v, keys[..i + 1], order) == TextOfFields(v, keys[..i], order);
        }
      }
      assert keys[..|keys|] == keys;
    case _ =>
  }

  predicate IsPiece(s: string, text: string)
  {
    exists a :: 0 <= a <= |text| && OccursAt(text, s, a)
  }

  lemma PieceOfConcat(s: string, x: string, y: string)
    requires IsPiece(s, x) || IsPiece(s, y)
    ensures IsPiece(s, x + y)
  {
    if IsPiece(s, x) {
      var a :| 0 <= a <= |x| && OccursAt(x, s, a);
      assert (x + y)[a..a + |s|] == s;
      assert OccursAt(x + y, s, a);
    } else {
      var a :| 0 <= a <= |y| && OccursAt(y, s, a);
      assert (x + y)[|x| + a..|x| + a + |s|] == s;
      assert OccursAt(x + y, s, |x| + a);
    }
  }

  /** Every string of the tree is a piece of its text. */
  lemma {:induction false} StringsArePieces(v: Json, order: FieldOrder, s: string)
    requires Enumerates(order) && HasString(v, s)
    ensures IsPiece(s, TextOf(v, order))
    decreases v, 1, 0
  {
    match v
    case Str(t) =>
      assert (t + " ")[0..|t|] == t;
      assert OccursAt(t + " ", t, 0);
    case Arr(items) =>
      var i :| 0 <= i < |items| && HasString(items[i], s);
      ItemPieces(v, |items|, order, s, i);
    case Obj(fields) =>
      var k :| k in fields && HasString(fields[k], s);
      assert k in (set x | x in order(fields.Keys));
      FieldPieces(v, order(fields.Keys), order, s, k);
    case _ =>
  }

  lemma {:induction false} ItemPieces(v: Json, n: nat, order: FieldOrder, s: string, i: nat)
    requires Enumerates(order) && v.Arr? && i < n <= |v.items| && HasString(v.items[i], s)
    ensures IsPiece(s, TextOfItems(v, n, order))
    decreases v, 0, n
  {
    if i == n - 1 {
      StringsArePieces(v.items[i], order, s);
    } else {
      ItemPieces(v, n - 1, order, s, i);
    }
    PieceOfConcat(s, TextOfItems(v, n - 1, order), TextOf(v.items[n - 1], order));
  }

  lemma {:induction false} FieldPieces(v: Json, keys: seq<string>, order: FieldOrder, s: string, k: string)
    requires Enumerates(order) && v.Obj? && k in keys && k in v.fields && HasString(v.fields[k], s)
    ensures IsPiece(s, TextOfFields(v, keys, order))
    decreases v, 0, |keys|
  {
    var n := |keys| - 1;
    if keys[n] == k {
      StringsArePieces(v.fields[k], order, s);
    } else {
      FieldPieces(v, keys[..n], order, s, k);
    }
    PieceOfConcat(s, TextOfFields(v, keys[..n], order),
                  if keys[n] in v.fields then TextOf(v.fields[keys[n]], order) else "");
  }

  /** The strings one after the other, a space behind each. */
  function Spaced(strings: seq<string>): string
  {
    if strings == [] then "" else Spaced(strings[..|strings| - 1]) + strings[|strings| - 1] + " "
  }

  lemma {:induction false} SpacedConcat(a: seq<string>, b: seq<string>)
    ensures Spaced(a + b) == Spaced(a) + Spaced(b)
  {
    if b == [] {
      assert a + b == a;
    } else {
      var n := |b| - 1;
      SpacedConcat(a, b[..n]);
      assert (a + b)[..|a + b| - 1] == a + b[..n];
    }
  }

  /** The collected text is the strings of the tree, and nothing but them, a space behind
      each. */
  lemma {:induction false} TextIsSpacedStrings(v: Json, order: FieldOrder) returns (strings: seq<string>)
    requires Enumerates(order)
    ensures TextOf(v, order) == Spaced(strings)
    ensures forall s :: s in strings <==> HasString(v, s)
    decreases v, 1, 0
  {
    match v
    case Str(s) =>
      strings := [s];
      assert strings[..0] == [];
      assert "" + s + " " == s + " ";
    case Arr(items) => strings := ItemStrings(v, |items|, order);
    case Obj(fields) =>
      strings := FieldStrings(v, order(fields.Keys), order);
      assert forall k :: k in (set x | x in order(fields.Keys)) <==> k in fields;
    case _ => strings := [];
  }

  lemma {:induction false} ItemStrings(v: Json, n: nat, order: FieldOrder) returns (strings: seq<string>)
    requires Enumerates(order) && v.Arr? && n <= |v.items|
    ensures TextOfItems(v, n, order) == Spaced(strings)
    ensures forall s :: s in strings <==> exists i :: 0 <= i < n && HasString(v.items[i], s)
    decreases v, 0, n
  {
    strings := [];
    if n > 0 {
      var before := ItemStrings(v, n - 1, order);
      var last := TextIsSpacedStrings(v.items[n - 1], order);
      SpacedConcat(before, last);
      strings := before + last;
    }
  }

  lemma {:induction false} FieldStrings(v: Json, keys: seq<string>, order: FieldOrder) returns (strings: seq<string>)
    requires Enumerates(order) && v.Obj?
    ensures TextOfFields(v, keys, order) == Spaced(strings)
    ensures forall s :: s in strings <==> exists k :: k in keys && k in v.fields && HasString(v.fields[k], s)
    decreases v, 0, |keys|
  {
    strings := [];
    if keys != [] {
      var n := |keys| - 1;
      strings := FieldStrings(v, keys[..n], order);
      assert forall k :: k in keys <==> k in keys[..n] || k == keys[n];
      if keys[n] in v.fields {
        var last := TextIsSpacedStrings(v.fields[keys[n]], order);
        SpacedConcat(strings, last);
        strings := strings + last;
      }
    }
  }

  lemma BypassIsSafeInPiece(text: string, cs: Classes, p: Pattern, s: string)
    requires ExtendsAscii(cs) && AsciiDigitsOnly(cs, text) && Bypassed(text) && p != Pan && p != Ifsc
    requires IsPiece(s, text)
    ensures !Matches(cs, p, s)
  {
    var a :| 0 <= a <= |text| && OccursAt(text, s, a);
    BypassHidesNothing(cs, p, text, a, a + |s|);
  }

  /** When the engine skips the deep scan, no string of the payload holds a match of
      the SSN, credit-card, e-mail, Aadhaar or bank-account patterns. */
  lemma BypassIsSafe(v: Json, order: FieldOrder, cs: Classes, p: Pattern, s: string)
    requires Enumerates(order) && ExtendsAscii(cs) && AsciiDigitsOnly(cs, TextOf(v, order))
    requires Bypassed(TextOf(v, order)) && p != Pan && p != Ifsc
    requires HasString(v, s)
    ensures !Matches(cs, p, s)
  {
    StringsArePieces(v, order, s);
    BypassIsSafeInPiece(TextOf(v, order), cs, p, s);
  }

  // ---- The scan ------------------------------------------------------------

  datatype Error = PiiEngineFailure

  datatype Entity = Entity(kind: string, start: nat, end: nat)

  datatype RedactionResult = RedactionResult(
    sanitized: Json, tokenMap: map<string, string>, redactedCount: nat, indianPii: bool)

  /** The deep-scan backend. */
  type Analyzer = string -> Result<seq<Entity>, Error>

  predicate InRange(e: Entity, text: string)
  {
    e.start < |text| && e.end <= |text|
  }

  predicate IsIndian(e: Entity)
  {
    e.kind == "AADHAAR" || e.kind == "PAN" || e.kind == "IFSC"
  }

  /** Fresh identifiers for `n` entities: all different, of one length, no angle brackets. */
  ghost predicate FreshIds(ids: nat -> string, n: nat)
  {
    && (forall i | 0 <= i < n :: |ids(i)| == 32 && Plain(ids(i)))
    && (forall i, j | 0 <= i < j < n :: ids(i) != ids(j))
  }

  /** What the backend promises of its entities within the text. */
  ghost predicate Sane(text: string, entities: seq<Entity>)
  {
    Ordered(text, entities) && forall i | 0 <= i < |entities| && InRange(entities[i], text) :: Plain(entities[i].kind)
  }

  /** The text is sliced at an entity within it, which needs its start before its end. */
  predicate Ordered(text: string, entities: seq<Entity>)
  {
    forall i | 0 <= i < |entities| && InRange(entities[i], text) :: entities[i].start <= entities[i].end
  }

  /** The token of the i-th entity, for entities within the text. */
  function TokenMap(text: string, entities: seq<Entity>, ids: nat -> string): map<string, string>
    requires Ordered(text, entities)
  {
    if entities == [] then map[]
    else
      var n := |entities| - 1;
      var e := entities[n];
      var before := TokenMap(text, entities[..n], ids);
      if InRange(e, text) then before[MakeToken(e.kind, ids(n)) := text[e.start..e.end]] else before
  }

  function CountInRange(text: string, entities: seq<Entity>): nat
  {
    if entities == [] then 0
    else CountInRange(text, entities[..|entities| - 1]) + if InRange(entities[|entities| - 1], text) then 1 else 0
  }

  predicate IsListed(t: string, reps: seq<Replacement>)
  {
    exists i :: 0 <= i < |reps| && reps[i].token == t
  }

  /** `reps` lists the map's tokens and originals once each, in some order. */
  ghost predicate Lists(reps: seq<Replacement>, m: map<string, string>)
  {
    && (forall i | 0 <= i < |reps| :: reps[i].token in m && m[reps[i].token] == reps[i].original)
    && (forall t | t in m :: IsListed(t, reps))
    && (forall i, j | 0 <= i < j < |reps| :: reps[i].token != reps[j].token)
  }

  ghost predicate MakesToken(e: Entity, id: string, text: string, t: string)
  {
    InRange(e, text) && t == MakeToken(e.kind, id)
  }

  /** `t` is the token of one of the entities within the text. */
  ghost predicate IsMade(t: string, text: string, entities: seq<Entity>, ids: nat -> string)
  {
    exists i: nat :: i < |entities| && MakesToken(entities[i], ids(i), text, t)
  }

  lemma {:induction false} TokensAreMade(text: string, entities: seq<Entity>, ids: nat -> string)
    requires Ordered(text, entities)
    ensures forall t | t in TokenMap(text, entities, ids) :: IsMade(t, text, entities, ids)
  {
    if entities != [] {
      var n := |entities| - 1;
      TokensAreMade(text, entities[..n], ids);
      forall t | t in TokenMap(text, entities, ids) ensures IsMade(t, text, entities, ids) {
        if t in TokenMap(text, entities[..n], ids) {
          var i: nat :| i < n && MakesToken(entities[..n][i], ids(i), text, t);
          assert MakesToken(entities[i], ids(i), text, t);
        } else {
          assert MakesToken(entities[n], ids(n), text, t);
        }
      }
    }
  }

  lemma {:induction false} OneTokenEach(text: string, entities: seq<Entity>, ids: nat -> string)
    requires FreshIds(ids, |entities|) && Sane(text, entities)
    ensures |TokenMap(text, entities, ids)| == CountInRange(text, entities)
  {
    if entities != [] {
      var n := |entities| - 1;
      OneTokenEach(text, entities[..n], ids);
      TokensAreMade(text, entities[..n], ids);
      if InRange(entities[n], text) { NewTokenIsNew(text, entities, ids); }
    }
  }

  lemma NewTokenIsNew(text: string, entities: seq<Entity>, ids: nat -> string)
    requires FreshIds(ids, |entities|) && Sane(text, entities)
    requires entities != [] && InRange(entities[|entities| - 1], text)
    ensures var n := |entities| - 1; !IsMade(MakeToken(entities[n].kind, ids(n)), text, entities[..n], ids)
  {
    var n := |entities| - 1;
    var token := MakeToken(entities[n].kind, ids(n));
    forall i: nat | i < n ensures !MakesToken(entities[..n][i], ids(i), text, token) {
      if InRange(entities[i], text) { MadeTokensAreApart(entities[i].kind, ids(i), entities[n].kind, ids(n)); }
    }
  }

  /** The entity a token of the map was made for. */
  lemma MakerOf(text: string, entities: seq<Entity>, ids: nat -> string, t: string) returns (i: nat)
    requires Ordered(text, entities) && t in TokenMap(text, entities, ids)
    ensures i < |entities| && MakesToken(entities[i], ids(i), text, t)
  {
    TokensAreMade(text, entities, ids);
    i :| i < |entities| && MakesToken(entities[i], ids(i), text, t);
  }

  lemma MapTokensAreApart(text: string, entities: seq<Entity>, ids: nat -> string, t: string, t': string)
    requires FreshIds(ids, |entities|) && Sane(text, entities)
    requires t in TokenMap(text, entities, ids) && t' in TokenMap(text, entities, ids)
    ensures IsToken(t) && (t != t' ==> Apart(t, t'))
  {
    var a := MakerOf(text, entities, ids, t);
    var b := MakerOf(text, entities, ids, t');
    MadeTokens(entities[a].kind, ids(a));
    if a != b { MadeTokensAreApart(entities[a].kind, ids(a), entities[b].kind, ids(b)); }
  }

  lemma ListedTokensAreDistinct(text: string, entities: seq<Entity>, ids: nat -> string, reps: seq<Replacement>)
    requires FreshIds(ids, |entities|) && Sane(text, entities) && Lists(reps, TokenMap(text, entities, ids))
    ensures Distinct(reps)
  {
    forall i | 0 <= i < |reps| ensures IsToken(reps[i].token) {
      MapTokensAreApart(text, entities, ids, reps[i].token, reps[i].token);
    }
    forall i, j | 0 <= i < j < |reps| ensures Apart(reps[i].token, reps[j].token) {
      MapTokensAreApart(text, entities, ids, reps[i].token, reps[j].token);
    }
  }

  /** What a scan must return, its replacements made in the order of `applied`. */
  ghost predicate Scans(
    r: Result<RedactionResult, Error>, applied: seq<Replacement>,
    v: Json, order: FieldOrder, analyze: Analyzer, ids: nat -> string)
    requires var found := analyze(TextOf(v, order)); found.Ok? ==> Ordered(TextOf(v, order), found.value)
  {
    var text := TextOf(v, order);
    if text == "" || Bypassed(text) then r == Ok(RedactionResult(v, map[], 0, false))
    else
      var indian := HasKeyword(text, INDIAN_KEYWORDS);
      match analyze(text)
      case Err(e) => r == Err(e)
      case Ok(entities) =>
        if entities == [] then r == Ok(RedactionResult(v, map[], 0, indian))
        else
          && Lists(applied, TokenMap(text, entities, ids))
          && r == Ok(RedactionResult(
               RedactTree(v, applied), TokenMap(text, entities, ids), CountInRange(text, entities),
               indian || exists i :: 0 <= i < |entities| && IsIndian(entities[i])))
  }

  method ListMap(m: map<string, string>) returns (reps: seq<Replacement>)
    ensures Lists(reps, m)
  {
    reps := [];
    var todo := m.Keys;
    while todo != {}
      invariant todo <= m.Keys
      invariant forall i | 0 <= i < |reps| :: reps[i].token in m.Keys - todo && m[reps[i].token] == reps[i].original
      invariant forall t | t in m.Keys - todo :: IsListed(t, reps)
      invariant forall i, j | 0 <= i < j < |reps| :: reps[i].token != reps[j].token
      decreases todo
    {
      var t :| t in todo;
      ghost var before := reps;
      reps := reps + [Replacement(m[t], t)];
      todo := todo - {t};
      assert forall i | 0 <= i < |before| :: reps[i] == before[i];
      assert reps[|before|].token == t;
      forall u | u in m.Keys - todo ensures IsListed(u, reps) {
        assert u != t ==> IsListed(u, before);
      }
    }
    assert forall t | t in m :: t in m.Keys - todo;
  }

  /** One token for each entity within the text. */
  method MakeTokens(text: string, entities: seq<Entity>, ids: nat -> string) returns (tokenMap: map<string, string>, count: nat)
    requires Ordered(text, entities)
    ensures tokenMap == TokenMap(text, entities, ids) && count == CountInRange(text, entities)
  {
    tokenMap, count := map[], 0;
    for i := 0 to |entities|
      invariant tokenMap == TokenMap(text, entities[..i], ids) && count == CountInRange(text, entities[..i])
    {
      assert entities[..i + 1][..i] == entities[..i];
      var e := entities[i];
      if e.start < |text| && e.end <= |text| {
        tokenMap := tokenMap[MakeToken(e.kind, ids(i)) := text[e.start..e.end]];
        count := count + 1;
      }
    }
    assert entities[..|entities|] == entities;
  }

  method Scan(v: Json, order: FieldOrder, analyze: Analyzer, ids: nat -> string)
    returns (r: Result<RedactionResult, Error>)
    requires var found := analyze(TextOf(v, order)); found.Ok? ==> Ordered(TextOf(v, order), found.value)
    ensures exists applied :: Scans(r, applied, v, order, analyze, ids)
  {
    var text := CollectText(v, order, "");
    assert text == TextOf(v, order);
    r := Ok(RedactionResult(v, map[], 0, false));
    if text == "" {
      assert Scans(r, [], v, order, analyze, ids);
      return;
    }
    var indian := HasKeyword(text, INDIAN_KEYWORDS);
    var other := HasKeyword(text, OTHER_KEYWORDS);
    var hasLongDigits := ContainsDigitSequence(text, 9);
    if !indian && !other && !hasLongDigits {
      assert Scans(r, [], v, order, analyze, ids);
      return;
    }
    var found := analyze(text);
    if found.Err? {
      r := Err(found.error);
      assert Scans(r, [], v, order, analyze, ids);
      return;
    }
    var entities := found.value;
    if entities == [] {
      r := Ok(RedactionResult(v, map[], 0, indian));
      assert Scans(r, [], v, order, analyze, ids);
      return;
    }
    var tokenMap, count := MakeTokens(text, entities, ids);
    var indianFromTier2 := exists e :: e in entities && IsIndian(e);
    assert indianFromTier2 <==> exists i :: 0 <= i < |entities| && IsIndian(entities[i]);
    var reps := ListMap(tokenMap);
    var sanitized := ApplyTokenReplacements(v, reps);
    r := Ok(RedactionResult(sanitized, tokenMap, count, indian || indianFromTier2));
    assert Scans(r, reps, v, order, analyze, ids);
  }

  /** Undoing a scan: with identifiers none of whose tokens occurs in a string of the
      payload, replacing tokens by originals in reverse order gives the payload back,
      whatever the backend reported and in whatever order the tokens were applied; and
      there is one map entry for every entity counted. */
  lemma ScanCanBeUndone(
    r: Result<RedactionResult, Error>, applied: seq<Replacement>,
    v: Json, order: FieldOrder, analyze: Analyzer, ids: nat -> string)
    requires var found := analyze(TextOf(v, order));
      found.Ok? ==> Sane(TextOf(v, order), found.value) && FreshIds(ids, |found.value|)
    requires Scans(r, applied, v, order, analyze, ids) && r.Ok?
    requires forall s, t | HasString(v, s) && t in r.value.tokenMap :: Absent(s, t)
    ensures r.value.tokenMap == map[] ==> r.value.sanitized == v
    ensures r.value.tokenMap != map[] ==>
      Lists(applied, r.value.tokenMap) && RestoreTree(r.value.sanitized, applied) == v
    ensures |r.value.tokenMap| == r.value.redactedCount
  {
    var text := TextOf(v, order);
    if text != "" && !Bypassed(text) && analyze(text).Ok? && analyze(text).value != [] {
      var entities := analyze(text).value;
      OneTokenEach(text, entities, ids);
      ListedTokensAreDistinct(text, entities, ids, applied);
      DetokenizationUndoesRedaction(v, applied);
      assert applied != [] ==> applied[0].token in r.value.tokenMap;
      if r.value.tokenMap == map[] { UnchangedWithoutOriginals(v, applied); }
    }
  }

  ghost predicate HoldsEntry(s: string, m: map<string, string>)
  {
    exists t :: t in m && !Absent(s, m[t])
  }

  lemma ListedOriginals(s: string, reps: seq<Replacement>, m: map<string, string>)
    requires Lists(reps, m)
    ensures HoldsOriginal(s, reps) <==> HoldsEntry(s, m)
  {
    if HoldsOriginal(s, reps) {
      var i :| 0 <= i < |reps| && !Absent(s, reps[i].original);
      assert m[reps[i].token] == reps[i].original;
    }
    if HoldsEntry(s, m) {
      var t :| t in m && !Absent(s, m[t]);
      assert IsListed(t, reps);
      var i :| 0 <= i < |reps| && reps[i].token == t;
    }
  }

  /** Redaction acts on single strings: if no string of the payload contains an original,
      the payload goes out as it came in, with every entity counted and given a token. */
  lemma EntitiesAcrossStringsAreKept(
    r: Result<RedactionResult, Error>, applied: seq<Replacement>,
    v: Json, order: FieldOrder, analyze: Analyzer, ids: nat -> string)
    requires var found := analyze(TextOf(v, order));
      found.Ok? && found.value != [] && Sane(TextOf(v, order), found.value) && FreshIds(ids, |found.value|)
    requires TextOf(v, order) != "" && !Bypassed(TextOf(v, order))
    requires Scans(r, applied, v, order, analyze, ids) && r.Ok?
    requires forall s | HasString(v, s) :: !HoldsEntry(s, r.value.tokenMap)
    ensures r.value.sanitized == v
    ensures r.value.redactedCount == |r.value.tokenMap| == CountInRange(TextOf(v, order), analyze(TextOf(v, order)).value)
  {
    var text := TextOf(v, order);
    OneTokenEach(text, analyze(text).value, ids);
    forall s | HasString(v, s) ensures !HoldsOriginal(s, applied) { ListedOriginals(s, applied, r.value.tokenMap); }
    UnchangedWithoutOriginals(v, applied);
  }

  /** The entity lies within the text, and the string contains its original. */
  ghost predicate HoldsOriginalOf(s: string, text: string, e: Entity)
  {
    InRange(e, text) && e.start <= e.end && !Absent(s, text[e.start..e.end])
  }

  ghost predicate HoldsEntity(s: string, text: string, entities: seq<Entity>)
  {
    exists i :: 0 <= i < |entities| && HoldsOriginalOf(s, text, entities[i])
  }

  lemma HoldsEntityAppend(s: string, text: string, entities: seq<Entity>, e: Entity)
    ensures HoldsEntity(s, text, entities + [e]) <==> HoldsEntity(s, text, entities) || HoldsOriginalOf(s, text, e)
  {
    var all := entities + [e];
    if HoldsEntity(s, text, entities) {
      var i :| 0 <= i < |entities| && HoldsOriginalOf(s, text, entities[i]);
      assert all[i] == entities[i];
    }
    assert all[|entities|] == e;
  }

  lemma HoldsEntryAppend(s: string, m: map<string, string>, t: string, original: string)
    requires t !in m
    ensures HoldsEntry(s, m[t := original]) <==> HoldsEntry(s, m) || !Absent(s, original)
  {
    var m' := m[t := original];
    if HoldsEntry(s, m) {
      var u :| u in m && !Absent(s, m[u]);
      assert u in m' && m'[u] == m[u];
    }
    if !Absent(s, original) { assert t in m' && m'[t] == original; }
  }

  /** The originals of the token map are those of the entities within the text. */
  lemma {:induction false} EntriesAreEntities(s: string, text: string, entities: seq<Entity>, ids: nat -> string)
    requires FreshIds(ids, |entities|) && Sane(text, entities)
    ensures HoldsEntry(s, TokenMap(text, entities, ids)) <==> HoldsEntity(s, text, entities)
  {
    if entities != [] {
      var n := |entities| - 1;
      var before, e := entities[..n], entities[n];
      assert entities == before + [e];
      HoldsEntityAppend(s, text, before, e);
      EntriesAreEntities(s, text, before, ids);
      if InRange(e, text) {
        TokensAreMade(text, before, ids);
        NewTokenIsNew(text, entities, ids);
        HoldsEntryAppend(s, TokenMap(text, before, ids), MakeToken(e.kind, ids(n)), text[e.start..e.end]);
      }
    }
  }

  /** No token that a scan can make for the entities occurs in a string of the payload. */
  ghost predicate TokensAreFresh(v: Json, text: string, entities: seq<Entity>, ids: nat -> string)
  {
    forall s, i: nat | HasString(v, s) && i < |entities| && InRange(entities[i], text) ::
      Absent(s, MakeToken(entities[i].kind, ids(i)))
  }

  lemma MapTokensAreAbsent(v: Json, text: string, entities: seq<Entity>, ids: nat -> string, s: string, t: string)
    requires Ordered(text, entities) && TokensAreFresh(v, text, entities, ids)
    requires HasString(v, s) && t in TokenMap(text, entities, ids)
    ensures Absent(s, t)
  {
    var i := MakerOf(text, entities, ids, t);
  }

  /** A scan lets the payload out as it came exactly if its text is empty or passes the
      first tier, or no single string of it contains the original of a reported entity. */
  lemma UnchangedIffNoStringHoldsAnOriginal(
    r: Result<RedactionResult, Error>, applied: seq<Replacement>,
    v: Json, order: FieldOrder, analyze: Analyzer, ids: nat -> string)
    requires var text := TextOf(v, order);
      analyze(text).Ok? ==>
        && Sane(text, analyze(text).value) && FreshIds(ids, |analyze(text).value|)
        && TokensAreFresh(v, text, analyze(text).value, ids)
    requires Scans(r, applied, v, order, analyze, ids) && r.Ok?
    ensures var text := TextOf(v, order);
      r.value.sanitized == v <==>
        text == "" || Bypassed(text) || forall s | HasString(v, s) :: !HoldsEntity(s, text, analyze(text).value)
  {
    var text := TextOf(v, order);
    if text != "" && !Bypassed(text) {
      var entities := analyze(text).value;
      if entities != [] { DeepScanUnchangedIff(r, applied, v, order, analyze, ids); }
    }
  }

  lemma DeepScanUnchangedIff(
    r: Result<RedactionResult, Error>, applied: seq<Replacement>,
    v: Json, order: FieldOrder, analyze: Analyzer, ids: nat -> string)
    requires var text := TextOf(v, order);
      && text != "" && !Bypassed(text) && analyze(text).Ok? && analyze(text).value != []
      && Sane(text, analyze(text).value) && FreshIds(ids, |analyze(text).value|)
      && TokensAreFresh(v, text, analyze(text).value, ids)
    requires Scans(r, applied, v, order, analyze, ids) && r.Ok?
    ensures var text := TextOf(v, order);
      r.value.sanitized == v <==> forall s | HasString(v, s) :: !HoldsEntity(s, text, analyze(text).value)
  {
    var text := TextOf(v, order);
    var entities := analyze(text).value;
    forall s, i | HasString(v, s) && 0 <= i < |applied| ensures Absent(s, applied[i].token) {
      MapTokensAreAbsent(v, text, entities, ids, s, applied[i].token);
    }
    ListedTokensAreDistinct(text, entities, ids, applied);
    TreeUnchangedIffNoOriginal(v, applied);
    forall s ensures HoldsOriginal(s, applied) <==> HoldsEntity(s, text, entities) {
      ListedOriginals(s, applied, TokenMap(text, entities, ids));
      EntriesAreEntities(s, text, entities, ids);
    }
  }

  // ---- What a scan does, in plain characters -------------------------------

  /** The deep scan is made, so that its failure is the scan's, exactly if the text is
      indicated; otherwise the payload goes out as it came. */
  lemma DeepScanIffIndicated(
    r: Result<RedactionResult, Error>, applied: seq<Replacement>,
    v: Json, order: FieldOrder, analyze: Analyzer, ids: nat -> string)
    requires analyze(TextOf(v, order)).Err? && Scans(r, applied, v, order, analyze, ids)
    ensures r == if Indicated(TextOf(v, order)) then Err(analyze(TextOf(v, order)).error)
                 else Ok(RedactionResult(v, map[], 0, false))
  {
    BypassedIffNotIndicated(TextOf(v, order));
  }

  /** The flag for Indian data is set exactly if one of five keywords is spelled, or the
      deep scan is made and reports an entity of one of three kinds. */
  lemma FlagIffIndian(
    r: Result<RedactionResult, Error>, applied: seq<Replacement>,
    v: Json, order: FieldOrder, analyze: Analyzer, ids: nat -> string)
    requires var found := analyze(TextOf(v, order)); found.Ok? ==> Ordered(TextOf(v, order), found.value)
    requires Scans(r, applied, v, order, analyze, ids) && r.Ok?
    ensures var text := TextOf(v, order);
      r.value.indianPii <==>
        || Spells(text, ["aadhaar", "aadhar", "pan card", "pan number", "ifsc"])
        || (Indicated(text) && analyze(text).Ok?
            && exists e :: e in analyze(text).value && (e.kind == "AADHAAR" || e.kind == "PAN" || e.kind == "IFSC"))
  {
    var text := TextOf(v, order);
    BypassedIffNotIndicated(text);
    if Indicated(text) && analyze(text).Ok? {
      assert forall e :: e in analyze(text).value <==> exists i :: 0 <= i < |analyze(text).value| && analyze(text).value[i] == e;
    }
  }

  /** The entity stands within the text, `t` is its token and `original` what it covers. */
  predicate Enters(e: Entity, id: string, text: string, t: string, original: string)
  {
    && e.start < |text| && e.start <= e.end <= |text|
    && t == "<" + e.kind + "_REDACTED>_" + id && original == text[e.start..e.end]
  }

  ghost predicate AnyEnters(entities: seq<Entity>, ids: nat -> string, text: string, t: string, original: string)
  {
    exists i: nat :: i < |entities| && Enters(entities[i], ids(i), text, t, original)
  }

  lemma AnyEntersLast(entities: seq<Entity>, ids: nat -> string, text: string, t: string, original: string)
    requires entities != []
    ensures var n := |entities| - 1;
      AnyEnters(entities, ids, text, t, original) <==>
      AnyEnters(entities[..n], ids, text, t, original) || Enters(entities[n], ids(n), text, t, original)
  {
    var n := |entities| - 1;
    if AnyEnters(entities[..n], ids, text, t, original) {
      var i: nat :| i < n && Enters(entities[..n][i], ids(i), text, t, original);
      assert Enters(entities[i], ids(i), text, t, original);
    }
    if i: nat :| i < n && Enters(entities[i], ids(i), text, t, original) {
      assert Enters(entities[..n][i], ids(i), text, t, original);
    }
  }

  /** The token map, entry by entry. */
  lemma {:induction false} EntriesOfTheMap(text: string, entities: seq<Entity>, ids: nat -> string, t: string, original: string)
    requires FreshIds(ids, |entities|) && Sane(text, entities)
    ensures (t in TokenMap(text, entities, ids) && TokenMap(text, entities, ids)[t] == original)
       <==> AnyEnters(entities, ids, text, t, original)
  {
    if entities != [] {
      var n := |entities| - 1;
      EntriesOfTheMap(text, entities[..n], ids, t, original);
      AnyEntersLast(entities, ids, text, t, original);
      if InRange(entities[n], text) {
        TokensAreMade(text, entities[..n], ids);
        NewTokenIsNew(text, entities, ids);
        assert Enters(entities[n], ids(n), text, t, original)
          <==> t == MakeToken(entities[n].kind, ids(n)) && original == text[entities[n].start..entities[n].end];
        EntersOnce(text, entities[..n], ids, t, original);
      }
    }
  }

  lemma EntersOnce(text: string, entities: seq<Entity>, ids: nat -> string, t: string, original: string)
    ensures AnyEnters(entities, ids, text, t, original) ==> IsMade(t, text, entities, ids)
  {
    if i: nat :| i < |entities| && Enters(entities[i], ids(i), text, t, original) {
      assert MakesToken(entities[i], ids(i), text, t);
    }
  }
}
