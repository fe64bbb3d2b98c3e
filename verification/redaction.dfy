/** Replacing personal data by tokens in every string of a JSON tree, and undoing it. */
module Redaction {
  import opened Wrappers
  import opened Json

  // ---- First occurrences ---------------------------------------------------

  predicate OccursAt(s: string, part: string, i: int)
  {
    0 <= i <= |s| - |part| && s[i..i + |part|] == part
  }

  ghost predicate Absent(s: string, part: string)
  {
    forall i :: !OccursAt(s, part, i)
  }

  function FindFrom(s: string, part: string, from: nat): (r: Option<nat>)
    requires from <= |s| + 1
    ensures r.Some? ==> from <= r.value && OccursAt(s, part, r.value)
    ensures r.Some? ==> forall i | from <= i < r.value :: !OccursAt(s, part, i)
    ensures r.None? ==> forall i | from <= i :: !OccursAt(s, part, i)
    decreases |s| + 1 - from
  {
    if OccursAt(s, part, from) then Some(from)
    else if from + |part| > |s| then None
    else FindFrom(s, part, from + 1)
  }

  /** `text.find(part)` */
  function Find(s: string, part: string): Option<nat>
  {
    FindFrom(s, part, 0)
  }

  /** `with` in place of the `len` characters from `i`. */
  function Splice(s: string, i: nat, len: nat, with: string): string
    requires i + len <= |s|
  {
    s[..i] + with + s[i + len..]
  }

  /** `text.replacen(part, by, 1)` */
  function ReplaceFirst(s: string, part: string, with: string): string
  {
    match Find(s, part)
    case None => s
    case Some(i) => Splice(s, i, |part|, with)
  }

  // ---- Tokens --------------------------------------------------------------

  datatype Replacement = Replacement(original: string, token: string)

  /** A token begins with `<` and has no other. */
  predicate IsToken(t: string)
  {
    t != "" && t[0] == '<' && forall k | 0 < k < |t| :: t[k] != '<'
  }

  /** `format!("<{}_REDACTED>_{}", entity_type, uuid)` */
  function MakeToken(entityType: string, uuid: string): string
  {
    "<" + entityType + "_REDACTED>_" + uuid
  }

  predicate Plain(s: string)
  {
    forall k | 0 <= k < |s| :: s[k] != '<' && s[k] != '>'
  }

  /** Neither token starts with the other. */
  predicate Apart(t: string, t': string)
  {
    !(t <= t') && !(t' <= t)
  }

  lemma MadeTokens(entityType: string, uuid: string)
    requires Plain(entityType) && Plain(uuid)
    ensures IsToken(MakeToken(entityType, uuid))
  {
  }

  lemma PrefixMeansSameUuid(e: string, u: string, e': string, u': string)
    requires Plain(e) && Plain(e') && |u| == |u'|
    ensures MakeToken(e, u) <= MakeToken(e', u') ==> u == u'
  {
    var t, t' := MakeToken(e, u), MakeToken(e', u');
    var p, p' := |e| + 10, |e'| + 10;
    assert t[p] == '>' && t'[p'] == '>';
    assert forall k | 0 <= k < p :: t[k] != '>';
    assert forall k | 0 <= k < p' :: t'[k] != '>';
    assert t[p + 2..] == u && t'[p' + 2..] == u';
  }

  /** Tokens with different UUIDs, all of one length, are apart whatever their types. */
  lemma MadeTokensAreApart(e: string, u: string, e': string, u': string)
    requires Plain(e) && Plain(e') && |u| == |u'| && u != u'
    ensures Apart(MakeToken(e, u), MakeToken(e', u'))
  {
    PrefixMeansSameUuid(e, u, e', u');
    PrefixMeansSameUuid(e', u', e, u);
  }

  // ---- One string ----------------------------------------------------------

  /** Replacements one after the other, in order. */
  function RedactString(s: string, reps: seq<Replacement>): string
  {
    if reps == [] then s
    else
      var before := RedactString(s, reps[..|reps| - 1]);
      ReplaceFirst(before, reps[|reps| - 1].original, reps[|reps| - 1].token)
  }

  /** Tokens back to originals, in the reverse of the order of application. */
  function RestoreString(s: string, reps: seq<Replacement>): string
    decreases |reps|
  {
    if reps == [] then s
    else
      RestoreString(ReplaceFirst(s, reps[|reps| - 1].token, reps[|reps| - 1].original), reps[..|reps| - 1])
  }

  /** Each token is absent from the string when its step runs. */
  ghost predicate FreshAlong(s: string, reps: seq<Replacement>)
  {
    reps == []
    || (&& FreshAlong(s, reps[..|reps| - 1])
        && IsToken(reps[|reps| - 1].token)
        && Absent(RedactString(s, reps[..|reps| - 1]), reps[|reps| - 1].token))
  }

  lemma SpliceChars(s: string, i: nat, len: nat, t: string)
    requires i + len <= |s|
    ensures var s' := Splice(s, i, len, t);
      && |s'| == |s| - len + |t|
      && (forall k | 0 <= k < i :: s'[k] == s[k])
      && (forall k | i <= k < i + |t| :: s'[k] == t[k - i])
      && (forall k | i + |t| <= k < |s'| :: s'[k] == s[k - |t| + len])
  {
  }

  lemma OccursByChars(s: string, part: string, j: nat)
    requires j + |part| <= |s| && forall k | 0 <= k < |part| :: s[j + k] == part[k]
    ensures OccursAt(s, part, j)
  {
  }

  lemma CharsOfOccurrence(s: string, part: string, j: nat, k: nat)
    requires OccursAt(s, part, j) && k < |part|
    ensures s[j + k] == part[k]
  {
    assert s[j..j + |part|][k] == s[j + k];
  }

  lemma LocateBefore(s: string, i: nat, len: nat, t: string, other: string, j: nat)
    requires i + len <= |s| && OccursAt(Splice(s, i, len, t), other, j) && j + |other| <= i
    ensures OccursAt(s, other, j)
  {
    SpliceChars(s, i, len, t);
    forall k | 0 <= k < |other| ensures s[j + k] == other[k] {
      CharsOfOccurrence(Splice(s, i, len, t), other, j, k);
    }
    OccursByChars(s, other, j);
  }

  lemma LocateAfter(s: string, i: nat, len: nat, t: string, other: string, j: nat)
    requires i + len <= |s| && OccursAt(Splice(s, i, len, t), other, j) && i + |t| <= j
    ensures OccursAt(s, other, j - |t| + len)
  {
    SpliceChars(s, i, len, t);
    forall k | 0 <= k < |other| ensures s[j - |t| + len + k] == other[k] {
      CharsOfOccurrence(Splice(s, i, len, t), other, j, k);
      assert Splice(s, i, len, t)[j + k] == s[j + k - |t| + len];
    }
    OccursByChars(s, other, j - |t| + len);
  }

  lemma StartsAtPut(s: string, i: nat, len: nat, t: string, j: nat)
    requires i + len <= |s| && IsToken(t)
    ensures |Splice(s, i, len, t)| == |s| - len + |t| && Splice(s, i, len, t)[i] == '<'
    ensures i < j < i + |t| ==> Splice(s, i, len, t)[j] != '<'
  {
    SpliceChars(s, i, len, t);
  }

  lemma LocateWithin(s: string, i: nat, len: nat, t: string, other: string, j: nat)
    requires i + len <= |s| && IsToken(t) && IsToken(other)
    requires OccursAt(Splice(s, i, len, t), other, j) && i < j + |other| && j < i + |t|
    ensures j == i
  {
    var s' := Splice(s, i, len, t);
    StartsAtPut(s, i, len, t, j);
    CharsOfOccurrence(s', other, j, 0);
    if j < i { CharsOfOccurrence(s', other, j, i - j); }
  }

  lemma SamePlaceIsNotApart(s: string, t: string, other: string, i: nat)
    requires OccursAt(s, t, i) && OccursAt(s, other, i)
    ensures !Apart(t, other)
  {
    var n := if |t| <= |other| then |t| else |other|;
    assert s[i..i + |t|][..n] == s[i..i + n] == s[i..i + |other|][..n];
  }

  lemma PutOccurs(s: string, i: nat, len: nat, t: string)
    requires i + len <= |s|
    ensures OccursAt(Splice(s, i, len, t), t, i)
  {
    SpliceChars(s, i, len, t);
    OccursByChars(Splice(s, i, len, t), t, i);
  }

  /** Where a token can occur after another was put in at `i`: in what was there before,
      or exactly where the new one is. It cannot reach into the new one or out of it,
      because `<` stands only at a token's start. */
  lemma Locate(s: string, i: nat, len: nat, t: string, other: string, j: int)
    requires i + len <= |s| && IsToken(t) && IsToken(other)
    requires OccursAt(Splice(s, i, len, t), other, j)
    ensures (j + |other| <= i && OccursAt(s, other, j))
         || (j >= i + |t| && OccursAt(s, other, j - |t| + len))
         || (j == i && !Apart(t, other))
  {
    if j + |other| <= i {
      LocateBefore(s, i, len, t, other, j);
    } else if j >= i + |t| {
      LocateAfter(s, i, len, t, other, j);
    } else {
      LocateWithin(s, i, len, t, other, j);
      PutOccurs(s, i, len, t);
      SamePlaceIsNotApart(Splice(s, i, len, t), t, other, i);
    }
  }

  /** A fresh token's first occurrence is where it was put. */
  lemma FoundWherePut(s: string, i: nat, len: nat, t: string)
    requires i + len <= |s| && IsToken(t) && Absent(s, t)
    ensures Find(Splice(s, i, len, t), t) == Some(i)
  {
    PutOccurs(s, i, len, t);
    Locate(s, i, len, t, t, Find(Splice(s, i, len, t), t).value);
  }

  lemma SpliceBack(s: string, i: nat, len: nat, t: string)
    requires i + len <= |s|
    ensures Splice(Splice(s, i, len, t), i, |t|, s[i..i + len]) == s
  {
    var s' := Splice(s, i, len, t);
    SpliceChars(s, i, len, t);
    assert s'[..i] == s[..i];
    assert s'[i + |t|..] == s[i + len..];
    assert s == s[..i] + s[i..i + len] + s[i + len..];
  }

  lemma UndoOne(s: string, original: string, t: string)
    requires IsToken(t) && Absent(s, t)
    ensures ReplaceFirst(ReplaceFirst(s, original, t), t, original) == s
  {
    var found := Find(s, original);
    if found.Some? {
      FoundWherePut(s, found.value, |original|, t);
      SpliceBack(s, found.value, |original|, t);
    } else {
      assert Find(s, t) == None;
    }
  }

  /** The occurrence at `i` is the one replaced exactly if no other stands before it. */
  lemma SpanIsReplacedIffFirst(s: string, original: string, t: string, i: nat)
    requires OccursAt(s, original, i) && IsToken(t) && Absent(s, t)
    ensures ReplaceFirst(s, original, t) == Splice(s, i, |original|, t)
       <==> forall j | 0 <= j < i :: !OccursAt(s, original, j)
  {
    var first := Find(s, original).value;
    FoundWherePut(s, first, |original|, t);
    FoundWherePut(s, i, |original|, t);
  }

  lemma {:induction false} RestoreUndoesRedactString(s: string, reps: seq<Replacement>)
    requires FreshAlong(s, reps)
    ensures RestoreString(RedactString(s, reps), reps) == s
  {
    if reps != [] {
      var n := |reps| - 1;
      UndoOne(RedactString(s, reps[..n]), reps[n].original, reps[n].token);
      RestoreUndoesRedactString(s, reps[..n]);
    }
  }

  // ---- Freshness of UUID tokens --------------------------------------------

  lemma SplicedStaysAbsent(s: string, i: nat, len: nat, t: string, other: string)
    requires i + len <= |s| && IsToken(t) && IsToken(other) && Apart(t, other) && Absent(s, other)
    ensures Absent(Splice(s, i, len, t), other)
  {
    forall j ensures !OccursAt(Splice(s, i, len, t), other, j) {
      if OccursAt(Splice(s, i, len, t), other, j) { Locate(s, i, len, t, other, j); }
    }
  }

  /** Putting in one token does not make another occur. */
  lemma StaysAbsent(s: string, original: string, t: string, other: string)
    requires IsToken(t) && IsToken(other) && Apart(t, other) && Absent(s, other)
    ensures Absent(ReplaceFirst(s, original, t), other)
  {
    var found := Find(s, original);
    if found.Some? { SplicedStaysAbsent(s, found.value, |original|, t, other); }
  }

  /** Tokens of one redaction: apart from each other. */
  ghost predicate Distinct(reps: seq<Replacement>)
  {
    && (forall i | 0 <= i < |reps| :: IsToken(reps[i].token))
    && (forall i, j | 0 <= i < j < |reps| :: Apart(reps[i].token, reps[j].token))
  }

  ghost predicate NoneOccurs(s: string, reps: seq<Replacement>)
  {
    forall i | 0 <= i < |reps| :: Absent(s, reps[i].token)
  }

  lemma {:induction false} AbsentAlong(s: string, reps: seq<Replacement>, t: string)
    requires Absent(s, t) && IsToken(t)
    requires forall i | 0 <= i < |reps| :: IsToken(reps[i].token) && Apart(reps[i].token, t)
    ensures Absent(RedactString(s, reps), t)
  {
    if reps != [] {
      var n := |reps| - 1;
      AbsentAlong(s, reps[..n], t);
      StaysAbsent(RedactString(s, reps[..n]), reps[n].original, reps[n].token, t);
    }
  }

  /** Tokens that do not occur in the original string are fresh at every step. */
  lemma {:induction false} FreshFromTheStart(s: string, reps: seq<Replacement>)
    requires Distinct(reps) && NoneOccurs(s, reps)
    ensures FreshAlong(s, reps)
  {
    if reps != [] {
      var n := |reps| - 1;
      FreshFromTheStart(s, reps[..n]);
      AbsentAlong(s, reps[..n], reps[n].token);
    }
  }

  // ---- What is redacted ----------------------------------------------------

  lemma {:induction false} ChangedHoldsToken(s: string, reps: seq<Replacement>)
    ensures RedactString(s, reps) == s || exists i :: 0 <= i < |reps| && !Absent(RedactString(s, reps), reps[i].token)
    ensures (forall i | 0 <= i < |reps| :: Absent(s, reps[i].original)) ==> RedactString(s, reps) == s
  {
    if reps != [] {
      var n := |reps| - 1;
      ChangedHoldsToken(s, reps[..n]);
      var before := RedactString(s, reps[..n]);
      var found := Find(before, reps[n].original);
      if found.Some? {
        var s' := RedactString(s, reps);
        assert s'[found.value..found.value + |reps[n].token|] == reps[n].token;
        assert OccursAt(s', reps[n].token, found.value);
      } else if before != s {
        var i :| 0 <= i < n && !Absent(before, reps[..n][i].token);
        assert reps[i] == reps[..n][i];
      }
    }
  }

  lemma {:induction false} ContainedIsReplaced(s: string, reps: seq<Replacement>, i: nat)
    requires i < |reps| && !Absent(s, reps[i].original) && NoneOccurs(s, reps)
    requires forall j | 0 <= j < |reps| :: IsToken(reps[j].token)
    ensures exists j :: 0 <= j < |reps| && !Absent(RedactString(s, reps), reps[j].token)
  {
    var n := |reps| - 1;
    var before := RedactString(s, reps[..n]);
    if i < n { ContainedIsReplaced(s, reps[..n], i); }
    ChangedHoldsToken(s, reps[..n]);
    var found := Find(before, reps[n].original);
    if found.Some? {
      var s' := RedactString(s, reps);
      assert s'[found.value..found.value + |reps[n].token|] == reps[n].token;
      assert OccursAt(s', reps[n].token, found.value);
    } else {
      var j :| 0 <= j < n && !Absent(before, reps[..n][j].token);
      assert reps[j] == reps[..n][j];
    }
  }

  /** With fresh tokens a string stays as it is exactly if it contains no original. */
  lemma StringUnchangedIffNoOriginal(s: string, reps: seq<Replacement>)
    requires Distinct(reps) && NoneOccurs(s, reps)
    ensures RedactString(s, reps) == s <==> forall i | 0 <= i < |reps| :: Absent(s, reps[i].original)
  {
    ChangedHoldsToken(s, reps);
    if i: nat :| i < |reps| && !Absent(s, reps[i].original) {
      ContainedIsReplaced(s, reps, i);
    }
  }

  // ---- JSON trees ----------------------------------------------------------

  function RedactTree(v: Json, reps: seq<Replacement>): Json
    decreases v
  {
    match v
    case Str(s) => Str(RedactString(s, reps))
    case Arr(items) => Arr(seq(|items|, i requires 0 <= i < |items| => RedactTree(items[i], reps)))
    case Obj(fields) => Obj(map k | k in fields :: RedactTree(fields[k], reps))
    case _ => v
  }

  function RestoreTree(v: Json, reps: seq<Replacement>): Json
    decreases v
  {
    match v
    case Str(s) => Str(RestoreString(s, reps))
    case Arr(items) => Arr(seq(|items|, i requires 0 <= i < |items| => RestoreTree(items[i], reps)))
    case Obj(fields) => Obj(map k | k in fields :: RestoreTree(fields[k], reps))
    case _ => v
  }

  /** `s` is a string of the tree, keys not counted. */
  ghost predicate HasString(v: Json, s: string)
    decreases v
  {
    match v
    case Str(t) => t == s
    case Arr(items) => exists i :: 0 <= i < |items| && HasString(items[i], s)
    case Obj(fields) => exists k :: k in fields && HasString(fields[k], s)
    case _ => false
  }

  /** Undoing the replacements restores the tree exactly, even where entities overlap or
      an original occurs inside an earlier token: all it takes is that each token is
      absent from a string when its step runs there. */
  lemma {:induction false} RestoreUndoesRedact(v: Json, reps: seq<Replacement>)
    requires forall s | HasString(v, s) :: FreshAlong(s, reps)
    ensures RestoreTree(RedactTree(v, reps), reps) == v
    decreases v
  {
    match v
    case Str(s) =>
      assert HasString(v, s);
      RestoreUndoesRedactString(s, reps);
    case Arr(items) =>
      forall i | 0 <= i < |items| ensures RestoreTree(RedactTree(items[i], reps), reps) == items[i] {
        forall s | HasString(items[i], s) ensures FreshAlong(s, reps) { assert HasString(v, s); }
        RestoreUndoesRedact(items[i], reps);
      }
    case Obj(fields) =>
      forall k | k in fields ensures RestoreTree(RedactTree(fields[k], reps), reps) == fields[k] {
        forall s | HasString(fields[k], s) ensures FreshAlong(s, reps) { assert HasString(v, s); }
        RestoreUndoesRedact(fields[k], reps);
      }
    case _ =>
  }

  /** With tokens that are apart and occur in no string of the tree, in any order. */
  lemma DetokenizationUndoesRedaction(v: Json, reps: seq<Replacement>)
    requires Distinct(reps) && forall s | HasString(v, s) :: NoneOccurs(s, reps)
    ensures RestoreTree(RedactTree(v, reps), reps) == v
  {
    forall s | HasString(v, s) ensures FreshAlong(s, reps) {
      FreshFromTheStart(s, reps);
    }
    RestoreUndoesRedact(v, reps);
  }

  ghost predicate HoldsOriginal(s: string, reps: seq<Replacement>)
  {
    exists i :: 0 <= i < |reps| && !Absent(s, reps[i].original)
  }

  lemma {:induction false} UnchangedWithoutOriginals(v: Json, reps: seq<Replacement>)
    ensures (forall s | HasString(v, s) :: !HoldsOriginal(s, reps)) ==> RedactTree(v, reps) == v
    decreases v
  {
    if forall s | HasString(v, s) :: !HoldsOriginal(s, reps) {
      match v
      case Str(s) =>
        assert HasString(v, s);
        ChangedHoldsToken(s, reps);
      case Arr(items) =>
        forall i | 0 <= i < |items| ensures RedactTree(items[i], reps) == items[i] {
          assert forall s | HasString(items[i], s) :: HasString(v, s);
          UnchangedWithoutOriginals(items[i], reps);
        }
      case Obj(fields) =>
        forall k | k in fields ensures RedactTree(fields[k], reps) == fields[k] {
          assert forall s | HasString(fields[k], s) :: HasString(v, s);
          UnchangedWithoutOriginals(fields[k], reps);
        }
      case _ =>
    }
  }

  lemma {:induction false} UnchangedStrings(v: Json, reps: seq<Replacement>, s: string)
    requires RedactTree(v, reps) == v && HasString(v, s)
    ensures RedactString(s, reps) == s
    decreases v
  {
    match v
    case Str(t) =>
    case Arr(items) =>
      var i :| 0 <= i < |items| && HasString(items[i], s);
      assert RedactTree(v, reps).items[i] == RedactTree(items[i], reps);
      UnchangedStrings(items[i], reps, s);
    case Obj(fields) =>
      var k :| k in fields && HasString(fields[k], s);
      assert RedactTree(v, reps).fields[k] == RedactTree(fields[k], reps);
      UnchangedStrings(fields[k], reps, s);
    case _ =>
  }

  /** With fresh tokens a tree stays as it is exactly if no string of it contains an
      original. */
  lemma TreeUnchangedIffNoOriginal(v: Json, reps: seq<Replacement>)
    requires Distinct(reps) && forall s | HasString(v, s) :: NoneOccurs(s, reps)
    ensures RedactTree(v, reps) == v
       <==> forall s | HasString(v, s) :: !HoldsOriginal(s, reps)
  {
    UnchangedWithoutOriginals(v, reps);
    if RedactTree(v, reps) == v {
      forall s | HasString(v, s) ensures !HoldsOriginal(s, reps) {
        UnchangedStrings(v, reps, s);
        StringUnchangedIffNoOriginal(s, reps);
      }
    }
  }

  // ---- The engine's loops --------------------------------------------------

  /** The replacements in turn, each at the first occurrence of its original. */
  method ApplyToString(text: string, reps: seq<Replacement>) returns (out: string)
    ensures out == RedactString(text, reps)
  {
    out := text;
    for i := 0 to |reps|
      invariant out == RedactString(text, reps[..i])
    {
      assert reps[..i + 1][..i] == reps[..i];
      var at := Find(out, reps[i].original);
      if at.Some? {
        out := out[..at.value] + reps[i].token + out[at.value + |reps[i].original|..];
      }
    }
    assert reps[..|reps|] == reps;
  }

  method ApplyTokenReplacements(v: Json, reps: seq<Replacement>) returns (out: Json)
    ensures out == RedactTree(v, reps)
    decreases v
  {
    match v
    case Str(s) =>
      var text := ApplyToString(s, reps);
      out := Str(text);
    case Arr(items) =>
      var done: seq<Json> := [];
      for i := 0 to |items|
        invariant |done| == i && forall j | 0 <= j < i :: done[j] == RedactTree(items[j], reps)
      {
        var item := ApplyTokenReplacements(items[i], reps);
        done := done + [item];
      }
      out := Arr(done);
      assert done == RedactTree(v, reps).items;
    case Obj(fields) =>
      var done := fields;
      var todo := fields.Keys;
      while todo != {}
        invariant todo <= fields.Keys == done.Keys
        invariant forall k | k in fields :: done[k] == if k in todo then fields[k] else RedactTree(fields[k], reps)
        decreases todo
      {
        var k :| k in todo;
        var item := ApplyTokenReplacements(fields[k], reps);
        done := done[k := item];
        todo := todo - {k};
      }
      out := Obj(done);
      assert done == RedactTree(v, reps).fields;
    case _ =>
      out := v;
  }
}
