/** The byte machine that looks for `"name": "..."` in a JSON stream, and the recursive
    parser it implements. */
module NameScan {
  import opened Wrappers

  type Byte = b: nat | b < 256

  const QUOTE: Byte := 0x22
  const BACKSLASH: Byte := 0x5C
  const COLON: Byte := 0x3A

  /** The bytes of `"name"`, quotes included. */
  const KEY: seq<Byte> := [0x22, 0x6E, 0x61, 0x6D, 0x65, 0x22]

  predicate IsSpace(b: Byte)
  {
    b == 0x20 || b == 0x09 || b == 0x0D || b == 0x0A
  }

  // ---- The machine ---------------------------------------------------------

  datatype FsmState = Idle | MatchKey(matched: nat) | AfterKeyClose | AfterColon | InValue | InValueEscape

  /** A captured value with the position after its closing quote, or where the machine stands. */
  datatype Fed = Captured(value: seq<Byte>, end: nat) | Pending(state: FsmState, buf: seq<Byte>)

  /** The machine after one byte; `None` in place of a state is a finished value. */
  function Next(state: FsmState, buf: seq<Byte>, b: Byte): (Option<FsmState>, seq<Byte>)
  {
    match state
    case Idle => (Some(if b == QUOTE then MatchKey(0) else Idle), buf)
    case MatchKey(m) =>
      (Some(if m < 4 && b == KEY[m + 1] then MatchKey(m + 1)
            else if m == 4 && b == QUOTE then AfterKeyClose
            else if b == QUOTE then MatchKey(0)
            else Idle), buf)
    case AfterKeyClose =>
      (Some(if b == COLON then AfterColon else if IsSpace(b) then AfterKeyClose else Idle), buf)
    case AfterColon =>
      if b == QUOTE then (Some(InValue), [])
      else (Some(if IsSpace(b) then AfterColon else Idle), buf)
    case InValue =>
      if b == QUOTE then (None, buf)
      else if b == BACKSLASH then (Some(InValueEscape), buf)
      else (Some(InValue), buf + [b])
    case InValueEscape => (Some(InValue), buf + [b])
  }

  function Run(bytes: seq<Byte>, p: nat, state: FsmState, buf: seq<Byte>): (fed: Fed)
    requires p <= |bytes|
    ensures fed.Captured? ==> p < fed.end <= |bytes|
    decreases |bytes| - p
  {
    if p == |bytes| then Pending(state, buf)
    else
      match Next(state, buf, bytes[p])
      case (None, value) => Captured(value, p + 1)
      case (Some(state'), buf') => Run(bytes, p + 1, state', buf')
  }

  class NameScanFsm {
    var state: FsmState
    var valueBuf: seq<Byte>

    constructor ()
      ensures state == Idle && valueBuf == []
    {
      state, valueBuf := Idle, [];
    }

    /** Stops at the first complete value; the machine is then idle again. */
    method Feed(bytes: seq<Byte>) returns (captured: Option<seq<Byte>>)
      modifies this
      ensures match Run(bytes, 0, old(state), old(valueBuf))
              case Captured(value, _) => captured == Some(value) && state == Idle && valueBuf == []
              case Pending(state', buf') => captured == None && state == state' && valueBuf == buf'
    {
      for i := 0 to |bytes|
        invariant Run(bytes, 0, old(state), old(valueBuf)) == Run(bytes, i, state, valueBuf)
      {
        var b := bytes[i];
        match state {
          case Idle =>
            if b == QUOTE { state := MatchKey(0); }
          case MatchKey(p) =>
            if p < 4 && b == KEY[p + 1] {
              state := MatchKey(p + 1);
            } else if p == 4 && b == QUOTE {
              state := AfterKeyClose;
            } else if b == QUOTE {
              state := MatchKey(0);
            } else {
              state := Idle;
            }
          case AfterKeyClose =>
            if b == COLON { state := AfterColon; } else if !IsSpace(b) { state := Idle; }
          case AfterColon =>
            if b == QUOTE {
              valueBuf := [];
              state := InValue;
            } else if !IsSpace(b) {
              state := Idle;
            }
          case InValue =>
            if b == QUOTE {
              captured := Some(valueBuf);
              state := Idle;
              valueBuf := [];
              return;
            } else if b == BACKSLASH {
              state := InValueEscape;
            } else {
              valueBuf := valueBuf + [b];
            }
          case InValueEscape =>
            valueBuf := valueBuf + [b];
            state := InValue;
        }
      }
      return None;
    }
  }

  // ---- The parser ----------------------------------------------------------

  predicate KeyAt(bytes: seq<Byte>, i: nat)
  {
    && i + 6 <= |bytes|
    && bytes[i] == KEY[0] && bytes[i + 1] == KEY[1] && bytes[i + 2] == KEY[2]
    && bytes[i + 3] == KEY[3] && bytes[i + 4] == KEY[4] && bytes[i + 5] == KEY[5]
  }

  /** The first occurrence of the key at or after `p`. */
  function FindKey(bytes: seq<Byte>, p: nat): (r: Option<nat>)
    requires p <= |bytes|
    ensures r.Some? ==> p <= r.value && KeyAt(bytes, r.value)
    decreases |bytes| - p
  {
    if KeyAt(bytes, p) then Some(p)
    else if p == |bytes| then None
    else FindKey(bytes, p + 1)
  }

  lemma {:induction false} FindKeyIsFirst(bytes: seq<Byte>, p: nat)
    requires p <= |bytes|
    ensures match FindKey(bytes, p)
      case None => forall j: nat | p <= j :: !KeyAt(bytes, j)
      case Some(i) => forall j | p <= j < i :: !KeyAt(bytes, j)
    decreases |bytes| - p
  {
    if p < |bytes| { FindKeyIsFirst(bytes, p + 1); }
  }

  function SkipSpace(bytes: seq<Byte>, p: nat): (q: nat)
    requires p <= |bytes|
    ensures p <= q <= |bytes| && forall k | p <= k < q :: IsSpace(bytes[k])
    decreases |bytes| - p
  {
    if p < |bytes| && IsSpace(bytes[p]) then SkipSpace(bytes, p + 1) else p
  }

  /** The value from `p` to the closing quote, each escaped byte taken as it is, and
      the position after the quote. */
  function Unescape(bytes: seq<Byte>, p: nat): (r: Option<(seq<Byte>, nat)>)
    requires p <= |bytes|
    ensures r.Some? ==> p < r.value.1 <= |bytes|
    decreases |bytes| - p
  {
    if p == |bytes| then None
    else if bytes[p] == QUOTE then Some(([], p + 1))
    else if bytes[p] == BACKSLASH then
      if p + 1 == |bytes| then None
      else
        match Unescape(bytes, p + 2)
        case None => None
        case Some((rest, end)) => Some(([bytes[p + 1]] + rest, end))
    else
      match Unescape(bytes, p + 1)
      case None => None
      case Some((rest, end)) => Some(([bytes[p]] + rest, end))
  }

  /** Finds the key, then space, a colon, space and a quoted value; on any other byte,
      starts again after that byte. */
  function Parse(bytes: seq<Byte>, p: nat): (r: Option<(seq<Byte>, nat)>)
    requires p <= |bytes|
    ensures r.Some? ==> p < r.value.1 <= |bytes|
    decreases |bytes| - p
  {
    match FindKey(bytes, p)
    case None => None
    case Some(i) => ParseColon(bytes, i + 6)
  }

  function ParseColon(bytes: seq<Byte>, p: nat): (r: Option<(seq<Byte>, nat)>)
    requires p <= |bytes|
    ensures r.Some? ==> p < r.value.1 <= |bytes|
    decreases |bytes| - p
  {
    var q := SkipSpace(bytes, p);
    if q == |bytes| then None
    else if bytes[q] == COLON then ParseValue(bytes, q + 1)
    else Parse(bytes, q + 1)
  }

  function ParseValue(bytes: seq<Byte>, p: nat): (r: Option<(seq<Byte>, nat)>)
    requires p <= |bytes|
    ensures r.Some? ==> p < r.value.1 <= |bytes|
    decreases |bytes| - p
  {
    var q := SkipSpace(bytes, p);
    if q == |bytes| then None
    else if bytes[q] == QUOTE then Unescape(bytes, q + 1)
    else Parse(bytes, q + 1)
  }

  // ---- The machine is the parser -------------------------------------------

  /** What the machine captures, if anything. */
  function Outcome(fed: Fed): Option<(seq<Byte>, nat)>
  {
    match fed
    case Captured(value, end) => Some((value, end))
    case Pending(_, _) => None
  }

  function Prepend(head: seq<Byte>, r: Option<(seq<Byte>, nat)>): Option<(seq<Byte>, nat)>
  {
    match r
    case None => None
    case Some((rest, end)) => Some((head + rest, end))
  }

  lemma {:induction false} ValueIsUnescaped(bytes: seq<Byte>, p: nat, buf: seq<Byte>)
    requires p <= |bytes|
    ensures Outcome(Run(bytes, p, InValue, buf)) == Prepend(buf, Unescape(bytes, p))
    decreases |bytes| - p
  {
    assert buf + [] == buf;
    if p < |bytes| && bytes[p] == BACKSLASH {
      if p + 1 < |bytes| {
        ValueIsUnescaped(bytes, p + 2, buf + [bytes[p + 1]]);
        AssociatePrepend(buf, bytes[p + 1], Unescape(bytes, p + 2));
      }
    } else if p < |bytes| && bytes[p] != QUOTE {
      ValueIsUnescaped(bytes, p + 1, buf + [bytes[p]]);
      AssociatePrepend(buf, bytes[p], Unescape(bytes, p + 1));
    }
  }

  lemma AssociatePrepend(buf: seq<Byte>, b: Byte, r: Option<(seq<Byte>, nat)>)
    ensures Prepend(buf + [b], r) == Prepend(buf, Prepend([b], r))
  {
    if r.Some? { assert buf + [b] + r.value.0 == buf + ([b] + r.value.0); }
  }

  lemma {:induction false} SpaceIsSkipped(bytes: seq<Byte>, p: nat, state: FsmState, buf: seq<Byte>)
    requires p <= |bytes| && (state == AfterKeyClose || state == AfterColon)
    ensures Run(bytes, p, state, buf) == Run(bytes, SkipSpace(bytes, p), state, buf)
    decreases |bytes| - p
  {
    if p < |bytes| && IsSpace(bytes[p]) { SpaceIsSkipped(bytes, p + 1, state, buf); }
  }

  lemma {:induction false} NoKeyBetween(bytes: seq<Byte>, s: nat, p: nat)
    requires s <= p <= |bytes| && forall j | s <= j < p :: !KeyAt(bytes, j)
    ensures FindKey(bytes, s) == FindKey(bytes, p)
    decreases p - s
  {
    if s < p { NoKeyBetween(bytes, s + 1, p); }
  }

  /** The `m` letters and the quote before `p` begin the key. */
  predicate Partial(bytes: seq<Byte>, p: nat, m: nat)
  {
    && m <= 4 && m + 1 <= p <= |bytes|
    && bytes[p - m - 1] == KEY[0]
    && (m >= 1 ==> bytes[p - m] == KEY[1])
    && (m >= 2 ==> bytes[p - m + 1] == KEY[2])
    && (m >= 3 ==> bytes[p - m + 2] == KEY[3])
    && (m >= 4 ==> bytes[p - m + 3] == KEY[4])
  }

  function Start(p: nat, state: FsmState): int
  {
    if state.MatchKey? then p - state.matched - 1 else p
  }

  predicate Searching(bytes: seq<Byte>, p: nat, state: FsmState)
  {
    state == Idle || (state.MatchKey? && Partial(bytes, p, state.matched))
  }

  /** One byte on, the machine has the key, or still searches, and has passed no key. */
  lemma KeyStep(bytes: seq<Byte>, p: nat, state: FsmState, buf: seq<Byte>)
    requires p < |bytes| && Searching(bytes, p, state)
    ensures var next := Next(state, buf, bytes[p]);
      && next.0.Some? && next.1 == buf
      && var s, state' := Start(p, state), next.0.value;
         if state' == AfterKeyClose then s + 6 == p + 1 && KeyAt(bytes, s)
         else
           && Searching(bytes, p + 1, state') && s <= Start(p + 1, state')
           && forall j | s <= j < Start(p + 1, state') :: !KeyAt(bytes, j)
  {
  }

  /** The key states are the automaton of Knuth, Morris and Pratt for the key: after the
      quote and `m` letters the machine goes on as if it searched from that quote. */
  lemma {:induction false} KeyIsFound(bytes: seq<Byte>, p: nat, state: FsmState, buf: seq<Byte>)
    requires p <= |bytes| && Searching(bytes, p, state)
    ensures match FindKey(bytes, Start(p, state))
      case None => Outcome(Run(bytes, p, state, buf)) == None
      case Some(i) => p <= i + 6 && Run(bytes, p, state, buf) == Run(bytes, i + 6, AfterKeyClose, buf)
    decreases |bytes| - p
  {
    var s := Start(p, state);
    if p == |bytes| {
      NoKeyBetween(bytes, s, p);
    } else {
      KeyStep(bytes, p, state, buf);
      var state' := Next(state, buf, bytes[p]).0.value;
      if state' != AfterKeyClose {
        KeyIsFound(bytes, p + 1, state', buf);
        NoKeyBetween(bytes, s, Start(p + 1, state'));
      }
    }
  }

  lemma {:induction false} SkippedToOther(bytes: seq<Byte>, p: nat)
    requires p <= |bytes|
    ensures var q := SkipSpace(bytes, p); q < |bytes| ==> !IsSpace(bytes[q])
    decreases |bytes| - p
  {
    if p < |bytes| && IsSpace(bytes[p]) { SkippedToOther(bytes, p + 1); }
  }

  /** Started idle, the machine captures exactly what the parser returns, and stops at
      the same byte. */
  lemma {:induction false} MachineIsParser(bytes: seq<Byte>, p: nat, buf: seq<Byte>)
    requires p <= |bytes|
    ensures Outcome(Run(bytes, p, Idle, buf)) == Parse(bytes, p)
    decreases |bytes| - p
  {
    KeyIsFound(bytes, p, Idle, buf);
    var found := FindKey(bytes, p);
    if found.Some? { MachineParsesColon(bytes, found.value + 6, buf); }
  }

  lemma {:induction false} MachineParsesColon(bytes: seq<Byte>, p: nat, buf: seq<Byte>)
    requires p <= |bytes|
    ensures Outcome(Run(bytes, p, AfterKeyClose, buf)) == ParseColon(bytes, p)
    decreases |bytes| - p
  {
    var q := SkipSpace(bytes, p);
    SpaceIsSkipped(bytes, p, AfterKeyClose, buf);
    SkippedToOther(bytes, p);
    if q < |bytes| {
      if bytes[q] == COLON {
        MachineParsesValue(bytes, q + 1, buf);
      } else {
        MachineIsParser(bytes, q + 1, buf);
      }
    }
  }

  lemma {:induction false} MachineParsesValue(bytes: seq<Byte>, p: nat, buf: seq<Byte>)
    requires p <= |bytes|
    ensures Outcome(Run(bytes, p, AfterColon, buf)) == ParseValue(bytes, p)
    decreases |bytes| - p
  {
    var q := SkipSpace(bytes, p);
    SpaceIsSkipped(bytes, p, AfterColon, buf);
    SkippedToOther(bytes, p);
    if q < |bytes| {
      if bytes[q] == QUOTE {
        ValueIsUnescaped(bytes, q + 1, []);
        var value := Unescape(bytes, q + 1);
        if value.Some? { assert [] + value.value.0 == value.value.0; }
      } else {
        MachineIsParser(bytes, q + 1, buf);
      }
    }
  }

  // ---- Chunks --------------------------------------------------------------

  function Shift(fed: Fed, n: nat): Fed
  {
    match fed
    case Captured(value, end) => Captured(value, end + n)
    case Pending(_, _) => fed
  }

  /** Feeding two pieces one after the other is feeding them together. */
  lemma {:induction false} RunInPieces(x: seq<Byte>, y: seq<Byte>, p: nat, state: FsmState, buf: seq<Byte>)
    requires p <= |x|
    ensures Run(x + y, p, state, buf)
         == match Run(x, p, state, buf)
            case Captured(value, end) => Captured(value, end)
            case Pending(state', buf') => Shift(Run(y, 0, state', buf'), |x|)
    decreases |x| - p
  {
    if p == |x| {
      RunShifted(x, y, 0, state, buf);
    } else {
      var next := Next(state, buf, x[p]);
      assert (x + y)[p] == x[p];
      if next.0.Some? { RunInPieces(x, y, p + 1, next.0.value, next.1); }
    }
  }

  lemma {:induction false} RunShifted(x: seq<Byte>, y: seq<Byte>, p: nat, state: FsmState, buf: seq<Byte>)
    requires p <= |y|
    ensures Run(x + y, |x| + p, state, buf) == Shift(Run(y, p, state, buf), |x|)
    decreases |y| - p
  {
    if p < |y| {
      var next := Next(state, buf, y[p]);
      assert (x + y)[|x| + p] == y[p];
      if next.0.Some? { RunShifted(x, y, p + 1, next.0.value, next.1); }
    }
  }

  function Concat(chunks: seq<seq<Byte>>): seq<Byte>
  {
    if chunks == [] then [] else chunks[0] + Concat(chunks[1..])
  }

  /** The first value captured from chunks fed in turn. */
  function FirstCapture(chunks: seq<seq<Byte>>, state: FsmState, buf: seq<Byte>): Option<seq<Byte>>
  {
    if chunks == [] then None
    else
      match Run(chunks[0], 0, state, buf)
      case Captured(value, _) => Some(value)
      case Pending(state', buf') => FirstCapture(chunks[1..], state', buf')
  }

  lemma {:induction false} ChunksFromState(chunks: seq<seq<Byte>>, state: FsmState, buf: seq<Byte>)
    ensures var whole := Outcome(Run(Concat(chunks), 0, state, buf));
      FirstCapture(chunks, state, buf) == if whole.Some? then Some(whole.value.0) else None
  {
    if chunks != [] {
      RunInPieces(chunks[0], Concat(chunks[1..]), 0, state, buf);
      var first := Run(chunks[0], 0, state, buf);
      if first.Pending? { ChunksFromState(chunks[1..], first.state, first.buf); }
    }
  }

  /** However a stream is cut into chunks, the first value captured is the parser's on
      the whole stream. */
  lemma CutsDoNotMatter(chunks: seq<seq<Byte>>, buf: seq<Byte>)
    ensures var parsed := Parse(Concat(chunks), 0);
      FirstCapture(chunks, Idle, buf) == if parsed.Some? then Some(parsed.value.0) else None
  {
    ChunksFromState(chunks, Idle, buf);
    MachineIsParser(Concat(chunks), 0, buf);
  }

  // ---- Entries, byte by byte -----------------------------------------------

  /** Blanks, tabs, returns and line feeds. */
  predicate Blank(w: seq<Byte>)
  {
    forall k | 0 <= k < |w| :: w[k] == 0x20 || w[k] == 0x09 || w[k] == 0x0D || w[k] == 0x0A
  }

  /** One byte of a value as it is written: as such, or behind a backslash. */
  datatype Unit = Bare(b: Byte) | Escaped(b: Byte)

  predicate Writable(units: seq<Unit>)
  {
    forall k | 0 <= k < |units| && units[k].Bare? :: units[k].b != 0x22 && units[k].b != 0x5C
  }

  function Written(units: seq<Unit>): seq<Byte>
  {
    if units == [] then []
    else (if units[0].Bare? then [units[0].b] else [0x5C, units[0].b]) + Written(units[1..])
  }

  function Meant(units: seq<Unit>): seq<Byte>
  {
    seq(|units|, k requires 0 <= k < |units| => units[k].b)
  }

  /** `"name"` and `w1`. */
  function KeyThen(w1: seq<Byte>): seq<Byte>
  {
    [0x22, 0x6E, 0x61, 0x6D, 0x65, 0x22] + w1
  }

  function Entry(w1: seq<Byte>, w2: seq<Byte>, units: seq<Unit>): seq<Byte>
  {
    KeyThen(w1) + [0x3A] + w2 + [0x22] + Written(units) + [0x22]
  }

  lemma Then(x: seq<Byte>, y: seq<Byte>, state: FsmState, buf: seq<Byte>, state': FsmState, buf': seq<Byte>)
    requires Run(x, 0, state, buf) == Pending(state', buf')
    ensures Run(x + y, 0, state, buf) == Shift(Run(y, 0, state', buf'), |x|)
  {
    RunInPieces(x, y, 0, state, buf);
  }

  lemma {:induction false} BlanksAreSkipped(w: seq<Byte>, p: nat, state: FsmState, buf: seq<Byte>)
    requires p <= |w| && Blank(w) && (state == AfterKeyClose || state == AfterColon)
    ensures Run(w, p, state, buf) == Pending(state, buf)
    decreases |w| - p
  {
    if p < |w| { BlanksAreSkipped(w, p + 1, state, buf); }
  }

  lemma {:induction false} NoQuoteNoKey(x: seq<Byte>, p: nat, buf: seq<Byte>)
    requires p <= |x| && 0x22 !in x
    ensures Run(x, p, Idle, buf) == Pending(Idle, buf)
    decreases |x| - p
  {
    if p < |x| { NoQuoteNoKey(x, p + 1, buf); }
  }

  lemma OneByte(b: Byte, state: FsmState, buf: seq<Byte>)
    ensures Run([b], 0, state, buf)
         == match Next(state, buf, b)
            case (None, value) => Captured(value, 1)
            case (Some(state'), buf') => Pending(state', buf')
  {
  }

  lemma KeyThenBlanks(w1: seq<Byte>, buf: seq<Byte>)
    requires Blank(w1)
    ensures Run(KeyThen(w1), 0, Idle, buf) == Pending(AfterKeyClose, buf)
  {
    var key: seq<Byte> := [0x22, 0x6E, 0x61, 0x6D, 0x65, 0x22];
    assert Run(key, 6, AfterKeyClose, buf) == Pending(AfterKeyClose, buf);
    assert Run(key, 3, MatchKey(2), buf) == Pending(AfterKeyClose, buf);
    Then(key, w1, Idle, buf, AfterKeyClose, buf);
    BlanksAreSkipped(w1, 0, AfterKeyClose, buf);
  }

  lemma ColonThenBlanks(w1: seq<Byte>, w2: seq<Byte>, buf: seq<Byte>)
    requires Blank(w1) && Blank(w2)
    ensures Run(KeyThen(w1) + [0x3A] + w2, 0, Idle, buf) == Pending(AfterColon, buf)
  {
    KeyThenBlanks(w1, buf);
    OneByte(0x3A, AfterKeyClose, buf);
    Then(KeyThen(w1), [0x3A], Idle, buf, AfterKeyClose, buf);
    Then(KeyThen(w1) + [0x3A], w2, Idle, buf, AfterColon, buf);
    BlanksAreSkipped(w2, 0, AfterColon, buf);
  }

  lemma OneUnit(u: Unit, buf: seq<Byte>)
    requires Writable([u])
    ensures Run(if u.Bare? then [u.b] else [0x5C, u.b], 0, InValue, buf) == Pending(InValue, buf + [u.b])
  {
    assert [u][0] == u;
    if u.Escaped? {
      var pair: seq<Byte> := [0x5C, u.b];
      assert Run(pair, 1, InValueEscape, buf) == Run(pair, 2, InValue, buf + [u.b]);
    }
  }

  lemma {:induction false} UnitsAreMeant(units: seq<Unit>, buf: seq<Byte>)
    requires Writable(units)
    ensures Run(Written(units), 0, InValue, buf) == Pending(InValue, buf + Meant(units))
  {
    if units == [] {
      assert buf + [] == buf;
    } else {
      var u := units[0];
      OneUnit(u, buf);
      UnitsAreMeant(units[1..], buf + [u.b]);
      Then(if u.Bare? then [u.b] else [0x5C, u.b], Written(units[1..]), InValue, buf, InValue, buf + [u.b]);
      assert buf + [u.b] + Meant(units[1..]) == buf + Meant(units);
    }
  }

  lemma EntryAlone(w1: seq<Byte>, w2: seq<Byte>, units: seq<Unit>, buf: seq<Byte>)
    requires Blank(w1) && Blank(w2) && Writable(units)
    ensures Run(Entry(w1, w2, units), 0, Idle, buf) == Captured(Meant(units), |Entry(w1, w2, units)|)
  {
    var open := KeyThen(w1) + [0x3A] + w2;
    ColonThenBlanks(w1, w2, buf);
    OneByte(0x22, AfterColon, buf);
    Then(open, [0x22], Idle, buf, AfterColon, buf);
    UnitsAreMeant(units, []);
    assert [] + Meant(units) == Meant(units);
    Then(open + [0x22], Written(units), Idle, buf, InValue, []);
    OneByte(0x22, InValue, Meant(units));
    Then(open + [0x22] + Written(units), [0x22], Idle, buf, InValue, Meant(units));
  }

  /** An idle machine captures the value of every entry as it is written, whatever blanks
      it has around its colon and whatever follows, if no quote comes before it. */
  lemma EntryIsCaptured(
    x: seq<Byte>, w1: seq<Byte>, w2: seq<Byte>, units: seq<Unit>, rest: seq<Byte>, buf: seq<Byte>)
    requires 0x22 !in x && Blank(w1) && Blank(w2) && Writable(units)
    ensures Run(x + Entry(w1, w2, units) + rest, 0, Idle, buf)
         == Captured(Meant(units), |x + Entry(w1, w2, units)|)
  {
    NoQuoteNoKey(x, 0, buf);
    EntryAlone(w1, w2, units, buf);
    Then(x, Entry(w1, w2, units), Idle, buf, Idle, buf);
    RunInPieces(x + Entry(w1, w2, units), rest, 0, Idle, buf);
  }

  /** Any other byte in place of the colon or of the opening quote sends it back. */
  lemma OtherByteIsNoEntry(w1: seq<Byte>, w2: seq<Byte>, b: Byte, buf: seq<Byte>)
    requires Blank(w1) && Blank(w2) && !Blank([b])
    ensures b != 0x3A ==> Run(KeyThen(w1) + [b], 0, Idle, buf) == Pending(Idle, buf)
    ensures b != 0x22 ==> Run(KeyThen(w1) + [0x3A] + w2 + [b], 0, Idle, buf) == Pending(Idle, buf)
  {
    KeyThenBlanks(w1, buf);
    OneByte(b, AfterKeyClose, buf);
    Then(KeyThen(w1), [b], Idle, buf, AfterKeyClose, buf);
    ColonThenBlanks(w1, w2, buf);
    OneByte(b, AfterColon, buf);
    Then(KeyThen(w1) + [0x3A] + w2, [b], Idle, buf, AfterColon, buf);
  }
}
