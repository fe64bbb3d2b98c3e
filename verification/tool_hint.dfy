/** The tool hint: names captured from the first 16 KiB of a body, chunk by chunk, until
    one is registered. After a capture the rest of its chunk is not looked at. */
module ToolHint {
  import opened Wrappers
  import opened NameScan
  import opened Slices

  const SCAN_LIMIT: nat := 16384
  const CHUNK: nat := 64

  type Registry = set<seq<Byte>>

  function Scanned(body: seq<Byte>): seq<Byte>
  {
    if |body| <= SCAN_LIMIT then body else body[..SCAN_LIMIT]
  }

  function ChunkEnd(scan: seq<Byte>, c: nat): nat
    requires c < |scan|
  {
    if c + CHUNK <= |scan| then c + CHUNK else |scan|
  }

  /** The hint from chunk start `c` on, the machine being in `state`. */
  function HintFrom(registry: Registry, scan: seq<Byte>, c: nat, state: FsmState, buf: seq<Byte>): Option<seq<Byte>>
    decreases |scan| - c
  {
    if c >= |scan| then None
    else
      var end := ChunkEnd(scan, c);
      match Run(scan[c..end], 0, state, buf)
      case Captured(value, _) => if value in registry then Some(value) else HintFrom(registry, scan, end, Idle, [])
      case Pending(state', buf') => HintFrom(registry, scan, end, state', buf')
  }

  function Hint(registry: Registry, body: seq<Byte>): Option<seq<Byte>>
  {
    if registry == {} then None else HintFrom(registry, Scanned(body), 0, Idle, [])
  }

  /** Registered names are valid text, so a captured value that is not is not registered. */
  method FindToolHint(registry: Registry, body: seq<Byte>) returns (hint: Option<seq<Byte>>)
    ensures hint == Hint(registry, body)
  {
    if registry == {} { return None; }
    var scanLimit := if |body| < SCAN_LIMIT then |body| else SCAN_LIMIT;
    var scan := body[..scanLimit];
    assert scan == Scanned(body);
    var fsm := new NameScanFsm();
    var c := 0;
    while c < |scan|
      invariant c <= |scan|
      invariant HintFrom(registry, scan, 0, Idle, []) == HintFrom(registry, scan, c, fsm.state, fsm.valueBuf)
    {
      var end := if c + CHUNK <= |scan| then c + CHUNK else |scan|;
      var captured := fsm.Feed(scan[c..end]);
      if captured.Some? && captured.value in registry { return captured; }
      c := end;
    }
    return None;
  }

  // ---- Soundness -----------------------------------------------------------

  /** The bytes of a quoted value without its quotes, each escaped byte taken as it is. */
  function Unescaped(raw: seq<Byte>): Option<seq<Byte>>
  {
    if raw == [] then Some([])
    else if raw[0] == QUOTE then None
    else if raw[0] == BACKSLASH then
      if |raw| == 1 then None
      else (match Unescaped(raw[2..]) case Some(rest) => Some([raw[1]] + rest) case None => None)
    else (match Unescaped(raw[1..]) case Some(rest) => Some([raw[0]] + rest) case None => None)
  }

  /** The bytes from `i` to `j` are `"name"`, a colon and a quoted value that unescapes
      to `value`, with nothing but space between. */
  ghost predicate NameEntry(bytes: seq<Byte>, i: nat, colon: nat, quote: nat, j: nat, value: seq<Byte>)
  {
    && i + 6 <= colon < quote && quote + 2 <= j <= |bytes|
    && KeyAt(bytes, i)
    && AllSpace(bytes, i + 6, colon) && bytes[colon] == COLON
    && AllSpace(bytes, colon + 1, quote) && bytes[quote] == QUOTE
    && bytes[j - 1] == QUOTE && Unescaped(bytes[quote + 1..j - 1]) == Some(value)
  }

  ghost predicate HasName(bytes: seq<Byte>, value: seq<Byte>)
  {
    exists i, colon, quote, j :: NameEntry(bytes, i, colon, quote, j, value)
  }

  lemma {:induction false} UnescapeReadsRaw(bytes: seq<Byte>, p: nat)
    requires p <= |bytes| && Unescape(bytes, p).Some?
    ensures var found := Unescape(bytes, p).value;
      bytes[found.1 - 1] == QUOTE && Unescaped(bytes[p..found.1 - 1]) == Some(found.0)
    decreases |bytes| - p
  {
    var end := Unescape(bytes, p).value.1;
    var raw := bytes[p..end - 1];
    if bytes[p] == BACKSLASH {
      UnescapeReadsRaw(bytes, p + 2);
      assert raw[2..] == bytes[p + 2..end - 1];
    } else if bytes[p] != QUOTE {
      UnescapeReadsRaw(bytes, p + 1);
      assert raw[1..] == bytes[p + 1..end - 1];
    }
  }

  lemma {:induction false} ParsedIsEntry(bytes: seq<Byte>, p: nat)
    requires p <= |bytes| && Parse(bytes, p).Some?
    ensures HasName(bytes, Parse(bytes, p).value.0)
    decreases |bytes| - p
  {
    EntryAfterKey(bytes, FindKey(bytes, p).value);
  }

  lemma {:induction false} EntryAfterKey(bytes: seq<Byte>, i: nat)
    requires KeyAt(bytes, i) && ParseColon(bytes, i + 6).Some?
    ensures HasName(bytes, ParseColon(bytes, i + 6).value.0)
    decreases |bytes| - i - 6
  {
    var colon := SkipSpace(bytes, i + 6);
    if bytes[colon] == COLON {
      EntryAfterColon(bytes, i, colon);
    } else {
      ParsedIsEntry(bytes, colon + 1);
    }
  }

  lemma {:induction false} EntryAfterColon(bytes: seq<Byte>, i: nat, colon: nat)
    requires KeyAt(bytes, i) && i + 6 <= colon < |bytes| && bytes[colon] == COLON
    requires forall k | i + 6 <= k < colon :: IsSpace(bytes[k])
    requires ParseValue(bytes, colon + 1).Some?
    ensures HasName(bytes, ParseValue(bytes, colon + 1).value.0)
    decreases |bytes| - colon - 1
  {
    var quote := SkipSpace(bytes, colon + 1);
    if bytes[quote] == QUOTE {
      UnescapeReadsRaw(bytes, quote + 1);
      var found := Unescape(bytes, quote + 1).value;
      assert NameEntry(bytes, i, colon, quote, found.1, found.0);
    } else {
      ParsedIsEntry(bytes, quote + 1);
    }
  }

  lemma KeyInSlice(bytes: seq<Byte>, a: nat, b: nat, i: nat)
    requires a <= b <= |bytes| && KeyAt(bytes[a..b], i)
    ensures KeyAt(bytes, a + i)
  {
    var part := bytes[a..b];
    assert part[i] == bytes[a + i] && part[i + 1] == bytes[a + i + 1] && part[i + 2] == bytes[a + i + 2];
    assert part[i + 3] == bytes[a + i + 3] && part[i + 4] == bytes[a + i + 4] && part[i + 5] == bytes[a + i + 5];
  }

  predicate AllSpace(bytes: seq<Byte>, lo: nat, hi: nat)
    requires hi <= |bytes|
  {
    forall k | lo <= k < hi :: IsSpace(bytes[k])
  }

  lemma SpaceInSlice(bytes: seq<Byte>, a: nat, b: nat, lo: nat, hi: nat)
    requires a <= b <= |bytes| && hi <= b - a && AllSpace(bytes[a..b], lo, hi)
    ensures AllSpace(bytes, a + lo, a + hi)
  {
    forall k | a + lo <= k < a + hi ensures IsSpace(bytes[k]) { assert bytes[a..b][k - a] == bytes[k]; }
  }

  lemma EntryInSlice(bytes: seq<Byte>, a: nat, b: nat, i: nat, colon: nat, quote: nat, j: nat, value: seq<Byte>)
    requires a <= b <= |bytes| && NameEntry(bytes[a..b], i, colon, quote, j, value)
    ensures NameEntry(bytes, a + i, a + colon, a + quote, a + j, value)
  {
    var part := bytes[a..b];
    KeyInSlice(bytes, a, b, i);
    SpaceInSlice(bytes, a, b, i + 6, colon);
    SpaceInSlice(bytes, a, b, colon + 1, quote);
    SliceOfSlice(bytes, a, b, quote + 1, j - 1);
    assert part[colon] == bytes[a + colon] && part[quote] == bytes[a + quote] && part[j - 1] == bytes[a + j - 1];
  }

  lemma NameInSlice(bytes: seq<Byte>, a: nat, b: nat, value: seq<Byte>)
    requires a <= b <= |bytes| && HasName(bytes[a..b], value)
    ensures HasName(bytes, value)
  {
    var i: nat, colon: nat, quote: nat, j: nat :| NameEntry(bytes[a..b], i, colon, quote, j, value);
    EntryInSlice(bytes, a, b, i, colon, quote, j, value);
  }

  /** The machine stands where it would stand had it been fed all since `s`. */
  lemma {:induction false} HintIsEntry(
    registry: Registry, scan: seq<Byte>, s: nat, c: nat, state: FsmState, buf: seq<Byte>)
    requires s <= c <= |scan| && Run(scan[s..c], 0, Idle, []) == Pending(state, buf)
    requires HintFrom(registry, scan, c, state, buf).Some?
    ensures var name := HintFrom(registry, scan, c, state, buf).value;
      name in registry && HasName(scan, name)
    decreases |scan| - c
  {
    var end := ChunkEnd(scan, c);
    var chunk := scan[c..end];
    Joined(scan, s, c, end);
    RunInPieces(scan[s..c], chunk, 0, Idle, []);
    match Run(chunk, 0, state, buf)
    case Captured(value, _) =>
      if value in registry {
        MachineIsParser(scan[s..end], 0, []);
        ParsedIsEntry(scan[s..end], 0);
        NameInSlice(scan, s, end, value);
      } else {
        assert scan[end..end] == [];
        HintIsEntry(registry, scan, end, end, Idle, []);
      }
    case Pending(state', buf') =>
      HintIsEntry(registry, scan, s, end, state', buf');
  }

  /** Any name returned is registered and is the unescaped value of a contiguous
      `"name" : "..."` within the first 16384 bytes of the body, whatever the body and
      the registry, and although parts of chunks are skipped. */
  lemma HintIsSound(registry: Registry, body: seq<Byte>)
    requires Hint(registry, body).Some?
    ensures Hint(registry, body).value in registry && HasName(Scanned(body), Hint(registry, body).value)
  {
    assert Scanned(body)[0..0] == [];
    HintIsEntry(registry, Scanned(body), 0, 0, Idle, []);
  }

  // ---- Completeness, as far as it goes -------------------------------------

  /** The first chunk start at or after `p`, or the end of the scan. */
  function NextChunk(scan: seq<Byte>, p: nat): nat
    requires p <= |scan|
  {
    var start := (p + CHUNK - 1) / CHUNK * CHUNK;
    if start < |scan| then start else |scan|
  }

  /** The names the parser finds when, after each, it goes on at the next chunk. */
  function NamesSeen(scan: seq<Byte>, p: nat): seq<seq<Byte>>
    requires p <= |scan|
    decreases |scan| - p
  {
    match Parse(scan, p)
    case None => []
    case Some((value, end)) => [value] + NamesSeen(scan, NextChunk(scan, end))
  }

  function FirstIn(registry: Registry, names: seq<seq<Byte>>): Option<seq<Byte>>
  {
    if names == [] then None
    else if names[0] in registry then Some(names[0])
    else FirstIn(registry, names[1..])
  }

  lemma {:induction false} FirstInIsFirst(registry: Registry, names: seq<seq<Byte>>)
    ensures match FirstIn(registry, names)
      case None => forall k | 0 <= k < |names| :: names[k] !in registry
      case Some(name) => name in registry && name in names
  {
    if names != [] { FirstInIsFirst(registry, names[1..]); }
  }

  /** A chunk starts here, or the scan ends. */
  predicate IsStart(scan: seq<Byte>, c: nat)
  {
    c <= |scan| && (c % CHUNK == 0 || c == |scan|)
  }

  lemma FirstInCons(registry: Registry, name: seq<Byte>, names: seq<seq<Byte>>)
    ensures FirstIn(registry, [name] + names) == if name in registry then Some(name) else FirstIn(registry, names)
  {
    assert ([name] + names)[1..] == names;
  }

  lemma NextChunkIs(scan: seq<Byte>, c: nat, p: nat)
    requires c < |scan| && IsStart(scan, c) && c < p <= ChunkEnd(scan, c)
    ensures NextChunk(scan, p) == ChunkEnd(scan, c)
    ensures IsStart(scan, ChunkEnd(scan, c))
  {
    assert (p + CHUNK - 1) / CHUNK == c / CHUNK + 1;
  }

  lemma Cuts(scan: seq<Byte>, c: nat, end: nat)
    requires c <= end <= |scan|
    ensures scan[c..end] + scan[end..] == scan[c..]
  {
    Joined(scan, c, end, |scan|);
    assert scan[end..|scan|] == scan[end..] && scan[c..|scan|] == scan[c..];
  }

  lemma RunOfSuffix(scan: seq<Byte>, c: nat, state: FsmState, buf: seq<Byte>)
    requires c <= |scan|
    ensures Run(scan, c, state, buf) == Shift(Run(scan[c..], 0, state, buf), c)
  {
    RunShifted(scan[..c], scan[c..], 0, state, buf);
    assert scan[..c] + scan[c..] == scan;
  }

  lemma ChunkOfRun(scan: seq<Byte>, c: nat, end: nat, state: FsmState, buf: seq<Byte>)
    requires c <= end <= |scan|
    ensures match Run(scan[c..end], 0, state, buf)
      case Captured(value, e) => Run(scan, c, state, buf) == Captured(value, c + e)
      case Pending(state', buf') => Run(scan, c, state, buf) == Run(scan, end, state', buf')
  {
    var fed := Run(scan[c..end], 0, state, buf);
    Cuts(scan, c, end);
    RunInPieces(scan[c..end], scan[end..], 0, state, buf);
    RunOfSuffix(scan, c, state, buf);
    if fed.Pending? { RunOfSuffix(scan, end, fed.state, fed.buf); }
  }

  /** From a chunk start, the next capture decides, or the search goes on, idle, at the
      next chunk. */
  lemma {:induction false} CaptureDecides(
    registry: Registry, scan: seq<Byte>, c: nat, state: FsmState, buf: seq<Byte>)
    requires IsStart(scan, c)
    ensures match Outcome(Run(scan, c, state, buf))
      case None => HintFrom(registry, scan, c, state, buf) == None
      case Some((value, end)) =>
        HintFrom(registry, scan, c, state, buf)
          == if value in registry then Some(value) else HintFrom(registry, scan, NextChunk(scan, end), Idle, [])
    decreases |scan| - c
  {
    if c < |scan| {
      var end := ChunkEnd(scan, c);
      ChunkOfRun(scan, c, end, state, buf);
      var fed := Run(scan[c..end], 0, state, buf);
      NextChunkIs(scan, c, if fed.Captured? then c + fed.end else end);
      if fed.Pending? { CaptureDecides(registry, scan, end, fed.state, fed.buf); }
    }
  }

  lemma NextChunkAdvances(scan: seq<Byte>, p: nat)
    requires p <= |scan|
    ensures p <= NextChunk(scan, p) <= |scan| && IsStart(scan, NextChunk(scan, p))
  {
  }

  /** What the hint and the names seen do from a chunk start with one parsed name. */
  lemma SeenStep(registry: Registry, scan: seq<Byte>, c: nat)
    requires IsStart(scan, c)
    ensures Parse(scan, c).None? ==> HintFrom(registry, scan, c, Idle, []) == None && NamesSeen(scan, c) == []
    ensures Parse(scan, c).Some? ==>
      var name, next := Parse(scan, c).value.0, NextChunk(scan, Parse(scan, c).value.1);
      && NamesSeen(scan, c) == [name] + NamesSeen(scan, next)
      && HintFrom(registry, scan, c, Idle, [])
           == if name in registry then Some(name) else HintFrom(registry, scan, next, Idle, [])
  {
    CaptureDecides(registry, scan, c, Idle, []);
    MachineIsParser(scan, c, []);
  }

  lemma {:induction false} HintAmongSeen(registry: Registry, scan: seq<Byte>, c: nat)
    requires IsStart(scan, c)
    ensures HintFrom(registry, scan, c, Idle, []) == FirstIn(registry, NamesSeen(scan, c))
    decreases |scan| - c
  {
    SeenStep(registry, scan, c);
    var parsed := Parse(scan, c);
    if parsed.Some? {
      var next := NextChunk(scan, parsed.value.1);
      NextChunkAdvances(scan, parsed.value.1);
      HintAmongSeen(registry, scan, next);
      FirstInCons(registry, parsed.value.0, NamesSeen(scan, next));
    }
  }

  /** For every body: the hint is the first registered name among those the parser finds
      when it goes on, after each name, at the next multiple of 64. So there is a hint
      exactly if one of those names is registered; the names between a closing quote and
      the next multiple of 64 are not looked at. */
  lemma HintIsFirstRegisteredSeen(registry: Registry, body: seq<Byte>)
    ensures Hint(registry, body) == FirstIn(registry, NamesSeen(Scanned(body), 0))
    ensures Hint(registry, body).Some?
       <==> exists k | 0 <= k < |NamesSeen(Scanned(body), 0)| :: NamesSeen(Scanned(body), 0)[k] in registry
  {
    HintAmongSeen(registry, Scanned(body), 0);
    FirstInIsFirst(registry, NamesSeen(Scanned(body), 0));
    if registry == {} { assert FirstIn(registry, NamesSeen(Scanned(body), 0)) == None; }
  }

  /** In a body of one chunk only the first name counts. */
  lemma OnlyFirstOfChunk(registry: Registry, body: seq<Byte>)
    requires |body| <= 64 && Parse(body, 0).Some? && Parse(body, 0).value.0 !in registry
    ensures Hint(registry, body) == None
  {
    var (value, end) := Parse(body, 0).value;
    assert NextChunk(body, end) == |body|;
    assert Parse(body, |body|) == None;
    assert NamesSeen(body, |body|) == [];
    assert NamesSeen(body, 0) == [value] + [];
    HintIsFirstRegisteredSeen(registry, body);
  }

  /** `[{"name":"a"},{"name":"b"}]` */
  const TWO_NAMES: seq<Byte> :=
    [0x5B, 0x7B, 0x22, 0x6E, 0x61, 0x6D, 0x65, 0x22, 0x3A, 0x22, 0x61, 0x22, 0x7D, 0x2C,
     0x7B, 0x22, 0x6E, 0x61, 0x6D, 0x65, 0x22, 0x3A, 0x22, 0x62, 0x22, 0x7D, 0x5D]

  lemma FirstKeyOfTwo()
    ensures FindKey(TWO_NAMES, 0) == Some(2)
  {
    assert TWO_NAMES[0] != QUOTE && TWO_NAMES[1] != QUOTE && KeyAt(TWO_NAMES, 2);
    NoKeyBetween(TWO_NAMES, 0, 2);
  }

  lemma FirstOfTwo()
    ensures Parse(TWO_NAMES, 0) == Some(([0x61], 12))
  {
    FirstKeyOfTwo();
    assert Unescape(TWO_NAMES, 11) == Some(([], 12));
    var value: seq<Byte> := [0x61];
    assert [TWO_NAMES[10]] + [] == value;
    assert Unescape(TWO_NAMES, 10) == Some((value, 12));
    assert SkipSpace(TWO_NAMES, 9) == 9;
    assert ParseValue(TWO_NAMES, 9) == Unescape(TWO_NAMES, 10);
    assert SkipSpace(TWO_NAMES, 8) == 8;
    assert ParseColon(TWO_NAMES, 8) == ParseValue(TWO_NAMES, 9);
    assert Parse(TWO_NAMES, 0) == ParseColon(TWO_NAMES, 8);
  }

  lemma SecondOfTwo()
    ensures HasName(TWO_NAMES, [0x62])
  {
    var raw: seq<Byte> := [0x62];
    assert raw[1..] == [] && Unescaped(raw[1..]) == Some([]);
    assert [raw[0]] + [] == raw;
    assert Unescaped(raw) == Some(raw);
    assert TWO_NAMES[23..24] == raw;
    assert NameEntry(TWO_NAMES, 15, 21, 22, 25, raw);
  }

  lemma SecondNameIsMissed(body: seq<Byte>, first: seq<Byte>, second: seq<Byte>)
    requires |body| <= 64 && Parse(body, 0).Some? && Parse(body, 0).value.0 == first != second
    ensures Hint({second}, body) == None
  {
    OnlyFirstOfChunk({second}, body);
  }

  /** A body that holds the registered name `b` behind another, and gives no hint. */
  lemma RegisteredNameIsMissed()
    ensures HasName(TWO_NAMES, [0x62]) && Hint({[0x62]}, TWO_NAMES) == None
  {
    FirstOfTwo();
    SecondOfTwo();
    var first: seq<Byte>, second: seq<Byte> := [0x61], [0x62];
    assert first[0] != second[0];
    SecondNameIsMissed(TWO_NAMES, first, second);
  }

  // ---- Entries that are found ----------------------------------------------

  lemma CapturedFirst(registry: Registry, scan: seq<Byte>, value: seq<Byte>, end: nat)
    requires Run(scan, 0, Idle, []) == Captured(value, end)
    ensures HintFrom(registry, scan, 0, Idle, [])
         == if value in registry then Some(value) else HintFrom(registry, scan, NextChunk(scan, end), Idle, [])
  {
    CaptureDecides(registry, scan, 0, Idle, []);
  }

  lemma ScannedPrefix(x: seq<Byte>, y: seq<Byte>)
    requires |x| <= 16384
    ensures exists y' :: y' <= y && Scanned(x + y) == x + y'
  {
    var n := if |x + y| <= 16384 then |y| else 16384 - |x|;
    assert Scanned(x + y) == x + y[..n];
  }

  /** The first name entry of a body is the hint if its value is registered and it ends
      within the first 16384 bytes. */
  lemma FirstEntryIsHint(
    registry: Registry, x: seq<Byte>, w1: seq<Byte>, w2: seq<Byte>, units: seq<Unit>, rest: seq<Byte>)
    requires 0x22 !in x && Blank(w1) && Blank(w2) && Writable(units) && Meant(units) in registry
    requires |x + Entry(w1, w2, units)| <= 16384
    ensures Hint(registry, x + Entry(w1, w2, units) + rest) == Some(Meant(units))
  {
    var entry := x + Entry(w1, w2, units);
    ScannedPrefix(entry, rest);
    var rest' :| rest' <= rest && Scanned(entry + rest) == entry + rest';
    EntryIsCaptured(x, w1, w2, units, rest', []);
    CapturedFirst(registry, entry + rest', Meant(units), |entry|);
  }

  /** Nothing behind the first 16384 bytes counts. */
  lemma OnlyFirstBytesCount(registry: Registry, body: seq<Byte>, more: seq<Byte>)
    requires |body| >= 16384
    ensures Hint(registry, body + more) == Hint(registry, body)
  {
    assert (body + more)[..16384] == body[..16384];
    assert |body| == 16384 ==> body[..16384] == body;
    assert |body + more| == 16384 ==> body + more == body;
  }

  lemma SkippedTo64(registry: Registry, scan: seq<Byte>, value: seq<Byte>, end: nat)
    requires |scan| >= 64 && Run(scan, 0, Idle, []) == Captured(value, end) && 0 < end <= 64 && value !in registry
    ensures HintFrom(registry, scan, 0, Idle, []) == HintFrom(registry, scan, 64, Idle, [])
  {
    CapturedFirst(registry, scan, value, end);
    assert NextChunk(scan, end) == 64;
  }

  lemma CapturedAt64(registry: Registry, chunk: seq<Byte>, later: seq<Byte>, value: seq<Byte>)
    requires |chunk| == 64 && value in registry
    requires Run(later, 0, Idle, []).Captured? && Run(later, 0, Idle, []).value == value
    ensures HintFrom(registry, chunk + later, 64, Idle, []) == Some(value)
  {
    assert (chunk + later)[64..] == later;
    RunOfSuffix(chunk + later, 64, Idle, []);
    CaptureDecides(registry, chunk + later, 64, Idle, []);
  }

  /** A registered name in an entry that starts behind the first 64 bytes, no quote before
      it, is the hint, although the name in the first 64 is not registered. */
  lemma SecondChunkIsSeen(
    registry: Registry, x: seq<Byte>, w1: seq<Byte>, w2: seq<Byte>, first: seq<Unit>, tail: seq<Byte>,
    y: seq<Byte>, w3: seq<Byte>, w4: seq<Byte>, second: seq<Unit>, rest: seq<Byte>)
    requires 0x22 !in x && Blank(w1) && Blank(w2) && Writable(first)
    requires 0x22 !in y && Blank(w3) && Blank(w4) && Writable(second)
    requires Meant(first) !in registry && Meant(second) in registry
    requires |x + Entry(w1, w2, first) + tail| == 64
    requires |y + Entry(w3, w4, second)| <= 16320
    ensures Hint(registry, x + Entry(w1, w2, first) + tail + (y + Entry(w3, w4, second)) + rest) == Some(Meant(second))
  {
    var one, two := x + Entry(w1, w2, first), y + Entry(w3, w4, second);
    ScannedPrefix(one + tail + two, rest);
    var rest' :| rest' <= rest && Scanned(one + tail + two + rest) == one + tail + two + rest';
    EntryIsCaptured(x, w1, w2, first, tail + (two + rest'), []);
    EntryIsCaptured(y, w3, w4, second, rest', []);
    Regroup(one, tail, two, rest');
    SkippedTo64(registry, one + (tail + (two + rest')), Meant(first), |one|);
    CapturedAt64(registry, one + tail, two + rest', Meant(second));
  }

  lemma Regroup(a: seq<Byte>, b: seq<Byte>, c: seq<Byte>, d: seq<Byte>)
    ensures a + b + c + d == a + (b + (c + d)) == a + b + (c + d)
  {
  }
}
