/** The burn-rate meter: spend per session and calendar minute, checked before a
    request goes upstream and recorded after the answer. */
module BurnRate {
  import opened Wrappers
  import opened Multiples

  /** Money is exact and counted in micro-dollars: 0.002 dollars per 1000 tokens is
      two micro-dollars per token, and the limit of 0.005 dollars is 5000. */
  const LIMIT: nat := 5000
  const COST_PER_TOKEN: nat := 2
  const MINUTE_MS: nat := 60_000
  const BURN_KEY_TTL_MS: nat := 120_000

  datatype Error = BurnRateExceeded

  datatype Entry = Entry(spend: nat, deadline: nat)

  /** One session's keys, by minute. */
  type Store = map<nat, Entry>

  function Minute(at: nat): nat
  {
    at / MINUTE_MS
  }

  function Live(store: Store, minute: nat, at: nat): nat
  {
    if minute in store && at < store[minute].deadline then store[minute].spend else 0
  }

  /** INCRBYFLOAT and EXPIRE. */
  function RecordStore(store: Store, minute: nat, at: nat, cost: nat): Store
  {
    store[minute := Entry(Live(store, minute, at) + cost, at + BURN_KEY_TTL_MS)]
  }

  // ---- Runs ----------------------------------------------------------------

  /** A request between its first clock reading and the end of its recording. */
  datatype Phase =
    | Asking(minute: nat)
    | Admitted(minute: nat)
    | Billing(minute: nat, cost: nat)
    | Over

  /** `total` is everything ever recorded for a minute; `openings` the checks for a
      minute that Redis failed to answer, which let the request through. */
  datatype State = State(
    store: Store, now: nat, requests: seq<Phase>,
    total: map<nat, nat>, openings: map<nat, nat>)

  datatype Step =
    | Arrive(at: nat)
    | Ask(i: nat, at: nat, answered: bool)
    | ReadBillClock(i: nat, at: nat, tokens: nat)
    | Record(i: nat, at: nat, reply: Reply)
    | Abandon(i: nat, at: nat)

  const START := State(map[], 0, [], map[], map[])

  function At(m: map<nat, nat>, k: nat): nat
  {
    if k in m then m[k] else 0
  }

  /** A request costs at most `cap`. */
  predicate Enabled(s: State, e: Step, cap: nat)
  {
    && s.now <= e.at
    && (e.Arrive? || e.i < |s.requests|)
    && match e
       case Arrive(_) => true
       case Ask(i, _, _) => s.requests[i].Asking?
       case ReadBillClock(i, _, tokens) => s.requests[i].Admitted? && tokens * COST_PER_TOKEN <= cap
       case Record(i, _, _) => s.requests[i].Billing?
       case Abandon(i, _) => s.requests[i] != Over
  }

  function Apply(s: State, e: Step, cap: nat): State
    requires Enabled(s, e, cap)
  {
    match e
    case Arrive(at) => s.(now := at, requests := s.requests + [Asking(Minute(at))])
    case Ask(i, at, answered) =>
      var minute := s.requests[i].minute;
      if !answered then
        s.(now := at, requests := s.requests[i := Admitted(minute)],
           openings := s.openings[minute := At(s.openings, minute) + 1])
      else if Live(s.store, minute, at) >= LIMIT then
        s.(now := at, requests := s.requests[i := Over])
      else
        s.(now := at, requests := s.requests[i := Admitted(minute)])
    case ReadBillClock(i, at, tokens) =>
      var cost := tokens * COST_PER_TOKEN;
      s.(now := at, requests := s.requests[i := if cost == 0 then Over else Billing(Minute(at), cost)])
    case Record(i, at, reply) =>
      var Billing(minute, cost) := s.requests[i];
      s.(now := at, requests := s.requests[i := Over],
         store := if Committed(reply) then RecordStore(s.store, minute, at, cost) else s.store,
         total := if Committed(reply) then s.total[minute := At(s.total, minute) + cost] else s.total)
    case Abandon(i, at) => s.(now := at, requests := s.requests[i := Over])
  }

  /** Requests in flight. */
  function Active(requests: seq<Phase>): nat
  {
    if requests == [] then 0
    else Active(requests[..|requests| - 1]) + if requests[|requests| - 1] == Over then 0 else 1
  }

  /** The request may still add to minute `m` once `m` is over its limit; `open` says
      that `m` has not ended. */
  predicate CanAddTo(p: Phase, m: nat, open: bool)
  {
    match p
    case Asking(minute) => open && minute < m
    case Admitted(_) => open
    case Billing(minute, _) => minute == m
    case Over => false
  }

  function Adders(requests: seq<Phase>, m: nat, open: bool): nat
  {
    if requests == [] then 0
    else Adders(requests[..|requests| - 1], m, open) + if CanAddTo(requests[|requests| - 1], m, open) then 1 else 0
  }

  predicate IsOpen(s: State, m: nat)
  {
    Minute(s.now) <= m
  }

  function Run(steps: seq<Step>, cap: nat, k: nat): Option<State>
  {
    if steps == [] then Some(START)
    else
      var n := |steps| - 1;
      match Run(steps[..n], cap, k)
      case None => None
      case Some(s) =>
        if Enabled(s, steps[n], cap) && Active(Apply(s, steps[n], cap).requests) <= k
        then Some(Apply(s, steps[n], cap)) else None
  }

  // ---- The bound -----------------------------------------------------------

  lemma {:induction false} CountsUpdate(requests: seq<Phase>, i: nat, p: Phase, m: nat, open: bool)
    requires i < |requests|
    ensures Active(requests[i := p]) + (if requests[i] == Over then 0 else 1)
         == Active(requests) + if p == Over then 0 else 1
    ensures Adders(requests[i := p], m, open) + (if CanAddTo(requests[i], m, open) then 1 else 0)
         == Adders(requests, m, open) + if CanAddTo(p, m, open) then 1 else 0
  {
    var n := |requests| - 1;
    if i < n {
      CountsUpdate(requests[..n], i, p, m, open);
      assert requests[i := p][..n] == requests[..n][i := p];
    } else {
      assert requests[i := p][..n] == requests[..n];
    }
  }

  lemma CountsAppend(requests: seq<Phase>, p: Phase, m: nat, open: bool)
    ensures Active(requests + [p]) == Active(requests) + if p == Over then 0 else 1
    ensures Adders(requests + [p], m, open) == Adders(requests, m, open) + if CanAddTo(p, m, open) then 1 else 0
  {
    assert (requests + [p])[..|requests|] == requests;
  }

  lemma {:induction false} AddersAreActive(requests: seq<Phase>, m: nat, open: bool)
    ensures Adders(requests, m, open) <= Active(requests)
    ensures Adders(requests, m, false) <= Adders(requests, m, open)
  {
    if requests != [] { AddersAreActive(requests[..|requests| - 1], m, open); }
  }

  /** Clock readings lie in the past. */
  ghost predicate Timely(s: State)
  {
    forall i | 0 <= i < |s.requests| ::
      match s.requests[i]
      case Asking(minute) => minute <= Minute(s.now)
      case Admitted(minute) => minute <= Minute(s.now)
      case Billing(minute, cost) => minute <= Minute(s.now) && 0 < cost
      case Over => true
  }

  /** While a check of minute `m` can still come, its key holds all that was recorded. */
  ghost predicate KeyIsTotal(s: State, m: nat)
  {
    && (At(s.total, m) > 0 ==> m <= Minute(s.now))
    && (s.now < (m + 2) * MINUTE_MS && At(s.total, m) > 0 ==>
          m in s.store && s.store[m].spend == At(s.total, m) && (m + 2) * MINUTE_MS <= s.store[m].deadline)
    && (At(s.total, m) == 0 ==> m !in s.store)
  }

  ghost predicate Capped(s: State, cap: nat)
  {
    forall i | 0 <= i < |s.requests| && s.requests[i].Billing? :: s.requests[i].cost <= cap
  }

  /** Once over the limit, the total leaves room for one `cap` per adder under a bound
      of the limit and `n` times `cap`. */
  predicate Fits(total: nat, adders: nat, n: nat, cap: nat)
  {
    total >= LIMIT ==> total + Multiple(adders, cap) < LIMIT + Multiple(n, cap)
  }

  lemma FitsAfterRecord(total: nat, cost: nat, adders: nat, adders': nat, n: nat, cap: nat)
    requires Fits(total, adders, n, cap) && cost <= cap && adders' + 1 <= adders && adders' + 1 <= n
    ensures Fits(total + cost, adders', n, cap)
  {
    assert Multiple(adders' + 1, cap) == Multiple(adders', cap) + cap;
    MultipleGrows(adders' + 1, adders, cap);
    MultipleGrows(adders' + 1, n, cap);
  }

  lemma FitsAfterOther(total: nat, adders: nat, adders': nat, more: nat, n: nat, cap: nat)
    requires Fits(total, adders, n, cap) && more <= 1 && (total >= LIMIT ==> adders' <= adders + more)
    ensures Fits(total, adders', n + more, cap)
  {
    if total >= LIMIT {
      assert Multiple(adders + 1, cap) == Multiple(adders, cap) + cap;
      assert Multiple(n + 1, cap) == Multiple(n, cap) + cap;
      MultipleGrows(adders', adders + more, cap);
    }
  }

  lemma FitsMeansBelow(total: nat, adders: nat, n: nat, cap: nat)
    requires Fits(total, adders, n, cap)
    ensures total < LIMIT + n * cap
  {
    MultipleIsProduct(n, cap);
  }

  /** Once a minute is over its limit, every request that can add to it is accounted for. */
  ghost predicate Bounded(s: State, cap: nat, k: nat, m: nat)
  {
    Fits(At(s.total, m), Adders(s.requests, m, IsOpen(s, m)), k + At(s.openings, m), cap)
  }

  ghost predicate Invariant(s: State, cap: nat, k: nat, m: nat)
  {
    Timely(s) && Active(s.requests) <= k && KeyIsTotal(s, m) && Capped(s, cap) && Bounded(s, cap, k, m)
  }

  lemma MinuteMonotone(a: nat, b: nat)
    requires a <= b
    ensures Minute(a) <= Minute(b)
  {
  }

  lemma MinuteEnds(at: nat, m: nat)
    ensures Minute(at) <= m <==> at < (m + 1) * MINUTE_MS
  {
  }

  lemma TimelyStep(s: State, e: Step, cap: nat, k: nat, m: nat)
    requires Enabled(s, e, cap) && Invariant(s, cap, k, m)
    ensures Timely(Apply(s, e, cap))
    ensures Capped(Apply(s, e, cap), cap)
  {
    MinuteMonotone(s.now, e.at);
  }

  lemma KeyStep(s: State, e: Step, cap: nat, k: nat, m: nat)
    requires Enabled(s, e, cap) && Invariant(s, cap, k, m)
    ensures KeyIsTotal(Apply(s, e, cap), m)
  {
    MinuteMonotone(s.now, e.at);
    if e.Record? && Committed(e.reply) {
      var minute := s.requests[e.i].minute;
      assert minute * MINUTE_MS <= s.now;
    }
  }

  /** Time only takes adders away. */
  lemma AddersClose(s: State, e: Step, requests: seq<Phase>, m: nat)
    requires s.now <= e.at
    ensures Adders(requests, m, Minute(e.at) <= m) <= Adders(requests, m, IsOpen(s, m))
  {
    MinuteMonotone(s.now, e.at);
    AddersAreActive(requests, m, IsOpen(s, m));
  }

  /** A recording uses up the request that made it. */
  lemma RecordAdders(s: State, e: Step, cap: nat, m: nat)
    requires Enabled(s, e, cap) && e.Record?
    ensures var s' := Apply(s, e, cap);
      var own := if s.requests[e.i].minute == m then 1 else 0;
      && Adders(s'.requests, m, IsOpen(s', m)) + own <= Adders(s.requests, m, IsOpen(s, m))
      && Adders(s'.requests, m, IsOpen(s', m)) + 1 <= Active(s.requests)
  {
    var s' := Apply(s, e, cap);
    CountsUpdate(s.requests, e.i, Over, m, IsOpen(s, m));
    AddersClose(s, e, s'.requests, m);
    AddersAreActive(s'.requests, m, IsOpen(s, m));
  }

  lemma RecordTotal(s: State, e: Step, cap: nat, m: nat)
    requires Enabled(s, e, cap) && e.Record? && Committed(e.reply)
    ensures var s' := Apply(s, e, cap);
      && At(s'.openings, m) == At(s.openings, m)
      && At(s'.total, m) == At(s.total, m) + if s.requests[e.i].minute == m then s.requests[e.i].cost else 0
  {
  }

  lemma RecordBound(s: State, e: Step, cap: nat, k: nat, m: nat)
    requires Enabled(s, e, cap) && Active(s.requests) <= k && Capped(s, cap) && Bounded(s, cap, k, m)
    requires e.Record? && Committed(e.reply)
    ensures Bounded(Apply(s, e, cap), cap, k, m)
  {
    var s' := Apply(s, e, cap);
    var adders, adders' := Adders(s.requests, m, IsOpen(s, m)), Adders(s'.requests, m, IsOpen(s', m));
    var n := k + At(s.openings, m);
    RecordAdders(s, e, cap, m);
    RecordTotal(s, e, cap, m);
    if s.requests[e.i].minute == m {
      FitsAfterRecord(At(s.total, m), s.requests[e.i].cost, adders, adders', n, cap);
    } else {
      FitsAfterOther(At(s.total, m), adders, adders', 0, n, cap);
    }
  }

  /** Once a minute is over its limit, only a check that Redis fails to answer makes a
      new request that can add to it. */
  lemma AddersStep(s: State, e: Step, cap: nat, k: nat, m: nat)
    requires Enabled(s, e, cap) && Invariant(s, cap, k, m) && !(e.Record? && Committed(e.reply))
    requires At(s.total, m) >= LIMIT
    ensures var s' := Apply(s, e, cap);
      Adders(s'.requests, m, IsOpen(s', m)) <= Adders(s.requests, m, IsOpen(s, m)) + Opened(s, e, m)
  {
    var s' := Apply(s, e, cap);
    AddersClose(s, e, s.requests, m);
    MinuteMonotone(s.now, e.at);
    if e.Arrive? {
      CountsAppend(s.requests, Asking(Minute(e.at)), m, IsOpen(s', m));
    } else {
      CountsUpdate(s.requests, e.i, s'.requests[e.i], m, IsOpen(s', m));
      MinuteEnds(e.at, m);
    }
  }

  lemma OtherTotal(s: State, e: Step, cap: nat, m: nat)
    requires Enabled(s, e, cap) && !(e.Record? && Committed(e.reply))
    ensures var s' := Apply(s, e, cap);
      At(s'.total, m) == At(s.total, m) && At(s'.openings, m) == At(s.openings, m) + Opened(s, e, m)
  {
  }

  /** Whether the step lets a request of minute `m` through unchecked. */
  function Opened(s: State, e: Step, m: nat): nat
    requires e.Ask? ==> e.i < |s.requests| && s.requests[e.i].Asking?
  {
    if e.Ask? && !e.answered && s.requests[e.i].minute == m then 1 else 0
  }

  lemma OtherBound(s: State, e: Step, cap: nat, k: nat, m: nat)
    requires Enabled(s, e, cap) && Invariant(s, cap, k, m) && !(e.Record? && Committed(e.reply))
    ensures Bounded(Apply(s, e, cap), cap, k, m)
  {
    var s' := Apply(s, e, cap);
    OtherTotal(s, e, cap, m);
    if At(s.total, m) >= LIMIT { AddersStep(s, e, cap, k, m); }
    FitsAfterOther(At(s.total, m), Adders(s.requests, m, IsOpen(s, m)), Adders(s'.requests, m, IsOpen(s', m)),
                   Opened(s, e, m), k + At(s.openings, m), cap);
  }

  lemma InvariantStep(s: State, e: Step, cap: nat, k: nat, m: nat)
    requires Enabled(s, e, cap) && Invariant(s, cap, k, m) && Active(Apply(s, e, cap).requests) <= k
    ensures Invariant(Apply(s, e, cap), cap, k, m)
  {
    TimelyStep(s, e, cap, k, m);
    KeyStep(s, e, cap, k, m);
    if e.Record? && Committed(e.reply) {
      RecordBound(s, e, cap, k, m);
    } else {
      OtherBound(s, e, cap, k, m);
    }
  }

  lemma {:induction false} Reachable(steps: seq<Step>, cap: nat, k: nat, m: nat)
    requires Run(steps, cap, k).Some?
    ensures Invariant(Run(steps, cap, k).value, cap, k, m)
  {
    if steps != [] {
      var n := |steps| - 1;
      Reachable(steps[..n], cap, k, m);
      InvariantStep(Run(steps[..n], cap, k).value, steps[n], cap, k, m);
    }
  }

  lemma StateIsBounded(s: State, cap: nat, k: nat, m: nat)
    requires Bounded(s, cap, k, m)
    ensures At(s.total, m) < 5000 + (k + At(s.openings, m)) * cap
  {
    FitsMeansBelow(At(s.total, m), Adders(s.requests, m, IsOpen(s, m)), k + At(s.openings, m), cap);
  }

  /** With at most `k` requests in flight, each costing at most `cap`, the spend
      recorded for any calendar minute stays below 5000 + k * cap micro-dollars,
      counting requests checked in an earlier minute; each check that Redis fails
      to answer can raise that by one more `cap`. */
  lemma SpendIsBounded(steps: seq<Step>, cap: nat, k: nat, m: nat)
    requires Run(steps, cap, k).Some?
    ensures var s := Run(steps, cap, k).value;
      At(s.total, m) < 5000 + (k + At(s.openings, m)) * cap
  {
    Reachable(steps, cap, k, m);
    var s := Run(steps, cap, k).value;
    StateIsBounded(s, cap, k, m);
  }

  /** Up to the end of the minute after its own, a key holds everything recorded for
      its minute: the expiry of 120 s never erases spend that a check could read. */
  lemma ExpiryKeepsTheMinute(steps: seq<Step>, cap: nat, k: nat, m: nat, at: nat)
    requires Run(steps, cap, k).Some?
    requires Run(steps, cap, k).value.now <= at < (m + 2) * 60_000
    ensures var s := Run(steps, cap, k).value;
      Live(s.store, m, at) == At(s.total, m)
  {
    Reachable(steps, cap, k, m);
  }

  // ---- The bound is reached ------------------------------------------------

  lemma Extend(steps: seq<Step>, cap: nat, k: nat, e: Step)
    requires Run(steps, cap, k).Some?
    requires var s := Run(steps, cap, k).value; Enabled(s, e, cap) && Active(Apply(s, e, cap).requests) <= k
    ensures Run(steps + [e], cap, k) == Some(Apply(Run(steps, cap, k).value, e, cap))
  {
    assert (steps + [e])[..|steps|] == steps;
  }

  /** `n` requests that are over, then `a` that are admitted, all of minute 0. */
  function Line(n: nat, a: nat): seq<Phase>
  {
    seq(n, _ => Over) + seq(a, _ => Admitted(0))
  }

  lemma {:induction false} ActiveLine(n: nat, a: nat)
    ensures Active(Line(n, a)) == a
  {
    if a > 0 {
      ActiveLine(n, a - 1);
      assert Line(n, a)[..n + a - 1] == Line(n, a - 1);
    } else if n > 0 {
      ActiveLine(n - 1, 0);
      assert Line(n, 0)[..n - 1] == Line(n - 1, 0);
    }
  }

  /** At time 0 the requests are `Line(n, a)` and minute 0 has spent `total`. */
  predicate Standing(s: State, n: nat, a: nat, total: nat)
  {
    && s.now == 0 && s.requests == Line(n, a) && s.openings == map[]
    && At(s.total, 0) == total && Live(s.store, 0, 0) == total
  }

  ghost predicate Stage(steps: seq<Step>, cap: nat, k: nat, n: nat, a: nat, total: nat)
  {
    Run(steps, cap, k).Some? && Standing(Run(steps, cap, k).value, n, a, total)
  }

  lemma LineAdmits(n: nat, a: nat)
    ensures Line(n, a) + [Asking(0)] == Line(n, a + 1)[n + a := Asking(0)]
    ensures (Line(n, a) + [Asking(0)])[n + a := Admitted(0)] == Line(n, a + 1)
    ensures Active(Line(n, a) + [Asking(0)]) == a + 1
  {
    ActiveLine(n, a);
    CountsAppend(Line(n, a), Asking(0), 0, true);
  }

  lemma LineBills(n: nat, a: nat, cost: nat)
    requires a >= 1
    ensures Line(n, a)[n] == Admitted(0)
    ensures Line(n, a)[n := Billing(0, cost)][n := Over] == Line(n + 1, a - 1)
    ensures Active(Line(n, a)[n := Billing(0, cost)]) == a
  {
    ActiveLine(n, a);
    CountsUpdate(Line(n, a), n, Billing(0, cost), 0, true);
  }

  lemma ArriveAndAsk(s: State, cap: nat, k: nat, n: nat, a: nat, total: nat) returns (s1: State, s2: State)
    requires Standing(s, n, a, total) && a < k && total < LIMIT
    ensures Enabled(s, Arrive(0), cap) && s1 == Apply(s, Arrive(0), cap) && Active(s1.requests) <= k
    ensures Enabled(s1, Ask(n + a, 0, true), cap) && s2 == Apply(s1, Ask(n + a, 0, true), cap) && Active(s2.requests) <= k
    ensures Standing(s2, n, a + 1, total)
  {
    LineAdmits(n, a);
    ActiveLine(n, a + 1);
    s1 := s.(requests := Line(n, a) + [Asking(0)]);
    s2 := s.(requests := Line(n, a + 1));
  }

  lemma AdmitOne(steps: seq<Step>, cap: nat, k: nat, n: nat, a: nat, total: nat) returns (steps': seq<Step>)
    requires Stage(steps, cap, k, n, a, total) && a < k && total < LIMIT
    ensures Stage(steps', cap, k, n, a + 1, total)
  {
    var s1, s2 := ArriveAndAsk(Run(steps, cap, k).value, cap, k, n, a, total);
    Extend(steps, cap, k, Arrive(0));
    Extend(steps + [Arrive(0)], cap, k, Ask(n + a, 0, true));
    steps' := steps + [Arrive(0)] + [Ask(n + a, 0, true)];
  }

  /** Minute 0 is billed for a request whose turn it is. */
  lemma RecordAtZero(s: State, cap: nat, i: nat, cost: nat, total: nat)
    requires s.now == 0 && i < |s.requests| && s.requests[i] == Billing(0, cost)
    requires At(s.total, 0) == total && Live(s.store, 0, 0) == total
    ensures var s' := Apply(s, Record(i, 0, Answered), cap);
      && s'.now == 0 && s'.requests == s.requests[i := Over] && s'.openings == s.openings
      && At(s'.total, 0) == total + cost && Live(s'.store, 0, 0) == total + cost
  {
  }

  lemma BillAtZero(s: State, cap: nat, i: nat, tokens: nat)
    requires s.now == 0 && i < |s.requests| && s.requests[i] == Admitted(0)
    requires 1 <= tokens && tokens * COST_PER_TOKEN <= cap
    ensures Enabled(s, ReadBillClock(i, 0, tokens), cap)
    ensures Apply(s, ReadBillClock(i, 0, tokens), cap)
      == s.(requests := s.requests[i := Billing(0, tokens * COST_PER_TOKEN)])
  {
    assert Minute(0) == 0;
  }

  lemma BillAndRecord(s: State, cap: nat, k: nat, n: nat, a: nat, total: nat, tokens: nat) returns (s1: State, s2: State)
    requires Standing(s, n, a, total) && 1 <= a <= k && 1 <= tokens && tokens * COST_PER_TOKEN <= cap
    ensures Enabled(s, ReadBillClock(n, 0, tokens), cap) && s1 == Apply(s, ReadBillClock(n, 0, tokens), cap)
    ensures Enabled(s1, Record(n, 0, Answered), cap) && s2 == Apply(s1, Record(n, 0, Answered), cap)
    ensures Active(s1.requests) <= k && Active(s2.requests) <= k
    ensures Standing(s2, n + 1, a - 1, total + tokens * COST_PER_TOKEN)
  {
    var cost := tokens * COST_PER_TOKEN;
    LineBills(n, a, cost);
    ActiveLine(n + 1, a - 1);
    BillAtZero(s, cap, n, tokens);
    s1 := s.(requests := Line(n, a)[n := Billing(0, cost)]);
    RecordAtZero(s1, cap, n, cost, total);
    s2 := Apply(s1, Record(n, 0, Answered), cap);
  }

  lemma BillOne(steps: seq<Step>, cap: nat, k: nat, n: nat, a: nat, total: nat, tokens: nat) returns (steps': seq<Step>)
    requires Stage(steps, cap, k, n, a, total) && 1 <= a <= k && 1 <= tokens && tokens * COST_PER_TOKEN <= cap
    ensures Stage(steps', cap, k, n + 1, a - 1, total + tokens * COST_PER_TOKEN)
  {
    var s1, s2 := BillAndRecord(Run(steps, cap, k).value, cap, k, n, a, total, tokens);
    Extend(steps, cap, k, ReadBillClock(n, 0, tokens));
    Extend(steps + [ReadBillClock(n, 0, tokens)], cap, k, Record(n, 0, Answered));
    steps' := steps + [ReadBillClock(n, 0, tokens)] + [Record(n, 0, Answered)];
  }

  /** `n` requests of one token, one after the other. */
  lemma {:induction false} SpendOneByOne(cap: nat, k: nat, n: nat) returns (steps: seq<Step>)
    requires k >= 1 && cap >= COST_PER_TOKEN && n * COST_PER_TOKEN < LIMIT
    ensures Stage(steps, cap, k, n, 0, n * COST_PER_TOKEN)
  {
    steps := [];
    if n == 0 {
      assert Line(0, 0) == [];
    } else {
      steps := SpendOneByOne(cap, k, n - 1);
      steps := AdmitOne(steps, cap, k, n - 1, 0, (n - 1) * COST_PER_TOKEN);
      steps := BillOne(steps, cap, k, n - 1, 1, (n - 1) * COST_PER_TOKEN, 1);
    }
  }

  lemma {:induction false} AdmitTogether(cap: nat, k: nat, n: nat, a: nat) returns (steps: seq<Step>)
    requires 1 <= k && a <= k && cap >= COST_PER_TOKEN && n * COST_PER_TOKEN < LIMIT
    ensures Stage(steps, cap, k, n, a, n * COST_PER_TOKEN)
  {
    if a == 0 {
      steps := SpendOneByOne(cap, k, n);
    } else {
      steps := AdmitTogether(cap, k, n, a - 1);
      steps := AdmitOne(steps, cap, k, n, a - 1, n * COST_PER_TOKEN);
    }
  }

  lemma BillNext(steps: seq<Step>, cap: nat, tokens: nat, k: nat, n: nat, a: nat) returns (steps': seq<Step>)
    requires 1 <= a <= k && 1 <= tokens && tokens * COST_PER_TOKEN == cap
    requires Stage(steps, cap, k, n + a - 1, k - a + 1, n * COST_PER_TOKEN + Multiple(a - 1, cap))
    ensures Stage(steps', cap, k, n + a, k - a, n * COST_PER_TOKEN + Multiple(a, cap))
  {
    var total := n * COST_PER_TOKEN + Multiple(a - 1, cap);
    assert total + cap == n * COST_PER_TOKEN + Multiple(a, cap);
    steps' := BillOne(steps, cap, k, n + a - 1, k - a + 1, total, tokens);
  }

  lemma {:induction false} BillTogether(cap: nat, tokens: nat, k: nat, n: nat, a: nat) returns (steps: seq<Step>)
    requires 1 <= k && a <= k && 1 <= tokens && tokens * COST_PER_TOKEN == cap && n * COST_PER_TOKEN < LIMIT
    ensures Stage(steps, cap, k, n + a, k - a, n * COST_PER_TOKEN + Multiple(a, cap))
  {
    if a == 0 {
      steps := AdmitTogether(cap, k, n, k);
    } else {
      steps := BillTogether(cap, tokens, k, n, a - 1);
      steps := BillNext(steps, cap, tokens, k, n, a);
    }
  }

  /** The bound is exact: costs are even, and for every number of requests and every cost
      of at least one token, a run spends two micro-dollars less than the bound. */
  lemma SpendIsReached(tokens: nat, k: nat) returns (steps: seq<Step>)
    requires 1 <= k && 1 <= tokens
    ensures var cap := 2 * tokens;
      && Run(steps, cap, k).Some?
      && At(Run(steps, cap, k).value.openings, 0) == 0
      && At(Run(steps, cap, k).value.total, 0) == 5000 + k * cap - 2
  {
    steps := BillTogether(tokens * COST_PER_TOKEN, tokens, k, 2499, k);
    MultipleIsProduct(k, tokens * COST_PER_TOKEN);
  }

  // ---- Calls are steps -----------------------------------------------------

  /** A check is its two steps: the clock's minute, and the answer for it. */
  lemma CheckIsItsSteps(s: State, readAt: nat, at: nat, answered: bool, cap: nat)
    requires s.now <= readAt <= at
    ensures var i := |s.requests|;
      var s' := Apply(Apply(s, Arrive(readAt), cap), Ask(i, at, answered), cap);
      && s'.store == s.store
      && s'.requests == s.requests + [if answered && Live(s.store, readAt / 60_000, at) >= 5000 then Over
                                      else Admitted(readAt / 60_000)]
  {
    assert (s.requests + [Asking(readAt / 60_000)])[|s.requests| := Over] == s.requests + [Over];
  }

  /** So is the recording of an answer's tokens. */
  lemma RecordingIsItsSteps(s: State, i: nat, readAt: nat, at: nat, tokens: nat, reply: Reply, cap: nat)
    requires s.now <= readAt <= at && i < |s.requests| && s.requests[i].Admitted? && 2 * tokens <= cap
    ensures var s1 := Apply(s, ReadBillClock(i, readAt, tokens), cap);
      if tokens == 0 then s1.store == s.store && s1.requests == s.requests[i := Over]
      else
        var s' := Apply(s1, Record(i, at, reply), cap);
        var minute := readAt / 60_000;
        && s'.requests == s.requests[i := Over]
        && s'.store == if reply == NotDelivered then s.store
                       else s.store[minute := Entry(Live(s.store, minute, at) + 2 * tokens, at + 120_000)]
  {
  }

  // ---- The gateway's calls -------------------------------------------------

  /** One session's keys. */
  class SessionSpend {
    var store: Store

    constructor ()
      ensures store == map[]
    {
      store := map[];
    }

    /** A GET that Redis fails to answer lets the request pass. */
    method EnforceBurnRate(readAt: nat, at: nat, answered: bool) returns (r: Result<(), Error>)
      ensures r == if answered && Live(store, readAt / 60_000, at) >= 5000 then Err(BurnRateExceeded) else Ok(())
    {
      var minute := readAt / MINUTE_MS;
      if !answered { return Ok(()); }
      var current := 0;
      if minute in store && at < store[minute].deadline { current := store[minute].spend; }
      if current >= LIMIT { return Err(BurnRateExceeded); }
      return Ok(());
    }

    method RecordSessionSpend(readAt: nat, at: nat, tokens: nat, reply: Reply)
      modifies this
      ensures store == if tokens > 0 && Committed(reply)
                       then RecordStore(old(store), Minute(readAt), at, 2 * tokens) else old(store)
      ensures tokens > 0 && reply != NotDelivered ==>
        var minute := readAt / 60_000;
        && store.Keys == old(store).Keys + {minute}
        && store[minute] == Entry(Live(old(store), minute, at) + 2 * tokens, at + 120_000)
        && forall m | m in old(store) && m != minute :: store[m] == old(store)[m]
    {
      var cost := tokens * COST_PER_TOKEN;
      if cost == 0 { return; }
      var minute := readAt / MINUTE_MS;
      if reply == NotDelivered { return; }
      if minute in store && at >= store[minute].deadline { store := store - {minute}; }
      var spend := if minute in store then store[minute].spend else 0;
      store := store[minute := Entry(spend + cost, at + BURN_KEY_TTL_MS)];
    }
  }
}
