/** The agentic loop budget: a Redis sorted set read as a five-minute sliding
    window, with an in-process counter per five minutes when Redis fails. */
module LoopBudget {
  import opened Wrappers

  const WINDOW_MS: nat := 300_000
  const REDIS_LIMIT: nat := 15
  const FALLBACK_LIMIT: nat := 5

  datatype Error = AgentLoopBudgetExceeded

  /** What outlives a request: the sorted set (scores only: members carry a fresh
      UUID, so no two collide) with its expiry, and every fallback counter made,
      by id, with the time it was put in the cache. The cache holds the last one. */
  datatype Store = Store(scores: seq<nat>, deadline: nat, counters: seq<nat>, born: seq<nat>)

  const EMPTY := Store([], 0, [], [])

  // ---- The store's operations ----------------------------------------------

  function Above(scores: seq<nat>, cutoff: nat): (kept: seq<nat>)
  {
    if scores == [] then []
    else (if scores[0] > cutoff then [scores[0]] else []) + Above(scores[1..], cutoff)
  }

  function CountAbove(scores: seq<nat>, cutoff: nat): nat
  {
    if scores == [] then 0
    else (if scores[0] > cutoff then 1 else 0) + CountAbove(scores[1..], cutoff)
  }

  /** `now.saturating_sub(300_000)` */
  function WindowStart(stamp: nat): nat
  {
    if stamp < WINDOW_MS then 0 else stamp - WINDOW_MS
  }

  /** The sorted set as Redis serves it at time `at`: an expired key is empty. */
  function Live(store: Store, at: nat): seq<nat>
  {
    if at < store.deadline then store.scores else []
  }

  function PipelineScores(store: Store, at: nat, stamp: nat): seq<nat>
  {
    Above(Live(store, at), WindowStart(stamp)) + [stamp]
  }

  function PipelineStore(store: Store, at: nat, stamp: nat): Store
  {
    store.(scores := PipelineScores(store, at, stamp), deadline := at + WINDOW_MS)
  }

  predicate Cached(store: Store, at: nat)
  {
    |store.born| > 0 && at < store.born[|store.born| - 1] + WINDOW_MS
  }

  function LookUpStore(store: Store, at: nat): Store
  {
    if Cached(store, at) then store
    else store.(counters := store.counters + [0], born := store.born + [at])
  }

  function BumpStore(store: Store, id: nat): Store
    requires id < |store.counters|
  {
    store.(counters := store.counters[id := store.counters[id] + 1])
  }

  // ---- Requests and runs ---------------------------------------------------

  /** A request is a small machine whose steps are separated by the source's await
      points; a run is any interleaving of the steps of any number of requests. */
  datatype Phase =
    | ClockRead(stamp: nat)
    | CutOver
    | Holding(id: nat, lookedUp: nat)
    | Settled(verdict: Result<nat, Error>)

  datatype Via = ByRedis | ByFallback(id: nat, lookedUp: nat)

  /** An allowed call: when it was allowed, and by which of the two paths. */
  datatype Grant = Grant(at: nat, via: Via)

  /** One session. `grants` and `recorded` are history: allowed calls, and the stamp of every
      pipeline the server ran, in order. */
  datatype State = State(
    store: Store, now: nat, phases: map<nat, Phase>,
    grants: seq<Grant>, recorded: seq<nat>)

  datatype Step =
    | ReadClock(req: nat, at: nat)
    | Pipeline(req: nat, at: nat, reply: Reply)
    | LookUp(req: nat, at: nat)
    | Bump(req: nat, at: nat)

  const START := State(EMPTY, 0, map[], [], [])

  ghost predicate WellFormed(s: State)
  {
    && |s.store.counters| == |s.store.born|
    && forall r | r in s.phases && s.phases[r].Holding? :: s.phases[r].id < |s.store.counters|
  }

  /** The step comes next in its request, and time does not run backwards. */
  predicate Enabled(s: State, e: Step)
  {
    && s.now <= e.at
    && match e
       case ReadClock(r, at) => r !in s.phases && 0 < at
       case Pipeline(r, _, _) => r in s.phases && s.phases[r].ClockRead?
       case LookUp(r, _) => r in s.phases && s.phases[r].CutOver?
       case Bump(r, _) => r in s.phases && s.phases[r].Holding?
  }

  /** At most `lag` ms pass between a request's clock reading and its pipeline,
      and between its cache lookup and its increment. */
  predicate Prompt(s: State, e: Step, lag: nat)
    requires Enabled(s, e)
  {
    match e
    case Pipeline(r, at, _) => at <= s.phases[r].stamp + lag
    case Bump(r, at) => at <= s.phases[r].lookedUp + lag
    case _ => true
  }

  function Verdict(count: nat, limit: nat): Result<nat, Error>
  {
    if count > limit then Err(AgentLoopBudgetExceeded) else Ok(count)
  }

  ghost function Apply(s: State, e: Step): (s': State)
    requires WellFormed(s) && Enabled(s, e)
    ensures WellFormed(s') && s'.now == e.at
  {
    match e
    case ReadClock(r, at) => s.(now := at, phases := s.phases[r := ClockRead(at)])
    case Pipeline(r, at, reply) =>
      var stamp := s.phases[r].stamp;
      var verdict := Verdict(|PipelineScores(s.store, at, stamp)|, REDIS_LIMIT);
      s.(now := at,
         store := if Committed(reply) then PipelineStore(s.store, at, stamp) else s.store,
         recorded := if Committed(reply) then s.recorded + [stamp] else s.recorded,
         phases := s.phases[r := if reply.Answered? then Settled(verdict) else CutOver],
         grants := if reply.Answered? && verdict.Ok? then s.grants + [Grant(at, ByRedis)] else s.grants)
    case LookUp(r, at) =>
      var store := LookUpStore(s.store, at);
      s.(now := at, store := store, phases := s.phases[r := Holding(|store.counters| - 1, at)])
    case Bump(r, at) =>
      var Holding(id, lookedUp) := s.phases[r];
      var verdict := Verdict(s.store.counters[id] + 1, FALLBACK_LIMIT);
      s.(now := at, store := BumpStore(s.store, id), phases := s.phases[r := Settled(verdict)],
         grants := if verdict.Ok? then s.grants + [Grant(at, ByFallback(id, lookedUp))] else s.grants)
  }

  /** The state `steps` lead to from `START`, if each is enabled and prompt. */
  ghost function Run(steps: seq<Step>, lag: nat): (r: Option<State>)
    ensures r.Some? ==> WellFormed(r.value)
  {
    if steps == [] then Some(START)
    else
      var n := |steps| - 1;
      match Run(steps[..n], lag)
      case None => None
      case Some(s) =>
        if Enabled(s, steps[n]) && Prompt(s, steps[n], lag) then Some(Apply(s, steps[n])) else None
  }

  // ---- Counting grants -----------------------------------------------------

  function RedisGrants(grants: seq<Grant>, after: nat, upTo: nat): nat
  {
    if grants == [] then 0
    else
      var n := |grants| - 1;
      RedisGrants(grants[..n], after, upTo)
      + if grants[n].via.ByRedis? && after < grants[n].at <= upTo then 1 else 0
  }

  function FallbackGrants(grants: seq<Grant>, after: nat, upTo: nat): nat
  {
    if grants == [] then 0
    else
      var n := |grants| - 1;
      FallbackGrants(grants[..n], after, upTo)
      + if grants[n].via.ByFallback? && after < grants[n].at <= upTo then 1 else 0
  }

  function CounterGrants(grants: seq<Grant>, id: nat): nat
  {
    if grants == [] then 0
    else
      var n := |grants| - 1;
      CounterGrants(grants[..n], id)
      + if grants[n].via.ByFallback? && grants[n].via.id == id then 1 else 0
  }

  function GrantsIn(grants: seq<Grant>, after: nat, upTo: nat): nat
  {
    RedisGrants(grants, after, upTo) + FallbackGrants(grants, after, upTo)
  }

  lemma {:induction false} CountAboveAppend(scores: seq<nat>, x: nat, cutoff: nat)
    ensures CountAbove(scores + [x], cutoff) == CountAbove(scores, cutoff) + if x > cutoff then 1 else 0
  {
    if scores == [] {
      assert [] + [x] == [x];
    } else {
      CountAboveAppend(scores[1..], x, cutoff);
      assert (scores + [x])[1..] == scores[1..] + [x];
    }
  }

  lemma {:induction false} CountAboveBounded(scores: seq<nat>, cutoff: nat)
    ensures CountAbove(scores, cutoff) <= |scores|
  {
    if scores != [] { CountAboveBounded(scores[1..], cutoff); }
  }

  lemma {:induction false} CountAboveKept(scores: seq<nat>, cutoff: nat, x: nat)
    requires cutoff <= x
    ensures CountAbove(Above(scores, cutoff), x) == CountAbove(scores, x)
    ensures |Above(scores, cutoff)| == CountAbove(scores, cutoff)
  {
    if scores != [] {
      CountAboveKept(scores[1..], cutoff, x);
      var rest := Above(scores[1..], cutoff);
      if scores[0] > cutoff {
        assert ([scores[0]] + rest)[1..] == rest;
      } else {
        assert [] + rest == rest;
      }
    }
  }

  lemma {:induction false} CountAboveNone(scores: seq<nat>, cutoff: nat)
    requires forall i | 0 <= i < |scores| :: scores[i] <= cutoff
    ensures CountAbove(scores, cutoff) == 0
  {
    if scores != [] { CountAboveNone(scores[1..], cutoff); }
  }

  // ---- At most 15 through Redis --------------------------------------------

  /** Every grant of the window still has its score in the sorted set. */
  ghost predicate RedisInvariant(s: State, after: nat, upTo: nat, lag: nat)
  {
    var n := RedisGrants(s.grants, after, upTo);
    var floor := if lag <= after then after - lag else 0;
    && n <= 15
    && (s.now <= after ==> n == 0)
    && (s.now <= upTo && n > 0 ==> upTo < s.store.deadline && n <= CountAbove(s.store.scores, floor))
    && forall r | r in s.phases && s.phases[r].ClockRead? :: 0 < s.phases[r].stamp <= s.now
  }

  lemma RedisStep(s: State, e: Step, after: nat, upTo: nat, lag: nat)
    requires WellFormed(s) && Enabled(s, e) && Prompt(s, e, lag)
    requires RedisInvariant(s, after, upTo, lag)
    requires after <= upTo && upTo + lag <= after + WINDOW_MS
    ensures RedisInvariant(Apply(s, e), after, upTo, lag)
  {
    var s' := Apply(s, e);
    if e.Pipeline? && Committed(e.reply) && after < e.at <= upTo {
      var floor := if lag <= after then after - lag else 0;
      var stamp := s.phases[e.req].stamp;
      var live := Live(s.store, e.at);
      CountAboveKept(live, WindowStart(stamp), floor);
      CountAboveAppend(Above(live, WindowStart(stamp)), stamp, floor);
      CountAboveBounded(s'.store.scores, floor);
    }
  }

  lemma {:induction false} AtMostFifteenThroughRedis(steps: seq<Step>, lag: nat, after: nat, upTo: nat)
    requires Run(steps, lag).Some?
    requires after <= upTo && upTo + lag <= after + 300_000
    ensures RedisInvariant(Run(steps, lag).value, after, upTo, lag)
  {
    if steps != [] {
      var n := |steps| - 1;
      AtMostFifteenThroughRedis(steps[..n], lag, after, upTo);
      RedisStep(Run(steps[..n], lag).value, steps[n], after, upTo, lag);
    }
  }

  // ---- At most 10 through the fallback counters ----------------------------

  predicate During(store: Store, id: nat, at: nat)
    requires |store.counters| == |store.born|
  {
    id < |store.born| && store.born[id] <= at < store.born[id] + 300_000
  }

  /** Counters are born a full window apart and looked up only while cached. */
  ghost predicate CountersInvariant(s: State)
    requires WellFormed(s)
  {
    && (forall i | 0 < i < |s.store.born| :: s.store.born[i - 1] + 300_000 <= s.store.born[i])
    && (|s.store.born| > 0 ==> s.store.born[|s.store.born| - 1] <= s.now)
    && (forall r | r in s.phases && s.phases[r].Holding? ::
          During(s.store, s.phases[r].id, s.phases[r].lookedUp) && s.phases[r].lookedUp <= s.now)
  }

  /** Each counter gives at most five grants, each soon after a lookup in its life. */
  ghost predicate GrantsInvariant(s: State, lag: nat)
    requires WellFormed(s)
  {
    && (forall g | g in s.grants && g.via.ByFallback? ::
          During(s.store, g.via.id, g.via.lookedUp) && g.via.lookedUp <= g.at <= g.via.lookedUp + lag)
    && (forall id: nat :: CounterBound(s.grants, s.store, id))
  }

  ghost predicate FallbackInvariant(s: State, lag: nat)
    requires WellFormed(s)
  {
    CountersInvariant(s) && GrantsInvariant(s, lag)
  }

  lemma CounterGrantsAppend(grants: seq<Grant>, g: Grant, id: nat)
    ensures CounterGrants(grants + [g], id)
         == CounterGrants(grants, id) + if g.via.ByFallback? && g.via.id == id then 1 else 0
  {
    assert (grants + [g])[..|grants|] == grants;
  }

  lemma DuringKept(s: State, e: Step, id: nat, at: nat)
    requires WellFormed(s) && Enabled(s, e) && During(s.store, id, at)
    ensures During(Apply(s, e).store, id, at)
  {
    assert Apply(s, e).store.born[id] == s.store.born[id];
  }

  lemma CountersStep(s: State, e: Step)
    requires WellFormed(s) && Enabled(s, e) && CountersInvariant(s)
    ensures CountersInvariant(Apply(s, e))
  {
    var s' := Apply(s, e);
    forall r | r in s'.phases && s'.phases[r].Holding?
      ensures During(s'.store, s'.phases[r].id, s'.phases[r].lookedUp) && s'.phases[r].lookedUp <= s'.now
    {
      if r != e.req { DuringKept(s, e, s.phases[r].id, s.phases[r].lookedUp); }
    }
  }

  lemma GrantsDuringStep(s: State, e: Step, lag: nat, g: Grant)
    requires WellFormed(s) && Enabled(s, e) && Prompt(s, e, lag) && FallbackInvariant(s, lag)
    requires g in Apply(s, e).grants && g.via.ByFallback?
    ensures During(Apply(s, e).store, g.via.id, g.via.lookedUp) && g.via.lookedUp <= g.at <= g.via.lookedUp + lag
  {
    if g in s.grants {
      DuringKept(s, e, g.via.id, g.via.lookedUp);
    } else {
      DuringKept(s, e, s.phases[e.req].id, s.phases[e.req].lookedUp);
    }
  }

  /** Grants of counter `id` are at most five, and at most what it shows. */
  predicate CounterBound(grants: seq<Grant>, store: Store, id: nat)
  {
    && CounterGrants(grants, id) <= 5
    && CounterGrants(grants, id) <= if id < |store.counters| then store.counters[id] else 0
  }

  lemma BumpCount(grants: seq<Grant>, store: Store, g: Grant, own: nat, id: nat)
    requires own < |store.counters| && g.via.ByFallback? && g.via.id == own && store.counters[own] < FALLBACK_LIMIT
    requires CounterBound(grants, store, id)
    ensures CounterBound(grants + [g], BumpStore(store, own), id)
  {
    CounterGrantsAppend(grants, g, id);
  }

  lemma LookUpCount(grants: seq<Grant>, store: Store, at: nat, id: nat)
    requires CounterBound(grants, store, id)
    ensures CounterBound(grants, LookUpStore(store, at), id)
  {
  }

  lemma GrantsCountStep(s: State, e: Step, lag: nat, id: nat)
    requires WellFormed(s) && Enabled(s, e) && GrantsInvariant(s, lag)
    ensures CounterBound(Apply(s, e).grants, Apply(s, e).store, id)
  {
    var s' := Apply(s, e);
    assert CounterBound(s.grants, s.store, id);
    match e
    case ReadClock(_, _) =>
    case Pipeline(_, at, _) =>
      assert s'.store.counters == s.store.counters;
      CounterGrantsAppend(s.grants, Grant(at, ByRedis), id);
    case LookUp(_, at) => LookUpCount(s.grants, s.store, at, id);
    case Bump(r, at) =>
      var Holding(own, lookedUp) := s.phases[r];
      if s.store.counters[own] < FALLBACK_LIMIT {
        BumpCount(s.grants, s.store, Grant(at, ByFallback(own, lookedUp)), own, id);
      }
  }

  lemma GrantsStep(s: State, e: Step, lag: nat)
    requires WellFormed(s) && Enabled(s, e) && Prompt(s, e, lag) && FallbackInvariant(s, lag)
    ensures GrantsInvariant(Apply(s, e), lag)
  {
    var s' := Apply(s, e);
    forall g | g in s'.grants && g.via.ByFallback?
      ensures During(s'.store, g.via.id, g.via.lookedUp) && g.via.lookedUp <= g.at <= g.via.lookedUp + lag
    {
      GrantsDuringStep(s, e, lag, g);
    }
    forall id: nat ensures CounterBound(s'.grants, s'.store, id) { GrantsCountStep(s, e, lag, id); }
  }

  lemma FallbackStep(s: State, e: Step, lag: nat)
    requires WellFormed(s) && Enabled(s, e) && Prompt(s, e, lag) && FallbackInvariant(s, lag)
    ensures FallbackInvariant(Apply(s, e), lag)
  {
    CountersStep(s, e);
    GrantsStep(s, e, lag);
  }

  lemma {:induction false} FallbackReachable(steps: seq<Step>, lag: nat)
    requires Run(steps, lag).Some?
    ensures FallbackInvariant(Run(steps, lag).value, lag)
  {
    if steps != [] {
      var n := |steps| - 1;
      FallbackReachable(steps[..n], lag);
      FallbackStep(Run(steps[..n], lag).value, steps[n], lag);
    }
  }

  /** Two lookups in one window see the same counter or neighbouring ones. */
  lemma NeighbouringCounters(s: State, lag: nat, i: nat, at: nat, j: nat, at': nat, after: int)
    requires WellFormed(s) && FallbackInvariant(s, lag)
    requires During(s.store, i, at) && During(s.store, j, at')
    requires after < at && at' <= after + 300_000
    ensures j <= i + 1
  {
    if i <= j { BornApart(s, lag, i, j); }
  }

  lemma {:induction false} BornApart(s: State, lag: nat, i: nat, j: nat)
    requires WellFormed(s) && FallbackInvariant(s, lag) && i <= j < |s.store.born|
    ensures s.store.born[i] + (j - i) * WINDOW_MS <= s.store.born[j]
  {
    if i < j { BornApart(s, lag, i, j - 1); }
  }

  lemma {:induction false} SplitByCounter(grants: seq<Grant>, after: nat, upTo: nat, p: nat)
    requires forall g | g in grants && g.via.ByFallback? && after < g.at <= upTo :: g.via.id == p || g.via.id == p + 1
    ensures FallbackGrants(grants, after, upTo) <= CounterGrants(grants, p) + CounterGrants(grants, p + 1)
  {
    if grants != [] { SplitByCounter(grants[..|grants| - 1], after, upTo, p); }
  }

  lemma AtMostTenThroughFallback(s: State, lag: nat, after: nat, upTo: nat)
    requires WellFormed(s) && FallbackInvariant(s, lag)
    requires after <= upTo && upTo + lag <= after + 300_000
    ensures FallbackGrants(s.grants, after, upTo) <= 10
  {
    var p := LowestCounter(s.grants, after, upTo);
    forall g | g in s.grants && g.via.ByFallback? && after < g.at <= upTo
      ensures g.via.id == p || g.via.id == p + 1
    {
      var first :| first in s.grants && first.via.ByFallback? && after < first.at <= upTo && first.via.id == p;
      NeighbouringCounters(s, lag, p, first.via.lookedUp, g.via.id, g.via.lookedUp, after - lag);
    }
    SplitByCounter(s.grants, after, upTo, p);
    assert CounterBound(s.grants, s.store, p) && CounterBound(s.grants, s.store, p + 1);
  }

  /** The lowest counter id among the window's fallback grants. */
  lemma {:induction false} LowestCounter(grants: seq<Grant>, after: nat, upTo: nat) returns (p: nat)
    ensures forall g | g in grants && g.via.ByFallback? && after < g.at <= upTo ::
      p <= g.via.id
      && exists h :: h in grants && h.via.ByFallback? && after < h.at <= upTo && h.via.id == p
  {
    p := 0;
    if grants != [] {
      var n := |grants| - 1;
      var last := grants[n];
      p := LowestCounter(grants[..n], after, upTo);
      if last.via.ByFallback? && after < last.at <= upTo {
        if last.via.id < p || !exists h :: h in grants[..n] && h.via.ByFallback? && after < h.at <= upTo {
          p := last.via.id;
        }
      }
    }
  }

  // ---- The bound -----------------------------------------------------------

  /** Over every run, with Redis failing on any call and requests interleaved in
      any way, a session is allowed at most 25 calls in any half-open window of
      300,000 ms less the lag inside one request. */
  lemma AtMostTwentyFive(steps: seq<Step>, lag: nat, after: nat, upTo: nat)
    requires Run(steps, lag).Some?
    requires after <= upTo && upTo + lag <= after + 300_000
    ensures GrantsIn(Run(steps, lag).value.grants, after, upTo) <= 25
  {
    AtMostFifteenThroughRedis(steps, lag, after, upTo);
    FallbackReachable(steps, lag);
    AtMostTenThroughFallback(Run(steps, lag).value, lag, after, upTo);
  }

  // ---- The sorted set refines the whole history ----------------------------

  /** The calls recorded less than 300,000 ms before `at`. */
  function RecentPlaces(recorded: seq<nat>, from: nat, at: nat): set<nat>
  {
    set i: nat | from <= i < |recorded| && 0 < recorded[i] && at < recorded[i] + 300_000
  }

  function Recent(recorded: seq<nat>, at: nat): nat
  {
    |RecentPlaces(recorded, 0, at)|
  }

  lemma {:induction false} RecentAreAbove(recorded: seq<nat>, from: nat, at: nat)
    requires from <= |recorded|
    ensures |RecentPlaces(recorded, from, at)| == CountAbove(recorded[from..], WindowStart(at))
    decreases |recorded| - from
  {
    if from == |recorded| {
      assert RecentPlaces(recorded, from, at) == {};
    } else {
      RecentAreAbove(recorded, from + 1, at);
      assert recorded[from..][1..] == recorded[from + 1..];
      assert RecentPlaces(recorded, from, at)
          == RecentPlaces(recorded, from + 1, at)
             + if 0 < recorded[from] && at < recorded[from] + 300_000 then {from} else {};
    }
  }

  lemma RecentIsCounted(recorded: seq<nat>, at: nat)
    ensures Recent(recorded, at) == CountAbove(recorded, WindowStart(at))
  {
    RecentAreAbove(recorded, 0, at);
    assert recorded[0..] == recorded;
  }

  /** 300,000 ms before `deadline` the last pipeline took place. Every stamp recorded
      is no later; for cutoffs still to come the set counts as the history does, and it
      never counts more. */
  ghost predicate HistoryInvariant(s: State)
  {
    && (forall r | r in s.phases && s.phases[r].ClockRead? :: s.phases[r].stamp <= s.now)
    && (if s.recorded == [] then s.store.scores == []
        else
          && s.store.deadline <= s.now + 300_000
          && (forall i | 0 <= i < |s.recorded| :: s.recorded[i] + 300_000 <= s.store.deadline)
          && (forall cutoff: nat :: CountAbove(s.store.scores, cutoff) <= CountAbove(s.recorded, cutoff))
          && forall cutoff: nat | WindowStart(s.now) <= cutoff ::
               CountAbove(s.store.scores, cutoff) == CountAbove(s.recorded, cutoff))
  }

  lemma {:induction false} CountAboveShrinks(scores: seq<nat>, floor: nat, cutoff: nat)
    ensures CountAbove(Above(scores, floor), cutoff) <= CountAbove(scores, cutoff)
  {
    if scores != [] {
      CountAboveShrinks(scores[1..], floor, cutoff);
      var rest := Above(scores[1..], floor);
      if scores[0] > floor {
        assert ([scores[0]] + rest)[1..] == rest;
      } else {
        assert [] + rest == rest;
      }
    }
  }

  lemma {:induction false} CountAboveAntitone(scores: seq<nat>, low: nat, high: nat)
    requires low <= high
    ensures CountAbove(scores, high) <= CountAbove(scores, low)
  {
    if scores != [] { CountAboveAntitone(scores[1..], low, high); }
  }

  lemma LiveCount(s: State, at: nat, cutoff: nat)
    requires HistoryInvariant(s) && s.now <= at
    ensures CountAbove(Live(s.store, at), cutoff) <= CountAbove(s.recorded, cutoff)
    ensures WindowStart(at) <= cutoff ==> CountAbove(Live(s.store, at), cutoff) == CountAbove(s.recorded, cutoff)
  {
    if s.recorded != [] && at >= s.store.deadline && WindowStart(at) <= cutoff {
      CountAboveNone(s.recorded, cutoff);
    }
  }

  lemma PipelineCount(s: State, at: nat, stamp: nat, cutoff: nat)
    requires HistoryInvariant(s) && s.now <= at && stamp <= at
    ensures var scores := PipelineScores(s.store, at, stamp);
      && CountAbove(scores, cutoff) <= CountAbove(s.recorded + [stamp], cutoff)
      && (WindowStart(at) <= cutoff ==> CountAbove(scores, cutoff) == CountAbove(s.recorded + [stamp], cutoff))
  {
    var live := Live(s.store, at);
    LiveCount(s, at, cutoff);
    CountAboveShrinks(live, WindowStart(stamp), cutoff);
    if WindowStart(at) <= cutoff { CountAboveKept(live, WindowStart(stamp), cutoff); }
    CountAboveAppend(Above(live, WindowStart(stamp)), stamp, cutoff);
    CountAboveAppend(s.recorded, stamp, cutoff);
  }

  lemma HistoryStep(s: State, e: Step)
    requires WellFormed(s) && Enabled(s, e) && HistoryInvariant(s)
    ensures HistoryInvariant(Apply(s, e))
  {
    if e.Pipeline? && Committed(e.reply) {
      PipelineKeepsHistory(s, e);
    } else {
      assert WindowStart(s.now) <= WindowStart(e.at);
    }
  }

  lemma PipelineKeepsHistory(s: State, e: Step)
    requires WellFormed(s) && Enabled(s, e) && HistoryInvariant(s) && e.Pipeline? && Committed(e.reply)
    ensures HistoryInvariant(Apply(s, e))
  {
    var s' := Apply(s, e);
    var stamp := s.phases[e.req].stamp;
    assert s'.recorded == s.recorded + [stamp] && s'.store.scores == PipelineScores(s.store, e.at, stamp);
    forall cutoff: nat ensures CountAbove(s'.store.scores, cutoff) <= CountAbove(s'.recorded, cutoff) {
      PipelineCount(s, e.at, stamp, cutoff);
    }
    forall cutoff: nat | WindowStart(e.at) <= cutoff
      ensures CountAbove(s'.store.scores, cutoff) == CountAbove(s'.recorded, cutoff)
    {
      PipelineCount(s, e.at, stamp, cutoff);
    }
  }

  lemma {:induction false} HistoryReachable(steps: seq<Step>, lag: nat)
    requires Run(steps, lag).Some?
    ensures HistoryInvariant(Run(steps, lag).value)
  {
    if steps != [] {
      var n := |steps| - 1;
      HistoryReachable(steps[..n], lag);
      HistoryStep(Run(steps[..n], lag).value, steps[n]);
    }
  }

  /** Whatever the lags, Redis answers a pipeline with a number between the calls the
      session ever recorded, allowed or refused, in the 300,000 ms before the pipeline
      and those in the 300,000 ms before its clock reading: neither trimming nor the
      expiry loses a call of the former, and none is counted that is not in the latter.
      A call whose pipeline takes place at its clock reading gets the exact number,
      whatever the lags of the others. */
  lemma CountRefinesHistory(steps: seq<Step>, lag: nat, req: nat, at: nat)
    requires Run(steps, lag).Some?
    requires Enabled(Run(steps, lag).value, Pipeline(req, at, Answered))
    ensures var s := Run(steps, lag).value;
      var stamp := s.phases[req].stamp;
      var count := |PipelineScores(s.store, at, stamp)|;
      && Recent(s.recorded, at) + 1 <= count <= Recent(s.recorded, stamp) + 1
      && (at == stamp ==> count == Recent(s.recorded, at) + 1)
      && Apply(s, Pipeline(req, at, Answered)).phases[req] == Settled(Verdict(count, 15))
  {
    HistoryReachable(steps, lag);
    var s := Run(steps, lag).value;
    var stamp := s.phases[req].stamp;
    var live := Live(s.store, at);
    LiveCount(s, at, WindowStart(at));
    LiveCount(s, at, WindowStart(stamp));
    CountAboveAntitone(live, WindowStart(stamp), WindowStart(at));
    CountAboveKept(live, WindowStart(stamp), WindowStart(stamp));
    RecentIsCounted(s.recorded, at);
    RecentIsCounted(s.recorded, stamp);
  }

  /** The upper number is not always reached: with a lag of one millisecond the key can
      expire between a clock reading and its pipeline, and a call made less than
      300,000 ms before the reading is not counted. */
  lemma ExpiryCanForget() returns (steps: seq<Step>)
    ensures Run(steps, 1).Some?
    ensures var s := Run(steps, 1).value;
      && Enabled(s, Pipeline(1, 300_001, Answered)) && Prompt(s, Pipeline(1, 300_001, Answered), 1)
      && s.phases[1].stamp == 300_000 && s.recorded == [1]
      && |PipelineScores(s.store, 300_001, 300_000)| == 1
      && Recent(s.recorded, 300_000) + 1 == 2
  {
    steps := [];
    Extend(steps, 1, ReadClock(0, 1));
    steps := steps + [ReadClock(0, 1)];
    Extend(steps, 1, Pipeline(0, 1, Answered));
    steps := steps + [Pipeline(0, 1, Answered)];
    var s := Run(steps, 1).value;
    Extend(steps, 1, ReadClock(1, WINDOW_MS));
    steps := steps + [ReadClock(1, WINDOW_MS)];
    assert s.recorded == [1];
    assert CountAbove([1], 0) == 1 + CountAbove([], 0) by { assert [1][1..] == []; }
    RecentIsCounted([1], 300_000);
  }

  // ---- The bound is reached ------------------------------------------------

  lemma Extend(steps: seq<Step>, lag: nat, e: Step)
    requires Run(steps, lag).Some?
    requires var s := Run(steps, lag).value; Enabled(s, e) && Prompt(s, e, lag)
    ensures Run(steps + [e], lag) == Some(Apply(Run(steps, lag).value, e))
  {
    assert (steps + [e])[..|steps|] == steps;
  }

  lemma GrantsAppend(grants: seq<Grant>, g: Grant, after: nat, upTo: nat)
    requires after < g.at <= upTo
    ensures GrantsIn(grants + [g], after, upTo) == GrantsIn(grants, after, upTo) + 1
  {
    assert (grants + [g])[..|grants|] == grants;
  }

  /** The state after a call at time `at` that Redis did not get. */
  ghost function FellBack(s: State, r: nat, at: nat): (s': State)
    requires WellFormed(s) && r !in s.phases && s.now <= at && 0 < at
  {
    Apply(Apply(Apply(Apply(s, ReadClock(r, at)), Pipeline(r, at, NotDelivered)), LookUp(r, at)), Bump(r, at))
  }

  lemma FellBackStore(s: State, r: nat, at: nat)
    requires WellFormed(s) && r !in s.phases && s.now <= at && 0 < at
    ensures var s' := FellBack(s, r, at);
      var id := |LookUpStore(s.store, at).counters| - 1;
      && s'.now == at && s'.phases.Keys == s.phases.Keys + {r}
      && s'.store == BumpStore(LookUpStore(s.store, at), id)
      && s'.grants == if s'.store.counters[id] <= FALLBACK_LIMIT then s.grants + [Grant(at, ByFallback(id, at))] else s.grants
  {
  }

  lemma ExtendFallBack(steps: seq<Step>, r: nat, at: nat) returns (steps': seq<Step>)
    requires Run(steps, 0).Some?
    requires var s := Run(steps, 0).value; r !in s.phases && s.now <= at && 0 < at
    ensures Run(steps', 0) == Some(FellBack(Run(steps, 0).value, r, at))
  {
    Extend(steps, 0, ReadClock(r, at));
    steps' := steps + [ReadClock(r, at)];
    Extend(steps', 0, Pipeline(r, at, NotDelivered));
    steps' := steps' + [Pipeline(r, at, NotDelivered)];
    Extend(steps', 0, LookUp(r, at));
    steps' := steps' + [LookUp(r, at)];
    Extend(steps', 0, Bump(r, at));
    steps' := steps' + [Bump(r, at)];
  }

  lemma BumpedStore(store: Store, at: nat)
    requires |store.counters| == |store.born|
    ensures var looked := LookUpStore(store, at);
      var bumped := BumpStore(looked, |looked.counters| - 1);
      && Cached(bumped, at) && bumped.born == looked.born && bumped.scores == store.scores
      && bumped.counters[|bumped.counters| - 1] == Shown(store, at) + 1
  {
  }

  /** What the cached counter shows; a new one shows nothing. */
  function Shown(store: Store, at: nat): nat
    requires |store.counters| == |store.born|
  {
    if Cached(store, at) then store.counters[|store.counters| - 1] else 0
  }

  /** One whole call at time `at`, allowed by a cached counter below its limit. */
  lemma AllowedByFallback(steps: seq<Step>, r: nat, at: nat, upTo: nat) returns (steps': seq<Step>)
    requires Run(steps, 0).Some?
    requires var s := Run(steps, 0).value;
      && r !in s.phases && s.now <= at && 1 < at <= upTo
      && Shown(s.store, at) < FALLBACK_LIMIT
    ensures Run(steps', 0).Some?
    ensures var s, s' := Run(steps, 0).value, Run(steps', 0).value;
      && s'.now == at && s'.phases.Keys == s.phases.Keys + {r}
      && GrantsIn(s'.grants, 1, upTo) == GrantsIn(s.grants, 1, upTo) + 1
      && s'.store.scores == s.store.scores && s'.store.born == LookUpStore(s.store, at).born
      && Cached(s'.store, at) && Shown(s'.store, at) == Shown(s.store, at) + 1
  {
    var s := Run(steps, 0).value;
    steps' := ExtendFallBack(steps, r, at);
    FellBackStore(s, r, at);
    BumpedStore(s.store, at);
    GrantsAppend(s.grants, Grant(at, ByFallback(|LookUpStore(s.store, at).counters| - 1, at)), 1, upTo);
  }

  /** The state after a call at time `at` that Redis answered. */
  ghost function Asked(s: State, r: nat, at: nat): (s': State)
    requires WellFormed(s) && r !in s.phases && s.now <= at && 0 < at
  {
    Apply(Apply(s, ReadClock(r, at)), Pipeline(r, at, Answered))
  }

  lemma ExtendAsk(steps: seq<Step>, lag: nat, r: nat, at: nat) returns (steps': seq<Step>)
    requires Run(steps, lag).Some?
    requires var s := Run(steps, lag).value; r !in s.phases && s.now <= at && 0 < at
    ensures Run(steps', lag) == Some(Asked(Run(steps, lag).value, r, at))
  {
    Extend(steps, lag, ReadClock(r, at));
    steps' := steps + [ReadClock(r, at)];
    Extend(steps', lag, Pipeline(r, at, Answered));
    steps' := steps' + [Pipeline(r, at, Answered)];
  }

  lemma AskedStore(s: State, r: nat, at: nat)
    requires WellFormed(s) && r !in s.phases && s.now <= at && 0 < at
    ensures var s' := Asked(s, r, at);
      && s'.now == at && s'.phases.Keys == s.phases.Keys + {r}
      && s'.store.scores == PipelineScores(s.store, at, at)
      && s'.grants == if |s'.store.scores| <= REDIS_LIMIT then s.grants + [Grant(at, ByRedis)] else s.grants
  {
  }

  lemma PipelineAddsOne(store: Store, at: nat)
    ensures |PipelineScores(store, at, at)| <= CountAbove(store.scores, WindowStart(at)) + 1
    ensures CountAbove(PipelineScores(store, at, at), WindowStart(at)) <= CountAbove(store.scores, WindowStart(at)) + 1
  {
    var live := Live(store, at);
    CountAboveKept(live, WindowStart(at), WindowStart(at));
    CountAboveAppend(Above(live, WindowStart(at)), at, WindowStart(at));
  }

  /** One whole call at time `at`, allowed by Redis. */
  lemma AllowedByRedis(steps: seq<Step>, lag: nat, r: nat, at: nat, after: nat) returns (steps': seq<Step>)
    requires Run(steps, lag).Some?
    requires var s := Run(steps, lag).value;
      r !in s.phases && s.now <= at && after < at && CountAbove(s.store.scores, WindowStart(at)) < REDIS_LIMIT
    ensures Run(steps', lag).Some?
    ensures var s, s' := Run(steps, lag).value, Run(steps', lag).value;
      && s'.now == at && s'.phases.Keys == s.phases.Keys + {r}
      && GrantsIn(s'.grants, after, at) == GrantsIn(s.grants, after, at) + 1
      && CountAbove(s'.store.scores, WindowStart(at)) <= CountAbove(s.store.scores, WindowStart(at)) + 1
  {
    var s := Run(steps, lag).value;
    steps' := ExtendAsk(steps, lag, r, at);
    AskedStore(s, r, at);
    PipelineAddsOne(s.store, at);
    GrantsAppend(s.grants, Grant(at, ByRedis), after, at);
  }

  /** `n` calls at time `at`, by requests `first` and on, allowed by one counter. */
  lemma {:induction false} CallsByFallback(steps: seq<Step>, first: nat, at: nat, upTo: nat, n: nat) returns (steps': seq<Step>)
    requires Run(steps, 0).Some?
    requires var s := Run(steps, 0).value;
      && (forall r | r in s.phases :: r < first) && s.now <= at && 1 < at <= upTo
      && 1 <= n && Shown(s.store, at) + n <= FALLBACK_LIMIT
    ensures Run(steps', 0).Some?
    ensures var s, s' := Run(steps, 0).value, Run(steps', 0).value;
      && s'.now == at && (forall r | r in s'.phases :: r < first + n)
      && GrantsIn(s'.grants, 1, upTo) == GrantsIn(s.grants, 1, upTo) + n
      && s'.store.scores == s.store.scores && s'.store.born == LookUpStore(s.store, at).born
      && Cached(s'.store, at) && Shown(s'.store, at) == Shown(s.store, at) + n
  {
    steps' := steps;
    if n > 1 { steps' := CallsByFallback(steps, first, at, upTo, n - 1); }
    steps' := AllowedByFallback(steps', first + n - 1, at, upTo);
  }

  /** `n` calls at time `at`, by requests `first` and on, allowed by Redis. */
  lemma {:induction false} CallsByRedis(steps: seq<Step>, lag: nat, first: nat, at: nat, after: nat, n: nat)
    returns (steps': seq<Step>)
    requires Run(steps, lag).Some?
    requires var s := Run(steps, lag).value;
      && (forall r | r in s.phases :: r < first) && s.now <= at && after < at
      && 1 <= n && CountAbove(s.store.scores, WindowStart(at)) + n <= REDIS_LIMIT
    ensures Run(steps', lag).Some?
    ensures var s, s' := Run(steps, lag).value, Run(steps', lag).value;
      && s'.now == at && (forall r | r in s'.phases :: r < first + n)
      && GrantsIn(s'.grants, after, at) == GrantsIn(s.grants, after, at) + n
      && CountAbove(s'.store.scores, WindowStart(at)) <= CountAbove(s.store.scores, WindowStart(at)) + n
  {
    steps' := steps;
    if n > 1 { steps' := CallsByRedis(steps, lag, first, at, after, n - 1); }
    steps' := AllowedByRedis(steps', lag, first + n - 1, at, after);
  }

  /** A request that is dropped after its lookup starts a counter at time 1. */
  lemma Dropped() returns (steps: seq<Step>)
    ensures Run(steps, 0).Some?
    ensures var s := Run(steps, 0).value;
      && s.now == 1 && s.phases.Keys == {0} && s.grants == [] && s.store == Store([], 0, [0], [1])
  {
    steps := [];
    Extend(steps, 0, ReadClock(0, 1));
    steps := steps + [ReadClock(0, 1)];
    Extend(steps, 0, Pipeline(0, 1, NotDelivered));
    steps := steps + [Pipeline(0, 1, NotDelivered)];
    Extend(steps, 0, LookUp(0, 1));
    steps := steps + [LookUp(0, 1)];
  }

  /** Twenty-five calls really are allowed in one window of 300,000 ms: a request
      that is dropped after its lookup starts one counter just before the window. */
  lemma TwentyFiveIsReached() returns (steps: seq<Step>)
    ensures Run(steps, 0).Some?
    ensures GrantsIn(Run(steps, 0).value.grants, 1, 300_001) == 25
  {
    steps := Dropped();
    steps := CallsByFallback(steps, 1, 2, 1 + WINDOW_MS, 5);
    steps := CallsByFallback(steps, 6, 1 + WINDOW_MS, 1 + WINDOW_MS, 5);
    steps := CallsByRedis(steps, 0, 11, 1 + WINDOW_MS, 1, 15);
  }

  // ---- The lag matters -----------------------------------------------------

  /** `n` requests have read the clock at time 1, and `i` of them were allowed at time
      `1 + lag`. */
  ghost predicate LateGrants(steps: seq<Step>, lag: nat, n: nat, i: nat)
  {
    && Run(steps, lag).Some?
    && var s := Run(steps, lag).value;
       && s.now <= (if i == 0 then 1 else 1 + lag)
       && (forall r | r in s.phases :: r < n)
       && (forall r | i <= r < n :: r in s.phases && s.phases[r] == ClockRead(1))
       && |s.store.scores| == i && (forall j | 0 <= j < i :: s.store.scores[j] == 1)
       && (i > 0 ==> s.store.deadline == 1 + lag + WINDOW_MS)
       && GrantsIn(s.grants, lag, 1 + WINDOW_MS) == i
  }

  lemma {:induction false} ReadTogether(lag: nat, n: nat) returns (steps: seq<Step>)
    ensures LateGrants(steps, lag, n, 0)
  {
    steps := [];
    if n > 0 {
      steps := ReadTogether(lag, n - 1);
      Extend(steps, lag, ReadClock(n - 1, 1));
      steps := steps + [ReadClock(n - 1, 1)];
    }
  }

  lemma {:induction false} GrantLate(lag: nat, n: nat, i: nat) returns (steps: seq<Step>)
    requires i <= n <= REDIS_LIMIT && lag <= WINDOW_MS
    ensures LateGrants(steps, lag, n, i)
  {
    if i == 0 {
      steps := ReadTogether(lag, n);
    } else {
      steps := GrantLate(lag, n, i - 1);
      var s := Run(steps, lag).value;
      FullPipeline(s.store, lag);
      Extend(steps, lag, Pipeline(i - 1, 1 + lag, Answered));
      steps := steps + [Pipeline(i - 1, 1 + lag, Answered)];
      GrantsAppend(s.grants, Grant(1 + lag, ByRedis), lag, 1 + WINDOW_MS);
    }
  }

  lemma {:induction false} AllAbove(scores: seq<nat>, cutoff: nat)
    requires forall j | 0 <= j < |scores| :: scores[j] > cutoff
    ensures Above(scores, cutoff) == scores
  {
    if scores != [] {
      AllAbove(scores[1..], cutoff);
      assert scores == [scores[0]] + scores[1..];
    }
  }

  lemma FullPipeline(store: Store, lag: nat)
    requires forall j | 0 <= j < |store.scores| :: store.scores[j] == 1
    requires store.scores != [] ==> 1 + lag < store.deadline
    ensures PipelineScores(store, 1 + lag, 1) == store.scores + [1]
  {
    AllAbove(store.scores, 0);
  }

  /** For every lag up to the window itself, thirty calls are allowed, all by Redis, in a
      window one millisecond longer than the bound of 25 allows. */
  lemma LagShortensTheWindow(lag: nat) returns (steps: seq<Step>)
    requires lag <= 300_000
    ensures Run(steps, lag).Some?
    ensures GrantsIn(Run(steps, lag).value.grants, lag, 300_001) == 30
  {
    steps := GrantLate(lag, 15, 15);
    CountAboveNone(Run(steps, lag).value.store.scores, 1);
    steps := CallsByRedis(steps, lag, 15, 1 + WINDOW_MS, lag, 15);
  }

  lemma {:induction false} LongerLagAllowsMore(steps: seq<Step>, lag: nat, lag': nat)
    requires lag <= lag' && Run(steps, lag).Some?
    ensures Run(steps, lag') == Run(steps, lag)
  {
    if steps != [] { LongerLagAllowsMore(steps[..|steps| - 1], lag, lag'); }
  }

  lemma {:induction false} LongerWindowHoldsMore(grants: seq<Grant>, after: nat, upTo: nat, upTo': nat)
    requires upTo <= upTo'
    ensures RedisGrants(grants, after, upTo) <= RedisGrants(grants, after, upTo')
    ensures FallbackGrants(grants, after, upTo) <= FallbackGrants(grants, after, upTo')
  {
    if grants != [] { LongerWindowHoldsMore(grants[..|grants| - 1], after, upTo, upTo'); }
  }

  /** The number Redis answers a prompt pipeline with is that of the calls recorded in the
      300,000 ms before the call's clock reading, and the call itself. */
  ghost predicate CountsExactly(steps: seq<Step>, lag: nat, req: nat, at: nat)
  {
    Run(steps, lag).Some? ==>
      var s, e := Run(steps, lag).value, Pipeline(req, at, Answered);
      Enabled(s, e) && Prompt(s, e, lag) ==>
        |PipelineScores(s.store, at, s.phases[req].stamp)|
          == Recent(s.recorded, s.phases[req].stamp) + 1
  }

  lemma NoLagCountsExactly(steps: seq<Step>, req: nat, at: nat)
    ensures CountsExactly(steps, 0, req, at)
  {
    if Run(steps, 0).Some? && Enabled(Run(steps, 0).value, Pipeline(req, at, Answered)) {
      HistoryReachable(steps, 0);
      CountRefinesHistory(steps, 0, req, at);
    }
  }

  /** Exactly when no call of the 300,000 ms before a clock reading is ever forgotten:
      without any lag. */
  lemma CountIsExactIffNoLag(lag: nat)
    ensures (forall steps: seq<Step>, req: nat, at: nat :: CountsExactly(steps, lag, req, at)) <==> lag == 0
  {
    if lag == 0 {
      forall steps: seq<Step>, req: nat, at: nat ensures CountsExactly(steps, lag, req, at) {
        NoLagCountsExactly(steps, req, at);
      }
    } else {
      var steps := ExpiryCanForget();
      LongerLagAllowsMore(steps, 1, lag);
      assert !CountsExactly(steps, lag, 1, WINDOW_MS + 1);
    }
  }

  /** The run allows at most 25 calls in the window of length `w` that starts after `after`. */
  ghost predicate KeepsBound(steps: seq<Step>, lag: nat, after: nat, w: nat)
  {
    Run(steps, lag).Some? ==> GrantsIn(Run(steps, lag).value.grants, after, after + w) <= 25
  }

  /** Exactly when 25 calls bound every window of length `w` in every run: when window
      and lag together are no longer than 300,000 ms. */
  lemma BoundedIffWindowAndLagFit(w: nat, lag: nat)
    requires w > 0
    ensures (forall steps: seq<Step>, after: nat :: KeepsBound(steps, lag, after, w)) <==> w + lag <= 300_000
  {
    if w + lag <= WINDOW_MS {
      forall steps: seq<Step>, after: nat ensures KeepsBound(steps, lag, after, w) {
        if Run(steps, lag).Some? { AtMostTwentyFive(steps, lag, after, after + w); }
      }
    } else {
      var enough := if w <= WINDOW_MS then WINDOW_MS + 1 - w else 0;
      var steps := LagShortensTheWindow(enough);
      LongerLagAllowsMore(steps, enough, lag);
      LongerWindowHoldsMore(Run(steps, lag).value.grants, enough, 1 + WINDOW_MS, enough + w);
      assert !KeepsBound(steps, lag, enough, w);
    }
  }

  // ---- One call, as the gateway makes it -----------------------------------

  /** The whole function for a request whose steps all happen at time `at`. */
  function Call(store: Store, at: nat, reply: Reply): (Store, Result<nat, Error>)
    requires |store.counters| == |store.born|
  {
    var store1 := if Committed(reply) then PipelineStore(store, at, at) else store;
    if reply.Answered? then
      (store1, Verdict(|store1.scores|, REDIS_LIMIT))
    else
      var store2 := LookUpStore(store1, at);
      var id := |store2.counters| - 1;
      (BumpStore(store2, id), Verdict(store2.counters[id] + 1, FALLBACK_LIMIT))
  }

  /** `Call` is what the request's own steps do when no other step comes between. */
  lemma CallIsItsSteps(s: State, r: nat, at: nat, reply: Reply)
    requires WellFormed(s) && s.now <= at && 0 < at && r !in s.phases
    ensures var s1 := Apply(s, ReadClock(r, at));
      var s2 := Apply(s1, Pipeline(r, at, reply));
      var s3 := if reply.Answered? then s2 else Apply(Apply(s2, LookUp(r, at)), Bump(r, at));
      s3.store == Call(s.store, at, reply).0 && s3.phases[r] == Settled(Call(s.store, at, reply).1)
  {
  }

  /** One session's keys: the Redis sorted set, and the fallback counters. */
  class SessionBudget {
    var scores: seq<nat>
    var deadline: nat
    var counters: seq<nat>
    var born: seq<nat>

    function View(): Store
      reads this
    {
      Store(scores, deadline, counters, born)
    }

    constructor ()
      ensures View() == EMPTY
    {
      scores, deadline, counters, born := [], 0, [], [];
    }

    /** ZREMRANGEBYSCORE, ZADD, ZCOUNT and EXPIRE in one atomic pipeline. */
    method SlidingWindow(at: nat, stamp: nat) returns (count: nat)
      modifies this`scores, this`deadline
      ensures View() == PipelineStore(old(View()), at, stamp)
      ensures count == |scores| == Recent(if at < old(deadline) then old(scores) else [], stamp) + 1
      ensures deadline == at + 300_000
    {
      if at >= deadline { scores := []; }
      RecentIsCounted(scores, stamp);
      CountAboveKept(scores, WindowStart(stamp), WindowStart(stamp));
      scores := Above(scores, WindowStart(stamp));
      scores := scores + [stamp];
      count := |scores|;
      deadline := at + WINDOW_MS;
    }

    /** The fallback cache's `get_with`: the cached counter, or a new one. */
    method GetWith(at: nat) returns (id: nat)
      requires |counters| == |born|
      modifies this`counters, this`born
      ensures View() == LookUpStore(old(View()), at)
      ensures |counters| == |born| == id + 1
    {
      if |born| == 0 || at >= born[|born| - 1] + WINDOW_MS {
        counters, born := counters + [0], born + [at];
      }
      id := |counters| - 1;
    }

    method EnforceAgenticLoopBudget(at: nat, reply: Reply) returns (r: Result<nat, Error>)
      requires |counters| == |born|
      modifies this
      ensures |counters| == |born|
      ensures (View(), r) == Call(old(View()), at, reply)
      ensures reply == Answered ==> r == if |scores| > 15 then Err(AgentLoopBudgetExceeded) else Ok(|scores|)
      ensures reply != Answered ==>
        && born != [] && at < born[|born| - 1] + 300_000
        && var n := counters[|counters| - 1]; r == if n > 5 then Err(AgentLoopBudgetExceeded) else Ok(n)
    {
      var count := 0;
      if reply != NotDelivered {
        count := SlidingWindow(at, at);
      }
      if reply == Answered {
        return if count > REDIS_LIMIT then Err(AgentLoopBudgetExceeded) else Ok(count);
      }
      var id := GetWith(at);
      counters := counters[id := counters[id] + 1];
      count := counters[id];
      return if count > FALLBACK_LIMIT then Err(AgentLoopBudgetExceeded) else Ok(count);
    }
  }
}
