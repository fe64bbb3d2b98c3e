/** The circuit breaker shared by all requests: an alias is put in when an attempt on
    its key fails, and leaves 60 s after it was last put in. */
module Breaker {
  import opened Wrappers

  const TTL_MS: nat := 60_000

  type Breaker = map<string, nat>

  predicate IsOpen(b: Breaker, alias: string, at: nat)
  {
    alias in b && at < b[alias] + TTL_MS
  }

  predicate IsRetryable(status: nat)
  {
    status == 429 || status == 500 || status == 502 || status == 503 || status == 504
  }

  datatype Outcome = Status(code: nat) | Unreachable

  predicate Failed(o: Outcome)
  {
    o.Unreachable? || IsRetryable(o.code)
  }

  // ---- Requests and runs ---------------------------------------------------

  /** A request first asks the breaker about each of its keys in turn, then attempts
      the keys that passed, in order. Requests interleave at every await point. */
  datatype Phase =
    | Filtering(todo: seq<string>, healthy: seq<string>)
    | Attempting(queue: seq<string>)
    | Waiting(alias: string, queue: seq<string>)
    | Failing(alias: string, queue: seq<string>)
    | Finished(status: nat)

  /** What happened, in order: a key passed a request's filter, an attempt on it was
      sent, the attempt ended, and its failure was recorded. */
  datatype Event =
    | Passed(req: nat, alias: string, at: nat)
    | Started(req: nat, alias: string, at: nat)
    | Ended(req: nat, alias: string, at: nat, outcome: Outcome)
    | Tripped(req: nat, alias: string, at: nat)

  datatype State = State(breaker: Breaker, now: nat, phases: map<nat, Phase>, log: seq<Event>)

  datatype Step =
    | Begin(req: nat, at: nat, aliases: seq<string>)
    | Probe(req: nat, at: nat)
    | SetOff(req: nat, at: nat)
    | Send(req: nat, at: nat)
    | Answer(req: nat, at: nat, outcome: Outcome)
    | Trip(req: nat, at: nat)

  const START := State(map[], 0, map[], [])

  predicate Enabled(s: State, e: Step)
  {
    && s.now <= e.at
    && (e.Begin? <==> e.req !in s.phases)
    && (!e.Begin? ==>
          var p := s.phases[e.req];
          match e
          case Probe(_, _) => p.Filtering? && p.todo != []
          case SetOff(_, _) => p.Filtering? && p.todo == []
          case Send(_, _) => p.Attempting? && p.queue != []
          case Answer(_, _, _) => p.Waiting?
          case Trip(_, _) => p.Failing?)
  }

  function Apply(s: State, e: Step): State
    requires Enabled(s, e)
  {
    match e
    case Begin(r, at, aliases) => s.(now := at, phases := s.phases[r := Filtering(aliases, [])])
    case Probe(r, at) =>
      var Filtering(todo, healthy) := s.phases[r];
      if IsOpen(s.breaker, todo[0], at) then
        s.(now := at, phases := s.phases[r := Filtering(todo[1..], healthy)])
      else
        s.(now := at, phases := s.phases[r := Filtering(todo[1..], healthy + [todo[0]])],
           log := s.log + [Passed(r, todo[0], at)])
    case SetOff(r, at) => s.(now := at, phases := s.phases[r := Attempting(s.phases[r].healthy)])
    case Send(r, at) =>
      var queue := s.phases[r].queue;
      s.(now := at, phases := s.phases[r := Waiting(queue[0], queue[1..])],
         log := s.log + [Started(r, queue[0], at)])
    case Answer(r, at, outcome) =>
      var Waiting(alias, queue) := s.phases[r];
      s.(now := at, phases := s.phases[r := if Failed(outcome) then Failing(alias, queue) else Finished(outcome.code)],
         log := s.log + [Ended(r, alias, at, outcome)])
    case Trip(r, at) =>
      var Failing(alias, queue) := s.phases[r];
      s.(now := at, breaker := s.breaker[alias := at], phases := s.phases[r := Attempting(queue)],
         log := s.log + [Tripped(r, alias, at)])
  }

  function RunFrom(start: State, steps: seq<Step>): Option<State>
  {
    if steps == [] then Some(start)
    else
      var n := |steps| - 1;
      match RunFrom(start, steps[..n])
      case None => None
      case Some(s) => if Enabled(s, steps[n]) then Some(Apply(s, steps[n])) else None
  }

  function Run(steps: seq<Step>): Option<State>
  {
    RunFrom(START, steps)
  }

  lemma {:induction false} RunOn(start: State, first: seq<Step>, later: seq<Step>)
    requires RunFrom(start, first).Some?
    ensures RunFrom(start, first + later) == RunFrom(RunFrom(start, first).value, later)
  {
    var all := first + later;
    if later == [] {
      assert all == first;
    } else {
      RunOn(start, first, later[..|later| - 1]);
      assert all[..|all| - 1] == first + later[..|later| - 1];
    }
  }

  // ---- What every step keeps -----------------------------------------------

  /** The keys a request has let through its filter and may still attempt. */
  function Admitted(p: Phase): seq<string>
  {
    match p
    case Filtering(_, healthy) => healthy
    case Attempting(queue) => queue
    case Waiting(alias, queue) => [alias] + queue
    case Failing(alias, queue) => [alias] + queue
    case Finished(_) => []
  }

  ghost predicate HasPassed(log: seq<Event>, upTo: nat, r: nat, alias: string)
  {
    exists h :: 0 <= h < upTo <= |log| && log[h].Passed? && log[h].req == r && log[h].alias == alias
  }

  ghost predicate HasStarted(log: seq<Event>, upTo: nat, r: nat, alias: string)
  {
    exists h :: 0 <= h < upTo <= |log| && log[h].Started? && log[h].req == r && log[h].alias == alias
  }

  /** An attempt of the request on the key ended retryable or unreachable. */
  ghost predicate HasFailed(log: seq<Event>, upTo: nat, r: nat, alias: string)
  {
    exists h :: 0 <= h < upTo <= |log| && log[h].Ended? && log[h].req == r && log[h].alias == alias
                && (log[h].outcome.Unreachable? || log[h].outcome.code in {429, 500, 502, 503, 504})
  }

  /** What the phase of request `r` says has happened. */
  ghost predicate Backed(p: Phase, log: seq<Event>, r: nat)
  {
    && (forall alias | alias in Admitted(p) :: HasPassed(log, |log|, r, alias))
    && (p.Waiting? ==> HasStarted(log, |log|, r, p.alias))
    && (p.Failing? ==> HasFailed(log, |log|, r, p.alias))
  }

  ghost predicate RequestsInvariant(s: State)
  {
    forall r | r in s.phases :: Backed(s.phases[r], s.log, r)
  }

  /** A key that passed a filter had not been tripped in the 60 s before; an attempt
      follows its filter, an answer its attempt, and a trip a failed answer. */
  ghost predicate Caused(log: seq<Event>, j: nat)
    requires j < |log|
  {
    match log[j]
    case Passed(_, alias, at) =>
      forall i | 0 <= i < j && log[i].Tripped? && log[i].alias == alias :: log[i].at + 60_000 <= at
    case Started(r, alias, _) => HasPassed(log, j, r, alias)
    case Ended(r, alias, _, _) => HasStarted(log, j, r, alias)
    case Tripped(r, alias, _) => HasFailed(log, j, r, alias)
  }

  ghost predicate InTimeOrder(log: seq<Event>)
  {
    forall i, j | 0 <= i < j < |log| :: log[i].at <= log[j].at
  }

  ghost predicate LogInvariant(log: seq<Event>)
  {
    InTimeOrder(log) && forall j | 0 <= j < |log| :: Caused(log, j)
  }

  /** The breaker holds each alias with the time of its last trip. */
  ghost predicate BreakerInvariant(s: State)
  {
    && (forall i | 0 <= i < |s.log| :: s.log[i].at <= s.now)
    && (forall i | 0 <= i < |s.log| && s.log[i].Tripped? ::
          s.log[i].alias in s.breaker && s.log[i].at <= s.breaker[s.log[i].alias])
    && (forall alias | alias in s.breaker ::
          exists i :: 0 <= i < |s.log| && s.log[i].Tripped? && s.log[i].alias == alias && s.log[i].at == s.breaker[alias])
  }

  ghost predicate Invariant(s: State)
  {
    RequestsInvariant(s) && LogInvariant(s.log) && BreakerInvariant(s)
  }

  lemma PassedKept(log: seq<Event>, log': seq<Event>, upTo: nat, r: nat, alias: string)
    requires log <= log' && HasPassed(log, upTo, r, alias)
    ensures HasPassed(log', upTo, r, alias) && HasPassed(log', |log'|, r, alias)
  {
    var h :| 0 <= h < upTo && log[h].Passed? && log[h].req == r && log[h].alias == alias;
    assert log'[h] == log[h];
  }

  lemma StartedKept(log: seq<Event>, log': seq<Event>, upTo: nat, r: nat, alias: string)
    requires log <= log' && HasStarted(log, upTo, r, alias)
    ensures HasStarted(log', upTo, r, alias) && HasStarted(log', |log'|, r, alias)
  {
    var h :| 0 <= h < upTo && log[h].Started? && log[h].req == r && log[h].alias == alias;
    assert log'[h] == log[h];
  }

  lemma FailedKept(log: seq<Event>, log': seq<Event>, upTo: nat, r: nat, alias: string)
    requires log <= log' && HasFailed(log, upTo, r, alias)
    ensures HasFailed(log', upTo, r, alias) && HasFailed(log', |log'|, r, alias)
  {
    var h :| 0 <= h < upTo && log[h].Ended? && Failed(log[h].outcome) && log[h].req == r && log[h].alias == alias;
    assert log'[h] == log[h];
  }

  lemma BackedKept(p: Phase, log: seq<Event>, log': seq<Event>, r: nat)
    requires log <= log' && Backed(p, log, r)
    ensures Backed(p, log', r)
  {
    forall alias | alias in Admitted(p) ensures HasPassed(log', |log'|, r, alias) {
      PassedKept(log, log', |log|, r, alias);
    }
    if p.Waiting? { StartedKept(log, log', |log|, r, p.alias); }
    if p.Failing? { FailedKept(log, log', |log|, r, p.alias); }
  }

  lemma CausedKept(log: seq<Event>, log': seq<Event>, j: nat)
    requires log <= log' && j < |log| && Caused(log, j)
    ensures Caused(log', j)
  {
    assert log'[j] == log[j];
    match log[j]
    case Passed(_, alias, at) =>
      forall i | 0 <= i < j && log'[i].Tripped? && log'[i].alias == alias ensures log'[i].at + TTL_MS <= at {
        assert log'[i] == log[i];
      }
    case Started(r, alias, _) => PassedKept(log, log', j, r, alias);
    case Ended(r, alias, _, _) => StartedKept(log, log', j, r, alias);
    case Tripped(r, alias, _) => FailedKept(log, log', j, r, alias);
  }

  lemma BreakerStep(s: State, e: Step)
    requires Enabled(s, e) && BreakerInvariant(s)
    ensures BreakerInvariant(Apply(s, e))
  {
    var s' := Apply(s, e);
    forall alias | alias in s'.breaker
      ensures exists i :: 0 <= i < |s'.log| && s'.log[i].Tripped? && s'.log[i].alias == alias && s'.log[i].at == s'.breaker[alias]
    {
      if e.Trip? && alias == s.phases[e.req].alias {
        assert s'.log[|s.log|].Tripped?;
      } else {
        var i :| 0 <= i < |s.log| && s.log[i].Tripped? && s.log[i].alias == alias && s.log[i].at == s.breaker[alias];
        assert s'.log[i] == s.log[i];
      }
    }
  }

  lemma LogGrows(s: State, e: Step)
    requires Enabled(s, e)
    ensures s.log <= Apply(s, e).log && |Apply(s, e).log| <= |s.log| + 1
    ensures |Apply(s, e).log| > |s.log| ==> Apply(s, e).log[|s.log|].req == e.req && Apply(s, e).log[|s.log|].at == e.at
  {
  }

  /** The request that takes the step is backed after it. */
  lemma OwnStep(s: State, e: Step)
    requires Enabled(s, e) && RequestsInvariant(s)
    ensures Backed(Apply(s, e).phases[e.req], Apply(s, e).log, e.req)
  {
    var s' := Apply(s, e);
    var n := |s.log|;
    LogGrows(s, e);
    if !e.Begin? {
      var p := s.phases[e.req];
      assert Backed(p, s.log, e.req);
      forall alias | alias in Admitted(s'.phases[e.req]) ensures HasPassed(s'.log, |s'.log|, e.req, alias) {
        if alias in Admitted(p) {
          PassedKept(s.log, s'.log, n, e.req, alias);
        } else {
          assert s'.log[n] == Passed(e.req, alias, e.at);
        }
      }
      if e.Send? { assert s'.log[n] == Started(e.req, p.queue[0], e.at); }
      if e.Answer? { assert s'.log[n] == Ended(e.req, p.alias, e.at, e.outcome); }
    }
  }

  lemma RequestsStep(s: State, e: Step)
    requires Enabled(s, e) && RequestsInvariant(s)
    ensures RequestsInvariant(Apply(s, e))
  {
    var s' := Apply(s, e);
    LogGrows(s, e);
    forall r | r in s'.phases ensures Backed(s'.phases[r], s'.log, r) {
      if r == e.req {
        OwnStep(s, e);
      } else {
        BackedKept(s.phases[r], s.log, s'.log, r);
      }
    }
  }

  /** A probe that passes finds no trip of its key in the last 60 s. */
  lemma PassedStep(s: State, e: Step, i: nat)
    requires Enabled(s, e) && BreakerInvariant(s) && e.Probe? && i < |s.log| && s.log[i].Tripped?
    requires s.log[i].alias == s.phases[e.req].todo[0] && !IsOpen(s.breaker, s.log[i].alias, e.at)
    ensures s.log[i].at + TTL_MS <= e.at
  {
  }

  lemma NewIsCaused(s: State, e: Step)
    requires Enabled(s, e) && Invariant(s) && |Apply(s, e).log| > |s.log|
    ensures Caused(Apply(s, e).log, |s.log|)
  {
    var log, n, p := Apply(s, e).log, |s.log|, s.phases[e.req];
    LogGrows(s, e);
    assert Backed(p, s.log, e.req);
    match e
    case Probe(r, at) =>
      forall i | 0 <= i < n && log[i].Tripped? && log[i].alias == p.todo[0] ensures log[i].at + TTL_MS <= at {
        PassedStep(s, e, i);
      }
    case Send(r, at) =>
      assert p.queue[0] in Admitted(p);
      PassedKept(s.log, log, n, r, p.queue[0]);
    case Answer(r, at, outcome) => StartedKept(s.log, log, n, r, p.alias);
    case Trip(r, at) => FailedKept(s.log, log, n, r, p.alias);
  }

  lemma OrderStep(s: State, e: Step)
    requires Enabled(s, e) && InTimeOrder(s.log) && BreakerInvariant(s)
    ensures InTimeOrder(Apply(s, e).log)
  {
    LogGrows(s, e);
  }

  lemma LogStep(s: State, e: Step)
    requires Enabled(s, e) && Invariant(s)
    ensures LogInvariant(Apply(s, e).log)
  {
    var log := Apply(s, e).log;
    LogGrows(s, e);
    OrderStep(s, e);
    forall j | 0 <= j < |log| ensures Caused(log, j) {
      if j < |s.log| {
        CausedKept(s.log, log, j);
      } else {
        NewIsCaused(s, e);
      }
    }
  }

  lemma {:induction false} Reachable(steps: seq<Step>)
    requires Run(steps).Some?
    ensures Invariant(Run(steps).value)
  {
    if steps != [] {
      var n := |steps| - 1;
      Reachable(steps[..n]);
      var s := Run(steps[..n]).value;
      LogStep(s, steps[n]);
      RequestsStep(s, steps[n]);
      BreakerStep(s, steps[n]);
    }
  }

  // ---- Safety --------------------------------------------------------------

  lemma TripFollowsFailure(log: seq<Event>, i: nat)
    requires LogInvariant(log) && i < |log| && log[i].Tripped?
    ensures HasFailed(log, i, log[i].req, log[i].alias) && HasStarted(log, i, log[i].req, log[i].alias)
  {
    assert Caused(log, i);
    var h :| 0 <= h < i && log[h].Ended? && log[h].req == log[i].req && log[h].alias == log[i].alias;
    assert Caused(log, h);
    var g :| 0 <= g < h && log[g].Started? && log[g].req == log[i].req && log[g].alias == log[i].alias;
  }

  /** An alias is open exactly if a failure on it was recorded less than 60 s ago, by a
      request that had sent an attempt on it which ended retryable or unreachable. */
  lemma OpenIffTrippedLately(steps: seq<Step>, alias: string, at: nat)
    requires Run(steps).Some? && Run(steps).value.now <= at
    ensures var s := Run(steps).value;
      (alias in s.breaker && at < s.breaker[alias] + 60_000) <==>
      exists i :: 0 <= i < |s.log| && s.log[i].Tripped? && s.log[i].alias == alias && at < s.log[i].at + 60_000
                  && HasStarted(s.log, i, s.log[i].req, alias) && HasFailed(s.log, i, s.log[i].req, alias)
  {
    Reachable(steps);
    var s := Run(steps).value;
    if IsOpen(s.breaker, alias, at) {
      var i :| 0 <= i < |s.log| && s.log[i].Tripped? && s.log[i].alias == alias && s.log[i].at == s.breaker[alias];
      TripFollowsFailure(s.log, i);
    }
  }

  lemma PassedFirst(log: seq<Event>, i: nat, j: nat)
    requires LogInvariant(log) && i < j < |log| && log[i].Tripped? && log[j].Started?
    requires log[i].alias == log[j].alias && log[j].at < log[i].at + 60_000
    ensures HasPassed(log, i, log[j].req, log[j].alias)
  {
    assert Caused(log, j);
    var h :| 0 <= h < j && log[h].Passed? && log[h].req == log[j].req && log[h].alias == log[j].alias;
    assert Caused(log, h);
    assert log[h].at <= log[j].at;
    assert h < i;
  }

  /** An attempt sent within 60 s after a trip of its alias belongs to a request that
      had passed the filter for that key before the trip. */
  lemma LateAttemptsPassedBefore(steps: seq<Step>, i: nat, j: nat)
    requires Run(steps).Some?
    requires var log := Run(steps).value.log;
      && i < j < |log| && log[i].Tripped? && log[j].Started?
      && log[i].alias == log[j].alias && log[j].at < log[i].at + 60_000
    ensures var log := Run(steps).value.log; HasPassed(log, i, log[j].req, log[j].alias)
  {
    Reachable(steps);
    PassedFirst(Run(steps).value.log, i, j);
  }
}
