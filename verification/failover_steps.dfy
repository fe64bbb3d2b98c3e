/** One routed request is a run of the shared breaker's machine: what the gateway's
    methods do in one go is what the request's own steps do when no other comes between. */
module FailoverSteps {
  import opened Wrappers
  import opened Json
  import opened Keys
  import opened Breaker
  import opened Router

  /** The steps of a request's filter over `n` keys. */
  function Probes(req: nat, at: nat, n: nat): seq<Step>
  {
    if n == 0 then [] else Probes(req, at, n - 1) + [Probe(req, at)]
  }

  /** The steps of `n` failed attempts, the first sent at `at`, each next when the last ended. */
  function Failures(req: nat, at: nat, outcomes: seq<Outcome>, clock: seq<nat>, n: nat): seq<Step>
    requires n <= |outcomes| == |clock|
  {
    if n == 0 then []
    else
      Failures(req, at, outcomes, clock, n - 1)
      + [Send(req, SentAt(at, clock, n - 1)), Answer(req, clock[n - 1], outcomes[n - 1]), Trip(req, clock[n - 1])]
  }

  function SentAt(at: nat, clock: seq<nat>, i: nat): nat
    requires i <= |clock|
  {
    if i == 0 then at else clock[i - 1]
  }

  /** The steps of `n` attempts, all but perhaps the last of them failed. */
  function Attempts(req: nat, at: nat, outcomes: seq<Outcome>, clock: seq<nat>, n: nat): seq<Step>
    requires 1 <= n <= |outcomes| == |clock|
  {
    if Failed(outcomes[n - 1]) then Failures(req, at, outcomes, clock, n)
    else
      Failures(req, at, outcomes, clock, n - 1)
      + [Send(req, SentAt(at, clock, n - 1)), Answer(req, clock[n - 1], outcomes[n - 1])]
  }

  function Admission(req: nat, at: nat, aliases: seq<string>): seq<Step>
  {
    [Begin(req, at, aliases)] + Probes(req, at, |aliases|) + [SetOff(req, at)]
  }

  /** All steps of one request that makes `n` attempts. */
  function CallSteps(req: nat, at: nat, aliases: seq<string>, outcomes: seq<Outcome>, clock: seq<nat>, n: nat): seq<Step>
  {
    Admission(req, at, aliases) + if 1 <= n <= |outcomes| == |clock| then Attempts(req, at, outcomes, clock, n) else []
  }

  /** The run got there, with this breaker, and with the request done as `r` says. */
  ghost predicate Ended(end: Option<State>, req: nat, r: Result<nat, Error>, breaker': Breaker)
  {
    && end.Some? && end.value.breaker == breaker' && req in end.value.phases
    && end.value.phases[req] == if r.Ok? then Finished(r.value) else Attempting([])
  }

  predicate TimesInOrder(at: nat, clock: seq<nat>)
  {
    forall i | 0 <= i < |clock| :: SentAt(at, clock, i) <= clock[i]
  }

  lemma One(s: State, e: Step)
    requires Enabled(s, e)
    ensures RunFrom(s, [e]) == Some(Apply(s, e))
  {
    assert [e][..0] == [];
  }

  lemma AliasesSnoc(keys: seq<KeyConfig>, rest: seq<string>)
    requires keys != []
    ensures var n := |keys| - 1; Aliases(keys) + rest == Aliases(keys[..n]) + ([keys[n].alias] + rest)
  {
  }

  lemma OneProbe(s: State, req: nat, at: nat, key: KeyConfig, rest: seq<string>, healthy: seq<KeyConfig>)
    requires s.now == at && req in s.phases && s.phases[req] == Filtering([key.alias] + rest, Aliases(healthy))
    ensures var s' := RunFrom(s, [Probe(req, at)]);
      && s'.Some? && s'.value.now == at && s'.value.breaker == s.breaker
      && s'.value.phases
           == s.phases[req := Filtering(rest, Aliases(healthy + if IsOpen(s.breaker, key.alias, at) then [] else [key]))]
  {
    assert ([key.alias] + rest)[1..] == rest;
    assert Aliases(healthy + [key]) == Aliases(healthy) + [key.alias] && healthy + [] == healthy;
    One(s, Probe(req, at));
  }

  lemma {:induction false} ProbesFilter(s: State, req: nat, at: nat, keys: seq<KeyConfig>, rest: seq<string>)
    requires s.now == at && req in s.phases && s.phases[req] == Filtering(Aliases(keys) + rest, [])
    ensures var s' := RunFrom(s, Probes(req, at, |keys|));
      && s'.Some? && s'.value.now == at && s'.value.breaker == s.breaker
      && s'.value.phases == s.phases[req := Filtering(rest, Aliases(Healthy(keys, s.breaker, at)))]
  {
    if keys == [] {
      assert Aliases(keys) + rest == rest;
    } else {
      var n := |keys| - 1;
      AliasesSnoc(keys, rest);
      ProbesFilter(s, req, at, keys[..n], [keys[n].alias] + rest);
      OneProbe(RunFrom(s, Probes(req, at, n)).value, req, at, keys[n], rest, Healthy(keys[..n], s.breaker, at));
      RunOn(s, Probes(req, at, n), [Probe(req, at)]);
    }
  }

  lemma {:induction false} FailuresTrip(
    s: State, req: nat, at: nat, queue: seq<string>, rest: seq<string>, outcomes: seq<Outcome>, clock: seq<nat>)
    requires s.now == at && req in s.phases && s.phases[req] == Attempting(queue + rest)
    requires |queue| <= |outcomes| == |clock| && TimesInOrder(at, clock)
    requires forall i | 0 <= i < |queue| :: Failed(outcomes[i])
    ensures var s' := RunFrom(s, Failures(req, at, outcomes, clock, |queue|));
      && s'.Some? && s'.value.now == SentAt(at, clock, |queue|)
      && s'.value.breaker == TripAll(s.breaker, queue, clock)
      && s'.value.phases == s.phases[req := Attempting(rest)]
  {
    if queue == [] {
      assert queue + rest == rest;
    } else {
      var n := |queue| - 1;
      assert queue + rest == queue[..n] + ([queue[n]] + rest);
      FailuresTrip(s, req, at, queue[..n], [queue[n]] + rest, outcomes, clock);
      var first := Failures(req, at, outcomes, clock, n);
      FailureTrips(RunFrom(s, first).value, req, queue[n], rest, SentAt(at, clock, n), clock[n], outcomes[n]);
      RunOn(s, first, [Send(req, SentAt(at, clock, n)), Answer(req, clock[n], outcomes[n]), Trip(req, clock[n])]);
    }
  }

  lemma FailureTrips(s: State, req: nat, alias: string, rest: seq<string>, sent: nat, ended: nat, outcome: Outcome)
    requires s.now <= sent <= ended && req in s.phases && s.phases[req] == Attempting([alias] + rest) && Failed(outcome)
    ensures var s' := RunFrom(s, [Send(req, sent), Answer(req, ended, outcome), Trip(req, ended)]);
      && s'.Some? && s'.value.now == ended && s'.value.breaker == s.breaker[alias := ended]
      && s'.value.phases == s.phases[req := Attempting(rest)]
  {
    assert ([alias] + rest)[1..] == rest;
    One(s, Send(req, sent));
    var s1 := Apply(s, Send(req, sent));
    One(s1, Answer(req, ended, outcome));
    var s2 := Apply(s1, Answer(req, ended, outcome));
    One(s2, Trip(req, ended));
    RunOn(s, [Send(req, sent)], [Answer(req, ended, outcome)]);
    RunOn(s, [Send(req, sent)] + [Answer(req, ended, outcome)], [Trip(req, ended)]);
    assert [Send(req, sent), Answer(req, ended, outcome), Trip(req, ended)]
        == [Send(req, sent)] + [Answer(req, ended, outcome)] + [Trip(req, ended)];
  }

  lemma Admit(s: State, req: nat, at: nat, keys: seq<KeyConfig>)
    requires s.now <= at && req !in s.phases
    ensures var s' := RunFrom(s, Admission(req, at, Aliases(keys)));
      && s'.Some? && s'.value.now == at && s'.value.breaker == s.breaker
      && s'.value.phases == s.phases[req := Attempting(Aliases(Healthy(keys, s.breaker, at)))]
  {
    var begin := Begin(req, at, Aliases(keys));
    var s1 := Apply(s, begin);
    One(s, begin);
    assert Aliases(keys) + [] == Aliases(keys);
    ProbesFilter(s1, req, at, keys, []);
    RunOn(s, [begin], Probes(req, at, |keys|));
    var s2 := RunFrom(s1, Probes(req, at, |keys|)).value;
    One(s2, SetOff(req, at));
    RunOn(s, [begin] + Probes(req, at, |keys|), [SetOff(req, at)]);
  }

  lemma FinalAnswer(s: State, req: nat, sent: nat, ended: nat, outcome: Outcome)
    requires s.now <= sent <= ended && req in s.phases && !Failed(outcome)
    requires s.phases[req].Attempting? && s.phases[req].queue != []
    ensures var s' := RunFrom(s, [Send(req, sent), Answer(req, ended, outcome)]);
      && s'.Some? && s'.value.breaker == s.breaker && s'.value.phases[req] == Finished(outcome.code)
  {
    One(s, Send(req, sent));
    var s1 := Apply(s, Send(req, sent));
    One(s1, Answer(req, ended, outcome));
    RunOn(s, [Send(req, sent)], [Answer(req, ended, outcome)]);
    assert [Send(req, sent), Answer(req, ended, outcome)] == [Send(req, sent)] + [Answer(req, ended, outcome)];
  }

  lemma AnsweredRun(
    s: State, req: nat, at: nat, healthy: seq<string>, outcomes: seq<Outcome>, clock: seq<nat>, m: nat)
    requires s.now == at && req in s.phases && s.phases[req] == Attempting(healthy)
    requires m < |healthy| == |outcomes| == |clock| && TimesInOrder(at, clock)
    requires (forall i | 0 <= i < m :: Failed(outcomes[i])) && !Failed(outcomes[m])
    ensures Ended(RunFrom(s, Attempts(req, at, outcomes, clock, m + 1)), req, Ok(outcomes[m].code),
                  TripAll(s.breaker, healthy[..m], clock))
  {
    var queue, rest := healthy[..m], healthy[m..];
    assert queue + rest == healthy;
    FailuresTrip(s, req, at, queue, rest, outcomes, clock);
    var failed := Failures(req, at, outcomes, clock, m);
    var sent := SentAt(at, clock, m);
    FinalAnswer(RunFrom(s, failed).value, req, sent, clock[m], outcomes[m]);
    RunOn(s, failed, [Send(req, sent), Answer(req, clock[m], outcomes[m])]);
  }

  lemma FailedRun(s: State, req: nat, at: nat, healthy: seq<string>, outcomes: seq<Outcome>, clock: seq<nat>)
    requires s.now == at && req in s.phases && s.phases[req] == Attempting(healthy)
    requires 1 <= |healthy| == |outcomes| == |clock| && TimesInOrder(at, clock)
    requires forall i | 0 <= i < |healthy| :: Failed(outcomes[i])
    ensures var s' := RunFrom(s, Attempts(req, at, outcomes, clock, |healthy|));
      && s'.Some? && s'.value.breaker == TripAll(s.breaker, healthy, clock)
      && s'.value.phases[req] == Attempting([])
  {
    assert healthy + [] == healthy;
    FailuresTrip(s, req, at, healthy, [], outcomes, clock);
  }

  lemma CallStepsRun(
    s: State, req: nat, at: nat, aliases: seq<string>, outcomes: seq<Outcome>, clock: seq<nat>, n: nat, mid: State)
    requires 1 <= n <= |outcomes| == |clock| && RunFrom(s, Admission(req, at, aliases)) == Some(mid)
    ensures RunFrom(s, CallSteps(req, at, aliases, outcomes, clock, n)) == RunFrom(mid, Attempts(req, at, outcomes, clock, n))
  {
    RunOn(s, Admission(req, at, aliases), Attempts(req, at, outcomes, clock, n));
  }

  lemma RunThen(steps: seq<Step>, later: seq<Step>)
    requires Run(steps).Some?
    ensures Run(steps + later) == RunFrom(Run(steps).value, later)
  {
    RunOn(START, steps, later);
  }

  /** A whole call that ends with the answer to attempt `n`. */
  lemma AnsweredCall(
    s: State, req: nat, at: nat, keys: seq<KeyConfig>, healthy: seq<string>,
    outcomes: seq<Outcome>, clock: seq<nat>, n: nat, status: nat, breaker': Breaker)
    requires s.now <= at && req !in s.phases && TimesInOrder(at, clock)
    requires healthy == Aliases(Healthy(keys, s.breaker, at)) && 1 <= n <= |healthy| == |outcomes| == |clock|
    requires (forall i | 0 <= i < n - 1 :: Failed(outcomes[i]))
    requires outcomes[n - 1] == Status(status) && !Failed(outcomes[n - 1])
    requires breaker' == TripAll(s.breaker, healthy[..n - 1], clock)
    ensures Ended(RunFrom(s, CallSteps(req, at, Aliases(keys), outcomes, clock, n)), req, Ok(status), breaker')
  {
    Admit(s, req, at, keys);
    var mid := RunFrom(s, Admission(req, at, Aliases(keys))).value;
    AnsweredRun(mid, req, at, healthy, outcomes, clock, n - 1);
    CallStepsRun(s, req, at, Aliases(keys), outcomes, clock, n, mid);
  }

  /** A whole call whose attempts all fail. */
  lemma FailedCall(
    s: State, req: nat, at: nat, keys: seq<KeyConfig>, healthy: seq<string>,
    outcomes: seq<Outcome>, clock: seq<nat>, e: Error, breaker': Breaker)
    requires s.now <= at && req !in s.phases && TimesInOrder(at, clock)
    requires healthy == Aliases(Healthy(keys, s.breaker, at)) && 1 <= |healthy| == |outcomes| == |clock|
    requires forall i | 0 <= i < |healthy| :: Failed(outcomes[i])
    requires breaker' == TripAll(s.breaker, healthy, clock)
    ensures Ended(RunFrom(s, CallSteps(req, at, Aliases(keys), outcomes, clock, |healthy|)), req, Err(e), breaker')
  {
    Admit(s, req, at, keys);
    var mid := RunFrom(s, Admission(req, at, Aliases(keys))).value;
    FailedRun(mid, req, at, healthy, outcomes, clock);
    CallStepsRun(s, req, at, Aliases(keys), outcomes, clock, |healthy|, mid);
  }

  /** What the contracts of preparing and executing say of the attempts. */
  lemma AttemptsOfCall(
    r: Result<nat, Error>, attempts: seq<string>, breaker: Breaker, breaker': Breaker, codec: Codec,
    routing: map<string, ModelConfig>, at: nat, prep: Prepared, body: Body, outcomes: seq<Outcome>, clock: seq<nat>,
    healthy: seq<string>)
    requires Prepares(Ok(prep), codec, routing, breaker, body, at)
    requires |outcomes| == |clock| == |Chosen(prep)|
    requires Executes(r, attempts, breaker, breaker', codec, prep, body, outcomes, clock)
    requires healthy == Aliases(Healthy(SortedKeys(routing, prep.model), breaker, at))
    ensures 1 <= |attempts| <= |healthy| == |outcomes|
    ensures r.Ok? ==>
      && (forall i | 0 <= i < |attempts| - 1 :: Failed(outcomes[i]))
      && outcomes[|attempts| - 1] == Status(r.value) && !Failed(outcomes[|attempts| - 1])
      && breaker' == TripAll(breaker, healthy[..|attempts| - 1], clock)
    ensures r.Err? ==>
      && |attempts| == |healthy| && (forall i | 0 <= i < |healthy| :: Failed(outcomes[i]))
      && breaker' == TripAll(breaker, healthy, clock)
  {
    PreparedBuilds(codec, routing, breaker, at, prep, body);
    ErrorMeansAllAttempted(r, attempts, breaker, breaker', codec, routing, breaker, at, prep, body, outcomes, clock);
    assert attempts[..|attempts| - 1] == healthy[..|attempts| - 1];
  }

  /** From any reachable state of the shared breaker, preparing and executing a request
      goes on as a run of the machine: the breaker ends as the methods leave it, an
      answer is the status the request finishes with, and after an error no key is left.
      So what holds of all runs holds of the gateway's calls. */
  lemma CallIsItsSteps(
    steps: seq<Step>, req: nat, r: Result<nat, Error>, attempts: seq<string>, breaker': Breaker, codec: Codec,
    routing: map<string, ModelConfig>, at: nat, prep: Prepared, body: Body, outcomes: seq<Outcome>, clock: seq<nat>)
    requires Run(steps).Some? && Run(steps).value.now <= at && req !in Run(steps).value.phases
    requires Prepares(Ok(prep), codec, routing, Run(steps).value.breaker, body, at)
    requires |outcomes| == |clock| == |Chosen(prep)| && TimesInOrder(at, clock)
    requires Executes(r, attempts, Run(steps).value.breaker, breaker', codec, prep, body, outcomes, clock)
    ensures var aliases := Aliases(SortedKeys(routing, prep.model));
      Ended(Run(steps + CallSteps(req, at, aliases, outcomes, clock, |attempts|)), req, r, breaker')
  {
    var s := Run(steps).value;
    var keys := SortedKeys(routing, prep.model);
    var healthy := Aliases(Healthy(keys, s.breaker, at));
    AttemptsOfCall(r, attempts, s.breaker, breaker', codec, routing, at, prep, body, outcomes, clock, healthy);
    if r.Ok? {
      AnsweredCall(s, req, at, keys, healthy, outcomes, clock, |attempts|, r.value, breaker');
    } else {
      FailedCall(s, req, at, keys, healthy, outcomes, clock, r.error, breaker');
    }
    RunThen(steps, CallSteps(req, at, Aliases(keys), outcomes, clock, |attempts|));
  }
}
