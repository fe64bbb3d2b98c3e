/** The per-tenant token bucket: a debit by estimate before the call, and a
    reconciliation by the difference to the actual usage after it. */
module TokenBucket {
  import opened Wrappers
  import opened Multiples

  const CAPACITY: nat := 100_000
  const TTL_MS: nat := 86_400_000
  const CHARS_PER_TOKEN: nat := 4

  datatype Error = RateLimitExceeded

  /** The Redis key. A key without a deadline never expires. */
  datatype Bucket = Absent | Present(balance: int, deadline: Option<nat>)

  function Live(b: Bucket, at: nat): Bucket
  {
    if b.Present? && b.deadline.Some? && at >= b.deadline.value then Absent else b
  }

  /** `(raw_prompt.len() / CHARS_PER_TOKEN).max(1)` */
  function Estimate(promptLength: nat): (tokens: nat)
    ensures tokens >= 1
  {
    if promptLength / CHARS_PER_TOKEN < 1 then 1 else promptLength / CHARS_PER_TOKEN
  }

  /** The Lua script refuses: the key exists with too small a balance. */
  predicate Refuses(b: Bucket, at: nat, est: nat)
  {
    Live(b, at).Present? && Live(b, at).balance < est
  }

  /** The key after the script: `GET`, then `SET EX` if missing, then `DECRBY`. */
  function Debited(b: Bucket, at: nat, est: nat): Bucket
  {
    match Live(b, at)
    case Absent => Present(CAPACITY - est, Some(at + TTL_MS))
    case Present(balance, deadline) => if balance < est then b else Present(balance - est, deadline)
  }

  /** The key after `INCRBY`, which makes a missing key from zero, without expiry. */
  function Credited(b: Bucket, at: nat, delta: int): Bucket
  {
    match Live(b, at)
    case Absent => Present(delta, None)
    case Present(balance, deadline) => Present(balance + delta, deadline)
  }

  // ---- Runs ----------------------------------------------------------------

  /** A request by what it did to the key. Lifetimes of the key are numbered;
      `debitedIn` is the one its estimate was taken from, `creditedIn` the one its
      reconciliation went to. */
  datatype Phase =
    | Refused
    | Outstanding(est: nat, debitedIn: Option<nat>)
    | Reconciled(est: nat, actual: nat, debitedIn: Option<nat>, creditedIn: Option<nat>)
    | Abandoned(est: nat, debitedIn: Option<nat>)

  /** `opening` is what the present lifetime started from, `byDebit` whether a debit
      started it, and `failOpen` counts requests let through without a debit. */
  datatype State = State(
    bucket: Bucket, now: nat, requests: seq<Phase>,
    life: nat, opening: int, byDebit: bool, failOpen: nat)

  datatype Step =
    | Debit(est: nat, at: nat, reply: Reply)
    | Reconcile(i: nat, actual: nat, at: nat, reply: Reply)
    | Abandon(i: nat, at: nat)

  const START := State(Absent, 0, [], 0, 0, true, 0)

  /** `outstanding` bounds the requests between debit and reconciliation, `under`
      each one's underestimate, and `first` an estimate that makes a new key. */
  datatype Limits = Limits(outstanding: nat, under: nat, first: nat)

  predicate Enabled(s: State, e: Step)
  {
    && s.now <= e.at
    && (e.Debit? ==> e.est >= 1)
    && (!e.Debit? ==> e.i < |s.requests| && s.requests[e.i].Outstanding?)
  }

  function Apply(s: State, e: Step): State
    requires Enabled(s, e)
  {
    match e
    case Debit(est, at, reply) =>
      var refused := Refuses(s.bucket, at, est);
      if !Committed(reply) || refused then
        s.(now := at,
           requests := s.requests + [if reply.Answered? then Refused else Outstanding(est, None)],
           failOpen := if reply.Answered? then s.failOpen else s.failOpen + 1)
      else
        var makes := Live(s.bucket, at).Absent?;
        var life := if makes then s.life + 1 else s.life;
        s.(now := at, bucket := Debited(s.bucket, at, est), life := life,
           requests := s.requests + [Outstanding(est, Some(life))],
           opening := if makes then CAPACITY else s.opening, byDebit := makes || s.byDebit)
    case Reconcile(i, actual, at, reply) =>
      var Outstanding(est, debitedIn) := s.requests[i];
      if est == actual then
        s.(now := at, requests := s.requests[i := Reconciled(est, actual, debitedIn, debitedIn)])
      else if !Committed(reply) then
        s.(now := at, requests := s.requests[i := Abandoned(est, debitedIn)])
      else
        var makes := Live(s.bucket, at).Absent?;
        var life := if makes then s.life + 1 else s.life;
        s.(now := at, bucket := Credited(s.bucket, at, est - actual), life := life,
           requests := s.requests[i := Reconciled(est, actual, debitedIn, Some(life))],
           opening := if makes then 0 else s.opening, byDebit := !makes && s.byDebit)
    case Abandon(i, at) =>
      s.(now := at, requests := s.requests[i := Abandoned(s.requests[i].est, s.requests[i].debitedIn)])
  }

  function Open(requests: seq<Phase>): nat
  {
    if requests == [] then 0
    else Open(requests[..|requests| - 1]) + if requests[|requests| - 1].Outstanding? then 1 else 0
  }

  predicate Within(s: State, e: Step, l: Limits)
    requires Enabled(s, e)
  {
    && Open(Apply(s, e).requests) <= l.outstanding
    && (e.Debit? && Live(s.bucket, e.at).Absent? ==> e.est <= l.first)
    && (e.Reconcile? ==> e.actual <= s.requests[e.i].est + l.under)
  }

  /** Every run has some limits it stays within. */
  function Run(steps: seq<Step>, l: Limits): Option<State>
  {
    if steps == [] then Some(START)
    else
      var n := |steps| - 1;
      match Run(steps[..n], l)
      case None => None
      case Some(s) =>
        if Enabled(s, steps[n]) && Within(s, steps[n], l) then Some(Apply(s, steps[n])) else None
  }

  // ---- Conservation --------------------------------------------------------

  /** What a request took from lifetime `life` in all: its actual tokens once it was
      debited and reconciled there, its estimate while only debited there, and the
      bare correction if only its reconciliation fell there. */
  function Charge(p: Phase, life: nat): int
  {
    match p
    case Refused => 0
    case Outstanding(est, debitedIn) => if debitedIn == Some(life) then est else 0
    case Abandoned(est, debitedIn) => if debitedIn == Some(life) then est else 0
    case Reconciled(est, actual, debitedIn, creditedIn) =>
      if debitedIn == Some(life) && creditedIn == Some(life) then actual
      else if debitedIn == Some(life) then est
      else if creditedIn == Some(life) then actual - est
      else 0
  }

  function Charges(requests: seq<Phase>, life: nat): int
  {
    if requests == [] then 0
    else Charges(requests[..|requests| - 1], life) + Charge(requests[|requests| - 1], life)
  }

  lemma {:induction false} ChargesUpdate(requests: seq<Phase>, i: nat, p: Phase, life: nat)
    requires i < |requests|
    ensures Charges(requests[i := p], life) == Charges(requests, life) - Charge(requests[i], life) + Charge(p, life)
  {
    var n := |requests| - 1;
    if i < n {
      ChargesUpdate(requests[..n], i, p, life);
      assert requests[i := p][..n] == requests[..n][i := p];
    } else {
      assert requests[i := p][..n] == requests[..n];
    }
  }

  lemma {:induction false} OpenUpdate(requests: seq<Phase>, i: nat, p: Phase)
    requires i < |requests| && requests[i].Outstanding? && !p.Outstanding?
    ensures Open(requests[i := p]) + 1 == Open(requests)
  {
    var n := |requests| - 1;
    if i < n {
      OpenUpdate(requests[..n], i, p);
      assert requests[i := p][..n] == requests[..n][i := p];
    } else {
      assert requests[i := p][..n] == requests[..n];
    }
  }

  lemma ChargesAppend(requests: seq<Phase>, p: Phase, life: nat)
    ensures Charges(requests + [p], life) == Charges(requests, life) + Charge(p, life)
  {
    assert (requests + [p])[..|requests|] == requests;
  }

  lemma OpenAppend(requests: seq<Phase>, p: Phase)
    ensures Open(requests + [p]) == Open(requests) + if p.Outstanding? then 1 else 0
  {
    assert (requests + [p])[..|requests|] == requests;
  }

  predicate Tagged(p: Phase, life: nat)
  {
    match p
    case Refused => true
    case Outstanding(_, d) => d.Some? ==> d.value <= life
    case Abandoned(_, d) => d.Some? ==> d.value <= life
    case Reconciled(_, _, d, c) => (d.Some? ==> d.value <= life) && (c.Some? ==> c.value <= life)
  }

  lemma {:induction false} NewLifeIsFree(requests: seq<Phase>, life: nat)
    requires forall p | p in requests :: Tagged(p, life)
    ensures Charges(requests, life + 1) == 0
  {
    if requests != [] {
      NewLifeIsFree(requests[..|requests| - 1], life);
      assert Tagged(requests[|requests| - 1], life);
    }
  }

  ghost predicate AllTagged(s: State)
  {
    forall p | p in s.requests :: Tagged(p, s.life)
  }

  /** A debit starts a key from the capacity and gives it a day, a credit starts one
      from nothing and for ever. */
  predicate WellStarted(s: State)
  {
    s.bucket.Present? ==>
      && s.opening == (if s.byDebit then CAPACITY else 0)
      && (s.bucket.deadline.Some? <==> s.byDebit)
      && (s.byDebit ==> s.bucket.deadline.value <= s.now + TTL_MS)
  }

  predicate Balanced(s: State)
  {
    s.bucket.Present? ==> s.bucket.balance == s.opening - Charges(s.requests, s.life)
  }

  ghost predicate Conserved(s: State)
  {
    AllTagged(s) && WellStarted(s) && Balanced(s)
  }

  lemma TaggedDebit(s: State, e: Step)
    requires Enabled(s, e) && AllTagged(s) && e.Debit?
    ensures AllTagged(Apply(s, e))
  {
    var s' := Apply(s, e);
    forall p | p in s'.requests ensures Tagged(p, s'.life) {
      if p in s.requests { assert Tagged(p, s.life); }
    }
  }

  lemma StartedDebit(s: State, e: Step)
    requires Enabled(s, e) && WellStarted(s) && e.Debit?
    ensures WellStarted(Apply(s, e))
  {
  }

  lemma BalancedDebit(s: State, e: Step)
    requires Enabled(s, e) && AllTagged(s) && Balanced(s) && e.Debit?
    ensures Balanced(Apply(s, e))
  {
    var s' := Apply(s, e);
    var p := s'.requests[|s.requests|];
    ChargesAppend(s.requests, p, s'.life);
    if !Committed(e.reply) || Refuses(s.bucket, e.at, e.est) {
      assert Charge(p, s'.life) == 0;
    } else if Live(s.bucket, e.at).Absent? {
      NewLifeIsFree(s.requests, s.life);
    }
  }

  lemma ConservedDebit(s: State, e: Step)
    requires Enabled(s, e) && Conserved(s) && e.Debit?
    ensures Conserved(Apply(s, e))
  {
    TaggedDebit(s, e);
    StartedDebit(s, e);
    BalancedDebit(s, e);
  }

  lemma TaggedAfter(s: State, e: Step, p: Phase)
    requires Enabled(s, e) && Conserved(s) && !e.Debit? && p in Apply(s, e).requests
    ensures Tagged(p, Apply(s, e).life)
  {
    var s' := Apply(s, e);
    assert Tagged(s.requests[e.i], s.life);
    if p != s'.requests[e.i] {
      assert p in s.requests;
      assert Tagged(p, s.life);
    }
  }

  /** A reconciliation that reaches the key. */
  predicate Credits(s: State, e: Step)
    requires Enabled(s, e)
  {
    e.Reconcile? && Committed(e.reply) && e.actual != s.requests[e.i].est
  }

  lemma ConservedCredit(s: State, e: Step)
    requires Enabled(s, e) && Conserved(s) && Credits(s, e)
    ensures Conserved(Apply(s, e))
  {
    var s' := Apply(s, e);
    var was, p := s.requests[e.i], s'.requests[e.i];
    assert Tagged(was, s.life);
    ChargesUpdate(s.requests, e.i, p, s'.life);
    if Live(s.bucket, e.at).Absent? {
      NewLifeIsFree(s.requests, s.life);
      assert Charge(was, s'.life) == 0 && Charge(p, s'.life) == e.actual - was.est;
    } else {
      assert Charge(p, s'.life) - Charge(was, s'.life) == e.actual - was.est;
    }
    forall q | q in s'.requests ensures Tagged(q, s'.life) { TaggedAfter(s, e, q); }
  }

  lemma ConservedElse(s: State, e: Step)
    requires Enabled(s, e) && Conserved(s) && !e.Debit? && !Credits(s, e)
    ensures Conserved(Apply(s, e))
  {
    var s' := Apply(s, e);
    ChargesUpdate(s.requests, e.i, s'.requests[e.i], s'.life);
    forall p | p in s'.requests ensures Tagged(p, s'.life) { TaggedAfter(s, e, p); }
  }

  /** In every reachable state the balance is what the lifetime started from (100000
      when a debit started it) less the actual tokens of the requests debited and
      reconciled in it, less the estimates of those only debited in it, and less the
      corrections of requests from elsewhere. */
  lemma {:induction false} Conservation(steps: seq<Step>, l: Limits)
    requires Run(steps, l).Some?
    ensures Conserved(Run(steps, l).value)
  {
    if steps != [] {
      var n := |steps| - 1;
      Conservation(steps[..n], l);
      var s := Run(steps[..n], l).value;
      if steps[n].Debit? {
        ConservedDebit(s, steps[n]);
      } else if Credits(s, steps[n]) {
        ConservedCredit(s, steps[n]);
      } else {
        ConservedElse(s, steps[n]);
      }
    }
  }

  // ---- The floor -----------------------------------------------------------

  function Overdraft(l: Limits): int
  {
    if l.first > CAPACITY then l.first - CAPACITY else 0
  }

  /** How many requests may have cost an underestimate so far. */
  function Room(s: State, l: Limits): int
  {
    l.outstanding + s.failOpen - Open(s.requests)
  }

  ghost predicate AboveFloor(s: State, l: Limits)
  {
    && Open(s.requests) <= l.outstanding
    && (s.bucket.Present? ==>
          s.bucket.balance >= -Overdraft(l) - Multiple(Room(s, l), l.under))
  }

  lemma DebitedAboveFloor(b: Bucket, at: nat, est: nat, l: Limits)
    requires !Refuses(b, at, est) && (Live(b, at).Absent? ==> est <= l.first)
    ensures Debited(b, at, est).balance >= -Overdraft(l)
  {
  }

  /** A debit that Redis did not run, or refused. */
  predicate Passes(s: State, e: Step)
    requires e.Debit?
  {
    !Committed(e.reply) || Refuses(s.bucket, e.at, e.est)
  }

  lemma FloorPassed(s: State, e: Step, l: Limits)
    requires Enabled(s, e) && Within(s, e, l) && AboveFloor(s, l) && e.Debit? && Passes(s, e)
    ensures AboveFloor(Apply(s, e), l)
  {
    var s' := Apply(s, e);
    OpenAppend(s.requests, if e.reply.Answered? then Refused else Outstanding(e.est, None));
    assert s'.bucket == s.bucket;
    assert Room(s', l) == Room(s, l);
  }

  lemma FloorTaken(s: State, e: Step, l: Limits)
    requires Enabled(s, e) && Within(s, e, l) && e.Debit? && !Passes(s, e)
    ensures AboveFloor(Apply(s, e), l)
  {
    DebitedAboveFloor(s.bucket, e.at, e.est, l);
    assert Apply(s, e).bucket == Debited(s.bucket, e.at, e.est);
  }

  lemma FloorAfter(s: State, e: Step, l: Limits)
    requires Enabled(s, e) && Within(s, e, l) && AboveFloor(s, l) && !e.Debit?
    ensures AboveFloor(Apply(s, e), l)
  {
    var s' := Apply(s, e);
    OpenUpdate(s.requests, e.i, s'.requests[e.i]);
    assert Room(s', l) == Room(s, l) + 1;
    assert Multiple(Room(s, l) + 1, l.under) == Multiple(Room(s, l), l.under) + l.under;
  }

  lemma {:induction false} FloorReachable(steps: seq<Step>, l: Limits)
    requires Run(steps, l).Some?
    ensures AboveFloor(Run(steps, l).value, l)
  {
    if steps != [] {
      var n := |steps| - 1;
      FloorReachable(steps[..n], l);
      var s := Run(steps[..n], l).value;
      if !steps[n].Debit? {
        FloorAfter(s, steps[n], l);
      } else if Passes(s, steps[n]) {
        FloorPassed(s, steps[n], l);
      } else {
        FloorTaken(s, steps[n], l);
      }
    }
  }

  /** With at most k requests outstanding, each underestimated by at most U, and no
      key started by an estimate over 100000, the balance never drops below -k * U,
      across expiries of the key; every request let through without a debit because
      Redis failed can cost one more U. */
  lemma Floor(steps: seq<Step>, l: Limits)
    requires Run(steps, l).Some?
    ensures var s := Run(steps, l).value;
      s.bucket.Present? ==> s.bucket.balance >= -Overdraft(l) - (l.outstanding + s.failOpen) * l.under
  {
    FloorReachable(steps, l);
    var s := Run(steps, l).value;
    MultipleGrows(l.outstanding + s.failOpen - Open(s.requests), l.outstanding + s.failOpen, l.under);
    MultipleIsProduct(l.outstanding + s.failOpen, l.under);
  }

  // ---- The floor is reached ------------------------------------------------

  lemma Extend(steps: seq<Step>, l: Limits, e: Step)
    requires Run(steps, l).Some?
    requires var s := Run(steps, l).value; Enabled(s, e) && Within(s, e, l)
    ensures Run(steps + [e], l) == Some(Apply(Run(steps, l).value, e))
  {
    assert (steps + [e])[..|steps|] == steps;
  }

  /** The key is live and holds `balance`; of `n` requests those from `settled` on are
      outstanding; `open` requests have passed without a debit. */
  ghost predicate Standing(s: State, settled: nat, n: nat, balance: int, open: nat)
  {
    && s.bucket.Present? && s.bucket.balance == balance && s.failOpen == open
    && s.bucket.deadline.Some? && s.now < s.bucket.deadline.value
    && settled <= n == |s.requests| && Open(s.requests) == n - settled
    && forall i | settled <= i < n :: s.requests[i].Outstanding?
  }

  ghost predicate Stage(steps: seq<Step>, l: Limits, settled: nat, n: nat, balance: int, open: nat)
  {
    Run(steps, l).Some? && Standing(Run(steps, l).value, settled, n, balance, open)
  }

  lemma FirstLife(l: Limits, est: nat) returns (steps: seq<Step>)
    requires l.outstanding >= 1 && 1 <= est <= l.first
    ensures Stage(steps, l, 0, 1, CAPACITY - est, 0)
  {
    OpenAppend([], Outstanding(est, Some(1)));
    Extend([], l, Debit(est, 0, Answered));
    steps := [] + [Debit(est, 0, Answered)];
  }

  /** The key expires, and a debit starts the next lifetime. */
  lemma NextLife(steps: seq<Step>, l: Limits, settled: nat, n: nat, balance: int, open: nat, est: nat)
    returns (steps': seq<Step>)
    requires Stage(steps, l, settled, n, balance, open) && n - settled < l.outstanding && 1 <= est <= l.first
    ensures Stage(steps', l, settled, n + 1, CAPACITY - est, open)
  {
    var s := Run(steps, l).value;
    var e := Debit(est, s.bucket.deadline.value, Answered);
    OpenAppend(s.requests, Outstanding(est, Some(s.life + 1)));
    Extend(steps, l, e);
    steps' := steps + [e];
  }

  lemma DebitStands(s: State, settled: nat, n: nat, balance: int, open: nat, est: nat)
    requires Standing(s, settled, n, balance, open) && 1 <= est <= balance
    ensures var s' := Apply(s, Debit(est, s.now, Answered));
      Standing(s', settled, n + 1, balance - est, open) && Open(s'.requests) == n + 1 - settled
  {
    OpenAppend(s.requests, Outstanding(est, Some(s.life)));
  }

  lemma DebitOne(steps: seq<Step>, l: Limits, settled: nat, n: nat, balance: int, open: nat, est: nat)
    returns (steps': seq<Step>)
    requires Stage(steps, l, settled, n, balance, open) && 1 <= est <= balance && n - settled < l.outstanding
    ensures Stage(steps', l, settled, n + 1, balance - est, open)
  {
    var s := Run(steps, l).value;
    DebitStands(s, settled, n, balance, open, est);
    Extend(steps, l, Debit(est, s.now, Answered));
    steps' := steps + [Debit(est, s.now, Answered)];
  }

  /** Redis does not get a debit, which passes. */
  lemma PassOne(steps: seq<Step>, l: Limits, settled: nat, n: nat, balance: int, open: nat) returns (steps': seq<Step>)
    requires Stage(steps, l, settled, n, balance, open) && n - settled < l.outstanding
    ensures Stage(steps', l, settled, n + 1, balance, open + 1)
  {
    var s := Run(steps, l).value;
    OpenAppend(s.requests, Outstanding(1, None));
    Extend(steps, l, Debit(1, s.now, NotDelivered));
    steps' := steps + [Debit(1, s.now, NotDelivered)];
  }

  /** The first outstanding request turns out to have used `extra` tokens more than estimated. */
  lemma SettleOne(steps: seq<Step>, l: Limits, settled: nat, n: nat, balance: int, open: nat, extra: nat)
    returns (steps': seq<Step>)
    requires Stage(steps, l, settled, n, balance, open) && settled < n && extra <= l.under && n - settled <= l.outstanding
    ensures Stage(steps', l, settled + 1, n, balance - extra, open)
  {
    var s := Run(steps, l).value;
    var e := Reconcile(settled, s.requests[settled].est + extra, s.now, Answered);
    OpenUpdate(s.requests, settled, Apply(s, e).requests[settled]);
    Extend(steps, l, e);
    steps' := steps + [e];
  }

  /** `a` requests outstanding, each from a lifetime of its own. */
  lemma {:induction false} LeftOver(l: Limits, a: nat, est: nat) returns (steps: seq<Step>)
    requires 1 <= a <= l.outstanding && 1 <= est <= l.first
    ensures Stage(steps, l, 0, a, CAPACITY - est, 0)
  {
    if a == 1 {
      steps := FirstLife(l, est);
    } else {
      steps := LeftOver(l, a - 1, 1);
      steps := NextLife(steps, l, 0, a - 1, CAPACITY - 1, 0, est);
    }
  }

  /** As many outstanding as may be, and the key as low as debits can bring it. */
  lemma BringDown(l: Limits) returns (steps: seq<Step>, settled: nat)
    requires 1 <= l.outstanding && 1 <= l.first
    ensures Stage(steps, l, settled, settled + l.outstanding, -Overdraft(l), 0)
  {
    var k := l.outstanding;
    if l.first >= CAPACITY {
      settled := 0;
      steps := LeftOver(l, k, l.first);
    } else {
      settled := 1;
      steps := LeftOver(l, k, 1);
      steps := SettleOne(steps, l, 0, k, CAPACITY - 1, 0, 0);
      steps := DebitOne(steps, l, 1, k, CAPACITY - 1, 0, CAPACITY - 1);
    }
  }

  lemma {:induction false} SettleTogether(l: Limits, a: nat) returns (steps: seq<Step>, settled: nat, n: nat)
    requires 1 <= l.outstanding && 1 <= l.first && a <= l.outstanding
    ensures n == settled + l.outstanding - a
    ensures Stage(steps, l, settled, n, -Overdraft(l) - Multiple(a, l.under), 0)
  {
    if a == 0 {
      steps, settled := BringDown(l);
      n := settled + l.outstanding;
    } else {
      steps, settled, n := SettleTogether(l, a - 1);
      var balance := -Overdraft(l) - Multiple(a - 1, l.under);
      steps := SettleOne(steps, l, settled, n, balance, 0, l.under);
      assert balance - l.under == -Overdraft(l) - Multiple(a, l.under);
      settled := settled + 1;
    }
  }

  lemma {:induction false} PassAndSettle(l: Limits, open: nat) returns (steps: seq<Step>, n: nat)
    requires 1 <= l.outstanding && 1 <= l.first
    ensures Stage(steps, l, n, n, -Overdraft(l) - Multiple(l.outstanding + open, l.under), open)
  {
    if open == 0 {
      var settled: nat;
      steps, settled, n := SettleTogether(l, l.outstanding);
    } else {
      steps, n := PassAndSettle(l, open - 1);
      var balance := -Overdraft(l) - Multiple(l.outstanding + open - 1, l.under);
      steps := PassOne(steps, l, n, n, balance, open - 1);
      steps := SettleOne(steps, l, n, n + 1, balance, open, l.under);
      n := n + 1;
    }
  }

  /** The floor is exact: for all limits that let a request through, and any number of
      requests passed without a debit, a run ends on it. */
  lemma FloorIsReached(l: Limits, open: nat) returns (steps: seq<Step>)
    requires 1 <= l.outstanding && 1 <= l.first
    ensures Run(steps, l).Some? && Run(steps, l).value.bucket.Present?
    ensures var s := Run(steps, l).value;
      s.failOpen == open && s.bucket.balance == -Overdraft(l) - (l.outstanding + open) * l.under
  {
    var n: nat;
    steps, n := PassAndSettle(l, open);
    MultipleIsProduct(l.outstanding + open, l.under);
  }

  // ---- The daily refresh ---------------------------------------------------

  /** The key goes away within a day, so that the next debit starts from a full
      bucket, exactly if a debit made it; a key made by a reconciliation stays. */
  lemma RefreshesIffMadeByDebit(steps: seq<Step>, l: Limits)
    requires Run(steps, l).Some? && Run(steps, l).value.bucket.Present?
    ensures var s := Run(steps, l).value;
      && (s.byDebit <==> Live(s.bucket, s.now + 86_400_000) == Absent)
      && (s.byDebit ==> forall at: nat | s.now + 86_400_000 <= at :: Live(s.bucket, at) == Absent)
      && (!s.byDebit ==> forall at: nat :: Live(s.bucket, at) == s.bucket)
  {
    Conservation(steps, l);
  }

  /** A reconciliation leaves a key that expires exactly if the key was still live,
      and expiring, when it came. */
  lemma ReconcileKeepsExpiry(s: State, e: Step)
    requires Enabled(s, e) && e.Reconcile? && Committed(e.reply) && e.actual != s.requests[e.i].est
    ensures Apply(s, e).bucket.Present?
    ensures Apply(s, e).bucket.deadline.Some? <==>
      s.bucket.Present? && s.bucket.deadline.Some? && e.at < s.bucket.deadline.value
  {
  }

  // ---- When a tenant is shut out -------------------------------------------

  function RunFrom(s: State, steps: seq<Step>): Option<State>
    decreases |steps|
  {
    if steps == [] then Some(s)
    else if Enabled(s, steps[0]) then RunFrom(Apply(s, steps[0]), steps[1..])
    else None
  }

  predicate DebitsAnswered(steps: seq<Step>)
  {
    forall i | 0 <= i < |steps| && steps[i].Debit? :: steps[i].reply.Answered?
  }

  /** After `steps` Redis refuses a debit of `est` at `at`. */
  ghost predicate RefusedAfter(s: State, steps: seq<Step>, est: nat, at: nat)
  {
    RunFrom(s, steps).Some? && RunFrom(s, steps).value.now <= at ==> Refuses(RunFrom(s, steps).value.bucket, at, est)
  }

  /** However the requests go on, as long as Redis answers debits it refuses them. */
  ghost predicate ShutOut(s: State)
  {
    forall steps: seq<Step>, est: nat, at: nat | DebitsAnswered(steps) && est >= 1 :: RefusedAfter(s, steps, est, at)
  }

  /** The sum of the estimates that may still be given back. */
  function OpenEst(requests: seq<Phase>): nat
  {
    if requests == [] then 0
    else
      var last := requests[|requests| - 1];
      OpenEst(requests[..|requests| - 1]) + if last.Outstanding? then last.est else 0
  }

  /** The key never expires, and holds nothing even if all open estimates come back. */
  predicate Locked(s: State)
  {
    s.bucket.Present? && s.bucket.deadline == None && s.bucket.balance + OpenEst(s.requests) <= 0
  }

  lemma OpenEstAppend(requests: seq<Phase>, p: Phase)
    ensures OpenEst(requests + [p]) == OpenEst(requests) + if p.Outstanding? then p.est else 0
  {
    assert (requests + [p])[..|requests|] == requests;
  }

  lemma {:induction false} OpenEstUpdate(requests: seq<Phase>, i: nat, p: Phase)
    requires i < |requests| && requests[i].Outstanding? && !p.Outstanding?
    ensures OpenEst(requests[i := p]) + requests[i].est == OpenEst(requests)
  {
    var n := |requests| - 1;
    if i < n {
      OpenEstUpdate(requests[..n], i, p);
      assert requests[i := p][..n] == requests[..n][i := p];
    } else {
      assert requests[i := p][..n] == requests[..n];
    }
  }

  lemma LockedStep(s: State, e: Step)
    requires Locked(s) && Enabled(s, e) && (e.Debit? ==> e.reply.Answered?)
    ensures Locked(Apply(s, e))
  {
    if e.Debit? {
      OpenEstAppend(s.requests, Refused);
    } else {
      OpenEstUpdate(s.requests, e.i, Apply(s, e).requests[e.i]);
    }
  }

  lemma {:induction false} StaysLocked(s: State, steps: seq<Step>)
    requires Locked(s) && DebitsAnswered(steps) && RunFrom(s, steps).Some?
    ensures Locked(RunFrom(s, steps).value)
    decreases |steps|
  {
    if steps != [] {
      assert steps[0].Debit? ==> steps[0].reply.Answered?;
      LockedStep(s, steps[0]);
      assert forall i | 0 <= i < |steps| - 1 :: steps[1..][i] == steps[i + 1];
      StaysLocked(Apply(s, steps[0]), steps[1..]);
    }
  }

  lemma {:induction false} SomeOpen(requests: seq<Phase>) returns (i: nat)
    requires OpenEst(requests) > 0
    ensures i < |requests| && requests[i].Outstanding?
  {
    var n := |requests| - 1;
    if requests[n].Outstanding? {
      i := n;
    } else {
      i := SomeOpen(requests[..n]);
    }
  }

  /** A key that never expires, once more tokens could come back than it owes: the open
      requests are settled with nothing used until it holds some. */
  lemma {:induction false} UnlockBySettling(s: State) returns (steps: seq<Step>)
    requires s.bucket.Present? && s.bucket.deadline == None && s.bucket.balance + OpenEst(s.requests) >= 1
    ensures DebitsAnswered(steps) && RunFrom(s, steps).Some?
    ensures var s' := RunFrom(s, steps).value;
      s'.bucket.Present? && s'.bucket.deadline == None && s'.bucket.balance >= 1
    decreases Open(s.requests)
  {
    steps := [];
    if s.bucket.balance < 1 {
      var i := SomeOpen(s.requests);
      var e := Reconcile(i, 0, s.now, Answered);
      var s' := Apply(s, e);
      OpenEstUpdate(s.requests, i, s'.requests[i]);
      OpenUpdate(s.requests, i, s'.requests[i]);
      var rest := UnlockBySettling(s');
      steps := [e] + rest;
      assert steps[1..] == rest;
    }
  }

  lemma UnlockedIsAdmitted(s: State) returns (steps: seq<Step>, at: nat)
    requires !Locked(s)
    ensures DebitsAnswered(steps) && !RefusedAfter(s, steps, 1, at)
  {
    steps, at := [], s.now;
    if s.bucket.Present? {
      if s.bucket.deadline.Some? {
        if s.bucket.deadline.value > at { at := s.bucket.deadline.value; }
      } else {
        steps := UnlockBySettling(s);
        at := RunFrom(s, steps).value.now;
      }
    }
  }

  /** A tenant is shut out for ever exactly if its key never expires and the open
      estimates, all given back, would leave it without tokens. */
  lemma ShutOutIffLocked(s: State)
    ensures ShutOut(s) <==> Locked(s)
  {
    if Locked(s) {
      forall steps: seq<Step>, est: nat, at: nat | DebitsAnswered(steps) && est >= 1
        ensures RefusedAfter(s, steps, est, at)
      {
        if RunFrom(s, steps).Some? { StaysLocked(s, steps); }
      }
    } else {
      var steps, at := UnlockedIsAdmitted(s);
      assert !RefusedAfter(s, steps, 1, at);
    }
  }

  /** A reconciliation that comes when no key is live, and changes it, shuts the tenant
      out exactly if it used at least all estimates then open, its own included. */
  lemma LateReconciliationShutsOut(s: State, e: Step)
    requires Enabled(s, e) && Credits(s, e) && Live(s.bucket, e.at) == Absent
    ensures ShutOut(Apply(s, e)) <==> e.actual >= OpenEst(s.requests)
  {
    OpenEstUpdate(s.requests, e.i, Apply(s, e).requests[e.i]);
    ShutOutIffLocked(Apply(s, e));
  }

  /** It happens: one request, debited a day before its reconciliation. */
  lemma StrandedIsReachable() returns (steps: seq<Step>)
    ensures |steps| == 2 && steps[0] == Debit(1, 0, Answered) && steps[1] == Reconcile(0, 2, 86_400_000, Answered)
    ensures Run(steps, Limits(1, 1, 1)).Some? && ShutOut(Run(steps, Limits(1, 1, 1)).value)
  {
    var l := Limits(1, 1, 1);
    var first, second := Debit(1, 0, Answered), Reconcile(0, 2, 86_400_000, Answered);
    OpenAppend([], Outstanding(1, Some(1)));
    OpenEstAppend([], Outstanding(1, Some(1)));
    Extend([], l, first);
    var s := Apply(START, first);
    assert s.requests == [] + [Outstanding(1, Some(1))];
    OpenUpdate(s.requests, 0, Apply(s, second).requests[0]);
    Extend([] + [first], l, second);
    LateReconciliationShutsOut(s, second);
    steps := [] + [first] + [second];
  }

  /** A first estimate above the capacity is not refused: the balance starts negative. */
  lemma FirstDebitIsUnchecked(s: State, est: nat, at: nat)
    requires s.now <= at && 1 <= est && Live(s.bucket, at) == Absent
    ensures var s' := Apply(s, Debit(est, at, Answered));
      s'.requests == s.requests + [Outstanding(est, Some(s'.life))] && (s'.bucket.balance < 0 <==> est > 100_000)
  {
  }

  // ---- The gateway's calls -------------------------------------------------

  /** There is a key that has not expired. */
  predicate Holds(b: Bucket, at: nat)
  {
    b.Present? && (b.deadline.None? || at < b.deadline.value)
  }

  /** `d` tokens for a prompt of `n` bytes: one for four bytes, and at least one. */
  predicate Takes(d: nat, n: nat)
  {
    1 <= d && 4 * d <= (if n < 4 then 4 else n) < 4 * d + 4
  }

  /** The balance is too small for a prompt of `n` bytes. */
  predicate TooSmall(balance: int, n: nat)
  {
    balance <= 0 || n >= 4 * balance + 4
  }

  /** What one call does, in bytes, tokens and milliseconds: from `b` to `b'`. */
  ghost predicate Enforces(r: Result<(), Error>, b: Bucket, b': Bucket, n: nat, at: nat, reply: Reply)
  {
    var refused := Holds(b, at) && TooSmall(b.balance, n);
    && (r == Err(RateLimitExceeded) <==> reply == Answered && refused)
    && (reply == NotDelivered || refused ==> b' == b)
    && (reply != NotDelivered && !refused ==>
          exists d: nat :: Takes(d, n)
            && b' == if Holds(b, at) then Present(b.balance - d, b.deadline)
                     else Present(100_000 - d, Some(at + 86_400_000)))
  }

  /** The estimate is the only number of tokens a prompt takes; a live key refuses it
      exactly if its balance is too small, and otherwise gives it. */
  lemma EstimateIsTaken(n: nat, b: Bucket, at: nat)
    ensures forall d: nat :: Takes(d, n) <==> d == Estimate(n)
    ensures Refuses(b, at, Estimate(n)) <==> Holds(b, at) && TooSmall(b.balance, n)
    ensures !Refuses(b, at, Estimate(n)) ==>
      Debited(b, at, Estimate(n))
        == if Holds(b, at) then Present(b.balance - Estimate(n), b.deadline)
           else Present(100_000 - Estimate(n), Some(at + 86_400_000))
  {
  }

  /** What the reconciliation of an estimate does to the key. */
  ghost predicate Reconciles(b: Bucket, b': Bucket, est: nat, actual: nat, at: nat, reply: Reply)
  {
    b' == if est == actual || reply == NotDelivered then b
          else if Holds(b, at) then Present(b.balance + est - actual, b.deadline)
          else Present(est - actual, None)
  }

  ghost predicate DebitsTo(s: State, d: nat, at: nat, reply: Reply, r: Result<(), Error>, b': Bucket)
  {
    && Enabled(s, Debit(d, at, reply))
    && var s' := Apply(s, Debit(d, at, reply));
       && s'.bucket == b' && |s'.requests| == |s.requests| + 1
       && (r == Err(RateLimitExceeded) <==> s'.requests[|s.requests|] == Refused)
  }

  /** A call with a prompt of `n` bytes is one debit of a run: the same key after it, and
      refused together. */
  lemma EnforcingIsADebit(s: State, n: nat, at: nat, reply: Reply, r: Result<(), Error>, b': Bucket)
    requires s.now <= at && Enforces(r, s.bucket, b', n, at, reply)
    ensures exists d: nat :: Takes(d, n) && DebitsTo(s, d, at, reply, r, b')
  {
    EstimateIsTaken(n, s.bucket, at);
    assert Takes(Estimate(n), n) && DebitsTo(s, Estimate(n), at, reply, r, b');
  }

  /** A reconciliation is one too. */
  lemma SyncIsAReconcile(s: State, i: nat, actual: nat, at: nat, reply: Reply, b': Bucket)
    requires Enabled(s, Reconcile(i, actual, at, reply))
    ensures Reconciles(s.bucket, b', s.requests[i].est, actual, at, reply)
       <==> Apply(s, Reconcile(i, actual, at, reply)).bucket == b'
  {
  }

  /** One tenant's key. */
  class Tenant {
    var bucket: Bucket

    constructor ()
      ensures bucket == Absent
    {
      bucket := Absent;
    }

    method Script(at: nat, est: nat) returns (allowed: bool)
      modifies this
      ensures allowed == !Refuses(old(bucket), at, est)
      ensures allowed ==> bucket == Debited(old(bucket), at, est)
      ensures !allowed ==> bucket == old(bucket)
    {
      var current := Live(bucket, at);
      if current.Present? {
        if current.balance < est { return false; }
        bucket := Present(current.balance - est, current.deadline);
      } else {
        bucket := Present(CAPACITY, Some(at + TTL_MS));
        bucket := bucket.(balance := bucket.balance - est);
      }
      return true;
    }

    method EnforceTokenBucket(promptLength: nat, at: nat, reply: Reply) returns (r: Result<(), Error>)
      modifies this
      ensures var est := Estimate(promptLength);
        && (r == Err(RateLimitExceeded) <==> reply.Answered? && Refuses(old(bucket), at, est))
        && bucket == if Committed(reply) && !Refuses(old(bucket), at, est)
                     then Debited(old(bucket), at, est) else old(bucket)
      ensures Enforces(r, old(bucket), bucket, promptLength, at, reply)
    {
      var est := Estimate(promptLength);
      EstimateIsTaken(promptLength, bucket, at);
      assert Takes(est, promptLength);
      if reply == NotDelivered { return Ok(()); }
      var allowed := Script(at, est);
      if reply == Answered && !allowed { return Err(RateLimitExceeded); }
      return Ok(());
    }

    method SyncTokenBucket(est: nat, actual: nat, at: nat, reply: Reply)
      modifies this
      ensures bucket == if est != actual && Committed(reply)
                        then Credited(old(bucket), at, est - actual) else old(bucket)
      ensures Reconciles(old(bucket), bucket, est, actual, at, reply)
    {
      var delta := est - actual;
      if delta == 0 { return; }
      if reply == NotDelivered { return; }
      var current := Live(bucket, at);
      bucket := if current.Present? then current.(balance := current.balance + delta) else Present(delta, None);
    }
  }
}
