/** The loop detector: the last five body hashes of a session in a Redis list,
    read by one command and extended by a later one. */
module LoopDetection {
  import opened Wrappers

  const LOOP_WINDOW: nat := 3
  const MAX_HISTORY: nat := 5
  const SESSION_HASH_TTL_MS: nat := 3_600_000

  /** Opaque, compared for equality. */
  type Hash = string

  datatype Error = LoopDetected

  /** The Redis list, newest hash first, with its expiry. */
  datatype Store = Store(hashes: seq<Hash>, deadline: nat)

  const EMPTY := Store([], 0)

  function Live(store: Store, at: nat): seq<Hash>
  {
    if at < store.deadline then store.hashes else []
  }

  function Take<T>(s: seq<T>, n: nat): (t: seq<T>)
  {
    if |s| <= n then s else s[..n]
  }

  /** The newest `LOOP_WINDOW` hashes exist and all equal `h`. */
  predicate IsLoop(hashes: seq<Hash>, h: Hash)
  {
    var recent := Take(hashes, LOOP_WINDOW);
    |recent| >= LOOP_WINDOW && forall i | 0 <= i < |recent| :: recent[i] == h
  }

  /** LPUSH, LTRIM and EXPIRE. */
  function PushStore(store: Store, at: nat, h: Hash): Store
  {
    Store(Take([h] + Live(store, at), MAX_HISTORY), at + SESSION_HASH_TTL_MS)
  }

  // ---- Runs ----------------------------------------------------------------

  /** A request that has read the list and not yet pushed is known by its hash alone, so
      the requests in flight are a multiset. `history` holds every hash recorded in the present lifetime of the list,
      newest first and never trimmed. */
  datatype State = State(store: Store, now: nat, pending: multiset<Hash>, history: seq<Hash>)

  /** `Check(h, at, answered)` is a request's LRANGE and comparison; `Push` is its pipeline. */
  datatype Step = Check(h: Hash, at: nat, answered: bool) | Push(h: Hash, at: nat, reply: Reply)

  const START := State(EMPTY, 0, multiset{}, [])

  predicate Enabled(s: State, e: Step)
  {
    s.now <= e.at && (e.Push? ==> e.h in s.pending)
  }

  function Apply(s: State, e: Step): State
    requires Enabled(s, e)
  {
    match e
    case Check(h, at, answered) =>
      var records := answered && !IsLoop(Live(s.store, at), h);
      s.(now := at, pending := if records then s.pending + multiset{h} else s.pending)
    case Push(h, at, reply) =>
      var older := if at < s.store.deadline then s.history else [];
      s.(now := at, pending := s.pending - multiset{h},
         store := if Committed(reply) then PushStore(s.store, at, h) else s.store,
         history := if Committed(reply) then [h] + older else s.history)
  }

  /** The state `steps` lead to from `START` with at most `k` requests ever in flight. */
  function Run(steps: seq<Step>, k: nat): Option<State>
  {
    if steps == [] then Some(START)
    else
      var n := |steps| - 1;
      match Run(steps[..n], k)
      case None => None
      case Some(s) =>
        if Enabled(s, steps[n]) && |Apply(s, steps[n]).pending| <= k then Some(Apply(s, steps[n])) else None
  }

  // ---- The bound -----------------------------------------------------------

  predicate AllEqual(hashes: seq<Hash>)
  {
    forall i | 0 < i < |hashes| :: hashes[i] == hashes[0]
  }

  /** No stretch of equal neighbours is longer than `n`. */
  predicate NoRunLongerThan(hashes: seq<Hash>, n: nat)
  {
    forall i, j | 0 <= i <= j <= |hashes| && AllEqual(hashes[i..j]) :: j - i <= n
  }

  /** Length of the run of equal hashes at the newest end. */
  function TopRun(hashes: seq<Hash>): nat
  {
    if |hashes| <= 1 then |hashes|
    else if hashes[0] == hashes[1] then 1 + TopRun(hashes[1..])
    else 1
  }

  lemma {:induction false} TopRunBounds(hashes: seq<Hash>, j: nat)
    requires j <= |hashes| && AllEqual(hashes[..j])
    ensures j <= TopRun(hashes)
  {
    if j > 1 {
      assert hashes[..j][1] == hashes[..j][0];
      assert hashes[1..][..j - 1] == hashes[..j][1..];
      TopRunBounds(hashes[1..], j - 1);
    }
  }

  lemma NoRunAfterPush(hashes: seq<Hash>, h: Hash, n: nat)
    requires NoRunLongerThan(hashes, n) && TopRun([h] + hashes) <= n
    ensures NoRunLongerThan([h] + hashes, n)
  {
    var all := [h] + hashes;
    forall i, j | 0 <= i <= j <= |all| && AllEqual(all[i..j]) ensures j - i <= n {
      if i == 0 {
        TopRunBounds(all, j);
      } else {
        assert all[i..j] == hashes[i - 1..j - 1];
      }
    }
  }

  /** The stored list is the whole history cut to five, and while it is live a run
      of three or more leaves room for every request in flight that can extend it. */
  ghost predicate Invariant(s: State, k: nat)
  {
    && s.store.hashes == Take(s.history, 5)
    && |s.pending| <= k
    && NoRunLongerThan(s.history, k + 2)
    && (s.now < s.store.deadline && TopRun(s.history) >= 3 ==>
          TopRun(s.history) + s.pending[s.history[0]] <= k + 2)
  }

  lemma TopRunIsLoop(history: seq<Hash>, h: Hash)
    ensures IsLoop(history, h) <==> TopRun(history) >= 3 && history[0] == h
    ensures IsLoop(Take(history, 5), h) <==> IsLoop(history, h)
  {
    if |history| >= 3 {
      assert history[..3] == [history[0], history[1], history[2]];
      assert TopRun(history[1..]) >= 2 <==> history[1] == history[2];
      var kept := Take(history, MAX_HISTORY);
      assert kept[..3] == history[..3];
      assert Take(kept, LOOP_WINDOW) == Take(history, LOOP_WINDOW);
    }
  }

  lemma Preserved(s: State, e: Step, k: nat)
    requires Enabled(s, e) && Invariant(s, k) && |Apply(s, e).pending| <= k
    ensures Invariant(Apply(s, e), k)
  {
    var s' := Apply(s, e);
    TopRunIsLoop(s.history, e.h);
    if e.Push? && Committed(e.reply) {
      var older := if e.at < s.store.deadline then s.history else [];
      assert s'.history[1..] == older;
      NoRunAfterPush(older, e.h, k + 2);
    }
  }

  /** Within one lifetime of the list, with at most `k` requests between their check
      and their push, no run of equal recorded hashes is longer than `k + 2`: three
      when requests come one at a time. Trimming the list to five hashes never
      changes what the check of three reads. */
  lemma {:induction false} LoopsAreCut(steps: seq<Step>, k: nat)
    requires Run(steps, k).Some?
    ensures Invariant(Run(steps, k).value, k)
    ensures var s := Run(steps, k).value;
      && NoRunLongerThan(s.history, k + 2)
      && forall h: Hash :: IsLoop(s.store.hashes, h) <==> IsLoop(s.history, h)
  {
    if steps == [] {
    } else {
      var n := |steps| - 1;
      LoopsAreCut(steps[..n], k);
      Preserved(Run(steps[..n], k).value, steps[n], k);
    }
    forall h: Hash ensures IsLoop(Run(steps, k).value.store.hashes, h) <==> IsLoop(Run(steps, k).value.history, h) {
      TopRunIsLoop(Run(steps, k).value.history, h);
    }
  }

  // ---- The bound is reached ------------------------------------------------

  lemma Extend(steps: seq<Step>, k: nat, e: Step)
    requires Run(steps, k).Some?
    requires var s := Run(steps, k).value; Enabled(s, e) && |Apply(s, e).pending| <= k
    ensures Run(steps + [e], k) == Some(Apply(Run(steps, k).value, e))
  {
    assert (steps + [e])[..|steps|] == steps;
  }

  /** At time 0: `n` recorded hashes and `p` requests in flight, all with hash `h`. */
  ghost predicate Uniform(steps: seq<Step>, k: nat, h: Hash, p: nat, n: nat)
  {
    && Run(steps, k).Some?
    && var s := Run(steps, k).value;
       && s.now == 0 && |s.pending| == s.pending[h] == p && |s.history| == n
       && (forall i | 0 <= i < n :: s.history[i] == h)
       && s.store.hashes == Take(s.history, MAX_HISTORY)
       && (n > 0 ==> 0 < s.store.deadline)
  }

  lemma AddCheck(steps: seq<Step>, k: nat, h: Hash, p: nat, n: nat)
    requires Uniform(steps, k, h, p, n) && p < k && n < LOOP_WINDOW
    ensures Uniform(steps + [Check(h, 0, true)], k, h, p + 1, n)
  {
    Extend(steps, k, Check(h, 0, true));
  }

  lemma AddPush(steps: seq<Step>, k: nat, h: Hash, p: nat, n: nat)
    requires Uniform(steps, k, h, p, n) && 0 < p <= k
    ensures Uniform(steps + [Push(h, 0, Answered)], k, h, p - 1, n + 1)
  {
    Extend(steps, k, Push(h, 0, Answered));
    var s := Run(steps, k).value;
    if n > 0 {
      assert Take([h] + Take(s.history, MAX_HISTORY), MAX_HISTORY) == Take([h] + s.history, MAX_HISTORY);
    }
  }

  /** For every `k` the bound is exact: `k` requests with one hash that all check
      behind the same two recorded hashes are all recorded. */
  lemma RunOfKPlusTwo(h: Hash, k: nat) returns (steps: seq<Step>)
    requires k >= 1
    ensures Run(steps, k).Some?
    ensures var history := Run(steps, k).value.history; |history| == k + 2 && AllEqual(history)
  {
    steps := [];
    AddCheck(steps, k, h, 0, 0);
    AddPush(steps + [Check(h, 0, true)], k, h, 1, 0);
    steps := steps + [Check(h, 0, true)] + [Push(h, 0, Answered)];
    AddCheck(steps, k, h, 0, 1);
    AddPush(steps + [Check(h, 0, true)], k, h, 1, 1);
    steps := steps + [Check(h, 0, true)] + [Push(h, 0, Answered)];
    for i := 0 to k
      invariant Uniform(steps, k, h, i, 2)
    {
      AddCheck(steps, k, h, i, 2);
      steps := steps + [Check(h, 0, true)];
    }
    for i := 0 to k
      invariant Uniform(steps, k, h, k - i, 2 + i)
    {
      AddPush(steps, k, h, k - i, 2 + i);
      steps := steps + [Push(h, 0, Answered)];
    }
  }

  // ---- One call, as the gateway makes it -----------------------------------

  /** A request's check and push with nothing in between and Redis answering both. */
  function Call(store: Store, at: nat, h: Hash): (Store, Result<(), Error>)
  {
    if IsLoop(Live(store, at), h) then (store, Err(LoopDetected)) else (PushStore(store, at, h), Ok(()))
  }

  lemma CallIsItsSteps(s: State, at: nat, h: Hash)
    requires s.now <= at
    ensures var s1 := Apply(s, Check(h, at, true));
      if Call(s.store, at, h).1.Ok? then
        && Enabled(s1, Push(h, at, Answered))
        && Apply(s1, Push(h, at, Answered)).store == Call(s.store, at, h).0
      else s1.store == s.store && s1.pending == s.pending
  {
  }

  /** One session's Redis list. */
  class SessionHashes {
    var hashes: seq<Hash>
    var deadline: nat

    function View(): Store
      reads this
    {
      Store(hashes, deadline)
    }

    constructor ()
      ensures View() == EMPTY
    {
      hashes, deadline := [], 0;
    }

    /** LRANGE key 0 2 and the comparison. `None` is a failed read. */
    method Check(at: nat, h: Hash, answered: bool) returns (r: Option<Result<(), Error>>)
      ensures r == if !answered then None
                   else if IsLoop(Live(View(), at), h) then Some(Err(LoopDetected)) else Some(Ok(()))
    {
      if !answered { return None; }
      var recent := if at < deadline then Take(hashes, LOOP_WINDOW) else [];
      var all := true;
      for i := 0 to |recent|
        invariant all <==> forall j | 0 <= j < i :: recent[j] == h
      {
        if recent[i] != h { all := false; }
      }
      return if |recent| >= LOOP_WINDOW && all then Some(Err(LoopDetected)) else Some(Ok(()));
    }

    /** The LPUSH, LTRIM and EXPIRE pipeline, when the server runs it. */
    method Push(at: nat, h: Hash)
      modifies this
      ensures View() == PushStore(old(View()), at, h)
      ensures hashes == Take([h] + (if at < old(deadline) then old(hashes) else []), 5) && deadline == at + 3_600_000
    {
      if at >= deadline { hashes := []; }
      hashes := [h] + hashes;
      if |hashes| > MAX_HISTORY { hashes := hashes[..MAX_HISTORY]; }
      deadline := at + SESSION_HASH_TTL_MS;
    }

    /** `read` says whether LRANGE answered; `reply` how the push ended. */
    method EnforceLoopDetection(at: nat, h: Hash, read: bool, reply: Reply) returns (r: Result<(), Error>)
      modifies this
      ensures read && Committed(reply) ==> (View(), r) == Call(old(View()), at, h)
      ensures !read || !Committed(reply) ==> View() == old(View())
      ensures !read ==> r == Ok(())
      ensures read ==> r == Call(old(View()), at, h).1
    {
      var checked := Check(at, h, read);
      if checked == None { return Ok(()); }
      if checked == Some(Err(LoopDetected)) { return Err(LoopDetected); }
      if reply != NotDelivered { Push(at, h); }
      return Ok(());
    }
  }
}
