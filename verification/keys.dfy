/** Provider keys and the stable sort by priority that both the mesh builder and the
    gateway apply to them.

    Insertion stands for the library's stable sort: a list in priority order that keeps
    the order within each priority is unique, so that any stable sort gives the same. */
module Keys {

  datatype KeyConfig = KeyConfig(alias: string, apiKey: string, priority: int, weight: int)

  function Insert(k: KeyConfig, sorted: seq<KeyConfig>): seq<KeyConfig>
  {
    if sorted == [] || k.priority <= sorted[0].priority then [k] + sorted
    else [sorted[0]] + Insert(k, sorted[1..])
  }

  /** `sort_by_key(|k| k.priority)` */
  function SortByPriority(keys: seq<KeyConfig>): seq<KeyConfig>
  {
    if keys == [] then [] else Insert(keys[0], SortByPriority(keys[1..]))
  }

  predicate Sorted(keys: seq<KeyConfig>)
  {
    forall i, j | 0 <= i < j < |keys| :: keys[i].priority <= keys[j].priority
  }

  function OfPriority(keys: seq<KeyConfig>, p: int): seq<KeyConfig>
  {
    if keys == [] then []
    else if keys[0].priority == p then [keys[0]] + OfPriority(keys[1..], p)
    else OfPriority(keys[1..], p)
  }

  /** `sorted` is `keys` in priority order, keys of one priority in their old order. */
  ghost predicate StablySorts(sorted: seq<KeyConfig>, keys: seq<KeyConfig>)
  {
    Sorted(sorted) && forall p: int :: OfPriority(sorted, p) == OfPriority(keys, p)
  }

  lemma {:induction false} InsertKeepsOrder(k: KeyConfig, sorted: seq<KeyConfig>)
    requires Sorted(sorted)
    ensures Sorted(Insert(k, sorted))
  {
    if sorted != [] && k.priority > sorted[0].priority {
      var rest := Insert(k, sorted[1..]);
      InsertKeepsOrder(k, sorted[1..]);
      forall i | 0 <= i < |rest| ensures sorted[0].priority <= rest[i].priority {
        InsertedIsThere(k, sorted[1..], i);
      }
    }
  }

  lemma {:induction false} InsertKeepsKeys(k: KeyConfig, sorted: seq<KeyConfig>)
    ensures multiset(Insert(k, sorted)) == multiset{k} + multiset(sorted)
  {
    if sorted != [] {
      assert sorted == [sorted[0]] + sorted[1..];
      InsertKeepsKeys(k, sorted[1..]);
    }
  }

  lemma {:induction false} InsertedIsThere(k: KeyConfig, sorted: seq<KeyConfig>, i: nat)
    requires i < |Insert(k, sorted)|
    ensures Insert(k, sorted)[i] == k || Insert(k, sorted)[i] in sorted
  {
    if sorted != [] && k.priority > sorted[0].priority && i > 0 { InsertedIsThere(k, sorted[1..], i - 1); }
  }

  lemma PriorityOfCons(k: KeyConfig, rest: seq<KeyConfig>, p: int)
    ensures OfPriority([k] + rest, p) == (if k.priority == p then [k] else []) + OfPriority(rest, p)
  {
    assert ([k] + rest)[1..] == rest;
  }

  lemma {:induction false} InsertIsStable(k: KeyConfig, sorted: seq<KeyConfig>, p: int)
    ensures OfPriority(Insert(k, sorted), p) == OfPriority([k] + sorted, p)
  {
    if sorted != [] && k.priority > sorted[0].priority {
      InsertIsStable(k, sorted[1..], p);
      PriorityOfCons(sorted[0], Insert(k, sorted[1..]), p);
      PriorityOfCons(k, sorted[1..], p);
      PriorityOfCons(k, sorted, p);
    }
  }

  lemma {:induction false} SortIsStable(keys: seq<KeyConfig>)
    ensures StablySorts(SortByPriority(keys), keys)
    ensures multiset(SortByPriority(keys)) == multiset(keys)
  {
    if keys != [] {
      var rest := SortByPriority(keys[1..]);
      SortIsStable(keys[1..]);
      InsertKeepsOrder(keys[0], rest);
      InsertKeepsKeys(keys[0], rest);
      assert keys == [keys[0]] + keys[1..];
      forall p: int ensures OfPriority(SortByPriority(keys), p) == OfPriority(keys, p) {
        InsertIsStable(keys[0], rest, p);
        PriorityOfCons(keys[0], rest, p);
        PriorityOfCons(keys[0], keys[1..], p);
      }
    }
  }

  lemma {:induction false} PriorityIsThere(keys: seq<KeyConfig>, p: int) returns (i: nat)
    requires OfPriority(keys, p) != []
    ensures i < |keys| && keys[i].priority == p
  {
    if keys[0].priority == p {
      i := 0;
    } else {
      i := PriorityIsThere(keys[1..], p);
      i := i + 1;
    }
  }

  /** Being a stable sort of the same keys determines the list. */
  lemma {:induction false} StableSortIsUnique(a: seq<KeyConfig>, b: seq<KeyConfig>)
    requires Sorted(a) && StablySorts(b, a)
    ensures a == b
  {
    assert b != [] ==> OfPriority(b, b[0].priority) == OfPriority(a, b[0].priority);
    if a != [] {
      var p := a[0].priority;
      assert OfPriority(b, p) == OfPriority(a, p);
      var i := PriorityIsThere(b, p);
      var j := PriorityIsThere(a, b[0].priority);
      assert b[0].priority == p;
      assert OfPriority(b, p)[0] == b[0] && OfPriority(a, p)[0] == a[0];
      forall q: int ensures OfPriority(b[1..], q) == OfPriority(a[1..], q) {
        assert OfPriority(b, q) == OfPriority(a, q);
        if q == p {
          assert OfPriority(b[1..], q) == OfPriority(b, q)[1..];
          assert OfPriority(a[1..], q) == OfPriority(a, q)[1..];
        }
      }
      StableSortIsUnique(a[1..], b[1..]);
      assert a == [a[0]] + a[1..] && b == [b[0]] + b[1..];
    }
  }

  /** Sorting a sorted list changes nothing. */
  lemma SortedIsFixed(keys: seq<KeyConfig>)
    requires Sorted(keys)
    ensures SortByPriority(keys) == keys
  {
    SortIsStable(keys);
    StableSortIsUnique(keys, SortByPriority(keys));
  }
}
