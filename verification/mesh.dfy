/** The routing mesh the configuration service publishes: each model's keys, grouped
    from the database rows, with a placeholder for a key just registered, by priority.

    The lists are a map from model to keys. The functions say what a model's list is in
    terms of the rows, the methods build all lists at once; the gateway receives them
    sorted and sorts them again. */
module Mesh {
  import opened Keys

  datatype Entry = Entry(model: string, alias: string, apiKey: string, priority: int, weight: int)

  /** The key a request registers. */
  datatype Registration = Registration(model: string, alias: string, priority: int, weight: int)

  type KeyLists = map<string, seq<KeyConfig>>

  /** One model's rows as keys, in row order. */
  function KeysOf(entries: seq<Entry>, model: string): seq<KeyConfig>
  {
    if entries == [] then []
    else
      var e := entries[|entries| - 1];
      KeysOf(entries[..|entries| - 1], model)
      + if e.model == model then [KeyOf(e)] else []
  }

  predicate HasAlias(keys: seq<KeyConfig>, alias: string)
  {
    exists i :: 0 <= i < |keys| && keys[i].alias == alias
  }

  function PlaceholderFor(r: Registration): KeyConfig
  {
    KeyConfig(r.alias, "", r.priority, r.weight)
  }

  /** The rows of a model, and the placeholder if the registered alias has no row. */
  function Slot(entries: seq<Entry>, r: Registration, model: string): seq<KeyConfig>
  {
    var keys := KeysOf(entries, model);
    if model == r.model && !HasAlias(keys, r.alias) then keys + [PlaceholderFor(r)] else keys
  }

  function Models(entries: seq<Entry>): set<string>
  {
    if entries == [] then {} else Models(entries[..|entries| - 1]) + {entries[|entries| - 1].model}
  }

  function KeyOf(e: Entry): KeyConfig
  {
    KeyConfig(e.alias, e.apiKey, e.priority, e.weight)
  }

  /** The lists hold exactly the keys of `entries`. */
  ghost predicate Groups(mesh: KeyLists, entries: seq<Entry>)
  {
    && mesh.Keys == Models(entries)
    && forall m :: KeysOf(entries, m) == if m in mesh then mesh[m] else []
  }

  lemma KeysOfAppend(entries: seq<Entry>, e: Entry, m: string)
    ensures KeysOf(entries + [e], m) == KeysOf(entries, m) + if e.model == m then [KeyOf(e)] else []
    ensures Models(entries + [e]) == Models(entries) + {e.model}
  {
    assert (entries + [e])[..|entries|] == entries;
  }

  function WithKey(mesh: KeyLists, e: Entry): KeyLists
  {
    mesh[e.model := (if e.model in mesh then mesh[e.model] else []) + [KeyOf(e)]]
  }

  lemma GroupsOneMore(mesh: KeyLists, entries: seq<Entry>, e: Entry)
    requires Groups(mesh, entries)
    ensures Groups(WithKey(mesh, e), entries + [e])
  {
    var mesh' := WithKey(mesh, e);
    KeysOfAppend(entries, e, e.model);
    forall m ensures KeysOf(entries + [e], m) == if m in mesh' then mesh'[m] else [] {
      KeysOfAppend(entries, e, m);
      assert KeysOf(entries, m) == if m in mesh then mesh[m] else [];
    }
  }

  lemma PrefixNext(entries: seq<Entry>, i: nat)
    requires i < |entries|
    ensures entries[..i + 1] == entries[..i] + [entries[i]]
  {
  }

  lemma GroupsNext(mesh: KeyLists, entries: seq<Entry>, i: nat)
    requires i < |entries| && Groups(mesh, entries[..i])
    ensures Groups(WithKey(mesh, entries[i]), entries[..i + 1])
  {
    PrefixNext(entries, i);
    GroupsOneMore(mesh, entries[..i], entries[i]);
  }

  method GroupByModel(entries: seq<Entry>) returns (mesh: KeyLists)
    ensures Groups(mesh, entries)
  {
    mesh := map[];
    for i := 0 to |entries|
      invariant Groups(mesh, entries[..i])
    {
      var e := entries[i];
      GroupsNext(mesh, entries, i);
      var keys := if e.model in mesh then mesh[e.model] else [];
      mesh := mesh[e.model := keys + [KeyConfig(e.alias, e.apiKey, e.priority, e.weight)]];
    }
    assert entries[..|entries|] == entries;
  }

  method IsPresent(keys: seq<KeyConfig>, alias: string) returns (present: bool)
    ensures present <==> HasAlias(keys, alias)
  {
    for i := 0 to |keys|
      invariant forall j | 0 <= j < i :: keys[j].alias != alias
    {
      if keys[i].alias == alias { return true; }
    }
    return false;
  }

  method SortEach(lists: KeyLists) returns (mesh: KeyLists)
    ensures mesh.Keys == lists.Keys
    ensures forall m | m in mesh :: mesh[m] == SortByPriority(lists[m])
  {
    mesh := lists;
    var todo := mesh.Keys;
    while todo != {}
      invariant mesh.Keys == lists.Keys && todo <= mesh.Keys
      invariant forall m | m in mesh :: mesh[m] == if m in todo then lists[m] else SortByPriority(lists[m])
      decreases todo
    {
      var m :| m in todo;
      mesh := mesh[m := SortByPriority(mesh[m])];
      todo := todo - {m};
    }
  }

  function Placed(mesh: KeyLists, r: Registration): KeyLists
  {
    var keys := if r.model in mesh then mesh[r.model] else [];
    mesh[r.model := if HasAlias(keys, r.alias) then keys else keys + [PlaceholderFor(r)]]
  }

  lemma PlacedAreSlots(mesh: KeyLists, entries: seq<Entry>, r: Registration)
    requires Groups(mesh, entries)
    ensures Placed(mesh, r).Keys == Models(entries) + {r.model}
    ensures forall m | m in Placed(mesh, r) :: Placed(mesh, r)[m] == Slot(entries, r, m)
  {
    assert KeysOf(entries, r.model) == if r.model in mesh then mesh[r.model] else [];
    forall m | m in Placed(mesh, r) ensures Placed(mesh, r)[m] == Slot(entries, r, m) {
      assert KeysOf(entries, m) == if m in mesh then mesh[m] else [];
    }
  }

  method Place(lists: KeyLists, r: Registration) returns (mesh: KeyLists)
    ensures mesh == Placed(lists, r)
  {
    mesh := lists;
    if r.model !in mesh { mesh := mesh[r.model := []]; }
    var present := IsPresent(mesh[r.model], r.alias);
    if !present { mesh := mesh[r.model := mesh[r.model] + [PlaceholderFor(r)]]; }
  }

  /** Grouping, placeholder and sort of `upsert_routing_mesh`. */
  method UpsertRoutingMesh(entries: seq<Entry>, r: Registration) returns (mesh: KeyLists)
    ensures mesh.Keys == Models(entries) + {r.model}
    ensures forall m | m in mesh :: mesh[m] == SortByPriority(Slot(entries, r, m))
  {
    mesh := GroupByModel(entries);
    PlacedAreSlots(mesh, entries, r);
    mesh := Place(mesh, r);
    mesh := SortEach(mesh);
  }

  /** Each published list is a stable sort of the model's rows, with one placeholder
      more on the registered model exactly if its alias had no row; so afterwards the
      alias is there, and the gateway's own sort changes nothing. */
  lemma PublishedOrder(entries: seq<Entry>, r: Registration, m: string)
    ensures var slot := Slot(entries, r, m);
      var published := SortByPriority(slot);
      && StablySorts(published, slot)
      && multiset(published) == multiset(slot)
      && multiset(slot) == multiset(KeysOf(entries, m))
           + (if m == r.model && !HasAlias(KeysOf(entries, m), r.alias) then multiset{PlaceholderFor(r)} else multiset{})
      && (m == r.model ==> HasAlias(published, r.alias))
      && SortByPriority(published) == published
  {
    var slot := Slot(entries, r, m);
    var published := SortByPriority(slot);
    SortIsStable(slot);
    SortedIsFixed(published);
    if m == r.model {
      var i :| 0 <= i < |slot| && slot[i].alias == r.alias by {
        if !HasAlias(KeysOf(entries, m), r.alias) { assert slot[|slot| - 1].alias == r.alias; }
      }
      assert slot[i] in multiset(published);
      assert slot[i] in published;
    }
  }

  // ---- What the keys carry -------------------------------------------------

  /** The model's row has the key's alias, credential, priority and weight. */
  predicate IsRow(e: Entry, m: string, k: KeyConfig)
  {
    e.model == m && e.alias == k.alias && e.apiKey == k.apiKey && e.priority == k.priority && e.weight == k.weight
  }

  /** The rows of the model that are this key. */
  function RowsAs(entries: seq<Entry>, m: string, k: KeyConfig): set<nat>
  {
    set i: nat | i < |entries| && IsRow(entries[i], m, k)
  }

  lemma RowsOfLast(entries: seq<Entry>, m: string, k: KeyConfig)
    requires entries != []
    ensures var n := |entries| - 1;
      |RowsAs(entries, m, k)| == |RowsAs(entries[..n], m, k)| + if IsRow(entries[n], m, k) then 1 else 0
  {
    var n := |entries| - 1;
    assert RowsAs(entries, m, k) == RowsAs(entries[..n], m, k) + if IsRow(entries[n], m, k) then {n} else {};
  }

  lemma KeyOfLast(entries: seq<Entry>, m: string, k: KeyConfig)
    requires entries != []
    ensures var n := |entries| - 1;
      multiset(KeysOf(entries, m))[k] == multiset(KeysOf(entries[..n], m))[k] + if IsRow(entries[n], m, k) then 1 else 0
  {
    var e := entries[|entries| - 1];
    assert IsRow(e, m, k) <==> e.model == m && KeyOf(e) == k;
  }

  lemma {:induction false} RowsAreCounted(entries: seq<Entry>, m: string, k: KeyConfig)
    ensures multiset(KeysOf(entries, m))[k] == |RowsAs(entries, m, k)|
  {
    if entries != [] {
      RowsOfLast(entries, m, k);
      KeyOfLast(entries, m, k);
      RowsAreCounted(entries[..|entries| - 1], m, k);
    }
  }

  predicate HasRow(entries: seq<Entry>, m: string, alias: string)
  {
    exists i :: 0 <= i < |entries| && entries[i].model == m && entries[i].alias == alias
  }

  lemma {:induction false} AliasIffRow(entries: seq<Entry>, m: string, alias: string)
    ensures HasAlias(KeysOf(entries, m), alias) <==> HasRow(entries, m, alias)
  {
    if entries != [] {
      var n := |entries| - 1;
      var before := KeysOf(entries[..n], m);
      AliasIffRow(entries[..n], m, alias);
      assert HasAlias(KeysOf(entries, m), alias)
        <==> HasAlias(before, alias) || (entries[n].model == m && entries[n].alias == alias) by {
        if HasAlias(before, alias) {
          var i :| 0 <= i < |before| && before[i].alias == alias;
          assert KeysOf(entries, m)[i].alias == alias;
        }
        assert entries[n].model == m ==> KeysOf(entries, m)[|before|] == KeyOf(entries[n]);
      }
      assert HasRow(entries, m, alias)
        <==> HasRow(entries[..n], m, alias) || (entries[n].model == m && entries[n].alias == alias) by {
        if HasRow(entries[..n], m, alias) {
          var i :| 0 <= i < n && entries[..n][i].model == m && entries[..n][i].alias == alias;
          assert entries[i].model == m;
        }
      }
    }
  }

  /** A model's published keys are its rows, each as often as it stands there with its own
      alias, credential, priority and weight, and for the registered model a key without
      credential if its alias has no row. */
  lemma PublishedKeysAreRows(entries: seq<Entry>, r: Registration, m: string, k: KeyConfig)
    ensures multiset(SortByPriority(Slot(entries, r, m)))[k]
         == |RowsAs(entries, m, k)|
            + if m == r.model && !HasRow(entries, m, r.alias) && k == KeyConfig(r.alias, "", r.priority, r.weight)
              then 1 else 0
  {
    PublishedOrder(entries, r, m);
    RowsAreCounted(entries, m, k);
    AliasIffRow(entries, m, r.alias);
  }

  /** `rows` are the places of the model's rows in ascending order. */
  ghost predicate AreRows(rows: seq<nat>, entries: seq<Entry>, m: string)
  {
    && (forall k | 0 <= k < |rows| :: rows[k] < |entries| && entries[rows[k]].model == m)
    && (forall j, k | 0 <= j < k < |rows| :: rows[j] < rows[k])
    && forall i: nat | i < |entries| && entries[i].model == m :: i in rows
  }

  lemma RowsAfterMatch(rows: seq<nat>, entries: seq<Entry>, m: string)
    requires entries != [] && AreRows(rows, entries[..|entries| - 1], m) && entries[|entries| - 1].model == m
    ensures AreRows(rows + [|entries| - 1], entries, m)
  {
    var n := |entries| - 1;
    var rows' := rows + [n];
    forall i: nat | i < |entries| && entries[i].model == m ensures i in rows' {
      if i == n {
        assert rows'[|rows|] == n;
      } else {
        assert entries[..n][i] == entries[i];
        assert i in rows;
      }
    }
  }

  lemma RowsAfterOther(rows: seq<nat>, entries: seq<Entry>, m: string)
    requires entries != [] && AreRows(rows, entries[..|entries| - 1], m) && entries[|entries| - 1].model != m
    ensures AreRows(rows, entries, m)
  {
    var n := |entries| - 1;
    forall i: nat | i < |entries| && entries[i].model == m ensures i in rows { assert entries[..n][i] == entries[i]; }
  }

  /** The k-th key is the k-th of the rows. */
  ghost predicate KeysAreRows(keys: seq<KeyConfig>, rows: seq<nat>, entries: seq<Entry>, m: string)
  {
    |keys| == |rows| && forall k | 0 <= k < |rows| :: rows[k] < |entries| && IsRow(entries[rows[k]], m, keys[k])
  }

  lemma KeysAreRowsOfMore(keys: seq<KeyConfig>, rows: seq<nat>, entries: seq<Entry>, m: string)
    requires entries != [] && KeysAreRows(keys, rows, entries[..|entries| - 1], m)
    ensures KeysAreRows(keys, rows, entries, m)
  {
  }

  lemma NextKey(keys: seq<KeyConfig>, rows: seq<nat>, entries: seq<Entry>, m: string)
    requires entries != [] && KeysAreRows(keys, rows, entries[..|entries| - 1], m) && entries[|entries| - 1].model == m
    ensures KeysAreRows(keys + [KeyOf(entries[|entries| - 1])], rows + [|entries| - 1], entries, m)
  {
    KeysAreRowsOfMore(keys, rows, entries, m);
  }

  lemma KeysOfLast(entries: seq<Entry>, m: string)
    requires entries != []
    ensures var n := |entries| - 1;
      var before := KeysOf(entries[..n], m);
      && (entries[n].model == m ==> KeysOf(entries, m) == before + [KeyOf(entries[n])])
      && (entries[n].model != m ==> KeysOf(entries, m) == before)
  {
  }

  lemma {:induction false} RowsInOrder(entries: seq<Entry>, m: string) returns (rows: seq<nat>)
    ensures AreRows(rows, entries, m)
    ensures KeysAreRows(KeysOf(entries, m), rows, entries, m)
  {
    if entries == [] {
      rows := [];
    } else {
      var n := |entries| - 1;
      var before := RowsInOrder(entries[..n], m);
      KeysOfLast(entries, m);
      if entries[n].model == m {
        RowsAfterMatch(before, entries, m);
        NextKey(KeysOf(entries[..n], m), before, entries, m);
        rows := before + [n];
      } else {
        RowsAfterOther(before, entries, m);
        KeysAreRowsOfMore(KeysOf(entries[..n], m), before, entries, m);
        rows := before;
      }
    }
  }

  /** What is sorted for publication: the model's rows in row order, and behind them the
      key without credential. */
  lemma SlotIsRows(entries: seq<Entry>, r: Registration, m: string) returns (rows: seq<nat>)
    ensures AreRows(rows, entries, m)
    ensures var slot := Slot(entries, r, m);
      && |slot| == |rows| + (if m == r.model && !HasRow(entries, m, r.alias) then 1 else 0)
      && (forall k | 0 <= k < |rows| :: IsRow(entries[rows[k]], m, slot[k]))
      && (|slot| > |rows| ==> slot[|rows|] == KeyConfig(r.alias, "", r.priority, r.weight))
  {
    rows := RowsInOrder(entries, m);
    AliasIffRow(entries, m, r.alias);
  }
}
