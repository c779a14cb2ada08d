/**
  The scenario store: named scenario records and an index of their names,
  kept in the browser's key-value store. Each record lives under the key
  `airudder_scenario_<name>`; the index, a list of `{name, timestamp}`
  entries, lives under `airudder_scenarios_list`. Every other key belongs to
  someone else and is never touched.

  The store holds values rather than JSON text: `Entry` says what a key
  holds once parsed. The time of a save is a parameter.
 */
module Storage {
  import opened Wrappers
  import opened Values
  import Text

  const ScenarioKeyPrefix: string := "airudder_scenario_"
  const ScenariosListKey: string := "airudder_scenarios_list"

  /** One index entry. The timestamp is whatever the saved record's `timestamp` field holds. */
  datatype IndexEntry = IndexEntry(name: string, timestamp: Value)

  /** What a key of the store holds: a scenario record, the index, or text written by someone else. */
  datatype Entry = Scenario(record: Record) | Index(entries: seq<IndexEntry>) | Foreign(text: string)

  type Store = map<string, Entry>

  function ScenarioKey(name: string): (k: string)
    ensures |k| == |ScenarioKeyPrefix| + |name| && k[..|ScenarioKeyPrefix|] == ScenarioKeyPrefix
  {
    ScenarioKeyPrefix + name
  }

  predicate IsScenarioKey(k: string) {
    |k| >= |ScenarioKeyPrefix| && k[..|ScenarioKeyPrefix|] == ScenarioKeyPrefix
  }

  /** The index key is not the key of any scenario, so records and the index never overwrite each other. */
  lemma ListKeyIsNoScenarioKey()
    ensures !IsScenarioKey(ScenariosListKey)
  {
    assert ScenariosListKey[17] == 's' && ScenarioKeyPrefix[17] == '_';
  }

  /** Different names are kept under different keys. */
  lemma ScenarioKeyInjective(a: string, b: string)
    requires ScenarioKey(a) == ScenarioKey(b)
    ensures a == b
  {
    assert a == ScenarioKey(a)[|ScenarioKeyPrefix|..];
    assert b == ScenarioKey(b)[|ScenarioKeyPrefix|..];
  }

  /** `!name || !name.trim()` fails: the name is present and not all whitespace. */
  predicate ValidName(name: Option<string>) {
    name.Some? && Text.Trim(name.value) != []
  }

  /** The name a valid name is stored under. */
  function Trimmed(name: Option<string>): string
    requires ValidName(name)
  {
    Text.Trim(name.value)
  }

  // ---------------------------------------------------------------------------
  // Reading the store

  /** `listScenarios` on a store: the index, or the empty list when there is none. */
  function ListOf(store: Store): (r: seq<IndexEntry>)
    ensures ScenariosListKey !in store ==> r == []
    ensures ScenariosListKey in store && store[ScenariosListKey].Index? ==> r == store[ScenariosListKey].entries
  {
    if ScenariosListKey in store && store[ScenariosListKey].Index? then store[ScenariosListKey].entries else []
  }

  /** The record kept under a (trimmed) name, if any. */
  function RecordOf(store: Store, name: string): (r: Option<Record>)
    ensures r.Some? <==> ScenarioKey(name) in store && store[ScenarioKey(name)].Scenario?
    ensures r.Some? ==> store[ScenarioKey(name)] == Scenario(r.value)
  {
    var key := ScenarioKey(name);
    if key in store && store[key].Scenario? then Some(store[key].record) else None
  }

  /** `loadScenario` on a store: nothing for an invalid name, else the record under the trimmed name. */
  function LoadOf(store: Store, name: Option<string>): (r: Option<Record>)
    ensures !ValidName(name) ==> r == None
    ensures ValidName(name) ==> r == RecordOf(store, Trimmed(name))
  {
    if !ValidName(name) then None else RecordOf(store, Trimmed(name))
  }

  function Names(entries: seq<IndexEntry>): (names: seq<string>)
    ensures |names| == |entries|
    ensures forall i :: 0 <= i < |entries| ==> names[i] == entries[i].name
  {
    seq(|entries|, i requires 0 <= i < |entries| => entries[i].name)
  }

  /** The names of a non-empty index: the first entry's name, then the names of the rest. */
  lemma NamesCons(entries: seq<IndexEntry>)
    requires entries != []
    ensures Names(entries) == [entries[0].name] + Names(entries[1..])
  {
  }

  /** No name appears twice in the index. */
  predicate NoDuplicates(entries: seq<IndexEntry>) {
    forall i, j :: 0 <= i < j < |entries| ==> entries[i].name != entries[j].name
  }

  /** The store is consistent: its index names no name twice and has a record for every name it lists. */
  predicate Consistent(store: Store) {
    var entries := ListOf(store);
    && NoDuplicates(entries)
    && forall i :: 0 <= i < |entries| ==> RecordOf(store, entries[i].name).Some?
  }

  /** Keys that belong neither to a scenario nor to the index keep their entries. */
  ghost predicate ForeignKeysKept(before: Store, after: Store) {
    forall k :: !IsScenarioKey(k) && k != ScenariosListKey ==>
      (k in after <==> k in before) && (k in after ==> after[k] == before[k])
  }

  // ---------------------------------------------------------------------------
  // The index operations

  /** `findIndex(s => s.name === name)`: the first position holding `name`, or -1. */
  function FindIndex(entries: seq<IndexEntry>, name: string): (i: int)
    ensures -1 <= i < |entries|
    ensures i == -1 <==> name !in Names(entries)
    ensures i >= 0 ==> entries[i].name == name && forall j :: 0 <= j < i ==> entries[j].name != name
  {
    if entries == [] then -1
    else if entries[0].name == name then 0
    else
      var rest := FindIndex(entries[1..], name);
      NamesCons(entries);
      if rest == -1 then -1 else rest + 1
  }

  /** Record `name` in the index: a new entry at the end, or a new timestamp for the first entry with that name. */
  function Upsert(entries: seq<IndexEntry>, name: string, timestamp: Value): (r: seq<IndexEntry>)
    ensures |entries| <= |r| <= |entries| + 1
  {
    var i := FindIndex(entries, name);
    if i == -1 then entries + [IndexEntry(name, timestamp)]
    else entries[i := entries[i].(timestamp := timestamp)]
  }

  /** `filter(s => s.name !== name)`. */
  function Drop(entries: seq<IndexEntry>, name: string): (r: seq<IndexEntry>)
    ensures |r| <= |entries|
  {
    if entries == [] then []
    else if entries[0].name == name then Drop(entries[1..], name)
    else [entries[0]] + Drop(entries[1..], name)
  }

  /**
    Upserting lists `name` once more only when it was absent, keeps the other
    entries, adds no duplicate, and leaves the first entry for `name` carrying
    the new timestamp.
   */
  lemma UpsertIndex(entries: seq<IndexEntry>, name: string, timestamp: Value)
    ensures var r := Upsert(entries, name, timestamp);
            && name in Names(r)
            && (name in Names(entries) ==> |r| == |entries|)
            && (name !in Names(entries) ==> |r| == |entries| + 1)
            && (forall i :: 0 <= i < |entries| && entries[i].name != name ==> r[i] == entries[i])
            && (forall i :: 0 <= i < |r| ==> r[i].name == name || r[i].name in Names(entries))
            && (NoDuplicates(entries) ==> NoDuplicates(r))
    ensures var r := Upsert(entries, name, timestamp);
            FindIndex(r, name) >= 0 && r[FindIndex(r, name)] == IndexEntry(name, timestamp)
  {
    var r := Upsert(entries, name, timestamp);
    var i := FindIndex(entries, name);
    if i == -1 {
      assert r[|entries|].name == name;
      forall j | 0 <= j < |entries|
        ensures r[j].name != name
      {
        assert Names(entries)[j] == entries[j].name;
      }
      FindIndexAt(r, name, |entries|);
    } else {
      assert r[i].name == name;
      FindIndexAt(r, name, i);
    }
  }

  /** The first position holding `name` is where `FindIndex` finds it. */
  lemma FindIndexAt(entries: seq<IndexEntry>, name: string, i: int)
    requires 0 <= i < |entries| && entries[i].name == name
    requires forall j :: 0 <= j < i ==> entries[j].name != name
    ensures FindIndex(entries, name) == i
  {
    assert Names(entries)[i] == name;
  }

  /** Dropping removes every entry for `name`, keeps every other entry, and adds no duplicate. */
  lemma DropIndex(entries: seq<IndexEntry>, name: string)
    ensures name !in Names(Drop(entries, name))
    ensures forall e :: e in Drop(entries, name) <==> e in entries && e.name != name
    ensures NoDuplicates(entries) ==> NoDuplicates(Drop(entries, name))
  {
    var r := Drop(entries, name);
    DropMembers(entries, name);
    forall i | 0 <= i < |r|
      ensures Names(r)[i] != name
    {
      assert r[i] in r;
    }
    if NoDuplicates(entries) {
      DropNoDuplicates(entries, name);
    }
  }

  /** The entries `Drop` keeps are exactly those with another name. */
  lemma {:induction false} DropMembers(entries: seq<IndexEntry>, name: string)
    ensures forall e :: e in Drop(entries, name) <==> e in entries && e.name != name
  {
    if entries != [] {
      DropMembers(entries[1..], name);
      assert entries == [entries[0]] + entries[1..];
    }
  }

  /** The tail of an index without duplicates has none, and does not repeat the head's name. */
  lemma NoDuplicatesTail(entries: seq<IndexEntry>)
    requires entries != [] && NoDuplicates(entries)
    ensures NoDuplicates(entries[1..])
    ensures forall e :: e in entries[1..] ==> e.name != entries[0].name
  {
    forall i, j | 0 <= i < j < |entries[1..]|
      ensures entries[1..][i].name != entries[1..][j].name
    {
      assert entries[1..][i] == entries[i + 1] && entries[1..][j] == entries[j + 1];
    }
    forall e | e in entries[1..]
      ensures e.name != entries[0].name
    {
      var j :| 0 <= j < |entries[1..]| && entries[1..][j] == e;
      assert entries[1..][j] == entries[j + 1];
    }
  }

  /** Dropping a name from an index without duplicates leaves none. */
  lemma {:induction false} DropNoDuplicates(entries: seq<IndexEntry>, name: string)
    requires NoDuplicates(entries)
    ensures NoDuplicates(Drop(entries, name))
  {
    if entries != [] {
      NoDuplicatesTail(entries);
      DropNoDuplicates(entries[1..], name);
      DropMembers(entries[1..], name);
      var rest := Drop(entries[1..], name);
      if entries[0].name != name {
        var r := [entries[0]] + rest;
        assert Drop(entries, name) == r;
        forall i, j | 0 <= i < j < |r|
          ensures r[i].name != r[j].name
        {
          if i == 0 {
            assert r[j] == rest[j - 1];
            assert rest[j - 1] in rest;
          } else {
            assert r[i] == rest[i - 1] && r[j] == rest[j - 1];
          }
        }
      }
    }
  }

  /** Dropping from a concatenation drops from each part: the kept entries stay in their order. */
  lemma {:induction false} DropAppend(a: seq<IndexEntry>, b: seq<IndexEntry>, name: string)
    ensures Drop(a + b, name) == Drop(a, name) + Drop(b, name)
  {
    if a != [] {
      DropAppend(a[1..], b, name);
      assert (a + b)[1..] == a[1..] + b;
    } else {
      assert a + b == b;
    }
  }

  /** Dropping a name the index does not list changes nothing. */
  lemma {:induction false} DropAbsent(entries: seq<IndexEntry>, name: string)
    requires name !in Names(entries)
    ensures Drop(entries, name) == entries
  {
    if entries != [] {
      assert Names(entries)[0] == entries[0].name;
      assert Names(entries[1..]) == Names(entries)[1..];
      DropAbsent(entries[1..], name);
      assert entries == [entries[0]] + entries[1..];
    }
  }

  /** `{ name, timestamp, ...data }`: the fields of `data` override the two the store adds. */
  function NewRecord(name: string, timestamp: string, data: Record): (r: Record)
    ensures r.Keys == data.Keys + {"name", "timestamp"}
    ensures forall k :: k in data ==> r[k] == data[k]
    ensures "name" !in data ==> r["name"] == Str(name)
    ensures "timestamp" !in data ==> r["timestamp"] == Str(timestamp)
  {
    map["name" := Str(name), "timestamp" := Str(timestamp)] + data
  }

  /** The set of keys holding the records of the indexed names. */
  function KeysOf(entries: seq<IndexEntry>): (keys: set<string>)
    ensures forall i :: 0 <= i < |entries| ==> ScenarioKey(entries[i].name) in keys
    ensures forall k :: k in keys ==> exists i :: 0 <= i < |entries| && k == ScenarioKey(entries[i].name)
    ensures forall k :: k in keys ==> IsScenarioKey(k)
  {
    if entries == [] then {} else KeysOf(entries[..|entries| - 1]) + {ScenarioKey(entries[|entries| - 1].name)}
  }

  /** The keys of the first `i + 1` entries: those of the first `i`, and one more. */
  lemma KeysOfStep(entries: seq<IndexEntry>, i: int)
    requires 0 <= i < |entries|
    ensures KeysOf(entries[..i + 1]) == KeysOf(entries[..i]) + {ScenarioKey(entries[i].name)}
  {
    assert entries[..i + 1][..i] == entries[..i];
  }

  // ---------------------------------------------------------------------------
  // The store after each operation

  /** The store after a save of `data` under the trimmed name `name` at time `timestamp`. */
  function AfterSave(store: Store, name: string, data: Record, timestamp: string): (r: Store)
    ensures r.Keys == store.Keys + {ScenarioKey(name), ScenariosListKey}
  {
    var scenario := NewRecord(name, timestamp, data);
    var stored := store[ScenarioKey(name) := Scenario(scenario)];
    stored[ScenariosListKey := Index(Upsert(ListOf(stored), name, scenario["timestamp"]))]
  }

  /** The store after a delete of the trimmed name `name`. */
  function AfterDelete(store: Store, name: string): (r: Store)
    ensures r.Keys == store.Keys - {ScenarioKey(name)} + {ScenariosListKey}
  {
    var removed := store - {ScenarioKey(name)};
    removed[ScenariosListKey := Index(Drop(ListOf(removed), name))]
  }

  /** The store after clearing: the records of every indexed name and the index itself are gone. */
  function AfterClear(store: Store): (r: Store)
    ensures ScenariosListKey !in r && r.Keys <= store.Keys
    ensures forall k :: k in r ==> r[k] == store[k]
  {
    store - KeysOf(ListOf(store)) - {ScenariosListKey}
  }

  // ---------------------------------------------------------------------------
  // What the operations guarantee

  /** A saved record can be loaded back, by the name as given or by its trimmed form. */
  lemma SaveThenLoad(store: Store, name: Option<string>, data: Record, timestamp: string)
    requires ValidName(name)
    ensures LoadOf(AfterSave(store, Trimmed(name), data, timestamp), name) == Some(NewRecord(Trimmed(name), timestamp, data))
    ensures LoadOf(AfterSave(store, Trimmed(name), data, timestamp), Some(Trimmed(name)))
            == Some(NewRecord(Trimmed(name), timestamp, data))
  {
    var t := Trimmed(name);
    var after := AfterSave(store, t, data, timestamp);
    SaveThenRecord(store, t, data, timestamp);
    Text.TrimIdempotent(name.value);
    assert Trimmed(Some(t)) == t;
    assert LoadOf(after, name) == RecordOf(after, t);
    assert LoadOf(after, Some(t)) == RecordOf(after, t);
  }

  /** After a save, the record under the saved name is `{ name, timestamp, ...data }`. */
  lemma SaveThenRecord(store: Store, name: string, data: Record, timestamp: string)
    ensures RecordOf(AfterSave(store, name, data, timestamp), name) == Some(NewRecord(name, timestamp, data))
  {
    ListKeyIsNoScenarioKey();
  }

  /**
    A name saved as `"  My Scenario  "` is stored under `"My Scenario"`, and
    loading `"My Scenario"` gives a record whose `name` is `"My Scenario"`.
   */
  lemma TrimmedNameExample(store: Store, data: Record, timestamp: string)
    requires "name" !in data
    ensures ValidName(Some("  " + "My Scenario" + "  ")) && Trimmed(Some("  " + "My Scenario" + "  ")) == "My Scenario"
    ensures var loaded := LoadOf(AfterSave(store, "My Scenario", data, timestamp), Some("My Scenario"));
            loaded.Some? && loaded.value["name"] == Str("My Scenario")
  {
    Text.TrimExample();
    SaveThenLoad(store, Some("My Scenario"), data, timestamp);
  }

  /** Saving leaves the records of other names as they were. */
  lemma SaveKeepsOthers(store: Store, name: string, data: Record, timestamp: string, other: string)
    requires other != name
    ensures RecordOf(AfterSave(store, name, data, timestamp), other) == RecordOf(store, other)
  {
    ListKeyIsNoScenarioKey();
    if ScenarioKey(other) == ScenarioKey(name) {
      ScenarioKeyInjective(other, name);
    }
  }

  /**
    Saving lists the name in the index exactly once more when it was new and
    otherwise keeps the index length, updating only that entry's timestamp.
   */
  lemma SaveIndex(store: Store, name: string, data: Record, timestamp: string)
    ensures var before, after := ListOf(store), ListOf(AfterSave(store, name, data, timestamp));
            && after == Upsert(before, name, NewRecord(name, timestamp, data)["timestamp"])
            && name in Names(after)
            && (name in Names(before) ==> |after| == |before|)
            && (name !in Names(before) ==> |after| == |before| + 1)
            && (forall i :: 0 <= i < |before| && before[i].name != name ==> after[i] == before[i])
            && (NoDuplicates(before) ==> NoDuplicates(after))
  {
    ListKeyIsNoScenarioKey();
    var stored := store[ScenarioKey(name) := Scenario(NewRecord(name, timestamp, data))];
    assert ListOf(stored) == ListOf(store);
    UpsertIndex(ListOf(store), name, NewRecord(name, timestamp, data)["timestamp"]);
  }

  /** After a delete the name can no longer be loaded and the index no longer lists it. */
  lemma DeleteThenLoad(store: Store, name: Option<string>)
    requires ValidName(name)
    ensures LoadOf(AfterDelete(store, Trimmed(name)), name) == None
    ensures Trimmed(name) !in Names(ListOf(AfterDelete(store, Trimmed(name))))
  {
    ListKeyIsNoScenarioKey();
    var removed := store - {ScenarioKey(Trimmed(name))};
    DropIndex(ListOf(removed), Trimmed(name));
  }

  /** After clearing, the index is empty and none of the names it listed can be loaded. */
  lemma ClearThenList(store: Store)
    ensures ListOf(AfterClear(store)) == []
    ensures forall i :: 0 <= i < |ListOf(store)| ==> RecordOf(AfterClear(store), ListOf(store)[i].name) == None
  {
  }

  /** Clearing only removes the records of indexed names: a record the index does not list survives. */
  lemma ClearSparesUnindexed(store: Store, name: string)
    requires name !in Names(ListOf(store))
    ensures RecordOf(AfterClear(store), name) == RecordOf(store, name)
  {
    ListKeyIsNoScenarioKey();
    var entries := ListOf(store);
    forall i | 0 <= i < |entries|
      ensures ScenarioKey(name) != ScenarioKey(entries[i].name)
    {
      assert Names(entries)[i] == entries[i].name;
    }
  }

  /** An empty store is consistent. */
  lemma EmptyConsistent()
    ensures Consistent(map[])
  {
  }

  /** Saving keeps the store consistent. */
  lemma SavePreservesConsistent(store: Store, name: string, data: Record, timestamp: string)
    requires Consistent(store)
    ensures Consistent(AfterSave(store, name, data, timestamp))
  {
    var after := AfterSave(store, name, data, timestamp);
    var before := ListOf(store);
    SaveIndex(store, name, data, timestamp);
    UpsertIndex(before, name, NewRecord(name, timestamp, data)["timestamp"]);
    var entries := ListOf(after);
    forall i | 0 <= i < |entries|
      ensures RecordOf(after, entries[i].name).Some?
    {
      var n := entries[i].name;
      if n == name {
        ListKeyIsNoScenarioKey();
      } else {
        var j :| 0 <= j < |before| && Names(before)[j] == n;
        assert RecordOf(store, before[j].name).Some?;
        SaveKeepsOthers(store, name, data, timestamp, n);
      }
    }
  }

  /** Deleting leaves the records of other names as they were. */
  lemma DeleteKeepsOthers(store: Store, name: string, other: string)
    requires other != name
    ensures RecordOf(AfterDelete(store, name), other) == RecordOf(store, other)
  {
    ListKeyIsNoScenarioKey();
    if ScenarioKey(other) == ScenarioKey(name) {
      ScenarioKeyInjective(other, name);
    }
  }

  /** Deleting keeps the store consistent. */
  lemma DeletePreservesConsistent(store: Store, name: string)
    requires Consistent(store)
    ensures Consistent(AfterDelete(store, name))
  {
    ListKeyIsNoScenarioKey();
    var before := ListOf(store);
    var after := AfterDelete(store, name);
    var entries := ListOf(after);
    assert ListOf(store - {ScenarioKey(name)}) == before;
    assert entries == Drop(before, name);
    DropMembers(before, name);
    DropNoDuplicates(before, name);
    forall i | 0 <= i < |entries|
      ensures RecordOf(after, entries[i].name).Some?
    {
      var e := entries[i];
      assert e in entries;
      var j :| 0 <= j < |before| && before[j] == e;
      assert RecordOf(store, e.name).Some?;
      DeleteKeepsOthers(store, name, e.name);
    }
  }

  /** Clearing leaves a consistent store. */
  lemma ClearPreservesConsistent(store: Store)
    ensures Consistent(AfterClear(store))
  {
  }

  /** Save, delete and clear touch no key outside the scenario keys and the index key. */
  lemma ForeignKeysUntouched(store: Store, name: string, data: Record, timestamp: string)
    ensures ForeignKeysKept(store, AfterSave(store, name, data, timestamp))
    ensures ForeignKeysKept(store, AfterDelete(store, name))
    ensures ForeignKeysKept(store, AfterClear(store))
  {
  }

  class ScenarioStore {
    /** The key-value store. */
    var items: Store

    /** An empty key-value store. */
    constructor ()
      ensures items == map[]
    {
      items := map[];
    }

    /** `listScenarios`. */
    method ListScenarios() returns (scenarios: seq<IndexEntry>)
      ensures scenarios == ListOf(items)
    {
      if ScenariosListKey in items && items[ScenariosListKey].Index? {
        scenarios := items[ScenariosListKey].entries;
      } else {
        scenarios := [];
      }
    }

    /** `loadScenario`: the record saved under the trimmed name, or nothing. */
    method LoadScenario(name: Option<string>) returns (scenario: Option<Record>)
      ensures scenario == LoadOf(items, name)
    {
      if name.None? || Text.Trim(name.value) == [] {
        return None;
      }
      var key := ScenarioKeyPrefix + Text.Trim(name.value);
      if key in items && items[key].Scenario? {
        scenario := Some(items[key].record);
      } else {
        scenario := None;
      }
    }

    /**
      `saveScenario`: store `{ name, timestamp, ...data }` under the trimmed
      name, then add the name to the index or refresh its timestamp there.
      An invalid name is refused and changes nothing.
     */
    method SaveScenario(name: Option<string>, data: Record, timestamp: string) returns (saved: bool)
      modifies this
      ensures saved <==> ValidName(name)
      ensures !saved ==> items == old(items)
      ensures saved ==> items == AfterSave(old(items), Trimmed(name), data, timestamp)
    {
      if name.None? || Text.Trim(name.value) == [] {
        return false;
      }
      var trimmed := Text.Trim(name.value);
      assert trimmed == Trimmed(name);
      var scenario := NewRecord(trimmed, timestamp, data);
      items := items[ScenarioKeyPrefix + trimmed := Scenario(scenario)];
      ghost var stored := items;
      assert stored == old(items)[ScenarioKey(trimmed) := Scenario(scenario)];
      var scenarios := ListScenarios();
      var existingIndex := FindIndex(scenarios, trimmed);
      if existingIndex == -1 {
        scenarios := scenarios + [IndexEntry(trimmed, scenario["timestamp"])];
      } else {
        scenarios := scenarios[existingIndex := scenarios[existingIndex].(timestamp := scenario["timestamp"])];
      }
      assert scenarios == Upsert(ListOf(stored), trimmed, scenario["timestamp"]);
      items := items[ScenariosListKey := Index(scenarios)];
      assert items == AfterSave(old(items), trimmed, data, timestamp);
      return true;
    }

    /** `deleteScenario`: remove the record and every index entry for the trimmed name. */
    method DeleteScenario(name: Option<string>) returns (deleted: bool)
      modifies this
      ensures deleted <==> ValidName(name)
      ensures !deleted ==> items == old(items)
      ensures deleted ==> items == AfterDelete(old(items), Trimmed(name))
    {
      if name.None? || Text.Trim(name.value) == [] {
        return false;
      }
      var trimmed := Text.Trim(name.value);
      items := items - {ScenarioKeyPrefix + trimmed};
      var scenarios := ListScenarios();
      var filtered := Drop(scenarios, trimmed);
      items := items[ScenariosListKey := Index(filtered)];
      return true;
    }

    /** `exportToJSON`: the serialised record, present exactly when `loadScenario` finds one. */
    method ExportToJSON(name: Option<string>, serialize: Record -> string) returns (json: Option<string>)
      ensures json.None? <==> LoadOf(items, name).None?
      ensures json.Some? ==> json.value == serialize(LoadOf(items, name).value)
    {
      var scenario := LoadScenario(name);
      if scenario.Some? {
        json := Some(serialize(scenario.value));
      } else {
        json := None;
      }
    }

    /** `clearAllScenarios`: remove the record of every indexed name, then the index. */
    method ClearAllScenarios() returns (cleared: bool)
      modifies this
      ensures cleared
      ensures items == AfterClear(old(items))
    {
      var scenarios := ListScenarios();
      var i := 0;
      while i < |scenarios|
        invariant 0 <= i <= |scenarios|
        invariant items == old(items) - KeysOf(scenarios[..i])
      {
        KeysOfStep(scenarios, i);
        assert ScenarioKeyPrefix + scenarios[i].name == ScenarioKey(scenarios[i].name);
        items := items - {ScenarioKeyPrefix + scenarios[i].name};
        i := i + 1;
      }
      assert scenarios[..i] == scenarios;
      items := items - {ScenariosListKey};
      assert items == AfterClear(old(items));
      return true;
    }
  }
}
