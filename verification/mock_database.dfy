/** The in-memory database adapter the resource pipeline runs against:
    named tables of records in insertion order, a counter shared by every
    table that hands out ids, equality queries, merge-on-replace and delete
    by id. The adapter's `query`, `replace` and `delete` first coerce ids
    with `parseInt`, so a path segment such as "7" finds the record whose
    id is the number 7. */
module MockDatabase {
  import opened Wrappers
  import opened Values
  import opened Errors

  /** The adapter's state. `nextId` is the last id handed out; it is one
      counter for all tables. */
  datatype Store = Store(tables: map<string, seq<Record>>, nextId: nat)

  /** One query condition `[field, op, value]`. */
  datatype Condition = Condition(field: string, op: string, value: Option<Value>)

  /** The rows of a table; a table never touched reads as empty. */
  function Table(s: Store, name: string): seq<Record> {
    if name in s.tables then s.tables[name] else []
  }

  /** `getTable`: registers an empty table on first use. No row of any
      table changes. */
  function GetTable(s: Store, name: string): (s': Store)
    ensures name in s'.tables && s'.tables.Keys == s.tables.Keys + {name}
    ensures forall t :: Table(s', t) == Table(s, t)
    ensures s'.nextId == s.nextId
    ensures name in s.tables ==> s' == s
  {
    if name in s.tables then s else Store(s.tables[name := []], s.nextId)
  }

  // ---------------------------------------------------------------------
  // query

  /** An `id` condition has its value replaced by `parseInt(value, 10)`
      before it is compared. */
  function Coerce(c: Condition): Condition {
    if c.field == "id" then c.(value := Some(ParseInt(c.value))) else c
  }

  /** Whether a stored record satisfies one condition: only `=` is
      understood, and it is strict equality. */
  predicate Holds(r: Record, c: Condition) {
    c.op == "=" && StrictEquals(Get(r, c.field), Coerce(c).value)
  }

  /** The copies of `r` the inner loop pushes: one per condition it meets. */
  function MatchCopies(r: Record, conds: seq<Condition>): (out: seq<Record>)
    ensures forall x :: x in out ==> x == r
    decreases |conds|
  {
    if |conds| == 0 then []
    else (if Holds(r, conds[0]) then [r] else []) + MatchCopies(r, conds[1..])
  }

  /** The result list of a query with conditions: the table scanned in
      order, each record contributing its copies. */
  function Matches(t: seq<Record>, conds: seq<Condition>): seq<Record>
    decreases |t|
  {
    if |t| == 0 then [] else MatchCopies(t[0], conds) + Matches(t[1..], conds)
  }

  datatype QueryResult = QueryResult(store: Store, results: seq<Record>)

  /** `query(table, conditions)`: no conditions returns the whole table,
      otherwise the matching records. Only `getTable` touches the store. */
  function Query(s: Store, name: string, conds: seq<Condition>): (q: QueryResult)
    ensures q.store == GetTable(s, name)
    ensures |conds| == 0 ==> q.results == Table(s, name)
  {
    var s' := GetTable(s, name);
    if |conds| == 0 then QueryResult(s', Table(s, name))
    else QueryResult(s', Matches(Table(s, name), conds))
  }

  lemma {:induction false} MatchCopiesSound(r: Record, conds: seq<Condition>)
    ensures |MatchCopies(r, conds)| > 0 <==> exists c :: c in conds && Holds(r, c)
    decreases |conds|
  {
    if |conds| > 0 {
      MatchCopiesSound(r, conds[1..]);
      assert forall c :: c in conds <==> c == conds[0] || c in conds[1..];
    }
  }

  lemma {:induction false} MatchesMembers(t: seq<Record>, conds: seq<Condition>, r: Record)
    ensures r in Matches(t, conds) <==> r in t && exists c :: c in conds && Holds(r, c)
    decreases |t|
  {
    if |t| > 0 {
      MatchesMembers(t[1..], conds, r);
      MatchCopiesSound(t[0], conds);
      assert r in t <==> r == t[0] || r in t[1..];
      if r == t[0] && |MatchCopies(t[0], conds)| > 0 {
        assert MatchCopies(t[0], conds)[0] in MatchCopies(t[0], conds);
      }
    }
  }

  /** With conditions, every result is a record of the table that meets at
      least one condition, and every such record is among the results:
      several conditions are an OR, not an AND. */
  lemma QuerySoundAndComplete(s: Store, name: string, conds: seq<Condition>, r: Record)
    requires |conds| > 0
    ensures r in Query(s, name, conds).results <==>
              r in Table(s, name) && exists c :: c in conds && Holds(r, c)
  {
    MatchesMembers(Table(s, name), conds, r);
  }

  /** A record meeting several conditions is pushed once per condition. */
  lemma {:induction false} MatchCopiesCount(r: Record, conds: seq<Condition>)
    requires forall i :: 0 <= i < |conds| ==> Holds(r, conds[i])
    ensures MatchCopies(r, conds) == seq(|conds|, _ => r)
    decreases |conds|
  {
    if |conds| > 0 {
      MatchCopiesCount(r, conds[1..]);
    }
  }

  lemma {:induction false} MatchCopiesAppend(r: Record, conds: seq<Condition>, c: Condition)
    ensures MatchCopies(r, conds + [c]) == MatchCopies(r, conds) + (if Holds(r, c) then [r] else [])
    decreases |conds|
  {
    if |conds| == 0 {
      assert conds + [c] == [c];
    } else {
      var head := if Holds(r, conds[0]) then [r] else [];
      var last := if Holds(r, c) then [r] else [];
      assert (conds + [c])[0] == conds[0];
      assert (conds + [c])[1..] == conds[1..] + [c];
      assert MatchCopies(r, conds + [c]) == head + MatchCopies(r, conds[1..] + [c]);
      MatchCopiesAppend(r, conds[1..], c);
      assert head + (MatchCopies(r, conds[1..]) + last) == (head + MatchCopies(r, conds[1..])) + last;
    }
  }

  lemma {:induction false} MatchesAppend(t: seq<Record>, r: Record, conds: seq<Condition>)
    ensures Matches(t + [r], conds) == Matches(t, conds) + MatchCopies(r, conds)
    decreases |t|
  {
    if |t| == 0 {
      assert t + [r] == [r];
    } else {
      assert (t + [r])[1..] == t[1..] + [r];
      MatchesAppend(t[1..], r, conds);
    }
  }

  /** The adapter's nested loops over records and conditions, written as
      loops: they compute exactly `Matches`. */
  method QueryLoop(t: seq<Record>, conds: seq<Condition>) returns (results: seq<Record>)
    ensures results == Matches(t, conds)
  {
    results := [];
    var i := 0;
    while i < |t|
      invariant 0 <= i <= |t|
      invariant results == Matches(t[..i], conds)
    {
      var j := 0;
      var found: seq<Record> := [];
      while j < |conds|
        invariant 0 <= j <= |conds|
        invariant found == MatchCopies(t[i], conds[..j])
      {
        if Holds(t[i], conds[j]) {
          found := found + [t[i]];
        }
        MatchCopiesAppend(t[i], conds[..j], conds[j]);
        assert conds[..j + 1] == conds[..j] + [conds[j]];
        j := j + 1;
      }
      assert conds[..j] == conds;
      MatchesAppend(t[..i], t[i], conds);
      assert t[..i + 1] == t[..i] + [t[i]];
      results := results + found;
      i := i + 1;
    }
    assert t[..i] == t;
  }

  // ---------------------------------------------------------------------
  // lookup by id

  /** Whether the record's `id` strictly equals `k`. */
  predicate IdIs(r: Record, k: Value) {
    StrictEquals(Get(r, "id"), Some(k))
  }

  /** The position of the first record whose id is `k`. */
  function FirstIndex(t: seq<Record>, k: Value): (o: Option<nat>)
    ensures o.Some? ==> o.value < |t| && IdIs(t[o.value], k)
    ensures o.Some? ==> forall j :: 0 <= j < o.value ==> !IdIs(t[j], k)
    ensures o.None? <==> forall j :: 0 <= j < |t| ==> !IdIs(t[j], k)
    decreases |t|
  {
    if |t| == 0 then None
    else if IdIs(t[0], k) then Some(0)
    else match FirstIndex(t[1..], k)
      case None => None
      case Some(i) => Some(i + 1)
  }

  /** The id condition the resource pipeline queries with. */
  function IdCondition(v: Option<Value>): Condition {
    Condition("id", "=", v)
  }

  lemma HoldsIdCondition(r: Record, v: Option<Value>)
    ensures Holds(r, IdCondition(v)) <==> IdIs(r, ParseInt(v))
  {
  }

  lemma SingleMatchCopies(r: Record, c: Condition)
    ensures MatchCopies(r, [c]) == (if Holds(r, c) then [r] else [])
  {
    assert [c][1..] == [];
  }

  lemma {:induction false} SingleConditionFindsFirst(t: seq<Record>, c: Condition, k: Value)
    requires forall i :: 0 <= i < |t| ==> (Holds(t[i], c) <==> IdIs(t[i], k))
    ensures |Matches(t, [c])| > 0 <==> FirstIndex(t, k).Some?
    ensures FirstIndex(t, k).Some? ==> Matches(t, [c])[0] == t[FirstIndex(t, k).value]
    decreases |t|
  {
    if |t| > 0 {
      var rest := Matches(t[1..], [c]);
      SingleMatchCopies(t[0], c);
      assert Matches(t, [c]) == MatchCopies(t[0], [c]) + rest;
      if IdIs(t[0], k) {
        assert Holds(t[0], c);
        assert FirstIndex(t, k) == Some(0);
        assert Matches(t, [c]) == [t[0]] + rest;
      } else {
        assert !Holds(t[0], c);
        assert Matches(t, [c]) == rest;
        assert forall i :: 0 <= i < |t[1..]| ==> t[1..][i] == t[i + 1];
        SingleConditionFindsFirst(t[1..], c, k);
        match FirstIndex(t[1..], k)
        case None =>
          assert FirstIndex(t, k).None?;
        case Some(i) =>
          assert FirstIndex(t, k) == Some(i + 1);
          assert t[i + 1] == t[1..][i];
      }
    }
  }

  /** A query by id finds something exactly when some record carries the
      coerced id, and its first result is the first such record. */
  lemma QueryByIdFindsFirst(t: seq<Record>, v: Option<Value>)
    ensures |Matches(t, [IdCondition(v)])| > 0 <==> FirstIndex(t, ParseInt(v)).Some?
    ensures FirstIndex(t, ParseInt(v)).Some? ==>
              Matches(t, [IdCondition(v)])[0] == t[FirstIndex(t, ParseInt(v)).value]
  {
    forall i | 0 <= i < |t|
      ensures Holds(t[i], IdCondition(v)) <==> IdIs(t[i], ParseInt(v))
    {
      HoldsIdCondition(t[i], v);
    }
    SingleConditionFindsFirst(t, IdCondition(v), ParseInt(v));
  }

  /** The position of the first record meeting condition `c`. */
  function FirstWhere(t: seq<Record>, c: Condition): (o: Option<nat>)
    ensures o.Some? ==> o.value < |t| && Holds(t[o.value], c)
    ensures o.Some? ==> forall j :: 0 <= j < o.value ==> !Holds(t[j], c)
    ensures o.None? <==> forall j :: 0 <= j < |t| ==> !Holds(t[j], c)
    decreases |t|
  {
    if |t| == 0 then None
    else if Holds(t[0], c) then Some(0)
    else match FirstWhere(t[1..], c)
      case None => None
      case Some(i) => Some(i + 1)
  }

  /** A query with one condition finds something exactly when some record
      meets it, and its first result is the first such record. */
  lemma {:induction false} SingleConditionFirst(t: seq<Record>, c: Condition)
    ensures |Matches(t, [c])| > 0 <==> FirstWhere(t, c).Some?
    ensures FirstWhere(t, c).Some? ==> Matches(t, [c])[0] == t[FirstWhere(t, c).value]
    decreases |t|
  {
    if |t| > 0 {
      var rest := Matches(t[1..], [c]);
      SingleMatchCopies(t[0], c);
      assert Matches(t, [c]) == MatchCopies(t[0], [c]) + rest;
      if !Holds(t[0], c) {
        assert Matches(t, [c]) == rest;
        SingleConditionFirst(t[1..], c);
        match FirstWhere(t[1..], c)
        case None =>
        case Some(i) =>
          assert t[i + 1] == t[1..][i];
      }
    }
  }

  // ---------------------------------------------------------------------
  // insert, replace, delete

  datatype Inserted = Inserted(store: Store, id: nat)

  /** `insert(table, data)`: stores a copy of `data` whose `id` is the next
      counter value (any id the caller supplied is overwritten) at the end
      of the table. */
  function Insert(s: Store, name: string, data: Record): (r: Inserted)
    ensures r.id == s.nextId + 1 && r.store.nextId == r.id
    ensures Table(r.store, name) == Table(s, name) + [Put(data, "id", Some(VNum(r.id)))]
    ensures forall t :: t != name ==> Table(r.store, t) == Table(s, t)
  {
    var id := s.nextId + 1;
    Inserted(Store(s.tables[name := Table(s, name) + [data["id" := VNum(id)]]], id), id)
  }

  /** The outcome of a write: the new store and the error passed to the
      callback, if any. */
  datatype Written = Written(store: Store, error: Option<Error>)

  /** `replace(table, id, data)` once the id has been coerced to `k`:
      merges `data` into the first record whose id is `k`; fields absent
      from `data` keep their stored values. Without such a record it
      reports `table#k not found`. */
  function ReplaceKey(s: Store, name: string, k: Value, data: Record): (w: Written)
    ensures w.store.nextId == s.nextId
    ensures forall t :: t != name ==> Table(w.store, t) == Table(s, t)
    ensures w.error.None? <==> FirstIndex(Table(s, name), k).Some?
    ensures w.error.Some? ==>
              w.store == GetTable(s, name)
              && w.error.value == Make(NotFound, Message(name + "#" + ToText(Some(k)) + " not found"))
    ensures w.error.None? ==>
              var t := Table(s, name);
              var i := FirstIndex(t, k).value;
              Table(w.store, name) == t[i := Merge(t[i], data)]
  {
    var s' := GetTable(s, name);
    var t := Table(s, name);
    match FirstIndex(t, k)
    case None =>
      Written(s', Some(Make(NotFound, Message(name + "#" + ToText(Some(k)) + " not found"))))
    case Some(i) =>
      Written(Store(s'.tables[name := t[i := Merge(t[i], data)]], s.nextId), None)
  }

  /** `replace(table, id, data)`: the id is coerced with `parseInt`. */
  function Replace(s: Store, name: string, id: Option<Value>, data: Record): Written {
    ReplaceKey(s, name, ParseInt(id), data)
  }

  /** `delete(table, id)` once the id has been coerced to `k`: removes the
      first record whose id is `k` and leaves the others in order; without
      one it reports a `NotFoundError`. */
  function DeleteKey(s: Store, name: string, k: Value): (w: Written)
    ensures w.store.nextId == s.nextId
    ensures forall t :: t != name ==> Table(w.store, t) == Table(s, t)
    ensures w.error.None? <==> FirstIndex(Table(s, name), k).Some?
    ensures w.error.Some? ==> w.store == GetTable(s, name) && w.error.value == Make(NotFound, NoMessage)
    ensures w.error.None? ==>
              var t := Table(s, name);
              var i := FirstIndex(t, k).value;
              Table(w.store, name) == t[..i] + t[i + 1..] && |Table(w.store, name)| == |t| - 1
  {
    var s' := GetTable(s, name);
    var t := Table(s, name);
    match FirstIndex(t, k)
    case None => Written(s', Some(Make(NotFound, NoMessage)))
    case Some(i) => Written(Store(s'.tables[name := t[..i] + t[i + 1..]], s.nextId), None)
  }

  /** `delete(table, id)`: the id is coerced with `parseInt`. */
  function Delete(s: Store, name: string, id: Option<Value>): Written {
    DeleteKey(s, name, ParseInt(id))
  }

  // ---------------------------------------------------------------------
  // the id invariant

  /** Every record carries a numeric id between 1 and the counter. */
  predicate IdsIssued(t: seq<Record>, n: nat) {
    forall i :: 0 <= i < |t| ==> "id" in t[i] && t[i]["id"].VNum? && 1 <= t[i]["id"].n <= n
  }

  /** No two records of a table share an id. */
  predicate IdsDistinct(t: seq<Record>) {
    forall i, j :: 0 <= i < j < |t| ==> Get(t[i], "id") != Get(t[j], "id")
  }

  /** The store invariant: ids are issued by the counter and unique. */
  predicate WellFormed(s: Store) {
    forall name :: name in s.tables ==> IdsIssued(s.tables[name], s.nextId) && IdsDistinct(s.tables[name])
  }

  lemma WellFormedTable(s: Store, name: string)
    requires WellFormed(s)
    ensures IdsIssued(Table(s, name), s.nextId) && IdsDistinct(Table(s, name))
  {
  }

  lemma GetTablePreservesWellFormed(s: Store, name: string)
    requires WellFormed(s)
    ensures WellFormed(GetTable(s, name))
  {
  }

  /** Inserting keeps ids unique: the new id exceeds every id issued. */
  lemma InsertPreservesWellFormed(s: Store, name: string, data: Record)
    requires WellFormed(s)
    ensures WellFormed(Insert(s, name, data).store)
  {
    var r := Insert(s, name, data);
    var t := Table(s, name);
    var t' := Table(r.store, name);
    WellFormedTable(s, name);
    assert forall i :: 0 <= i < |t| ==> t'[i] == t[i];
    assert t'[|t|]["id"] == VNum(r.id);
    forall i, j | 0 <= i < j < |t'|
      ensures Get(t'[i], "id") != Get(t'[j], "id")
    {
      if j == |t| {
        assert t'[i]["id"].n <= s.nextId;
      }
    }
  }

  lemma MergeKeepsTableIds(t: seq<Record>, n: nat, i: nat, data: Record)
    requires IdsIssued(t, n) && IdsDistinct(t)
    requires i < |t| && "id" !in data
    ensures IdsIssued(t[i := Merge(t[i], data)], n) && IdsDistinct(t[i := Merge(t[i], data)])
  {
    var t' := t[i := Merge(t[i], data)];
    assert forall j :: 0 <= j < |t'| ==> Get(t'[j], "id") == Get(t[j], "id");
  }

  lemma RemoveKeepsTableIds(t: seq<Record>, n: nat, i: nat)
    requires IdsIssued(t, n) && IdsDistinct(t)
    requires i < |t|
    ensures IdsIssued(t[..i] + t[i + 1..], n) && IdsDistinct(t[..i] + t[i + 1..])
  {
    var t' := t[..i] + t[i + 1..];
    assert forall j :: 0 <= j < |t'| ==> t'[j] == (if j < i then t[j] else t[j + 1]);
  }

  /** A replace whose data carries no `id` keeps ids unique. */
  lemma ReplacePreservesWellFormed(s: Store, name: string, k: Value, data: Record)
    requires WellFormed(s)
    requires "id" !in data
    ensures WellFormed(ReplaceKey(s, name, k, data).store)
  {
    var w := ReplaceKey(s, name, k, data);
    WellFormedTable(s, name);
    if w.error.None? {
      var t := Table(s, name);
      var i := FirstIndex(t, k).value;
      MergeKeepsTableIds(t, s.nextId, i, data);
      forall n | n in w.store.tables
        ensures IdsIssued(w.store.tables[n], w.store.nextId) && IdsDistinct(w.store.tables[n])
      {
        if n != name {
          assert w.store.tables[n] == Table(s, n);
        }
      }
    }
  }

  lemma DeletePreservesWellFormed(s: Store, name: string, k: Value)
    requires WellFormed(s)
    ensures WellFormed(DeleteKey(s, name, k).store)
  {
    var w := DeleteKey(s, name, k);
    WellFormedTable(s, name);
    if w.error.None? {
      var t := Table(s, name);
      var i := FirstIndex(t, k).value;
      RemoveKeepsTableIds(t, s.nextId, i);
      forall n | n in w.store.tables
        ensures IdsIssued(w.store.tables[n], w.store.nextId) && IdsDistinct(w.store.tables[n])
      {
        if n != name {
          assert w.store.tables[n] == Table(s, n);
        }
      }
    }
  }

  /** Deleting the same id twice: the second delete reports NotFound,
      because ids are unique and the first removed the only holder. */
  lemma DeleteTwiceNotFound(s: Store, name: string, k: Value)
    requires WellFormed(s)
    requires DeleteKey(s, name, k).error.None?
    ensures DeleteKey(DeleteKey(s, name, k).store, name, k).error == Some(Make(NotFound, NoMessage))
  {
    var w := DeleteKey(s, name, k);
    var t := Table(s, name);
    var i := FirstIndex(t, k).value;
    var t' := Table(w.store, name);
    WellFormedTable(s, name);
    forall j | 0 <= j < |t'|
      ensures !IdIs(t'[j], k)
    {
      if j < i {
        assert t'[j] == t[j];
      } else {
        assert t'[j] == t[j + 1];
        assert Get(t[i], "id") != Get(t[j + 1], "id");
      }
    }
  }
}
