/** What the table operations of `Store` guarantee: key uniqueness makes every
    lookup return the one matching row, each update keeps every constraint, and
    each says exactly which rows it adds or removes. */
module StoreProperties {
  import opened Errors
  import opened Store

  // ---------------------------------------------------------------- tails

  lemma UniqueKeysTail(plates: seq<Plate>)
    requires plates != [] && UniqueKeys(plates)
    ensures UniqueKeys(plates[1..])
  {
    var rest := plates[1..];
    forall i, j | 0 <= i < j < |rest| ensures rest[i].normalized != rest[j].normalized {
      assert rest[i] == plates[i + 1] && rest[j] == plates[j + 1];
    }
  }

  lemma UniqueListIdsTail(lists: seq<List>)
    requires lists != [] && UniqueListIds(lists)
    ensures UniqueListIds(lists[1..])
  {
    var rest := lists[1..];
    forall i, j | 0 <= i < j < |rest| ensures rest[i].id != rest[j].id {
      assert rest[i] == lists[i + 1] && rest[j] == lists[j + 1];
    }
  }

  lemma UniquePairsTail(items: seq<ListItem>)
    requires items != [] && UniquePairs(items)
    ensures UniquePairs(items[1..])
    ensures (items[0].listId, items[0].plateId) !in Pairs(items[1..])
  {
    var rest := items[1..];
    forall i, j | 0 <= i < j < |rest|
      ensures (rest[i].listId, rest[i].plateId) != (rest[j].listId, rest[j].plateId)
    {
      assert rest[i] == items[i + 1] && rest[j] == items[j + 1];
    }
  }

  lemma PairsAppend(items: seq<ListItem>, x: ListItem)
    ensures Pairs(items + [x]) == Pairs(items) + {(x.listId, x.plateId)}
  {
    assert x in items + [x];
    forall it | it in items ensures it in items + [x] { }
  }

  // ---------------------------------------------------------------- lookups

  lemma {:induction false} NoPlateWithKey(plates: seq<Plate>, key: string)
    requires forall q :: q in plates ==> q.normalized != key
    ensures PlatesWithKey(plates, key) == []
  {
    if plates != [] {
      NoPlateWithKey(plates[1..], key);
    }
  }

  lemma {:induction false} NoListWithId(lists: seq<List>, listId: int)
    requires forall l :: l in lists ==> l.id != listId
    ensures JoinOnList(lists, listId) == []
  {
    if lists != [] {
      NoListWithId(lists[1..], listId);
    }
  }

  /** Under the unique index on `normalized`, the key query returns at most one row. */
  lemma {:induction false} AtMostOnePlatePerKey(plates: seq<Plate>, key: string)
    requires UniqueKeys(plates)
    ensures |PlatesWithKey(plates, key)| <= 1
  {
    if plates != [] {
      var rest := plates[1..];
      UniqueKeysTail(plates);
      AtMostOnePlatePerKey(rest, key);
      if plates[0].normalized == key {
        forall q | q in rest ensures q.normalized != key {
          var j :| 0 <= j < |rest| && rest[j] == q;
          assert plates[j + 1] == q;
        }
        NoPlateWithKey(rest, key);
      }
    }
  }

  /** The key query returns exactly the one row that has the key. */
  lemma PlatesWithKeyIsTheRow(plates: seq<Plate>, p: Plate)
    requires UniqueKeys(plates) && p in plates
    ensures PlatesWithKey(plates, p.normalized) == [p]
    ensures FindPlate(plates, p.normalized) == Some(p)
  {
    AtMostOnePlatePerKey(plates, p.normalized);
    var found := PlatesWithKey(plates, p.normalized);
    assert p in found;
  }

  /** The name lookup returns the unique list with that name. */
  lemma ListNamedIsTheList(lists: seq<List>, l: List)
    requires ListsValid(lists) && l in lists
    ensures ListNamed(lists, l.name) == Some(l)
  {
    var r := ListNamed(lists, l.name);
    var i :| 0 <= i < |lists| && lists[i] == l;
    var j :| 0 <= j < |lists| && lists[j] == r.value;
    assert i == j;
  }

  /** The id lookup returns the unique list with that id. */
  lemma ListWithIdIsTheList(lists: seq<List>, l: List)
    requires ListsValid(lists) && l in lists
    ensures ListWithId(lists, l.id) == Some(l)
  {
    assert l.id in ListIds(lists);
    var r := ListWithId(lists, l.id);
    var i :| 0 <= i < |lists| && lists[i] == l;
    var j :| 0 <= j < |lists| && lists[j] == r.value;
    assert i == j;
  }

  /** A membership row joins with at most one list, since list ids are unique. */
  lemma {:induction false} JoinAtMostOne(lists: seq<List>, listId: int)
    requires UniqueListIds(lists)
    ensures |JoinOnList(lists, listId)| <= 1
  {
    if lists != [] {
      var rest := lists[1..];
      UniqueListIdsTail(lists);
      JoinAtMostOne(rest, listId);
      if lists[0].id == listId {
        forall l | l in rest ensures l.id != listId {
          var j :| 0 <= j < |rest| && rest[j] == l;
          assert lists[j + 1] == l;
        }
        NoListWithId(rest, listId);
      }
    }
  }

  lemma DistinctListsConcat(here: seq<ListHit>, tail: seq<ListHit>)
    requires |here| <= 1 && DistinctLists(tail)
    requires forall a, b :: a in here && b in tail ==> a.listId != b.listId
    ensures DistinctLists(here + tail)
  {
    var r := here + tail;
    forall i, j | 0 <= i < j < |r| ensures r[i].listId != r[j].listId {
      if i >= |here| {
        assert r[i] == tail[i - |here|] && r[j] == tail[j - |here|];
      } else {
        assert r[i] in here && r[j] == tail[j - |here|];
      }
    }
  }

  /** The membership query never names a list twice: the primary key of
      `list_items` allows one row per list for a plate, and list ids are unique. */
  lemma {:induction false} HitsDistinct(items: seq<ListItem>, lists: seq<List>, plateId: int)
    requires UniquePairs(items) && UniqueListIds(lists)
    ensures DistinctLists(HitsFor(items, lists, plateId))
  {
    if items != [] {
      var rest := items[1..];
      UniquePairsTail(items);
      HitsDistinct(rest, lists, plateId);
      var here := if items[0].plateId == plateId then JoinOnList(lists, items[0].listId) else [];
      JoinAtMostOne(lists, items[0].listId);
      DistinctListsConcat(here, HitsFor(rest, lists, plateId));
    }
  }

  /** A plate row, once present, is what its key resolves to in every later
      state whose plate table extends this one. */
  lemma PlatePersists(before: seq<Plate>, after: seq<Plate>, p: Plate)
    requires UniqueKeys(after) && before <= after && p in before
    ensures FindPlate(after, p.normalized) == Some(p)
  {
    var i :| 0 <= i < |before| && before[i] == p;
    assert after[i] == p;
    PlatesWithKeyIsTheRow(after, p);
  }

  // ---------------------------------------------------------------- GetOrCreate

  lemma GetOrCreateKeepsValid(t: Tables, key: string, original: string, outage: Outage)
    requires Valid(t)
    ensures Valid(GetOrCreate(t, key, original, outage).0)
  {
    var t' := GetOrCreate(t, key, original, outage).0;
    if t' != t {
      var np := Plate(t.nextPlateId, original, key);
      assert t'.plates == t.plates + [np];
      assert FindPlate(t.plates, key).None?;
      forall it | it in t'.items ensures it.plateId in PlateIds(t'.plates) {
        var p :| p in t.plates && p.id == it.plateId;
        assert p in t'.plates;
      }
    }
  }

  /** When a plate with the key exists, its id is returned and nothing is inserted. */
  lemma GetOrCreateExisting(t: Tables, p: Plate, original: string, outage: Outage)
    requires Valid(t) && p in t.plates && Fault(outage, PlateLookup).None?
    ensures GetOrCreate(t, p.normalized, original, outage) == (t, p.id, None)
  {
    PlatesWithKeyIsTheRow(t.plates, p);
  }

  /** When no plate has the key, exactly one row is inserted: it carries the
      submitted text and the key under an id no other plate has, and no other
      row of any table changes. */
  lemma GetOrCreateInserts(t: Tables, key: string, original: string, outage: Outage)
    requires Valid(t) && Fault(outage, PlateLookup).None? && Fault(outage, PlateInsert).None?
    requires forall p :: p in t.plates ==> p.normalized != key
    ensures var (t', id, err) := GetOrCreate(t, key, original, outage);
      && err.None?
      && t'.plates == t.plates + [Plate(id, original, key)]
      && id !in PlateIds(t.plates)
      && t'.lists == t.lists && t'.items == t.items
  {
  }

  /** A failed round trip returns id 0 and the error itself, leaves the tables
      as they were, and is not followed by a second lookup. */
  lemma GetOrCreateFailure(t: Tables, key: string, original: string, outage: Outage)
    ensures var (t', id, err) := GetOrCreate(t, key, original, outage);
      err.Some? ==> id == 0 && t' == t && err == Fault(outage, outage.step) && outage.step in {PlateLookup, PlateInsert}
  {
  }

  /** Afterwards the key resolves to the returned id, and the plates table has
      only grown. */
  lemma GetOrCreateResolves(t: Tables, key: string, original: string, outage: Outage)
    requires Valid(t)
    ensures var (t', id, err) := GetOrCreate(t, key, original, outage);
      && t.plates <= t'.plates && t'.lists == t.lists && t'.items == t.items
      && (err.None? ==> FindPlate(t'.plates, key).Some? && FindPlate(t'.plates, key).value.id == id)
  {
    var (t', id, err) := GetOrCreate(t, key, original, outage);
    GetOrCreateKeepsValid(t, key, original, outage);
    if err.None? && t' != t {
      var np := Plate(t.nextPlateId, original, key);
      assert t'.plates == t.plates + [np];
      PlatesWithKeyIsTheRow(t'.plates, np);
    }
  }

  // ---------------------------------------------------------------- AddItem

  lemma AddItemKeepsValid(t: Tables, listId: int, plateId: int, note: Option<string>, outage: Outage)
    requires Valid(t)
    ensures Valid(AddItem(t, listId, plateId, note, outage).0)
  {
    var t' := AddItem(t, listId, plateId, note, outage).0;
    if t' != t {
      var x := ListItem(listId, plateId, note);
      assert t'.items == t.items + [x];
      forall i, j | 0 <= i < j < |t'.items|
        ensures (t'.items[i].listId, t'.items[i].plateId) != (t'.items[j].listId, t'.items[j].plateId)
      {
        if j == |t.items| {
          assert t'.items[i] in t.items;
        }
      }
    }
  }

  /** The insert adds the pair when it is absent and fails otherwise, never
      creating a second row for the pair; plates and lists never change. */
  lemma AddItemOutcome(t: Tables, listId: int, plateId: int, note: Option<string>, outage: Outage)
    requires Valid(t)
    ensures var (t', err) := AddItem(t, listId, plateId, note, outage);
      && t'.plates == t.plates && t'.lists == t.lists && t'.nextPlateId == t.nextPlateId
      && (err.Some? ==> t' == t)
      && (err.None? ==> (listId, plateId) !in Pairs(t.items)
                        && Pairs(t'.items) == Pairs(t.items) + {(listId, plateId)}
                        && ListItem(listId, plateId, note) in t'.items)
      && ((listId, plateId) in Pairs(t.items) ==> err.Some?)
      && (Fault(outage, ItemInsert).None? && listId in ListIds(t.lists) && plateId in PlateIds(t.plates)
          ==> (err.None? <==> (listId, plateId) !in Pairs(t.items)))
  {
    PairsAppend(t.items, ListItem(listId, plateId, note));
  }

  // ---------------------------------------------------------------- RemoveItem

  lemma {:induction false} WithoutPairUnique(items: seq<ListItem>, listId: int, plateId: int)
    requires UniquePairs(items)
    ensures UniquePairs(WithoutPair(items, listId, plateId))
  {
    if items != [] {
      var rest := items[1..];
      UniquePairsTail(items);
      WithoutPairUnique(rest, listId, plateId);
      var head := if (items[0].listId, items[0].plateId) == (listId, plateId) then [] else [items[0]];
      var tail := WithoutPair(rest, listId, plateId);
      var r := head + tail;
      assert r == WithoutPair(items, listId, plateId);
      forall i, j | 0 <= i < j < |r|
        ensures (r[i].listId, r[i].plateId) != (r[j].listId, r[j].plateId)
      {
        if i < |head| {
          assert r[j] == tail[j - |head|] && r[j] in rest;
        } else {
          assert r[i] == tail[i - |head|] && r[j] == tail[j - |head|];
        }
      }
    }
  }

  lemma RemoveItemKeepsValid(t: Tables, listId: int, plateId: int, outage: Outage)
    requires Valid(t)
    ensures Valid(RemoveItem(t, listId, plateId, outage).0)
  {
    WithoutPairUnique(t.items, listId, plateId);
  }

  /** The delete takes out exactly the pair, whether or not it was there, and
      keeps every other membership with its note; plates and lists never change. */
  lemma RemoveItemOutcome(t: Tables, listId: int, plateId: int, outage: Outage)
    ensures var (t', err) := RemoveItem(t, listId, plateId, outage);
      && t'.plates == t.plates && t'.lists == t.lists && t'.nextPlateId == t.nextPlateId
      && (err.Some? ==> t' == t)
      && (err.None? <==> Fault(outage, ItemDelete).None?)
      && (err.None? ==> Pairs(t'.items) == Pairs(t.items) - {(listId, plateId)}
                        && forall it :: it in t.items && (it.listId, it.plateId) != (listId, plateId) ==> it in t'.items)
  {
    var (t', err) := RemoveItem(t, listId, plateId, outage);
    if err.None? {
      forall k | k in Pairs(t'.items) ensures k in Pairs(t.items) - {(listId, plateId)} {
        var it :| it in t'.items && (it.listId, it.plateId) == k;
      }
      forall k | k in Pairs(t.items) - {(listId, plateId)} ensures k in Pairs(t'.items) {
        var it :| it in t.items && (it.listId, it.plateId) == k;
        assert it in t'.items;
      }
    }
  }

  /** Deleting an absent pair leaves the table exactly as it was. */
  lemma {:induction false} WithoutAbsentPair(items: seq<ListItem>, listId: int, plateId: int)
    requires (listId, plateId) !in Pairs(items)
    ensures WithoutPair(items, listId, plateId) == items
  {
    if items != [] {
      PairsCons(items);
      WithoutAbsentPair(items[1..], listId, plateId);
      assert items == [items[0]] + items[1..];
    }
  }
}
