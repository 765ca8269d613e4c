/** The repository: the database tables held as the fields of one object,
    with one method per query or statement the service issues. Each mutating
    method states its new tables through the table operation of `Store` it
    performs; each query states what it returns. */
module Repository {
  import opened Errors
  import opened Store
  import StoreProperties

  class NumberRepository {
    var plates: seq<Plate>
    var lists: seq<List>
    var items: seq<ListItem>
    var nextPlateId: int

    function State(): Tables
      reads this
    {
      Tables(plates, lists, items, nextPlateId)
    }

    ghost predicate Valid()
      reads this
    {
      Store.Valid(State())
    }

    /** A repository over an existing database whose constraints hold, for
        instance `Seeded()`, the state the migration leaves behind. */
    constructor Open(t: Tables)
      requires Store.Valid(t)
      ensures Valid() && State() == t
    {
      plates, lists, items, nextPlateId := t.plates, t.lists, t.items, t.nextPlateId;
    }

    /** Looks the key up and inserts a plate row only when none has it. */
    method GetOrCreatePlate(normalized: string, original: string, outage: Outage) returns (id: int, err: Option<DbError>)
      requires Valid()
      modifies this
      ensures Valid()
      ensures (State(), id, err) == GetOrCreate(old(State()), normalized, original, outage)
    {
      StoreProperties.GetOrCreateKeepsValid(State(), normalized, original, outage);
      var lookup := Fault(outage, PlateLookup);
      if lookup.Some? {
        return 0, lookup;
      }
      var existing := FindPlate(plates, normalized);
      if existing.Some? {
        return existing.value.id, None;
      }
      var insert := Fault(outage, PlateInsert);
      if insert.Some? {
        return 0, insert;
      }
      var plate := Plate(nextPlateId, original, normalized);
      plates := plates + [plate];
      nextPlateId := nextPlateId + 1;
      return plate.id, None;
    }

    /** Every plate row with the key; at most one, by the unique index. */
    method FindPlatesByNormalized(normalized: string, outage: Outage) returns (found: seq<Plate>, err: Option<DbError>)
      requires Valid()
      ensures err == Fault(outage, PlateSearch)
      ensures err.Some? ==> found == []
      ensures err.None? ==> forall p :: p in found <==> p in plates && p.normalized == normalized
      ensures err.None? ==> found == PlatesWithKey(plates, normalized)
      ensures |found| <= 1
    {
      err := Fault(outage, PlateSearch);
      if err.Some? {
        return [], err;
      }
      StoreProperties.AtMostOnePlatePerKey(plates, normalized);
      found := PlatesWithKey(plates, normalized);
    }

    /** One hit per membership row of the plate, each naming its list; a list
        holds the plate exactly when it is among the hits, and none is named twice. */
    method FindListsForPlate(plateId: int, outage: Outage) returns (hits: seq<ListHit>, err: Option<DbError>)
      requires Valid()
      ensures err == Fault(outage, HitsQuery)
      ensures err.Some? ==> hits == []
      ensures err.None? ==> hits == HitsFor(items, lists, plateId)
      ensures err.None? ==> forall l :: l in lists ==> (AsHit(l) in hits <==> (l.id, plateId) in Pairs(items))
      ensures err.None? ==> forall h :: h in hits ==> h in AllHits(lists)
      ensures DistinctLists(hits)
    {
      err := Fault(outage, HitsQuery);
      if err.Some? {
        return [], err;
      }
      StoreProperties.HitsDistinct(items, lists, plateId);
      hits := HitsFor(items, lists, plateId);
    }

    /** Inserts the membership row; a second row for the same pair is refused. */
    method AddPlateToList(listId: int, plateId: int, note: Option<string>, outage: Outage) returns (err: Option<DbError>)
      requires Valid()
      modifies this
      ensures Valid()
      ensures (State(), err) == AddItem(old(State()), listId, plateId, note, outage)
    {
      StoreProperties.AddItemKeepsValid(State(), listId, plateId, note, outage);
      err := Fault(outage, ItemInsert);
      if err.Some? {
        return;
      }
      if (listId, plateId) in Pairs(items) {
        return Some(UniqueViolation("list_items_pkey"));
      }
      if listId !in ListIds(lists) {
        return Some(ForeignKeyViolation("list_items_list_id_fkey"));
      }
      if plateId !in PlateIds(plates) {
        return Some(ForeignKeyViolation("list_items_plate_id_fkey"));
      }
      items := items + [ListItem(listId, plateId, note)];
    }

    /** Deletes the membership row of the pair, if there is one. */
    method RemovePlateFromList(listId: int, plateId: int, outage: Outage) returns (err: Option<DbError>)
      requires Valid()
      modifies this
      ensures Valid()
      ensures (State(), err) == RemoveItem(old(State()), listId, plateId, outage)
    {
      StoreProperties.RemoveItemKeepsValid(State(), listId, plateId, outage);
      err := Fault(outage, ItemDelete);
      if err.Some? {
        return;
      }
      items := WithoutPair(items, listId, plateId);
    }

    /** The list with that id, or `RecordNotFound`. */
    method GetList(listId: int, outage: Outage) returns (r: Result<List, DbError>)
      requires Valid()
      ensures r == FindListById(State(), listId, outage)
      ensures r.Success? ==> r.value in lists && r.value.id == listId
      ensures Fault(outage, ListLookup).None? ==> forall l :: l in lists && l.id == listId ==> r == Success(l)
      ensures Fault(outage, ListLookup).None? ==> (r.Failure? <==> listId !in ListIds(lists))
      ensures r.Failure? && Fault(outage, ListLookup).None? ==> r.error == RecordNotFound
    {
      var fault := Fault(outage, ListLookup);
      if fault.Some? {
        return Failure(fault.value);
      }
      var found := ListWithId(lists, listId);
      if found.None? {
        return Failure(RecordNotFound);
      }
      forall l | l in lists && l.id == listId ensures found == Some(l) {
        StoreProperties.ListWithIdIsTheList(lists, l);
      }
      return Success(found.value);
    }

    /** The unique list with that name, or `RecordNotFound`. */
    method GetListByName(name: string, outage: Outage) returns (r: Result<List, DbError>)
      requires Valid()
      ensures r == FindListByName(State(), name, outage)
      ensures r.Success? ==> r.value in lists && r.value.name == name
      ensures Fault(outage, ListLookup).None? ==> forall l :: l in lists && l.name == name ==> r == Success(l)
      ensures Fault(outage, ListLookup).None? ==> (r.Failure? <==> forall l :: l in lists ==> l.name != name)
      ensures r.Failure? && Fault(outage, ListLookup).None? ==> r.error == RecordNotFound
    {
      var fault := Fault(outage, ListLookup);
      if fault.Some? {
        return Failure(fault.value);
      }
      var found := ListNamed(lists, name);
      if found.None? {
        return Failure(RecordNotFound);
      }
      forall l | l in lists && l.name == name ensures found == Some(l) {
        StoreProperties.ListNamedIsTheList(lists, l);
      }
      return Success(found.value);
    }
  }
}
