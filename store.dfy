/** The three tables of the number service's database — `plates`, `lists` and
    `list_items` — as rows in table order, with the constraints the schema
    declares (unique plate key, unique list name, composite primary key of a
    membership, foreign keys), and each table operation the repository
    performs as a function from the old tables to the new ones. */
module Store {
  import opened Errors

  /** A row of `plates`: `number` is the text as first submitted, `normalized` its key. */
  datatype Plate = Plate(id: int, number: string, normalized: string)

  /** A row of `lists`; `kind` is the `type` column. */
  datatype List = List(id: int, name: string, kind: string, description: Option<string>)

  /** A row of `list_items`: the membership of a plate in a list. */
  datatype ListItem = ListItem(listId: int, plateId: int, note: Option<string>)

  /** One row of the membership query: a list that holds the plate. */
  datatype ListHit = ListHit(listId: int, listName: string, listType: string)

  /** The whole database; `nextPlateId` is the next value of the `plates.id` sequence. */
  datatype Tables = Tables(plates: seq<Plate>, lists: seq<List>, items: seq<ListItem>, nextPlateId: int)

  /** The database round trips the repository makes. */
  datatype Step =
    | PlateLookup   // GetOrCreatePlate: First by key
    | PlateInsert   // GetOrCreatePlate: Create
    | PlateSearch   // FindPlatesByNormalized
    | HitsQuery     // FindListsForPlate
    | ListLookup    // GetList, GetListByName
    | ItemInsert    // AddPlateToList
    | ItemDelete    // RemovePlateFromList

  /** Failures from outside the model: either the database answers every round
      trip, or the first one to fail is `step`. Every service operation returns
      at its first error, so this describes every run of one operation. */
  datatype Outage = Healthy | FailsAt(step: Step, cause: string)

  function Fault(outage: Outage, step: Step): Option<DbError>
  {
    if outage.FailsAt? && outage.step == step then Some(Unavailable(outage.cause)) else None
  }

  function PlateIds(plates: seq<Plate>): set<int>
  {
    set p | p in plates :: p.id
  }

  function ListIds(lists: seq<List>): set<int>
  {
    set l | l in lists :: l.id
  }

  /** The primary keys `(list_id, plate_id)` of the memberships. */
  function Pairs(items: seq<ListItem>): set<(int, int)>
  {
    set it | it in items :: (it.listId, it.plateId)
  }

  // ---------------------------------------------------------------- invariants

  /** The unique index on `plates.normalized`. */
  ghost predicate UniqueKeys(plates: seq<Plate>)
  {
    forall i, j :: 0 <= i < j < |plates| ==> plates[i].normalized != plates[j].normalized
  }

  ghost predicate PlatesValid(plates: seq<Plate>, nextPlateId: int)
  {
    && 1 <= nextPlateId
    && (forall i :: 0 <= i < |plates| ==> 1 <= plates[i].id < nextPlateId)
    && (forall i, j :: 0 <= i < j < |plates| ==> plates[i].id != plates[j].id)
    && UniqueKeys(plates)
  }

  ghost predicate UniqueListIds(lists: seq<List>)
  {
    forall i, j :: 0 <= i < j < |lists| ==> lists[i].id != lists[j].id
  }

  /** The primary key of `lists` and the unique index on `lists.name`. */
  ghost predicate ListsValid(lists: seq<List>)
  {
    && UniqueListIds(lists)
    && (forall i, j :: 0 <= i < j < |lists| ==> lists[i].name != lists[j].name)
  }

  /** The composite primary key of `list_items`. */
  ghost predicate UniquePairs(items: seq<ListItem>)
  {
    forall i, j :: 0 <= i < j < |items| ==>
      (items[i].listId, items[i].plateId) != (items[j].listId, items[j].plateId)
  }

  /** The primary key and the two foreign keys of `list_items`. */
  ghost predicate ItemsValid(items: seq<ListItem>, plates: seq<Plate>, lists: seq<List>)
  {
    && UniquePairs(items)
    && (forall it :: it in items ==> it.listId in ListIds(lists) && it.plateId in PlateIds(plates))
  }

  ghost predicate Valid(t: Tables)
  {
    && PlatesValid(t.plates, t.nextPlateId)
    && ListsValid(t.lists)
    && ItemsValid(t.items, t.plates, t.lists)
  }

  /** The database after the schema migration has run on an empty database:
      no plates, no memberships, and the two seeded lists. The migration only
      creates what is missing, so on a database that already holds data it
      changes nothing; `NumberRepository.Open` accepts any tables that satisfy
      the schema. */
  function Seeded(): (t: Tables)
    ensures Valid(t)
  {
    Tables([], [List(1, "default_whitelist", "WHITELIST", Some("Default whitelist")),
                List(2, "default_blacklist", "BLACKLIST", Some("Default blacklist"))], [], 1)
  }

  // ---------------------------------------------------------------- queries

  /** `WHERE normalized = key` on `plates`, in table order. */
  function PlatesWithKey(plates: seq<Plate>, key: string): (r: seq<Plate>)
    ensures forall p :: p in r <==> p in plates && p.normalized == key
  {
    if plates == [] then []
    else (if plates[0].normalized == key then [plates[0]] else []) + PlatesWithKey(plates[1..], key)
  }

  /** `First` by key: the plate row with that key, if any. */
  function FindPlate(plates: seq<Plate>, key: string): (r: Option<Plate>)
    ensures r.Some? ==> r.value in plates && r.value.normalized == key
    ensures r.None? ==> forall p :: p in plates ==> p.normalized != key
  {
    var found := PlatesWithKey(plates, key);
    if found == [] then None else Some(found[0])
  }

  /** `First` by name on `lists`. */
  function ListNamed(lists: seq<List>, name: string): (r: Option<List>)
    ensures r.Some? ==> r.value in lists && r.value.name == name
    ensures r.None? ==> forall l :: l in lists ==> l.name != name
  {
    if lists == [] then None
    else if lists[0].name == name then Some(lists[0])
    else ListNamed(lists[1..], name)
  }

  /** `First` by id on `lists`. */
  function ListWithId(lists: seq<List>, id: int): (r: Option<List>)
    ensures r.Some? ==> r.value in lists && r.value.id == id
    ensures r.None? ==> id !in ListIds(lists)
  {
    if lists == [] then None
    else if lists[0].id == id then Some(lists[0])
    else ListWithId(lists[1..], id)
  }

  function AsHit(l: List): ListHit
  {
    ListHit(l.id, l.name, l.kind)
  }

  /** Every hit some list of `lists` would produce. */
  function AllHits(lists: seq<List>): set<ListHit>
  {
    set l | l in lists :: AsHit(l)
  }

  /** The join of one membership row with `lists ON list_items.list_id = lists.id`. */
  function JoinOnList(lists: seq<List>, listId: int): (r: seq<ListHit>)
    ensures forall h :: h in r ==> h.listId == listId && h in AllHits(lists)
    ensures forall l :: l in lists && l.id == listId ==> AsHit(l) in r
  {
    if lists == [] then []
    else (if lists[0].id == listId then [AsHit(lists[0])] else []) + JoinOnList(lists[1..], listId)
  }

  /** No list is named by two of the hits. */
  ghost predicate DistinctLists(hits: seq<ListHit>)
  {
    forall i, j :: 0 <= i < j < |hits| ==> hits[i].listId != hits[j].listId
  }

  /** The membership query of FindListsForPlate: one hit per membership row of
      `plateId` joined with its list, in `list_items` order. */
  function HitsFor(items: seq<ListItem>, lists: seq<List>, plateId: int): (r: seq<ListHit>)
    ensures forall h :: h in r ==> (h.listId, plateId) in Pairs(items) && h in AllHits(lists)
    ensures forall l :: l in lists && (l.id, plateId) in Pairs(items) ==> AsHit(l) in r
  {
    if items == [] then []
    else
      var here := if items[0].plateId == plateId then JoinOnList(lists, items[0].listId) else [];
      PairsCons(items);
      here + HitsFor(items[1..], lists, plateId)
  }

  lemma PairsCons(items: seq<ListItem>)
    requires items != []
    ensures Pairs(items) == {(items[0].listId, items[0].plateId)} + Pairs(items[1..])
  {
    assert items == [items[0]] + items[1..];
  }

  // ---------------------------------------------------------------- updates

  /** GetOrCreatePlate: the new tables, the returned id and the returned error.
      A failure returns id 0 and changes nothing; otherwise the only change is
      one new plate row, carrying the key and the submitted text, made when no
      row had the key. */
  function GetOrCreate(t: Tables, key: string, original: string, outage: Outage): (r: (Tables, int, Option<DbError>))
    ensures r.0.lists == t.lists && r.0.items == t.items && t.plates <= r.0.plates
    ensures r.2.Some? ==> r.1 == 0 && r.0 == t
    ensures r.2.None? && r.0 == t ==> exists p :: p in t.plates && p.normalized == key && p.id == r.1
    ensures r.0 != t ==> r.2.None? && FindPlate(t.plates, key).None?
                          && r.0.plates == t.plates + [Plate(r.1, original, key)]
  {
    if Fault(outage, PlateLookup).Some? then (t, 0, Fault(outage, PlateLookup))
    else match FindPlate(t.plates, key)
      case Some(p) => (t, p.id, None)
      case None =>
        if Fault(outage, PlateInsert).Some? then (t, 0, Fault(outage, PlateInsert))
        else (t.(plates := t.plates + [Plate(t.nextPlateId, original, key)], nextPlateId := t.nextPlateId + 1),
              t.nextPlateId, None)
  }

  /** GetListByName: a list of that name, or record-not-found exactly when
      there is none, or the failure of the round trip. */
  function FindListByName(t: Tables, name: string, outage: Outage): (r: Result<List, DbError>)
    ensures r.Success? ==> r.value in t.lists && r.value.name == name
    ensures Fault(outage, ListLookup).Some? ==> r == Failure(Fault(outage, ListLookup).value)
    ensures Fault(outage, ListLookup).None? ==>
      (r.Failure? <==> forall l :: l in t.lists ==> l.name != name) && (r.Failure? ==> r.error == RecordNotFound)
  {
    if Fault(outage, ListLookup).Some? then Failure(Fault(outage, ListLookup).value)
    else match ListNamed(t.lists, name)
      case Some(l) => Success(l)
      case None => Failure(RecordNotFound)
  }

  /** GetList: the list with that id, or record-not-found exactly when there
      is none, or the failure of the round trip. */
  function FindListById(t: Tables, id: int, outage: Outage): (r: Result<List, DbError>)
    ensures r.Success? ==> r.value in t.lists && r.value.id == id
    ensures Fault(outage, ListLookup).Some? ==> r == Failure(Fault(outage, ListLookup).value)
    ensures Fault(outage, ListLookup).None? ==>
      (r.Failure? <==> id !in ListIds(t.lists)) && (r.Failure? ==> r.error == RecordNotFound)
  {
    if Fault(outage, ListLookup).Some? then Failure(Fault(outage, ListLookup).value)
    else match ListWithId(t.lists, id)
      case Some(l) => Success(l)
      case None => Failure(RecordNotFound)
  }

  /** AddPlateToList: an INSERT into `list_items`, checked against its primary
      key and then its foreign keys. */
  function AddItem(t: Tables, listId: int, plateId: int, note: Option<string>, outage: Outage): (r: (Tables, Option<DbError>))
    ensures r.0.plates == t.plates && r.0.lists == t.lists && r.0.nextPlateId == t.nextPlateId
    ensures r.1.Some? ==> r.0 == t
    ensures (listId, plateId) in Pairs(t.items) ==> r.1.Some?
    ensures r.1.None? ==> r.0.items == t.items + [ListItem(listId, plateId, note)]
                          && listId in ListIds(t.lists) && plateId in PlateIds(t.plates)
  {
    if Fault(outage, ItemInsert).Some? then (t, Fault(outage, ItemInsert))
    else if (listId, plateId) in Pairs(t.items) then (t, Some(UniqueViolation("list_items_pkey")))
    else if listId !in ListIds(t.lists) then (t, Some(ForeignKeyViolation("list_items_list_id_fkey")))
    else if plateId !in PlateIds(t.plates) then (t, Some(ForeignKeyViolation("list_items_plate_id_fkey")))
    else (t.(items := t.items + [ListItem(listId, plateId, note)]), None)
  }

  /** `DELETE FROM list_items WHERE list_id = listId AND plate_id = plateId`. */
  function WithoutPair(items: seq<ListItem>, listId: int, plateId: int): (r: seq<ListItem>)
    ensures forall it :: it in r <==> it in items && (it.listId, it.plateId) != (listId, plateId)
  {
    if items == [] then []
    else
      (if (items[0].listId, items[0].plateId) == (listId, plateId) then [] else [items[0]])
      + WithoutPair(items[1..], listId, plateId)
  }

  /** RemovePlateFromList: how many rows the DELETE affected is not looked at. */
  function RemoveItem(t: Tables, listId: int, plateId: int, outage: Outage): (r: (Tables, Option<DbError>))
    ensures r.0.plates == t.plates && r.0.lists == t.lists && r.0.nextPlateId == t.nextPlateId
    ensures r.1.Some? <==> Fault(outage, ItemDelete).Some?
    ensures r.1.Some? ==> r.0 == t
    ensures r.1.None? ==> forall it :: it in r.0.items <==> it in t.items && (it.listId, it.plateId) != (listId, plateId)
  {
    if Fault(outage, ItemDelete).Some? then (t, Fault(outage, ItemDelete))
    else (t.(items := WithoutPair(t.items, listId, plateId)), None)
  }
}
