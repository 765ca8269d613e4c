/** What the service promises about its three operations: the validation of
    the plate, the plate that check and add store as a side effect, the
    asymmetry between add (which creates the plate) and remove (which never
    does), and how a membership added or removed shows in a later check. */
module ServiceProperties {
  import opened Errors
  import opened Store
  import opened Service
  import SP = StoreProperties

  /** The plates table only ever grows, and the lists table never changes. */
  ghost predicate Grows(t: Tables, t': Tables)
  {
    t.plates <= t'.plates && t'.lists == t.lists
  }

  /** A check keeps the constraints of the tables and only ever adds a plate. */
  lemma CheckKeepsValid(t: Tables, key: string, raw: string, outage: Outage)
    requires Valid(t)
    ensures var t' := CheckOutcome(t, key, raw, outage).0;
      Valid(t') && Grows(t, t') && t'.items == t.items
  {
    SP.GetOrCreateKeepsValid(t, key, raw, outage);
    SP.GetOrCreateResolves(t, key, raw, outage);
  }

  /** An add keeps the constraints of the tables and only ever adds a plate
      and a membership. */
  lemma AddKeepsValid(t: Tables, key: string, raw: string, listName: string, note: Option<string>, outage: Outage)
    requires Valid(t)
    ensures var t' := AddOutcome(t, key, raw, listName, note, outage).0;
      Valid(t') && Grows(t, t') && Pairs(t.items) <= Pairs(t'.items)
  {
    SP.GetOrCreateKeepsValid(t, key, raw, outage);
    SP.GetOrCreateResolves(t, key, raw, outage);
    var (t1, id, err) := GetOrCreate(t, key, raw, outage);
    if key != "" && err.None? && FindListByName(t1, listName, outage).Success? {
      var list := FindListByName(t1, listName, outage).value;
      SP.AddItemKeepsValid(t1, list.id, id, note, outage);
      SP.AddItemOutcome(t1, list.id, id, note, outage);
    }
  }

  /** A remove keeps the constraints of the tables, never touches the plates
      or the lists, and only ever takes memberships away. */
  lemma RemoveKeepsValid(t: Tables, key: string, listName: string, outage: Outage)
    requires Valid(t)
    ensures var t' := RemoveOutcome(t, key, listName, outage).0;
      Valid(t') && t'.plates == t.plates && t'.lists == t.lists && t'.nextPlateId == t.nextPlateId
      && Pairs(t'.items) <= Pairs(t.items)
  {
    var plates := PlatesWithKey(t.plates, key);
    if key != "" && Fault(outage, PlateSearch).None? && plates != [] && FindListByName(t, listName, outage).Success? {
      var list := FindListByName(t, listName, outage).value;
      SP.RemoveItemKeepsValid(t, list.id, plates[0].id, outage);
      SP.RemoveItemOutcome(t, list.id, plates[0].id, outage);
    }
  }

  // ---------------------------------------------------------------- check

  /** A plate that normalizes to nothing is refused as invalid input before
      any table is touched. */
  lemma CheckRejectsEmpty(t: Tables, raw: string, outage: Outage)
    ensures CheckOutcome(t, "", raw, outage) == (t, Failure(EmptyPlate()))
    ensures Is(EmptyPlate(), ErrInvalidInput) && !Is(EmptyPlate(), ErrNotFound)
    ensures Text(EmptyPlate()) == "invalid input: plate number cannot be empty"
  {
  }

  /** A check stores the plate it sees, even when the membership query fails
      afterwards; on success it returns that plate's id, the key, the text as
      submitted, and exactly the lists holding the plate, none twice. A healthy
      database never makes a valid plate fail. */
  lemma CheckResolves(t: Tables, key: string, raw: string, outage: Outage)
    requires Valid(t) && key != ""
    ensures var (t', r) := CheckOutcome(t, key, raw, outage);
      && (Fault(outage, PlateLookup).None? && Fault(outage, PlateInsert).None? ==> FindPlate(t'.plates, key).Some?)
      && (outage == Healthy ==> r.Success?)
      && (r.Failure? ==> Root(r.error).Storage?)
      && (r.Success? ==>
           && FindPlate(t'.plates, key).Some?
           && FindPlate(t'.plates, key).value.id == r.value.plateId
           && r.value.plate == key && r.value.original == raw
           && (forall l :: l in t.lists ==> (AsHit(l) in r.value.hits <==> (l.id, r.value.plateId) in Pairs(t'.items)))
           && (forall h :: h in r.value.hits ==> h in AllHits(t.lists) && (h.listId, r.value.plateId) in Pairs(t'.items))
           && DistinctLists(r.value.hits))
  {
    SP.GetOrCreateResolves(t, key, raw, outage);
    SP.GetOrCreateKeepsValid(t, key, raw, outage);
    var (t', id, err) := GetOrCreate(t, key, raw, outage);
    SP.HitsDistinct(t'.items, t'.lists, id);
  }

  /** Two inputs with the same normalized key resolve to the same plate id,
      whatever ran between the two checks. */
  lemma SameKeySamePlate(t: Tables, key: string, raw1: string, raw2: string, o1: Outage, o2: Outage, t2: Tables)
    requires Valid(t) && Valid(t2) && key != ""
    requires CheckOutcome(t, key, raw1, o1).1.Success?
    requires Grows(CheckOutcome(t, key, raw1, o1).0, t2)
    requires CheckOutcome(t2, key, raw2, o2).1.Success?
    ensures CheckOutcome(t, key, raw1, o1).1.value.plateId == CheckOutcome(t2, key, raw2, o2).1.value.plateId
  {
    CheckResolves(t, key, raw1, o1);
    CheckResolves(t2, key, raw2, o2);
    var t1 := CheckOutcome(t, key, raw1, o1).0;
    var p := FindPlate(t1.plates, key).value;
    SP.PlatePersists(t1.plates, t2.plates, p);
    SP.GetOrCreateExisting(t2, p, raw2, o2);
  }

  // ---------------------------------------------------------------- add

  lemma AddRejectsEmpty(t: Tables, raw: string, listName: string, note: Option<string>, outage: Outage)
    ensures AddOutcome(t, "", raw, listName, note, outage) == (t, Some(EmptyPlate()))
  {
  }

  /** The plate is stored before the list is resolved: when no list has the
      name, the plate row has still been created, and the error wraps the
      storage layer's record-not-found, which is not the service's `ErrNotFound`. */
  lemma AddToMissingList(t: Tables, key: string, raw: string, listName: string, note: Option<string>, outage: Outage)
    requires Valid(t) && key != ""
    requires Fault(outage, PlateLookup).None? && Fault(outage, PlateInsert).None? && Fault(outage, ListLookup).None?
    requires forall l :: l in t.lists ==> l.name != listName
    ensures var (t', err) := AddOutcome(t, key, raw, listName, note, outage);
      && err == Some(Because("failed to get list", RecordNotFound))
      && !Is(err.value, ErrNotFound) && !Is(err.value, ErrInvalidInput)
      && FindPlate(t'.plates, key).Some?
      && t'.items == t.items
  {
    SP.GetOrCreateResolves(t, key, raw, outage);
  }

  /** A successful add leaves the plate stored and a membership of the named
      list for it, and adds no other membership. */
  lemma AddSucceeds(t: Tables, key: string, raw: string, listName: string, note: Option<string>, outage: Outage)
    requires Valid(t)
    requires AddOutcome(t, key, raw, listName, note, outage).1.None?
    ensures var t' := AddOutcome(t, key, raw, listName, note, outage).0;
      && key != ""
      && ListNamed(t.lists, listName).Some?
      && FindPlate(t'.plates, key).Some?
      && var pair := (ListNamed(t.lists, listName).value.id, FindPlate(t'.plates, key).value.id);
         pair !in Pairs(t.items) && Pairs(t'.items) == Pairs(t.items) + {pair}
  {
    SP.GetOrCreateResolves(t, key, raw, outage);
    var (t1, id, _) := GetOrCreate(t, key, raw, outage);
    var list := FindListByName(t1, listName, outage).value;
    SP.AddItemOutcome(t1, list.id, id, note, outage);
    SP.AddItemKeepsValid(t1, list.id, id, note, outage);
    var t' := AddOutcome(t, key, raw, listName, note, outage).0;
    SP.GetOrCreateKeepsValid(t, key, raw, outage);
    SP.PlatePersists(t1.plates, t'.plates, FindPlate(t1.plates, key).value);
  }

  /** With the database answering, an add of a valid plate to an existing list
      that does not yet hold it succeeds, whether or not the plate was stored
      before. */
  lemma HealthyAddSucceeds(t: Tables, key: string, raw: string, l: List, note: Option<string>)
    requires Valid(t) && key != "" && l in t.lists
    requires forall p :: p in t.plates && p.normalized == key ==> (l.id, p.id) !in Pairs(t.items)
    ensures AddOutcome(t, key, raw, l.name, note, Healthy).1.None?
  {
    SP.GetOrCreateResolves(t, key, raw, Healthy);
    SP.GetOrCreateKeepsValid(t, key, raw, Healthy);
    SP.ListNamedIsTheList(t.lists, l);
    var (t1, id, _) := GetOrCreate(t, key, raw, Healthy);
    if t1 == t {
      // The plate was stored already: the membership is new by assumption.
      var p := FindPlate(t1.plates, key).value;
      assert (l.id, p.id) !in Pairs(t.items);
    } else {
      // The plate is new: no membership can name a fresh id.
      assert id !in PlateIds(t.plates);
      assert (l.id, id) !in Pairs(t.items);
      assert id in PlateIds(t1.plates) by {
        assert t1.plates[|t.plates|].id == id;
      }
    }
  }

  /** After a successful add, a check of any input with the same key succeeds
      unless its own round trips fail, and reports the list among its hits. */
  lemma AddThenCheckHits(t: Tables, key: string, raw1: string, raw2: string, listName: string,
                         note: Option<string>, o1: Outage, o2: Outage)
    requires Valid(t)
    requires AddOutcome(t, key, raw1, listName, note, o1).1.None?
    requires Fault(o2, PlateLookup).None? && Fault(o2, HitsQuery).None?
    ensures ListNamed(t.lists, listName).Some?
    ensures var r := CheckOutcome(AddOutcome(t, key, raw1, listName, note, o1).0, key, raw2, o2).1;
      r.Success? && AsHit(ListNamed(t.lists, listName).value) in r.value.hits
  {
    var t1 := AddOutcome(t, key, raw1, listName, note, o1).0;
    AddKeepsValid(t, key, raw1, listName, note, o1);
    AddSucceeds(t, key, raw1, listName, note, o1);
    var p := FindPlate(t1.plates, key).value;
    SP.GetOrCreateExisting(t1, p, raw2, o2);
    CheckResolves(t1, key, raw2, o2);
  }

  /** Adding a plate a list already holds fails with the raw primary-key
      violation of the membership table, wrapped, and changes nothing: there is
      never a second row for the pair. */
  lemma AddDuplicate(t: Tables, p: Plate, l: List, raw: string, note: Option<string>)
    requires Valid(t) && p in t.plates && l in t.lists && (l.id, p.id) in Pairs(t.items) && p.normalized != ""
    ensures AddOutcome(t, p.normalized, raw, l.name, note, Healthy)
            == (t, Some(Because("failed to add plate to list", UniqueViolation("list_items_pkey"))))
  {
    SP.GetOrCreateExisting(t, p, raw, Healthy);
    SP.ListNamedIsTheList(t.lists, l);
  }

  // ---------------------------------------------------------------- remove

  lemma RemoveRejectsEmpty(t: Tables, listName: string, outage: Outage)
    ensures RemoveOutcome(t, "", listName, outage) == (t, Some(EmptyPlate()))
  {
  }

  /** Remove never creates a plate: a key no plate has is reported as not
      found and nothing changes. */
  lemma RemoveUnseenPlate(t: Tables, key: string, listName: string, outage: Outage)
    requires key != "" && Fault(outage, PlateSearch).None?
    requires forall p :: p in t.plates ==> p.normalized != key
    ensures RemoveOutcome(t, key, listName, outage) == (t, Some(PlateNotFound()))
    ensures Is(PlateNotFound(), ErrNotFound) && !Is(PlateNotFound(), ErrInvalidInput)
    ensures Text(PlateNotFound()) == "not found: plate not found"
  {
    SP.NoPlateWithKey(t.plates, key);
  }

  /** A list missing on remove is reported through the storage layer's
      record-not-found, which is not the service's `ErrNotFound`. */
  lemma RemoveFromMissingList(t: Tables, p: Plate, listName: string, outage: Outage)
    requires Valid(t) && p in t.plates && p.normalized != ""
    requires Fault(outage, PlateSearch).None? && Fault(outage, ListLookup).None?
    requires forall l :: l in t.lists ==> l.name != listName
    ensures var (t', err) := RemoveOutcome(t, p.normalized, listName, outage);
      t' == t && err == Some(Because("failed to get list", RecordNotFound)) && !Is(err.value, ErrNotFound)
  {
    SP.PlatesWithKeyIsTheRow(t.plates, p);
  }

  /** A successful remove takes out exactly the membership of the named list
      for the plate with the key, and leaves every other one. */
  lemma RemoveSucceeds(t: Tables, key: string, listName: string, outage: Outage)
    requires Valid(t)
    requires RemoveOutcome(t, key, listName, outage).1.None?
    ensures var t' := RemoveOutcome(t, key, listName, outage).0;
      && FindPlate(t.plates, key).Some? && ListNamed(t.lists, listName).Some?
      && Pairs(t'.items) == Pairs(t.items) - {(ListNamed(t.lists, listName).value.id, FindPlate(t.plates, key).value.id)}
  {
    var plates := PlatesWithKey(t.plates, key);
    var list := FindListByName(t, listName, outage).value;
    SP.PlatesWithKeyIsTheRow(t.plates, plates[0]);
    SP.RemoveItemOutcome(t, list.id, plates[0].id, outage);
  }

  /** Removing a plate a list does not hold succeeds and changes nothing. */
  lemma RemoveNonMember(t: Tables, p: Plate, l: List)
    requires Valid(t) && p in t.plates && l in t.lists && p.normalized != ""
    requires (l.id, p.id) !in Pairs(t.items)
    ensures RemoveOutcome(t, p.normalized, l.name, Healthy) == (t, None)
  {
    SP.PlatesWithKeyIsTheRow(t.plates, p);
    SP.ListNamedIsTheList(t.lists, l);
    SP.WithoutAbsentPair(t.items, l.id, p.id);
  }

  /** With the database answering, a remove of a stored plate from an existing
      list succeeds, whether or not the list holds the plate. */
  lemma HealthyRemoveSucceeds(t: Tables, p: Plate, l: List)
    requires Valid(t) && p in t.plates && l in t.lists && p.normalized != ""
    ensures RemoveOutcome(t, p.normalized, l.name, Healthy).1.None?
  {
    SP.PlatesWithKeyIsTheRow(t.plates, p);
    SP.ListNamedIsTheList(t.lists, l);
  }

  /** Remove undoes add: after a successful add, removing the same key from
      the same list succeeds on a healthy database and leaves exactly the
      memberships there were before the add. */
  lemma RemoveUndoesAdd(t: Tables, key: string, raw: string, l: List, note: Option<string>, outage: Outage)
    requires Valid(t) && l in t.lists
    requires AddOutcome(t, key, raw, l.name, note, outage).1.None?
    ensures var t1 := AddOutcome(t, key, raw, l.name, note, outage).0;
      var (t2, err) := RemoveOutcome(t1, key, l.name, Healthy);
      err.None? && Pairs(t2.items) == Pairs(t.items)
  {
    var t1 := AddOutcome(t, key, raw, l.name, note, outage).0;
    AddKeepsValid(t, key, raw, l.name, note, outage);
    AddSucceeds(t, key, raw, l.name, note, outage);
    SP.ListNamedIsTheList(t.lists, l);
    var p := FindPlate(t1.plates, key).value;
    HealthyRemoveSucceeds(t1, p, l);
    RemoveSucceeds(t1, key, l.name, Healthy);
  }

  /** After a successful remove, a check of any input with the same key no
      longer reports the list. */
  lemma RemoveThenCheckMisses(t: Tables, key: string, raw: string, listName: string, o1: Outage, o2: Outage)
    requires Valid(t)
    requires RemoveOutcome(t, key, listName, o1).1.None?
    requires CheckOutcome(RemoveOutcome(t, key, listName, o1).0, key, raw, o2).1.Success?
    ensures ListNamed(t.lists, listName).Some?
    ensures AsHit(ListNamed(t.lists, listName).value)
            !in CheckOutcome(RemoveOutcome(t, key, listName, o1).0, key, raw, o2).1.value.hits
  {
    var t1 := RemoveOutcome(t, key, listName, o1).0;
    RemoveKeepsValid(t, key, listName, o1);
    RemoveSucceeds(t, key, listName, o1);
    var p := FindPlate(t.plates, key).value;
    SP.PlatesWithKeyIsTheRow(t1.plates, p);
    SP.GetOrCreateExisting(t1, p, raw, o2);
    CheckResolves(t1, key, raw, o2);
  }

  /** The migration seeds both lists the service resolves by name. */
  lemma WellKnownListsSeeded()
    ensures FindListByName(Seeded(), WhitelistName, Healthy).Success?
    ensures FindListByName(Seeded(), WhitelistName, Healthy).value.kind == "WHITELIST"
    ensures FindListByName(Seeded(), BlacklistName, Healthy).Success?
    ensures FindListByName(Seeded(), BlacklistName, Healthy).value.kind == "BLACKLIST"
  {
  }
}
