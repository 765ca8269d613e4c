/** The number service: normalizes a submitted plate, then checks it against
    the lists, adds it to a list, or removes it from one. What each operation
    does to the tables and returns is a function of the old tables
    (`CheckOutcome`, `AddOutcome`, `RemoveOutcome`); the methods of
    `NumberService` carry out those steps through the repository and are
    proved to match them. */
module Service {
  import opened Errors
  import opened Store
  import opened Repository

  /** The well-known names the service resolves its two lists by. */
  const WhitelistName := "default_whitelist"
  const BlacklistName := "default_blacklist"

  /** What a check returns: the plate's id, its normalized key, the text as
      submitted, and the lists that hold it. */
  datatype CheckResult = CheckResult(plateId: int, plate: string, original: string, hits: seq<ListHit>)

  /** The error for a plate that normalizes to nothing: `ErrInvalidInput`
      wrapped with a message. */
  function EmptyPlate(): (e: Error)
    ensures Is(e, ErrInvalidInput) && !Is(e, ErrNotFound)
    ensures Text(e) == "invalid input: plate number cannot be empty"
  {
    Wrapped("", Base(ErrInvalidInput), ": plate number cannot be empty")
  }

  /** The error for removing a plate that was never stored: `ErrNotFound`
      wrapped with a message. */
  function PlateNotFound(): (e: Error)
    ensures Is(e, ErrNotFound) && !Is(e, ErrInvalidInput)
    ensures Text(e) == "not found: plate not found"
  {
    Wrapped("", Base(ErrNotFound), ": plate not found")
  }

  /** A storage failure, wrapped with the step that met it: the message
      leads with the context, and neither sentinel is on the chain. */
  function Because(context: string, cause: DbError): (e: Error)
    ensures Root(e) == Storage(cause)
    ensures !Is(e, ErrInvalidInput) && !Is(e, ErrNotFound)
    ensures Text(e) == context + ": " + DbText(cause)
  {
    Wrapped(context + ": ", Storage(cause), "")
  }

  /** NormalizeAndCheck on a plate whose normalized form is `key`. A failure
      is invalid input exactly when the key is empty, and never not-found; a
      success reports the key and the text as submitted. */
  function CheckOutcome(t: Tables, key: string, raw: string, outage: Outage): (r: (Tables, Result<CheckResult, Error>))
    ensures r.1.Failure? ==> (Is(r.1.error, ErrInvalidInput) <==> key == "") && !Is(r.1.error, ErrNotFound)
    ensures key == "" ==> r == (t, Failure(EmptyPlate()))
    ensures r.1.Success? ==> r.1.value.plate == key && r.1.value.original == raw
  {
    if key == "" then (t, Failure(EmptyPlate()))
    else
      var (t1, plateId, err) := GetOrCreate(t, key, raw, outage);
      if err.Some? then (t1, Failure(Because("failed to get or create plate", err.value)))
      else if Fault(outage, HitsQuery).Some? then
        (t1, Failure(Because("failed to find lists for plate", Fault(outage, HitsQuery).value)))
      else (t1, Success(CheckResult(plateId, key, raw, HitsFor(t1.items, t1.lists, plateId))))
  }

  /** addToList on a plate whose normalized form is `key`; `None` is success.
      An error is invalid input exactly when the key is empty, and never
      not-found: a missing list and a duplicate are storage errors. */
  function AddOutcome(t: Tables, key: string, raw: string, listName: string, note: Option<string>, outage: Outage)
    : (r: (Tables, Option<Error>))
    ensures r.1.Some? ==> (Is(r.1.value, ErrInvalidInput) <==> key == "") && !Is(r.1.value, ErrNotFound)
    ensures key == "" ==> r == (t, Some(EmptyPlate()))
    ensures r.0.lists == t.lists
  {
    if key == "" then (t, Some(EmptyPlate()))
    else
      var (t1, plateId, err) := GetOrCreate(t, key, raw, outage);
      if err.Some? then (t1, Some(Because("failed to get or create plate", err.value)))
      else match FindListByName(t1, listName, outage)
        case Failure(e) => (t1, Some(Because("failed to get list", e)))
        case Success(list) =>
          var (t2, err2) := AddItem(t1, list.id, plateId, note, outage);
          (t2, if err2.Some? then Some(Because("failed to add plate to list", err2.value)) else None)
  }

  /** removeFromList on a plate whose normalized form is `key`; `None` is
      success. An error is invalid input exactly when the key is empty and
      not-found exactly when the search ran and found no plate; any error
      leaves the tables as they were. */
  function RemoveOutcome(t: Tables, key: string, listName: string, outage: Outage): (r: (Tables, Option<Error>))
    ensures r.1.Some? ==> r.0 == t
    ensures r.1.Some? ==> (Is(r.1.value, ErrInvalidInput) <==> key == "")
    ensures r.1.Some? ==> (Is(r.1.value, ErrNotFound) <==>
              key != "" && Fault(outage, PlateSearch).None? && forall p :: p in t.plates ==> p.normalized != key)
    ensures r.0.plates == t.plates && r.0.lists == t.lists
  {
    if key == "" then (t, Some(EmptyPlate()))
    else if Fault(outage, PlateSearch).Some? then
      (t, Some(Because("failed to find plate", Fault(outage, PlateSearch).value)))
    else
      var plates := PlatesWithKey(t.plates, key);
      if plates == [] then (t, Some(PlateNotFound()))
      else
        assert plates[0] in plates;
        match FindListByName(t, listName, outage)
        case Failure(e) => (t, Some(Because("failed to get list", e)))
        case Success(list) =>
          var (t2, err) := RemoveItem(t, list.id, plates[0].id, outage);
          (t2, if err.Some? then Some(Because("failed to remove plate from list", err.value)) else None)
  }

  class NumberService {
    const repo: NumberRepository
    /** The plate normalizer the service is built with; "" marks an invalid plate. */
    const normalize: string -> string

    constructor(repo: NumberRepository, normalize: string -> string)
      ensures this.repo == repo && this.normalize == normalize
    {
      this.repo := repo;
      this.normalize := normalize;
    }

    method NormalizeAndCheck(plateNumber: string, outage: Outage) returns (r: Result<CheckResult, Error>)
      requires repo.Valid()
      modifies repo
      ensures repo.Valid()
      ensures (repo.State(), r) == CheckOutcome(old(repo.State()), normalize(plateNumber), plateNumber, outage)
    {
      var normalized := normalize(plateNumber);
      if normalized == "" {
        return Failure(EmptyPlate());
      }
      var plateId, err := repo.GetOrCreatePlate(normalized, plateNumber, outage);
      if err.Some? {
        return Failure(Because("failed to get or create plate", err.value));
      }
      var hits, err2 := repo.FindListsForPlate(plateId, outage);
      if err2.Some? {
        return Failure(Because("failed to find lists for plate", err2.value));
      }
      return Success(CheckResult(plateId, normalized, plateNumber, hits));
    }

    method AddToWhitelist(plateNumber: string, note: Option<string>, outage: Outage) returns (err: Option<Error>)
      requires repo.Valid()
      modifies repo
      ensures repo.Valid()
      ensures (repo.State(), err) == AddOutcome(old(repo.State()), normalize(plateNumber), plateNumber, WhitelistName, note, outage)
    {
      err := AddToList(plateNumber, WhitelistName, note, outage);
    }

    method AddToBlacklist(plateNumber: string, note: Option<string>, outage: Outage) returns (err: Option<Error>)
      requires repo.Valid()
      modifies repo
      ensures repo.Valid()
      ensures (repo.State(), err) == AddOutcome(old(repo.State()), normalize(plateNumber), plateNumber, BlacklistName, note, outage)
    {
      err := AddToList(plateNumber, BlacklistName, note, outage);
    }

    method RemoveFromWhitelist(plateNumber: string, outage: Outage) returns (err: Option<Error>)
      requires repo.Valid()
      modifies repo
      ensures repo.Valid()
      ensures (repo.State(), err) == RemoveOutcome(old(repo.State()), normalize(plateNumber), WhitelistName, outage)
    {
      err := RemoveFromList(plateNumber, WhitelistName, outage);
    }

    method RemoveFromBlacklist(plateNumber: string, outage: Outage) returns (err: Option<Error>)
      requires repo.Valid()
      modifies repo
      ensures repo.Valid()
      ensures (repo.State(), err) == RemoveOutcome(old(repo.State()), normalize(plateNumber), BlacklistName, outage)
    {
      err := RemoveFromList(plateNumber, BlacklistName, outage);
    }

    method AddToList(plateNumber: string, listName: string, note: Option<string>, outage: Outage) returns (err: Option<Error>)
      requires repo.Valid()
      modifies repo
      ensures repo.Valid()
      ensures (repo.State(), err) == AddOutcome(old(repo.State()), normalize(plateNumber), plateNumber, listName, note, outage)
    {
      var normalized := normalize(plateNumber);
      if normalized == "" {
        return Some(EmptyPlate());
      }
      var plateId, getErr := repo.GetOrCreatePlate(normalized, plateNumber, outage);
      if getErr.Some? {
        return Some(Because("failed to get or create plate", getErr.value));
      }
      var list := repo.GetListByName(listName, outage);
      if list.Failure? {
        return Some(Because("failed to get list", list.error));
      }
      var addErr := repo.AddPlateToList(list.value.id, plateId, note, outage);
      if addErr.Some? {
        return Some(Because("failed to add plate to list", addErr.value));
      }
      return None;
    }

    method RemoveFromList(plateNumber: string, listName: string, outage: Outage) returns (err: Option<Error>)
      requires repo.Valid()
      modifies repo
      ensures repo.Valid()
      ensures (repo.State(), err) == RemoveOutcome(old(repo.State()), normalize(plateNumber), listName, outage)
    {
      var normalized := normalize(plateNumber);
      if normalized == "" {
        return Some(EmptyPlate());
      }
      var plates, findErr := repo.FindPlatesByNormalized(normalized, outage);
      if findErr.Some? {
        return Some(Because("failed to find plate", findErr.value));
      }
      if |plates| == 0 {
        return Some(PlateNotFound());
      }
      var list := repo.GetListByName(listName, outage);
      if list.Failure? {
        return Some(Because("failed to get list", list.error));
      }
      var removeErr := repo.RemovePlateFromList(list.value.id, plates[0].id, outage);
      if removeErr.Some? {
        return Some(Because("failed to remove plate from list", removeErr.value));
      }
      return None;
    }
  }
}
