/** The HTTP layer over the service: the response envelopes, the mapping of
    service errors to status codes, the pre-processing of requests (trimming
    the `plate` query, turning an empty note into an absent one), and the five
    endpoints that wire these to the service. */
module Http {
  import opened Errors
  import opened Store
  import opened Service

  const StatusOK := 200
  const StatusBadRequest := 400
  const StatusNotFound := 404
  const StatusInternalServerError := 500

  /** What a successful endpoint answers with. */
  datatype Payload = Message(text: string) | Checked(result: CheckResult)

  /** The JSON envelopes `{"data": ...}` and `{"error": ...}`. */
  datatype Body = Data(data: Payload) | ErrorBody(message: string)

  datatype Response = Response(status: int, body: Body)

  /** `{"data": data}`. */
  function SuccessResponse(data: Payload): (b: Body)
    ensures b.Data? && b.data == data
  {
    Data(data)
  }

  /** `{"error": message}`. */
  function ErrorResponse(message: string): (b: Body)
    ensures b.ErrorBody? && b.message == message
  {
    ErrorBody(message)
  }

  // ---------------------------------------------------------------- errors

  /** handleError: invalid input is a 400 and not found a 404, both carrying
      the error's message; everything else is a 500 that hides it. */
  function HandleError(err: Error): (r: Response)
    ensures r.status == StatusBadRequest <==> Is(err, ErrInvalidInput)
    ensures r.status == StatusNotFound <==> !Is(err, ErrInvalidInput) && Is(err, ErrNotFound)
    ensures r.status == StatusInternalServerError <==> !Is(err, ErrInvalidInput) && !Is(err, ErrNotFound)
    ensures r.status != StatusInternalServerError ==> r.body == ErrorResponse(Text(err))
    ensures r.status == StatusInternalServerError ==> r.body == ErrorResponse("internal error")
  {
    if Is(err, ErrInvalidInput) then Response(StatusBadRequest, ErrorResponse(Text(err)))
    else if Is(err, ErrNotFound) then Response(StatusNotFound, ErrorResponse(Text(err)))
    else Response(StatusInternalServerError, ErrorResponse("internal error"))
  }

  /** The error branch of checkNumber: only invalid input is a client error;
      there is no 404 branch. */
  function CheckFailure(err: Error): (r: Response)
    ensures r.status == StatusBadRequest <==> Is(err, ErrInvalidInput)
    ensures r.status == StatusInternalServerError <==> !Is(err, ErrInvalidInput)
    ensures r.status == StatusBadRequest ==> r.body == ErrorResponse(Text(err))
    ensures r.status == StatusInternalServerError ==> r.body == ErrorResponse("internal error")
  {
    if Is(err, ErrInvalidInput) then Response(StatusBadRequest, ErrorResponse(Text(err)))
    else Response(StatusInternalServerError, ErrorResponse("internal error"))
  }

  /** The answer of an add or remove endpoint to the service's error, if any:
      200 with the message on success, and otherwise the classified error,
      which is never a 200. */
  function Reply(err: Option<Error>, message: string): (r: Response)
    ensures r.status == StatusOK <==> err.None?
    ensures err.None? ==> r.body == SuccessResponse(Message(message))
    ensures err.Some? ==> r == HandleError(err.value) && r.body.ErrorBody?
  {
    match err
    case None => Response(StatusOK, SuccessResponse(Message(message)))
    case Some(e) => HandleError(e)
  }

  // ---------------------------------------------------------------- requests

  /** What JSON binding made of a request body: the bound value, or the
      binder's message when the body is malformed or lacks a required field
      (an empty `plate` counts as lacking it). */
  datatype Bound<T> = Rejected(reason: string) | Accepted(value: T)

  /** The body of the add endpoints. */
  datatype AddRequest = AddRequest(plate: string, note: string)

  /** Go's `unicode.IsSpace`: the Unicode White_Space characters. */
  predicate IsSpace(c: char)
  {
    || ('\U{0009}' <= c <= '\U{000D}') || c == ' ' || c == '\U{0085}' || c == '\U{00A0}'
    || c == '\U{1680}' || ('\U{2000}' <= c <= '\U{200A}') || c == '\U{2028}' || c == '\U{2029}'
    || c == '\U{202F}' || c == '\U{205F}' || c == '\U{3000}'
  }

  /** Drops the leading white space. */
  function TrimLeft(s: string): (r: string)
    ensures |r| <= |s| && r == s[|s| - |r|..]
    ensures r == [] || !IsSpace(r[0])
    ensures forall i :: 0 <= i < |s| - |r| ==> IsSpace(s[i])
  {
    if s != [] && IsSpace(s[0]) then TrimLeft(s[1..]) else s
  }

  /** Drops the trailing white space. */
  function TrimRight(s: string): (r: string)
    ensures |r| <= |s| && r == s[..|r|]
    ensures r == [] || !IsSpace(r[|r| - 1])
    ensures forall i :: |r| <= i < |s| ==> IsSpace(s[i])
  {
    if s != [] && IsSpace(s[|s| - 1]) then TrimRight(s[..|s| - 1]) else s
  }

  /** `strings.TrimSpace`: cuts the white space at both ends. */
  function TrimSpace(s: string): (r: string)
    ensures r == [] || (!IsSpace(r[0]) && !IsSpace(r[|r| - 1]))
  {
    TrimRight(TrimLeft(s))
  }

  /** What `TrimSpace` keeps is one slice of its input, and all it cuts, on
      either side, is white space. */
  lemma TrimSpaceSlice(s: string)
    ensures var r, k := TrimSpace(s), |s| - |TrimLeft(s)|;
      && k + |r| <= |s| && r == s[k..k + |r|]
      && (forall i :: 0 <= i < k ==> IsSpace(s[i]))
      && (forall i :: k + |r| <= i < |s| ==> IsSpace(s[i]))
  {
    var left := TrimLeft(s);
    var k := |s| - |left|;
    CutFromSuffix(s, k, TrimRight(left));
  }

  /** A trimmed prefix of the suffix `s[k..]` is a slice of `s`, and what the
      trim cut from it is white space in `s` too. */
  lemma CutFromSuffix(s: string, k: nat, r: string)
    requires k <= |s| && |r| <= |s| - k && r == s[k..][..|r|]
    requires forall i :: |r| <= i < |s| - k ==> IsSpace(s[k..][i])
    ensures r == s[k..k + |r|]
    ensures forall i :: k + |r| <= i < |s| ==> IsSpace(s[i])
  {
    forall i | k + |r| <= i < |s| ensures IsSpace(s[i]) {
      assert s[i] == s[k..][i - k];
    }
  }

  /** Trimming leaves nothing exactly when the input is all white space. */
  lemma TrimSpaceBlank(s: string)
    ensures TrimSpace(s) == [] <==> forall i :: 0 <= i < |s| ==> IsSpace(s[i])
  {
  }

  /** Trimming twice is trimming once. */
  lemma TrimSpaceIdempotent(s: string)
    ensures TrimSpace(TrimSpace(s)) == TrimSpace(s)
  {
    var r := TrimSpace(s);
    if r != [] {
      assert TrimLeft(r) == r;
      assert TrimRight(r) == r;
    }
  }

  /** The `plate` query of the remove endpoints: trimmed, and absent when
      nothing is left, in which case the endpoint answers 400 itself. */
  function PlateParam(query: string): (r: Option<string>)
    ensures r.None? <==> forall i :: 0 <= i < |query| ==> IsSpace(query[i])
    ensures r.Some? ==> r.value == TrimSpace(query) && r.value != ""
  {
    TrimSpaceBlank(query);
    var plate := TrimSpace(query);
    if plate == "" then None else Some(plate)
  }

  /** The note of the add endpoints: an empty note is passed as absent. */
  function NoteArg(note: string): (r: Option<string>)
    ensures r.None? <==> note == ""
    ensures r.Some? ==> r.value == note
  {
    if note != "" then Some(note) else None
  }

  // ---------------------------------------------------------------- endpoints

  class Handler {
    const numberService: NumberService

    constructor(numberService: NumberService)
      ensures this.numberService == numberService
    {
      this.numberService := numberService;
    }

    /** POST /check: a body the binder refuses is a 400 carrying its message;
        otherwise the plate is checked. */
    method CheckNumber(req: Bound<string>, outage: Outage) returns (resp: Response)
      requires numberService.repo.Valid()
      modifies numberService.repo
      ensures numberService.repo.Valid()
      ensures req.Rejected? ==>
        resp == Response(StatusBadRequest, ErrorResponse(req.reason))
        && numberService.repo.State() == old(numberService.repo.State())
      ensures req.Accepted? ==>
        var plate := req.value;
        var (t, r) := CheckOutcome(old(numberService.repo.State()), numberService.normalize(plate), plate, outage);
        && numberService.repo.State() == t
        && resp == match r
                   case Success(c) => Response(StatusOK, SuccessResponse(Checked(c)))
                   case Failure(e) => CheckFailure(e)
    {
      if req.Rejected? {
        return Response(StatusBadRequest, ErrorResponse(req.reason));
      }
      var result := numberService.NormalizeAndCheck(req.value, outage);
      if result.Failure? {
        return CheckFailure(result.error);
      }
      return Response(StatusOK, SuccessResponse(Checked(result.value)));
    }

    /** POST /whitelist: a refused body is a 400; otherwise the plate is added
        with its note, an empty note passed as none. */
    method AddToWhitelist(req: Bound<AddRequest>, outage: Outage) returns (resp: Response)
      requires numberService.repo.Valid()
      modifies numberService.repo
      ensures numberService.repo.Valid()
      ensures req.Rejected? ==>
        resp == Response(StatusBadRequest, ErrorResponse(req.reason))
        && numberService.repo.State() == old(numberService.repo.State())
      ensures req.Accepted? ==>
        var (plate, note) := (req.value.plate, req.value.note);
        var (t, err) := AddOutcome(old(numberService.repo.State()), numberService.normalize(plate), plate,
                                   WhitelistName, NoteArg(note), outage);
        numberService.repo.State() == t && resp == Reply(err, "added to whitelist")
    {
      if req.Rejected? {
        return Response(StatusBadRequest, ErrorResponse(req.reason));
      }
      var err := numberService.AddToWhitelist(req.value.plate, NoteArg(req.value.note), outage);
      return Reply(err, "added to whitelist");
    }

    /** POST /blacklist: as for the whitelist. */
    method AddToBlacklist(req: Bound<AddRequest>, outage: Outage) returns (resp: Response)
      requires numberService.repo.Valid()
      modifies numberService.repo
      ensures numberService.repo.Valid()
      ensures req.Rejected? ==>
        resp == Response(StatusBadRequest, ErrorResponse(req.reason))
        && numberService.repo.State() == old(numberService.repo.State())
      ensures req.Accepted? ==>
        var (plate, note) := (req.value.plate, req.value.note);
        var (t, err) := AddOutcome(old(numberService.repo.State()), numberService.normalize(plate), plate,
                                   BlacklistName, NoteArg(note), outage);
        numberService.repo.State() == t && resp == Reply(err, "added to blacklist")
    {
      if req.Rejected? {
        return Response(StatusBadRequest, ErrorResponse(req.reason));
      }
      var err := numberService.AddToBlacklist(req.value.plate, NoteArg(req.value.note), outage);
      return Reply(err, "added to blacklist");
    }

    /** DELETE /whitelist?plate=...: a blank query is answered with 400 and the
        service is not called. */
    method RemoveFromWhitelist(query: string, outage: Outage) returns (resp: Response)
      requires numberService.repo.Valid()
      modifies numberService.repo
      ensures numberService.repo.Valid()
      ensures PlateParam(query).None? ==>
        resp == Response(StatusBadRequest, ErrorResponse("plate parameter is required"))
        && numberService.repo.State() == old(numberService.repo.State())
      ensures PlateParam(query).Some? ==>
        var plate := PlateParam(query).value;
        var (t, err) := RemoveOutcome(old(numberService.repo.State()), numberService.normalize(plate), WhitelistName, outage);
        numberService.repo.State() == t && resp == Reply(err, "removed from whitelist")
    {
      var plate := PlateParam(query);
      if plate.None? {
        return Response(StatusBadRequest, ErrorResponse("plate parameter is required"));
      }
      var err := numberService.RemoveFromWhitelist(plate.value, outage);
      return Reply(err, "removed from whitelist");
    }

    /** DELETE /blacklist?plate=...: a blank query is answered with 400 and the
        service is not called. */
    method RemoveFromBlacklist(query: string, outage: Outage) returns (resp: Response)
      requires numberService.repo.Valid()
      modifies numberService.repo
      ensures numberService.repo.Valid()
      ensures PlateParam(query).None? ==>
        resp == Response(StatusBadRequest, ErrorResponse("plate parameter is required"))
        && numberService.repo.State() == old(numberService.repo.State())
      ensures PlateParam(query).Some? ==>
        var plate := PlateParam(query).value;
        var (t, err) := RemoveOutcome(old(numberService.repo.State()), numberService.normalize(plate), BlacklistName, outage);
        numberService.repo.State() == t && resp == Reply(err, "removed from blacklist")
    {
      var plate := PlateParam(query);
      if plate.None? {
        return Response(StatusBadRequest, ErrorResponse("plate parameter is required"));
      }
      var err := numberService.RemoveFromBlacklist(plate.value, outage);
      return Reply(err, "removed from blacklist");
    }
  }

  // ---------------------------------------------------------------- status codes per operation

  /** A check answers 400 exactly when the plate normalizes to nothing, and
      500 for every other failure: never 404. */
  lemma CheckStatus(t: Tables, key: string, raw: string, outage: Outage)
    requires CheckOutcome(t, key, raw, outage).1.Failure?
    ensures CheckFailure(CheckOutcome(t, key, raw, outage).1.error).status
            == if key == "" then StatusBadRequest else StatusInternalServerError
  {
  }

  /** An add answers 400 exactly when the plate normalizes to nothing, and 500
      for every other failure — a missing list and a plate already on the list
      included: never 404. */
  lemma AddStatus(t: Tables, key: string, raw: string, listName: string, note: Option<string>, outage: Outage)
    requires AddOutcome(t, key, raw, listName, note, outage).1.Some?
    ensures HandleError(AddOutcome(t, key, raw, listName, note, outage).1.value).status
            == if key == "" then StatusBadRequest else StatusInternalServerError
  {
  }

  /** A remove answers 400 when the plate normalizes to nothing, 404 exactly
      when no stored plate has the key, and 500 for every other failure,
      a missing list included. */
  lemma RemoveStatus(t: Tables, key: string, listName: string, outage: Outage)
    requires RemoveOutcome(t, key, listName, outage).1.Some?
    ensures var status := HandleError(RemoveOutcome(t, key, listName, outage).1.value).status;
      && (status == StatusBadRequest <==> key == "")
      && (status == StatusNotFound <==>
            key != "" && Fault(outage, PlateSearch).None? && forall p :: p in t.plates ==> p.normalized != key)
      && (status == StatusBadRequest || status == StatusNotFound || status == StatusInternalServerError)
  {
  }
}
