/**
 * The HTTP handlers of internal/api/handlers.go, without the HTTP: a request
 * arrives as its path, its decoded body or its query parameters, a response
 * leaves as a status with an error message or a JSON body, and what the
 * handler asked of its collaborators (enrichment, the data layer) is
 * recorded as a list of calls. What those collaborators answer is a
 * parameter; `uuid.Parse` and `fmt.Sscanf` are function parameters.
 *
 * Create and update decode into one package-level request variable, which
 * keeps between calls whatever a body does not mention: it is the state of
 * the `Handler` class here.
 */
module Api {

  import opened Wrappers
  import opened Model
  import opened Strings
  import Db
  import NamedQuery

  // ---------------------------------------------------------------- responses

  const StatusOK := 200
  const StatusCreated := 201
  const StatusNoContent := 204
  const StatusBadRequest := 400
  const StatusNotFound := 404
  const StatusInternalServerError := 500

  /** A JSON body: one person or a list of them. */
  datatype Payload = One(person: PersonRecord) | Many(persons: seq<PersonRecord>)

  /** What a handler writes: `http.Error`, a JSON body with a status, or a bare status. */
  datatype Response =
    | Error(status: int, message: string)
    | Json(status: int, payload: Payload)
    | Empty(status: int)

  /** A call a handler makes to a collaborator, with what it passes. */
  datatype Call =
    | Enrich(name: string)
    | Insert(row: PersonRecord)
    | Fetch(id: Uuid)
    | Store(row: PersonRecord)
    | Remove(id: Uuid)
    | Query(sql: string, args: map<string, Db.Arg>)

  /** A handler's response and the calls it made on the way, in order. */
  datatype Reply = Reply(response: Response, calls: seq<Call>)

  // ---------------------------------------------------------------- request bodies

  /** One field of a JSON object: absent, or present with a value (`Some`/`None` for a nullable one). */
  datatype Field<T> = Absent | Present(value: T)

  /**
   * The fields of a body as the decoder assigns them. A `null` for name or
   * surname assigns nothing, so it is `Absent`; a `null` for a pointer field
   * assigns nil, so it is `Present(None)`.
   */
  datatype RequestPatch = RequestPatch(
    name: Field<string>,
    surname: Field<string>,
    patronymic: Field<Option<string>>,
    age: Field<Option<int>>,
    gender: Field<Option<string>>,
    nationality: Field<Option<string>>)

  /**
   * A decoded body. `malformed` is the decoder's error: for a syntax error
   * nothing was assigned and the patch is empty; a value of the wrong type
   * still lets the other fields be assigned.
   */
  datatype RequestBody = RequestBody(patch: RequestPatch, malformed: bool)

  const NoFields := RequestPatch(Absent, Absent, Absent, Absent, Absent, Absent)

  function Override<T>(current: T, f: Field<T>): T {
    match f
    case Absent => current
    case Present(v) => v
  }

  /** Decoding into an existing request: the fields the body has replace, the others stay. */
  function Decode(req: PersonRequest, patch: RequestPatch): PersonRequest {
    PersonRequest(
      Override(req.name, patch.name),
      Override(req.surname, patch.surname),
      Override(req.patronymic, patch.patronymic),
      Override(req.age, patch.age),
      Override(req.gender, patch.gender),
      Override(req.nationality, patch.nationality))
  }

  /** A body that has every field decodes the same whatever the request held before. */
  lemma DecodeFullPatch(req1: PersonRequest, req2: PersonRequest, patch: RequestPatch)
    requires !patch.name.Absent? && !patch.surname.Absent? && !patch.patronymic.Absent?
    requires !patch.age.Absent? && !patch.gender.Absent? && !patch.nationality.Absent?
    ensures Decode(req1, patch) == Decode(req2, patch)
  {
  }

  /** A body with no field leaves the request as it was. */
  lemma DecodeNoFields(req: PersonRequest)
    ensures Decode(req, NoFields) == req
  {
  }

  // ---------------------------------------------------------------- create

  /** The result of the enrichment fan-out: each part optional; its error is discarded. */
  datatype Enrichment = Enrichment(age: Option<int>, gender: Option<string>, nationality: Option<string>)

  /** The new person before the data layer assigns its id and timestamps. */
  function NewPerson(req: PersonRequest, data: Enrichment): PersonRecord {
    PersonRecord(NilUuid, req.name, req.surname, req.patronymic, data.age, data.gender, data.nationality, ZeroTime, ZeroTime)
  }

  /** The shared request after `CreatePerson`: decoded, then name and surname trimmed in place. */
  function CreateReq(req: PersonRequest, body: RequestBody): PersonRequest {
    var decoded := Decode(req, body.patch);
    if body.malformed then decoded
    else decoded.(name := TrimSpace(decoded.name), surname := TrimSpace(decoded.surname))
  }

  /** The answer to a create the data layer was asked to insert `row` for. */
  function InsertReply(row: PersonRecord, insert: Db.InsertOutcome): Response {
    match insert
    case InsertFailed(_) => Error(StatusInternalServerError, "db error")
    case InsertScanFailed(_) => Error(StatusInternalServerError, "db error")
    case InsertNoRow => Json(StatusCreated, One(row))
    case InsertRow(created, updated) => Json(StatusCreated, One(row.(createdAt := created, updatedAt := updated)))
  }

  /** What `CreatePerson` answers and calls. */
  function CreateReply(req: PersonRequest, body: RequestBody, data: Enrichment, freshId: Uuid, insert: Db.InsertOutcome): Reply {
    if body.malformed then Reply(Error(StatusBadRequest, "invalid request body"), [])
    else ValidReply(CreateReq(req, body), data, freshId, insert)
  }

  /** What `CreatePerson` answers and calls once the body decoded into `v` and was trimmed. */
  function ValidReply(v: PersonRequest, data: Enrichment, freshId: Uuid, insert: Db.InsertOutcome): Reply {
    if v.name == "" || v.surname == "" then Reply(Error(StatusBadRequest, "name and surname are required"), [])
    else
      var row := NewPerson(v, data).(id := freshId);
      Reply(InsertReply(row, insert), [Enrich(v.name), Insert(row)])
  }

  /**
   * Create rejects a body whose name or surname is empty or only white
   * space, with 400 and without calling anything.
   */
  lemma CreateRejectsBlank(req: PersonRequest, body: RequestBody, data: Enrichment, freshId: Uuid, insert: Db.InsertOutcome)
    requires !body.malformed
    ensures var d := Decode(req, body.patch);
      CreateReply(req, body, data, freshId, insert) == Reply(Error(StatusBadRequest, "name and surname are required"), [])
      <==> AllSpace(d.name) || AllSpace(d.surname)
  {
    var d := Decode(req, body.patch);
    TrimSpaceEmptyIff(d.name);
    TrimSpaceEmptyIff(d.surname);
  }

  /**
   * A created person: its name and surname are the decoded ones with the
   * white space cut from both ends, and nonblank; its patronymic is the
   * request's; its age, gender and nationality are the enrichment's; its id
   * is the fresh one. Enrichment is called with the trimmed name.
   */
  lemma CreateStoresTrimmed(req: PersonRequest, body: RequestBody, data: Enrichment, freshId: Uuid, insert: Db.InsertOutcome)
    requires CreateReply(req, body, data, freshId, insert).response.Json?
    ensures var d, r := Decode(req, body.patch), CreateReply(req, body, data, freshId, insert);
      var p := r.response.payload.person;
      && r.response.status == StatusCreated
      && !body.malformed && !AllSpace(d.name) && !AllSpace(d.surname)
      && p.name == TrimSpace(d.name) && p.surname == TrimSpace(d.surname)
      && NoEdgeSpace(p.name) && p.name != "" && NoEdgeSpace(p.surname) && p.surname != ""
      && p.patronymic == d.patronymic
      && p.age == data.age && p.gender == data.gender && p.nationality == data.nationality
      && p.id == freshId
      && r.calls[0] == Enrich(p.name)
  {
    var d := Decode(req, body.patch);
    TrimSpaceEmptyIff(d.name);
    TrimSpaceEmptyIff(d.surname);
  }

  /**
   * The age, gender and nationality a create body carries make no
   * difference: two requests that decode to the same name, surname and
   * patronymic get the same answer and make the same calls.
   */
  lemma CreateIgnoresRequestedTraits(req1: PersonRequest, body1: RequestBody, req2: PersonRequest, body2: RequestBody,
                                     data: Enrichment, freshId: Uuid, insert: Db.InsertOutcome)
    requires body1.malformed == body2.malformed
    requires var d1, d2 := Decode(req1, body1.patch), Decode(req2, body2.patch);
      d1.name == d2.name && d1.surname == d2.surname && d1.patronymic == d2.patronymic
    ensures CreateReply(req1, body1, data, freshId, insert) == CreateReply(req2, body2, data, freshId, insert)
  {
    var v1, v2 := CreateReq(req1, body1), CreateReq(req2, body2);
    assert NewPerson(v1, data) == NewPerson(v2, data);
  }

  /**
   * The handlers. `req` is the package-level decode target: the one variable
   * every create and update decodes into, so that a field a body leaves out
   * keeps the value an earlier body gave it.
   */
  class Handler {
    var req: PersonRequest

    constructor ()
      ensures req == EmptyRequest
    {
      req := EmptyRequest;
    }

    /**
     * `CreatePerson`: decode into `req`, trim name and surname in `req`,
     * reject blanks, enrich the name, and store a new person made of the
     * request's name, surname and patronymic and the enrichment's traits.
     */
    method CreatePerson(body: RequestBody, data: Enrichment, freshId: Uuid, insert: Db.InsertOutcome)
      returns (resp: Response, calls: seq<Call>)
      modifies this
      ensures req == CreateReq(old(req), body)
      ensures Reply(resp, calls) == CreateReply(old(req), body, data, freshId, insert)
    {
      ghost var v := CreateReq(req, body);
      req := Decode(req, body.patch);
      if body.malformed {
        return Error(StatusBadRequest, "invalid request body"), [];
      }
      req := req.(name := TrimSpace(req.name));
      req := req.(surname := TrimSpace(req.surname));
      assert req == v;
      assert CreateReply(old(req), body, data, freshId, insert) == ValidReply(v, data, freshId, insert);
      if req.name == "" || req.surname == "" {
        return Error(StatusBadRequest, "name and surname are required"), [];
      }
      calls := [Enrich(req.name)];
      var person := new Person.FromRecord(NewPerson(req, data));
      var err, sent := Db.CreatePerson(person, freshId, insert);
      calls := calls + [Insert(sent)];
      if err.Some? {
        resp := Error(StatusInternalServerError, "db error");
      } else {
        resp := Json(StatusCreated, One(person.Snapshot()));
      }
      assert resp == InsertReply(sent, insert);
    }

    /**
     * `UpdatePerson`: parse the id from the path, decode into `req`, fetch
     * the stored person, overwrite in place the fields the request gives,
     * and store it again.
     */
    method UpdatePerson(path: string, parse: string -> Option<Uuid>, body: RequestBody,
                        fetch: Db.FetchOutcome, update: Db.UpdateOutcome)
      returns (resp: Response, calls: seq<Call>)
      modifies this
      ensures req == UpdateReq(old(req), path, parse, body)
      ensures Reply(resp, calls) == UpdateReply(old(req), path, parse, body, fetch, update)
    {
      var id := parse(TrimPrefix(path, ItemPrefix));
      if id.None? {
        return Error(StatusBadRequest, "invalid id"), [];
      }
      req := Decode(req, body.patch);
      if body.malformed {
        return Error(StatusBadRequest, "invalid request body"), [];
      }
      ghost var reply := FetchedReply(id.value, req, fetch, update);
      assert UpdateReply(old(req), path, parse, body, fetch, update) == reply;
      calls := [Fetch(id.value)];
      var got := Db.GetPerson(fetch);
      if got.Failure? {
        resp := if got.error == Db.ErrNotFound then Error(StatusNotFound, "person not found")
                else Error(StatusInternalServerError, "db error");
        return;
      }
      var person := new Person.FromRecord(got.value);
      MergeInto(person, req);
      var err, sent := Db.UpdatePerson(person, update);
      calls := calls + [Store(sent)];
      if err.Some? {
        resp := Error(StatusInternalServerError, "db error");
      } else {
        resp := Json(StatusOK, One(person.Snapshot()));
      }
      assert resp == StoreReply(sent, update);
      assert Reply(resp, calls) == reply;
    }
  }

  // ---------------------------------------------------------------- ids in paths

  /** The prefix get and update cut from the path to find the id. */
  const ItemPrefix := "/api/v1/persons/"

  /** The prefix delete cuts: the same without the leading slash. */
  const DeletePrefix := "api/v1/persons/"

  /** Get and update find the id of a routed path `/api/v1/persons/{id}`. */
  lemma ItemPathId(segment: string)
    ensures TrimPrefix(ItemPrefix + segment, ItemPrefix) == segment
  {
    TrimPrefixOfConcat(ItemPrefix, segment);
  }

  /**
   * Delete cuts nothing from a routed path: the path starts with a slash
   * and the delete prefix does not, so the whole path is what gets parsed.
   */
  lemma DeletePathUncut(segment: string)
    ensures TrimPrefix(ItemPrefix + segment, DeletePrefix) == ItemPrefix + segment
  {
    var path := ItemPrefix + segment;
    assert path[0] == '/';
    assert DeletePrefix[0] == 'a';
    TrimPrefixMismatch(path, DeletePrefix);
  }

  /**
   * A parser that, like `uuid.Parse`, refuses any text with a slash strictly
   * inside it. (`uuid.Parse` ignores the first and last character of its
   * 38-character braced form, so a slash there can pass.)
   */
  ghost predicate RefusesSlash(parse: string -> Option<Uuid>) {
    forall s, i :: 0 < i < |s| - 1 && s[i] == '/' ==> parse(s).None?
  }

  // ---------------------------------------------------------------- get

  /**
   * `GetPerson`: 400 for an id that does not parse; otherwise one fetch,
   * answered with the row, or 500 for any failure. The 404 branch is there
   * but never taken, because the data layer never reports `ErrNotFound`
   * for a fetch: a missing person is a 500.
   */
  function GetPerson(path: string, parse: string -> Option<Uuid>, fetch: Db.FetchOutcome): (r: Reply)
    ensures r.response.status != StatusNotFound
    ensures parse(TrimPrefix(path, ItemPrefix)).None? <==> r.calls == []
    ensures parse(TrimPrefix(path, ItemPrefix)).None? ==> r.response == Error(StatusBadRequest, "invalid id")
    ensures r.calls != [] ==> r.calls == [Fetch(parse(TrimPrefix(path, ItemPrefix)).value)]
    ensures r.response.Json? <==> r.calls != [] && fetch.Fetched?
    ensures r.response.Json? ==> r.response == Json(StatusOK, One(fetch.row))
    ensures r.calls != [] && fetch.FetchFailed? ==> r.response == Error(StatusInternalServerError, "db error")
  {
    var id := parse(TrimPrefix(path, ItemPrefix));
    if id.None? then Reply(Error(StatusBadRequest, "invalid id"), [])
    else
      var calls := [Fetch(id.value)];
      var got := Db.GetPerson(fetch);
      if got == Failure(Db.ErrNotFound) then Reply(Error(StatusNotFound, "person not found"), calls)
      else if got.Failure? then Reply(Error(StatusInternalServerError, "db error"), calls)
      else Reply(Json(StatusOK, One(got.value)), calls)
  }

  // ---------------------------------------------------------------- update

  /** The partial update: a field the request gives replaces the stored one; nothing else changes. */
  function Merged(stored: PersonRecord, req: PersonRequest): PersonRecord {
    stored.(
      name := if req.name != "" then req.name else stored.name,
      surname := if req.surname != "" then req.surname else stored.surname,
      patronymic := if req.patronymic.Some? then req.patronymic else stored.patronymic,
      age := if req.age.Some? then req.age else stored.age,
      gender := if req.gender.Some? then req.gender else stored.gender,
      nationality := if req.nationality.Some? then req.nationality else stored.nationality)
  }

  /**
   * The in-place merge of `UpdatePerson`: each field the request gives is
   * assigned to the fetched person, one after the other.
   */
  method MergeInto(person: Person, r: PersonRequest)
    modifies person
    ensures person.Snapshot() == Merged(old(person.Snapshot()), r)
  {
    if r.name != "" {
      person.name := r.name;
    }
    if r.surname != "" {
      person.surname := r.surname;
    }
    if r.patronymic.Some? {
      person.patronymic := r.patronymic;
    }
    if r.age.Some? {
      person.age := r.age;
    }
    if r.gender.Some? {
      person.gender := r.gender;
    }
    if r.nationality.Some? {
      person.nationality := r.nationality;
    }
  }

  /** The shared request after `UpdatePerson`: decoded into once the id parses. */
  function UpdateReq(req: PersonRequest, path: string, parse: string -> Option<Uuid>, body: RequestBody): PersonRequest {
    if parse(TrimPrefix(path, ItemPrefix)).None? then req else Decode(req, body.patch)
  }

  /** What `UpdatePerson` answers and calls. */
  function UpdateReply(req: PersonRequest, path: string, parse: string -> Option<Uuid>, body: RequestBody,
                       fetch: Db.FetchOutcome, update: Db.UpdateOutcome): Reply
  {
    var id := parse(TrimPrefix(path, ItemPrefix));
    if id.None? then Reply(Error(StatusBadRequest, "invalid id"), [])
    else if body.malformed then Reply(Error(StatusBadRequest, "invalid request body"), [])
    else FetchedReply(id.value, Decode(req, body.patch), fetch, update)
  }

  /** What `UpdatePerson` answers and calls once the id parsed and the body decoded into `req`. */
  function FetchedReply(id: Uuid, req: PersonRequest, fetch: Db.FetchOutcome, update: Db.UpdateOutcome): Reply {
    var got := Db.GetPerson(fetch);
    if got.Failure? then
      Reply(if got.error == Db.ErrNotFound then Error(StatusNotFound, "person not found")
            else Error(StatusInternalServerError, "db error"), [Fetch(id)])
    else
      var row := Merged(got.value, req);
      Reply(StoreReply(row, update), [Fetch(id), Store(row)])
  }

  /** The answer to an update the data layer was asked to store `row` for. */
  function StoreReply(row: PersonRecord, update: Db.UpdateOutcome): Response {
    match update
    case UpdateFailed(_) => Error(StatusInternalServerError, "db error")
    case UpdateScanFailed(_) => Error(StatusInternalServerError, "db error")
    case UpdateNoRow => Json(StatusOK, One(row))
    case UpdateRow(updated) => Json(StatusOK, One(row.(updatedAt := updated)))
  }

  /**
   * The merge keeps the id and both timestamps; name and surname take the
   * request's when it is nonempty, the other fields when the request has
   * one, and otherwise keep the stored value.
   */
  lemma MergeOnlyGivenFields(stored: PersonRecord, req: PersonRequest)
    ensures var m := Merged(stored, req);
      && m.id == stored.id && m.createdAt == stored.createdAt && m.updatedAt == stored.updatedAt
      && (req.name == "" ==> m.name == stored.name) && (req.name != "" ==> m.name == req.name)
      && (req.surname == "" ==> m.surname == stored.surname) && (req.surname != "" ==> m.surname == req.surname)
      && (req.patronymic.None? ==> m.patronymic == stored.patronymic) && (req.patronymic.Some? ==> m.patronymic == req.patronymic)
      && (req.age.None? ==> m.age == stored.age) && (req.age.Some? ==> m.age == req.age)
      && (req.gender.None? ==> m.gender == stored.gender) && (req.gender.Some? ==> m.gender == req.gender)
      && (req.nationality.None? ==> m.nationality == stored.nationality) && (req.nationality.Some? ==> m.nationality == req.nationality)
  {
  }

  /** Merging the same request twice gives what merging it once gave. */
  lemma MergeIdempotent(stored: PersonRecord, req: PersonRequest)
    ensures Merged(Merged(stored, req), req) == Merged(stored, req)
  {
  }

  /** A request with no field set changes nothing. */
  lemma MergeEmpty(stored: PersonRecord)
    ensures Merged(stored, EmptyRequest) == stored
  {
  }

  /**
   * Update does not trim: a name of white space only replaces the stored
   * name, though create would refuse it.
   */
  lemma MergeStoresBlankName(stored: PersonRecord, req: PersonRequest)
    requires req.name != "" && AllSpace(req.name)
    ensures Merged(stored, req).name == req.name
    ensures TrimSpace(Merged(stored, req).name) == ""
  {
    TrimSpaceEmptyIff(req.name);
  }

  /** Like get, update never answers 404: a missing person is a 500. */
  lemma UpdateNeverNotFound(req: PersonRequest, path: string, parse: string -> Option<Uuid>, body: RequestBody,
                            fetch: Db.FetchOutcome, update: Db.UpdateOutcome)
    ensures UpdateReply(req, path, parse, body, fetch, update).response.status != StatusNotFound
  {
    var got := Db.GetPerson(fetch);
    assert got != Failure(Db.ErrNotFound);
  }

  /**
   * The shared request carries over: after a create, an update whose body
   * is `{}` gives the fetched person the name and surname of the person
   * just created, and its patronymic too if that one had one.
   */
  lemma EmptyUpdateCopiesLastCreate(req: PersonRequest, created: RequestBody, data: Enrichment, freshId: Uuid,
                                    insert: Db.InsertOutcome, path: string, parse: string -> Option<Uuid>,
                                    row: PersonRecord, update: Db.UpdateOutcome)
    requires CreateReply(req, created, data, freshId, insert).response.Json?
    requires parse(TrimPrefix(path, ItemPrefix)).Some?
    requires !update.UpdateFailed? && !update.UpdateScanFailed?
    ensures var person := CreateReply(req, created, data, freshId, insert).response.payload.person;
      var r := UpdateReply(CreateReq(req, created), path, parse, RequestBody(NoFields, false), Db.Fetched(row), update);
      && r.response.Json? && r.response.status == StatusOK
      && r.response.payload.person.id == row.id
      && r.response.payload.person.name == person.name
      && r.response.payload.person.surname == person.surname
      && (person.patronymic.Some? ==> r.response.payload.person.patronymic == person.patronymic)
  {
    CreateStoresTrimmed(req, created, data, freshId, insert);
    DecodeNoFields(CreateReq(req, created));
  }

  // ---------------------------------------------------------------- delete

  /**
   * `DeletePerson`: 400 for an id that does not parse; otherwise one
   * delete, answered 404 when no row was affected, 500 for a failure and
   * 204 when a row went.
   */
  function DeletePerson(path: string, parse: string -> Option<Uuid>, exec: Db.ExecOutcome): (r: Reply)
    ensures parse(TrimPrefix(path, DeletePrefix)).None? <==> r.calls == []
    ensures parse(TrimPrefix(path, DeletePrefix)).None? ==> r.response == Error(StatusBadRequest, "invalid id")
    ensures r.calls != [] ==> r.calls == [Remove(parse(TrimPrefix(path, DeletePrefix)).value)]
    ensures r.response == Empty(StatusNoContent) <==> r.calls != [] && exec.Executed? && exec.rowsAffected != 0
    ensures r.response.status == StatusNotFound <==> r.calls != [] && exec == Db.Executed(0)
    ensures r.calls != [] && exec == Db.Executed(0) ==> r.response == Error(StatusNotFound, "person not found")
    ensures r.calls != [] && exec.ExecFailed? ==> r.response == Error(StatusInternalServerError, "db error")
  {
    var id := parse(TrimPrefix(path, DeletePrefix));
    if id.None? then Reply(Error(StatusBadRequest, "invalid id"), [])
    else
      var err := Db.DeletePerson(exec);
      var calls := [Remove(id.value)];
      if err == Some(Db.ErrNotFound) then Reply(Error(StatusNotFound, "person not found"), calls)
      else if err.Some? then Reply(Error(StatusInternalServerError, "db error"), calls)
      else Reply(Empty(StatusNoContent), calls)
  }

  /**
   * Through the route `DELETE /api/v1/persons/{id}`, delete never deletes:
   * the uncut path has a slash strictly inside it (after `/api`), so an id
   * parser that refuses such slashes refuses it, and the answer is always 400.
   */
  lemma DeleteRefusesRoutedPaths(segment: string, parse: string -> Option<Uuid>, exec: Db.ExecOutcome)
    requires RefusesSlash(parse)
    ensures DeletePerson(ItemPrefix + segment, parse, exec) == Reply(Error(StatusBadRequest, "invalid id"), [])
  {
    var path := ItemPrefix + segment;
    DeletePathUncut(segment);
    assert path[4] == '/' && 0 < 4 < |path| - 1;
  }

  // ---------------------------------------------------------------- list

  /** `url.Values.Get`: the first value of a query parameter, or "" when it has none. */
  function QueryGet(q: map<string, seq<string>>, param: string): (v: string)
    ensures v != "" ==> param in q && |q[param]| > 0 && v == q[param][0]
    ensures param in q && |q[param]| > 0 ==> v == q[param][0]
    ensures !(param in q && |q[param]| > 0) ==> v == ""
  {
    if param in q && |q[param]| > 0 then q[param][0] else ""
  }

  /** The filter keys the handler fills; the surname parameter goes under `surnamename`. */
  const HandlerFilterKeys: set<string> := {"name", "surnamename", "gender", "nationality", "age_min", "age_max"}

  /** The query parameter a filter key is read from. */
  function ParamOf(key: string): string {
    if key == "surnamename" then "surname" else key
  }

  /** The list filter: every filter key whose parameter has a nonempty first value, with that value. */
  function FilterFor(q: map<string, seq<string>>): map<string, string> {
    FilterOn(q, HandlerFilterKeys)
  }

  /** An integer parameter: what the scanner reads from a nonempty value, else the default. */
  function ParamInt(q: map<string, seq<string>>, param: string, default: int, scan: string -> Option<int>): int {
    var v := QueryGet(q, param);
    if v != "" && scan(v).Some? then scan(v).value else default
  }

  /** One entry of the list filter. */
  lemma FilterForAt(q: map<string, seq<string>>, key: string)
    ensures key in FilterFor(q) <==> key in HandlerFilterKeys && QueryGet(q, ParamOf(key)) != ""
    ensures key in FilterFor(q) ==> FilterFor(q)[key] == QueryGet(q, ParamOf(key))
  {
  }

  /**
   * The list filter has a nonempty entry for each nonempty parameter among
   * name, gender, nationality, age_min and age_max, under its own name, and
   * for a nonempty surname under `surnamename`; never one under `surname`.
   */
  lemma FilterMeaning(q: map<string, seq<string>>)
    ensures "surname" !in FilterFor(q)
    ensures "surnamename" in FilterFor(q) <==> QueryGet(q, "surname") != ""
    ensures forall param :: param in {"name", "gender", "nationality", "age_min", "age_max"} ==>
              (param in FilterFor(q) <==> QueryGet(q, param) != "")
    ensures forall key :: key in FilterFor(q) ==> FilterFor(q)[key] == QueryGet(q, ParamOf(key)) != ""
  {
  }

  /** The entries of the list filter under the keys of `keys`. */
  function FilterOn(q: map<string, seq<string>>, keys: set<string>): map<string, string> {
    map key | key in keys && QueryGet(q, ParamOf(key)) != "" :: QueryGet(q, ParamOf(key))
  }

  /** One `if` of `ListPersons`' filter building adds the entry of one more key. */
  lemma FilterStep(q: map<string, seq<string>>, keys: set<string>, key: string, filter: map<string, string>, filter': map<string, string>)
    requires filter == FilterOn(q, keys)
    requires var v := QueryGet(q, ParamOf(key)); filter' == if v != "" then filter[key := v] else filter
    ensures filter' == FilterOn(q, keys + {key})
  {
  }

  /** The filter map `ListPersons` fills, one parameter after the other. */
  method BuildFilter(q: map<string, seq<string>>) returns (filter: map<string, string>)
    ensures filter == FilterFor(q)
  {
    filter := map[];
    ghost var f, keys := filter, {};
    var v := QueryGet(q, "name");
    if v != "" {
      filter := filter["name" := v];
    }
    FilterStep(q, keys, "name", f, filter);
    f, keys := filter, keys + {"name"};
    v := QueryGet(q, "surname");
    if v != "" {
      filter := filter["surnamename" := v];
    }
    FilterStep(q, keys, "surnamename", f, filter);
    f, keys := filter, keys + {"surnamename"};
    v := QueryGet(q, "gender");
    if v != "" {
      filter := filter["gender" := v];
    }
    FilterStep(q, keys, "gender", f, filter);
    f, keys := filter, keys + {"gender"};
    v := QueryGet(q, "nationality");
    if v != "" {
      filter := filter["nationality" := v];
    }
    FilterStep(q, keys, "nationality", f, filter);
    f, keys := filter, keys + {"nationality"};
    v := QueryGet(q, "age_min");
    if v != "" {
      filter := filter["age_min" := v];
    }
    FilterStep(q, keys, "age_min", f, filter);
    f, keys := filter, keys + {"age_min"};
    v := QueryGet(q, "age_max");
    if v != "" {
      filter := filter["age_max" := v];
    }
    FilterStep(q, keys, "age_max", f, filter);
    keys := keys + {"age_max"};
    assert keys == HandlerFilterKeys;
  }

  /** The page `ListPersons` asks for: 10 and 0 unless the parameters scan. */
  method Paging(q: map<string, seq<string>>, scan: string -> Option<int>) returns (limit: int, offset: int)
    ensures limit == ParamInt(q, "limit", 10, scan)
    ensures offset == ParamInt(q, "offset", 0, scan)
  {
    limit := 10;
    offset := 0;
    var v := QueryGet(q, "limit");
    if v != "" {
      var n := scan(v);
      if n.Some? {
        limit := n.value;
      }
    }
    v := QueryGet(q, "offset");
    if v != "" {
      var n := scan(v);
      if n.Some? {
        offset := n.value;
      }
    }
  }

  /** What `ListPersons` answers and calls, given the data layer's rows or error. */
  function ListReply(q: map<string, seq<string>>, scan: string -> Option<int>,
                     listed: Result<seq<PersonRecord>, Db.DriverError>): Reply
  {
    var filter := FilterFor(q);
    var limit, offset := ParamInt(q, "limit", 10, scan), ParamInt(q, "offset", 0, scan);
    var call := Query(Db.ListSql(filter), Db.ListArgs(filter, limit, offset));
    match listed
    case Failure(_) => Reply(Error(StatusInternalServerError, "db error"), [call])
    case Success(rows) => Reply(Json(StatusOK, Many(rows)), [call])
  }

  /**
   * `ListPersons`: build the filter and the page, let the data layer build
   * and run the query, answer its rows or 500.
   */
  method ListPersons(q: map<string, seq<string>>, scan: string -> Option<int>,
                     listed: Result<seq<PersonRecord>, Db.DriverError>) returns (resp: Response, calls: seq<Call>)
    ensures Reply(resp, calls) == ListReply(q, scan, listed)
  {
    var filter := BuildFilter(q);
    var limit, offset := Paging(q, scan);
    var sql, args := Db.ListQuery(filter, limit, offset);
    calls := [Query(sql, args)];
    if listed.Failure? {
      resp := Error(StatusInternalServerError, "db error");
    } else {
      resp := Json(StatusOK, Many(listed.value));
    }
  }

  /**
   * The surname parameter never filters: two queries that differ only in
   * it list with the same query text and arguments, because its value goes
   * under a key the data layer does not read.
   */
  lemma SurnameParameterIgnored(q1: map<string, seq<string>>, q2: map<string, seq<string>>, scan: string -> Option<int>,
                                listed: Result<seq<PersonRecord>, Db.DriverError>)
    requires forall param :: param != "surname" ==> QueryGet(q1, param) == QueryGet(q2, param)
    ensures ListReply(q1, scan, listed) == ListReply(q2, scan, listed)
  {
    var others := HandlerFilterKeys - {"surnamename"};
    FilterOnAgree(q1, q2, others);
    FilterOnRemove(q1, HandlerFilterKeys, "surnamename");
    FilterOnRemove(q2, HandlerFilterKeys, "surnamename");
    var f1, f2 := FilterFor(q1), FilterFor(q2);
    assert f1 - {"surnamename"} == f2 - {"surnamename"};
    assert QueryGet(q1, "limit") == QueryGet(q2, "limit") && QueryGet(q1, "offset") == QueryGet(q2, "offset");
    var limit, offset := ParamInt(q1, "limit", 10, scan), ParamInt(q1, "offset", 0, scan);
    assert "surnamename" !in Db.FilterKeys;
    Db.ListIgnoresForeign(f1, "surnamename", limit, offset);
    Db.ListIgnoresForeign(f2, "surnamename", limit, offset);
  }

  /** Two queries agreeing on the parameters of some filter keys have the same entries under those keys. */
  lemma FilterOnAgree(q1: map<string, seq<string>>, q2: map<string, seq<string>>, keys: set<string>)
    requires forall param :: param != "surname" ==> QueryGet(q1, param) == QueryGet(q2, param)
    requires "surnamename" !in keys && "surname" !in keys
    ensures FilterOn(q1, keys) == FilterOn(q2, keys)
  {
    forall key | key in keys ensures QueryGet(q1, ParamOf(key)) == QueryGet(q2, ParamOf(key)) {
      assert ParamOf(key) == key;
    }
  }

  /** Leaving a key out of the filter is building it without that key. */
  lemma FilterOnRemove(q: map<string, seq<string>>, keys: set<string>, key: string)
    ensures FilterOn(q, keys) - {key} == FilterOn(q, keys - {key})
  {
  }

  /**
   * The query of every listing binds every placeholder it has and nothing
   * else, and asks for 10 rows from 0 when limit and offset are not given.
   */
  lemma ListQueryBound(q: map<string, seq<string>>, scan: string -> Option<int>,
                       listed: Result<seq<PersonRecord>, Db.DriverError>)
    ensures var call := ListReply(q, scan, listed).calls[0];
      && NamedQuery.Params(call.sql) == call.args.Keys
      && (QueryGet(q, "limit") == "" ==> call.args["limit"] == Db.Int(10))
      && (QueryGet(q, "offset") == "" ==> call.args["offset"] == Db.Int(0))
  {
    var filter := FilterFor(q);
    var limit, offset := ParamInt(q, "limit", 10, scan), ParamInt(q, "offset", 0, scan);
    Db.ListParamsMatchArgs(filter, limit, offset);
    Db.ListArgsKeys(filter, limit, offset);
  }
}
