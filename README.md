# Name-analyzer: a verified model of its handlers, data layer and lookups

Name-analyzer is a small Go REST service that stores people. On create it
takes a name and a surname, and asks three public services (agify,
genderize, nationalize) to estimate the person's age, gender and
nationality. It keeps the records in PostgreSQL, and lets clients get,
list with filters, update and delete them under `/api/v1/persons`.

This project models three parts of the service in Dafny and proves what
they do:

- **Handlers** (`internal/api/handlers.go`). These are modelled in
  `api.dfy`.
  - A request arrives as its path, its decoded JSON body or its query
    parameters.
  - A response is a `Response`: an error status with its message, a JSON
    body with a status, or a bare status.
  - What a handler asks of its collaborators is recorded as a list of
    `Call`s. What the collaborators answer is a parameter.
  - Create and update decode into one package-level request variable. That
    variable keeps, from one request to the next, every field a body leaves
    out. Here it is the field `req` of the class `Handler`, and the two
    handlers that decode into it are methods that modify it.
- **Data layer** (`internal/db/person.go`). This is modelled in `db.dfy`.
  - Create assigns a fresh id. Fetch, update and delete map the driver's
    answers to errors.
  - The list operation builds its query text and its named arguments
    condition by condition.
  - `namedquery.dfy` models how the named-query compiler (sqlx) reads
    `:name` placeholders. With it, the model proves that every list query
    binds exactly the placeholders it contains.
- **Lookups** (`internal/enrich/enrich.go`). These are modelled in
  `enrich.dfy`.
  - Each lookup forms its URL and interprets what came back. The HTTP
    exchange itself is an abstract outcome.
  - A failed request build ends in a panic, because its error is ignored.
  - The nationality is the first country listed.

`model.dfy` holds the stored person as a class whose fields are assigned in
place, its value `PersonRecord`, and the request record. `strings.dfy`
holds `strings.TrimSpace` (with `unicode.IsSpace`'s white space) and
`strings.TrimPrefix`.

What the model shows about the service as written:

- **Get and update.** They answer 500, never 404, for a person that does not
  exist. The data layer's `errors.Is(err, ErrNotFound)` never holds, because
  the driver reports a missing row with its own error.
- **Delete.** Delete cuts `api/v1/persons/` (no leading slash) from a path
  that starts with `/`. The whole path is therefore parsed as the id. It has a
  slash strictly inside it (after `/api`), and an id parser that refuses
  such slashes, as `uuid.Parse` does, makes every routed delete a 400.
- **The surname filter.** The list handler files the surname parameter under
  `surnamename`. The data layer reads only `surname`, so the surname
  parameter never filters.
- **Trimming.** Create trims name and surname and rejects blanks. Update does
  not trim, so an update can store a name that is only white space.
- **The shared request.** An update with body `{}` that follows a create
  writes the created person's name and surname over the fetched person.

Four more things the code does that a reader might not expect:

- The lookup URLs carry the name verbatim, without URL escaping (`LookupUrl`).
- The nationality is the first country listed, whatever its probability
  (`GetNationality`).
- The gender is whatever label was decoded (`GetGender`).
- Create and update share one package-level decode target (`Handler.req`).

## Model

| member | source | states |
|---|---|---|
| Strings.TrimSpace | internal/api/handlers.go:46-47 | Trimming never lengthens the name, and what is left has no white space at either end. |
| Strings.TrimSpaceInfix | internal/api/handlers.go:46-47 | What trimming keeps is an infix of the input, and everything it cut on either side is white space. |
| Strings.TrimSpaceEmptyIff | internal/api/handlers.go:46-48 | A name trims to "" exactly when it consists only of white space. |
| Strings.TrimSpaceIdempotent | internal/api/handlers.go:46-47 | Trimming a trimmed name changes nothing. |
| Strings.TrimPrefix | internal/api/handlers.go:86 | If the path starts with the prefix, prefix + result is the path; otherwise the path comes back unchanged. |
| Strings.TrimPrefixOfConcat | internal/api/handlers.go:176 | Cutting a prefix from prefix + rest gives back rest. |
| Strings.TrimPrefixMismatch | internal/api/handlers.go:236 | A path whose first character differs from the prefix's comes back uncut. |
| Model.Person.FromRecord | internal/model/person.go:10-20 | A person built from a record holds exactly that record's nine fields. |
| Enrich.LookupUrl | internal/enrich/enrich.go:36 | The URL is the endpoint followed by the name verbatim, without escaping. |
| Enrich.LookupUrlInjective | internal/enrich/enrich.go:53 | Two lookups at one endpoint with the same URL were for the same name. |
| Enrich.ServicesNeverShareUrl | internal/enrich/enrich.go:70 | Whatever the names, agify, genderize and nationalize are never sent the same URL. |
| Enrich.Interpret | internal/enrich/enrich.go:37-49 | A failed request build panics. A transport or decode error is returned with no value. A decoded body gives its field and no error. A value and an error never come together. |
| Enrich.GetAge | internal/enrich/enrich.go:35-50 | The decoded age, null or not, with no error. On a transport or decode failure, no age and that error. On a failed request build, a panic. |
| Enrich.GetGender | internal/enrich/enrich.go:52-67 | The decoded gender label, whatever its text, with no error. Failures are as for the age. |
| Enrich.FirstCountry | internal/enrich/enrich.go:83-86 | There is a country exactly when the list is nonempty, and it is the first entry's id. |
| Enrich.GetNationality | internal/enrich/enrich.go:69-87 | The first listed country's id. An empty list gives no value and no error. Failures are as for the age. |
| NamedQuery.ParamsConcat | internal/db/person.go:108 | When no placeholder straddles the seam, two pieces of query text name the union of the parameters each names. |
| NamedQuery.ParamsOfCondition | internal/db/person.go:81 | A condition with no colon, followed by `:key`, names exactly `key`. |
| Db.CreatePerson | internal/db/person.go:13-31 | The person is sent with a fresh id, whatever id it had. A returned row sets both timestamps and nothing else. An execute or scan error is passed on. No returned row is success. |
| Db.GetPerson | internal/db/person.go:33-43 | Success with the row exactly when a row was fetched, otherwise the driver's error. The result is never `ErrNotFound`. |
| Db.UpdatePerson | internal/db/person.go:45-62 | The person is sent as it is. A returned row sets the update time only. An execute or scan error is passed on. No returned row is not an error. |
| Db.DeletePerson | internal/db/person.go:64-74 | `ErrNotFound` exactly when no row was affected. Success exactly when some row was. An execute error is passed on. |
| Db.ListFiltersUnique | internal/db/person.go:80-103 | The six conditions bind six distinct keys: name, surname, gender, nationality, age_min and age_max. |
| Db.ClauseArgsMeaning | internal/db/person.go:80-103 | The conditions bind one argument for each table key the filter has and no other. Each argument is the filter's value, wrapped in `%` for a pattern. |
| Db.ClausesParams | internal/db/person.go:80-103 | The conditions appended name exactly the table keys the filter has. |
| Db.ListQuery | internal/db/person.go:76-106 | The query text and the argument map built step by step equal the list query and list arguments for the filter, limit and offset. |
| Db.ListParamsMatchArgs | internal/db/person.go:104-108 | For every filter, the placeholders of the list query are exactly the keys of its argument map, so the named query always binds. |
| Db.ListArgsKeys | internal/db/person.go:104-106 | The arguments are limit, offset and those of the six filter keys the filter has. Limit and offset are passed as given. |
| Db.ListArgsValues | internal/db/person.go:80-103 | name and surname are bound as `%value%`. gender, nationality, age_min and age_max are bound as given. |
| Db.ListIgnoresForeign | internal/db/person.go:80-103 | A filter entry under any key other than the six changes neither the query text nor the arguments. |
| Api.DecodeFullPatch | internal/api/handlers.go:42 | A body that carries every field decodes the same, whatever the shared request held before. |
| Api.DecodeNoFields | internal/api/handlers.go:182 | A body with no field leaves the shared request as it was. |
| Api.Handler.constructor | internal/api/handlers.go:21-28 | The shared request starts as the zero value. |
| Api.Handler.CreatePerson | internal/api/handlers.go:41-71 | The shared request is decoded into, then name and surname are trimmed in it. The response and calls are the create reply: 400 for a bad body or a blank name or surname, otherwise enrichment of the trimmed name, then an insert, then 201 with the stored person, or 500. |
| Api.CreateRejectsBlank | internal/api/handlers.go:46-51 | For a well-formed body, create answers 400 "name and surname are required", with no call, exactly when the decoded name or surname is only white space. |
| Api.CreateStoresTrimmed | internal/api/handlers.go:53-62 | A successful create answers 201 with the trimmed, nonblank name and surname and the request's patronymic. Age, gender and nationality come from the enrichment and the id is the fresh one. Enrichment was asked about the trimmed name. |
| Api.CreateIgnoresRequestedTraits | internal/api/handlers.go:55-62 | The age, gender and nationality a create body carries change neither the answer nor the calls. |
| Api.ItemPathId | internal/api/handlers.go:86 | Get and update recover the segment after `/api/v1/persons/` as the id text. |
| Api.DeletePathUncut | internal/api/handlers.go:236 | Delete's prefix cuts nothing from a routed path. |
| Api.GetPerson | internal/api/handlers.go:85-104 | 400 with no call exactly when the id does not parse. Otherwise one fetch of that id, 200 with the row exactly when it was fetched, and 500 otherwise. The answer is never 404. |
| Api.MergeInto | internal/api/handlers.go:196-213 | The person fetched, updated in place, becomes the merge of the stored record with the shared request. |
| Api.MergeOnlyGivenFields | internal/api/handlers.go:196-213 | The merge keeps the id and both timestamps. Name and surname take the request's value when it is nonempty and are kept otherwise. Patronymic, age, gender and nationality take the request's value when it is set and are kept when it is nil. |
| Api.MergeIdempotent | internal/api/handlers.go:196-213 | Merging the same request twice equals merging it once. |
| Api.MergeEmpty | internal/api/handlers.go:196-213 | A request with no field set leaves the stored person unchanged. |
| Api.MergeStoresBlankName | internal/api/handlers.go:196-198 | Update does not trim: a nonempty name of white space replaces the stored name and trims to "". |
| Api.Handler.UpdatePerson | internal/api/handlers.go:175-221 | The shared request is decoded into only once the id parses. The response and calls are the update reply: 400 for a bad id or body, otherwise a fetch, then on success a store of the merged person and 200 with it, or 500. |
| Api.UpdateNeverNotFound | internal/api/handlers.go:186-190 | Update never answers 404. |
| Api.EmptyUpdateCopiesLastCreate | internal/api/handlers.go:21-28 | After a successful create, an update with body `{}` answers 200 with the fetched person's id but the created person's name and surname, and its patronymic if it had one. |
| Api.DeletePerson | internal/api/handlers.go:235-253 | 400 with no call exactly when the id does not parse. Otherwise one delete of that id: 204 exactly when a row was affected, 404 exactly when none was, 500 on a driver error. |
| Api.DeleteRefusesRoutedPaths | internal/api/handlers.go:236-240 | With an id parser that refuses a slash strictly inside its text, every path `/api/v1/persons/{id}` gets 400 and nothing is deleted. |
| Api.QueryGet | internal/api/handlers.go:126 | The parameter's first value when it has one, and "" when it is missing or has no value (`url.Values.Get`). |
| Api.FilterForAt | internal/api/handlers.go:124-143 | A key is in the filter exactly when it is one of the six filter keys and its parameter's first value is nonempty, and then it maps to that value. |
| Api.FilterMeaning | internal/api/handlers.go:129-131 | The filter never has `surname`. It has `surnamename` exactly when the surname parameter is nonempty. Each of the other five has its entry exactly when its own parameter is nonempty. |
| Api.BuildFilter | internal/api/handlers.go:124-143 | The map filled one `if` at a time is the list filter of the query. |
| Api.Paging | internal/api/handlers.go:144-151 | limit is what the scanner reads from a nonempty `limit` parameter, otherwise 10. offset likewise, otherwise 0. |
| Api.ListPersons | internal/api/handlers.go:123-160 | One list query is built from the filter and the page, and the answer is 200 with its rows or 500. |
| Api.SurnameParameterIgnored | internal/api/handlers.go:129-131 | Two requests that differ only in the surname parameter make the same list query and get the same answer. |
| Api.ListQueryBound | internal/api/handlers.go:144-152 | Every list query binds every placeholder it has and nothing else. It asks for 10 rows from 0 when limit and offset are not given. |

## Left out

- HTTP itself is not modelled: routing, headers, writing JSON responses, the middleware, the Swagger route, configuration and `main`. A response is its status with its message or payload.
- Logging (`h.Logger.Printf`, `log.Printf`) has no effect on any answer, so it is not modelled.
- `enrich.EnrichPerson`, the concurrent fan-out that combines the three lookups, is not part of this model. The create handler discards its error, so its result enters create as a parameter (`Enrichment`). The three lookups are modelled on their own.
- The HTTP client's 3-second timeout, context cancellation and closing response bodies are not modelled. A timeout is one of the `TransportFailed` outcomes.
- The floating-point probabilities of the genderize and nationalize bodies are left out, because the code never reads them.
- `uuid.Parse`, `uuid.New` and `fmt.Sscanf("%d")` are parameters (`parse`, `freshId`, `scan`). The one fact about `uuid.Parse` that is used is the `RefusesSlash` hypothesis: it refuses text with a `/` anywhere but the first or last character. The 38-character braced form ignores those two characters, so a slash there can pass.
- Running SQL is not modelled. What the driver answered is a parameter (`InsertOutcome`, `FetchOutcome`, `UpdateOutcome`, `ExecOutcome`, and the list's rows-or-error `listed`).
- The list rows loop (`internal/db/person.go:108-121`) is abstracted into `listed`. A `StructScan` failure is one of its driver errors.
- Db.CreatePerson: the INSERT statement's binding of the person's `db` fields is not checked. Only the list query's binding is proved.
- Db.UpdatePerson: the UPDATE statement's binding of the person's `db` fields is not checked either.
- Integers are unbounded. Go's 64-bit `int` in limit, offset and age is not modelled. An overflowing `limit` is the scanner's business.
- Instants are integers, because only their equality matters.
- Placeholder names follow sqlx's ASCII name characters (letters, digits, `_`, `.`). sqlx also accepts non-ASCII letters, which no query here uses.
- A lone `:` not followed by a name character names no parameter here. sqlx records an empty name there, and binding then fails. The `:=` form and a colon inside a name are not modelled either. No list-query text contains any of these.
- Requests are handled one at a time. The data race on the shared request under concurrent requests is not modelled.
- A body that fails to decode part-way carries, in `RequestBody.patch`, the fields the decoder had already assigned. Which fields those are is the decoder's business.
