# Workshop and participant CRUD API, modelled in Dafny

This project models the core of a small Express API over two in-memory
collections. `db.talleres` holds workshops and `db.participantes` holds
participants. Each participant names one workshop through `tallerId`. The
model covers three parts:

- the workshop router (`validarTaller` and its five handlers);
- the participant router (`validarParticipante`, which also checks email
  uniqueness and the workshop reference, and its five handlers);
- the route table that sends a method and a path to a handler.

The model is laid out as follows:

- `json.dfy` (module `Json`): a JavaScript property as `Field<T>`, which is
  `Missing`, `Null` or `Present(v)`. It also holds the truthiness tests the
  validators use and the value one property takes under object spread.
- `js_array.dfy` (module `JsArray`): `findIndex` (`FindIndex`) and
  `splice(i, 1)` (`Splice`).
- `db.dfy` (module `Db`): the record types `Taller` and `Participante`,
  `{ ...base, ...over }` for each, the `Store` class with the two collections
  as `seq` fields, the store invariants and the seed data.
- `http.dfy` (module `Http`): a handler's answer as a `Response` value, a
  status plus a body that is JSON, plain text or empty.
- `taller_routes.dfy` (module `TallerRoutes`) and `participante_routes.dfy`
  (module `ParticipanteRoutes`): the validators, as functions of the record and
  a store snapshot, and the handlers. The handlers are methods on the shared
  `Store`. Each one `modifies` only its own collection, so the other
  collection cannot change.
- `app.dfy` (module `App`): the route table and a `Serve` method that
  dispatches one request.
- `scenarios.dfy` (module `Scenarios`): client methods that send example
  requests to the seed store. Each checks the answers using only the
  handlers' contracts.

What the model takes as given:

- Date parsing (`new Date(s).getTime()` not NaN) is the parameter
  `isDate: string -> bool`.
- `crypto.randomUUID()` is the parameter `freshId`. A create handler requires
  that no stored record already has that id.
- A request body is a record whose properties may be absent or `null`. For
  each property the validators test:

  | property | passes when |
  |---|---|
  | `titulo`, `nombre` | present and long enough |
  | `fecha` | present, non-empty and a date |
  | `duracionMin` | present and greater than 0 |
  | `cupos` | not `null` (or absent) and at least 5 |
  | `modalidad` | one of the two values |
  | `docente`, `tallerId` | a non-empty string |

The model keeps three behaviours of the code that a reader might not expect:

- Ids are meant to be generated by the server with `crypto.randomUUID()`
  (`backend/routes/tallerRoutes.js:75`, `backend/routes/participanteRoutes.js:86`).
  Yet an `id` in a POST body wins over the generated one, because the spread
  comes after it (`tallerRoutes.js:74-77`, `participanteRoutes.js:85-88`). A
  PUT body can also replace the stored id (`tallerRoutes.js:106`,
  `participanteRoutes.js:116`). The model keeps this behaviour:
  - `TallerRoutes.CreateCanDuplicateIds` shows that two workshops can end up
    with the same id.
  - `ParticipanteRoutes.UpdateWithForeignIdBreaksUniqueness` shows a PUT body
    that carries another participant's id and email. It passes validation and
    leaves two records with the same email and the same id.
  - A POST always keeps emails unique, whatever the body: it checks the
    email against every stored record (`esNuevo` is `true`). A PUT keeps
    emails and ids unique when the stored ids are unique and the merged
    record keeps its id, that is, when the body carries no id or the same
    one. Its email check skips the record with the candidate's id, so a body
    carrying another record's id can break uniqueness.
- Deleting a workshop does not check for participants that still reference
  it. `TallerRoutes.DeleteOrphansParticipants` shows that, when workshop ids
  are unique, every participant enrolled in the deleted workshop is left
  with a dangling reference.
- PUT usually means full replacement, but the handler merges the body into
  the stored record first and validates the result (`tallerRoutes.js:104-106`,
  `participanteRoutes.js:114-116`). A PUT therefore behaves like a PATCH, and
  the model uses the merge.

## Model

| member | source | states |
|---|---|---|
| `JsArray.FindIndex` | backend/routes/tallerRoutes.js:93 | `-1` exactly when no element satisfies the predicate; otherwise the position of the first element that does |
| `JsArray.Splice` | backend/routes/tallerRoutes.js:135 | `splice(i, 1)` removes exactly the element at `i`: the length drops by one, the elements before `i` stay where they are, the ones after move down one place in their order, and the multiset loses exactly that one element |
| `Db.SpreadTaller` | backend/routes/tallerRoutes.js:106 | shallow merge: a property absent from the body keeps the stored value, and a property the body carries (`null` included) takes the body's value, id included |
| `Db.SpreadParticipante` | backend/routes/participanteRoutes.js:116 | the same merge on participants, so a body that carries only some properties changes only those |
| `Db.SpreadTallerIdempotent` | backend/routes/tallerRoutes.js:106 | merging the same body twice gives what merging it once gives, so a repeated PUT stores the same record |
| `Db.SpreadParticipanteIdempotent` | backend/routes/participanteRoutes.js:116 | the same for participants |
| `Db.Store.constructor` | backend/db.js:49-52 | the store holds exactly the two given collections |
| `Db.SeedConsistent` | backend/db.js:9-44 | the seed data, with distinct generated ids, has unique workshop ids, unique participant ids and unique emails, and every seed participant references an existing workshop |
| `TallerRoutes.ValidarTaller` | backend/routes/tallerRoutes.js:18-38 | returns `null` exactly when all six rules hold (titulo at least 3 long, fecha a date, duracionMin > 0, cupos at least 5, modalidad `presencial` or `virtual`, docente non-empty); otherwise its message is that of the first broken rule in that order, so a short titulo always gets the título message; it reads no store |
| `TallerRoutes.IndexOf` | backend/routes/tallerRoutes.js:93 | the position of the first workshop with the given id, or `-1` exactly when none has it |
| `TallerRoutes.List` | backend/routes/tallerRoutes.js:44-46 | 200 with every workshop in insertion order |
| `TallerRoutes.Get` | backend/routes/tallerRoutes.js:49-60 | 404 "Taller no encontrado" exactly when no workshop has the id, otherwise 200 with the first one that does |
| `TallerRoutes.Create` | backend/routes/tallerRoutes.js:63-85 | an invalid body gives 400 with the validator's message and the collection unchanged; a valid one appends `{ id: freshId, ...body }`, leaving earlier records as they were, and returns it with 201; without an id in the body, the new record is the one found by the generated id and workshop ids stay unique; existing participant references still resolve |
| `TallerRoutes.Update` | backend/routes/tallerRoutes.js:88-120 | an unknown id gives 404 with nothing changed; the candidate is the stored record merged with the body; an invalid candidate gives 400 with nothing changed; otherwise only that position is replaced (same length, every other position unchanged) and 200 returns the candidate; when the body carries no id or the same one, workshop ids stay unique and participant references still resolve |
| `TallerRoutes.Delete` | backend/routes/tallerRoutes.js:123-140 | an unknown id gives 404 with nothing changed; otherwise the first workshop with the id is spliced out (others keep their order) and 204 has no body; workshop ids stay unique; participants are never touched |
| `TallerRoutes.DeleteOrphansParticipants` | backend/routes/tallerRoutes.js:127-135 | with unique workshop ids, a participant enrolled in the deleted workshop resolved before the delete and resolves to no workshop after it |
| `TallerRoutes.CreateCanDuplicateIds` | backend/routes/tallerRoutes.js:74-77 | a POST body with an existing id yields a collection with a duplicated id |
| `ParticipanteRoutes.EmailShape` | backend/routes/participanteRoutes.js:23 | `/\S+@\S+\.\S+/.test(email)` as an unanchored search for an `@` and a later `.` with non-space text around them; a string it accepts has at least five characters (its exact language is the next row) |
| `ParticipanteRoutes.EmailShapeIsSubstringMatch` | backend/routes/participanteRoutes.js:23 | the position-based test (an `@` with a non-space before it, a non-empty space-free run, a `.`, a non-space) holds exactly when some substring is in the language of `\S+@\S+\.\S+`, which is what the unanchored `.test` asks |
| `ParticipanteRoutes.EmailShapeInfix` | backend/routes/participanteRoutes.js:23 | because the pattern is unanchored, text added before or after a matching string keeps it matching |
| `ParticipanteRoutes.EmailShapeOfParts` | backend/routes/participanteRoutes.js:23 | `local@domain.tld` matches when local ends in a non-space, domain is non-empty and space-free, and tld starts with a non-space |
| `ParticipanteRoutes.ValidarParticipante` | backend/routes/participanteRoutes.js:18-49 | returns `null` exactly when nombre is at least 2 long, the email matches the pattern, no stored participant has that email (on an update, none with another id), tallerId is non-empty, and a workshop has that id; otherwise its message is that of the first broken rule in this order; it writes nothing |
| `ParticipanteRoutes.SelfExclusion` | backend/routes/participanteRoutes.js:31-36 | with unique emails, an update candidate that keeps a stored record's id and email passes the email rule |
| `ParticipanteRoutes.NewRecordConflictsWithStored` | backend/routes/participanteRoutes.js:31-36 | on a create, a candidate with a stored email is refused with the "ya está registrado" message once the nombre and email-format rules pass |
| `ParticipanteRoutes.CreateKeepsEmailsUnique` | backend/routes/participanteRoutes.js:78-92 | if a POST body passes validation, appending `{ id, ...body }` keeps emails unique |
| `ParticipanteRoutes.UpdateKeepsEmailsUnique` | backend/routes/participanteRoutes.js:116-126 | with unique ids and emails, replacing a record by a candidate that keeps its id and passes the update-mode email rule keeps emails unique |
| `ParticipanteRoutes.UpdateWithForeignIdBreaksUniqueness` | backend/routes/participanteRoutes.js:116-126 | a PUT body carrying another record's id and email passes validation and leaves two records with the same email and the same id |
| `ParticipanteRoutes.IndexOf` | backend/routes/participanteRoutes.js:105 | the position of the first participant with the given id, or `-1` exactly when none has it |
| `ParticipanteRoutes.List` | backend/routes/participanteRoutes.js:55-57 | 200 with every participant in insertion order |
| `ParticipanteRoutes.Get` | backend/routes/participanteRoutes.js:60-71 | 404 "Participante no encontrado" exactly when no participant has the id, otherwise 200 with the first one that does |
| `ParticipanteRoutes.Create` | backend/routes/participanteRoutes.js:74-97 | an invalid body gives 400 with the message and nothing stored; a valid one appends `{ id: freshId, ...body }` with 201; the new record's workshop exists and its email differs from every earlier one, so email uniqueness and referential integrity are preserved whatever the body; without an id in the body, participant ids stay unique |
| `ParticipanteRoutes.Update` | backend/routes/participanteRoutes.js:100-131 | an unknown id gives 404 with nothing changed; the merged candidate is validated in update mode; on failure 400 with nothing changed; otherwise only that position is replaced and 200 returns it; the stored record's workshop exists; references keep resolving; with unique ids and a body carrying no id or the same one, ids and emails stay unique |
| `ParticipanteRoutes.Delete` | backend/routes/participanteRoutes.js:134-151 | an unknown id gives 404 with nothing changed; otherwise the first participant with the id is spliced out with 204; emails and ids stay unique and every remaining reference still resolves; workshops are never touched |
| `ParticipanteRoutes.TelefonoOnlyUpdate` | backend/routes/participanteRoutes.js:116 | merging a body with only `telefono` changes the phone and keeps id, nombre, email and tallerId |
| `App.Route` | backend/app.js:28-44 | the route table: only `GET` or `HEAD` on `/api` reach the welcome route; the workshop and participant routers take only paths under `/api/talleres` and `/api/participantes`; every other request reaches the catch-all |
| `App.RouteReachesEveryEndpoint` | backend/app.js:28-37 | every handler is reached by its own method and path (`GET`/`POST` on the collection, `GET`/`PUT`/`DELETE` on `/:id`, `OPTIONS` on both, `GET /api`) |
| `App.RouteIsExact` | backend/app.js:28-44 | a request that reaches a handler has exactly that handler's path, with a non-empty id, and its method (HEAD counting as GET), so no two routes overlap and everything else falls to the catch-all |
| `App.HeadRoutesAsGet` | backend/app.js:28-44 | a HEAD request reaches the handler a GET on the same path reaches |
| `App.Serve` | backend/app.js:28-44 | an unmatched request gets 404 "Endpoint no encontrado", `GET /api` the welcome message, OPTIONS on a router path 200 with its `Allow` list, all with the store unchanged; a HEAD answer has no body; read routes change nothing; workshop routes leave participants unchanged and participant routes leave workshops unchanged |

## Left out

- backend/server.js: choosing the port and `app.listen` are process plumbing.
  They are not part of this model.
- Express itself is not part of this model, except for two behaviours of its
  router that decide which handler answers: a HEAD request runs the GET
  route of its path and is sent without a body, and an OPTIONS request on a
  path of a mounted router is answered 200 with the methods of its routes
  (`App.AllowCollection`, `App.AllowRecord`). Those texts follow Express 4's
  router, which lists the methods in registration order joined by `,`; the
  router of Express 5 sorts them and joins them with `, `, which this model
  does not follow. Response headers, including
  `Allow` itself, are not modelled. Left out are JSON body parsing and path
  matching: case-insensitivity, trailing slashes and URL decoding of `:id`. A path arrives as its list of segments, and a request body arrives
  already read through each collection's properties (`App.RequestBody`).
- Date parsing stays a parameter. `new Date(...)` and its float result are
  JavaScript runtime behaviour.
- Loose typing: a property holding a value of another JSON type is not
  modelled. Examples are a numeric string in `cupos`, a number in `titulo`
  (which has no `.length`) or an array. Numbers are unbounded integers, so
  fractions and NaN are not covered. Properties that are not part of either
  record's shape are dropped rather than stored.
- Lengths are counted in Unicode scalar values, not in UTF-16 code units as
  JavaScript counts them. A character outside the Basic Multilingual Plane
  counts 1 here and 2 in the source.
- Serialisation: a response is a value, not JSON text, and key order is not
  modelled.
- `App.Serve`: its contract states the dispatch facts (catch-all, welcome,
  OPTIONS, HEAD, which collection a route may change). It does not repeat each handler's
  result, because that is stated in the handler's own contract.
- Concurrency: there is none. Each handler runs to completion as one method.
