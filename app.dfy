/** The application: the route table that sends a method and a path to one of
    the handlers, the welcome route, and the catch-all 404. Express's own
    matching (case, trailing slashes, URL decoding) is taken as already done:
    a path arrives as its list of segments. */
module App {
  import opened Json
  import opened Db
  import opened Http
  import TallerRoutes
  import ParticipanteRoutes

  const MsgBienvenida := "Bienvenido a la API de Gestión de Talleres UDI"
  const MsgEndpointNoEncontrado := "Endpoint no encontrado"

  /** The `Allow` list a mounted router answers OPTIONS with: the methods of
      its routes on that path, in registration order, HEAD following GET. */
  const AllowCollection := "GET,HEAD,POST"
  const AllowRecord := "GET,HEAD,PUT,DELETE"

  datatype Verb = Get | Head | Post | Put | Delete | Options | Other

  /** What one router does on a request: the five routes of a collection, and
      the automatic OPTIONS answer on each of its two paths. */
  datatype Op =
    | ListAll | GetOne(id: string) | CreateOne | UpdateOne(id: string) | DeleteOne(id: string)
    | OptionsAll | OptionsOne(id: string)
  {
    /** The operations that only read the store. */
    predicate ReadOnly()
    {
      ListAll? || GetOne? || OptionsAll? || OptionsOne?
    }
  }

  /** The handler a request reaches. */
  datatype Endpoint = Welcome | Talleres(op: Op) | Participantes(op: Op) | Unmatched
  {
    /** The endpoints that only read the store. */
    predicate ReadOnly()
    {
      (Talleres? || Participantes?) ==> op.ReadOnly()
    }
  }

  /** The routes of one router mounted at `/api/<collection>`: `GET /` and
      `POST /`, and `GET`, `PUT`, `DELETE` on `/:id`; `rest` is the path
      below the mount point. A HEAD request runs the GET route of its path,
      and an OPTIONS request on a path some route has is answered by the
      router itself. */
  function RouteIn(verb: Verb, rest: seq<string>): Option<Op>
  {
    if rest == [] then
      match verb
      case Get | Head => Some(ListAll)
      case Post => Some(CreateOne)
      case Options => Some(OptionsAll)
      case _ => None
    else if |rest| == 1 && rest[0] != "" then
      match verb
      case Get | Head => Some(GetOne(rest[0]))
      case Put => Some(UpdateOne(rest[0]))
      case Delete => Some(DeleteOne(rest[0]))
      case Options => Some(OptionsOne(rest[0]))
      case _ => None
    else None
  }

  /** The route table, in registration order: the two routers, `GET /api`,
      and the catch-all. Only GET and HEAD reach the welcome route (OPTIONS on
      `/api` falls through to the catch-all), and a router only takes paths
      under its own mount point. */
  function Route(verb: Verb, path: seq<string>): (r: Endpoint)
    ensures r == Welcome <==> path == ["api"] && (verb == Get || verb == Head)
    ensures r.Talleres? ==> |path| >= 2 && path[0] == "api" && path[1] == "talleres"
    ensures r.Participantes? ==> |path| >= 2 && path[0] == "api" && path[1] == "participantes"
    ensures r == Unmatched <==> (|path| < 2 || path[0] != "api" || path[1] !in ["talleres", "participantes"]
                                 || RouteIn(verb, path[2..]).None?) && r != Welcome
  {
    if |path| >= 2 && path[0] == "api" && path[1] == "talleres" && RouteIn(verb, path[2..]).Some? then
      Talleres(RouteIn(verb, path[2..]).value)
    else if |path| >= 2 && path[0] == "api" && path[1] == "participantes" && RouteIn(verb, path[2..]).Some? then
      Participantes(RouteIn(verb, path[2..]).value)
    else if path == ["api"] && (verb == Get || verb == Head) then Welcome
    else Unmatched
  }

  /** The method that reaches an operation, and its path below the mount point. */
  function OpVerb(op: Op): Verb
  {
    match op
    case ListAll => Get
    case GetOne(_) => Get
    case CreateOne => Post
    case UpdateOne(_) => Put
    case DeleteOne(_) => Delete
    case OptionsAll => Options
    case OptionsOne(_) => Options
  }

  function OpPath(op: Op): seq<string>
  {
    match op
    case ListAll => []
    case CreateOne => []
    case OptionsAll => []
    case GetOne(id) => [id]
    case UpdateOne(id) => [id]
    case DeleteOne(id) => [id]
    case OptionsOne(id) => [id]
  }

  function VerbOf(e: Endpoint): Verb
  {
    match e
    case Welcome => Get
    case Talleres(op) => OpVerb(op)
    case Participantes(op) => OpVerb(op)
    case Unmatched => Other
  }

  function PathOf(e: Endpoint): seq<string>
  {
    match e
    case Welcome => ["api"]
    case Talleres(op) => ["api", "talleres"] + OpPath(op)
    case Participantes(op) => ["api", "participantes"] + OpPath(op)
    case Unmatched => []
  }

  /** `:id` only matches a non-empty segment. */
  predicate HasId(e: Endpoint)
  {
    (e.Talleres? || e.Participantes?) ==> forall s | s in OpPath(e.op) :: s != ""
  }

  /** The verb whose routes a request runs: HEAD runs the GET routes. */
  function RunsAs(verb: Verb): Verb
  {
    if verb == Head then Get else verb
  }

  /** Every endpoint is reached by its own method and path. */
  lemma RouteReachesEveryEndpoint(e: Endpoint)
    requires !e.Unmatched? && HasId(e)
    ensures Route(VerbOf(e), PathOf(e)) == e
  {
    if e.Talleres? || e.Participantes? {
      var p := PathOf(e);
      assert p[2..] == OpPath(e.op);
      if OpPath(e.op) != [] {
        assert OpPath(e.op)[0] in OpPath(e.op);
      }
    }
  }

  /** And only by it: a request that reaches an endpoint has that endpoint's
      method (HEAD counting as GET) and path, so no two routes overlap. */
  lemma RouteIsExact(verb: Verb, path: seq<string>)
    requires !Route(verb, path).Unmatched?
    ensures VerbOf(Route(verb, path)) == RunsAs(verb) && PathOf(Route(verb, path)) == path
    ensures HasId(Route(verb, path))
  {
    if |path| >= 2 && path[0] == "api" && path[1] in ["talleres", "participantes"] {
      var rest := path[2..];
      if rest == [] {
        assert path == [path[0], path[1]];
      } else if |rest| == 1 {
        assert path == [path[0], path[1], rest[0]];
      }
    }
  }

  /** A HEAD request reaches the handler a GET on the same path reaches. */
  lemma HeadRoutesAsGet(path: seq<string>)
    ensures Route(Head, path) == Route(Get, path)
  {
  }

  /** What is sent for a handler's answer `a`: a HEAD request gets the status
      and no body. */
  function AsSent(verb: Verb, a: Response): (r: Response)
    ensures r.status == a.status
    ensures r.body == (if verb == Head then NoBody else a.body)
  {
    if verb == Head then a.(body := NoBody) else a
  }

  /** The body of a request, as the handler of each collection reads it. */
  datatype RequestBody = RequestBody(asTaller: Taller, asParticipante: Participante)

  /** One request, handled to completion against the shared store. `freshId`
      is the id `crypto.randomUUID()` would give a created record. */
  method Serve(db: Store, verb: Verb, path: seq<string>, body: RequestBody, freshId: string, isDate: string -> bool)
    returns (r: Response)
    requires Route(verb, path) == Talleres(CreateOne) ==> TallerRoutes.IndexOf(db.talleres, freshId) == -1
    requires Route(verb, path) == Participantes(CreateOne) ==> ParticipanteRoutes.IndexOf(db.participantes, freshId) == -1
    modifies db
    ensures Route(verb, path) == Unmatched ==> r == AsSent(verb, ErrorResponse(404, MsgEndpointNoEncontrado))
    ensures Route(verb, path) == Welcome ==> r == AsSent(verb, Response(200, MessageJson(MsgBienvenida)))
    ensures Route(verb, path) in {Talleres(OptionsAll), Participantes(OptionsAll)} ==>
      r == Response(200, TextBody(AllowCollection))
    ensures (Route(verb, path).Talleres? || Route(verb, path).Participantes?) && Route(verb, path).op.OptionsOne? ==>
      r == Response(200, TextBody(AllowRecord))
    ensures verb == Head ==> r.body == NoBody
    ensures Route(verb, path).ReadOnly() ==>
      db.talleres == old(db.talleres) && db.participantes == old(db.participantes)
    ensures Route(verb, path).Talleres? ==> db.participantes == old(db.participantes)
    ensures Route(verb, path).Participantes? ==> db.talleres == old(db.talleres)
    ensures r.status in {200, 201, 204, 400, 404}
  {
    var a: Response;
    match Route(verb, path) {
    case Welcome => a := Response(200, MessageJson(MsgBienvenida));
    case Talleres(op) =>
      match op {
      case ListAll => a := TallerRoutes.List(db);
      case GetOne(id) => a := TallerRoutes.Get(db, id);
      case CreateOne => a := TallerRoutes.Create(db, body.asTaller, freshId, isDate);
      case UpdateOne(id) => a := TallerRoutes.Update(db, id, body.asTaller, isDate);
      case DeleteOne(id) => a := TallerRoutes.Delete(db, id);
      case OptionsAll => a := Response(200, TextBody(AllowCollection));
      case OptionsOne(_) => a := Response(200, TextBody(AllowRecord));
      }
    case Participantes(op) =>
      match op {
      case ListAll => a := ParticipanteRoutes.List(db);
      case GetOne(id) => a := ParticipanteRoutes.Get(db, id);
      case CreateOne => a := ParticipanteRoutes.Create(db, body.asParticipante, freshId);
      case UpdateOne(id) => a := ParticipanteRoutes.Update(db, id, body.asParticipante);
      case DeleteOne(id) => a := ParticipanteRoutes.Delete(db, id);
      case OptionsAll => a := Response(200, TextBody(AllowCollection));
      case OptionsOne(_) => a := Response(200, TextBody(AllowRecord));
      }
    case Unmatched => a := ErrorResponse(404, MsgEndpointNoEncontrado);
    }
    r := AsSent(verb, a);
  }
}
