/** The in-memory "database": the two record shapes, the object spread that
    builds new records from request bodies, the store object shared by both
    routers, and the invariants the participant router is meant to keep. */
module Db {
  import opened Json

  /** A workshop as stored and as sent in a request body: every property may
      be absent or `null`, because the body is whatever the client sent. */
  datatype Taller = Taller(
    id: Field<string>,
    titulo: Field<string>,
    fecha: Field<string>,
    duracionMin: Field<int>,
    cupos: Field<int>,
    modalidad: Field<string>,
    docente: Field<string>)

  /** A participant as stored and as sent in a request body. */
  datatype Participante = Participante(
    id: Field<string>,
    nombre: Field<string>,
    email: Field<string>,
    telefono: Field<string>,
    tallerId: Field<string>)

  /** `{ id }`: the object the create handlers spread a body over. */
  function NewTaller(id: string): Taller
  {
    Taller(Present(id), Missing, Missing, Missing, Missing, Missing, Missing)
  }

  function NewParticipante(id: string): Participante
  {
    Participante(Present(id), Missing, Missing, Missing, Missing)
  }

  /** `{ ...base, ...over }` on workshops. */
  function SpreadTaller(base: Taller, over: Taller): (r: Taller)
    ensures over.id.Missing? ==> r.id == base.id
    ensures over.titulo.Missing? ==> r.titulo == base.titulo
    ensures over.fecha.Missing? ==> r.fecha == base.fecha
    ensures over.duracionMin.Missing? ==> r.duracionMin == base.duracionMin
    ensures over.cupos.Missing? ==> r.cupos == base.cupos
    ensures over.modalidad.Missing? ==> r.modalidad == base.modalidad
    ensures over.docente.Missing? ==> r.docente == base.docente
    ensures !over.id.Missing? ==> r.id == over.id
    ensures !over.titulo.Missing? ==> r.titulo == over.titulo
    ensures !over.fecha.Missing? ==> r.fecha == over.fecha
    ensures !over.duracionMin.Missing? ==> r.duracionMin == over.duracionMin
    ensures !over.cupos.Missing? ==> r.cupos == over.cupos
    ensures !over.modalidad.Missing? ==> r.modalidad == over.modalidad
    ensures !over.docente.Missing? ==> r.docente == over.docente
  {
    Taller(
      Spread(base.id, over.id),
      Spread(base.titulo, over.titulo),
      Spread(base.fecha, over.fecha),
      Spread(base.duracionMin, over.duracionMin),
      Spread(base.cupos, over.cupos),
      Spread(base.modalidad, over.modalidad),
      Spread(base.docente, over.docente))
  }

  /** `{ ...base, ...over }` on participants. */
  function SpreadParticipante(base: Participante, over: Participante): (r: Participante)
    ensures over.id.Missing? ==> r.id == base.id
    ensures over.nombre.Missing? ==> r.nombre == base.nombre
    ensures over.email.Missing? ==> r.email == base.email
    ensures over.telefono.Missing? ==> r.telefono == base.telefono
    ensures over.tallerId.Missing? ==> r.tallerId == base.tallerId
    ensures !over.id.Missing? ==> r.id == over.id
    ensures !over.nombre.Missing? ==> r.nombre == over.nombre
    ensures !over.email.Missing? ==> r.email == over.email
    ensures !over.telefono.Missing? ==> r.telefono == over.telefono
    ensures !over.tallerId.Missing? ==> r.tallerId == over.tallerId
  {
    Participante(
      Spread(base.id, over.id),
      Spread(base.nombre, over.nombre),
      Spread(base.email, over.email),
      Spread(base.telefono, over.telefono),
      Spread(base.tallerId, over.tallerId))
  }

  /** Spreading the same body a second time changes nothing: repeating a PUT
      stores the same record. */
  lemma SpreadTallerIdempotent(base: Taller, over: Taller)
    ensures SpreadTaller(SpreadTaller(base, over), over) == SpreadTaller(base, over)
  {
  }

  lemma SpreadParticipanteIdempotent(base: Participante, over: Participante)
    ensures SpreadParticipante(SpreadParticipante(base, over), over) == SpreadParticipante(base, over)
  {
  }

  /** The shared store: `db.talleres` and `db.participantes`, in insertion
      order. Handlers replace these sequences as they push, assign and splice. */
  class Store {
    var talleres: seq<Taller>
    var participantes: seq<Participante>

    constructor (talleres: seq<Taller>, participantes: seq<Participante>)
      ensures this.talleres == talleres && this.participantes == participantes
    {
      this.talleres := talleres;
      this.participantes := participantes;
    }
  }

  /** No two participants share an email. */
  ghost predicate EmailsUnique(ps: seq<Participante>)
  {
    forall i, j :: 0 <= i < j < |ps| ==> ps[i].email != ps[j].email
  }

  /** No two records share an id. */
  ghost predicate TallerIdsUnique(ts: seq<Taller>)
  {
    forall i, j :: 0 <= i < j < |ts| ==> ts[i].id != ts[j].id
  }

  ghost predicate ParticipanteIdsUnique(ps: seq<Participante>)
  {
    forall i, j :: 0 <= i < j < |ps| ==> ps[i].id != ps[j].id
  }

  /** Participant `p`'s `tallerId` names a workshop of `ts`. */
  ghost predicate Resolves(p: Participante, ts: seq<Taller>)
  {
    exists k :: 0 <= k < |ts| && ts[k].id == p.tallerId
  }

  /** Every participant's `tallerId` names a workshop of `ts`. */
  ghost predicate ReferencesResolve(ps: seq<Participante>, ts: seq<Taller>)
  {
    forall i :: 0 <= i < |ps| ==> Resolves(ps[i], ts)
  }

  /** The two workshops the process starts with; their ids come from
      `crypto.randomUUID()`, here parameters. */
  function SeedTalleres(id0: string, id1: string): seq<Taller>
  {
    [ Taller(Present(id0), Present("Intro a APIs REST"), Present("2025-09-10T14:00:00.000Z"),
             Present(120), Present(30), Present("presencial"), Present("Jaime Zagal")),
      Taller(Present(id1), Present("MongoDB para Web"), Present("2025-09-12T13:30:00.000Z"),
             Present(90), Present(25), Present("virtual"), Present("Invitado UDI")) ]
  }

  /** The two participants the process starts with, both enrolled in the first
      seed workshop, whose id is `tallerId`. */
  function SeedParticipantes(id0: string, id1: string, tallerId: string): seq<Participante>
  {
    [ Participante(Present(id0), Present("Ana Pérez"), Present("ana@demo.com"),
                   Present("700-11111"), Present(tallerId)),
      Participante(Present(id1), Present("Luis Rojas"), Present("luis@demo.com"),
                   Missing, Present(tallerId)) ]
  }

  /** The seed data satisfies every store invariant when its generated ids
      are distinct. */
  lemma SeedConsistent(t0: string, t1: string, p0: string, p1: string)
    requires t0 != t1 && p0 != p1
    ensures TallerIdsUnique(SeedTalleres(t0, t1))
    ensures ParticipanteIdsUnique(SeedParticipantes(p0, p1, t0))
    ensures EmailsUnique(SeedParticipantes(p0, p1, t0))
    ensures ReferencesResolve(SeedParticipantes(p0, p1, t0), SeedTalleres(t0, t1))
  {
    var ts := SeedTalleres(t0, t1);
    var ps := SeedParticipantes(p0, p1, t0);
    assert ps[0].email != ps[1].email by {
      assert ps[0].email.value[0] != ps[1].email.value[0];
    }
    assert Resolves(ps[0], ts) && Resolves(ps[1], ts) by {
      assert ts[0].id == Present(t0);
    }
  }
}
