/** Requests against the seed store, written as clients of the handlers'
    contracts: what each request answers and what the store holds afterwards
    follow from those contracts alone. Each session starts from the seed data
    with generated ids `t0`, `t1` (workshops) and `p0`, `p1` (participants). */
module Scenarios {
  import opened Json
  import opened Db
  import opened Http
  import TallerRoutes
  import ParticipanteRoutes

  /** POST /api/talleres `{ titulo: "AB" }`: 400 about the title, nothing stored. */
  method ShortTitleRejected(isDate: string -> bool, t0: string, t1: string, p0: string, p1: string, newId: string)
    requires newId != t0 && newId != t1
  {
    var db := new Store(SeedTalleres(t0, t1), SeedParticipantes(p0, p1, t0));
    var r := TallerRoutes.Create(db, Taller(Missing, Present("AB"), Missing, Missing, Missing, Missing, Missing), newId, isDate);
    assert r == ErrorResponse(400, TallerRoutes.MsgTitulo);
    assert db.talleres == SeedTalleres(t0, t1);
  }

  /** POST /api/talleres with every field valid: 201 with the generated id and
      every field echoed; a GET of that id, twice, answers the same record. */
  method ValidWorkshopCreated(isDate: string -> bool, t0: string, t1: string, p0: string, p1: string, newId: string)
    requires isDate("2025-01-01T00:00:00.000Z")
    requires newId != t0 && newId != t1
  {
    var db := new Store(SeedTalleres(t0, t1), SeedParticipantes(p0, p1, t0));
    var body := Taller(Missing, Present("Taller X"), Present("2025-01-01T00:00:00.000Z"),
                       Present(60), Present(10), Present("virtual"), Present("X"));
    var r := TallerRoutes.Create(db, body, newId, isDate);
    assert r == Response(201, TallerJson(body.(id := Present(newId))));
    var g1 := TallerRoutes.Get(db, newId);
    var g2 := TallerRoutes.Get(db, newId);
    assert g1 == g2 == Response(200, TallerJson(body.(id := Present(newId))));
  }

  /** DELETE /api/talleres/unknown-id: 404, nothing removed. */
  method UnknownWorkshopDelete(t0: string, t1: string, p0: string, p1: string, unknown: string)
    requires unknown != t0 && unknown != t1
  {
    var db := new Store(SeedTalleres(t0, t1), SeedParticipantes(p0, p1, t0));
    var r := TallerRoutes.Delete(db, unknown);
    assert r == ErrorResponse(404, TallerRoutes.MsgNoEncontrado);
    assert db.talleres == SeedTalleres(t0, t1);
  }

  /** POST /api/participantes naming a workshop that does not exist: 400. */
  method UnknownWorkshopReference(t0: string, t1: string, p0: string, p1: string, unknown: string, newId: string)
    requires unknown != "" && unknown != t0 && unknown != t1
    requires newId != p0 && newId != p1
  {
    var db := new Store(SeedTalleres(t0, t1), SeedParticipantes(p0, p1, t0));
    var nueva := Participante(Missing, Present("Eva"), Present("eva@demo.com"), Missing, Present(unknown));
    assert ParticipanteRoutes.EmailOk(nueva) by {
      ParticipanteRoutes.EmailShapeOfParts("eva", "demo", "com");
      assert "eva" + "@" + "demo" + "." + "com" == "eva@demo.com";
    }
    assert ParticipanteRoutes.EmailFree(nueva, true, db.participantes) by {
      assert db.participantes[0].email != nueva.email && db.participantes[1].email != nueva.email;
    }
    assert !Resolves(nueva, db.talleres);
    var r := ParticipanteRoutes.Create(db, nueva, newId);
    assert r == ErrorResponse(400, ParticipanteRoutes.MsgTallerNoExiste);
  }

  /** PUT /api/participantes/:id with only `{ telefono }`: 200, the new phone,
      every other field kept, emails still unique. */
  method PhoneOnlyUpdate(t0: string, t1: string, p0: string, p1: string)
    requires t0 != "" && t0 != t1 && p0 != p1
  {
    var db := new Store(SeedTalleres(t0, t1), SeedParticipantes(p0, p1, t0));
    SeedConsistent(t0, t1, p0, p1);
    ParticipanteRoutes.EmailShapeOfParts("ana", "demo", "com");
    assert "ana" + "@" + "demo" + "." + "com" == "ana@demo.com";
    var ana := db.participantes[0];
    var c := ana.(telefono := Present("123"));
    ParticipanteRoutes.SelfExclusion(db.participantes, 0, c);
    assert Resolves(c, db.talleres) by { assert db.talleres[0].id == c.tallerId; }
    var r := ParticipanteRoutes.Update(db, p0, Participante(Missing, Missing, Missing, Present("123"), Missing));
    assert r == Response(200, ParticipanteJson(c));
    assert c.nombre == Present("Ana Pérez") && c.email == Present("ana@demo.com") && c.tallerId == Present(t0);
    assert EmailsUnique(db.participantes);
  }
}
