/** The workshop router, mounted at `/api/talleres`: the validator and the
    five handlers over `db.talleres`. Every handler frames only that field of
    the store, so the participant collection is never touched. */
module TallerRoutes {
  import opened Json
  import opened JsArray
  import opened Db
  import opened Http

  const MsgTitulo := "El título es requerido y debe tener al menos 3 caracteres."
  const MsgFecha := "La fecha es requerida y debe ser un formato ISO válido."
  const MsgDuracion := "La duración es requerida y debe ser mayor a 0."
  const MsgCupos := "Los cupos son requeridos y deben ser 5 o más."
  const MsgModalidad := "La modalidad es requerida y debe ser 'presencial' o 'virtual'."
  const MsgDocente := "El docente es requerido."
  const MsgNoEncontrado := "Taller no encontrado"

  // The six rules of a well-formed workshop, each stated positively.
  // `isDate(s)` stands for `!isNaN(new Date(s).getTime())`.

  predicate TituloOk(t: Taller)
  {
    t.titulo.Present? && |t.titulo.value| >= 3
  }

  predicate FechaOk(t: Taller, isDate: string -> bool)
  {
    t.fecha.Present? && t.fecha.value != "" && isDate(t.fecha.value)
  }

  predicate DuracionOk(t: Taller)
  {
    t.duracionMin.Present? && t.duracionMin.value > 0
  }

  predicate CuposOk(t: Taller)
  {
    t.cupos.Present? && t.cupos.value >= 5
  }

  predicate ModalidadOk(t: Taller)
  {
    t.modalidad == Present("presencial") || t.modalidad == Present("virtual")
  }

  predicate DocenteOk(t: Taller)
  {
    t.docente.Present? && t.docente.value != ""
  }

  predicate IsValid(t: Taller, isDate: string -> bool)
  {
    TituloOk(t) && FechaOk(t, isDate) && DuracionOk(t) && CuposOk(t) && ModalidadOk(t) && DocenteOk(t)
  }

  /** `validarTaller`: `null` exactly for a valid workshop, otherwise the
      message of the first rule it breaks, rules taken in the order titulo,
      fecha, duracionMin, cupos, modalidad, docente. It depends on nothing but
      its argument (and the date parser). */
  function ValidarTaller(t: Taller, isDate: string -> bool): (r: Option<string>)
    ensures r == None <==> IsValid(t, isDate)
    ensures r == Some(MsgTitulo) <==> !TituloOk(t)
    ensures r == Some(MsgFecha) <==> TituloOk(t) && !FechaOk(t, isDate)
    ensures r == Some(MsgDuracion) <==> TituloOk(t) && FechaOk(t, isDate) && !DuracionOk(t)
    ensures r == Some(MsgCupos) <==>
      TituloOk(t) && FechaOk(t, isDate) && DuracionOk(t) && !CuposOk(t)
    ensures r == Some(MsgModalidad) <==>
      TituloOk(t) && FechaOk(t, isDate) && DuracionOk(t) && CuposOk(t) && !ModalidadOk(t)
    ensures r == Some(MsgDocente) <==>
      TituloOk(t) && FechaOk(t, isDate) && DuracionOk(t) && CuposOk(t) && ModalidadOk(t) && !DocenteOk(t)
  {
    if !TruthyString(t.titulo) || |t.titulo.value| < 3 then Some(MsgTitulo)
    else if !TruthyString(t.fecha) || !isDate(t.fecha.value) then Some(MsgFecha)
    else if !TruthyNumber(t.duracionMin) || t.duracionMin.value <= 0 then Some(MsgDuracion)
    else if IsNullish(t.cupos) || t.cupos.value < 5 then Some(MsgCupos)
    else if !TruthyString(t.modalidad) || t.modalidad.value !in ["presencial", "virtual"] then Some(MsgModalidad)
    else if !TruthyString(t.docente) then Some(MsgDocente)
    else None
  }

  /** `db.talleres.findIndex(t => t.id === id)`. */
  function IndexOf(ts: seq<Taller>, id: string): (i: int)
    ensures -1 <= i < |ts|
    ensures i == -1 <==> forall j :: 0 <= j < |ts| ==> ts[j].id != Present(id)
    ensures 0 <= i ==> ts[i].id == Present(id) && forall j :: 0 <= j < i ==> ts[j].id != Present(id)
  {
    FindIndex(ts, (t: Taller) => t.id == Present(id))
  }

  /** GET /api/talleres: every workshop, in insertion order. */
  method List(db: Store) returns (r: Response)
    ensures r == Response(200, TalleresJson(db.talleres))
  {
    r := Response(200, TalleresJson(db.talleres));
  }

  /** GET /api/talleres/:id: the first workshop with that id, or 404. */
  method Get(db: Store, id: string) returns (r: Response)
    ensures r.status == 200 || r == ErrorResponse(404, MsgNoEncontrado)
    ensures r.status == 404 <==> forall j :: 0 <= j < |db.talleres| ==> db.talleres[j].id != Present(id)
    ensures r.status == 200 ==> r.body == TallerJson(db.talleres[IndexOf(db.talleres, id)])
  {
    var i := IndexOf(db.talleres, id);
    if i == -1 {
      return ErrorResponse(404, MsgNoEncontrado);
    }
    r := Response(200, TallerJson(db.talleres[i]));
  }

  /** POST /api/talleres. An invalid body is answered 400 with the validator's
      message and stores nothing; a valid one is stored as `{ id, ...body }`
      at the end of the collection and echoed with 201. `freshId` is the
      `crypto.randomUUID()` result, which no stored workshop carries. */
  method Create(db: Store, body: Taller, freshId: string, isDate: string -> bool) returns (r: Response)
    requires IndexOf(db.talleres, freshId) == -1
    modifies db`talleres
    ensures ValidarTaller(body, isDate).Some? ==>
      r == ErrorResponse(400, ValidarTaller(body, isDate).value) && db.talleres == old(db.talleres)
    ensures ValidarTaller(body, isDate) == None ==>
      var t := SpreadTaller(NewTaller(freshId), body);
      db.talleres == old(db.talleres) + [t] && r == Response(201, TallerJson(t))
    // Without an id in the body, the generated id finds the new record.
    ensures r.status == 201 && body.id.Missing? ==> IndexOf(db.talleres, freshId) == |old(db.talleres)|
    // Appending a workshop cannot leave a participant's reference dangling.
    ensures ReferencesResolve(db.participantes, old(db.talleres)) ==>
      ReferencesResolve(db.participantes, db.talleres)
    // Without an id in the body, the generated id keeps ids unique.
    ensures body.id.Missing? && TallerIdsUnique(old(db.talleres)) ==> TallerIdsUnique(db.talleres)
  {
    var e := ValidarTaller(body, isDate);
    if e.Some? {
      return ErrorResponse(400, e.value);
    }
    var t := SpreadTaller(NewTaller(freshId), body);
    ghost var before := db.talleres;
    db.talleres := db.talleres + [t];
    assert forall k :: 0 <= k < |before| ==> db.talleres[k] == before[k];
    if body.id.Missing? {
      assert db.talleres[|before|].id == Present(freshId);
    }
    r := Response(201, TallerJson(t));
  }

  /** PUT /api/talleres/:id. The candidate is the stored record with the body
      spread over it; it must pass the validator as a whole and then replaces
      the stored record at its position. */
  method Update(db: Store, id: string, body: Taller, isDate: string -> bool) returns (r: Response)
    modifies db`talleres
    ensures var s := old(db.talleres); var i := IndexOf(s, id);
      if i == -1 then
        r == ErrorResponse(404, MsgNoEncontrado) && db.talleres == s
      else
        var c := SpreadTaller(s[i], body);
        if ValidarTaller(c, isDate).Some? then
          r == ErrorResponse(400, ValidarTaller(c, isDate).value) && db.talleres == s
        else
          db.talleres == s[i := c] && r == Response(200, TallerJson(c))
    // When the body carries no id, or the same one, the workshop keeps its
    // id, so no participant loses its workshop and ids stay unique.
    ensures (body.id.Missing? || body.id == Present(id)) && ReferencesResolve(db.participantes, old(db.talleres)) ==>
      ReferencesResolve(db.participantes, db.talleres)
    ensures (body.id.Missing? || body.id == Present(id)) && TallerIdsUnique(old(db.talleres)) ==>
      TallerIdsUnique(db.talleres)
  {
    var i := IndexOf(db.talleres, id);
    if i == -1 {
      return ErrorResponse(404, MsgNoEncontrado);
    }
    var c := SpreadTaller(db.talleres[i], body);
    var e := ValidarTaller(c, isDate);
    if e.Some? {
      return ErrorResponse(400, e.value);
    }
    ghost var before := db.talleres;
    db.talleres := db.talleres[i := c];
    assert forall k :: 0 <= k < |before| ==> db.talleres[k].id == before[k].id || !(body.id.Missing? || body.id == Present(id));
    r := Response(200, TallerJson(db.talleres[i]));
  }

  /** DELETE /api/talleres/:id: removes the first workshop with that id and
      answers 204, or answers 404 and removes nothing. Participants that
      referenced the workshop are left as they are. */
  method Delete(db: Store, id: string) returns (r: Response)
    modifies db`talleres
    ensures var s := old(db.talleres); var i := IndexOf(s, id);
      if i == -1 then
        r == ErrorResponse(404, MsgNoEncontrado) && db.talleres == s
      else
        db.talleres == Splice(s, i) && r == Response(204, NoBody)
    ensures TallerIdsUnique(old(db.talleres)) ==> TallerIdsUnique(db.talleres)
  {
    var i := IndexOf(db.talleres, id);
    if i == -1 {
      return ErrorResponse(404, MsgNoEncontrado);
    }
    ghost var before := db.talleres;
    db.talleres := Splice(db.talleres, i);
    assert forall k :: 0 <= k < |db.talleres| ==> db.talleres[k] == before[if k < i then k else k + 1];
    r := Response(204, NoBody);
  }

  /** Deleting a workshop orphans every participant enrolled in it: with
      unique workshop ids, a reference to the deleted id resolved before the
      delete and resolves to nothing after it. */
  lemma DeleteOrphansParticipants(ts: seq<Taller>, p: Participante, id: string)
    requires TallerIdsUnique(ts) && p.tallerId == Present(id) && IndexOf(ts, id) >= 0
    ensures Resolves(p, ts)
    ensures !Resolves(p, Splice(ts, IndexOf(ts, id)))
  {
    var i := IndexOf(ts, id);
    var r := Splice(ts, i);
    assert ts[i].id == p.tallerId;
    forall k | 0 <= k < |r| ensures r[k].id != p.tallerId {
      var j := if k < i then k else k + 1;
      assert r[k] == ts[j] && j != i;
      if j < i {
        assert ts[j].id != ts[i].id;
      } else {
        assert ts[i].id != ts[j].id;
      }
    }
  }

  /** The id of a POST body wins over the generated one, so two workshops can
      end up with the same id, whatever `freshId` is. */
  lemma CreateCanDuplicateIds(s: seq<Taller>, body: Taller, freshId: string)
    requires |s| > 0 && !body.id.Missing? && body.id == s[0].id
    ensures !TallerIdsUnique(s + [SpreadTaller(NewTaller(freshId), body)])
  {
    var s' := s + [SpreadTaller(NewTaller(freshId), body)];
    assert s'[0].id == s'[|s|].id;
  }
}
