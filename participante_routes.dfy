/** The participant router, mounted at `/api/participantes`: the validator,
    which also reads both collections (email uniqueness and the workshop
    reference), and the five handlers over `db.participantes`. Every handler
    frames only that field of the store, so the workshops are never touched. */
module ParticipanteRoutes {
  import opened Json
  import opened JsArray
  import opened Db
  import opened Http

  const MsgNombre := "El nombre es requerido y debe tener al menos 2 caracteres."
  const MsgEmailFormato := "El email es requerido y debe tener un formato válido."
  const MsgEmailRegistrado := "El email ya está registrado por otro participante."
  const MsgTallerIdRequerido := "El tallerId es requerido."
  const MsgTallerNoExiste := "El tallerId proporcionado no existe."
  const MsgNoEncontrado := "Participante no encontrado"

  // ---- The email pattern `/\S+@\S+\.\S+/` ----

  /** The characters the `\s` class of JavaScript regular expressions matches. */
  predicate IsSpace(c: char)
  {
    c == ' ' || c == '\t' || c == '\n' || c == '\r' || c == '\U{000B}' || c == '\U{000C}'
    || c == '\U{00A0}' || c == '\U{1680}' || ('\U{2000}' <= c <= '\U{200A}')
    || c == '\U{2028}' || c == '\U{2029}' || c == '\U{202F}' || c == '\U{205F}'
    || c == '\U{3000}' || c == '\U{FEFF}'
  }

  /** The shortest match of the pattern around an `@` at `a` and a `.` at `b`:
      one non-space before the `@`, a non-empty run of non-spaces between
      them, and one non-space after the `.`. */
  predicate MatchAt(s: string, a: int, b: int)
  {
    0 < a && a + 1 < b && b + 1 < |s|
    && s[a] == '@' && !IsSpace(s[a - 1])
    && s[b] == '.' && !IsSpace(s[b + 1])
    && forall k | a < k < b :: !IsSpace(s[k])
  }

  /** `/\S+@\S+\.\S+/.test(s)`: the pattern is not anchored, so it may match
      anywhere inside `s`. A string it accepts has at least five characters,
      as the shortest match `x@y.z` does. */
  function EmailShape(s: string): (r: bool)
    ensures r ==> 5 <= |s|
  {
    exists a, b | 0 < a < |s| && a + 1 < b < |s| - 1 :: MatchAt(s, a, b)
  }

  /** A string with no character of `\s`, that is, all `\S`. */
  ghost predicate NoSpace(w: string)
  {
    forall k | 0 <= k < |w| :: !IsSpace(w[k])
  }

  /** `w` is in the language of `\S+@\S+\.\S+` (the whole of `w` matches). */
  ghost predicate InPattern(w: string)
  {
    exists i, j | 0 < i && i + 1 < j < |w| - 1 ::
      w[i] == '@' && w[j] == '.' && NoSpace(w[..i]) && NoSpace(w[i + 1..j]) && NoSpace(w[j + 1..])
  }

  /** The shortest-match predicate is exactly "some substring of `s` is in the
      language of the pattern", which is what `.test` asks. */
  lemma EmailShapeIsSubstringMatch(s: string)
    ensures EmailShape(s) <==> exists lo, hi | 0 <= lo <= hi <= |s| :: InPattern(s[lo..hi])
  {
    if EmailShape(s) {
      var a, b :| 0 < a < |s| && a + 1 < b < |s| - 1 && MatchAt(s, a, b);
      var w := s[a - 1..b + 2];
      assert w[1] == '@' && w[b - a + 1] == '.';
      assert NoSpace(w[..1]) by { assert w[..1] == [s[a - 1]]; }
      var mid := w[2..b - a + 1];
      assert NoSpace(mid) by {
        forall k | 0 <= k < |mid| ensures !IsSpace(mid[k]) {
          assert mid[k] == s[a + 1 + k];
        }
      }
      assert NoSpace(w[b - a + 2..]) by { assert w[b - a + 2..] == [s[b + 1]]; }
      assert InPattern(s[a - 1..b + 2]);
    }
    if lo, hi :| 0 <= lo <= hi <= |s| && InPattern(s[lo..hi]) {
      var w := s[lo..hi];
      var i, j :| 0 < i && i + 1 < j < |w| - 1 && w[i] == '@' && w[j] == '.'
        && NoSpace(w[..i]) && NoSpace(w[i + 1..j]) && NoSpace(w[j + 1..]);
      assert !IsSpace(s[lo + i - 1]) by { assert w[..i][i - 1] == s[lo + i - 1]; }
      assert !IsSpace(s[lo + j + 1]) by { assert w[j + 1..][0] == s[lo + j + 1]; }
      forall k | lo + i < k < lo + j ensures !IsSpace(s[k]) {
        assert w[i + 1..j][k - lo - i - 1] == s[k];
      }
      assert MatchAt(s, lo + i, lo + j);
    }
  }

  /** Text around a match does not spoil it. */
  lemma EmailShapeInfix(pre: string, s: string, post: string)
    requires EmailShape(s)
    ensures EmailShape(pre + s + post)
  {
    var a, b :| 0 < a < |s| && a + 1 < b < |s| - 1 && MatchAt(s, a, b);
    var t := pre + s + post;
    assert forall k | 0 <= k < |s| :: t[|pre| + k] == s[k];
    assert MatchAt(t, |pre| + a, |pre| + b);
  }

  /** `local@domain.tld` matches when the three parts are non-empty and
      space-free where the pattern looks at them. */
  lemma EmailShapeOfParts(local: string, domain: string, tld: string)
    requires local != [] && !IsSpace(local[|local| - 1])
    requires domain != [] && NoSpace(domain)
    requires tld != [] && !IsSpace(tld[0])
    ensures EmailShape(local + "@" + domain + "." + tld)
  {
    var s := local + "@" + domain + "." + tld;
    var a, b := |local|, |local| + 1 + |domain|;
    assert s[a - 1] == local[|local| - 1] && s[a] == '@' && s[b] == '.' && s[b + 1] == tld[0];
    assert forall k | a < k < b :: s[k] == domain[k - a - 1];
    assert MatchAt(s, a, b);
  }

  // ---- The five rules of `validarParticipante`, each stated positively ----

  predicate NombreOk(c: Participante)
  {
    c.nombre.Present? && |c.nombre.value| >= 2
  }

  predicate EmailOk(c: Participante)
  {
    c.email.Present? && EmailShape(c.email.value)
  }

  /** Stored participant `q` blocks candidate `c`'s email: same email and, on
      an update, another id. */
  predicate Conflicts(q: Participante, c: Participante, esNuevo: bool)
  {
    q.email == c.email && (esNuevo || q.id != c.id)
  }

  ghost predicate EmailFree(c: Participante, esNuevo: bool, ps: seq<Participante>)
  {
    forall j :: 0 <= j < |ps| ==> !Conflicts(ps[j], c, esNuevo)
  }

  predicate TallerIdOk(c: Participante)
  {
    c.tallerId.Present? && c.tallerId.value != ""
  }

  /** `validarParticipante(c, esNuevo)` against the store snapshot `ps`,
      `ts`: `null` exactly when all five rules hold, otherwise the message of
      the first one broken, in the order nombre, email format, email free,
      tallerId given, workshop exists. It writes nothing. */
  function ValidarParticipante(c: Participante, esNuevo: bool, ps: seq<Participante>, ts: seq<Taller>): (r: Option<string>)
    ensures r == None <==>
      NombreOk(c) && EmailOk(c) && EmailFree(c, esNuevo, ps) && TallerIdOk(c) && Resolves(c, ts)
    ensures r == Some(MsgNombre) <==> !NombreOk(c)
    ensures r == Some(MsgEmailFormato) <==> NombreOk(c) && !EmailOk(c)
    ensures r == Some(MsgEmailRegistrado) <==> NombreOk(c) && EmailOk(c) && !EmailFree(c, esNuevo, ps)
    ensures r == Some(MsgTallerIdRequerido) <==>
      NombreOk(c) && EmailOk(c) && EmailFree(c, esNuevo, ps) && !TallerIdOk(c)
    ensures r == Some(MsgTallerNoExiste) <==>
      NombreOk(c) && EmailOk(c) && EmailFree(c, esNuevo, ps) && TallerIdOk(c) && !Resolves(c, ts)
  {
    if !TruthyString(c.nombre) || |c.nombre.value| < 2 then Some(MsgNombre)
    else if !TruthyString(c.email) || !EmailShape(c.email.value) then Some(MsgEmailFormato)
    else if FindIndex(ps, (q: Participante) => Conflicts(q, c, esNuevo)) != -1 then Some(MsgEmailRegistrado)
    else if !TruthyString(c.tallerId) then Some(MsgTallerIdRequerido)
    else if FindIndex(ts, (t: Taller) => t.id == c.tallerId) == -1 then Some(MsgTallerNoExiste)
    else None
  }

  // ---- Properties of the validator ----

  /** Self-exclusion: on an update, a candidate that keeps a stored record's
      id and email never trips over that record, so the email rule holds. */
  lemma SelfExclusion(ps: seq<Participante>, i: int, c: Participante)
    requires EmailsUnique(ps)
    requires 0 <= i < |ps| && c.id == ps[i].id && c.email == ps[i].email
    ensures EmailFree(c, false, ps)
  {
    forall j | 0 <= j < |ps| ensures !Conflicts(ps[j], c, false) {
      if j < i {
        assert ps[j].email != ps[i].email;
      } else if i < j {
        assert ps[i].email != ps[j].email;
      }
    }
  }

  /** On a create the same candidate is refused: its email is already taken,
      by the very record it copies. */
  lemma NewRecordConflictsWithStored(ps: seq<Participante>, i: int, c: Participante, ts: seq<Taller>)
    requires 0 <= i < |ps| && c.email == ps[i].email
    requires NombreOk(c) && EmailOk(c)
    ensures ValidarParticipante(c, true, ps, ts) == Some(MsgEmailRegistrado)
  {
    assert Conflicts(ps[i], c, true);
  }

  /** A POST that passes validation keeps emails unique: the stored record
      `{ id, ...body }` carries the body's email, which nobody has. */
  lemma CreateKeepsEmailsUnique(ps: seq<Participante>, ts: seq<Taller>, body: Participante, freshId: string)
    requires EmailsUnique(ps)
    requires ValidarParticipante(body, true, ps, ts) == None
    ensures EmailsUnique(ps + [SpreadParticipante(NewParticipante(freshId), body)])
  {
    var n := SpreadParticipante(NewParticipante(freshId), body);
    var ps' := ps + [n];
    forall i, j | 0 <= i < j < |ps'| ensures ps'[i].email != ps'[j].email {
      if j == |ps| {
        assert !Conflicts(ps[i], body, true);
      } else {
        assert ps'[i] == ps[i] && ps'[j] == ps[j];
      }
    }
  }

  /** A PUT that passes validation keeps emails unique, provided ids are
      unique in the collection and the candidate keeps the stored id. */
  lemma UpdateKeepsEmailsUnique(ps: seq<Participante>, i: int, c: Participante)
    requires EmailsUnique(ps) && ParticipanteIdsUnique(ps)
    requires 0 <= i < |ps| && c.id == ps[i].id
    requires EmailFree(c, false, ps)
    ensures EmailsUnique(ps[i := c])
  {
    var ps' := ps[i := c];
    forall j, k | 0 <= j < k < |ps'| ensures ps'[j].email != ps'[k].email {
      if j == i {
        assert !Conflicts(ps[k], c, false);
        assert ps[k].id != ps[i].id;
      } else if k == i {
        assert !Conflicts(ps[j], c, false);
        assert ps[j].id != ps[i].id;
      }
    }
  }

  /** The body of a PUT may carry another record's id. With it, the
      candidate is compared against the wrong id, it passes validation, and
      the store ends up with two records sharing an email and an id. */
  lemma UpdateWithForeignIdBreaksUniqueness(ps: seq<Participante>, ts: seq<Taller>, i: int, j: int)
    requires 0 <= i < |ps| && 0 <= j < |ps| && i != j
    requires EmailsUnique(ps) && ParticipanteIdsUnique(ps)
    requires ps[j].id.Present? && EmailOk(ps[j])
    requires NombreOk(ps[i]) && TallerIdOk(ps[i]) && Resolves(ps[i], ts)
    ensures var c := SpreadParticipante(ps[i], Participante(ps[j].id, Missing, ps[j].email, Missing, Missing));
      ValidarParticipante(c, false, ps, ts) == None
      && !EmailsUnique(ps[i := c]) && !ParticipanteIdsUnique(ps[i := c])
  {
    var c := SpreadParticipante(ps[i], Participante(ps[j].id, Missing, ps[j].email, Missing, Missing));
    SelfExclusion(ps, j, c);
    assert Resolves(c, ts);
    var ps' := ps[i := c];
    assert ps'[i].email == ps'[j].email && ps'[i].id == ps'[j].id;
    if i < j {
      assert !EmailsUnique(ps');
    } else {
      assert !EmailsUnique(ps');
    }
  }

  // ---- Handlers ----

  /** `db.participantes.findIndex(p => p.id === id)`. */
  function IndexOf(ps: seq<Participante>, id: string): (i: int)
    ensures -1 <= i < |ps|
    ensures i == -1 <==> forall j :: 0 <= j < |ps| ==> ps[j].id != Present(id)
    ensures 0 <= i ==> ps[i].id == Present(id) && forall j :: 0 <= j < i ==> ps[j].id != Present(id)
  {
    FindIndex(ps, (p: Participante) => p.id == Present(id))
  }

  /** GET /api/participantes: every participant, in insertion order. */
  method List(db: Store) returns (r: Response)
    ensures r == Response(200, ParticipantesJson(db.participantes))
  {
    r := Response(200, ParticipantesJson(db.participantes));
  }

  /** GET /api/participantes/:id: the first participant with that id, or 404. */
  method Get(db: Store, id: string) returns (r: Response)
    ensures r.status == 200 || r == ErrorResponse(404, MsgNoEncontrado)
    ensures r.status == 404 <==> forall j :: 0 <= j < |db.participantes| ==> db.participantes[j].id != Present(id)
    ensures r.status == 200 ==> r.body == ParticipanteJson(db.participantes[IndexOf(db.participantes, id)])
  {
    var i := IndexOf(db.participantes, id);
    if i == -1 {
      return ErrorResponse(404, MsgNoEncontrado);
    }
    r := Response(200, ParticipanteJson(db.participantes[i]));
  }

  /** POST /api/participantes: the body is validated as a new record; on
      success `{ id, ...body }` is appended and echoed with 201. `freshId` is
      the `crypto.randomUUID()` result, which no stored participant carries. */
  method Create(db: Store, body: Participante, freshId: string) returns (r: Response)
    requires IndexOf(db.participantes, freshId) == -1
    modifies db`participantes
    ensures var e := ValidarParticipante(body, true, old(db.participantes), db.talleres);
      if e.Some? then
        r == ErrorResponse(400, e.value) && db.participantes == old(db.participantes)
      else
        var p := SpreadParticipante(NewParticipante(freshId), body);
        db.participantes == old(db.participantes) + [p] && r == Response(201, ParticipanteJson(p))
    // Referential integrity and uniqueness at write time.
    ensures r.status == 201 ==>
      var p := db.participantes[|db.participantes| - 1];
      Resolves(p, db.talleres) && forall j :: 0 <= j < |old(db.participantes)| ==> old(db.participantes)[j].email != p.email
    ensures EmailsUnique(old(db.participantes)) ==> EmailsUnique(db.participantes)
    ensures ReferencesResolve(old(db.participantes), db.talleres) ==> ReferencesResolve(db.participantes, db.talleres)
    ensures r.status == 201 && body.id.Missing? ==> IndexOf(db.participantes, freshId) == |old(db.participantes)|
    ensures body.id.Missing? && ParticipanteIdsUnique(old(db.participantes)) ==> ParticipanteIdsUnique(db.participantes)
  {
    var e := ValidarParticipante(body, true, db.participantes, db.talleres);
    if e.Some? {
      return ErrorResponse(400, e.value);
    }
    var p := SpreadParticipante(NewParticipante(freshId), body);
    ghost var before := db.participantes;
    if EmailsUnique(before) {
      CreateKeepsEmailsUnique(before, db.talleres, body, freshId);
    }
    assert forall j :: 0 <= j < |before| ==> !Conflicts(before[j], body, true);
    assert Resolves(p, db.talleres) by {
      assert Resolves(body, db.talleres);
    }
    db.participantes := db.participantes + [p];
    assert forall k :: 0 <= k < |before| ==> db.participantes[k] == before[k];
    if body.id.Missing? {
      assert db.participantes[|before|].id == Present(freshId);
    }
    r := Response(201, ParticipanteJson(p));
  }

  /** PUT /api/participantes/:id: the stored record with the body spread over
      it is validated as an update (its own id is excluded from the email
      check) and replaces the stored record at its position. */
  method Update(db: Store, id: string, body: Participante) returns (r: Response)
    modifies db`participantes
    ensures var s := old(db.participantes); var i := IndexOf(s, id);
      if i == -1 then
        r == ErrorResponse(404, MsgNoEncontrado) && db.participantes == s
      else
        var c := SpreadParticipante(s[i], body);
        var e := ValidarParticipante(c, false, s, db.talleres);
        if e.Some? then
          r == ErrorResponse(400, e.value) && db.participantes == s
        else
          db.participantes == s[i := c] && r == Response(200, ParticipanteJson(c))
    ensures r.status == 200 ==> Resolves(db.participantes[IndexOf(old(db.participantes), id)], db.talleres)
    ensures ReferencesResolve(old(db.participantes), db.talleres) ==> ReferencesResolve(db.participantes, db.talleres)
    // Uniqueness survives when ids are unique and the body carries no id, or
    // the same one.
    ensures (body.id.Missing? || body.id == Present(id)) && ParticipanteIdsUnique(old(db.participantes)) ==>
      ParticipanteIdsUnique(db.participantes)
      && (EmailsUnique(old(db.participantes)) ==> EmailsUnique(db.participantes))
  {
    var i := IndexOf(db.participantes, id);
    if i == -1 {
      return ErrorResponse(404, MsgNoEncontrado);
    }
    var c := SpreadParticipante(db.participantes[i], body);
    var e := ValidarParticipante(c, false, db.participantes, db.talleres);
    if e.Some? {
      return ErrorResponse(400, e.value);
    }
    ghost var before := db.participantes;
    if (body.id.Missing? || body.id == Present(id)) && ParticipanteIdsUnique(before) && EmailsUnique(before) {
      UpdateKeepsEmailsUnique(before, i, c);
    }
    db.participantes := db.participantes[i := c];
    assert Resolves(db.participantes[i], db.talleres);
    assert (body.id.Missing? || body.id == Present(id)) ==> forall k :: 0 <= k < |before| ==> db.participantes[k].id == before[k].id;
    r := Response(200, ParticipanteJson(db.participantes[i]));
  }

  /** DELETE /api/participantes/:id: removes the first participant with that
      id and answers 204, or answers 404 and removes nothing. */
  method Delete(db: Store, id: string) returns (r: Response)
    modifies db`participantes
    ensures var s := old(db.participantes); var i := IndexOf(s, id);
      if i == -1 then
        r == ErrorResponse(404, MsgNoEncontrado) && db.participantes == s
      else
        db.participantes == Splice(s, i) && r == Response(204, NoBody)
    // Removing a record keeps every invariant of the collection.
    ensures EmailsUnique(old(db.participantes)) ==> EmailsUnique(db.participantes)
    ensures ParticipanteIdsUnique(old(db.participantes)) ==> ParticipanteIdsUnique(db.participantes)
    ensures ReferencesResolve(old(db.participantes), db.talleres) ==> ReferencesResolve(db.participantes, db.talleres)
  {
    var i := IndexOf(db.participantes, id);
    if i == -1 {
      return ErrorResponse(404, MsgNoEncontrado);
    }
    ghost var before := db.participantes;
    db.participantes := Splice(db.participantes, i);
    assert forall k :: 0 <= k < |db.participantes| ==> db.participantes[k] == before[if k < i then k else k + 1];
    r := Response(204, NoBody);
  }

  /** PUT with only `{ telefono }`: the stored record gets the new phone and
      keeps its id, name, email and workshop. */
  lemma TelefonoOnlyUpdate(p: Participante, telefono: string)
    ensures var c := SpreadParticipante(p, Participante(Missing, Missing, Missing, Present(telefono), Missing));
      c.telefono == Present(telefono)
      && c.id == p.id && c.nombre == p.nombre && c.email == p.email && c.tallerId == p.tallerId
  {
  }
}
