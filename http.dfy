/** What a handler answers: `res.status(code).json(body)` or
    `res.status(204).send()`, as a value instead of a write to a socket. */
module Http {
  import opened Db

  /** The body of a response: JSON, plain text (`res.send(text)`), or none. */
  datatype Body =
    | TallerJson(taller: Taller)
    | TalleresJson(talleres: seq<Taller>)
    | ParticipanteJson(participante: Participante)
    | ParticipantesJson(participantes: seq<Participante>)
    | MessageJson(message: string)
    | TextBody(text: string)
    | NoBody

  datatype Response = Response(status: int, body: Body)

  /** `res.status(status).json({ message })`. */
  function ErrorResponse(status: int, message: string): Response
  {
    Response(status, MessageJson(message))
  }
}
