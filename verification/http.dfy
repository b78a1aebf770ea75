/**
  Shared vocabulary of both services: the uniform JSON response envelope
  `{error, message, data}`, the HTTP reply that carries it, the outcome of
  decoding a JSON body, and the `errJSON` helper through which every failure
  is written.

  JSON itself is not modelled: a decode either yields the value that was sent
  or fails with an error text.
 */
module Http {

  datatype Option<+T> = None | Some(value: T)

  /** HTTP status codes the handlers name explicitly. */
  const StatusAccepted: int := 202
  const StatusBadRequest: int := 400
  const StatusUnauthorized: int := 401

  /** The `message` field of an envelope. `NilError` stands for an error
      envelope written from a nil Go `error`, whose rendering is decided by
      the `errJSON` helper and is therefore left abstract. */
  datatype Message = Text(text: string) | NilError

  /** The uniform response envelope (`jsonResponse`); `data` is absent when
      the field is omitted. */
  datatype Envelope<+D> = Envelope(error: bool, message: Message, data: Option<D>)

  /** What a handler writes back: a status code and an envelope. */
  datatype Reply<+D> = Reply(status: int, envelope: Envelope<D>)
  {
    predicate Failed() { envelope.error }
  }

  /** The result of reading a JSON body into a value of type T. */
  datatype Decoding<+T> = Decoded(value: T) | Malformed(text: string)

  /** `errJSON(w, err, status)`: an error envelope carrying the error's text,
      with no data, written with the given status. */
  function ErrJson<D>(message: Message, status: int): Reply<D>
  {
    Reply(status, Envelope(true, message, None))
  }

  /** `writeJSON(w, http.StatusAccepted, payload)` for a successful payload. */
  function Accepted<D>(message: string, data: Option<D>): Reply<D>
  {
    Reply(StatusAccepted, Envelope(false, Text(message), data))
  }
}
