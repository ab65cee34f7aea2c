/**
 * The part of Go's `net/http` response writer that decides which status
 * code reaches the client, and `http.Error`.
 *
 * A handler's effect on the response is the sequence of its writes. The
 * status line is fixed by the first write: an explicit `WriteHeader(code)`
 * sends `code`; a body write that comes first sends 200, and every later
 * `WriteHeader` is superfluous and ignored. A handler that writes nothing
 * also answers 200.
 */
module HttpResponse {

  const StatusOK := 200
  const StatusCreated := 201
  const StatusBadRequest := 400
  const StatusUnauthorized := 401
  const StatusNotFound := 404
  const StatusInternalServerError := 500

  datatype Write<B> = WriteHeader(code: int) | WriteBody(body: B)

  /** The status code the client receives for a handler's writes. */
  function SentStatus<B>(writes: seq<Write<B>>): (code: int)
    ensures writes != [] && writes[0].WriteHeader? ==> code == writes[0].code
    ensures (writes == [] || writes[0].WriteBody?) ==> code == StatusOK
  {
    if writes != [] && writes[0].WriteHeader? then writes[0].code else StatusOK
  }

  /** Once something is written, later writes cannot change the status the client receives. */
  lemma FirstWriteFixesStatus<B>(writes: seq<Write<B>>, later: seq<Write<B>>)
    requires writes != []
    ensures SentStatus(writes + later) == SentStatus(writes)
  {
    assert (writes + later)[0] == writes[0];
  }

  /** `http.Error(w, msg, code)`: the status, then the message and a newline. */
  function Error<B>(line: B, code: int): (writes: seq<Write<B>>)
    ensures SentStatus(writes) == code
  {
    [WriteHeader(code), WriteBody(line)]
  }

  /**
   * What the handlers do on success: encode the value (a body write), then
   * call `WriteHeader(code)`. The code is never sent.
   */
  function EncodeThenWriteHeader<B>(body: B, code: int): (writes: seq<Write<B>>)
    ensures SentStatus(writes) == StatusOK
  {
    [WriteBody(body), WriteHeader(code)]
  }
}
