/** The part of an HTTP exchange the handlers look at, abstracted from
    `net/http`: the request as method, path, parsed query, headers and the
    outcome of decoding its body; the response as a status code and what
    was written to the body. */
module Http {

  import opened Directory

  /** Parsed query parameters or headers: each name with its values in
      order of appearance (Go's `url.Values` / `http.Header`). */
  type Values = map<string, seq<string>>

  /** `Values.Get`: the first value given for `name`, or the empty string
      when there is none. */
  function Get(vs: Values, name: string): string
  {
    if name in vs && |vs[name]| > 0 then vs[name][0] else ""
  }

  /** Outcome of decoding a JSON body into some Go target type. */
  datatype Decoded<+T> = Parsed(value: T) | Invalid

  /** The request body seen through the two decodings the handlers apply:
      into a generic JSON object (`map[string]interface{}`), whose content
      only reaches the console, and into a record with a string field
      `value`. */
  datatype Body = Body(asObject: Decoded<()>, asValueField: Decoded<string>)

  datatype Request = Request(
    verb: string,
    path: string,
    query: Values,
    header: Values,
    body: Body)

  /** What a handler wrote after the status line.
      - `Written(text)`: bytes written directly with `w.Write`/`Fprintln`.
      - `Error(message)`: `http.Error`, a plain-text body holding the
        message (net/http appends a newline).
      - `JsonString(text)`: a JSON encoding of the string `text`.
      - `JsonEntries(entries)`: a JSON array of country/capital objects.
      - `Nothing`: the handler wrote nothing at all. */
  datatype Payload =
    | Written(text: string)
    | Error(message: string)
    | JsonString(text: string)
    | JsonEntries(entries: seq<Entry>)
    | Nothing

  datatype Response = Response(status: int, payload: Payload)

  const StatusOK := 200
  const StatusCreated := 201
  const StatusBadRequest := 400
  const StatusForbidden := 403
  const StatusNotFound := 404
  const StatusMethodNotAllowed := 405
  const StatusInternalServerError := 500

  /** `http.Error(w, message, code)`. */
  function Fail(message: string, code: int): Response
  {
    Response(code, Error(message))
  }
}
