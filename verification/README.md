# Capital directory service — Dafny model

The service is a small HTTP demonstration server written in Go (`main.go`).
It keeps an in-memory directory that maps country names to capital cities and
answers a handful of REST-like endpoints against it. This project models the
decision logic of those handlers as pure Dafny functions and methods and proves
what each response is:

- `/search` filters the directory by a substring of the country and a
  substring of the capital. The result holds exactly the matching entries,
  each once. A missing parameter gives 400 and an empty result gives 404.
- `/items/` dispatches on the HTTP method. It never changes the directory.
  PUT checks its key before it looks at the body.
- `/error-test` maps the `X-Test` header to 403, 500 or an empty 200.
- `/user/` and `/info` build a response string by concatenation. The value
  they splice in can be read back from that string.

A request is abstracted to its method, path, parsed query, headers and the
outcome of decoding its body. A response is a status code plus what was written
(`Http.Payload`). Go's map iteration order is unspecified, so the search scan
picks each next key with `:|`. The proofs therefore hold for every order.

Modules: `Text` (prefix, substring and `TrimPrefix`, as in Go's `strings`),
`Directory` (the map, the startup data, the match relation), `Http` (request
and response), `SearchHandler`, and `Handlers` (items, errorTest, userId, info).

## Model

| member | source | states |
|---|---|---|
| `Text.ContainsCorrect` | main.go:157 | The substring test standing for `strings.Contains` (it tries each start position in turn, which decides the same question though Go's algorithm differs) answers true exactly when the pattern occurs at some position of the string. |
| `Text.TrimPrefix` | main.go:109 | When the path starts with the prefix, prefix plus result gives back the path. Otherwise the path comes back unchanged. |
| `Directory.InitialWellFormed` | main.go:10-26 | Every capital in the startup directory is a non-empty string, and Russia maps to Moscow. |
| `Directory.Matching` | main.go:156-162 | The set of matching entries holds exactly the directory entries whose country contains the key and whose capital contains the value. It is no larger than the directory. |
| `SearchHandler.Filter` | main.go:155-163 | For every iteration order, the result holds an entry exactly when it belongs to the directory and both substring conditions hold (soundness and completeness). No country appears twice, and the result is no longer than the directory. |
| `SearchHandler.Search` | main.go:146-175 | An empty or missing `key` or `value` gives 400 with "Both key and value query parameters are required", whatever the other parameter is. With both present, no match gives 404 "No matching results found". Otherwise the answer is 200 with a non-empty JSON list that holds every matching entry once and nothing else. |
| `SearchHandler.RussiaFound` | main.go:143-162 | On the startup directory, key "Rus" with value "Mos" matches Russia/Moscow and nothing else. |
| `SearchHandler.NothingMatchesZzz` | main.go:156-169 | On the startup directory, key "Zzz" matches no entry, whatever the capital filter. So by `SearchHandler.Search`, a search for key "Zzz" with any non-empty value answers 404. An empty value still answers 400. |
| `Handlers.Items` | main.go:84-139 | The directory is returned unchanged. A method other than GET, POST, PUT or DELETE gives 405 "Method not allowed" (both directions). The status is 201 exactly for a POST whose body decodes. A PUT with an empty key after trimming `/items/` gives 400 "Key not provided". Every other 400 is "Invalid JSON", from an undecodable POST or keyed PUT body. The status is 200 exactly for GET, for DELETE (even with an empty key), and for a keyed PUT whose body decodes. Each success writes its own fixed confirmation: "Data printed to console", "POST data printed to console", "PUT data printed to console" or "DELETE operation printed to console", each followed by a newline. A plain written body occurs exactly on a 200 or 201. |
| `Handlers.ItemsBodyIgnored` | main.go:84-137 | Replacing the body of a GET, a DELETE, an unknown method, or a PUT without a key changes nothing in the outcome: only POST and keyed PUT read the body. |
| `Handlers.ItemsIgnoresDirectory` | main.go:84-139 | The response of `items` is the same whatever the directory holds. |
| `Handlers.ItemsNeverMutate` | main.go:84-137 | Any series of `items` requests, each served by the directory the previous one left, ends with the directory it started with. |
| `Handlers.PutThenRead` | main.go:108-126 | A PUT to `/items/Russia` answers 200 or 400, and afterwards the startup directory still maps Russia to Moscow. |
| `Handlers.ErrorTest` | main.go:178-185 | An empty or missing `X-Test` gives 403 "X-Test does not exist". Exactly "fail" gives 500 "X-test does not exist fail". Each holds in both directions. Any other value writes nothing, which is an implicit 200, and a 200 is the only outcome with nothing written. |
| `Handlers.UserId` | main.go:59-67 | The answer is 200 with a JSON string. The identifier can be read back from between `{"userID": "` and `"}`, and it is the path after its first six characters. When the path starts with `/user/`, that prefix followed by the identifier is the path. |
| `Handlers.UserIdExamples` | main.go:60-63 | `/user/42` yields the string `{"userID": "42"}`, and `/user/` yields `{"userID": ""}`. |
| `Handlers.Info` | main.go:47-57 | The answer is 200 with a JSON string. The `name` query parameter (empty when absent) can be read back verbatim from between `{"message": "Hello,` and `"}`. |

## Left out

- Server setup (main.go:28-40): route registration and listening on port 8080 are network plumbing. Each handler is applied to the request its route would receive. ServeMux path cleaning and redirects are not modelled.
- `welcomToTheServer` (main.go:42-45) writes a fixed greeting and reads nothing, so it has nothing to verify.
- Console output (main.go:86, 101, 123, 133): the log lines of `items` are not part of any response. In particular, the GET branch's listing of the directory is not modelled.
- JSON encoding and decoding: a decode is an opaque outcome given with the request. POST decodes into a generic object and PUT into a record with a `value` field, so these are two separate outcomes. Encoding is represented by what gets encoded: `JsonString(text)` for `info`/`userId` (the string is encoded a second time, so the body is a quoted string) and `JsonEntries` for `search`. The bytes, key order, escaping and trailing newline are not modelled.
- The 500 branches taken when encoding fails (main.go:54-56, 64-66, 173-175): turning a string or a list of string maps into JSON cannot fail. `Encoder.Encode` can still return an error from writing to the connection, but only after the 200 status has been sent, so that `http.Error` call cannot change the status the client sees.
- `http.Error` (net/http) is not part of this model. It is represented by `Payload.Error(message)`, which stands for a plain-text body holding the message. The newline net/http appends and the headers it sets are not modelled.
- SearchHandler.Search: states the success payload as the list of entries. It does not state the `Content-Type: application/json` header (main.go:172) or the encoded array bytes.
- Handlers.UserId: does not state the `Content-Type: application/json` header the handler sets (main.go:62). Only the string that gets encoded is stated.
- Handlers.Info: does not state the `Content-Type: application/json` header the handler sets (main.go:51). Only the string that gets encoded is stated.
- Handlers.UserId: requires the path to be at least six characters long, because the slice `r.URL.Path[len("/user/"):]` needs that. The `/user/` route only hands it such paths.
- `url.Values.Get` and `http.Header.Get` are net/http library behaviour, taken as given. `Http.Get` stands for both: it returns the first value supplied for the name, or the empty string.
- Header lookup: `Header.Get` canonicalises the header name. The model looks up `X-Test`, which is already canonical, and takes the header map as given in canonical form.
- Strings are character sequences, while Go compares the bytes of UTF-8 strings. For valid UTF-8 the substring answers are the same, but invalid UTF-8 in a query is not modelled.
- Concurrency: handlers run concurrently in the server, but the directory is only ever read, so each request is modelled on its own.
