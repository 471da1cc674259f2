# Contact-form gatekeeper: a verified model

The program is a single HTTP endpoint in Go (`main.go`). It accepts a contact
form and lets each client address through at the rate its own token-bucket
limiter allows. It checks the form's name and email against two regular
expressions. It then strips HTML from the fields and forwards them by email.
This project models the three pieces of sequential logic in it:

- **The limiter registry** (`registry.dfy`, module `Registry`). `IPRateLimiter`
  is a class whose `ips: map<string, Limiter>` field is updated in place.
  `AddIP` always stores a new limiter under the address. `GetLimiter` returns
  the stored limiter, or calls `AddIP` when there is none. The invariant
  `Valid()` says that every stored limiter was built with the registry's
  `(r, b)`. It also says that no two addresses share a limiter object. A
  `Limiter` stands for a `*rate.Limiter`. It records only the `(r, b)` it was
  built with, and each construction yields a new object.
- **Field validation** (`validation.dfy`, module `Validation`). The model has a
  small abstract syntax for the regular-expression constructs the two patterns
  use. `Matches(re, s)` defines what it means for the anchored pattern
  `^re$` to match `s`. Go's `.` matches any character except a newline. The two
  patterns `^.{2,}$` and `^.+@.+\..{2,}$` are proved equal to closed forms. A
  name needs at least two characters and no newline. An email must be
  newline-free and split as `a@b.c` with `|a| >= 1`, `|b| >= 1` and
  `|c| >= 2`. One-pass scanners `MatchName` and `MatchEmail` are proved to
  decide exactly these closed forms. `ValidateParameter` rejects `""` and then
  runs the scanner.
- **Admission and handling** (`handler.dfy`, module `Handler`). `Handle` is the
  decision `HandlePostRequest` makes. From the request it gives the CORS
  headers set, the errors written in order, and the contact handed to
  `SendEmail`, if any. `HandlePostRequest` writes into a `ResponseWriter`
  object one step at a time, and is proved to match `Handle`.
  `LimitMiddleware` looks up the client's limiter, answers 429 when the
  limiter refuses, and otherwise runs the handler once.

Some inputs come from outside the model. The configured allowed origin
(`GetEnv("ALLOWED_ORIGIN")`) is a parameter. The HTML sanitizer
(`sanitize.HTML`) is a function parameter `sanitize: string -> string`. The
limiter's `Allow()` verdict is a boolean parameter, `granted`. A call to
`SendEmail` is modelled by the `sent` result.

Three behaviours of the code are easy to misread, and the model states them
as the code has them:

- `GetLimiter` does not re-check for the address after taking the lock for
  `AddIP`, and `AddIP` overwrites unconditionally (main.go:158-176). There is
  no double-checked creation. In a sequential run the overwrite is only
  reached for an absent address.
- The name pattern rejects any name holding a newline, because `.` does not
  match `\n`; it is not "any two characters".
- The origin check (main.go:94-97) writes a 403 and carries on. A valid POST
  from a foreign origin is still emailed. The client sees status 403, because
  net/http ignores a second `WriteHeader`. A non-POST from a foreign origin
  gets both error bodies, 403 and then 405. `ForbiddenYetSent` and
  `OriginOnlyAddsForbidden` state this.

## Model

| member | source | states |
|---|---|---|
| `Validation.AtLeastAnyCharMeaning` | main.go:114-115 | `.{n,}` matches a string iff it has at least n characters and no newline |
| `Validation.NameRegexMeaning` | main.go:114 | `^.{2,}$` matches s iff s has at least 2 characters and no `\n` |
| `Validation.EmailRegexComplete` | main.go:115 | every newline-free s with `@` at i >= 1 and `.` at j >= i+2 and at least 2 characters after j is matched by `^.+@.+\..{2,}$` |
| `Validation.EmailRegexSound` | main.go:115 | every s the email pattern matches is newline-free and has such an `@` index i and `.` index j (returned) |
| `Validation.EmailRegexMeaning` | main.go:115 | the email pattern matches s iff the closed form `EmailMatches(s)` holds (both directions) |
| `Validation.MatchStringMeaning` | main.go:114-115 | for both patterns, the closed form used by validation is exactly the anchored regex match |
| `Validation.Accepts` | main.go:54-56 | ValidateParameter: `""` is rejected whatever the pattern, and a value is accepted iff the pattern matches it |
| `Validation.MatchName` | main.go:114 | a one-pass scan returns true iff the string has at least 2 characters and no newline |
| `Validation.MatchEmail` | main.go:115 | a one-pass scan, tracking the first `@` past position 0, returns true iff `EmailMatches` holds |
| `Validation.ValidateParameter` | main.go:54-56 | the executable check (empty guard, then the scan) returns exactly `Accepts(p, v)` |
| `Validation.NameExamples` | main.go:114-120 | sample inputs: "Al" is an accepted name; "A" and "" are rejected |
| `Validation.EmailExamples` | main.go:115-128 | sample inputs: "a@b.co", "jane@example.com" and "a@b@c.d.ef" are accepted emails; "a@b", "a@b.c" and "" are rejected |
| `Registry.Limiter.constructor` | main.go:161 | rate.NewLimiter(r, b): a new limiter that records r and b |
| `Registry.IPRateLimiter.constructor` | main.go:148-155 | NewIPRateLimiter: an empty map with the given r and b; the invariant holds |
| `Registry.IPRateLimiter.AddIP` | main.go:158-164 | stores a fresh limiter built from (r, b) under ip, overwriting any old entry; every other key is unchanged; keeps the invariant |
| `Registry.IPRateLimiter.GetLimiter` | main.go:167-176 | a present ip: returns its stored limiter and leaves the map unchanged; an absent ip: adds exactly that key with a fresh (r, b) limiter; keys are never removed; keeps the invariant |
| `Handler.Handle` | main.go:78-138 | another path: only a 404, no CORS headers, nothing sent; on "/": the CORS headers; a foreign origin writes exactly one 403 first and the allowed origin none; dispatch iff POST, valid name and valid email, with the sanitized fields; a refusal adds exactly one more error, 405, "Invalid name." (checked first) or "Invalid email address." |
| `Handler.RefusalStatus` | main.go:94-128 | on "/", a foreign origin always gets status 403; from the allowed origin a non-POST gets 405 and a refused POST 400 |
| `Handler.OriginOnlyAddsForbidden` | main.go:94-104 | on "/", the origin only prepends a 403: the later errors and the dispatch are those of the same request from the allowed origin |
| `Handler.ForbiddenYetSent` | main.go:94-137 | every valid POST to "/" from a foreign origin gets only the 403 (status 403) and is still emailed with its sanitized fields |
| `Handler.ValidSubmissionSent` | main.go:106-137 | every valid POST to "/" from the allowed origin gets no error (status 200) and sends its sanitized name, email and message |
| `Handler.ForbiddenYetSentSample` | main.go:94-137 | sample input: "Al" / "a@b.co" from a foreign origin gets 403 and is emailed |
| `Handler.ValidSubmissionSample` | main.go:106-137 | sample input, end to end: the "Jane Doe" / "jane@example.com" form from the allowed origin gets 200 and its sanitized fields are sent |
| `Handler.ResponseWriter.SetHeader` | main.go:85-86 | `w.Header().Set`: sets one header key, writes nothing |
| `Handler.ResponseWriter.Error` | main.go:96 | `http.Error`: appends one (status, text) write, headers unchanged |
| `Handler.ResponseWriter.NotFound` | main.go:81 | `http.NotFound`: appends the 404 "404 page not found" write |
| `Handler.HandlePostRequest` | main.go:78-138 | writing into w step by step, it sets exactly `Handle`'s headers, appends exactly its errors and sends exactly its contact |
| `Handler.LimitMiddleware` | main.go:178-186 | the client's limiter is looked up or created as GetLimiter does; refused: exactly one 429 write and the handler is not run; admitted: the handler runs exactly once and the middleware writes nothing itself |

## Left out

- The token bucket inside `rate.Limiter` uses float64 tokens and wall-clock time. It is foreign code, so `Allow()` is the `granted` input of `LimitMiddleware`. The burst and refill properties of the limiter are therefore not stated.
- The `sync.RWMutex` and concurrent requests are not modelled; the registry is sequential. So is the window in `GetLimiter` between `Unlock` and `AddIP`, where two racing first requests from one address can each install a limiter, and the later one wins.
- `SendEmail` (main.go:58-76) calls SendGrid over the network. It is the `sent` result, and its delivery status and logging are not modelled.
- `GetEnv` (main.go:32-47) reads the `.env` file through viper and exits the process on failure. Its `ALLOWED_ORIGIN` value is a parameter, and the same value is used at main.go:85 and main.go:94.
- `sanitize.HTML` is foreign code. It is an uninterpreted function parameter, so no property of what it strips is stated.
- `GetUTCTime`, `fmt.Println` and logging have output and clock effects only.
- `main` (main.go:26-30) and the HTTP server are left out: the listener, `ServeMux` path cleaning and redirects, and form parsing. `FormValue` reads a map holding the first value of each field, with `""` for a missing field.
- `Handler.ResponseWriter.Error`: the headers that `http.Error` also sets (`Content-Type`, `X-Content-Type-Options`) are not recorded. The newline that `Fprintln` adds to the body is not recorded either.
- The general Go regexp engine is left out. Only the constructs of the two patterns (`.`, literals, concatenation, `{n,}`) are given a meaning, and strings are sequences of characters (runes).
- The process-wide registry of main.go:24 is `NewIPRateLimiter(1, 1)`: one event per second, burst 1. In the model it is the `registry` parameter of `LimitMiddleware`, with any `(r, b)`. The policy is only stored in each limiter, because `Allow()` is an input.
- `rate.Limit` is a float64, modelled as `real`. It is only stored, never computed with.
