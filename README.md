# safeexam-server core, modelled in Dafny

safeexam-server hands short-lived proof-of-presence codes to clients that logged in
against a directory server, and lets an exam client verify a submitted code. This
project models its core and proves properties of the model:

- the **session registry** `MemorySessionStore` (`session.dfy`, module `Session`): a
  map from session id to expiry instant, `Create`, `Check` with lazy eviction of an
  expired entry, and one pass of the periodic `scavenge` sweep;
- the **rotating code source** `RandomCodeGenerator` (`code.dfy`, module `Code`): the
  pair (current code, expiry) that each rotation replaces as a whole and that
  `Generate` reads;
- the **request handlers** (`endpoints.dfy`, module `Endpoints`): `handleError`,
  `NotFoundHandler` and the four API handlers as decision procedures over the decoded
  request and the replies of the services, each recording which services it
  consulted; plus methods that run the same decisions against the two classes above;
- **startup configuration** (`configuration.dfy`, module `Configuration`):
  `checkEmpty` and the defaulting and validation done by `init`.

Two small modules are shared: `Wrappers` (`Option`, and `Reply` for Go's
`(value, err)` pairs) and `Clock` (instants and durations as integer nanoseconds,
Go's `After`, `Before` and `Add`).

Modelling choices:

- `time.Now()` is never read: each operation that reads the clock takes the instant
  as a parameter (`now`; the code handler also takes `serverTime`, the later reading
  it sends to the client).
- `randString` is not modelled. What it returns is a parameter: `id` for `Create`,
  `drawn` for a rotation. Nothing is assumed about its length or alphabet.
- Goroutines and mutexes become explicit step methods. Each method runs as one atomic
  step. `Rotate` is one iteration of the `generator` loop and `Scavenge` one iteration
  of the `scavenge` loop. A torn (code, expiry) pair can therefore never be observed.
- Service replies are values. A handler's outcome function takes the reply each
  service *would* give. Its `calls` field lists the services actually consulted, in
  order. Lemmas show that a service not consulted cannot change the outcome.
- `Auth.Login` is an abstract reply. JSON decoding is abstracted to "decoded to a
  value" (`Some`) or "failed" (`None`).
- Histories of registry calls (`Session.Op`, `Session.Run`) carry the properties that
  span several calls: the exact validity window of a session, and that ids never
  created are never live.

Behaviour of the code worth knowing, which the model follows:

- A code length is meant to be at least one, but `init` only replaces a zero length
  by 3 and never rejects a length. A negative length is kept (`Configuration.Normalize`).
- `NewRandomCodeGenerator` installs the placeholder `"old"`, already expiring at
  construction time, and starts the `generator` goroutine. That goroutine rotates
  before it first waits, so the first real code follows construction almost at once.
  `"old"` is current only until the goroutine first takes the lock. Here `Rotate` is a
  separate call, so the model keeps that window open: before the first `Rotate`,
  `"old"` verifies (`Endpoints.RotationScenario`).
- The doc comment of `NotFoundHandler` says 401. The code answers 404.

## Model

| member | source | states |
|---|---|---|
| `Session.Created` | api/session.go:56 | after Create, `id` maps to `now + duration`; every other entry is unchanged; nothing else is added |
| `Session.Checked` | api/session.go:65-71 | the registry after Check: a live or absent id changes nothing; an entry found expired (expiry not after now) is deleted and nothing else is; Check only ever deletes |
| `Session.Swept` | api/session.go:32-36 | an entry survives a sweep at `now` iff its expiry is not before `now`, keeping its expiry; the sweep never changes Check's answer at its own instant or any later one |
| `Session.ExpiryBoundary` | api/session.go:33-69 | at `expiry == now` Check rejects and deletes the entry while the sweep keeps it |
| `Session.MemorySessionStore.constructor` | api/session.go:42-50 | a new store is empty and keeps the given duration |
| `Session.MemorySessionStore.Create` | api/session.go:53-59 | returns the drawn id with a nil error; the new registry is `Created(old registry, id, now, duration)` |
| `Session.MemorySessionStore.Check` | api/session.go:62-72 | returns a nil error and true iff the id is present with expiry strictly after `now`; the new registry is `Checked(...)` (expired entry deleted, otherwise unchanged) |
| `Session.MemorySessionStore.Scavenge` | api/session.go:30-37 | one sweep, deleting key by key: the new registry is `Swept(old registry, now)` |
| `Session.EntryKeepsExpiry` | api/session.go:27-72 | while an id is not re-created, its entry keeps its expiry or is gone; when no operation happens after `now`, it is gone only if that expiry is at most `now` |
| `Session.ValidityWindow` | api/session.go:53-72 | after `Create(id)` at `t`, and any later checks and sweeps up to `now`, Check at `now` accepts iff `now < t + duration`, whether or not a sweep ran |
| `Session.NeverCreatedNeverLive` | api/session.go:62-71 | an id no Create produced is never in the registry, so Check rejects it at every instant |
| `Session.SixtyMinuteScenario` | api/session.go:53-72 | with a 60-minute duration, a session created at 0 is live at minute 59, rejected at minute 61, and gone afterwards |
| `Code.RandomCodeGenerator.constructor` | api/code.go:47-57 | the new source holds code `"old"` expiring at construction time, with the given length and duration |
| `Code.RandomCodeGenerator.Rotate` | api/code.go:32-39 | a rotation at `now` sets the code to the drawn string and the expiry to `now + duration` in one step, so `expires - now == duration`; only these two fields may change |
| `Code.RandomCodeGenerator.Generate` | api/code.go:60-64 | returns exactly the current (code, expiry) with a nil error and changes nothing |
| `Code.GenerateIsStable` | api/code.go:60-64 | two reads with no rotation between them return the same snapshot |
| `Endpoints.HandleError` | api/endpoints.go:13-20 | the status is `code` and the error body carries the same code and its standard text |
| `Endpoints.NotFound` | api/endpoints.go:24-27 | always status 404 with error code 404, JSON, no service consulted |
| `Endpoints.AuthOutcome` | api/endpoints.go:31-62 | decode failure gives 400 and consults neither Login nor Create; a Login error gives 500; rejected credentials give 401 and no Create; accepted credentials consult Create exactly once; a Create error gives 500; status 200 iff all succeeded, and then the body is the new session id |
| `Endpoints.CodeOutcome` | api/endpoints.go:66-96 | an empty key gives 400 without asking the registry; a Check error gives 500; an invalid session gives 401 and Generate is not consulted; Generate is consulted iff the session is live; status 200 iff it also succeeded, returning its code, its expiry and the server time |
| `Endpoints.CheckOutcome` | api/endpoints.go:99-133 | decode failure gives 400 without reading the code; a Generate error gives 500; otherwise 200 `{Status: true}` iff the submitted code equals the current one, else 401 `{Status: false}` |
| `Endpoints.CheckLegacyOutcome` | api/endpoints.go:137-157 | an empty `pass` gives 400 without reading the code; a Generate error gives 500; a mismatch gives 401; the literal "true" with status 200 is given exactly on a match; all bodies plain text |
| `Endpoints.AuthIgnoresUnconsulted` | api/endpoints.go:36-61 | when decoding fails, neither the Login nor the Create reply can change the outcome; when Create is not consulted, its reply cannot change the outcome |
| `Endpoints.CodeIgnoresUnconsulted` | api/endpoints.go:69-95 | with an empty key neither the registry nor the code source can change the outcome; when Generate is not consulted, its reply cannot change the outcome |
| `Endpoints.ChecksIgnoreUnconsulted` | api/endpoints.go:104-144 | a decode failure or an empty `pass` makes the outcome independent of the code source |
| `Endpoints.ComparisonIsExact` | api/endpoints.go:117-151 | both check handlers accept iff the submitted string equals the code exactly; a different case or a trailing space is rejected |
| `Endpoints.AuthHandler` | api/endpoints.go:31-62 | running against the registry gives `AuthOutcome` with Create's real reply; the registry changes, exactly as Create specifies, iff Create was consulted |
| `Endpoints.CodeHandler` | api/endpoints.go:66-96 | running against the registry and the code source gives `CodeOutcome` with their real replies; the registry is untouched for an empty key and otherwise changed as Check specifies |
| `Endpoints.CheckHandler` | api/endpoints.go:99-133 | running against the code source gives `CheckOutcome` with the current snapshot; status 200 iff a decoded code equals the current code |
| `Endpoints.CheckLegacyHandler` | api/endpoints.go:137-157 | running against the code source gives `CheckLegacyOutcome` with the current snapshot; "true" iff `pass` is non-empty and equals the current code |
| `Endpoints.LoginThenFetchCode` | api/endpoints.go:42-81 | accepted credentials yield the session id, and fetching the code with it right away succeeds, provided the duration is positive and the id non-empty |
| `Endpoints.LoginThenFetchCodeLater` | api/endpoints.go:42-81 | run through the real registry and code source: after a successful login at `now`, fetching the code with the returned id at any instant in `[now, now + duration)` answers 200 with the current code, consulting Check then Generate |
| `Endpoints.RejectedLoginScenario` | api/endpoints.go:42-61 | rejected credentials give 401 and create no session |
| `Endpoints.RotationScenario` | api/endpoints.go:110-132 | "A1b" verifies before a rotation and gets 401 `{Status: false}` after a rotation to another code; the placeholder "old" verifies before the first rotation |
| `Endpoints.LegacyMissingPassScenario` | api/endpoints.go:139-144 | a legacy check without `pass` gives 400 "Bad Request" and does not read the code |
| `Configuration.CheckEmpty` | config.go:33-37 | fatal, naming the variable, iff the value is empty |
| `Configuration.ToLower` | config.go:52 | the lower-casing before the switch: length kept, every character folded on its own (ASCII letters to lower case, as admitted under "## Left out") |
| `Configuration.ParseSecurity` | config.go:52-61 | after lower-casing, "" and "none" map to SecurityNone, "tls" to SecurityTLS, "starttls" to SecurityStartTLS, anything else is refused (both directions of each) |
| `Configuration.SecurityExamples` | config.go:52-61 | the match ignores case ("StartTLS") but does not trim (" tls" is refused) |
| `Configuration.Normalize` | config.go:39-76 | fatal iff LDAPServer, LDAPBaseDN or ListenAddr is empty or the security text is unknown, reporting the first failure in source order; zero numbers take defaults 389/12/3/60 and others (negative included) are kept; no string is rewritten; the result is normalised |
| `Configuration.NormalizedIsFixpoint` | config.go:46-73 | a normalised record is accepted unchanged |
| `Configuration.NormalizeIdempotent` | config.go:46-73 | normalising a normalised result changes nothing |
| `Configuration.Init` | config.go:39-76 | `init` done field by field in source order ends exactly as `Normalize` |

## Left out

- Concurrency and scheduling: goroutines, `sync.Mutex`, the timer in `generator`,
  the ten-minute sleep in `scavenge`, and the endless loops around them. One rotation
  and one sweep are methods, and every method is one atomic step. How long a code
  stays current is therefore not modelled either. In particular, the timer in
  `generator` is created with a zero delay. It is then `Reset` without draining its
  channel. Under the timer semantics before Go 1.23 this can make the first wait
  return at once, so the first real code may be replaced immediately.
- `randString` (crypto/rand) is not part of this model. Session ids and codes come in
  as parameters. Entropy, length, alphabet and uniqueness of ids are not modelled.
  `Create` with an id already present overwrites it, as the Go map assignment does.
- `time.Now()` is a parameter. The range limits of Go's `time.Time` and
  `time.Duration` are not modelled: instants and durations are unbounded integers.
- JSON decoding is reduced to success or failure. JSON encoding of a response, and the
  500 or `panic` that follow an encoding or write failure, are not modelled, because
  they are I/O on the `ResponseWriter`. The same holds for the error logging in
  `handleError`. Headers other than `Content-Type` are not modelled.
- `Auth.Login` (api/auth.go, go-ad-auth) is an abstract reply. The group restriction
  lives inside it.
- `envconfig.Process` and its fatal error are not modelled. `Init` starts from the
  record it produced.
- `Configuration.ToLower`: only ASCII letters are folded. Go's `strings.ToLower` folds
  every Unicode letter, but the only non-ASCII letters that fold to ASCII (Kelvin sign,
  dotted capital I) become `k` and `i`. None of the keywords contains those letters,
  so the keyword match is the same.
- Router wiring, the static files, the middleware, the context adapters and
  `MarshalJSON` are not modelled (main.go, handlers.go, api/context.go, api/api.go):
  they are plumbing. Timestamps are already modelled as integer nanoseconds. The
  conversion of minutes to durations in main.go is also left out.
- static/js/app.js (the browser client) is not part of this model.
