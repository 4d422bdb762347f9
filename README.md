# demo-curd authorization and configuration core, in Dafny

This project models the decision logic of a small Gin CRUD service:

- the **request authorization evaluator** behind the JWT middleware's
  authorizator (`router/router.go`): configured rules are scanned in order,
  each rule's URL entries (`<path glob>:<method glob>`) in order, and the
  first *decisive* entry settles allow or deny; with no decisive entry the
  request is denied;
- the helpers it is built on (`util/util.go`): `FindStringInGeneric`,
  `Must` and `CheckError`;
- the two page-parameter normalisers: `dbutil.Pagination` and
  `ctxutil.GetPageFromCtx`;
- configuration selection in `config/config.go`: the environment-name
  fallback chain, the configuration directory and file name, and the rule
  that a failed load returns a record holding only the environment name.

Modules: `Util` (util.dfy), `Constant` (constant.dfy), `Config`
(config.dfy), `Request` (request.dfy), `DbUtil` (pagination.dfy), `CtxUtil`
(context.dfy), `Router` (router.dfy).

How the model is shaped:

- A Go panic is a value: `Outcome.Panic(error)` beside `Outcome.Return(value)`.
- Go `interface{}` values are `Util.Item`: a string, an int, nil, a
  `[]interface{}` or any other dynamic type. `item == val` holds only for a
  string item with the same contents.
- Go `int` is `Util.Int64`. Wrap-around is written out with `Wrap64` where
  the source can overflow (the pagination offset). `strconv.Atoi` reads the
  digits left to right and saturates as soon as they pass 2^64 - 1, before
  it looks at the rest of the string; otherwise it clamps to the 64-bit
  range. `CtxUtil.Atoi` models both.
- `doublestar.Match` is a parameter `Glob` that returns (matched, error).
  Custom handlers are parameters of type `Handler`. The process
  environment, `os.Getwd`, `filepath.Abs` and the YAML reader are the
  parameters `environ` and `Platform`.
- The decision functions (`AuthorizePerUrl`, `ScanUrls`, `Decide`) are
  recursive functions over sequences. The nested loops of
  `HandleAuthorizationWithAuthorities` are a method proved equal to
  `Decide`. `Decide` is also proved equal to a flat reference scan over all
  (entry, rule) pairs (`DecideIsFlatScan`). The ordering lemmas are proved
  from that equality.
- The router is a class. `RegisterCustomAuthorizedHandler` appends to its
  `customAuthorizedHandlers` field. The authorizator uses the constant
  `authorizerHandlers`, the separate empty slice captured when the router
  is built.

Where the code and a plain reading of the rule table differ, the model
follows the code:

- An entry whose path and method match does not always end the search. A
  failed `HasPermission`, `HasRole` or `Custom` check returns "no match" and
  the scan continues with the next entry and rule. Only a granted check,
  `PermitAll` or `DenyAll` is decisive.
- The entry is split on every `:`. Piece 0 is the path glob and piece 1 the
  method glob; further pieces are ignored.
- An access string outside the five known kinds is not rejected when the
  configuration loads. It panics when an entry of that rule fully matches a
  request.
- A missing or non-list `authorities` claim does not deny. The type
  assertion at `router/router.go:181` panics (`Router.Authorizator`).
- A `Custom` rule can never grant as the router is wired (see Findings).

## Model

| member | source | states |
|---|---|---|
| `Util.Wrap64` | util/dbutil/pagination.go:20 | the result lies in the 64-bit range, is congruent to the input modulo 2^64, and equals the input when the input already fits, as Go `int` arithmetic wraps |
| `Util.Must` | util/util.go:15-20 | panics exactly when the error is non-nil, with that error; otherwise returns false |
| `Util.CheckError` | util/util.go:31-35 | panics exactly when the error is non-nil, with that error; otherwise returns normally |
| `Util.IndexOf` | util/util.go:22-29 | the result is -1 exactly when the string occurs nowhere in the slice; otherwise the slice holds the string at that index and at no earlier index; a non-string item is never the result |
| `Util.FindStringInGeneric` | util/util.go:22-29 | `(i, true)` gives the first index holding the string; `(-1, false)` exactly when no item is that string; agrees with `IndexOf` |
| `Constant.ParseAccess` | util/constant/constant.go:32-40 | classifying an access string gives back a kind whose configured spelling is that string; it is `Unrecognised` exactly when the string is none of the five constants |
| `Constant.ParseValue` | util/constant/constant.go:32-40 | parsing the spelling of a canonical kind gives that kind back, so string comparison and kind comparison decide alike |
| `Config.EnvOnly` | config/config.go:93-99 | the error-path record carries the environment name and every other field at its zero value |
| `Config.EnvName` | config/config.go:129-138 | the environment name is never empty and is `ENVIRONMENT`, `ENV` or `PROD` |
| `Config.ExtractEnv` | config/config.go:129-138 | a non-empty `ENVIRONMENT` wins; otherwise a non-empty `ENV`; otherwise `PROD`; never empty |
| `Config.ToLower` | config/config.go:116 | same length, every ASCII upper-case letter lowered, no upper-case letter left |
| `Config.ToLowerIdempotent` | config/config.go:116 | lower-casing twice is lower-casing once |
| `Config.ConfigDir` | config/config.go:111-115 | `/config` for the root, `<path>/config` otherwise |
| `Config.ConfigDirClean` | config/config.go:111-115 | for every clean absolute working path the directory is again clean and absolute, with no `//`, and ends in `/config` |
| `Config.ConfigName` | config/config.go:116 | the name is `app-` followed by the lower-cased environment name |
| `Config.ConfigNameIgnoresCase` | config/config.go:116 | names that differ only in case select the same file; the default environment selects `app-prod` |
| `Config.LoadConfig` | config/config.go:91-127 | on success returns the decoded record read from the chosen directory and name, with no error; on any error returns `Config{Env: env}` with that error; panics exactly when `filepath.Abs` fails |
| `DbUtil.Defaulted` | util/dbutil/pagination.go:10-18 | afterwards no field is zero or empty; exactly the zero or empty fields take the defaults 1, 10 and `created_at desc`; negative values are kept |
| `DbUtil.DefaultedIdempotent` | util/dbutil/pagination.go:10-18 | defaulting twice equals defaulting once; the pages left unchanged are exactly those with no zero or empty field |
| `DbUtil.Pagination` | util/dbutil/pagination.go:9-24 | the scope passes to `db.Offset`, `db.Limit` and `db.Order` the offset `(Page-1)*Size` in 64-bit arithmetic, limit `Size` and order `Sort`, all from the defaulted page; an all-zero page gives offset 0, limit 10 and the default order |
| `DbUtil.OffsetExact` | util/dbutil/pagination.go:19-23 | whenever `(Page-1)*Size` of the defaulted page fits in 64 bits, negative pages and sizes included, the offset is exactly that product |
| `DbUtil.OffsetWrapsForHugePage` | util/dbutil/pagination.go:20 | the largest page number with size 10 wraps the offset round to -20 |
| `CtxUtil.Atoi` | util/ctxutil/context.go:14-15 | a non-zero value needs a digit right after the optional sign; a negative value needs a leading `-` and a positive one its absence |
| `CtxUtil.AtoiDecimal` | util/ctxutil/context.go:14-15 | reading the decimal notation of any 64-bit value (negative ones with `-`) gives that value back |
| `CtxUtil.AtoiRejects` | util/ctxutil/context.go:14-15 | the empty string, a lone sign, and a string with a non-digit after the sign whose leading digits stay within 2^64 - 1, read as 0 |
| `CtxUtil.AtoiSaturates` | util/ctxutil/context.go:14-15 | leading digits past 2^64 - 1 give the largest 64-bit value, or the smallest after a `-`, whatever characters follow |
| `CtxUtil.AtoiOverflowBeforeNonDigit` | util/ctxutil/context.go:14-15 | twenty or more nines followed by a non-digit read as the largest 64-bit value, not as 0 |
| `CtxUtil.AtoiOverflowExample` | util/ctxutil/context.go:14-15 | the query value `99999999999999999999x` reads as the largest 64-bit value |
| `CtxUtil.ReadFields` | util/ctxutil/context.go:12-20 | in a Gin context page and size are `Atoi` of the query parameters and the order is the `sort` parameter, a missing one reading as 0 or empty; in a plain context an int under `page` or `size` is taken as is and anything else reads as 0, and the order is the string stored under the order key, or empty when none is |
| `CtxUtil.Normalised` | util/ctxutil/context.go:22-30 | afterwards page and size are at least 1 and the order is non-empty; positive numbers and a non-empty order are kept; everything else takes the defaults |
| `CtxUtil.NormalisedFixedPoints` | util/ctxutil/context.go:22-30 | the pages left unchanged are exactly those with positive page and size and an order, so normalising is idempotent |
| `CtxUtil.NormalisersCompared` | util/ctxutil/context.go:22-30 | the two normalisers agree on pages without negative numbers and disagree on every negative page or size |
| `CtxUtil.GetPageFromCtx` | util/ctxutil/context.go:11-32 | the result has page and size of at least 1 and a non-empty order; it is the normalisation of the fields read from the Gin query or the context values |
| `CtxUtil.UnparseableQueryGetsDefaults` | util/ctxutil/context.go:14-27 | a query whose page and size read as 0 (missing or not numbers) gets page 1 and size 10 |
| `CtxUtil.PlainContextIgnoresSortKey` | util/ctxutil/context.go:18-20 | as written, a context whose size is an int yields the default order, whatever string is stored under `sort` |
| `CtxUtil.IntendedPlainContextKeepsSort` | util/ctxutil/context.go:18-20 | reading the order from `sort` keeps a non-empty stored order and changes nothing about the size |
| `Router.Split` | router/router.go:207 | there is always at least one piece, and no piece contains the separator |
| `Router.SplitJoin` | router/router.go:207 | joining the pieces with the separator gives the entry back |
| `Router.SplitWithoutSeparator` | router/router.go:207-213 | an entry without `:` is a single piece, so it has no method part |
| `Router.SplitWithSeparator` | router/router.go:207-215 | an entry with a `:` has both a path part and a method part |
| `Router.AuthorizeHasPermission` | router/router.go:247-255 | holds iff one of the rule's permissions occurs as a string among the authorities |
| `Router.AuthorizeHasRole` | router/router.go:257-265 | holds iff one of the rule's roles occurs as a string among the authorities |
| `Router.AuthorizePerUrl` | router/router.go:206-245 | an entry that allows is always decisive; a decisive entry fully matches path and method; a panic comes from a glob error or from an unknown access kind on a full match; a path that does not match skips the entry with `(false, false)`, whatever the method glob |
| `Router.AnyFound` | router/router.go:247-265 | the permission (resp. role) check holds iff some configured name occurs as a string among the authorities |
| `Router.AnyHandlerAllows` | router/router.go:232-239 | the custom check holds iff some handler says yes; with no handlers it fails |
| `Router.DecisiveOnlyWhenGrantedOrDenyAll` | router/router.go:220-244 | an entry is decisive without panicking only on a full path and method match that grants or is `DenyAll`; a non-decisive entry never allows |
| `Router.GlobErrorsPanic` | router/router.go:207-216 | a path-glob error always panics with that error, and a method-glob error panics once path matched and the entry has a method part; a path that does not match skips the entry with `(false, false)`, whatever the method glob |
| `Router.NoMethodPartNeverMatches` | router/router.go:207-213 | an entry without `:` is never decisive, even when its path glob matches; only a glob error makes it panic |
| `Router.PermitAllAndDenyAll` | router/router.go:228-231 | on a full match `PermitAll` allows and `DenyAll` denies, both decisively, whatever the authorities |
| `Router.PermissionAndRoleChecks` | router/router.go:220-227 | on a full match `HasPermission` (resp. `HasRole`) is decisive and allows iff a configured permission (resp. role) is among the authorities; otherwise the scan goes on |
| `Router.CustomCheck` | router/router.go:232-239 | on a full match `Custom` is decisive and allows iff some handler says yes; with no handlers the scan goes on |
| `Router.UnknownAccessPanicsOnlyOnFullMatch` | router/router.go:240-242 | an access string outside the five kinds panics with the invalid-access error exactly when path and method both match, given globs that report no error |
| `Router.ScanUrlsWitnesses` | router/router.go:193-199 | a decision `auth` comes from some entry of the rule that returned `(auth, true)`; a panic from some entry that panicked; no decision means every entry returned without matching |
| `Router.DecideAllowsOnlyOnGrant` | router/router.go:189-204 | the request is allowed only when some entry of some rule returned `(true, true)`, and panics only when some entry panicked |
| `Router.HandleAuthorizationWithAuthorities` | router/router.go:189-204 | the nested loops with early returns decide exactly as the recursive scan `Decide` |
| `Router.DecideIsFlatScan` | router/router.go:189-204 | the nested scan over rules and entries equals the first-decisive scan over the flat list of all (entry, rule) pairs, with deny when none is decisive |
| `Router.NoDecisiveEntryDenies` | router/router.go:189-204 | when no pair is decisive the request is denied; this includes no rules and rules without entries |
| `Router.FirstDecisiveEntryDecides` | router/router.go:190-199 | the decision is the outcome of the first decisive pair in configuration order; later pairs are not consulted |
| `Router.LaterRulesNotConsulted` | router/router.go:190-199 | once some pair of the rules is decisive, appending more rules never changes the decision |
| `Router.DenyAllBeforePermitAll` | router/router.go:190-231 | a `DenyAll` rule listed before a `PermitAll` rule for the same entry `/x:GET` denies that request |
| `Router.IdentityHandler` | router/router.go:174-178 | the identity is the `user_id` claim, or nil when it is absent |
| `Router.Authorizator` | router/router.go:179-185 | a missing or non-list `authorities` claim panics; otherwise the decision is the scan over the configured rules with that claim's items |
| `Router.Router.constructor` | router/router.go:65-91 | a new router has no registered handlers, and its authorizator holds the configured rules and an empty handler slice of its own |
| `Router.Router.RegisterCustomAuthorizedHandler` | router/router.go:267-269 | the handler is appended at the end and earlier entries are unchanged |
| `Router.RegisterThenAuthorize` | router/router.go:65-104 | registering a handler leaves every authorization decision as it was: the same as with no handlers at all |
| `Router.Router.Authorize` | router/router.go:65-66 | the installed authorizator decides as with no custom handlers, whatever has been registered |
| `Router.SingleCustomRule` | router/router.go:206-239 | with the single rule `Custom` for `/x:GET`, the request `GET /x` is allowed exactly when some handler says yes |
| `Router.RegisteredHandlerOnCustomRule` | router/router.go:65-104 | with one `Custom` rule for `/x:GET` and a registered handler that always says yes, the router as wired denies `GET /x`, while the authorizator wired to the registered handlers allows it |

## Left out

- `doublestar` glob semantics (`*` against `**`): matching is the `Glob` parameter, and no concrete glob result is assumed.
- JWT middleware construction, token parsing and `jwt.ExtractClaims`: the claims map is an input of `Router.Authorizator`.
- The failure paths of `NewRouter` and `initJwtMiddleware` (`time.ParseDuration`, `MiddlewareInit`), CORS setup, logging and the swagger route: these are foreign library calls with no decision logic of their own.
- `privateKey` and `util.GetUnexportedField`: these use reflection and unsafe pointer access.
- A caller-supplied `Authorizator` or `IdentityHandler` in `NewRouter` (lines 106-115): the constructor models the default wiring that `NewRouterWithoutAuthMw` uses.
- Router.AnyHandlerAllows: states which handlers grant, not the order they are called in, because handlers are modelled as pure total functions. A handler that panics or has side effects is not modelled.
- A nil context in `GetPageFromCtx`: a nil `*gin.Context` panics at `c.Query` (line 14) and a nil interface panics at `c.Value` (line 18). `CtxUtil.RequestContext` has no nil case, so these panics are not modelled.
- What GORM does with the scope: `DbUtil.Scope` records the arguments given to `db.Offset`, `db.Limit` and `db.Order`; how GORM treats a zero or negative offset or limit is not modelled.
- What Gin or `net/http` does with a panic: the model stops at the `Panic` outcome.
- Config.ToLower: lower-cases ASCII letters only, while `strings.ToLower` also maps non-ASCII letters.
- Config.LoadConfig: the global `viper` state is not modelled (`AddConfigPath`, `SetConfigType`, `AutomaticEnv` overrides from environment variables). Reading and decoding the file is one `Platform.read` result. On success the record is whatever decoding yields; `Env` is not set from the extracted name.
- The file defining `request.Page` is not part of this model. `Request.Page` takes its fields from their uses: two `int`s and a string.
- rabbitmq, database, dao, service, api, main.go, wire.go, i18n and the request validation: network clients, ORM and framework pass-throughs, startup wiring and library-defined validation.

## Findings

| source | as written | input that shows it | evidently intended | confidence | as-written member | corrected member |
|---|---|---|---|---|---|---|
| util/ctxutil/context.go:20 | the non-Gin branch reads `Sort` from the `"size"` key | context values `page` = 2, `size` = 20 (int), `sort` = `"name asc"`: the order is `created_at desc` | read `Sort` from the `"sort"` key | high; not executed | `CtxUtil.PlainContextIgnoresSortKey` | `CtxUtil.IntendedPlainContextKeepsSort` |
| router/router.go:65 | the authorizator captures a fresh empty handler slice (line 65); `RegisterCustomAuthorizedHandler` appends to a different slice (line 91) | register a handler that always says yes, with one `Custom` rule `/x:GET` and a request `GET /x`: the request is denied | registered handlers are consulted for `Custom` rules | medium; not executed | `Router.RegisterThenAuthorize` | `Router.RegisteredHandlerOnCustomRule` |
