# A model of caldera's REST API dispatcher

This project models the core of `app/api/rest_api.py` in caldera, the
adversary-emulation server. The core is one HTTP handler, `RestApi.rest_core`,
served at `/api/rest`. It reads a JSON body and looks up the HTTP verb and the
body's `index` field in a routing table. It then calls exactly one operation of
the REST service (`rest_svc`), or falls back to the generic listing
`display_objects`, scoped to the caller's permissions. Two small helpers from
the same file are modelled as well: the directory that `upload_file` saves an
upload to, and the browser check `_request_errors` done on the landing page.

Modules:

- `Wrappers` (wrappers.dfy): `Option`, for absent headers and failed lookups.
- `PosixPath` (posix_path.dfy): Python's `str.split('/')`, `'/'.join`,
  `str.lstrip('/')` and `posixpath.normpath`. `normpath` is a fold over path
  components (`Step`, `ResolveFrom`) and a loop over a component stack
  (`ComputeNormPath`). These library functions are not part of the
  repository; line 151 depends on them. The three string operations follow
  Python's `str` methods, and `normpath` follows the algorithm of CPython's
  `posixpath` module, which is what `os.path.normpath` is on a POSIX host.
- `RestApi` (rest_api.dfy): request bodies as `map<string, Value>`; a `Dict`
  class whose `Pop` models `data.pop('index')` in place; the routing table; the
  dispatch decision `Decide`; the handler as a specification function
  `RestCoreSpec` and as a method `RestCore`; `upload_file`'s target directory;
  `_request_errors`.

The REST service is opaque. Its operations are the datatype `Op`. A call is
`Invoke(op, args)` or `DisplayObjects(index, search)`. What a call does is given
by a total function `svc: Call -> Effect`: it returns a value, raises a
marshmallow `ValidationError` with messages, raises another `Exception`, or
raises a `BaseException` outside `Exception`. A request's `Outcome` lists the
service calls made and the response: `JsonResponse`, `BadRequest(messages)`
(HTTP 400), `Swallowed` (logged, and the handler returns nothing) or
`Propagated` (the exception leaves the handler).

What the handler advertises and what its code does differ; the model follows
the code:

- Lines 89 and 97-100 advertise GET and a polymorphic request schema over seven
  kinds (adversaries, operations, agents, abilities, sources, planners, links).
  The code at lines 138-140 sends any hashable `index` not in the verb's table
  to `display_objects`, whether or not it names one of those kinds (numbers,
  booleans and null included). Only a list or object `index` fails, with a
  `TypeError` at `index not in ...`, and it is swallowed
  (`UnhashableIndexIsSwallowed`).
- The table has no GET entry. A GET fails at `options[request.method]` and is
  swallowed; it never reaches the fallback (`UnroutedVerbIsSwallowed`). The
  same holds for every verb other than DELETE, PUT and POST.
- An `Exception` other than a validation error gets no error response. The
  handler logs it and returns nothing. A `BaseException` outside `Exception`
  (a cancellation, say) is not caught at line 144 and leaves the handler
  (`Effect.Escapes`, `Response.Propagated`).
- `normpath('/' + id).lstrip('/')` is empty for ids such as `""`, `"/"` and
  `".."` (`ExfilDirNameEmpty`, `ExfilDirNameEmptyExamples`). The empty name is
  passed to `create_exfil_sub_directory` (line 152); where the upload then
  lands depends on that call, which is not modelled.

## Model

| member | source | states |
|---|---|---|
| `PosixPath.Split` | app/api/rest_api.py:151 | `str.split('/')` yields at least one piece and no piece contains `/` |
| `PosixPath.LStripSlashes` | app/api/rest_api.py:151 | `lstrip('/')` returns a suffix of its input, removes only slashes, and leaves no leading slash |
| `PosixPath.SplitNoSlash` | app/api/rest_api.py:151 | a string without `/` splits into itself alone |
| `PosixPath.SplitAfter` | app/api/rest_api.py:151 | `a + '/' + s` splits into `a` followed by the pieces of `s` |
| `PosixPath.SplitJoin` | app/api/rest_api.py:151 | splitting undoes `'/'.join` for non-empty lists of slash-free pieces |
| `PosixPath.Join` | app/api/rest_api.py:151 | `'/'.join(parts)`; specified by `SplitJoin` and `JoinSplit` |
| `PosixPath.Slashes` | app/api/rest_api.py:151 | `'/' * n` in `normpath`; specified by `SplitSlashes` and `LStripSlashesAfter` |
| `PosixPath.JoinSplit` | app/api/rest_api.py:151 | `'/'.join` undoes splitting, for every string |
| `PosixPath.SplitSlashes` | app/api/rest_api.py:151 | `n` leading slashes split into `n` empty pieces in front of the rest |
| `PosixPath.LStripSlashesAfter` | app/api/rest_api.py:151 | `lstrip('/')` removes exactly a leading run of slashes from a string whose remainder does not start with `/` |
| `PosixPath.InitialSlashes` | app/api/rest_api.py:151 | `normpath` keeps 0, 1 or 2 leading slashes; 0 exactly when the path is relative; three or more count as one |
| `PosixPath.NormPath` | app/api/rest_api.py:151 | `normpath` never returns the empty string (an empty result becomes `.`) |
| `PosixPath.Step` | app/api/rest_api.py:151 | one turn of `normpath`'s component loop; specified by `StepKeepsClean` |
| `PosixPath.ResolveFrom` | app/api/rest_api.py:151 | `normpath`'s loop as a fold over the components; specified by `ResolveKeepsClean`, `ResolveCleanIsIdentity` and `ResolveSkipsEmpties` |
| `PosixPath.ComputeNormPath` | app/api/rest_api.py:151 | the component-stack loop of `normpath` computes `NormPath` |
| `PosixPath.StepKeepsClean` | app/api/rest_api.py:151 | one step of the loop keeps the stack clean: no empty, `.` or slashed component, `..` only as a leading run, and no `..` at all under the root |
| `PosixPath.ResolveKeepsClean` | app/api/rest_api.py:151 | resolving any slash-free components from a clean stack leaves a clean stack |
| `PosixPath.ResolveCleanIsIdentity` | app/api/rest_api.py:151 | resolving components that are already clean pushes each of them unchanged |
| `PosixPath.ResolveSkipsEmpties` | app/api/rest_api.py:151 | leading empty components (from leading slashes) do not change the result |
| `PosixPath.JoinCleanHead` | app/api/rest_api.py:151 | a clean non-empty stack joins into a non-empty string that does not start with `/` |
| `PosixPath.ResolveJoined` | app/api/rest_api.py:151 | re-splitting and re-resolving a joined clean stack gives the stack back |
| `PosixPath.InitialSlashesOf` | app/api/rest_api.py:151 | `n` in 0..2 slashes before a string that does not start with `/` are counted as `n` initial slashes |
| `PosixPath.NormPathIdempotent` | app/api/rest_api.py:151 | `normpath(normpath(p)) == normpath(p)` for every path |
| `Wrappers.Option.GetOr` | app/api/rest_api.py:151 | `headers.get('X-Request-ID', default)`; specified by `UploadTargetInputs` |
| `RestApi.AccessDict` | app/api/rest_api.py:107 | `dict(access=tuple(permissions))`; specified by `UnregisteredIndexFallsBack`, `BodyCannotOverrideAccess` and `Decide` |
| `RestApi.Dict.constructor` | app/api/rest_api.py:108 | `dict(body)` holds exactly the body's fields |
| `RestApi.Dict.Pop` | app/api/rest_api.py:109 | `pop('index')` returns the value and removes the key; on a missing key it reports the `KeyError` and leaves the dictionary unchanged |
| `RestApi.DeleteRoutes` | app/api/rest_api.py:111-116 | DELETE routes exactly agents, operations, abilities and adversaries |
| `RestApi.PutRoutes` | app/api/rest_api.py:117-127 | PUT routes exactly adversaries, abilities, sources, planners, agents, chain, operations, schedule and link |
| `RestApi.PostRoutes` | app/api/rest_api.py:128-136 | POST routes exactly operation_report, result, contact, configuration, link, operation and task |
| `RestApi.Routes` | app/api/rest_api.py:110-137 | the table's verbs are exactly DELETE, PUT and POST (no GET), each with its own sub-table |
| `RestApi.RouteOf` | app/api/rest_api.py:110-137 | every operation is registered in the table, under the key `RouteOf` gives |
| `RestApi.RouteOfInvertsRoutes` | app/api/rest_api.py:110-137 | no operation is registered under two keys: `RouteOf` inverts the table |
| `RestApi.Bind` | app/api/rest_api.py:112-135 | every route hands the remaining body on unchanged; `operations`/`schedule` under PUT also pass the access dictionary first; POST `link`, `operation` and `task` unpack it as keywords; PUT `link` passes it through `Link.load` |
| `RestApi.Hashable` | app/api/rest_api.py:138 | the `index` values `in` can test against a dictionary; a list or object raises `TypeError` (`UnhashableIndexIsSwallowed`) |
| `RestApi.Decide` | app/api/rest_api.py:108-141 | dispatch raises exactly when the body is not a dictionary, lacks `index`, has an unrouted verb or an unhashable `index`; a dispatched payload never holds `index`; a handler gets the body minus `index`; the fallback search's `access` is the caller's permissions |
| `RestApi.Respond` | app/api/rest_api.py:140-145 | a result becomes a JSON response; a `ValidationError` becomes HTTP 400 with its messages; any other `Exception` becomes no response; a `BaseException` outside `Exception` propagates |
| `RestApi.RestCoreSpec` | app/api/rest_api.py:106-145 | at most one service call is made; no call means no response; otherwise the response is how that call ended |
| `RestApi.RestCore` | app/api/rest_api.py:101-145 | the handler, run on an authorized request with the body popped in place, produces `RestCoreSpec`'s outcome |
| `RestApi.RegisteredRouteCallsItsOperation` | app/api/rest_api.py:138-141 | a registered (verb, index) pair makes exactly one call, to its own operation, with the body minus `index`; `display_objects` is not called |
| `RestApi.UnregisteredIndexFallsBack` | app/api/rest_api.py:138-140 | a hashable `index` not registered under a routed verb makes exactly one call, `display_objects(index, search)`; `search` is the body minus `index`, with `access` set to the caller's permissions, and every other field unchanged |
| `RestApi.BodyCannotOverrideAccess` | app/api/rest_api.py:139 | on the fallback path, whatever `access` value the body carries, the outcome is the same as without it |
| `RestApi.PayloadOmitsIndex` | app/api/rest_api.py:109-141 | no payload handed to the service holds `index`, and every body field other than `index` and `access` reaches it unchanged |
| `RestApi.UnroutedVerbIsSwallowed` | app/api/rest_api.py:138-145 | a verb other than DELETE, PUT and POST (GET included) makes no call and gets no response |
| `RestApi.UnhashableIndexIsSwallowed` | app/api/rest_api.py:138-145 | a list or object `index` makes no call and gets no response |
| `RestApi.MissingIndexIsSwallowed` | app/api/rest_api.py:108-145 | a body that is not a dictionary, or has no `index`, makes no call and gets no response |
| `RestApi.OnlyValidationErrorsAreReported` | app/api/rest_api.py:142-145 | the response is HTTP 400 with messages `m` if and only if the one call made raised a `ValidationError` with messages `m` |
| `RestApi.ExfilDirName` | app/api/rest_api.py:151 | `normpath('/' + id).lstrip('/')`; specified by `ExfilDirNameResolves`, `ExfilDirNameIsSafe` and `ExfilDirNameEmpty` |
| `RestApi.ExfilDirNameResolves` | app/api/rest_api.py:151 | the exfiltration directory name is the id's components resolved at the root and joined with `/` |
| `RestApi.ExfilDirNameIsSafe` | app/api/rest_api.py:151 | that name never starts with `/`, and when non-empty it has no empty, `.` or `..` segment |
| `RestApi.ExfilDirNameEmpty` | app/api/rest_api.py:151-152 | the name is empty exactly when the id's components resolve to nothing at the root; that empty name is what line 152 passes to `create_exfil_sub_directory` |
| `RestApi.ExfilDirNameEmptyExamples` | app/api/rest_api.py:151 | the ids `""` and `".."` both give the empty name |
| `RestApi.UploadTarget` | app/api/rest_api.py:148-153 | the target is `data/payloads/` exactly when the `Directory` header is non-empty; otherwise it is a safe exfiltration sub-directory |
| `RestApi.UploadTargetInputs` | app/api/rest_api.py:148-151 | the `Directory` header's value is never used, only whether it is non-empty, and an empty header acts as an absent one, whatever `X-Request-ID` is; the `X-Request-ID` header names the sub-directory, and the fresh UUID does so only when that header is absent |
| `RestApi.Contains` | app/api/rest_api.py:174 | Python's `'Chrome' in ua`; specified by `ContainsIff` |
| `RestApi.ContainsIff` | app/api/rest_api.py:174 | the left-to-right scan for a substring agrees with "occurs at some position" |
| `RestApi.RequestErrors` | app/api/rest_api.py:172-176 | with no User-Agent header the check raises a `TypeError`; otherwise the list is empty exactly when `Chrome` occurs in the header, and is `[('browser', 'chrome not being used')]` otherwise |

## Left out

- Route registration, static serving and the pack start-up tasks in `__init__` and `enable` (lines 35-55): web-framework plumbing and concurrency.
- `login`, `validate_login`, `logout`, `landing`, `redoc_page` and `swagger_page` (lines 59-85): template rendering and authentication-service I/O.
- `download_file`, `swagger_spec`, `save_multipart_file_upload` and `create_exfil_sub_directory` (lines 150-167): file I/O. Only the choice of directory is modelled.
- The REST service's operations, `display_objects` among them. They are opaque names, and `svc` gives their effect. Scope filtering of listing results and what the operations persist depend on that service and are not modelled.
- A `TypeError` from unpacking `**d` into an operation and a `ValidationError` from `Link.load(d)` are not modelled separately. Both are effects of that route's call, given by `svc`.
- `check_authorization` and its HTTP 401: the decorator is not part of this model. `RestCore` instead requires `req.authorized`.
- `auth_svc.get_permissions`: the permissions are an input, and a failure in that call is not modelled.
- `request.json()` and the `dict(...)` conversion: the body is the dictionary they produce, or `None` when they raise. JSON floats are not modelled (`Number` holds integers).
- `dict(...)` of a JSON array of pairs: it can produce keys that are not strings (`[[1, 2], ["index", "agents"]]`), which `Fields`, a map from strings, cannot hold.
- Exceptions outside `Exception` raised before the service call (a cancellation while awaiting `get_permissions` or `request.json()`): they propagate out of the handler and are not modelled; only the service call's `Escapes` effect is.
- The request and response schema decorators and `PolymorphicSchema`: they are not part of this model, and the model does not assume they reject unknown `index` values. Their encode/decode round trip is not modelled.
- Logging, `json.dumps` of the 400 body, and the encoding of JSON responses. A response that cannot be encoded counts as the call raising something other than a validation error.
- What the web framework does when the handler returns nothing. `Swallowed` stands for the handler's `None`.
- The host is assumed to be POSIX, so `os.path` is `posixpath`. On Windows it is `ntpath`, which also splits on `\` and knows drive letters; `ExfilDirNameIsSafe` does not cover that case.
- Randomness: `uuid.uuid4()` is the parameter `generatedId` of `UploadTarget`.
- `Error._asdict()` in `_request_errors`: the error is kept as a `(name, msg)` record, not converted to a dictionary.
