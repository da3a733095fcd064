# AWS Image Manager: authentication and audit core

This project models the authentication and audit logic of the AWS Image Manager service. The service is a FastAPI application. It registers users, logs them in with signed bearer tokens, and audits every call to its three resource endpoints (create an AMI, create a launch template, update a launch template).

The model covers:

- **`create_access_token`**: copies the caller's claims and sets `exp`, either from the caller's delta or from the configured number of minutes.
- **`verify_token`**: maps a decoding error to `None`.
- **`admin_required`**: the gate that answers 401, answers 403, or hands back the caller's stored user document.
- **`convert_dataclass_to_dict`**: the normaliser that turns request parameters into plain dictionaries and lists.
- **`insert_logs`**: the decorator that decodes the token, runs the endpoint, and only then appends one entry to the `apilogs` collection.
- **The handlers**: `register`, `login` and the three endpoints wrapped by `insert_logs`.

Module layout:

- `Wrappers` holds `Option` and `Result`.
- `Values` holds Python values and the normaliser: `dataclasses.asdict` and `convert_dataclass_to_dict`.
- `Models` holds the records: user document, registration body, login form, audit entry and request item.
- `Store` holds the class `Database`. Its field `users` is the users collection, keyed by username. Its field `apilogs` is the append-only audit log.
- `Authentication` models `utils/authentication.py`.
- `App` models `main.py`.

The library calls are modelled as opaque functions, which are fields of a `Crypto` value fixed for the process:

| Library call | Model |
|---|---|
| bcrypt `hash` | a function from password to hash string |
| bcrypt `verify` | returns `Option<bool>`; `None` stands for passlib raising on a hash it cannot identify |
| jose `encode` | claims to token string |
| jose `decode` | returns `Payload(claims)` or `JwtError` |

The secret key and the algorithm are folded into `encode` and `decode`. So are the signature and expiry checks that `jwt.decode` performs.

Other parameters:

- The current time is an integer number of seconds passed to each operation.
- `ACCESS_TOKEN_EXPIRE_MINUTES` is the `Config` value.
- A handler failure is `Failure`. That is either an `HttpError(status, detail)` the handler raises on purpose, or `Raised(name)`, an exception the handler lets escape and FastAPI answers with status 500.

Behaviour worth noting:

- **Unknown subject.** `admin_required` answers 403, not 401, when the token is valid but its subject has no user document.
- **Every registration is gated.** Every registration, not only one that asks for an admin account, needs an admin caller. `register` depends on `admin_required` (`aws_image_manager/main.py:40`). So with an empty users collection no user can be registered at all (`App.FirstUserCannotRegister`); the first admin document has to be inserted outside this code.
- **Caller-supplied lifetime.** `create_access_token` accepts the token lifetime from its caller (`expires_delta`). It falls back to the configured minutes only when the delta is absent or zero. `login` always uses the fallback.
- **Bad token at an endpoint.** At the audited endpoints, a token that fails to decode raises `JWTError` inside the wrapper. Nothing catches it, so the call ends with status 500, not 401. No endpoint checks the admin flag.

## Model

| member | source | states |
|---|---|---|
| `Values.Convert` | aws_image_manager/utils/authentication.py:73-83 | Scalars and opaque leaves come back unchanged. A dict keeps its key set and each value is converted. An object with a `__dict__` becomes a dict with its attribute names as keys and each attribute converted, whether or not it is a dataclass, because that branch is tested before the dataclass branch. A list keeps its length and each element is converted. A dataclass without `__dict__` becomes a dict of its fields, each passed through `asdict`. |
| `Values.ConvertObjectIsItsAttributeDict` | aws_image_manager/utils/authentication.py:76-77 | An object is normalised exactly as the dict of its attributes would be. |
| `Values.AsDictInner` | aws_image_manager/utils/authentication.py:80-81 | `asdict` returns scalars and plain objects unchanged (a deep copy). A dataclass becomes a dict with its field names as keys, each field passed through `asdict`. A list keeps its length and a dict its keys, each element passed through `asdict`. |
| `Values.AsDictInnerRemovesObjects` | aws_image_manager/utils/authentication.py:80-81 | `asdict` leaves no object node when no non-dataclass object sits inside its argument. |
| `Values.ConvertRemovesObjects` | aws_image_manager/utils/authentication.py:73-83 | The normaliser's result holds no object with a `__dict__` and no dataclass, provided no dataclass without `__dict__` holds a plain object. |
| `Values.ConvertKeepsPlainData` | aws_image_manager/utils/authentication.py:73-83 | A value made only of scalars, lists and dicts is a fixed point of the normaliser. |
| `Values.ConvertIdempotent` | aws_image_manager/utils/authentication.py:73-83 | Converting an already converted value returns it unchanged, under the same proviso as `ConvertRemovesObjects`. |
| `Values.SlotsDataclassKeepsPlainObject` | aws_image_manager/utils/authentication.py:80-81 | Without that proviso both properties fail. A plain object inside a slots dataclass is deep-copied by `asdict`, survives one conversion, and is changed by the second. |
| `Store.Database.constructor` | aws_image_manager/utils/authentication.py:24-26 | An empty store: no user documents and no log entries. Each document is filed under its own username. |
| `Authentication.TokenClaims` | aws_image_manager/utils/authentication.py:40-46 | The claims to encode are the caller's claims plus `exp`, and `exp` overrides any `exp` the caller passed. `exp` is `now + delta` for a given non-zero delta. Otherwise it is `now` plus the configured minutes. |
| `Authentication.CreateAccessToken` | aws_image_manager/utils/authentication.py:40-48 | The token is the encoding of the caller's claims with only `exp` changed, set to the expiry `TokenClaims` computes. |
| `Authentication.Subject` | aws_image_manager/utils/authentication.py:56-57 | The username `payload.get("sub")` can match: present exactly when `sub` is in the payload and is a string, and then that string. |
| `Authentication.VerifyToken` | aws_image_manager/utils/authentication.py:65-70 | A payload exactly when decoding succeeds, and then the decoded claims. `None` exactly when decoding raises. |
| `Authentication.AdminRequired` | aws_image_manager/utils/authentication.py:51-62 | 401 exactly when the token does not verify. 403 exactly when it verifies but its subject is missing, is not a string, has no document, or is not flagged admin. It succeeds exactly when the token verifies and its string subject names an admin document, and then returns that document. It reads the store and never changes it. |
| `Authentication.AdminRequiredReturnsSubject` | aws_image_manager/utils/authentication.py:56-62 | In a store that files each document under its own username, the document the gate returns has the token's subject as its username. |
| `Authentication.LoggedClaims` | aws_image_manager/utils/authentication.py:89-96 | A missing `token` keyword raises `KeyError`. A token that does not decode raises `JWTError`. Otherwise the result is the decoded claims. |
| `Authentication.LogEntryFor` | aws_image_manager/utils/authentication.py:92-98 | The entry's `method` is the request's method and its `path` is the function name. Its `body` holds every keyword except `token`, each converted. Its `token` holds the decoded claims and its `dtcollected` the current time. |
| `Authentication.InsertLogs` | aws_image_manager/utils/authentication.py:86-103 | A token failure raises before the action runs and leaves the log unchanged. Otherwise the action's result is returned unchanged. The log grows by exactly that call's entry when the action succeeds, and is left unchanged when it fails. |
| `App.NewRecord` | aws_image_manager/main.py:56-60 | The inserted document holds the requested username, the hash of the password, and the requested admin flag. |
| `App.Register` | aws_image_manager/main.py:39-62 | A failing admin gate fails the call with the gate's error and changes nothing. So does a failing re-check when an admin account is requested. A taken username fails with 400 and changes nothing. Otherwise exactly one document is added (username, `hash(password)`, requested admin flag) and the success message is returned. Every success implies an admin caller. |
| `App.Login` | aws_image_manager/main.py:65-72 | An unknown user and a wrong password both give the same 400. An unidentifiable stored hash raises. It succeeds exactly when the user is known and the password verifies, and then gives a `bearer` token created from `{"sub": username}` with the default lifetime. It only reads the store. |
| `App.Respond` | aws_image_manager/main.py:77-80 | The response is `{"ok": ...}` holding the item's fields. That is exactly what the audit wrapper records for the item. |
| `App.CallEndpoint` | aws_image_manager/main.py:75-96 | A token that does not decode raises and logs nothing. Otherwise the response comes from the item alone, and exactly one entry is appended. The entry names the endpoint, has the request's method, a body of just the item, the token's claims, and the time. |
| `App.LoginTokenPassesAdminGate` | aws_image_manager/main.py:65-72 | If the decoder gives back what was encoded, `admin_required` accepts a login token exactly when that user is an admin, and returns that user's document. Otherwise it answers 403. |
| `App.FirstUserCannotRegister` | aws_image_manager/main.py:39-41 | With no user documents every registration fails at the admin gate: 401 for a bad token and 403 for any valid one. |
| `App.RegisteredUserCanLogIn` | aws_image_manager/main.py:55-72 | If the hasher accepts a password against its own hash, the document registration stores lets that user log in. The login returns the token for its username. |

## Left out

- Hash and token cryptography: bcrypt and jose are opaque function parameters. No hash/verify round trip, signature check or expiry check is claimed. bcrypt's salting is not modelled: the hash is one fixed function of the password.
- MongoDB, connection setup and environment loading are I/O. `main.py` opens its own client and `users_collection` (`aws_image_manager/main.py:29-31`), separate from the handle `admin_required` reads (`aws_image_manager/utils/authentication.py:21-25`); the model assumes both name the same `DO_console.users` collection and joins them into one field. The collections are the fields of `Store.Database`, so `find_one` by username is a map lookup. Field `_id`, which `insert_one` adds to each document, is not modelled. A token subject that is a MongoDB operator document (not a string) is treated as matching nothing. Tokens this code issues always carry a string subject.
- FastAPI routing, `Depends`, bearer-token extraction, the `/` redirect and async/await are HTTP plumbing. Each handler is a sequential operation. The request is reduced to its HTTP method.
- Clocks: the token expiry reads `datetime.utcnow()` (UTC) and the audit entry's `dtcollected` reads `datetime.now()` (local time). These are different clocks, but both are modelled as one integer `now` in seconds, so the offset between them is not modelled. Sub-second deltas are not modelled. A delta that is non-zero but shorter than one second is truthy in the source.
- The in-body admin re-check of `register` (`aws_image_manager/main.py:42-50`) is not modelled. It hands the user document returned by `admin_required` to `verify_token`, and what jose does with a document is library behaviour. Its outcome is the parameter `recheck` of `App.Register`: the store changes only when it lets the request through.
- Authentication.LoggedClaims: a `token` keyword that is not a string gives one abstract raised failure. What jose raises for such a value is not modelled. The endpoints always pass a string.
- Values.ConvertRemovesObjects: states that no object with a `__dict__` and no dataclass remains only for values where no dataclass without `__dict__` holds a plain object. `Values.SlotsDataclassKeepsPlainObject` shows that it fails otherwise.
- Values.ConvertIdempotent: states idempotence only under the same proviso, for the same reason.
- Values.Convert: tuples, sets and non-string dictionary keys are not modelled. Floats, bytes, datetimes, UUIDs and instances of non-dataclass `__slots__` classes are one opaque leaf kind, `Opaque`, which the normaliser returns unchanged. So "no object" in `Values.ConvertRemovesObjects` means no object with a `__dict__` and no dataclass; opaque leaves, a `__slots__` instance included, may remain. A dataclass's declared fields are taken to be its instance attributes.
- Concurrency: requests are handled one at a time. A check-then-insert race in `register` is not modelled.
- `aws_image_manager/models/models.py` serves only as record shapes. `tests/test.py` holds no behaviour.
