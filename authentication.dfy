/**
  Token issuing and checking, the admin gate and the audit-logging wrapper
  of `aws_image_manager/utils/authentication.py`.
 */
module Authentication {
  import opened Wrappers
  import opened Values
  import opened Models
  import opened Store

  /**
    How a handler fails: an `HTTPException` it raises on purpose, or an
    exception it lets escape, which FastAPI answers with status 500.
   */
  datatype Failure = HttpError(status: int, detail: string) | Raised(exception: string)

  /** What `jwt.decode` does with a token: returns its payload or raises `JWTError`. */
  datatype Decoded = Payload(claims: Claims) | JwtError

  /**
    The library calls, as opaque functions fixed for the process.  `encode`
    and `decode` already hold the configured secret key and algorithm;
    `decode` also performs the signature and expiry checks.  `verify`
    yields None where passlib raises because it cannot identify the hash.
   */
  datatype Crypto = Crypto(
    hash: string -> string,
    verify: (string, string) -> Option<bool>,
    encode: Claims -> string,
    decode: string -> Decoded)

  /** The environment setting `ACCESS_TOKEN_EXPIRE_MINUTES`. */
  datatype Config = Config(accessTokenExpireMinutes: int)

  const InvalidToken := HttpError(401, "Invalid token")
  const AdminAccessRequired := HttpError(403, "Admin access required")
  /** Reading a missing key of a dict raises. */
  const MissingKey := Raised("KeyError")
  /** `jwt.decode` raising inside the audit wrapper, where nothing catches it. */
  const DecodeRaised := Raised("JWTError")
  /** `jwt.decode` given something other than a string. */
  const NonStringToken := Raised("non-string token")

  /** Python truthiness of the optional `timedelta`: None and a zero delta are false. */
  predicate DeltaIsTruthy(expiresDelta: Option<int>) {
    expiresDelta.Some? && expiresDelta.value != 0
  }

  /**
    The `to_encode` dict of `create_access_token`: a copy of the caller's
    claims with `exp` set (times in seconds).
   */
  function TokenClaims(cfg: Config, data: Claims, expiresDelta: Option<int>, now: int): (c: Claims)
    ensures c.Keys == data.Keys + {"exp"}
    ensures forall k | k in data && k != "exp" :: c[k] == data[k]
    ensures expiresDelta.Some? && expiresDelta.value != 0 ==> c["exp"] == Int(now + expiresDelta.value)
    ensures expiresDelta.None? || expiresDelta.value == 0 ==>
              c["exp"] == Int(now + 60 * cfg.accessTokenExpireMinutes)
  {
    var expire := if DeltaIsTruthy(expiresDelta) then now + expiresDelta.value
                  else now + cfg.accessTokenExpireMinutes * 60;
    data["exp" := Int(expire)]
  }

  /**
    `create_access_token`: the signed encoding of the caller's claims with
    only `exp` set, to the expiry `TokenClaims` computes.
   */
  function CreateAccessToken(crypto: Crypto, cfg: Config, data: Claims, expiresDelta: Option<int>, now: int): (token: string)
    ensures token == crypto.encode(data["exp" := TokenClaims(cfg, data, expiresDelta, now)["exp"]])
  {
    crypto.encode(TokenClaims(cfg, data, expiresDelta, now))
  }

  /** `verify_token`: the decoded payload, or None where decoding raises. */
  function VerifyToken(crypto: Crypto, token: string): (r: Option<Claims>)
    ensures r.Some? <==> crypto.decode(token).Payload?
    ensures r.Some? ==> r.value == crypto.decode(token).claims
  {
    match crypto.decode(token)
    case Payload(claims) => Some(claims)
    case JwtError => None
  }

  /**
    The username `payload.get("sub")` finds: every stored username is a
    string, so a missing or non-string subject matches no document.
   */
  function Subject(payload: Claims): (s: Option<string>)
    ensures s.Some? <==> "sub" in payload && payload["sub"].Str?
    ensures s.Some? ==> payload["sub"] == Str(s.value)
  {
    if "sub" in payload && payload["sub"].Str? then Some(payload["sub"].s) else None
  }

  /** `admin_required`: 401 for a bad token, 403 for a non-admin, else the caller's record. */
  function AdminRequired(crypto: Crypto, users: map<string, UserRecord>, token: string): (r: Result<UserRecord, Failure>)
    ensures r == Err(InvalidToken) <==> VerifyToken(crypto, token).None?
    ensures r == Err(AdminAccessRequired) <==>
              && VerifyToken(crypto, token).Some?
              && var sub := Subject(VerifyToken(crypto, token).value);
                 sub.None? || sub.value !in users || !users[sub.value].isAdmin
    ensures r.Ok? <==>
              && VerifyToken(crypto, token).Some?
              && var sub := Subject(VerifyToken(crypto, token).value);
                 sub.Some? && sub.value in users && users[sub.value].isAdmin
    ensures r.Ok? ==>
              && VerifyToken(crypto, token).Some?
              && var sub := Subject(VerifyToken(crypto, token).value);
                 sub.Some? && sub.value in users && r.value == users[sub.value] && r.value.isAdmin
  {
    match VerifyToken(crypto, token)
    case None => Err(InvalidToken)
    case Some(payload) =>
      var username := Subject(payload);
      if username.None? || username.value !in users || !users[username.value].isAdmin then
        Err(AdminAccessRequired)
      else
        Ok(users[username.value])
  }

  /**
    In a store that files each document under its own username, the
    document the gate hands back is the one whose username is the token's
    subject.
   */
  lemma AdminRequiredReturnsSubject(db: Database, crypto: Crypto, token: string)
    requires db.Valid()
    ensures AdminRequired(crypto, db.users, token).Ok? ==>
              AdminRequired(crypto, db.users, token).value.username == Subject(VerifyToken(crypto, token).value).value
  {
  }

  /**
    The claims the audit wrapper decodes from the `token` keyword argument;
    here a decoding error is not caught.
   */
  function LoggedClaims(crypto: Crypto, kwargs: map<string, Value>): (r: Result<Claims, Failure>)
    ensures "token" !in kwargs ==> r == Err(MissingKey)
    ensures "token" in kwargs && !kwargs["token"].Str? ==> r == Err(NonStringToken)
    ensures "token" in kwargs && kwargs["token"].Str? ==>
              match crypto.decode(kwargs["token"].s)
              case Payload(claims) => r == Ok(claims)
              case JwtError => r == Err(DecodeRaised)
  {
    if "token" !in kwargs then Err(MissingKey)
    else if !kwargs["token"].Str? then Err(NonStringToken)
    else match crypto.decode(kwargs["token"].s)
      case Payload(claims) => Ok(claims)
      case JwtError => Err(DecodeRaised)
  }

  /** The audit entry of one call to the wrapped function `name`. */
  function LogEntryFor(request: Request, name: string, kwargs: map<string, Value>, claims: Claims, now: int): (e: LogEntry)
    ensures e.httpMethod == request.httpMethod && e.path == name
    ensures e.body.Keys == kwargs.Keys - {"token"}
    ensures forall k | k in e.body :: e.body[k] == Convert(kwargs[k])
    ensures e.token == claims && e.dtcollected == now
  {
    LogEntry(request.httpMethod, name, map k | k in kwargs && k != "token" :: Convert(kwargs[k]), claims, now)
  }

  /** A wrapped function: it receives the request and the keyword arguments. */
  type Action = (Request, map<string, Value>) -> Result<Value, Failure>

  /**
    `insert_logs` applied to `action` (whose `__name__` is `name`), called
    with `request` and `kwargs` at time `now`.  The token is decoded before
    the action runs and the entry is appended only once it has returned.
   */
  method InsertLogs(db: Database, crypto: Crypto, name: string, action: Action,
                    request: Request, kwargs: map<string, Value>, now: int)
    returns (r: Result<Value, Failure>)
    modifies db`apilogs
    ensures LoggedClaims(crypto, kwargs).Err? ==>
              r == Err(LoggedClaims(crypto, kwargs).error) && db.apilogs == old(db.apilogs)
    ensures LoggedClaims(crypto, kwargs).Ok? ==> r == action(request, kwargs)
    ensures LoggedClaims(crypto, kwargs).Ok? && r.Ok? ==>
              db.apilogs == old(db.apilogs) + [LogEntryFor(request, name, kwargs, LoggedClaims(crypto, kwargs).value, now)]
    ensures r.Err? ==> db.apilogs == old(db.apilogs)
  {
    var converted := Convert(Dict(kwargs)).entries;
    if "token" !in converted {
      return Err(MissingKey);
    }
    var token := converted["token"];
    converted := converted - {"token"};
    if !token.Str? {
      return Err(NonStringToken);
    }
    var decoded := crypto.decode(token.s);
    if decoded.JwtError? {
      return Err(DecodeRaised);
    }
    var entry := LogEntry(request.httpMethod, name, converted, decoded.claims, now);
    assert entry == LogEntryFor(request, name, kwargs, decoded.claims, now);
    r := action(request, kwargs);
    if r.Ok? {
      db.apilogs := db.apilogs + [entry];
    }
  }
}
