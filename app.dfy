/**
  The request handlers of `aws_image_manager/main.py`: registration,
  login and the three audited resource endpoints.
 */
module App {
  import opened Wrappers
  import opened Values
  import opened Models
  import opened Store
  import opened Authentication

  const UsernameTaken := HttpError(400, "Username already registered")
  const BadCredentials := HttpError(400, "Incorrect username or password")
  /** passlib raising on a stored hash it cannot identify. */
  const UnidentifiedHash := Raised("ValueError")
  const Registered := Dict(map["msg" := Str("User registered successfully")])
  const Bearer := "bearer"

  /** The document `register` inserts for `user`. */
  function NewRecord(crypto: Crypto, user: UserCreate): (rec: UserRecord)
    ensures rec.username == user.username
    ensures rec.hashedPassword == crypto.hash(user.password)
    ensures rec.isAdmin == user.isAdmin
  {
    UserRecord(user.username, crypto.hash(user.password), user.isAdmin)
  }

  /**
    `register`, called with the caller's bearer token.  `admin_required`
    runs first.  The handler then repeats an admin check of its own when an
    admin account is requested; its outcome is `recheck` (None when it
    lets the request through).  Then the username is checked and inserted.
   */
  method Register(db: Database, crypto: Crypto, user: UserCreate, token: string, recheck: Option<Failure>)
    returns (r: Result<Value, Failure>)
    requires db.Valid()
    modifies db`users
    ensures db.Valid()
    ensures AdminRequired(crypto, old(db.users), token).Err? ==>
              r == Err(AdminRequired(crypto, old(db.users), token).error) && db.users == old(db.users)
    ensures AdminRequired(crypto, old(db.users), token).Ok? && user.isAdmin && recheck.Some? ==>
              r == Err(recheck.value) && db.users == old(db.users)
    ensures AdminRequired(crypto, old(db.users), token).Ok? && (!user.isAdmin || recheck.None?) ==>
              if user.username in old(db.users) then
                r == Err(UsernameTaken) && db.users == old(db.users)
              else
                r == Ok(Registered) && db.users == old(db.users)[user.username := NewRecord(crypto, user)]
    ensures r.Ok? ==> AdminRequired(crypto, old(db.users), token).Ok? && user.username !in old(db.users)
  {
    var caller := AdminRequired(crypto, db.users, token);
    if caller.Err? {
      return Err(caller.error);
    }
    if user.isAdmin && recheck.Some? {
      return Err(recheck.value);
    }
    if user.username in db.users {
      return Err(UsernameTaken);
    }
    db.users := db.users[user.username := NewRecord(crypto, user)];
    r := Ok(Registered);
  }

  /** The answer of a successful login. */
  datatype TokenResponse = TokenResponse(accessToken: string, tokenType: string)

  /** `login`: look the user up, check the password, issue a token for `sub`. */
  function Login(crypto: Crypto, cfg: Config, users: map<string, UserRecord>, form: LoginForm, now: int)
    : (r: Result<TokenResponse, Failure>)
    ensures r == Err(BadCredentials) <==>
              form.username !in users || crypto.verify(form.password, users[form.username].hashedPassword) == Some(false)
    ensures r == Err(UnidentifiedHash) <==>
              form.username in users && crypto.verify(form.password, users[form.username].hashedPassword).None?
    ensures r.Ok? <==>
              form.username in users && crypto.verify(form.password, users[form.username].hashedPassword) == Some(true)
    ensures r.Ok? ==>
              && r.value.tokenType == "bearer"
              && r.value.accessToken == CreateAccessToken(crypto, cfg, map["sub" := Str(form.username)], None, now)
  {
    if form.username !in users then Err(BadCredentials)
    else match crypto.verify(form.password, users[form.username].hashedPassword)
      case None => Err(UnidentifiedHash)
      case Some(matches) =>
        if !matches then Err(BadCredentials)
        else Ok(TokenResponse(CreateAccessToken(crypto, cfg, map["sub" := Str(form.username)], None, now), Bearer))
  }

  /** The three audited endpoints; `Name` is the handler's `__name__`. */
  datatype Endpoint = CreateAmi | CreateLaunchTemplate | UpdateLaunchTemplate {
    function Name(): string {
      match this
      case CreateAmi => "create_ami"
      case CreateLaunchTemplate => "create_launch_template"
      case UpdateLaunchTemplate => "update_launch_template"
    }
  }

  /**
    The body of every endpoint, `{"ok": item.dict()}`: the item's fields,
    exactly as the audit wrapper records the item.
   */
  function Respond(item: Item): (r: Value)
    ensures r.Dict? && r.entries.Keys == {"ok"}
    ensures r.entries["ok"] == Convert(item.AsObject())
  {
    var attrs := item.AsObject().attrs;
    assert Convert(item.AsObject()).entries == map k | k in attrs :: Convert(attrs[k]);
    Dict(map["ok" := item.ToDict()])
  }

  /** The keyword arguments FastAPI passes to an endpoint. */
  function EndpointKwargs(item: Item, token: string): map<string, Value> {
    map["item" := item.AsObject(), "token" := Str(token)]
  }

  /**
    A call of `endpoint` through `insert_logs`: a token that does not
    decode raises before anything happens; otherwise the response is the
    item's fields and exactly one entry, naming the endpoint and holding
    the item but not the token, is appended to the audit log.
   */
  method CallEndpoint(db: Database, crypto: Crypto, endpoint: Endpoint, request: Request,
                      item: Item, token: string, now: int)
    returns (r: Result<Value, Failure>)
    modifies db`apilogs
    ensures crypto.decode(token).JwtError? ==> r == Err(DecodeRaised) && db.apilogs == old(db.apilogs)
    ensures crypto.decode(token).Payload? ==>
              && r == Ok(Respond(item))
              && |db.apilogs| == |old(db.apilogs)| + 1
              && db.apilogs[..|old(db.apilogs)|] == old(db.apilogs)
              && var entry := db.apilogs[|old(db.apilogs)|];
                 && entry.path == endpoint.Name()
                 && entry.httpMethod == request.httpMethod
                 && entry.body == map["item" := r.value.entries["ok"]]
                 && entry.token == crypto.decode(token).claims
                 && entry.dtcollected == now
  {
    var kwargs := EndpointKwargs(item, token);
    var response := Respond(item);
    r := InsertLogs(db, crypto, endpoint.Name(), (_, _) => Ok(response), request, kwargs, now);
    if crypto.decode(token).Payload? {
      var entry := LogEntryFor(request, endpoint.Name(), kwargs, crypto.decode(token).claims, now);
      assert entry.body == map["item" := Convert(item.AsObject())];
    }
  }

  /**
    A token issued by `login` passes `admin_required` exactly when the user
    is an admin, provided the decoder gives back the claims that were
    encoded (signature and expiry accepted).
   */
  lemma LoginTokenPassesAdminGate(crypto: Crypto, cfg: Config, users: map<string, UserRecord>, form: LoginForm, now: int)
    requires Login(crypto, cfg, users, form, now).Ok?
    requires var claims := TokenClaims(cfg, map["sub" := Str(form.username)], None, now);
             crypto.decode(crypto.encode(claims)) == Payload(claims)
    ensures var token := Login(crypto, cfg, users, form, now).value.accessToken;
            && (AdminRequired(crypto, users, token).Ok? <==> users[form.username].isAdmin)
            && (AdminRequired(crypto, users, token).Ok? ==> AdminRequired(crypto, users, token).value == users[form.username])
            && (!users[form.username].isAdmin ==> AdminRequired(crypto, users, token) == Err(AdminAccessRequired))
  {
  }

  /**
    The account a successful registration stores can log in with its
    password, provided the hasher accepts a password against its own hash.
   */
  lemma RegisteredUserCanLogIn(crypto: Crypto, cfg: Config, users: map<string, UserRecord>, user: UserCreate, now: int)
    requires crypto.verify(user.password, crypto.hash(user.password)) == Some(true)
    ensures var stored := users[user.username := NewRecord(crypto, user)];
            Login(crypto, cfg, stored, LoginForm(user.username, user.password), now)
              == Ok(TokenResponse(CreateAccessToken(crypto, cfg, map["sub" := Str(user.username)], None, now), Bearer))
  {
  }

  /**
    No user can be registered into an empty store: every registration needs
    an admin caller, and an empty users collection holds no admin, so the
    first registration always fails, with 401 for a bad token and 403
    otherwise.
   */
  lemma FirstUserCannotRegister(crypto: Crypto, token: string)
    ensures AdminRequired(crypto, map[], token).Err?
    ensures VerifyToken(crypto, token).Some? ==> AdminRequired(crypto, map[], token) == Err(AdminAccessRequired)
  {
  }
}
