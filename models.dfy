/**
  The records the service stores and exchanges: the request models, the
  user document of the users collection and the audit entry of the
  apilogs collection.
 */
module Models {
  import opened Values

  /** A decoded token payload: the JSON object a token carries. */
  type Claims = map<string, Value>

  /** What the handlers use of the incoming HTTP request. */
  datatype Request = Request(httpMethod: string)

  /** A document of the users collection. */
  datatype UserRecord = UserRecord(username: string, hashedPassword: string, isAdmin: bool)

  /** The registration request body; `isAdmin` defaults to false in the source. */
  datatype UserCreate = UserCreate(username: string, password: string, isAdmin: bool)

  /** The login form. */
  datatype LoginForm = LoginForm(username: string, password: string)

  /** A document of the apilogs collection. */
  datatype LogEntry = LogEntry(
    httpMethod: string,
    path: string,
    body: map<string, Value>,
    token: Claims,
    dtcollected: int)

  /**
    The item of a resource endpoint: a Pydantic model instance whose fields
    all hold strings.
   */
  datatype Item = Item(fields: map<string, string>) {

    /** The instance as the normaliser sees it: an object with a `__dict__`. */
    function AsObject(): Value {
      Obj(false, map k | k in fields :: Str(fields[k]))
    }

    /** `item.dict()`: the model's fields as a dictionary. */
    function ToDict(): Value {
      Dict(map k | k in fields :: Str(fields[k]))
    }
  }
}
