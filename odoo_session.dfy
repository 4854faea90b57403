/**
  The session client's behaviour as functions of its fields (`Session`) and of the
  key-value store: the transitions `initialize`, `checkStoredSession`,
  `storeSession`, `clearSession`, `login` and `logout` make, the `isAuthenticated`
  predicate, and the requests `makeRequest` and its convenience operations send.
  The class in module OdooApi is proved to follow these functions.
 */
module OdooSession {
  import opened JsValues
  import opened KeyValueStore
  import opened JsonRpc
  import ApiConfig

  /** The client's fields. */
  datatype Session = Session(baseURL: Js, sessionId: Js, uid: Js, db: Js, timeout: Js)

  /** Fields, store and settled outcome after an operation. */
  datatype After<+T> = After(session: Session, store: Store, result: T)

  /** What `makeRequest` posted (`None` when it posted nothing) and how it settled. */
  datatype Exchange = Exchange(sent: Option<Post>, result: Outcome<Js>)

  /** The fields as the constructor sets them. */
  function Initial(): (s: Session)
    ensures !IsAuthenticated(s)
    ensures s.baseURL == ApiConfig.BaseURL && s.timeout == Num(30000) && s.db == Null
  {
    Session(ApiConfig.BaseURL, Null, Null, Null, Or(ApiConfig.Timeout, ApiConfig.FallbackTimeout))
  }

  /** `isAuthenticated()`: neither the session id nor the user id is `null`
      (strict inequality, so `undefined` counts as present). */
  predicate IsAuthenticated(s: Session) {
    s.sessionId != Null && s.uid != Null
  }

  // ---------------------------------------------------------------------------
  // Persistence

  /** The record `storeSession` serialises. */
  function SessionRecord(s: Session): Js {
    Object3("sessionId", s.sessionId, "uid", s.uid, "db", s.db)
  }

  /** `storeSession()`: writes the JSON text of the record under the session
      key; a rejected write is logged and the store stays as it was. */
  function StoreSession(s: Session, st: Store): (r: Store)
    ensures r.broken == st.broken
    ensures !st.broken ==> ItemRead(r, ApiConfig.SessionKey) == Return(Some(Json(Revive(SessionRecord(s)))))
    ensures st.broken ==> r == st
    ensures forall k :: k != ApiConfig.SessionKey ==> ItemRead(r, k) == ItemRead(st, k)
  {
    ItemWritten(st, ApiConfig.SessionKey, Json(Revive(SessionRecord(s))))
  }

  /** Whether a read of the session key succeeds and yields text that parses
      to a value other than `null`: the only case in which a restore takes place. */
  predicate HoldsRecord(st: Store) {
    && !st.broken
    && ApiConfig.SessionKey in st.items
    && st.items[ApiConfig.SessionKey].Json?
    && !st.items[ApiConfig.SessionKey].doc.Nullish()
  }

  /** `checkStoredSession()`: copies `sessionId`, `uid` and `db` from the stored
      record when one can be read and parsed; a rejected read, a missing or
      empty entry, text that does not parse, and a record that parses to `null`
      are all absorbed and leave the fields as they were. */
  function CheckStoredSession(s: Session, st: Store): (r: Session)
    ensures r.baseURL == s.baseURL && r.timeout == s.timeout
    ensures !HoldsRecord(st) ==> r == s
    ensures HoldsRecord(st) ==>
              var parsed := st.items[ApiConfig.SessionKey].doc;
              r == s.(sessionId := Field(parsed, "sessionId"), uid := Field(parsed, "uid"), db := Field(parsed, "db"))
  {
    match ItemRead(st, ApiConfig.SessionKey)
    case Throw(_) => s
    case Return(None) => s
    case Return(Some(Malformed)) => s
    case Return(Some(Json(parsed))) =>
      match Get(parsed, "sessionId")
      case Throw(_) => s
      case Return(sessionId) => s.(sessionId := sessionId, uid := Field(parsed, "uid"), db := Field(parsed, "db"))
  }

  /** `clearSession()`: removes the stored record, and only once that succeeded
      sets the session id and user id to `null`; `db` is kept either way. */
  function ClearSession(s: Session, st: Store): (r: After<()>)
    ensures r.session.baseURL == s.baseURL && r.session.db == s.db && r.session.timeout == s.timeout
    ensures !st.broken ==> r.session.sessionId == Null && r.session.uid == Null
    ensures !st.broken ==> ItemRead(r.store, ApiConfig.SessionKey) == Return(None)
                           && r.store == ItemRemoved(st, ApiConfig.SessionKey)
    ensures st.broken ==> r.session == s && r.store == st
  {
    if st.broken then After(s, st, ())
    else After(s.(sessionId := Null, uid := Null), ItemRemoved(st, ApiConfig.SessionKey), ())
  }

  /** `initialize(config)`: base URL, database and timeout from the
      configuration (each a `||` fallback, so falsy overrides are ignored), then
      the stored session is restored. */
  function Initialize(s: Session, config: Js, st: Store): (r: Session)
    ensures Truthy(r.baseURL) && Truthy(r.timeout)
    ensures r.baseURL == (if Truthy(Field(config, "baseURL")) then Field(config, "baseURL") else ApiConfig.BaseURL)
    ensures r.timeout == (if Truthy(Field(config, "timeout")) then Field(config, "timeout") else Num(30000))
    ensures !HoldsRecord(st) ==>
              && r.db == (if Truthy(Field(config, "db")) then Field(config, "db") else s.db)
              && r.sessionId == s.sessionId && r.uid == s.uid
    ensures HoldsRecord(st) ==>
              var parsed := st.items[ApiConfig.SessionKey].doc;
              r.sessionId == Field(parsed, "sessionId") && r.uid == Field(parsed, "uid") && r.db == Field(parsed, "db")
  {
    var configured := s.(baseURL := Or(Field(config, "baseURL"), ApiConfig.BaseURL),
                         db := Or(Field(config, "db"), s.db),
                         timeout := Or(Or(Field(config, "timeout"), ApiConfig.Timeout), ApiConfig.FallbackTimeout));
    CheckStoredSession(configured, st)
  }

  // ---------------------------------------------------------------------------
  // Login and logout

  /** The request `login` posts: the authentication envelope, whose database is
      the argument or, when that is falsy, the current `db`. */
  function LoginPost(s: Session, username: Js, password: Js, db: Js, id: int): (p: Post)
    ensures p.url == Text(s.baseURL) + ApiConfig.AuthenticatePath
    ensures DecodeAuthCall(p.body) == Some(AuthCall(if Truthy(db) then db else s.db, username, password))
  {
    AuthRequestDecodes(Or(db, s.db), username, password, id);
    Post(Text(s.baseURL) + ApiConfig.AuthenticatePath, Request(AuthParams(Or(db, s.db), username, password), id))
  }

  /** Whether a login reply is accepted: delivered, with a truthy `result`
      whose `uid` is truthy (so a `uid` of 0 is rejected). */
  predicate Accepted(reply: Reply) {
    reply.Delivered? && !reply.data.Nullish()
    && Truthy(Field(reply.data, "result")) && Truthy(Field(Field(reply.data, "result"), "uid"))
  }

  /** `login(...)` after the request was posted and `reply` came back. On an
      accepted reply the session id, user id and database are taken from the
      result, persisted, and `{success: true, uid, db}` is returned; otherwise
      the call rejects and nothing changes. */
  function Login(s: Session, st: Store, reply: Reply): (r: After<Outcome<Js>>)
    ensures r.result.Return? <==> Accepted(reply)
    ensures r.result.Throw? ==> r.session == s && r.store == st
    ensures reply.Failed? ==> r.result == Throw(NetworkError)
    ensures reply.Delivered? && reply.data.Nullish() ==> r.result == Throw(TypeError)
    ensures reply.Delivered? && !reply.data.Nullish() && !Accepted(reply)
            ==> r.result == Throw(Error(Str("Authentication failed")))
    ensures Accepted(reply) ==>
              var result := Field(reply.data, "result");
              && r.session == s.(sessionId := Field(result, "session_id"), uid := Field(result, "uid"),
                                 db := Field(result, "db"))
              && r.store == StoreSession(r.session, st)
              && r.result == Return(Object3("success", Bool(true), "uid", r.session.uid, "db", r.session.db))
  {
    match reply
    case Failed => After(s, st, Throw(NetworkError))
    case Delivered(data) =>
      match Get(data, "result")
      case Throw(e) => After(s, st, Throw(e))
      case Return(result) =>
        if Truthy(result) && Truthy(Field(result, "uid")) then
          var session := s.(sessionId := Field(result, "session_id"), uid := Field(result, "uid"),
                            db := Field(result, "db"));
          After(session, StoreSession(session, st),
                Return(Object3("success", Bool(true), "uid", session.uid, "db", session.db)))
        else
          After(s, st, Throw(Error(Str("Authentication failed"))))
  }

  /** The request `logout` posts. */
  function LogoutPost(s: Session): (p: Post)
    ensures p.url == Text(s.baseURL) + ApiConfig.LogoutPath && p.body == Obj(map[])
  {
    Post(Text(s.baseURL) + ApiConfig.LogoutPath, Obj(map[]))
  }

  /** `logout()` after its request settled with `reply`: the reply, failure
      included, is only logged, then `clearSession` runs; it never rejects. */
  function Logout(s: Session, st: Store, reply: Reply): (r: After<Outcome<Js>>)
    ensures r.result == Return(Undefined)
    ensures r.session.db == s.db
    ensures !st.broken ==> !IsAuthenticated(r.session)
    ensures !st.broken ==> r.session == s.(sessionId := Null, uid := Null)
                           && r.store == ItemRemoved(st, ApiConfig.SessionKey)
                           && ItemRead(r.store, ApiConfig.SessionKey) == Return(None)
    ensures st.broken ==> r.session == s && r.store == st
  {
    var cleared := ClearSession(s, st);
    After(cleared.session, cleared.store, Return(Undefined))
  }

  // ---------------------------------------------------------------------------
  // Authenticated calls

  /** The rejection of a call made while not authenticated. */
  const NotAuthenticated: Outcome<Js> := Throw(Error(Str("Not authenticated")))

  /** `makeRequest(model, method, args, kwargs = {})`: refuses before building
      anything when not authenticated; otherwise posts the object-service
      envelope whose arguments are `[db, uid, sessionId, model, ...args]` and
      settles as the reply is read. Spreading a non-iterable `args` throws
      before anything is posted. */
  function MakeRequest(s: Session, model: Js, name: Js, args: Js, kwargs: Js, id: int, reply: Reply): (r: Exchange)
    ensures !IsAuthenticated(s) ==> r == Exchange(None, NotAuthenticated)
    ensures IsAuthenticated(s) && !(args.Arr? || args.Str?) ==> r == Exchange(None, Throw(TypeError))
    ensures r.sent.Some? ==>
              && r.sent.value.url == Text(s.baseURL) + ApiConfig.ObjectPath
              && DecodeObjectCall(r.sent.value.body)
                 == Some(ObjectCall(name, [s.db, s.uid, s.sessionId, model] + Spread(args).value,
                                    Default(kwargs, Obj(map[]))))
              && r.result == Answer(reply)
    ensures IsAuthenticated(s) && (args.Arr? || args.Str?) ==> r.sent.Some?
    ensures r.sent.None? ==> r.result.Throw?
  {
    if !IsAuthenticated(s) then Exchange(None, NotAuthenticated)
    else
      match Spread(args)
      case Throw(e) => Exchange(None, Throw(e))
      case Return(extra) =>
        var callArgs := [s.db, s.uid, s.sessionId, model] + extra;
        var kw := Default(kwargs, Obj(map[]));
        ObjectRequestDecodes(name, callArgs, kw, id);
        var body := Request(ObjectParams(name, callArgs, kw), id);
        Exchange(Some(Post(Text(s.baseURL) + ApiConfig.ObjectPath, body)), Answer(reply))
  }

  /** Whether `r` is the exchange of an authenticated object call that posted
      the object-service request for `name` with the session prefix followed by
      `extra`, with keyword arguments `kwargs`, and settled as `reply` reads. */
  predicate Sends(s: Session, r: Exchange, model: Js, name: Js, extra: seq<Js>, kwargs: Js, reply: Reply) {
    && r.sent.Some?
    && r.sent.value.url == Text(s.baseURL) + ApiConfig.ObjectPath
    && DecodeObjectCall(r.sent.value.body)
       == Some(ObjectCall(name, [s.db, s.uid, s.sessionId, model] + extra, kwargs))
    && r.result == Answer(reply)
  }

  /** `searchRead(model, domain = [], fields = [], offset = 0, limit = 80, order = '')`. */
  function SearchRead(s: Session, model: Js, domain: Js, fields: Js, offset: Js, limit: Js, order: Js,
                      id: int, reply: Reply): (r: Exchange)
    ensures !IsAuthenticated(s) ==> r == Exchange(None, NotAuthenticated)
    ensures IsAuthenticated(s) ==>
      Sends(s, r, model, Str("search_read"),
            [Default(domain, Arr([])), Default(fields, Arr([])), Default(offset, Num(0)),
             Default(limit, Num(ApiConfig.SearchReadLimit)), Default(order, Str(""))],
            Obj(map[]), reply)
  {
    MakeRequest(s, model, Str("search_read"),
                Arr([Default(domain, Arr([])), Default(fields, Arr([])), Default(offset, Num(0)),
                     Default(limit, Num(ApiConfig.SearchReadLimit)), Default(order, Str(""))]),
                Undefined, id, reply)
  }

  /** `searchCount(model, domain = [])`. */
  function SearchCount(s: Session, model: Js, domain: Js, id: int, reply: Reply): (r: Exchange)
    ensures !IsAuthenticated(s) ==> r == Exchange(None, NotAuthenticated)
    ensures IsAuthenticated(s) ==>
      Sends(s, r, model, Str("search_count"), [Default(domain, Arr([]))], Obj(map[]), reply)
  {
    MakeRequest(s, model, Str("search_count"), Arr([Default(domain, Arr([]))]), Undefined, id, reply)
  }

  /** `create(model, data)`. */
  function Create(s: Session, model: Js, data: Js, id: int, reply: Reply): (r: Exchange)
    ensures !IsAuthenticated(s) ==> r == Exchange(None, NotAuthenticated)
    ensures IsAuthenticated(s) ==> Sends(s, r, model, Str("create"), [data], Obj(map[]), reply)
  {
    MakeRequest(s, model, Str("create"), Arr([data]), Undefined, id, reply)
  }

  /** `write(model, id, data)`: a single record id, wrapped in a list. */
  function Write(s: Session, model: Js, recordId: Js, data: Js, id: int, reply: Reply): (r: Exchange)
    ensures !IsAuthenticated(s) ==> r == Exchange(None, NotAuthenticated)
    ensures IsAuthenticated(s) ==> Sends(s, r, model, Str("write"), [Arr([recordId]), data], Obj(map[]), reply)
  {
    MakeRequest(s, model, Str("write"), Arr([Arr([recordId]), data]), Undefined, id, reply)
  }

  /** `unlink(model, id)`. */
  function Unlink(s: Session, model: Js, recordId: Js, id: int, reply: Reply): (r: Exchange)
    ensures !IsAuthenticated(s) ==> r == Exchange(None, NotAuthenticated)
    ensures IsAuthenticated(s) ==> Sends(s, r, model, Str("unlink"), [Arr([recordId])], Obj(map[]), reply)
  {
    MakeRequest(s, model, Str("unlink"), Arr([Arr([recordId])]), Undefined, id, reply)
  }

  /** `execute(model, method, args = [], kwargs = {})`: any method, with the
      caller's arguments and keyword arguments passed through. */
  function Execute(s: Session, model: Js, name: Js, args: Js, kwargs: Js, id: int, reply: Reply): (r: Exchange)
    ensures !IsAuthenticated(s) ==> r == Exchange(None, NotAuthenticated)
    ensures IsAuthenticated(s) && args.Undefined? ==>
      Sends(s, r, model, name, [], Default(kwargs, Obj(map[])), reply)
    ensures IsAuthenticated(s) && args.Arr? ==>
      Sends(s, r, model, name, args.items, Default(kwargs, Obj(map[])), reply)
    ensures IsAuthenticated(s) && args.Str? ==>
      Sends(s, r, model, name, seq(|args.s|, i requires 0 <= i < |args.s| => Str([args.s[i]])),
            Default(kwargs, Obj(map[])), reply)
    ensures IsAuthenticated(s) && (args.Null? || args.Bool? || args.Num? || args.Obj?) ==>
      r == Exchange(None, Throw(TypeError))
  {
    MakeRequest(s, model, name, Default(args, Arr([])), Default(kwargs, Obj(map[])), id, reply)
  }
}
