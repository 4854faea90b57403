/**
  The session client object: its fields are assigned step by step by the
  operations that move it between the unauthenticated and the authenticated
  state. Each method is proved to leave the fields and the store exactly as the
  corresponding function of module OdooSession says. The client's read-only
  operations (`isAuthenticated`, `makeRequest` and the calls built on it) read
  the fields only; they are the functions of that module applied to `Snapshot()`.
 */
module OdooApi {
  import opened JsValues
  import opened KeyValueStore
  import opened JsonRpc
  import OdooSession
  import ApiConfig

  class OdooAPI {
    var baseURL: Js
    var sessionId: Js
    var uid: Js
    var db: Js
    var timeout: Js

    /** The fields as a value. */
    function Snapshot(): OdooSession.Session
      reads this
    {
      OdooSession.Session(baseURL, sessionId, uid, db, timeout)
    }

    constructor ()
      ensures Snapshot() == OdooSession.Initial()
    {
      baseURL := ApiConfig.BaseURL;
      sessionId := Null;
      uid := Null;
      db := Null;
      timeout := Or(ApiConfig.Timeout, ApiConfig.FallbackTimeout);
    }

    /** `initialize(config)`. */
    method Initialize(config: Js, store: AsyncStore)
      modifies this
      ensures Snapshot() == OdooSession.Initialize(old(Snapshot()), config, store.Snapshot())
    {
      baseURL := Or(Field(config, "baseURL"), ApiConfig.BaseURL);
      db := Or(Field(config, "db"), db);
      timeout := Or(Or(Field(config, "timeout"), ApiConfig.Timeout), ApiConfig.FallbackTimeout);
      CheckStoredSession(store);
    }

    /** `checkStoredSession()`: every failure is absorbed. */
    method CheckStoredSession(store: AsyncStore)
      modifies this
      ensures Snapshot() == OdooSession.CheckStoredSession(old(Snapshot()), store.Snapshot())
    {
      var sessionData := store.GetItem(ApiConfig.SessionKey);
      match sessionData {
        case Return(Some(Json(parsed))) =>
          var read := Get(parsed, "sessionId");
          if read.Return? {
            sessionId := read.value;
            uid := Field(parsed, "uid");
            db := Field(parsed, "db");
          }
        case _ =>
          // rejected read, no entry, or text that does not parse: logged only
      }
    }

    /** `storeSession()`: a rejected write is logged only. */
    method StoreSession(store: AsyncStore)
      modifies store
      ensures store.Snapshot() == OdooSession.StoreSession(Snapshot(), old(store.Snapshot()))
    {
      var sessionData := Object3("sessionId", sessionId, "uid", uid, "db", db);
      var written := store.SetItem(ApiConfig.SessionKey, Json(Revive(sessionData)));
    }

    /** `clearSession()`: the fields are cleared only after the record was
        removed. */
    method ClearSession(store: AsyncStore)
      modifies this, store
      ensures var after := OdooSession.ClearSession(old(Snapshot()), old(store.Snapshot()));
              Snapshot() == after.session && store.Snapshot() == after.store
    {
      var removed := store.RemoveItem(ApiConfig.SessionKey);
      if removed.Return? {
        sessionId := Null;
        uid := Null;
      }
    }

    /** `login(username, password, db)`: posts `sent`, to which the transport
        answered `reply`. */
    method Login(username: Js, password: Js, dbArg: Js, id: int, reply: Reply, store: AsyncStore)
      returns (r: Outcome<Js>, sent: Post)
      modifies this, store
      ensures sent == OdooSession.LoginPost(old(Snapshot()), username, password, dbArg, id)
      ensures var after := OdooSession.Login(old(Snapshot()), old(store.Snapshot()), reply);
              Snapshot() == after.session && store.Snapshot() == after.store && r == after.result
    {
      var loginData := Request(AuthParams(Or(dbArg, db), username, password), id);
      sent := Post(Text(baseURL) + ApiConfig.AuthenticatePath, loginData);
      match reply {
        case Failed =>
          r := Throw(NetworkError);
        case Delivered(data) =>
          var result := Get(data, "result");
          if result.Throw? {
            r := Throw(result.exc);
          } else if Truthy(result.value) && Truthy(Field(result.value, "uid")) {
            sessionId := Field(result.value, "session_id");
            uid := Field(result.value, "uid");
            db := Field(result.value, "db");
            StoreSession(store);
            r := Return(Object3("success", Bool(true), "uid", uid, "db", db));
          } else {
            r := Throw(Error(Str("Authentication failed")));
          }
      }
    }

    /** `logout()`: posts `sent`; whatever `reply` the transport gave is only
        logged, and `clearSession` runs in every case. */
    method Logout(reply: Reply, store: AsyncStore) returns (sent: Post)
      modifies this, store
      ensures sent == OdooSession.LogoutPost(old(Snapshot()))
      ensures var after := OdooSession.Logout(old(Snapshot()), old(store.Snapshot()), reply);
              Snapshot() == after.session && store.Snapshot() == after.store
    {
      sent := Post(Text(baseURL) + ApiConfig.LogoutPath, Obj(map[]));
      ClearSession(store);
    }
  }

  /** A start-up followed by a login and a logout on one client and one store:
      what the callers of the client can conclude from the methods' contracts. */
  method LoginLogoutSession(config: Js, username: Js, password: Js, loginReply: Reply, logoutReply: Reply,
                            store: AsyncStore)
    returns (api: OdooAPI, loggedIn: Outcome<Js>)
    requires !store.broken
    modifies store
    ensures fresh(api)
    ensures loggedIn.Return? <==> OdooSession.Accepted(loginReply)
    ensures !OdooSession.IsAuthenticated(api.Snapshot())
    ensures ApiConfig.SessionKey !in store.items
  {
    api := new OdooAPI();
    api.Initialize(config, store);
    var sent;
    loggedIn, sent := api.Login(username, password, Undefined, 0, loginReply, store);
    sent := api.Logout(logoutReply, store);
  }
}
