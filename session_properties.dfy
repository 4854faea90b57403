/**
  Properties relating the session client's operations to one another:
  persistence round trips, what login and logout leave behind, and worked
  examples of requests and replies.
 */
module SessionProperties {
  import opened JsValues
  import opened KeyValueStore
  import opened JsonRpc
  import opened OdooSession
  import ApiConfig

  // ---------------------------------------------------------------------------
  // Persistence

  /** Restoring from what `storeSession` wrote gives back each field as JSON
      round-trips it, whatever the fields were before the restore. */
  lemma StoreThenRestore(s: Session, st: Store, t: Session)
    requires !st.broken
    ensures CheckStoredSession(t, StoreSession(s, st))
            == t.(sessionId := Revive(s.sessionId), uid := Revive(s.uid), db := Revive(s.db))
  {
  }

  /** Session fields that JSON represents exactly (strings, numbers, null, and
      `undefined`, which is dropped and reads back as `undefined`). */
  predicate StorableFields(s: Session) {
    JsonExact(s.sessionId) && JsonExact(s.uid) && JsonExact(s.db)
  }

  /** Storing then restoring brings back the same session id, user id and
      database. */
  lemma StoreThenRestoreExact(s: Session, st: Store, t: Session)
    requires !st.broken && StorableFields(s)
    ensures var r := CheckStoredSession(t, StoreSession(s, st));
            r.sessionId == s.sessionId && r.uid == s.uid && r.db == s.db
    ensures CheckStoredSession(t, StoreSession(s, st)).baseURL == t.baseURL
  {
    StoreThenRestore(s, st, t);
    ReviveExact(s.sessionId);
    ReviveExact(s.uid);
    ReviveExact(s.db);
  }

  /** The same round trip with the restore done by `initialize`: its
      configuration then decides only the base URL and the timeout. */
  lemma StoreThenInitialize(s: Session, st: Store, t: Session, config: Js)
    requires !st.broken && StorableFields(s)
    ensures var r := Initialize(t, config, StoreSession(s, st));
            r.sessionId == s.sessionId && r.uid == s.uid && r.db == s.db
            && (IsAuthenticated(r) <==> IsAuthenticated(s))
  {
    var configured := t.(baseURL := Or(Field(config, "baseURL"), ApiConfig.BaseURL),
                         db := Or(Field(config, "db"), t.db),
                         timeout := Or(Or(Field(config, "timeout"), ApiConfig.Timeout), ApiConfig.FallbackTimeout));
    StoreThenRestoreExact(s, st, configured);
  }

  /** A second restore from the same store changes nothing more. */
  lemma RestoreIdempotent(s: Session, st: Store)
    ensures CheckStoredSession(CheckStoredSession(s, st), st) == CheckStoredSession(s, st)
  {
  }

  /** Without a readable record, startup keeps the fields it had: a client that
      was not authenticated stays unauthenticated. */
  lemma RestoreWithoutRecord(s: Session, st: Store)
    requires st.broken || ApiConfig.SessionKey !in st.items || st.items[ApiConfig.SessionKey] == Malformed
    ensures CheckStoredSession(s, st) == s
  {
  }

  // ---------------------------------------------------------------------------
  // Login

  /** After an accepted login the client is authenticated exactly when the
      result carried a non-null `session_id` (its `uid` is truthy, hence not
      null); after a rejected one it is authenticated exactly when it was
      before. */
  lemma LoginAuthenticates(s: Session, st: Store, reply: Reply)
    ensures var r := Login(s, st, reply);
            Accepted(reply) ==>
              (IsAuthenticated(r.session) <==> Field(Field(reply.data, "result"), "session_id") != Null)
    ensures !Accepted(reply) ==> (IsAuthenticated(Login(s, st, reply).session) <==> IsAuthenticated(s))
  {
  }

  /** An accepted login is persisted: a later startup restores the session id,
      user id and database the server returned, when the store accepted the
      write and the values are ones JSON represents exactly. */
  lemma LoginThenRestore(s: Session, st: Store, reply: Reply, t: Session)
    requires Accepted(reply) && !st.broken
    requires StorableFields(Login(s, st, reply).session)
    ensures var after := Login(s, st, reply);
            var restored := CheckStoredSession(t, after.store);
            restored.sessionId == after.session.sessionId
            && restored.uid == after.session.uid && restored.db == after.session.db
  {
    var after := Login(s, st, reply);
    StoreThenRestoreExact(after.session, st, t);
  }

  /** A login whose result has `uid: 0` is rejected like a missing one. */
  lemma ZeroUidRejected(s: Session, st: Store, sessionId: Js, db: Js)
    ensures var reply := Delivered(Obj(map["result" := Object3("uid", Num(0), "session_id", sessionId, "db", db)]));
            Login(s, st, reply) == After(s, st, Throw(Error(Str("Authentication failed"))))
  {
  }

  /** A result without `session_id` is accepted and leaves the session id
      `undefined`, which `isAuthenticated` counts as present. */
  lemma LoginWithoutSessionId(s: Session, st: Store, uid: int, db: Js)
    requires uid != 0
    ensures var r := Login(s, st, Delivered(Obj(map["result" := Obj(map["uid" := Num(uid), "db" := db])])));
            r.result.Return? && r.session.sessionId == Undefined && IsAuthenticated(r.session)
  {
  }

  /** The accepted reply `{result: {uid: 7, session_id: "abc", db: "mycompany"}}`
      authenticates with those values and persists them. */
  lemma LoginExample(s: Session, st: Store)
    requires !st.broken
    ensures var reply := Delivered(Obj(map["result" :=
              Object3("uid", Num(7), "session_id", Str("abc"), "db", Str("mycompany"))]));
            var r := Login(s, st, reply);
            && r.session == s.(sessionId := Str("abc"), uid := Num(7), db := Str("mycompany"))
            && IsAuthenticated(r.session)
            && r.result == Return(Object3("success", Bool(true), "uid", Num(7), "db", Str("mycompany")))
            && ItemRead(r.store, ApiConfig.SessionKey)
               == Return(Some(Json(Object3("sessionId", Str("abc"), "uid", Num(7), "db", Str("mycompany")))))
  {
    var rec := Object3("sessionId", Str("abc"), "uid", Num(7), "db", Str("mycompany"));
    assert JsonExact(rec);
    ReviveExact(rec);
  }

  // ---------------------------------------------------------------------------
  // Logout

  /** Logout's effect does not depend on the reply to its request. */
  lemma LogoutIgnoresReply(s: Session, st: Store, reply1: Reply, reply2: Reply)
    ensures Logout(s, st, reply1) == Logout(s, st, reply2)
  {
  }

  /** After a logout whose record deletion succeeded, a later startup finds no
      record and does not authenticate again. */
  lemma LogoutThenRestore(s: Session, st: Store, reply: Reply, t: Session)
    requires !st.broken
    ensures CheckStoredSession(t, Logout(s, st, reply).store) == t
  {
  }

  /** Logging in and then out (with a working store) leaves the client
      unauthenticated, keeping the database the server returned. */
  lemma LoginThenLogout(s: Session, st: Store, reply: Reply, logoutReply: Reply)
    requires Accepted(reply) && !st.broken
    ensures var inSession := Login(s, st, reply);
            var out := Logout(inSession.session, inSession.store, logoutReply);
            !IsAuthenticated(out.session) && out.session.db == Field(Field(reply.data, "result"), "db")
  {
  }

  /** With a store that rejects every call, as one reached through an import
      that binds nothing does, an accepted login followed by a logout leaves
      the client authenticated, and nothing was ever persisted. */
  lemma LoginThenLogoutBrokenStore(s: Session, st: Store, reply: Reply, logoutReply: Reply)
    requires Accepted(reply) && st.broken
    requires Field(Field(reply.data, "result"), "session_id") != Null
    ensures var inSession := Login(s, st, reply);
            var out := Logout(inSession.session, inSession.store, logoutReply);
            IsAuthenticated(out.session) && out.store == st
            && ItemRead(out.store, ApiConfig.SessionKey) == Throw(StorageError)
  {
  }

  // ---------------------------------------------------------------------------
  // Calls

  /** `searchRead('res.partner', [], ['name'], 0, 80, '')` posts method
      `search_read` with exactly those five arguments after the session prefix. */
  lemma SearchReadExample(s: Session, id: int, reply: Reply)
    requires IsAuthenticated(s)
    ensures var r := SearchRead(s, Str("res.partner"), Arr([]), Arr([Str("name")]), Num(0), Num(80), Str(""), id, reply);
            DecodeObjectCall(r.sent.value.body)
            == Some(ObjectCall(Str("search_read"),
                               [s.db, s.uid, s.sessionId, Str("res.partner"),
                                Arr([]), Arr([Str("name")]), Num(0), Num(80), Str("")],
                               Obj(map[])))
  {
    assert [s.db, s.uid, s.sessionId, Str("res.partner")] + [Arr([]), Arr([Str("name")]), Num(0), Num(80), Str("")]
           == [s.db, s.uid, s.sessionId, Str("res.partner"), Arr([]), Arr([Str("name")]), Num(0), Num(80), Str("")];
  }

  /** Omitted `searchRead` arguments take the defaults `[]`, `[]`, `0`, `80`, `''`. */
  lemma SearchReadDefaults(s: Session, model: Js, id: int, reply: Reply)
    ensures SearchRead(s, model, Undefined, Undefined, Undefined, Undefined, Undefined, id, reply)
            == SearchRead(s, model, Arr([]), Arr([]), Num(0), Num(80), Str(""), id, reply)
  {
  }

  /** A server error response shaped as the server sends it,
      `{error: {code: 200, message: "Access Denied", data: ...}}`, fails any
      call with that message, whatever the `data` member holds. */
  lemma ServerErrorExample(s: Session, model: Js, name: Js, args: seq<Js>, kwargs: Js, id: int, data: Js, replyId: int)
    requires IsAuthenticated(s)
    ensures var error := map["code" := Num(200), "message" := Str("Access Denied"), "data" := data];
            MakeRequest(s, model, name, Arr(args), kwargs, id, Delivered(ErrorResponse(error, replyId))).result
            == Throw(Error(Str("Access Denied")))
  {
  }

  /** An authenticated call returns the result member of a success response
      unchanged. */
  lemma CallReturnsResult(s: Session, model: Js, name: Js, args: seq<Js>, kwargs: Js, id: int, result: Js, replyId: int)
    requires IsAuthenticated(s)
    ensures MakeRequest(s, model, name, Arr(args), kwargs, id,
                        Delivered(ResultResponse(result, replyId))).result
            == Return(result)
  {
  }
}
