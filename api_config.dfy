/** The constants of the client's configuration object that the call path reads. */
module ApiConfig {
  import opened JsValues

  /** Production server URL. */
  const BaseURL: Js := Str("https://ilimasu.ru.tuna.am")

  const AuthenticatePath: string := "/web/session/authenticate"
  const LogoutPath: string := "/web/session/logout"
  const ObjectPath: string := "/xmlrpc/2/object"

  /** Request timeout in milliseconds. */
  const Timeout: Js := Num(30000)

  /** The timeout the client falls back to when the configuration has none. */
  const FallbackTimeout: Js := Num(30000)

  /** Page size `searchRead` uses when the caller gives no limit. */
  const SearchReadLimit: int := 80

  /** Key under which the session record is persisted. */
  const SessionKey: string := "odoo_session"
}
