/**
 * Shared vocabulary of the views: optional values, the outcome of an HTTP
 * request, the effects a handler leaves behind (requests, redirects, timers),
 * and the browser's key/value session store.
 */
module Support {

  datatype Option<+T> = None | Some(value: T)

  /** JavaScript truthiness of a value that is either a string or null/undefined. */
  predicate Truthy(s: Option<string>) {
    s.Some? && s.value != ""
  }

  /** The expression `s || fallback` for a string-or-missing value. */
  function OrElse(s: Option<string>, fallback: string): string {
    if Truthy(s) then s.value else fallback
  }

  /**
   * Why an axios request was rejected: the server answered outside 2xx
   * (`error.response`, with the status text and the optional `message` and
   * `error` fields of its JSON body), no answer came back (`error.request`),
   * or the request could not be set up (`error.message`).
   */
  datatype Failure =
    | ErrorResponse(statusText: string, message: Option<string>, error: Option<string>)
    | NoResponse
    | SetupError(reason: string)

  /** The settled outcome of one awaited request. */
  datatype Reply<+T> = Ok(data: T) | Fail(failure: Failure)

  /** `error.response?.data?.message` */
  function ServerMessage(f: Failure): Option<string> {
    if f.ErrorResponse? then f.message else None
  }

  /**
   * What a handler leaves for the browser to do: a request it issued, an
   * immediate navigation, a navigation after a timer (optionally storing a
   * flash message under `orderSuccessMessage` first), or a timer that clears
   * the view's message.
   */
  datatype Effect<+R> =
    | Send(request: R)
    | Navigate(path: string)
    | NavigateLater(delayMs: nat, path: string, flash: Option<string>)
    | ClearMessageLater(delayMs: nat)

  /** The browser's localStorage, read by the views as a string-to-string map. */
  type Store = map<string, string>

  /** `localStorage.getItem(key)`: the stored string, or null. */
  function Lookup(store: Store, key: string): (r: Option<string>)
    ensures r.Some? <==> key in store
    ensures r.Some? ==> r.value == store[key]
  {
    if key in store then Some(store[key]) else None
  }

  const LoginPath := "/login"
  /** The delay before a "please login" message turns into a redirect. */
  const LoginRedirectDelay: nat := 2000
  /** The delay after which a transient success or failure message is cleared. */
  const MessageClearDelay: nat := 3000
}
