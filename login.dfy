/** The login form: it checks that both fields are filled in, saves them through the credential
    store and signals success to its parent. The connection itself is not tried here. */
module LoginView {

  import opened Wrappers
  import opened Strings
  import opened ApiClient

  const MissingCredentials := "Please enter both API URL and Token"
  const ConnectFallback := "Failed to connect. Please check your credentials."

  /** `err.message || fallback`: the message of the caught error, or the fallback text when the
      message is empty. What the form shows is never empty. */
  function DisplayedError(message: string): (shown: string)
    ensures shown != ""
    ensures message != "" ==> shown == message
    ensures message == "" ==> shown == ConnectFallback
  {
    OrDefault(message, ConnectFallback)
  }

  class Login {
    const store: CredentialStore
    var apiUrl: string
    var apiToken: string
    var loading: bool
    var error: string
    /** The view's calls into the store and of `onLoginSuccess`, in the order they were made. */
    ghost var events: seq<ViewEvent>

    constructor (store: CredentialStore)
      ensures this.store == store
      ensures apiUrl == "" && apiToken == "" && !loading && error == "" && events == []
    {
      this.store := store;
      apiUrl, apiToken := "", "";
      loading, error := false, "";
      events := [];
    }

    /** Submitting the form. Either field empty: the form shows the validation message and the
        store is untouched. Both filled in (white space counts as filled in): the URL and then
        the token are saved, and only then is the parent signalled; in a browser every later request
        goes past the authentication check to the transport. `loading` ends cleared. */
    method HandleLogin()
      modifies this`loading, this`error, this`events, store
      ensures !loading
      ensures apiUrl == "" || apiToken == "" ==>
                error == MissingCredentials && events == old(events) &&
                unchanged(store)
      ensures apiUrl != "" && apiToken != "" ==>
                error == "" &&
                events == old(events) + [Stored(UrlSet(apiUrl)), Stored(TokenSet(apiToken)), Signalled] &&
                store.baseUrl == apiUrl && store.token == apiToken &&
                store.calls == old(store.calls) + [UrlSet(apiUrl), TokenSet(apiToken)] &&
                store.storage == if store.hasWindow
                                 then old(store.storage)[UrlKey := apiUrl][TokenKey := apiToken]
                                 else old(store.storage)
      ensures apiUrl != "" && apiToken != "" && store.hasWindow ==>
                store.GetApiUrl() == Some(apiUrl) && store.GetApiToken() == Some(apiToken) &&
                forall op, t :: store.Invoke(op, t) ==
                  Exchange(Some(Request(apiUrl, Envelope(ActionName(op), apiToken, Payload(op)))),
                           ReadResponse(t))
    {
      error := "";
      loading := true;
      if apiUrl == "" || apiToken == "" {
        error := DisplayedError(MissingCredentials);
      } else {
        store.SetApiUrl(apiUrl);
        events := events + [Stored(UrlSet(apiUrl))];
        store.SetApiToken(apiToken);
        events := events + [Stored(TokenSet(apiToken))];
        events := events + [Signalled];
      }
      loading := false;
    }
  }
}
