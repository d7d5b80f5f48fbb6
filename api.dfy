/** The API client of src/lib/api.ts: the token gate and response handling
    of fetchWithAuth, the user-facing error messages, and logout. The token
    cookie is a field of the client; the server's reply is a parameter. */
module Api {
  import opened Wrappers
  import opened Text

  // ---------------------------------------------------------------------
  // Error messages
  // ---------------------------------------------------------------------

  const CredentialsMessage := "Invalid email or password. Please check your credentials and try again."
  const ExistsMessage := "An account with this email already exists. Please try logging in instead."
  const WeakPasswordMessage := "Password is too weak. Please use at least 8 characters with a mix of letters and numbers."
  const InvalidEmailMessage := "Please enter a valid email address."
  const ConnectionMessage := "Connection error. Please check your internet connection and try again."
  const ServerMessage := "Server error. Please try again later or contact support if the problem persists."
  const NotFoundMessage := "The requested resource was not found."
  const ForbiddenMessage := "You do not have permission to perform this action."
  const GenericMessage := "An unexpected error occurred. Please try again."

  /** `error.toLowerCase().includes(p)` for a lower-case `p`. */
  predicate Mentions(error: string, p: string)
    ensures Contains(error, p) && ToLower(p) == p ==> Mentions(error, p)
  {
    if Contains(error, p) && ToLower(p) == p then
      ContainsLowered(error, p);
      Contains(ToLower(error), p)
    else
      Contains(ToLower(error), p)
  }

  predicate CredentialsRule(error: string, status: Option<int>) {
    Mentions(error, "invalid login credentials")
    || Mentions(error, "invalid email or password")
    || status == Some(401)
  }

  predicate ExistsRule(error: string) {
    Mentions(error, "user already exists") || Mentions(error, "email already in use")
  }

  predicate WeakPasswordRule(error: string) { Mentions(error, "weak password") }

  predicate InvalidEmailRule(error: string) { Mentions(error, "invalid email") }

  predicate ConnectionRule(error: string) {
    Mentions(error, "network") || Mentions(error, "fetch")
  }

  /** No rule applies to the text or the status. */
  predicate NoRule(error: string, status: Option<int>) {
    && !CredentialsRule(error, status) && !ExistsRule(error) && !WeakPasswordRule(error)
    && !InvalidEmailRule(error) && !ConnectionRule(error)
    && status != Some(500) && status != Some(404) && status != Some(403)
  }

  /** mapErrorMessage: the first matching rule decides. */
  function MapErrorMessage(error: string, status: Option<int>): (m: string)
    ensures CredentialsRule(error, status) ==> m == CredentialsMessage
    ensures !CredentialsRule(error, status) && ExistsRule(error) ==> m == ExistsMessage
    ensures (!CredentialsRule(error, status) && !ExistsRule(error)
             && WeakPasswordRule(error)) ==> m == WeakPasswordMessage
    ensures (!CredentialsRule(error, status) && !ExistsRule(error) && !WeakPasswordRule(error)
             && InvalidEmailRule(error)) ==> m == InvalidEmailMessage
    ensures (!CredentialsRule(error, status) && !ExistsRule(error) && !WeakPasswordRule(error)
             && !InvalidEmailRule(error) && ConnectionRule(error)) ==> m == ConnectionMessage
    ensures (!CredentialsRule(error, status) && !ExistsRule(error) && !WeakPasswordRule(error)
             && !InvalidEmailRule(error) && !ConnectionRule(error)
             && status == Some(500)) ==> m == ServerMessage
    ensures (!CredentialsRule(error, status) && !ExistsRule(error) && !WeakPasswordRule(error)
             && !InvalidEmailRule(error) && !ConnectionRule(error)
             && status == Some(404)) ==> m == NotFoundMessage
    ensures (!CredentialsRule(error, status) && !ExistsRule(error) && !WeakPasswordRule(error)
             && !InvalidEmailRule(error) && !ConnectionRule(error)
             && status == Some(403)) ==> m == ForbiddenMessage
    ensures NoRule(error, status) ==> m == (if error == "" then GenericMessage else error)
    ensures m != ""
  {
    if CredentialsRule(error, status) then CredentialsMessage
    else if ExistsRule(error) then ExistsMessage
    else if WeakPasswordRule(error) then WeakPasswordMessage
    else if InvalidEmailRule(error) then InvalidEmailMessage
    else if ConnectionRule(error) then ConnectionMessage
    else if status == Some(500) then ServerMessage
    else if status == Some(404) then NotFoundMessage
    else if status == Some(403) then ForbiddenMessage
    else if error == "" then GenericMessage
    else error
  }

  /** A text containing `p + q` contains `p`. */
  lemma ContainsPrefixOfMatch(s: string, p: string, q: string)
    requires Contains(s, p + q)
    ensures Contains(s, p)
  {
    var i :| 0 <= i <= |s| - |p + q| && OccursAt(s, p + q, i);
    assert s[i..i + |p|] == (p + q)[..|p|];
    assert OccursAt(s, p, i);
  }

  /** "invalid email or password" also contains "invalid email", yet the
      credentials rule comes first and wins. */
  lemma CredentialsBeforeInvalidEmail(error: string, status: Option<int>)
    requires Mentions(error, "invalid email or password")
    ensures InvalidEmailRule(error)
    ensures MapErrorMessage(error, status) == CredentialsMessage
  {
    assert "invalid email or password" == "invalid email" + " or password";
    ContainsPrefixOfMatch(ToLower(error), "invalid email", " or password");
  }

  /** A status of 500, 404 or 403 decides only when no text rule applies. */
  lemma TextRulesBeforeStatus(error: string, status: Option<int>)
    requires ConnectionRule(error) && !CredentialsRule(error, status)
    requires !ExistsRule(error) && !WeakPasswordRule(error) && !InvalidEmailRule(error)
    ensures MapErrorMessage(error, status) == ConnectionMessage
  {
  }

  // ---------------------------------------------------------------------
  // fetchWithAuth
  // ---------------------------------------------------------------------

  /** The cookie holds a usable token (`!token` is false). */
  predicate HasToken(token: Option<string>) { token.Some? && token.value != "" }

  /** The early decision before any request is made. */
  datatype Gate = Proceed | NullUser | Reject(message: string)

  function TokenGate(token: Option<string>, endpoint: string): (g: Gate)
    ensures g.Proceed? <==> HasToken(token) || endpoint == "/auth/login" || endpoint == "/auth/register"
    ensures g.NullUser? <==> !HasToken(token) && endpoint == "/auth/me"
    ensures g.Reject? ==> g.message == "Authentication required. Please log in."
  {
    if !HasToken(token) && endpoint != "/auth/login" && endpoint != "/auth/register" then
      if endpoint == "/auth/me" then NullUser else Reject("Authentication required. Please log in.")
    else Proceed
  }

  /** The parts of a JSON body the client reads. */
  datatype Body = Body(error: Option<string>)

  /** The server's reply. */
  datatype HttpResponse = HttpResponse(status: int, contentType: Option<string>, body: Body)

  /** `response.ok` */
  predicate IsOk(status: int) { 200 <= status <= 299 }

  predicate IsJson(r: HttpResponse) {
    r.contentType.Some? && Contains(r.contentType.value, "application/json")
  }

  /** What fetchWithAuth resolves to. */
  datatype Reply = UserNull | SuccessTrue | Data(body: Body)

  function HttpErrorText(status: int): string {
    "HTTP error! Status: " + IntToString(status)
  }

  /** `data.error || "HTTP error! Status: n"` */
  function ErrorText(body: Body, status: int): (t: string)
    ensures body.error.Some? && body.error.value != "" ==> t == body.error.value
    ensures t != ""
  {
    if body.error.Some? && body.error.value != "" then body.error.value else HttpErrorText(status)
  }

  class ApiClient {
    /** The `formwave_token` cookie. */
    var token: Option<string>

    constructor (initial: Option<string>)
      ensures token == initial
    {
      token := initial;
    }

    /** fetchWithAuth: `Err` is a thrown error with its message. */
    method FetchWithAuth(endpoint: string, response: HttpResponse) returns (r: Result<Reply, string>)
      modifies this
      ensures TokenGate(old(token), endpoint) == NullUser ==> r == Ok(UserNull) && token == old(token)
      ensures TokenGate(old(token), endpoint).Reject? ==>
                r == Err(TokenGate(old(token), endpoint).message) && token == old(token)
      ensures TokenGate(old(token), endpoint) == Proceed && !IsJson(response) ==>
                token == old(token)
                && r == (if IsOk(response.status) then Ok(SuccessTrue) else Err(HttpErrorText(response.status)))
      ensures TokenGate(old(token), endpoint) == Proceed && IsJson(response) && IsOk(response.status) ==>
                token == old(token) && r == Ok(Data(response.body))
      ensures TokenGate(old(token), endpoint) == Proceed && IsJson(response) && !IsOk(response.status) ==>
                r == Err(MapErrorMessage(ErrorText(response.body, response.status), Some(response.status)))
                && token == (if response.status == 401 then None else old(token))
    {
      var gate := TokenGate(token, endpoint);
      if gate.NullUser? {
        return Ok(UserNull);
      } else if gate.Reject? {
        return Err(gate.message);
      }
      if !IsJson(response) {
        if !IsOk(response.status) {
          return Err(HttpErrorText(response.status));
        }
        return Ok(SuccessTrue);
      }
      if !IsOk(response.status) {
        if response.status == 401 {
          token := None;
        }
        var errorMessage := MapErrorMessage(ErrorText(response.body, response.status), Some(response.status));
        return Err(errorMessage);
      }
      r := Ok(Data(response.body));
    }

    /** auth.logout: the token is removed whether the call succeeds or fails,
        and a failure is passed on. */
    method Logout(response: HttpResponse) returns (r: Result<(), string>)
      modifies this
      ensures token == None
      ensures TokenGate(old(token), "/auth/logout").Reject? ==>
                r == Err("Authentication required. Please log in.")
      ensures TokenGate(old(token), "/auth/logout") == Proceed && IsJson(response) && !IsOk(response.status) ==>
                r == Err(MapErrorMessage(ErrorText(response.body, response.status), Some(response.status)))
      ensures TokenGate(old(token), "/auth/logout") == Proceed && !IsJson(response) && !IsOk(response.status) ==>
                r == Err(HttpErrorText(response.status))
      ensures TokenGate(old(token), "/auth/logout") == Proceed && IsOk(response.status) ==> r == Ok(())
    {
      var result := FetchWithAuth("/auth/logout", response);
      token := None;
      if result.Err? {
        return Err(result.error);
      }
      r := Ok(());
    }
  }

  /** Logging out without a token is rejected by the gate, yet still clears the cookie. */
  method LogoutWithoutToken(response: HttpResponse) returns (r: Result<(), string>, after: Option<string>)
    ensures r == Err("Authentication required. Please log in.") && after == None
  {
    var client := new ApiClient(None);
    r := client.Logout(response);
    after := client.token;
  }
}
