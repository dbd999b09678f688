/**
 * The client token lifecycle: one browser storage slot (`midiaz_token`) that login and
 * register fill, that logout and a rejected `/me` check empty, and that the session queries
 * read. Each HTTP exchange is an outcome passed in by the caller.
 */
module AuthService {
  import opened Types

  /** The account record the backend returns (`User` of the client API). */
  datatype Account = Account(id: string, name: string, email: string, cpf: string,
                             phone: string, role: Role, avatar: string)

  datatype LoginResponse = LoginResponse(accessToken: string, tokenType: string, user: Account)

  datatype RegisterData = RegisterData(name: string, email: string, password: string,
                                       userType: Role, cpf: string, phone: string)

  /** What a login or register POST did: an ok body, a non-ok body with an optional `detail`, or a throw. */
  datatype PostOutcome = Accepted(body: LoginResponse) | Refused(detail: Option<string>) | PostThrew

  /** What the `/me` GET did. */
  datatype MeOutcome = MeOk(user: Account) | MeRefused | MeThrew

  /** Why a login or register failed: the thrown message, or the network error passed through. */
  datatype Failure = Rejected(message: string) | Unreachable

  /** The requests the client sends, in order. */
  datatype Request = LoginPost(email: string, password: string) | RegisterPost(data: RegisterData) | MeGet(token: string)

  const LoginFallback := "Erro no login"
  const RegisterFallback := "Erro no registro"

  /** `error.detail || fallback`: an absent or empty detail gives the fallback. */
  function ErrorMessage(detail: Option<string>, fallback: string): (r: string)
    ensures detail.Some? && detail.value != "" ==> r == detail.value
    ensures detail.None? || detail.value == "" ==> r == fallback
    ensures fallback != "" ==> r != ""
  {
    match detail
    case Some(d) => if d != "" then d else fallback
    case None => fallback
  }

  /** What `getToken` returns: the slot when a window exists, null otherwise. */
  function TokenIn(hasWindow: bool, stored: Option<string>): (r: Option<string>)
    ensures !hasWindow ==> r.None?
    ensures hasWindow ==> r == stored
  {
    if hasWindow then stored else None
  }

  /** `isAuthenticated`: a token is present, even an empty one. */
  predicate Authenticated(token: Option<string>)
  {
    token != None
  }

  /** `getAuthHeaders`: a bearer header exactly for a non-empty token. */
  function Headers(token: Option<string>): (r: map<string, string>)
    ensures "Authorization" in r <==> token.Some? && token.value != ""
    ensures "Authorization" in r ==> r["Authorization"] == "Bearer " + token.value
    ensures |r| <= 1
  {
    if token.Some? && token.value != "" then map["Authorization" := "Bearer " + token.value] else map[]
  }

  /** With a non-empty token, being authenticated and sending a header coincide. */
  lemma HeadersIffAuthenticated(token: Option<string>)
    requires token != Some("")
    ensures Authenticated(token) <==> Headers(token) != map[]
  {
    if token.Some? {
      assert "Authorization" in Headers(token);
    }
  }

  /** An empty stored token counts as authenticated but yields no header. */
  lemma EmptyTokenGap()
    ensures Authenticated(Some("")) && Headers(Some("")) == map[]
  {
  }

  class AuthClient {
    /** Whether code runs in a browser (`typeof window !== 'undefined'`). */
    const hasWindow: bool
    /** The `midiaz_token` slot of local storage. */
    var stored: Option<string>
    /** The requests sent so far. */
    ghost var sent: seq<Request>

    constructor (hasWindow: bool, stored: Option<string>)
      ensures this.hasWindow == hasWindow && this.stored == stored && sent == []
    {
      this.hasWindow := hasWindow;
      this.stored := stored;
      sent := [];
    }

    /** `getToken`. */
    function GetToken(): (r: Option<string>)
      reads this
      ensures !hasWindow ==> r.None?
      ensures hasWindow ==> r == stored
    {
      TokenIn(hasWindow, stored)
    }

    /** `setToken`: no effect outside a browser. */
    method SetToken(token: string)
      modifies this`stored
      ensures stored == if hasWindow then Some(token) else old(stored)
    {
      if hasWindow {
        stored := Some(token);
      }
    }

    /** `removeToken`: no effect outside a browser. */
    method RemoveToken()
      modifies this`stored
      ensures stored == if hasWindow then None else old(stored)
      ensures GetToken().None?
    {
      if hasWindow {
        stored := None;
      }
    }

    /** The shared tail of `login` and `register`: store the token on success, throw otherwise. */
    method Finish(outcome: PostOutcome, fallback: string) returns (r: Result<LoginResponse, Failure>)
      modifies this`stored
      ensures outcome.Accepted? ==> r == Ok(outcome.body)
      ensures outcome.Accepted? ==> stored == if hasWindow then Some(outcome.body.accessToken) else old(stored)
      ensures outcome.Refused? ==> r == Err(Rejected(ErrorMessage(outcome.detail, fallback)))
      ensures outcome.PostThrew? ==> r == Err(Unreachable)
      ensures !outcome.Accepted? ==> stored == old(stored)
    {
      match outcome
      case Accepted(body) =>
        SetToken(body.accessToken);
        r := Ok(body);
      case Refused(detail) =>
        r := Err(Rejected(ErrorMessage(detail, fallback)));
      case PostThrew =>
        r := Err(Unreachable);
    }

    /** `login`: one POST; the token is stored only when it is accepted. */
    method Login(email: string, password: string, outcome: PostOutcome) returns (r: Result<LoginResponse, Failure>)
      modifies this`stored, this`sent
      ensures sent == old(sent) + [LoginPost(email, password)]
      ensures r.Ok? <==> outcome.Accepted?
      ensures outcome.Accepted? ==> r.value == outcome.body
      ensures outcome.Accepted? ==> stored == if hasWindow then Some(outcome.body.accessToken) else old(stored)
      ensures outcome.Refused? ==> r == Err(Rejected(ErrorMessage(outcome.detail, LoginFallback)))
      ensures outcome.PostThrew? ==> r == Err(Unreachable)
      ensures r.Err? ==> stored == old(stored)
    {
      sent := sent + [LoginPost(email, password)];
      r := Finish(outcome, LoginFallback);
    }

    /** `register`: the same token behaviour as `login`, with its own fallback message. */
    method Register(data: RegisterData, outcome: PostOutcome) returns (r: Result<LoginResponse, Failure>)
      modifies this`stored, this`sent
      ensures sent == old(sent) + [RegisterPost(data)]
      ensures r.Ok? <==> outcome.Accepted?
      ensures outcome.Accepted? ==> r.value == outcome.body
      ensures outcome.Accepted? ==> stored == if hasWindow then Some(outcome.body.accessToken) else old(stored)
      ensures outcome.Refused? ==> r == Err(Rejected(ErrorMessage(outcome.detail, RegisterFallback)))
      ensures outcome.PostThrew? ==> r == Err(Unreachable)
      ensures r.Err? ==> stored == old(stored)
    {
      sent := sent + [RegisterPost(data)];
      r := Finish(outcome, RegisterFallback);
    }

    /**
     * `getCurrentUser`: without a (non-empty) token, null and no request; otherwise one `/me`
     * request, whose refusal or throw also removes the token.
     */
    method GetCurrentUser(outcome: MeOutcome) returns (r: Option<Account>)
      modifies this`stored, this`sent
      ensures old(GetToken()).None? || old(GetToken()) == Some("") ==>
                r.None? && sent == old(sent) && stored == old(stored)
      ensures old(GetToken()).Some? && old(GetToken()) != Some("") ==>
                && sent == old(sent) + [MeGet(old(GetToken()).value)]
                && (r.Some? <==> outcome.MeOk?)
                && (outcome.MeOk? ==> r.value == outcome.user && stored == old(stored))
                && (!outcome.MeOk? ==> GetToken().None?)
    {
      var token := GetToken();
      if token.None? || token.value == "" {
        return None;
      }
      sent := sent + [MeGet(token.value)];
      match outcome
      case MeOk(user) =>
        r := Some(user);
      case MeRefused =>
        RemoveToken();
        r := None;
      case MeThrew =>
        RemoveToken();
        r := None;
    }

    /** `logout`. */
    method Logout()
      modifies this`stored
      ensures stored == if hasWindow then None else old(stored)
      ensures !IsAuthenticated()
    {
      RemoveToken();
    }

    /** `isAuthenticated`. */
    predicate IsAuthenticated()
      reads this
      ensures IsAuthenticated() <==> hasWindow && stored.Some?
    {
      Authenticated(GetToken())
    }

    /** `getAuthHeaders`. */
    function GetAuthHeaders(): (r: map<string, string>)
      reads this
      ensures "Authorization" in r <==> hasWindow && stored.Some? && stored.value != ""
      ensures "Authorization" in r ==> r["Authorization"] == "Bearer " + stored.value
    {
      Headers(GetToken())
    }
  }

  /** Outside a browser nothing is ever stored or read: the client stays logged out. */
  lemma NoWindowNoSession(c: AuthClient)
    requires !c.hasWindow
    ensures !c.IsAuthenticated() && c.GetAuthHeaders() == map[]
  {
  }
}
