/**
 * The backend account rules: lookup by email, password authentication, access-token claims
 * and their verification, and account creation with unique email and CPF. Password hashing
 * and the token codec are parameters; the user table is a sequence of rows in id order.
 */
module AuthBackend {
  import opened Types

  const DefaultAvatar := "/placeholder.svg?height=80&width=80"
  const EmailTakenMessage := "Email já cadastrado"
  const CpfTakenMessage := "CPF já cadastrado"
  /** The expiry used when no positive delta is given: 15 minutes, in seconds. */
  const DefaultExpirySeconds := 15 * 60

  /** A row of the user table (`get_user`'s dictionary). */
  datatype UserRecord = UserRecord(id: nat, name: string, email: string, cpf: string, phone: string,
                                   passwordHash: string, userType: string, avatar: string)

  /** The first row with that email. */
  function FindByEmail(users: seq<UserRecord>, email: string): (r: Option<UserRecord>)
    ensures r.None? <==> forall i :: 0 <= i < |users| ==> users[i].email != email
    ensures r.Some? ==> r.value in users && r.value.email == email
  {
    if users == [] then None
    else if users[0].email == email then Some(users[0])
    else
      var r := FindByEmail(users[1..], email);
      assert forall i :: 1 <= i < |users| ==> users[i] == users[1..][i - 1];
      r
  }

  /** With unique emails, the row found is the only one with that email. */
  lemma FindByEmailUnique(users: seq<UserRecord>, email: string, u: UserRecord)
    requires UniqueEmails(users)
    requires u in users && u.email == email
    ensures FindByEmail(users, email) == Some(u)
  {
    var r := FindByEmail(users, email);
    var i :| 0 <= i < |users| && users[i] == u;
    var j :| 0 <= j < |users| && users[j] == r.value;
    if i < j {
      assert users[i].email != users[j].email;
    } else if j < i {
      assert users[j].email != users[i].email;
    }
  }

  predicate UniqueEmails(users: seq<UserRecord>)
  {
    forall i, j :: 0 <= i < j < |users| ==> users[i].email != users[j].email
  }

  predicate UniqueCpfs(users: seq<UserRecord>)
  {
    forall i, j :: 0 <= i < j < |users| ==> users[i].cpf != users[j].cpf
  }

  /** A value of a token claim. */
  datatype Claim = Text(text: string) | Instant(seconds: int)

  /** `create_access_token`'s claims: the caller's claims with `exp` set; a zero or absent delta means 15 minutes. */
  function TokenClaims(data: map<string, Claim>, delta: Option<int>, now: int): (r: map<string, Claim>)
    ensures "exp" in r
    ensures delta.Some? && delta.value != 0 ==> r["exp"] == Instant(now + delta.value)
    ensures delta.None? || delta.value == 0 ==> r["exp"] == Instant(now + DefaultExpirySeconds)
    ensures forall k :: k != "exp" ==> (k in r <==> k in data)
    ensures forall k :: k != "exp" && k in data ==> r[k] == data[k]
  {
    var expire := if delta.Some? && delta.value != 0 then now + delta.value else now + DefaultExpirySeconds;
    data["exp" := Instant(expire)]
  }

  /** `create_access_token`: the claims handed to the encoder. */
  function CreateAccessToken(data: map<string, Claim>, delta: Option<int>, now: int,
                             encode: map<string, Claim> -> string): (token: string)
    ensures token == encode(TokenClaims(data, delta, now))
  {
    encode(TokenClaims(data, delta, now))
  }

  /** What decoding a token gave: a rejected token (bad signature, expired, malformed) or its claims. */
  datatype Decoded = Rejected | Payload(claims: map<string, Claim>)

  /** The email a decoded token names: its `sub` claim when that is text. */
  function Subject(d: Decoded): (r: Option<string>)
    ensures r.Some? <==> d.Payload? && "sub" in d.claims && d.claims["sub"].Text?
    ensures r.Some? ==> r.value == d.claims["sub"].text
  {
    if d.Payload? && "sub" in d.claims && d.claims["sub"].Text? then Some(d.claims["sub"].text) else None
  }

  class UserStore {
    var users: seq<UserRecord>
    /** The next autoincrement id. */
    var nextId: nat

    /** The table's unique constraints and its autoincrement counter. */
    predicate Valid()
      reads this
    {
      && UniqueEmails(users) && UniqueCpfs(users)
      && forall i :: 0 <= i < |users| ==> users[i].id < nextId
    }

    constructor ()
      ensures Valid() && users == [] && nextId == 1
    {
      users := [];
      nextId := 1;
    }

    /** `get_user`. */
    function GetUser(email: string): (r: Option<UserRecord>)
      reads this
      ensures r.None? <==> forall i :: 0 <= i < |users| ==> users[i].email != email
      ensures r.Some? ==> r.value in users && r.value.email == email
    {
      FindByEmail(users, email)
    }

    /** `authenticate_user`: the row, when it exists and the password checks against its hash. */
    function AuthenticateUser(email: string, password: string, checkPassword: (string, string) -> bool): (r: Option<UserRecord>)
      reads this
      ensures GetUser(email).None? ==> r.None?
      ensures GetUser(email).Some? && !checkPassword(password, GetUser(email).value.passwordHash) ==> r.None?
      ensures r.Some? ==> r == GetUser(email) && checkPassword(password, r.value.passwordHash)
    {
      match GetUser(email)
      case None => None
      case Some(u) => if checkPassword(password, u.passwordHash) then Some(u) else None
    }

    /** `verify_token`: nothing for a rejected token or one without a subject, else the subject's row. */
    function VerifyToken(token: string, decode: string -> Decoded): (r: Option<UserRecord>)
      reads this
      ensures decode(token).Rejected? ==> r.None?
      ensures Subject(decode(token)).None? ==> r.None?
      ensures Subject(decode(token)).Some? ==> r == GetUser(Subject(decode(token)).value)
    {
      match Subject(decode(token))
      case None => None
      case Some(email) => GetUser(email)
    }

    /**
     * `create_user` with the computed hash: a taken email is reported before a taken CPF;
     * otherwise exactly one row is added with the given fields, a fresh id and the default avatar.
     */
    method CreateUser(name: string, email: string, passwordHash: string, userType: string, cpf: string, phone: string)
      returns (r: Result<UserRecord, string>)
      requires Valid()
      modifies this`users, this`nextId
      ensures Valid()
      ensures r == Err(EmailTakenMessage) <==> exists i :: 0 <= i < |old(users)| && old(users)[i].email == email
      ensures r == Err(CpfTakenMessage) <==>
                (forall i :: 0 <= i < |old(users)| ==> old(users)[i].email != email)
                && (exists i :: 0 <= i < |old(users)| && old(users)[i].cpf == cpf)
      ensures r.Err? ==> users == old(users) && nextId == old(nextId)
      ensures r.Ok? ==> r.value == UserRecord(old(nextId), name, email, cpf, phone, passwordHash, userType, DefaultAvatar)
      ensures r.Ok? ==> users == old(users) + [r.value]
    {
      if FindByEmail(users, email).Some? {
        return Err(EmailTakenMessage);
      }
      if exists i :: 0 <= i < |users| && users[i].cpf == cpf {
        return Err(CpfTakenMessage);
      }
      var row := UserRecord(nextId, name, email, cpf, phone, passwordHash, userType, DefaultAvatar);
      users := users + [row];
      nextId := nextId + 1;
      r := Ok(row);
    }
  }

  /**
   * A token issued for an email verifies back to that email's row, for any codec that
   * decodes what it encodes.
   */
  lemma TokenRoundTrip(store: UserStore, email: string, delta: Option<int>, now: int,
                       encode: map<string, Claim> -> string, decode: string -> Decoded)
    requires forall c :: decode(encode(c)) == Payload(c)
    ensures store.VerifyToken(CreateAccessToken(map["sub" := Text(email)], delta, now, encode), decode)
            == store.GetUser(email)
  {
    var claims := TokenClaims(map["sub" := Text(email)], delta, now);
    assert decode(encode(claims)) == Payload(claims);
    assert claims["sub"] == Text(email);
  }

  /** A zero delta is treated as absent: the token lasts 15 minutes, not zero. */
  lemma ZeroDeltaMeansDefault(data: map<string, Claim>, now: int)
    ensures TokenClaims(data, Some(0), now)["exp"] == Instant(now + 900)
    ensures TokenClaims(data, Some(0), now) == TokenClaims(data, None, now)
  {
  }
}
