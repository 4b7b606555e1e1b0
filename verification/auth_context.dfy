/** The mock two-step login provider (src/context/AuthContext.jsx): fixed credentials, then a
    fixed MFA code, then a token that carries its own expiry. The clock is a parameter and the
    token's base64/JSON encoding is an opaque pair. */
module AuthContext {
  import opened Wrappers

  const MockUsername := "jcosta"
  const MockPassword := "1234"
  const MockMfa := "unir"
  const TokenExpHours := 8

  const InvalidCredentials := "Credenciales inválidas"
  const WrongMfaCode := "Código MFA incorrecto"

  /** The token's JSON payload: the subject and an expiry in seconds since the epoch. */
  datatype Payload = Payload(sub: string, exp: int)

  /** `btoa(JSON.stringify(payload))`, kept opaque: a token is its payload, encoded. */
  datatype Token = Encoded(payload: Payload)

  function Encode(p: Payload): Token {
    Encoded(p)
  }

  /** `JSON.parse(atob(token))` */
  function Decode(t: Token): Payload {
    t.payload
  }

  /** `createToken()` at time `now` (milliseconds): the mock user, expiring eight hours after
      the current whole second. `/` on a positive divisor rounds down, as Math.floor does. */
  function CreateToken(now: int): (t: Token)
    ensures Decode(t).sub == MockUsername
    ensures Decode(t).exp == now / 1000 + 28800
  {
    Encode(Payload(MockUsername, now / 1000 + TokenExpHours * 60 * 60))
  }

  /** `decoded.exp * 1000 < Date.now()` */
  predicate Expired(t: Token, now: int) {
    Decode(t).exp * 1000 < now
  }

  /** A fresh token is still valid for eight hours less one second, and has expired once
      eight hours have passed. */
  lemma TokenLifetime(issued: int, now: int)
    ensures issued <= now <= issued + 28799000 ==> !Expired(CreateToken(issued), now)
    ensures now > issued + 28800000 ==> Expired(CreateToken(issued), now)
  {
    var q := issued / 1000;
    assert issued == q * 1000 + issued % 1000;
    assert Decode(CreateToken(issued)).exp * 1000 == q * 1000 + 28800000;
  }

  /** `loginStepOne({username, password})`: strict comparison with the mock credentials; it
      never touches the provider's state. */
  function LoginStepOne(username: string, password: string): (r: Result<bool>)
    ensures r.Ok? <==> username == MockUsername && password == MockPassword
    ensures r.Ok? ==> r.value
    ensures r.Err? ==> r.error == InvalidCredentials
  {
    if username == MockUsername && password == MockPassword then Ok(true) else Err(InvalidCredentials)
  }

  /** The user object the provider exposes. */
  datatype AuthUser = AuthUser(username: string)

  /** The provider's two state variables. */
  datatype ProviderState = ProviderState(token: Option<Token>, user: Option<AuthUser>)

  const SignedOut := ProviderState(None, None)

  /** `validateMFA(code)` at time `now`: the right code stores a fresh token, any other is an
      error that leaves the state alone. */
  function MfaValidated(s: ProviderState, code: string, now: int): (r: (ProviderState, Result<bool>))
    ensures code == MockMfa ==> r.0 == s.(token := Some(CreateToken(now))) && r.1 == Ok(true)
    ensures code != MockMfa ==> r.0 == s && r.1 == Err(WrongMfaCode)
  {
    if code == MockMfa then (s.(token := Some(CreateToken(now))), Ok(true))
    else (s, Err(WrongMfaCode))
  }

  /** The effect that runs when the token changes, at time `now`: an expired token logs out,
      a live one publishes its subject as the user; no token changes nothing. */
  function EffectRan(s: ProviderState, now: int): (r: ProviderState)
    ensures s.token.None? ==> r == s
    ensures s.token.Some? && Expired(s.token.value, now) ==> r == SignedOut
    ensures s.token.Some? && !Expired(s.token.value, now) ==>
              r == s.(user := Some(AuthUser(Decode(s.token.value).sub)))
  {
    if s.token.None? then s
    else if Expired(s.token.value, now) then SignedOut
    else s.(user := Some(AuthUser(Decode(s.token.value).sub)))
  }

  /** The right code, followed by the token effect within the token's lifetime, signs in the
      mock user. */
  lemma MfaThenEffectSignsIn(s: ProviderState, issued: int, now: int)
    requires issued <= now <= issued + 28799000
    ensures var r := EffectRan(MfaValidated(s, MockMfa, issued).0, now);
            r.token == Some(CreateToken(issued)) && r.user == Some(AuthUser(MockUsername))
  {
    TokenLifetime(issued, now);
  }

  /** Credentials alone never produce a token: only the MFA step writes one. */
  lemma OnlyMfaWritesToken(s: ProviderState, code: string, now: int)
    ensures MfaValidated(s, code, now).0.token != s.token ==> code == MockMfa
  {
  }

  /** The provider, holding `token` and `user`. */
  class Provider {
    var token: Option<Token>
    var user: Option<AuthUser>

    function State(): ProviderState
      reads this
    {
      ProviderState(token, user)
    }

    constructor()
      ensures State() == SignedOut
    {
      token := None;
      user := None;
    }

    /** `validateMFA(code)` with the clock reading `now`. */
    method ValidateMfa(code: string, now: int) returns (r: Result<bool>)
      modifies this
      ensures (State(), r) == MfaValidated(old(State()), code, now)
    {
      if code == MockMfa {
        token := Some(CreateToken(now));
        r := Ok(true);
      } else {
        r := Err(WrongMfaCode);
      }
    }

    /** The token effect, run with the clock reading `now`. */
    method RunTokenEffect(now: int)
      modifies this
      ensures State() == EffectRan(old(State()), now)
    {
      if token.Some? {
        var decoded := Decode(token.value);
        if decoded.exp * 1000 < now {
          Logout();
        } else {
          user := Some(AuthUser(decoded.sub));
        }
      }
    }

    /** `logout()` */
    method Logout()
      modifies this
      ensures State() == SignedOut
    {
      token := None;
      user := None;
    }
  }
}
