/**
 * The session rules of the client (`authService.js`): the registration
 * payload, storing the signed-in user under the `user` key when the server
 * returns a token, and reading it back only while the token has not
 * expired, evicting it once it has.
 */
module AuthService {
  import opened Base
  import opened Js
  import opened Effects

  /** The `user` object of the registration request. */
  datatype Registration = Registration(email: string, password: string, passwordConfirmation: string, displayName: string)

  /** The server calls of this service. */
  datatype Call = CreateUser(user: Registration) | SignIn(email: string, password: string)

  /** What the sign-in endpoint returns and what is stored: its `jwt` may be missing. */
  datatype Session = Session(jwt: Option<string>, userId: int)

  /** The storage key of the signed-in user. */
  const UserKey := "user"

  /** `register(email, password, displayName)`'s payload: the confirmation is the password itself. */
  function RegisterPayload(email: string, password: string, displayName: string): (r: Registration)
    ensures r.passwordConfirmation == r.password == password
    ensures r.email == email && r.displayName == displayName
  {
    Registration(email, password, password, displayName)
  }

  /**
   * A stored session is current when it has a token whose `exp` (seconds,
   * read by `expOf`) is still ahead of `now` (milliseconds).
   */
  predicate Live(s: Session, now: int, expOf: string -> int)
  {
    Truthy(s.jwt) && expOf(s.jwt.value) * 1000 > now
  }

  /** What `getCurrentUser` returns. */
  function Current(storage: map<string, Session>, now: int, expOf: string -> int): (r: Option<Session>)
    ensures r.Some? <==> UserKey in storage && Live(storage[UserKey], now, expOf)
    ensures r.Some? ==> r.value == storage[UserKey]
  {
    if UserKey in storage && Live(storage[UserKey], now, expOf) then Some(storage[UserKey]) else None
  }

  /** The storage `getCurrentUser` leaves: a stored session with an expired token is removed. */
  function Evicted(storage: map<string, Session>, now: int, expOf: string -> int): (r: map<string, Session>)
    ensures forall k :: k != UserKey ==> (k in r <==> k in storage) && (k in r ==> r[k] == storage[k])
    ensures UserKey in r <==> UserKey in storage && (Live(storage[UserKey], now, expOf) || !Truthy(storage[UserKey].jwt))
    ensures UserKey in r ==> r[UserKey] == storage[UserKey]
  {
    if UserKey in storage && Truthy(storage[UserKey].jwt) && !Live(storage[UserKey], now, expOf)
    then storage - {UserKey}
    else storage
  }

  /**
   * Reading the current user twice at the same instant gives the same
   * answer and evicts nothing more the second time.
   */
  lemma CurrentStable(storage: map<string, Session>, now: int, expOf: string -> int)
    ensures Current(Evicted(storage, now, expOf), now, expOf) == Current(storage, now, expOf)
    ensures Evicted(Evicted(storage, now, expOf), now, expOf) == Evicted(storage, now, expOf)
  {
  }

  /** A session read back later than its token's expiry is gone for good. */
  lemma ExpiredStaysGone(storage: map<string, Session>, now: int, later: int, expOf: string -> int)
    requires now <= later && Current(storage, now, expOf).None?
    ensures Current(Evicted(storage, now, expOf), later, expOf).None?
  {
  }

  class Service {
    /** `localStorage`, as far as this service uses it. */
    var storage: map<string, Session>
    var outbox: seq<Effect<Call>>

    constructor (storage: map<string, Session>)
      ensures this.storage == storage && outbox == []
    {
      this.storage := storage;
      outbox := [];
    }

    /** `register`: posts the payload and passes the server's reply on. */
    method Register(email: string, password: string, displayName: string, reply: Reply<()>) returns (r: Reply<()>)
      modifies this`outbox
      ensures outbox == old(outbox) + [Request(CreateUser(RegisterPayload(email, password, displayName)))]
      ensures r == reply
    {
      outbox := outbox + [Request(CreateUser(RegisterPayload(email, password, displayName)))];
      r := reply;
    }

    /** `login`: stores the returned session only when it carries a token. */
    method Login(email: string, password: string, reply: Reply<Session>) returns (r: Reply<Session>)
      modifies this
      ensures outbox == old(outbox) + [Request(SignIn(email, password))]
      ensures storage == if reply.Ok? && Truthy(reply.value.jwt) then old(storage)[UserKey := reply.value] else old(storage)
      ensures r == reply
    {
      outbox := outbox + [Request(SignIn(email, password))];
      if reply.Ok? && Truthy(reply.value.jwt) {
        storage := storage[UserKey := reply.value];
      }
      r := reply;
    }

    /** `logout`. */
    method Logout()
      modifies this`storage
      ensures storage == old(storage) - {UserKey}
    {
      storage := storage - {UserKey};
    }

    /** `getCurrentUser` at time `now`, `expOf` standing for `jwtDecode(jwt).exp`. */
    method GetCurrentUser(now: int, expOf: string -> int) returns (r: Option<Session>)
      modifies this`storage
      ensures r == Current(old(storage), now, expOf)
      ensures storage == Evicted(old(storage), now, expOf)
    {
      r := None;
      if UserKey in storage {
        var user := storage[UserKey];
        if Truthy(user.jwt) {
          if expOf(user.jwt.value) * 1000 > now {
            r := Some(user);
          } else {
            storage := storage - {UserKey};
          }
        }
      }
    }
  }

  /** After a sign-in that returned a token, the session is current until its expiry and gone after a logout. */
  lemma LoginThenCurrent(storage: map<string, Session>, s: Session, now: int, expOf: string -> int)
    requires Truthy(s.jwt) && expOf(s.jwt.value) * 1000 > now
    ensures Current(storage[UserKey := s], now, expOf) == Some(s)
    ensures Current(storage[UserKey := s] - {UserKey}, now, expOf) == None
  {
  }
}

/** The sign-up form (`Register.js`). */
module Register {
  import opened Base
  import opened Effects
  import AuthService

  class Form {
    var email: string
    var password: string
    var passwordConfirmation: string
    var displayName: string
    var error: Option<string>
    var outbox: seq<Effect<AuthService.Call>>

    constructor ()
      ensures email == "" && password == "" && passwordConfirmation == "" && displayName == ""
      ensures error == None && outbox == []
    {
      email := "";
      password := "";
      passwordConfirmation := "";
      displayName := "";
      error := None;
      outbox := [];
    }

    /**
     * `handleRegister`: a confirmation that differs from the password is an
     * error and nothing is sent; otherwise the user is registered and the
     * page goes to the login page on success or shows the server's message.
     */
    method HandleRegister(service: AuthService.Service, reply: Reply<()>)
      modifies this`error, this`outbox, service`outbox
      ensures password != passwordConfirmation ==>
        error == Some("Passwords do not match") && outbox == old(outbox) && service.outbox == old(service.outbox)
      ensures password == passwordConfirmation ==>
        service.outbox == old(service.outbox) + [Request(AuthService.CreateUser(AuthService.RegisterPayload(email, password, displayName)))]
      ensures password == passwordConfirmation && reply.Ok? ==> outbox == old(outbox) + [Navigate("/login")] && error == old(error)
      ensures password == passwordConfirmation && reply.Failed? ==> outbox == old(outbox) && error == Some(reply.message)
    {
      if password != passwordConfirmation {
        error := Some("Passwords do not match");
        return;
      }
      var r := service.Register(email, password, displayName, reply);
      if r.Ok? {
        outbox := outbox + [Navigate("/login")];
      } else {
        error := Some(r.message);
      }
    }
  }
}
