/** The users controller: listing users, signing up and logging in. Password
    hashing, comparison and token signing are passed in as functions; what
    they compute is outside the model. */
module Users {
  import opened Common
  import opened Seqs
  import opened Store

  /** The payload a token is signed over. */
  datatype Claims = Claims(userId: UserId, email: string)

  /** `expiresIn: '1h'`, in seconds. */
  const TokenLifetimeSeconds := 3600
  /** The bcrypt cost factor used at signup. */
  const SaltRounds := 12

  /** bcrypt and jsonwebtoken as seen by the controller: each call either
      yields a value or throws (`None`). */
  datatype Crypto = Crypto(
    hash: (string, int) -> Option<Digest>,      // bcrypt.hash(password, rounds)
    compare: (string, Digest) -> Option<bool>,  // bcrypt.compare(password, digest)
    sign: (Claims, int, int) -> Option<string>) // jwt.sign(claims, secret, { expiresIn }) at issue time iat

  /** The body of a successful signup or login. */
  datatype AuthBody = AuthBody(userId: UserId, email: string, token: string)

  /** A user as `User.find({}, '-password')` returns it: every field but the password. */
  datatype UserView = UserView(id: UserId, name: string, email: string, image: Url, places: seq<PlaceId>)

  /** Outcomes of the database calls of a signup. */
  datatype SignupEffects = SignupEffects(lookupFails: bool, newId: UserId, saveOk: bool)

  const SignupFailed := "Signing up failed, please try again later."

  /** The stored user without its password. */
  function ViewOf(id: UserId, u: User): UserView {
    UserView(id, u.name, u.email, u.image, u.places)
  }

  /** The ids of a list of views, in order. */
  function UserIds(vs: seq<UserView>): seq<UserId> {
    Project(vs, UserViewId)
  }

  function UserViewId(v: UserView): UserId { v.id }

  /** What `GET /api/users` may answer: every stored user once, in the
      database's order, password projected out. */
  ghost predicate ListsEveryUser(s: State, lookupFails: bool, r: Reply<seq<UserView>>) {
    && (lookupFails ==> r == Failure(StatusServerError, "Fetching users failed, please try again later."))
    && (!lookupFails ==> r.Success? && r.status == StatusOk)
    && (r.Success? ==> Distinct(UserIds(r.value)))
    && (r.Success? ==> forall v :: v in r.value ==> v.id in s.users && v == ViewOf(v.id, s.users[v.id]))
    && (r.Success? ==> forall id :: id in UserIds(r.value) <==> id in s.users)
  }

  /** `GET /api/users`: `User.find({}, '-password')`. */
  method GetUsers(s: State, lookupFails: bool) returns (r: Reply<seq<UserView>>)
    ensures ListsEveryUser(s, lookupFails, r)
  {
    if lookupFails {
      return Failure(StatusServerError, "Fetching users failed, please try again later.");
    }
    var todo := s.users.Keys;
    var views: seq<UserView> := [];
    while todo != {}
      invariant todo <= s.users.Keys
      invariant Distinct(UserIds(views))
      invariant forall v :: v in views ==> v.id in s.users && v.id !in todo && v == ViewOf(v.id, s.users[v.id])
      invariant forall id :: id in s.users && id !in todo <==> id in UserIds(views)
      decreases todo
    {
      var id :| id in todo;
      assert id !in UserIds(views) by {
        forall i | 0 <= i < |views| ensures UserIds(views)[i] != id {
          assert views[i] in views;
        }
      }
      AppendFreshDistinct(UserIds(views), id);
      assert UserIds(views + [ViewOf(id, s.users[id])]) == UserIds(views) + [id];
      views := views + [ViewOf(id, s.users[id])];
      todo := todo - {id};
    }
    return Success(StatusOk, views);
  }

  /** `POST /api/users/signup`, after the upload and the validators: refuses a
      taken email, stores the bcrypt digest of the password and an empty list
      of places, then signs a token. A token that cannot be signed is a 500,
      but the user is already stored. */
  function Signup(
    s: State, name: string, email: string, password: string, file: Option<Url>,
    valid: bool, crypto: Crypto, fx: SignupEffects, now: int): (r: Outcome<AuthBody>)
    ensures r.state.places == s.places && r.state.assets == s.assets
    ensures !valid ==> r == Outcome(s, Failure(StatusUnprocessable, "Invalid inputs passed, please check your data."))
    ensures valid && fx.lookupFails ==> r == Outcome(s, Failure(StatusServerError, SignupFailed))
    ensures valid && !fx.lookupFails && !EmailTaken(s, email) && crypto.hash(password, SaltRounds).None? ==>
      r == Outcome(s, Failure(StatusServerError, "Could not create user, please try again."))
    ensures valid && !fx.lookupFails && !EmailTaken(s, email) && crypto.hash(password, SaltRounds).Some? ==>
      && (file.None? ==> r == Outcome(s, Crash))
      && (file.Some? && (!fx.saveOk || fx.newId in s.users) ==> r == Outcome(s, Failure(StatusServerError, SignupFailed)))
    ensures valid && !fx.lookupFails && EmailTaken(s, email) ==>
      r == Outcome(s, Failure(StatusUnprocessable, "User exists already, please login instead."))
    // A user is stored exactly when every step up to the save succeeded.
    ensures r.state != s <==>
      && valid && !fx.lookupFails && !EmailTaken(s, email) && crypto.hash(password, SaltRounds).Some?
      && file.Some? && fx.saveOk && fx.newId !in s.users
    ensures r.state != s ==>
      r.state.users == s.users[fx.newId := User(name, email, file.value, crypto.hash(password, SaltRounds).value, [])]
    ensures r.reply.Success? <==> r.state != s && crypto.sign(Claims(fx.newId, email), now, TokenLifetimeSeconds).Some?
    ensures r.state != s && !r.reply.Success? ==> r.reply == Failure(StatusServerError, SignupFailed)
    ensures r.reply.Success? ==>
      r.reply == Success(StatusCreated, AuthBody(fx.newId, email, crypto.sign(Claims(fx.newId, email), now, TokenLifetimeSeconds).value))
  {
    if !valid then Outcome(s, Failure(StatusUnprocessable, "Invalid inputs passed, please check your data."))
    else if fx.lookupFails then Outcome(s, Failure(StatusServerError, SignupFailed))
    else if EmailTaken(s, email) then Outcome(s, Failure(StatusUnprocessable, "User exists already, please login instead."))
    else match crypto.hash(password, SaltRounds)
      case None => Outcome(s, Failure(StatusServerError, "Could not create user, please try again."))
      case Some(digest) =>
        if file.None? then Outcome(s, Crash)  // `req.file.location` on an absent file
        else if !fx.saveOk || fx.newId in s.users then Outcome(s, Failure(StatusServerError, SignupFailed))
        else
          var t := s.(users := s.users[fx.newId := User(name, email, file.value, digest, [])]);
          assert fx.newId in t.users && fx.newId !in s.users;
          match crypto.sign(Claims(fx.newId, email), now, TokenLifetimeSeconds)
          case None => Outcome(t, Failure(StatusServerError, SignupFailed))
          case Some(token) => Outcome(t, Success(StatusCreated, AuthBody(fx.newId, email, token)))
  }

  /** The login steps after `User.findOne({ email })` found user `id`. */
  function LoginAs(s: State, id: UserId, password: string, crypto: Crypto, now: int): (r: Reply<AuthBody>)
    requires id in s.users
    ensures crypto.compare(password, s.users[id].password).None? ==>
      r == Failure(StatusServerError, "Could not log you in, please check your credentials and try again.")
    ensures crypto.compare(password, s.users[id].password) == Some(false) ==>
      r == Failure(StatusUnauthorized, "Incorrect Password or Email entered.")
    ensures crypto.compare(password, s.users[id].password) == Some(true)
            && crypto.sign(Claims(id, s.users[id].email), now, TokenLifetimeSeconds).None? ==>
      r == Failure(StatusServerError, SignupFailed)
    ensures r.Success? <==>
      crypto.compare(password, s.users[id].password) == Some(true)
      && crypto.sign(Claims(id, s.users[id].email), now, TokenLifetimeSeconds).Some?
    ensures r.Success? ==>
      r == Success(StatusOk, AuthBody(id, s.users[id].email,
                                      crypto.sign(Claims(id, s.users[id].email), now, TokenLifetimeSeconds).value))
  {
    var u := s.users[id];
    match crypto.compare(password, u.password)
    case None => Failure(StatusServerError, "Could not log you in, please check your credentials and try again.")
    case Some(false) => Failure(StatusUnauthorized, "Incorrect Password or Email entered.")
    case Some(true) =>
      match crypto.sign(Claims(id, u.email), now, TokenLifetimeSeconds)
      case None => Failure(StatusServerError, SignupFailed)
      case Some(token) => Success(StatusOk, AuthBody(id, u.email, token))
  }

  /** What a login may answer: `findOne` picks some user with the email, and
      the reply is that user's login. */
  ghost predicate LoginAnswer(
    s: State, email: string, password: string, lookupFails: bool, crypto: Crypto, now: int, r: Reply<AuthBody>)
  {
    && (lookupFails ==> r == Failure(StatusServerError, "Logging in failed, please try again later."))
    && (!lookupFails && !EmailTaken(s, email) ==> r == Failure(StatusForbidden, "Invalid credentials, could not log you in."))
    && (!lookupFails && EmailTaken(s, email) ==>
          exists id :: id in s.users && s.users[id].email == email && r == LoginAs(s, id, password, crypto, now))
    && (r.Success? ==> r.value.email == email && r.value.userId in s.users && s.users[r.value.userId].email == email)
  }

  /** `POST /api/users/login`: no validators run, and the store is only read. */
  method Login(s: State, email: string, password: string, lookupFails: bool, crypto: Crypto, now: int)
    returns (r: Reply<AuthBody>)
    ensures LoginAnswer(s, email, password, lookupFails, crypto, now, r)
  {
    if lookupFails {
      return Failure(StatusServerError, "Logging in failed, please try again later.");
    }
    if !EmailTaken(s, email) {
      return Failure(StatusForbidden, "Invalid credentials, could not log you in.");
    }
    var id :| id in s.users && s.users[id].email == email;
    r := LoginAs(s, id, password, crypto, now);
  }

  // ------------------------------------------------------------ properties

  /** Signup keeps emails unique, whatever its outcome. */
  lemma SignupKeepsEmailsUnique(
    s: State, name: string, email: string, password: string, file: Option<Url>,
    valid: bool, crypto: Crypto, fx: SignupEffects, now: int)
    requires UniqueEmails(s)
    ensures UniqueEmails(Signup(s, name, email, password, file, valid, crypto, fx, now).state)
  {
    var t := Signup(s, name, email, password, file, valid, crypto, fx, now).state;
    if t != s {
      assert forall other :: other in s.users ==> s.users[other].email != email;
      forall a, b | a in t.users && b in t.users && t.users[a].email == t.users[b].email
        ensures a == b
      {
        if a != fx.newId && b != fx.newId {
          assert s.users[a].email == s.users[b].email;
        }
      }
    }
  }

  /** Signup keeps the creator/places link: the new user lists nothing and no
      place names them. */
  lemma SignupPreservesLinked(
    s: State, name: string, email: string, password: string, file: Option<Url>,
    valid: bool, crypto: Crypto, fx: SignupEffects, now: int)
    requires Linked(s)
    ensures Linked(Signup(s, name, email, password, file, valid, crypto, fx, now).state)
  {
    var t := Signup(s, name, email, password, file, valid, crypto, fx, now).state;
    if t != s {
      assert forall pid :: pid in s.places ==> s.places[pid].creator != fx.newId;
      assert CreatorsList(t);
      assert ListsOwned(t) by {
        forall uid | uid in t.users
          ensures Distinct(t.users[uid].places)
          ensures forall pid :: pid in t.users[uid].places ==> pid in t.places && t.places[pid].creator == uid
        {
          if uid != fx.newId {
            assert t.users[uid] == s.users[uid];
          }
        }
      }
    }
  }

  /** With emails unique, login is determined: the one user with that email. */
  lemma LoginFindsTheUser(s: State, id: UserId, email: string)
    requires UniqueEmails(s)
    requires id in s.users && s.users[id].email == email
    ensures EmailTaken(s, email)
    ensures forall other :: other in s.users && s.users[other].email == email ==> other == id
  {
  }

  /** Signing up and then logging in with the same email and password finds
      the new user, when bcrypt accepts the password for its own digest. The
      login succeeds exactly when its token can be signed, and then answers
      with the signup's id and email; the token itself is the signup's only
      when it is issued at the same second, since `iat` is part of what is
      signed. */
  lemma SignupThenLogin(
    s: State, name: string, email: string, password: string, file: Option<Url>,
    valid: bool, crypto: Crypto, fx: SignupEffects, signedUpAt: int, loginAt: int)
    requires UniqueEmails(s)
    requires Signup(s, name, email, password, file, valid, crypto, fx, signedUpAt).reply.Success?
    requires forall d :: crypto.hash(password, SaltRounds) == Some(d) ==> crypto.compare(password, d) == Some(true)
    ensures
      var signup := Signup(s, name, email, password, file, valid, crypto, fx, signedUpAt);
      var login := LoginAs(signup.state, fx.newId, password, crypto, loginAt);
      && fx.newId in signup.state.users
      && (forall id :: id in signup.state.users && signup.state.users[id].email == email ==> id == fx.newId)
      && (login.Success? <==> crypto.sign(Claims(fx.newId, email), loginAt, TokenLifetimeSeconds).Some?)
      && (login.Success? ==>
            && login.value.userId == signup.reply.value.userId
            && login.value.email == signup.reply.value.email
            && (loginAt == signedUpAt ==> login.value == signup.reply.value))
  {
    var t := Signup(s, name, email, password, file, valid, crypto, fx, signedUpAt).state;
    SignupKeepsEmailsUnique(s, name, email, password, file, valid, crypto, fx, signedUpAt);
    assert t.users[fx.newId].email == email;
  }
}
