/** The two routers: which requests reach which controller, behind which
    middleware, after which field validators. */
module Routes {
  import opened Common
  import opened Store
  import opened Places
  import opened Users
  import opened AuthCheck
  import opened FileUpload

  /** A body field as express-validator reads it: a missing field is ''. */
  function Field(x: Option<string>): string {
    x.GetOr("")
  }

  /** `check(f).not().isEmpty()`. */
  predicate NotEmpty(x: Option<string>) {
    Field(x) != ""
  }

  /** `check(f).isLength({ min: n })`, counting characters. */
  predicate MinLength(x: Option<string>, n: nat) {
    |Field(x)| >= n
  }

  /** The body of a place request. */
  datatype PlaceForm = PlaceForm(title: Option<string>, description: Option<string>, address: Option<string>)

  /** The validators of `POST /api/places`. */
  predicate CreatePlaceValid(f: PlaceForm) {
    NotEmpty(f.title) && MinLength(f.description, 5) && NotEmpty(f.address)
  }

  /** The validators of `PATCH /api/places/:pid`: the address is not checked. */
  predicate UpdatePlaceValid(f: PlaceForm) {
    NotEmpty(f.title) && MinLength(f.description, 5)
  }

  /** The body of a user request. */
  datatype UserForm = UserForm(name: Option<string>, email: Option<string>, password: Option<string>)

  /** The validators of `POST /api/users/signup`, given express-validator's
      `normalizeEmail` sanitizer and `isEmail` check: the email is normalized
      first and checked in its normalized form. */
  predicate SignupValid(f: UserForm, normalizeEmail: string -> string, isEmail: string -> bool) {
    NotEmpty(f.name) && isEmail(normalizeEmail(Field(f.email))) && MinLength(f.password, 6)
  }

  /** A request to a router: the method, the path segments after the mount
      point, the Authorization header, the body and the uploaded file. */
  datatype Request<F> = Request(
    verb: string, path: seq<string>, authorization: Option<string>, form: F, file: Option<IncomingFile>)

  /** Any reply body the routers produce. */
  datatype Body =
    | PlaceBody(view: PlaceView)
    | PlacesBody(views: seq<PlaceView>)
    | UsersBody(users: seq<UserView>)
    | SessionBody(session: AuthBody)
    | MessageBody(message: string)

  // The JSON each handler's value becomes.
  function AsPlaceBody(v: PlaceView): Body { PlaceBody(v) }
  function AsPlacesBody(vs: seq<PlaceView>): Body { PlacesBody(vs) }
  function AsUsersBody(us: seq<UserView>): Body { UsersBody(us) }
  function AsSessionBody(a: AuthBody): Body { SessionBody(a) }
  function AsMessageBody(m: string): Body { MessageBody(m) }

  /** A request either ends in a controller or the middleware, with the state
      afterwards, or leaves the router unmatched (the app's 404 follows, or
      Express answers a pre-flight itself). */
  datatype Routed = Handled(state: State, reply: Reply<Body>) | Unmatched

  /** Express runs a `router.get` route for a HEAD request too, when no HEAD
      route of its own precedes it. */
  predicate ReadVerb(verb: string) {
    verb == "GET" || verb == "HEAD"
  }

  /** A character under the `i` flag of the route patterns: only ASCII
      letters fold, since no other character upper-cases to an ASCII one. */
  function FoldCase(c: char): char {
    if 'A' <= c <= 'Z' then (c as int - 'A' as int + 'a' as int) as char else c
  }

  /** A path segment against a lower-case literal of a route pattern. Routers
      are created without `caseSensitive`, so `USER` matches `user`. */
  predicate SegmentIs(segment: string, literal: string) {
    Folded(segment) == literal
  }

  /** A segment with every ASCII letter folded to lower case. */
  function Folded(s: string): string {
    seq(|s|, i requires 0 <= i < |s| => FoldCase(s[i]))
  }

  /** The two GET routes registered before `router.use(checkAuth)`. */
  predicate OpenPlaceRoute(verb: string, path: seq<string>) {
    ReadVerb(verb) && (|path| == 1 || (|path| == 2 && SegmentIs(path[0], "user")))
  }

  /** `POST /signup` and `POST /login` of the users router. */
  predicate SignupRoute(verb: string, path: seq<string>) {
    verb == "POST" && |path| == 1 && SegmentIs(path[0], "signup")
  }

  predicate LoginRoute(verb: string, path: seq<string>) {
    verb == "POST" && |path| == 1 && SegmentIs(path[0], "login")
  }

  /** Which of the open reads and users routes a request reaches: HEAD counts
      as GET and the literal segments match in any letter case, while a path
      of another shape or another verb does not. */
  lemma RouteMatching()
    ensures OpenPlaceRoute("HEAD", ["p1"]) && OpenPlaceRoute("GET", ["USER", "u1"])
    ensures OpenPlaceRoute("HEAD", ["User", "u1"]) && !OpenPlaceRoute("GET", ["users", "u1"])
    ensures !OpenPlaceRoute("POST", ["p1"]) && !OpenPlaceRoute("GET", [])
    ensures SignupRoute("POST", ["SignUp"]) && LoginRoute("POST", ["LOGIN"])
    ensures !SignupRoute("GET", ["signup"]) && !LoginRoute("POST", ["log-in"])
  {
    assert FoldCase('U') == 'u' && FoldCase('S') == 's' && FoldCase('E') == 'e' && FoldCase('R') == 'r';
    assert FoldCase('L') == 'l' && FoldCase('O') == 'o' && FoldCase('G') == 'g' && FoldCase('I') == 'i' && FoldCase('N') == 'n';
    assert !SegmentIs("users", "user");
    assert "log-in"[3] == '-';
  }

  /** `POST /`, `PATCH /:pid` and `DELETE /:pid`, the routes behind the gate. */
  predicate WriteRoute(verb: string, path: seq<string>) {
    (verb == "POST" && path == []) || (verb in {"PATCH", "DELETE"} && |path| == 1)
  }

  function GateOf(req: Request<PlaceForm>, verify: string -> Option<Claims>): Gate {
    CheckAuth(GateRequest(req.verb, req.authorization), verify)
  }

  /** `req.file.location` as the controller reads it after the upload step. */
  function StoredAt(u: Uploaded): (l: Option<Url>)
    ensures l.Some? <==> u.Stored?
    ensures u.Stored? ==> l.value == u.location
  {
    if u.Stored? then Some(u.location) else None
  }

  /** The edit route never looks at `address`, and every form the create
      route accepts the edit route accepts too. */
  lemma EditIgnoresAddress(f: PlaceForm, address: Option<string>)
    ensures UpdatePlaceValid(f) <==> UpdatePlaceValid(f.(address := address))
    ensures CreatePlaceValid(f) ==> UpdatePlaceValid(f)
    ensures UpdatePlaceValid(f) && NotEmpty(f.address) ==> CreatePlaceValid(f)
  {
  }

  /** The places router. The two reads are open; every other request passes
      `checkAuth` first, so a refused token means no controller runs. POST and
      PATCH then run the upload and their validators; DELETE has neither. */
  method HandlePlaces(s: State, req: Request<PlaceForm>, verify: string -> Option<Claims>, fx: Effects)
    returns (r: Routed)
    // The two reads run whatever the Authorization header holds, and change nothing.
    ensures OpenPlaceRoute(req.verb, req.path) && |req.path| == 1 ==>
      r == Handled(s, GetPlaceById(s, req.path[0], fx).Map(AsPlaceBody))
    ensures OpenPlaceRoute(req.verb, req.path) && |req.path| == 2 ==>
      && r.Handled? && r.state == s
      && exists v :: ListsPlacesOf(s, req.path[1], fx, v) && r.reply == v.Map(AsPlacesBody)
    ensures !OpenPlaceRoute(req.verb, req.path) && GateOf(req, verify).Denied? ==>
      r == Handled(s, Failure(StatusForbidden, AuthFailed))
    // Past the gate, DELETE goes straight to its controller.
    ensures GateOf(req, verify).Continue? && req.verb == "DELETE" && |req.path| == 1 ==>
      var o := DeletePlace(s, GateOf(req, verify).userId.value, req.path[0], fx);
      r == Handled(o.state, o.reply.Map(AsMessageBody))
    // A refused upload ends a create or an edit before the validators.
    ensures GateOf(req, verify).Continue? && req.verb in {"POST", "PATCH"} && WriteRoute(req.verb, req.path)
            && Upload(req.file).UploadRejected? ==>
      r == Handled(s, Failure(StatusServerError, InvalidMimeType))
    // Otherwise POST and PATCH reach their controllers with the validators' verdict.
    ensures GateOf(req, verify).Continue? && req.verb == "POST" && req.path == []
            && !Upload(req.file).UploadRejected? ==>
      var o := CreatePlace(s, GateOf(req, verify).userId.value, Field(req.form.title), Field(req.form.description),
                           Field(req.form.address), StoredAt(Upload(req.file)), CreatePlaceValid(req.form), fx);
      r == Handled(o.state, o.reply.Map(AsPlaceBody))
    ensures GateOf(req, verify).Continue? && req.verb == "PATCH" && |req.path| == 1
            && !Upload(req.file).UploadRejected? ==>
      var o := UpdatePlace(s, GateOf(req, verify).userId.value, req.path[0], Field(req.form.title),
                           Field(req.form.description), StoredAt(Upload(req.file)), UpdatePlaceValid(req.form), fx);
      r == Handled(o.state, o.reply.Map(AsPlaceBody))
    // A form the route's validators refuse is 422, with nothing changed.
    ensures GateOf(req, verify).Continue? && req.verb == "POST" && req.path == []
            && !Upload(req.file).UploadRejected? && !CreatePlaceValid(req.form) ==>
      r == Handled(s, Failure(StatusUnprocessable, InvalidInputs))
    ensures GateOf(req, verify).Continue? && req.verb == "PATCH" && |req.path| == 1
            && !Upload(req.file).UploadRejected? && !UpdatePlaceValid(req.form) ==>
      r == Handled(s, Failure(StatusUnprocessable, InvalidInputs))
    // No state change, image objects included, without a verified token on a write route.
    ensures r.Handled? && r.state != s ==>
      && WriteRoute(req.verb, req.path)
      && GateOf(req, verify).Continue? && GateOf(req, verify).userId.Some?
    ensures r.Handled? && r.state != s && req.verb == "POST" ==> CreatePlaceValid(req.form)
    ensures r.Handled? && r.state != s && req.verb == "PATCH" ==> UpdatePlaceValid(req.form)
    // A created place belongs to the user named in the token.
    ensures r.Handled? && r.reply.Success? && req.verb == "POST" ==>
      && r.reply.value.PlaceBody?
      && GateOf(req, verify).userId == Some(r.reply.value.view.place.creator)
    ensures Linked(s) && r.Handled? ==> Linked(r.state)
  {
    if OpenPlaceRoute(req.verb, req.path) {
      if |req.path| == 1 {
        var reply := GetPlaceById(s, req.path[0], fx);
        return Handled(s, reply.Map(AsPlaceBody));
      } else {
        var reply := GetPlacesByUserId(s, req.path[1], fx);
        return Handled(s, reply.Map(AsPlacesBody));
      }
    }
    var gate := GateOf(req, verify);
    if gate.Denied? {
      return Handled(s, Failure(gate.code, gate.message));
    }
    if !WriteRoute(req.verb, req.path) {
      return Unmatched;
    }
    var caller := gate.userId.value;
    if req.verb == "DELETE" {
      var o := DeletePlace(s, caller, req.path[0], fx);
      if Linked(s) {
        DeletePreservesLinked(s, caller, req.path[0], fx);
      }
      return Handled(o.state, o.reply.Map(AsMessageBody));
    }
    var upload := Upload(req.file);
    if upload.UploadRejected? {
      return Handled(s, Failure(upload.code, upload.message));
    }
    var file := StoredAt(upload);
    var title, description := Field(req.form.title), Field(req.form.description);
    var o;
    if req.verb == "POST" {
      var valid := CreatePlaceValid(req.form);
      o := CreatePlace(s, caller, title, description, Field(req.form.address), file, valid, fx);
      if Linked(s) {
        CreatePreservesLinked(s, caller, title, description, Field(req.form.address), file, valid, fx);
      }
    } else {
      var valid := UpdatePlaceValid(req.form);
      o := UpdatePlace(s, caller, req.path[0], title, description, file, valid, fx);
      if Linked(s) {
        UpdatePreservesLinked(s, caller, req.path[0], title, description, file, valid, fx);
      }
    }
    return Handled(o.state, o.reply.Map(AsPlaceBody));
  }

  /** The users router: nothing behind a token. Signup runs the upload and its
      validators and sees the normalized email; login has no validators and
      sees the email as sent. `now` is the clock the tokens are issued by. */
  method HandleUsers(
    s: State, req: Request<UserForm>, crypto: Crypto, fx: SignupEffects,
    normalizeEmail: string -> string, isEmail: string -> bool, now: int)
    returns (r: Routed)
    ensures r.Handled? ==> r.state.places == s.places && r.state.assets == s.assets
    ensures r.Handled? && r.state != s ==>
      && SignupRoute(req.verb, req.path)
      && SignupValid(req.form, normalizeEmail, isEmail)
      && r.state.users.Keys == s.users.Keys + {fx.newId}
      && fx.newId !in s.users
      && r.state.users[fx.newId].email == normalizeEmail(Field(req.form.email))
    // Listing: the controller's answer, nothing changed.
    ensures ReadVerb(req.verb) && req.path == [] ==>
      && r.Handled? && r.state == s
      && exists v :: ListsEveryUser(s, fx.lookupFails, v) && r.reply == v.Map(AsUsersBody)
    // Signup: a refused upload is 500; otherwise the controller runs with the
    // validators' verdict and the normalized email.
    ensures SignupRoute(req.verb, req.path) && Upload(req.file).UploadRejected? ==>
      r == Handled(s, Failure(StatusServerError, InvalidMimeType))
    ensures SignupRoute(req.verb, req.path) && !Upload(req.file).UploadRejected? ==>
      var o := Signup(s, Field(req.form.name), normalizeEmail(Field(req.form.email)), Field(req.form.password),
                      StoredAt(Upload(req.file)), SignupValid(req.form, normalizeEmail, isEmail), crypto, fx, now);
      r == Handled(o.state, o.reply.Map(AsSessionBody))
    ensures SignupRoute(req.verb, req.path) && !Upload(req.file).UploadRejected?
            && !SignupValid(req.form, normalizeEmail, isEmail) ==>
      r == Handled(s, Failure(StatusUnprocessable, InvalidInputs))
    // Login: no validators, the email as sent, nothing changed.
    ensures LoginRoute(req.verb, req.path) ==>
      && r.Handled? && r.state == s
      && exists v :: LoginAnswer(s, Field(req.form.email), Field(req.form.password), fx.lookupFails, crypto, now, v)
                     && r.reply == v.Map(AsSessionBody)
    ensures Linked(s) && r.Handled? ==> Linked(r.state)
    ensures UniqueEmails(s) && r.Handled? ==> UniqueEmails(r.state)
  {
    if ReadVerb(req.verb) && req.path == [] {
      var reply := GetUsers(s, fx.lookupFails);
      return Handled(s, reply.Map(AsUsersBody));
    } else if SignupRoute(req.verb, req.path) {
      var upload := Upload(req.file);
      if upload.UploadRejected? {
        return Handled(s, Failure(upload.code, upload.message));
      }
      var location := StoredAt(upload);
      var name, email, password := Field(req.form.name), normalizeEmail(Field(req.form.email)), Field(req.form.password);
      var valid := SignupValid(req.form, normalizeEmail, isEmail);
      var o := Signup(s, name, email, password, location, valid, crypto, fx, now);
      if Linked(s) {
        SignupPreservesLinked(s, name, email, password, location, valid, crypto, fx, now);
      }
      if UniqueEmails(s) {
        SignupKeepsEmailsUnique(s, name, email, password, location, valid, crypto, fx, now);
      }
      return Handled(o.state, o.reply.Map(AsSessionBody));
    } else if LoginRoute(req.verb, req.path) {
      var reply := Login(s, Field(req.form.email), Field(req.form.password), fx.lookupFails, crypto, now);
      return Handled(s, reply.Map(AsSessionBody));
    }
    return Unmatched;
  }
}
