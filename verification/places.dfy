/** The places controller: the two reads and the three writes on the
    place/user/asset state. Each write is a pure transition returning the new
    state with the reply; what the database, the geocoder and the object store
    do is passed in as `Effects`. */
module Places {
  import opened Common
  import opened Seqs
  import opened Store

  /** A place with its id. The reads and the edit reply with
      `toObject({ getters: true })`, which adds `id`; the create replies with
      the bare document, whose JSON carries the same id as `_id`. The model
      uses this one view for all of them. */
  datatype PlaceView = PlaceView(id: PlaceId, place: Place)

  /** What `getCoordsForAddress` yields: coordinates, or an error whose code
      (500 when it has none) becomes the status. */
  datatype Geocoded = Located(coords: Coords) | GeocodeFailed(code: int, message: string)

  /** Outcomes of the calls the controllers make outside the model. */
  datatype Effects = Effects(
    lookupFails: bool,           // findById / find / findOne throws
    geocode: string -> Geocoded, // getCoordsForAddress
    newId: PlaceId,              // the ObjectId Mongoose gives a new place
    writeOk: bool,               // the save or the session transaction succeeds
    s3DeleteOk: bool)            // the key parses and deleteObject succeeds

  const InvalidInputs := "Invalid inputs passed, please check your data."

  /** The ids of a list of views, in order. */
  function Ids(vs: seq<PlaceView>): seq<PlaceId> {
    Project(vs, ViewId)
  }

  function ViewId(v: PlaceView): PlaceId { v.id }

  // ---------------------------------------------------------------- reads

  /** `GET /api/places/:pid`. */
  function GetPlaceById(s: State, pid: PlaceId, fx: Effects): (r: Reply<PlaceView>)
    ensures fx.lookupFails ==> r == Failure(StatusServerError, "Something went wrong, could not find a place.")
    ensures !fx.lookupFails ==> (r.Success? <==> pid in s.places)
    ensures !fx.lookupFails && pid !in s.places ==> r == Failure(StatusNotFound, "Could not find a place for the provided id.")
    ensures r.Success? ==> r.status == StatusOk && r.value == PlaceView(pid, s.places[pid])
  {
    if fx.lookupFails then Failure(StatusServerError, "Something went wrong, could not find a place.")
    else if pid !in s.places then Failure(StatusNotFound, "Could not find a place for the provided id.")
    else Success(StatusOk, PlaceView(pid, s.places[pid]))
  }

  /** What `GET /api/places/user/:uid` may answer. The order of the list is
      the database's and is left open: the reply lists every place created by
      `uid`, each once, and nothing else. No match, even for an unknown user,
      is a 200 with an empty list. */
  ghost predicate ListsPlacesOf(s: State, uid: UserId, fx: Effects, r: Reply<seq<PlaceView>>) {
    && (fx.lookupFails ==> r == Failure(StatusServerError, "Fetching places failed, please try again later."))
    && (!fx.lookupFails ==> r.Success? && r.status == StatusOk)
    && (r.Success? ==> Distinct(Ids(r.value)))
    && (r.Success? ==> forall v :: v in r.value ==> v.id in s.places && v.place == s.places[v.id])
    && (r.Success? ==> forall pid :: pid in Ids(r.value) <==> pid in CreatedBy(s, uid))
  }

  /** `GET /api/places/user/:uid`: `Place.find({ creator: uid })`. */
  method GetPlacesByUserId(s: State, uid: UserId, fx: Effects) returns (r: Reply<seq<PlaceView>>)
    ensures ListsPlacesOf(s, uid, fx, r)
  {
    if fx.lookupFails {
      return Failure(StatusServerError, "Fetching places failed, please try again later.");
    }
    var todo := s.places.Keys;
    var found: seq<PlaceView> := [];
    while todo != {}
      invariant todo <= s.places.Keys
      invariant Distinct(Ids(found))
      invariant forall v :: v in found ==> v.id in s.places && v.id !in todo && v.place == s.places[v.id]
      invariant forall pid :: pid in Ids(found) ==> pid in CreatedBy(s, uid)
      invariant forall pid :: pid in CreatedBy(s, uid) && pid !in todo ==> pid in Ids(found)
      decreases todo
    {
      var pid :| pid in todo;
      if s.places[pid].creator == uid {
        assert pid !in Ids(found) by {
          forall i | 0 <= i < |found| ensures Ids(found)[i] != pid {
            assert found[i] in found;
          }
        }
        AppendFreshDistinct(Ids(found), pid);
        assert Ids(found + [PlaceView(pid, s.places[pid])]) == Ids(found) + [pid];
        found := found + [PlaceView(pid, s.places[pid])];
      }
      todo := todo - {pid};
    }
    // An empty result takes the explicit `places: []` branch; both are 200.
    return Success(StatusOk, found);
  }

  // --------------------------------------------------------------- writes

  /** `POST /api/places`: validation, geocoding, reading the uploaded file's
      location, loading the caller, then one transaction that inserts the place
      and appends its id to the caller's list. An id that is already taken
      fails the insert like any other write error. */
  function CreatePlace(
    s: State, caller: UserId, title: string, description: string, address: string,
    file: Option<Url>, valid: bool, fx: Effects): (r: Outcome<PlaceView>)
    ensures !valid ==> r == Outcome(s, Failure(StatusUnprocessable, InvalidInputs))
    ensures r.reply.Success? <==>
      && valid && fx.geocode(address).Located? && file.Some?
      && !fx.lookupFails && caller in s.users && fx.writeOk && fx.newId !in s.places
    ensures !r.reply.Success? ==> r.state == s
    ensures valid && fx.geocode(address).GeocodeFailed? ==>
      r.reply == Failure(fx.geocode(address).code, fx.geocode(address).message)
    ensures valid && fx.geocode(address).Located? && file.None? ==> r == Outcome(s, Crash)
    ensures valid && fx.geocode(address).Located? && file.Some? && fx.lookupFails ==>
      r == Outcome(s, Failure(StatusServerError, "Creating place failed, please try again."))
    ensures valid && fx.geocode(address).Located? && file.Some? && !fx.lookupFails && caller !in s.users ==>
      r.reply == Failure(StatusNotFound, "Could not find user for provided id.")
    ensures valid && fx.geocode(address).Located? && file.Some? && !fx.lookupFails && caller in s.users
            && (!fx.writeOk || fx.newId in s.places) ==>
      r == Outcome(s, Failure(StatusServerError, "Creating place failed, please try again."))
    ensures r.reply.Success? ==>
      var p := Place(title, description, address, fx.geocode(address).coords, file.value, caller);
      && r.reply == Success(StatusCreated, PlaceView(fx.newId, p))
      && r.state.places == s.places[fx.newId := p]
      && r.state.users == s.users[caller := s.users[caller].(places := s.users[caller].places + [fx.newId])]
      && r.state.assets == s.assets
  {
    if !valid then Outcome(s, Failure(StatusUnprocessable, InvalidInputs))
    else match fx.geocode(address)
      case GeocodeFailed(code, message) => Outcome(s, Failure(code, message))
      case Located(coords) =>
        if file.None? then Outcome(s, Crash)  // `req.file.location` on an absent file
        else
          var p := Place(title, description, address, coords, file.value, caller);
          if fx.lookupFails then Outcome(s, Failure(StatusServerError, "Creating place failed, please try again."))
          else if caller !in s.users then Outcome(s, Failure(StatusNotFound, "Could not find user for provided id."))
          else if !fx.writeOk || fx.newId in s.places then
            Outcome(s, Failure(StatusServerError, "Creating place failed, please try again."))
          else
            var u := s.users[caller];
            Outcome(
              State(s.users[caller := u.(places := u.places + [fx.newId])], s.places[fx.newId := p], s.assets),
              Success(StatusCreated, PlaceView(fx.newId, p)))
  }

  /** `PATCH /api/places/:pid`: only the creator may edit; the edit sets title
      and description and, when a file came with the request, first removes
      the old image object (a failed removal is only logged) and points the
      place at the new one. A missing place is dereferenced without a check. */
  function UpdatePlace(
    s: State, caller: UserId, pid: PlaceId, title: string, description: string,
    file: Option<Url>, valid: bool, fx: Effects): (r: Outcome<PlaceView>)
    ensures r.state.users == s.users
    ensures r.state.places.Keys == s.places.Keys
    ensures !valid ==> r == Outcome(s, Failure(StatusUnprocessable, InvalidInputs))
    ensures valid && fx.lookupFails ==>
      r == Outcome(s, Failure(StatusServerError, "Something went wrong, could not update place."))
    ensures valid && !fx.lookupFails && pid !in s.places ==> r == Outcome(s, Crash)
    ensures valid && !fx.lookupFails && pid in s.places && s.places[pid].creator != caller ==>
      r == Outcome(s, Failure(StatusUnauthorized, "You are not Authorized to edit this place"))
    ensures r.reply.Success? <==>
      valid && !fx.lookupFails && pid in s.places && s.places[pid].creator == caller && fx.writeOk
    ensures r.reply.Success? ==>
      var old_ := s.places[pid];
      var p := r.state.places[pid];
      && r.reply == Success(StatusOk, PlaceView(pid, p))
      && p.title == title && p.description == description
      && p.address == old_.address && p.location == old_.location && p.creator == old_.creator
      && p.image == (if file.Some? then file.value else old_.image)
      && forall q :: q in s.places && q != pid ==> r.state.places[q] == s.places[q]
    ensures !r.reply.Success? ==> r.state.places == s.places
    // The object store changes only when the creator sent a file: the old image goes first.
    ensures r.state.assets == s.assets || (pid in s.places && r.state.assets == s.assets - {s.places[pid].image})
    ensures r.state.assets != s.assets ==>
      valid && !fx.lookupFails && s.places[pid].creator == caller && file.Some? && fx.s3DeleteOk
    // ... and when the creator sent a file and the removal works, the old image is gone, save or no save.
    ensures valid && !fx.lookupFails && pid in s.places && s.places[pid].creator == caller
            && file.Some? && fx.s3DeleteOk ==>
      r.state.assets == s.assets - {s.places[pid].image}
    ensures valid && !fx.lookupFails && pid in s.places && s.places[pid].creator == caller && !fx.writeOk ==>
      r.reply == Failure(StatusServerError, "Something went wrong, could not update place.")
  {
    if !valid then Outcome(s, Failure(StatusUnprocessable, InvalidInputs))
    else if fx.lookupFails then Outcome(s, Failure(StatusServerError, "Something went wrong, could not update place."))
    else if pid !in s.places then Outcome(s, Crash)  // `place.creator` on a null place
    else
      var p := s.places[pid];
      if p.creator != caller then Outcome(s, Failure(StatusUnauthorized, "You are not Authorized to edit this place"))
      else
        var assets := if file.Some? && fx.s3DeleteOk then s.assets - {p.image} else s.assets;
        var edited := p.(title := title, description := description,
                         image := if file.Some? then file.value else p.image);
        if !fx.writeOk then
          Outcome(s.(assets := assets), Failure(StatusServerError, "Something went wrong, could not update place."))
        else
          Outcome(s.(places := s.places[pid := edited], assets := assets), Success(StatusOk, PlaceView(pid, edited)))
  }

  /** `DELETE /api/places/:pid`: only the creator may delete; the image object
      is removed first (a failed removal is only logged), then one transaction
      deletes the place and pulls its id from the creator's list. A creator
      missing from `users` is dereferenced without a check. */
  function DeletePlace(s: State, caller: UserId, pid: PlaceId, fx: Effects): (r: Outcome<string>)
    ensures fx.lookupFails ==> r == Outcome(s, Failure(StatusServerError, "Something went wrong, could not delete place."))
    ensures !fx.lookupFails && pid !in s.places ==> r == Outcome(s, Failure(StatusNotFound, "Could not find place for this id."))
    ensures !fx.lookupFails && pid in s.places && s.places[pid].creator !in s.users ==> r == Outcome(s, Crash)
    ensures !fx.lookupFails && pid in s.places && s.places[pid].creator in s.users && s.places[pid].creator != caller ==>
      r == Outcome(s, Failure(StatusUnauthorized, "You are not Authorized to delete this place."))
    ensures r.reply.Success? <==>
      && !fx.lookupFails && pid in s.places && s.places[pid].creator in s.users
      && s.places[pid].creator == caller && fx.writeOk
    ensures r.reply.Success? ==>
      var u := s.users[caller];
      && r.reply == Success(StatusOk, "Deleted place.")
      && r.state.places == s.places - {pid}
      && r.state.users == s.users[caller := u.(places := Pull(u.places, pid))]
    ensures !r.reply.Success? ==> r.state.users == s.users && r.state.places == s.places
    ensures r.state.assets == s.assets || (pid in s.places && r.state.assets == s.assets - {s.places[pid].image})
    ensures r.state.assets != s.assets ==>
      !fx.lookupFails && s.places[pid].creator == caller && fx.s3DeleteOk
    // ... and for the creator the image goes whenever the removal works, commit or no commit.
    ensures !fx.lookupFails && pid in s.places && s.places[pid].creator in s.users
            && s.places[pid].creator == caller && fx.s3DeleteOk ==>
      r.state.assets == s.assets - {s.places[pid].image}
    ensures !fx.lookupFails && pid in s.places && s.places[pid].creator in s.users
            && s.places[pid].creator == caller && !fx.writeOk ==>
      r.reply == Failure(StatusServerError, "Something went wrong, please try again later.")
  {
    if fx.lookupFails then Outcome(s, Failure(StatusServerError, "Something went wrong, could not delete place."))
    else if pid !in s.places then Outcome(s, Failure(StatusNotFound, "Could not find place for this id."))
    else
      var p := s.places[pid];
      if p.creator !in s.users then Outcome(s, Crash)  // `place.creator.id` on a null creator
      else if p.creator != caller then
        Outcome(s, Failure(StatusUnauthorized, "You are not Authorized to delete this place."))
      else
        var assets := if fx.s3DeleteOk then s.assets - {p.image} else s.assets;
        if !fx.writeOk then
          Outcome(s.(assets := assets), Failure(StatusServerError, "Something went wrong, please try again later."))
        else
          var u := s.users[caller];
          Outcome(
            State(s.users[caller := u.(places := Pull(u.places, pid))], s.places - {pid}, assets),
            Success(StatusOk, "Deleted place."))
  }

  // ----------------------------------------------------- the link is kept

  /** Creating a place keeps the two-way link, on success and on every error. */
  lemma CreatePreservesLinked(
    s: State, caller: UserId, title: string, description: string, address: string,
    file: Option<Url>, valid: bool, fx: Effects)
    requires Linked(s)
    ensures Linked(CreatePlace(s, caller, title, description, address, file, valid, fx).state)
  {
    var r := CreatePlace(s, caller, title, description, address, file, valid, fx);
    if r.reply.Success? {
      var t := r.state;
      var id := fx.newId;
      var u := s.users[caller];
      LinkedNoStaleIds(s, id);
      AppendFreshDistinct(u.places, id);
      assert CreatorsList(t) by {
        forall pid | pid in t.places
          ensures t.places[pid].creator in t.users && pid in t.users[t.places[pid].creator].places
        {
          if pid != id {
            var c := s.places[pid].creator;
            assert pid in s.users[c].places;
            if c == caller {
              assert pid in u.places + [id];
            }
          } else {
            assert id in u.places + [id];
          }
        }
      }
      assert ListsOwned(t) by {
        forall uid | uid in t.users
          ensures Distinct(t.users[uid].places)
          ensures forall pid :: pid in t.users[uid].places ==> pid in t.places && t.places[pid].creator == uid
        {
          if uid == caller {
            forall pid | pid in u.places + [id]
              ensures pid in t.places && t.places[pid].creator == uid
            {
              if pid != id {
                assert pid in u.places;
              }
            }
          }
        }
      }
    }
  }

  /** Editing a place keeps the two-way link: no creator and no list changes. */
  lemma UpdatePreservesLinked(
    s: State, caller: UserId, pid: PlaceId, title: string, description: string,
    file: Option<Url>, valid: bool, fx: Effects)
    requires Linked(s)
    ensures Linked(UpdatePlace(s, caller, pid, title, description, file, valid, fx).state)
  {
    var t := UpdatePlace(s, caller, pid, title, description, file, valid, fx).state;
    assert forall q :: q in t.places ==> t.places[q].creator == s.places[q].creator;
  }

  /** Deleting a place keeps the two-way link, on success and on every error. */
  lemma DeletePreservesLinked(s: State, caller: UserId, pid: PlaceId, fx: Effects)
    requires Linked(s)
    ensures Linked(DeletePlace(s, caller, pid, fx).state)
  {
    var r := DeletePlace(s, caller, pid, fx);
    if r.reply.Success? {
      var t := r.state;
      var u := s.users[caller];
      PullDistinct(u.places, pid);
      assert CreatorsList(t) by {
        forall q | q in t.places
          ensures t.places[q].creator in t.users && q in t.users[t.places[q].creator].places
        {
          var c := s.places[q].creator;
          assert q in s.users[c].places;
        }
      }
      assert ListsOwned(t) by {
        forall uid | uid in t.users
          ensures Distinct(t.users[uid].places)
          ensures forall q :: q in t.users[uid].places ==> q in t.places && t.places[q].creator == uid
        {
          if uid != caller {
            forall q | q in s.users[uid].places
              ensures q in t.places && t.places[q].creator == uid
            {
              assert s.places[q].creator == uid;
              assert q != pid;
            }
          }
        }
      }
    }
  }

  // ------------------------------------------------- reads see the writes

  /** A created place is what a read of its id returns. */
  lemma CreateThenGet(
    s: State, caller: UserId, title: string, description: string, address: string,
    file: Option<Url>, valid: bool, fx: Effects)
    requires CreatePlace(s, caller, title, description, address, file, valid, fx).reply.Success?
    ensures
      var r := CreatePlace(s, caller, title, description, address, file, valid, fx);
      GetPlaceById(r.state, fx.newId, fx.(lookupFails := false)) == Success(StatusOk, r.reply.value)
  {
  }

  /** A deleted place reads as 404 and is listed by no user any more. */
  lemma DeleteThenGet(s: State, caller: UserId, pid: PlaceId, fx: Effects)
    requires Linked(s)
    requires DeletePlace(s, caller, pid, fx).reply.Success?
    ensures
      var t := DeletePlace(s, caller, pid, fx).state;
      && GetPlaceById(t, pid, fx.(lookupFails := false)).Failure?
      && GetPlaceById(t, pid, fx.(lookupFails := false)).code == StatusNotFound
      && forall uid :: uid in t.users ==> pid !in t.users[uid].places
  {
    DeletePreservesLinked(s, caller, pid, fx);
    var t := DeletePlace(s, caller, pid, fx).state;
    LinkedNoStaleIds(t, pid);
  }

  /** The old image object goes before the save: when the save then fails,
      the unchanged place still points at an object that is gone. */
  lemma UpdateFailedSaveLeavesDanglingImage(
    s: State, caller: UserId, pid: PlaceId, title: string, description: string,
    newImage: Url, fx: Effects)
    requires pid in s.places && s.places[pid].creator == caller
    requires !fx.lookupFails && fx.s3DeleteOk && !fx.writeOk
    ensures
      var r := UpdatePlace(s, caller, pid, title, description, Some(newImage), true, fx);
      && r.reply == Failure(StatusServerError, "Something went wrong, could not update place.")
      && r.state.places[pid] == s.places[pid]
      && s.places[pid].image !in r.state.assets
  {
  }

  /** The image object goes before the transaction: when the transaction then
      fails, the place stays and points at an object that is gone. */
  lemma DeleteFailedCommitLeavesDanglingImage(s: State, caller: UserId, pid: PlaceId, fx: Effects)
    requires pid in s.places && s.places[pid].creator == caller && caller in s.users
    requires !fx.lookupFails && fx.s3DeleteOk && !fx.writeOk
    ensures
      var r := DeletePlace(s, caller, pid, fx);
      && r.reply == Failure(StatusServerError, "Something went wrong, please try again later.")
      && r.state.places[pid] == s.places[pid]
      && s.places[pid].image !in r.state.assets
  {
  }
}
