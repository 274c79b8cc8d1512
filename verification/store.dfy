/** The backend's persistent state: the `users` and `places` collections and
    the image objects in the bucket, with the link between them. */
module Store {
  import opened Common
  import opened Seqs

  type UserId = string
  type PlaceId = string
  /** The URL of an image object; the bucket key is derived from it. */
  type Url = string

  /** Geocoded coordinates of an address. */
  datatype Coords = Coords(lat: real, lng: real)

  /** A bcrypt digest. Its own type, so a plaintext password can never be
      stored where a digest belongs. */
  datatype Digest = Digest(text: string)

  /** A document of the `places` collection. */
  datatype Place = Place(
    title: string,
    description: string,
    address: string,
    location: Coords,
    image: Url,
    creator: UserId)

  /** A document of the `users` collection; `places` lists the ids of the
      places the user created. */
  datatype User = User(
    name: string,
    email: string,
    image: Url,
    password: Digest,
    places: seq<PlaceId>)

  datatype State = State(
    users: map<UserId, User>,
    places: map<PlaceId, Place>,
    assets: set<Url>)

  /** A controller's result: the state afterwards and the reply. */
  datatype Outcome<+T> = Outcome(state: State, reply: Reply<T>)

  /** Every place's creator exists and lists the place. */
  ghost predicate CreatorsList(s: State) {
    forall pid :: pid in s.places ==>
      s.places[pid].creator in s.users && pid in s.users[s.places[pid].creator].places
  }

  /** Every id a user lists is a place that user created, listed once. */
  ghost predicate ListsOwned(s: State) {
    forall uid :: uid in s.users ==>
      && Distinct(s.users[uid].places)
      && forall pid :: pid in s.users[uid].places ==> pid in s.places && s.places[pid].creator == uid
  }

  /** The two-way creator/places link the controllers maintain. */
  ghost predicate Linked(s: State) {
    CreatorsList(s) && ListsOwned(s)
  }

  /** No two users share an email address. */
  ghost predicate UniqueEmails(s: State) {
    forall a, b :: a in s.users && b in s.users && s.users[a].email == s.users[b].email ==> a == b
  }

  /** Some stored user has this email (`User.findOne({ email })` finds one). */
  predicate EmailTaken(s: State, email: string) {
    exists id | id in s.users :: s.users[id].email == email
  }

  /** The ids of the places whose creator is `uid`. */
  ghost function CreatedBy(s: State, uid: UserId): set<PlaceId> {
    set pid | pid in s.places && s.places[pid].creator == uid
  }

  /** Under the link, a user's list and the places naming them as creator are
      the same set of ids: either side can answer "which places are theirs". */
  lemma LinkedListIsCreatedBy(s: State, uid: UserId)
    requires Linked(s)
    requires uid in s.users
    ensures forall pid :: pid in s.users[uid].places <==> pid in CreatedBy(s, uid)
  {
  }

  /** A place missing from the collection is listed by nobody. */
  lemma LinkedNoStaleIds(s: State, pid: PlaceId)
    requires Linked(s)
    requires pid !in s.places
    ensures forall uid :: uid in s.users ==> pid !in s.users[uid].places
  {
  }
}
