/** The user's place list page: dropping a deleted place from the loaded list. */
module UserPlacesPage {
  import opened Seqs

  /** A place as the list holds it, from the API's JSON. */
  datatype LoadedPlace = LoadedPlace(id: string, title: string, description: string, image: string, address: string, creator: string)

  function IdOf(p: LoadedPlace): string { p.id }

  /** `placeDeletedHandler(id)`: `prevPlaces.filter(place => place.id !== id)`. */
  function PlaceDeleted(places: seq<LoadedPlace>, deletedId: string): (r: seq<LoadedPlace>)
    ensures forall p :: p in r ==> p.id != deletedId
    ensures forall p :: p in places && p.id != deletedId ==> p in r
    ensures forall p :: multiset(r)[p] == if p.id == deletedId then 0 else multiset(places)[p]
  {
    ExcludeCounts(places, IdOf, deletedId);
    Exclude(places, IdOf, deletedId)
  }

  /** The kept places stay in their order: deleting from a list split in two is
      deleting from each part. */
  lemma DeletedKeepsOrder(a: seq<LoadedPlace>, b: seq<LoadedPlace>, deletedId: string)
    ensures PlaceDeleted(a + b, deletedId) == PlaceDeleted(a, deletedId) + PlaceDeleted(b, deletedId)
  {
    ExcludeAppend(a, b, IdOf, deletedId);
  }

  /** Deleting an id the list does not hold leaves it as it is. */
  lemma DeleteAbsentIsNoOp(places: seq<LoadedPlace>, deletedId: string)
    requires forall i :: 0 <= i < |places| ==> places[i].id != deletedId
    ensures PlaceDeleted(places, deletedId) == places
  {
    ExcludeAbsent(places, IdOf, deletedId);
  }

  /** Handling the same deletion twice is handling it once. */
  lemma DeleteTwiceIsOnce(places: seq<LoadedPlace>, deletedId: string)
    ensures PlaceDeleted(PlaceDeleted(places, deletedId), deletedId) == PlaceDeleted(places, deletedId)
  {
    ExcludeIdempotent(places, IdOf, deletedId);
  }
}
