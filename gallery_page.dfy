/**
 * The event gallery: the face and number filters, and the count badge of each filter.
 */
module GalleryPage {
  import opened Types
  import Seqs

  /** A gallery photo (its price label and like counter are display only and left out). */
  datatype GalleryPhoto = GalleryPhoto(id: nat, hasUser: bool, number: Option<int>)

  /** The random part of one mock photo: whether it shows the user and its bib number. */
  datatype GalleryDraw = GalleryDraw(hasUser: bool, number: Option<int>)

  /** The mock list: ids 1, 2, … in order, with the drawn flags. */
  function MockPhotos(draws: seq<GalleryDraw>): (r: seq<GalleryPhoto>)
    ensures |r| == |draws|
    ensures forall i :: 0 <= i < |r| ==> r[i].id == i + 1 && r[i].hasUser == draws[i].hasUser && r[i].number == draws[i].number
  {
    seq(|draws|, i requires 0 <= i < |draws| => GalleryPhoto(i + 1, draws[i].hasUser, draws[i].number))
  }

  /** A drawn bib number is 1..99 or absent. */
  predicate ValidNumber(n: Option<int>)
  {
    n.None? || 1 <= n.value <= 99
  }

  /** JavaScript truthiness of `photo.number`: present and non-zero. */
  predicate HasNumber(p: GalleryPhoto)
  {
    p.number.Some? && p.number.value != 0
  }

  predicate ShowsUser(p: GalleryPhoto)
  {
    p.hasUser
  }

  /** `filteredPhotos` for the active filter id; an unknown id keeps everything. */
  function FilterPhotos(photos: seq<GalleryPhoto>, activeFilter: string): seq<GalleryPhoto>
  {
    if activeFilter == "face" then Seqs.Filter(photos, ShowsUser)
    else if activeFilter == "number" then Seqs.Filter(photos, HasNumber)
    else photos
  }

  /** The badge count of each filter button. */
  function Count(photos: seq<GalleryPhoto>, filterId: string): nat
  {
    match filterId
    case "all" => |photos|
    case "face" => |Seqs.Filter(photos, ShowsUser)|
    case "number" => |Seqs.Filter(photos, HasNumber)|
    case _ => 0
  }

  /** Each of the three buttons counts exactly the photos its filter shows. */
  lemma CountMatchesFilter(photos: seq<GalleryPhoto>, filterId: string)
    requires filterId in {"all", "face", "number"}
    ensures Count(photos, filterId) == |FilterPhotos(photos, filterId)|
  {
  }

  /** A photo is shown by a filter exactly when it has the filtered property; order is kept. */
  lemma FilterPhotosExact(photos: seq<GalleryPhoto>, activeFilter: string, p: GalleryPhoto)
    ensures activeFilter == "face" ==> (p in FilterPhotos(photos, activeFilter) <==> p in photos && p.hasUser)
    ensures activeFilter == "number" ==> (p in FilterPhotos(photos, activeFilter) <==> p in photos && HasNumber(p))
    ensures activeFilter != "face" && activeFilter != "number" ==> FilterPhotos(photos, activeFilter) == photos
    ensures Seqs.IsSubsequence(FilterPhotos(photos, activeFilter), photos)
  {
    Seqs.FilterMembers(photos, ShowsUser, p);
    Seqs.FilterMembers(photos, HasNumber, p);
    if activeFilter == "face" {
      Seqs.FilterIsSubsequence(photos, ShowsUser);
    } else if activeFilter == "number" {
      Seqs.FilterIsSubsequence(photos, HasNumber);
    } else {
      Seqs.FilterKeepsAll(photos, (q: GalleryPhoto) => true);
      Seqs.FilterIsSubsequence(photos, (q: GalleryPhoto) => true);
    }
  }

  /** For drawn numbers (1..99 or absent) the number filter keeps exactly the numbered photos. */
  lemma NumberFilterIsPresence(photos: seq<GalleryPhoto>, p: GalleryPhoto)
    requires p in photos && ValidNumber(p.number)
    ensures p in FilterPhotos(photos, "number") <==> p.number.Some?
  {
    Seqs.FilterMembers(photos, HasNumber, p);
  }
}
