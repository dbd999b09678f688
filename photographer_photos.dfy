/**
 * The photographer's photo list: a title search combined with a status filter and an event
 * filter, each of which "all" switches off.
 */
module PhotographerPhotos {
  import Seqs
  import Text

  /** A managed photo (the view, sale and revenue counters are display only and left out). */
  datatype ManagedPhoto = ManagedPhoto(id: int, title: string, event: string, date: string,
                                       location: string, status: string, image: string)

  const All := "all"

  /** The three conditions of `filteredPhotos`, all of which must hold. */
  predicate Matches(p: ManagedPhoto, searchTerm: string, statusFilter: string, eventFilter: string)
  {
    && Text.Contains(Text.ToLower(p.title), Text.ToLower(searchTerm))
    && (statusFilter == All || p.status == statusFilter)
    && (eventFilter == All || p.event == eventFilter)
  }

  function FilteredPhotos(photos: seq<ManagedPhoto>, searchTerm: string, statusFilter: string, eventFilter: string)
    : seq<ManagedPhoto>
  {
    Seqs.Filter(photos, (p: ManagedPhoto) => Matches(p, searchTerm, statusFilter, eventFilter))
  }

  /**
   * A photo is listed exactly when the lower-cased term occurs in its lower-cased title (its
   * event and location are not searched) and both filters admit it; the list keeps the order.
   */
  lemma FilteredPhotosExact(photos: seq<ManagedPhoto>, searchTerm: string, statusFilter: string, eventFilter: string,
                            p: ManagedPhoto)
    ensures p in FilteredPhotos(photos, searchTerm, statusFilter, eventFilter) <==>
            && p in photos
            && (exists i :: Text.OccursAt(Text.ToLower(p.title), Text.ToLower(searchTerm), i))
            && (statusFilter == All || p.status == statusFilter)
            && (eventFilter == All || p.event == eventFilter)
    ensures Seqs.IsSubsequence(FilteredPhotos(photos, searchTerm, statusFilter, eventFilter), photos)
  {
    var f := (q: ManagedPhoto) => Matches(q, searchTerm, statusFilter, eventFilter);
    Seqs.FilterMembers(photos, f, p);
    Text.ContainsAt(Text.ToLower(p.title), Text.ToLower(searchTerm));
    Seqs.FilterIsSubsequence(photos, f);
  }

  /** No term and both filters on "all": every photo is listed. */
  lemma NoFilterKeepsAll(photos: seq<ManagedPhoto>)
    ensures FilteredPhotos(photos, "", All, All) == photos
  {
    var f := (q: ManagedPhoto) => Matches(q, "", All, All);
    forall i | 0 <= i < |photos| ensures f(photos[i]) {
      Text.ContainsEmpty(Text.ToLower(photos[i].title));
    }
    Seqs.FilterKeepsAll(photos, f);
  }

  /** "Nenhuma foto encontrada" shows exactly when no photo passes the three conditions. */
  function ShowsEmptyMessage(photos: seq<ManagedPhoto>, searchTerm: string, statusFilter: string, eventFilter: string)
    : (r: bool)
    ensures r <==> forall i :: 0 <= i < |photos| ==> !Matches(photos[i], searchTerm, statusFilter, eventFilter)
  {
    var f := (q: ManagedPhoto) => Matches(q, searchTerm, statusFilter, eventFilter);
    var listed := FilteredPhotos(photos, searchTerm, statusFilter, eventFilter);
    assert listed != [] <==> exists i :: 0 <= i < |photos| && f(photos[i]) by {
      if listed != [] {
        Seqs.FilterMembers(photos, f, listed[0]);
      }
      if exists i :: 0 <= i < |photos| && f(photos[i]) {
        var i :| 0 <= i < |photos| && f(photos[i]);
        Seqs.FilterMembers(photos, f, photos[i]);
      }
    }
    |listed| == 0
  }
}
