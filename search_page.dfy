/**
 * The search page: the event filter driven by the global and the local query, the API status
 * probe, the category shortcut and the "find my photos" face-search workflow with its
 * local fallback.
 */
module SearchPage {
  import opened Types
  import Seqs
  import Text
  import AppState

  /** The query in force: a non-empty global query wins over the local one. */
  function EffectiveQuery(globalQuery: string, localQuery: string): string
  {
    if globalQuery != "" then globalQuery else localQuery
  }

  /** An event matches a lower-cased query on its name, location, photographer or category. */
  predicate EventMatches(e: Event, query: string)
  {
    || Text.Contains(Text.ToLower(e.name), query)
    || Text.Contains(Text.ToLower(e.location), query)
    || Text.Contains(Text.ToLower(e.photographer), query)
    || Text.Contains(Text.ToLower(e.category), query)
  }

  /** `filteredEvents` as the effect computes it. */
  function FilterEvents(events: seq<Event>, globalQuery: string, localQuery: string): seq<Event>
  {
    if globalQuery == "" && localQuery == "" then events
    else
      var q := Text.ToLower(EffectiveQuery(globalQuery, localQuery));
      Seqs.Filter(events, (e: Event) => EventMatches(e, q))
  }

  /** With both queries empty every event is listed. */
  lemma NoQueryKeepsAll(events: seq<Event>)
    ensures FilterEvents(events, "", "") == events
  {
  }

  /** The lower-cased query occurs inside one of the lower-cased fields. */
  ghost predicate FieldOccurrence(e: Event, q: string)
  {
    || (exists i :: Text.OccursAt(Text.ToLower(e.name), q, i))
    || (exists i :: Text.OccursAt(Text.ToLower(e.location), q, i))
    || (exists i :: Text.OccursAt(Text.ToLower(e.photographer), q, i))
    || (exists i :: Text.OccursAt(Text.ToLower(e.category), q, i))
  }

  /** With some query, an event is listed iff the query occurs in one of its four fields. */
  lemma QueryKeepsExactlyMatches(events: seq<Event>, globalQuery: string, localQuery: string, e: Event)
    requires globalQuery != "" || localQuery != ""
    ensures var q := Text.ToLower(EffectiveQuery(globalQuery, localQuery));
      e in FilterEvents(events, globalQuery, localQuery) <==> e in events && FieldOccurrence(e, q)
  {
    var q := Text.ToLower(EffectiveQuery(globalQuery, localQuery));
    Seqs.FilterMembers(events, (x: Event) => EventMatches(x, q), e);
    Text.ContainsAt(Text.ToLower(e.name), q);
    Text.ContainsAt(Text.ToLower(e.location), q);
    Text.ContainsAt(Text.ToLower(e.photographer), q);
    Text.ContainsAt(Text.ToLower(e.category), q);
  }

  /** The listed events keep the catalogue order. */
  lemma FilterEventsKeepsOrder(events: seq<Event>, globalQuery: string, localQuery: string)
    ensures Seqs.IsSubsequence(FilterEvents(events, globalQuery, localQuery), events)
  {
    if globalQuery == "" && localQuery == "" {
      Seqs.FilterKeepsAll(events, (e: Event) => true);
      Seqs.FilterIsSubsequence(events, (e: Event) => true);
    } else {
      var q := Text.ToLower(EffectiveQuery(globalQuery, localQuery));
      Seqs.FilterIsSubsequence(events, (e: Event) => EventMatches(e, q));
    }
  }

  /** A non-empty global query decides alone: the local query is then ignored. */
  lemma GlobalQueryWins(events: seq<Event>, globalQuery: string, local1: string, local2: string)
    requires globalQuery != ""
    ensures FilterEvents(events, globalQuery, local1) == FilterEvents(events, globalQuery, local2)
  {
  }

  /** The filter ignores the case of the query. */
  lemma QueryCaseIgnored(events: seq<Event>, query: string)
    ensures FilterEvents(events, Text.ToLower(query), "") == FilterEvents(events, query, "")
  {
    Text.ToLowerIdempotent(query);
    if query != "" {
      assert Text.ToLower(query) != "";
    }
  }

  datatype ApiStatus = Checking | Available | Unavailable

  /** What the health probe did: answered with a flag, or threw. */
  datatype HealthOutcome = Answered(healthy: bool) | HealthThrew

  /** One match returned by the face-search endpoint. */
  datatype SearchMatch = SearchMatch(photoId: string, eventId: string, confidence: real)

  /** What the face-search call did: returned a body, or threw. */
  datatype FindOutcome = Returned(success: bool, photosFound: int, matches: seq<SearchMatch>) | FindThrew

  /** The random price and bib number drawn for the i-th mapped match. */
  datatype Draw = Draw(price: real, number: Option<int>)

  const LoginFirstMessage := "Faça login para usar o reconhecimento facial"
  const NoneFoundMessage := "Nenhuma foto encontrada com você neste evento"
  const SearchErrorMessage := "Erro ao buscar fotos. Tente novamente."
  const Placeholder := "/placeholder.svg"

  function FoundMessage(n: nat): string
  {
    "Encontramos " + Text.Digits(n) + " fotos com você!"
  }

  /** The image of the first catalogue photo of that event, or the placeholder. */
  function BackfillImage(catalogue: seq<Photo>, eventId: string): (r: string)
    ensures r != ""
    ensures (forall i :: 0 <= i < |catalogue| ==> catalogue[i].eventId != eventId) ==> r == Placeholder
    ensures r == Placeholder || exists i :: 0 <= i < |catalogue| && catalogue[i].eventId == eventId && catalogue[i].image == r
    ensures forall k ::
              (0 <= k < |catalogue| && catalogue[k].eventId == eventId
               && forall j :: 0 <= j < k ==> catalogue[j].eventId != eventId)
              ==> r == (if catalogue[k].image == "" then Placeholder else catalogue[k].image)
  {
    if catalogue == [] then Placeholder
    else if catalogue[0].eventId == eventId then
      (if catalogue[0].image == "" then Placeholder else catalogue[0].image)
    else
      var r := BackfillImage(catalogue[1..], eventId);
      assert forall i :: 1 <= i < |catalogue| ==> catalogue[i] == catalogue[1..][i - 1];
      r
  }

  /** The service matches turned into found photos, in the order returned. */
  function FromMatches(matches: seq<SearchMatch>, catalogue: seq<Photo>, draw: nat -> Draw): (r: seq<Photo>)
    ensures |r| == |matches|
    ensures forall i :: 0 <= i < |r| ==>
      && r[i].id == matches[i].photoId && r[i].eventId == matches[i].eventId
      && r[i].confidence == Some(matches[i].confidence) && r[i].hasUser
    ensures forall i :: 0 <= i < |r| ==>
      && r[i].image == BackfillImage(catalogue, matches[i].eventId)
      && r[i].price == draw(i).price && r[i].number == draw(i).number
  {
    seq(|matches|, i requires 0 <= i < |matches| =>
      Photo(matches[i].photoId, matches[i].eventId, BackfillImage(catalogue, matches[i].eventId),
            draw(i).price, true, Some(matches[i].confidence), draw(i).number))
  }

  /** The fallback: the catalogue photos of that event that are tagged with the user. */
  function LocalMatches(catalogue: seq<Photo>, eventId: string): seq<Photo>
  {
    Seqs.Filter(catalogue, (p: Photo) => p.eventId == eventId && p.hasUser)
  }

  /** The fallback lists exactly the tagged catalogue photos of the event, in catalogue order. */
  lemma LocalMatchesExact(catalogue: seq<Photo>, eventId: string, p: Photo)
    ensures p in LocalMatches(catalogue, eventId) <==> p in catalogue && p.eventId == eventId && p.hasUser
    ensures Seqs.IsSubsequence(LocalMatches(catalogue, eventId), catalogue)
  {
    Seqs.FilterMembers(catalogue, (x: Photo) => x.eventId == eventId && x.hasUser, p);
    Seqs.FilterIsSubsequence(catalogue, (x: Photo) => x.eventId == eventId && x.hasUser);
  }

  /** The found photos and the toast that a logged-in search ends with. */
  datatype SearchEnd = SearchEnd(found: seq<Photo>, message: string, kind: ToastKind)

  function SearchResult(catalogue: seq<Photo>, eventId: string, outcome: FindOutcome, draw: nat -> Draw): (r: SearchEnd)
    ensures outcome.Returned? && outcome.success && outcome.photosFound > 0 ==>
              r.found == FromMatches(outcome.matches, catalogue, draw) && r.kind == Success
    ensures outcome.Returned? && outcome.success && outcome.photosFound > 0 ==>
              r.message == FoundMessage(outcome.photosFound)
    ensures outcome.FindThrew? ==> r.found == LocalMatches(catalogue, eventId) && r.kind == Error
    ensures outcome.FindThrew? ==> r.message == SearchErrorMessage
    ensures outcome.Returned? && !(outcome.success && outcome.photosFound > 0) ==>
              r.found == LocalMatches(catalogue, eventId)
              && (r.kind == Info <==> r.found == [])
              && (r.kind == Success <==> r.found != [])
    ensures outcome.Returned? && !(outcome.success && outcome.photosFound > 0) ==>
              r.message == (if r.found == [] then NoneFoundMessage else FoundMessage(|r.found|))
  {
    match outcome
    case Returned(success, n, matches) =>
      if success && n > 0 then
        SearchEnd(FromMatches(matches, catalogue, draw), FoundMessage(n), Success)
      else
        var local := LocalMatches(catalogue, eventId);
        if |local| > 0 then SearchEnd(local, FoundMessage(|local|), Success)
        else SearchEnd(local, NoneFoundMessage, Info)
    case FindThrew =>
      SearchEnd(LocalMatches(catalogue, eventId), SearchErrorMessage, Error)
  }

  /** Every photo a search ends with shows the user; service photos carry its confidence. */
  lemma SearchResultTagged(catalogue: seq<Photo>, eventId: string, outcome: FindOutcome, draw: nat -> Draw, p: Photo)
    requires p in SearchResult(catalogue, eventId, outcome, draw).found
    ensures p.hasUser
    ensures !(outcome.Returned? && outcome.success && outcome.photosFound > 0) ==>
              p in catalogue && p.eventId == eventId
  {
    if !(outcome.Returned? && outcome.success && outcome.photosFound > 0) {
      LocalMatchesExact(catalogue, eventId, p);
    }
  }

  class Search {
    var localSearchQuery: string
    var isSearching: bool
    var apiStatus: ApiStatus
    var showFilters: bool
    /** The last path this page pushed to the router, if any. */
    var route: Option<string>
    /** How many face-search requests this page has issued. */
    ghost var searchRequests: nat

    constructor ()
      ensures localSearchQuery == "" && !isSearching && apiStatus == Checking
      ensures !showFilters && route == None && searchRequests == 0
    {
      localSearchQuery := "";
      isSearching := false;
      apiStatus := Checking;
      showFilters := false;
      route := None;
      searchRequests := 0;
    }

    /** `checkApiStatus`: available only when the probe answers true. */
    method CheckApiStatus(outcome: HealthOutcome)
      modifies this`apiStatus
      ensures apiStatus == Available <==> outcome == Answered(true)
      ensures apiStatus == Unavailable <==> outcome != Answered(true)
    {
      match outcome
      case Answered(healthy) =>
        apiStatus := if healthy then Available else Unavailable;
      case HealthThrew =>
        apiStatus := Unavailable;
    }

    /** `handleSearch`. */
    method HandleSearch(query: string)
      modifies this`localSearchQuery
      ensures localSearchQuery == query
    {
      localSearchQuery := query;
    }

    /** `handleFilterByCategory`: the category becomes the local query and the panel closes. */
    method HandleFilterByCategory(category: string)
      modifies this`localSearchQuery, this`showFilters
      ensures localSearchQuery == category && !showFilters
    {
      localSearchQuery := category;
      showFilters := false;
    }

    /** `handleEventClick`. */
    method HandleEventClick(app: AppState.App, e: Event)
      modifies app`selectedEvent, this`route
      ensures app.selectedEvent == Some(e) && route == Some("/event/" + e.id)
    {
      app.SetSelectedEvent(Some(e));
      route := Some("/event/" + e.id);
    }

    /**
     * `handleFindMyPhotos`: without a session, an error toast and the login page, and no request;
     * otherwise one request, whose outcome decides the found photos and the toast.
     */
    method HandleFindMyPhotos(app: AppState.App, eventId: string, outcome: FindOutcome, draw: nat -> Draw)
      modifies this`isSearching, this`route, this`searchRequests
      modifies app`foundPhotos, app`toastMessage, app`toastType
      ensures app.user.None? ==>
                && app.foundPhotos == old(app.foundPhotos)
                && app.toastMessage == LoginFirstMessage && app.toastType == Error
                && route == Some("/login")
                && searchRequests == old(searchRequests) && isSearching == old(isSearching)
      ensures app.user.Some? ==>
                var r := SearchResult(app.photos, eventId, outcome, draw);
                && app.foundPhotos == r.found
                && app.toastMessage == r.message && app.toastType == r.kind
                && route == Some("/found-photos")
                && searchRequests == old(searchRequests) + 1 && !isSearching
    {
      if app.user.None? {
        app.ShowToast(LoginFirstMessage, Some(Error));
        route := Some("/login");
        return;
      }
      isSearching := true;
      searchRequests := searchRequests + 1;
      var r := SearchResult(app.photos, eventId, outcome, draw);
      app.SetFoundPhotos(r.found);
      app.ShowToast(r.message, Some(r.kind));
      route := Some("/found-photos");
      isSearching := false;
    }
  }
}
