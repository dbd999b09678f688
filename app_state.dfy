/**
 * The client state container (`AppProvider`): the session user, the cart, the discovery
 * state (search query, selected event, found photos) and the one-slot toast. Navigation done
 * by the container itself (after login and logout) is recorded in `route`.
 */
module AppState {
  import opened Types
  import Seqs

  const AdminEmail := "admin@midiaz.com"
  const PhotographerEmail := "fotografo@midiaz.com"
  const Avatar := "/placeholder.svg?height=80&width=80"
  const AddedMessage := "Foto adicionada ao carrinho!"
  const RemovedMessage := "Foto removida do carrinho"
  const LogoutMessage := "Logout realizado com sucesso"

  /** The cart line `addToCart` builds from the caller's item and a fresh id. */
  function Line(id: nat, item: NewCartItem): CartItem
  {
    CartItem(id, item.photoId, item.eventId, item.eventName, item.price, item.image)
  }

  /** A cart line without its id. */
  function Payload(l: CartItem): NewCartItem
  {
    NewCartItem(l.photoId, l.eventId, l.eventName, l.price, l.image)
  }

  /** Line ids are pairwise distinct and all below the next fresh id. */
  predicate FreshIds(cart: seq<CartItem>, next: nat)
  {
    && (forall i :: 0 <= i < |cart| ==> cart[i].id < next)
    && Seqs.Pairwise(cart, (a: CartItem, b: CartItem) => a.id != b.id)
  }

  /** `prev.filter((item) => item.id !== id)`. */
  function RemoveLine(cart: seq<CartItem>, id: nat): seq<CartItem>
  {
    Seqs.Filter(cart, (l: CartItem) => l.id != id)
  }

  /** Removal drops exactly the lines carrying that id. */
  lemma RemoveLineMembers(cart: seq<CartItem>, id: nat, l: CartItem)
    ensures l in RemoveLine(cart, id) <==> l in cart && l.id != id
  {
    Seqs.FilterMembers(cart, (l: CartItem) => l.id != id, l);
  }

  /** Removal keeps the remaining lines in their order. */
  lemma RemoveLineKeepsOrder(cart: seq<CartItem>, id: nat)
    ensures Seqs.IsSubsequence(RemoveLine(cart, id), cart)
  {
    Seqs.FilterIsSubsequence(cart, (l: CartItem) => l.id != id);
  }

  /** Removing an id that no line carries leaves the cart as it was. */
  lemma RemoveAbsentIsNoop(cart: seq<CartItem>, id: nat)
    requires forall i :: 0 <= i < |cart| ==> cart[i].id != id
    ensures RemoveLine(cart, id) == cart
  {
    Seqs.FilterKeepsAll(cart, (l: CartItem) => l.id != id);
  }

  /** Removal keeps the ids fresh and distinct. */
  lemma RemoveKeepsFresh(cart: seq<CartItem>, next: nat, id: nat)
    requires FreshIds(cart, next)
    ensures FreshIds(RemoveLine(cart, id), next)
  {
    var r := RemoveLine(cart, id);
    Seqs.FilterPairwise(cart, (l: CartItem) => l.id != id, (a: CartItem, b: CartItem) => a.id != b.id);
    forall i | 0 <= i < |r| ensures r[i].id < next {
      RemoveLineMembers(cart, id, r[i]);
    }
  }

  /**
   * Adding the same photo twice gives two lines with distinct ids and no quantity;
   * removing the first by its id leaves exactly the second.
   */
  lemma AddTwiceThenRemoveOne(cart: seq<CartItem>, next: nat, item: NewCartItem)
    requires FreshIds(cart, next)
    ensures var twice := cart + [Line(next, item), Line(next + 1, item)];
      && FreshIds(twice, next + 2)
      && Payload(twice[|cart|]) == Payload(twice[|cart| + 1]) == item
      && RemoveLine(twice, next) == cart + [Line(next + 1, item)]
  {
    var p := (l: CartItem) => l.id != next;
    Seqs.FilterAppend(cart, [Line(next, item), Line(next + 1, item)], p);
    Seqs.FilterKeepsAll(cart, p);
  }

  /** Where a freshly signed-in user of each role is sent. */
  function HomeRoute(role: Role): string
  {
    match role
    case Admin => "/admin/dashboard"
    case Photographer => "/photographer/dashboard"
    case Consumer => "/"
  }

  /** The user set by a successful mock login and the route pushed after it. */
  datatype SignIn = SignIn(user: User, route: string)

  /** The mock credential check of `login`: the fixed emails pick a role whatever the password. */
  function Authenticate(email: string, password: string): (r: Option<SignIn>)
    ensures r.Some? <==> email == AdminEmail || email == PhotographerEmail || (email != "" && password != "")
    ensures r.Some? ==> r.value.user.email == email && r.value.route == HomeRoute(r.value.user.role)
    ensures r.Some? ==> (r.value.user.role == Admin <==> email == AdminEmail)
    ensures r.Some? ==> (r.value.user.role == Photographer <==> email == PhotographerEmail)
  {
    if email == AdminEmail then
      Some(SignIn(User("admin-1", "Admin Midiaz", AdminEmail, Avatar, Admin), "/admin/dashboard"))
    else if email == PhotographerEmail then
      Some(SignIn(User("photographer-1", "João Silva", PhotographerEmail, Avatar, Photographer), "/photographer/dashboard"))
    else if email != "" && password != "" then
      Some(SignIn(User("user-1", "Maria Silva", email, Avatar, Consumer), "/"))
    else
      None
  }

  class App {
    var user: Option<User>
    var cart: seq<CartItem>
    /** Source of fresh line ids (stands for the time-and-random id string). */
    var nextLineId: nat
    const events: seq<Event>
    const photos: seq<Photo>
    var searchQuery: string
    var selectedEvent: Option<Event>
    var foundPhotos: seq<Photo>
    var toastMessage: string
    var toastType: ToastKind
    /** The last path the container pushed to the router, if any. */
    var route: Option<string>

    predicate Valid()
      reads this
    {
      FreshIds(cart, nextLineId)
    }

    /** The initial state of `AppProvider`: no session, empty cart, nothing found. */
    constructor (events: seq<Event>, photos: seq<Photo>)
      ensures Valid()
      ensures user == None && cart == [] && foundPhotos == []
      ensures searchQuery == "" && selectedEvent == None
      ensures toastMessage == "" && toastType == Info && route == None
      ensures this.events == events && this.photos == photos
    {
      user := None;
      cart := [];
      nextLineId := 0;
      this.events := events;
      this.photos := photos;
      searchQuery := "";
      selectedEvent := None;
      foundPhotos := [];
      toastMessage := "";
      toastType := Info;
      route := None;
    }

    /** `showToast`: the type defaults to "info". */
    method ShowToast(message: string, kind: Option<ToastKind>)
      modifies this`toastMessage, this`toastType
      ensures toastMessage == message
      ensures toastType == (if kind.Some? then kind.value else Info)
    {
      toastMessage := message;
      toastType := if kind.Some? then kind.value else Info;
    }

    /** `addToCart`: appends one line with a fresh id; earlier lines are untouched. */
    method AddToCart(item: NewCartItem)
      requires Valid()
      modifies this`cart, this`nextLineId, this`toastMessage, this`toastType
      ensures Valid()
      ensures cart == old(cart) + [Line(old(nextLineId), item)]
      ensures nextLineId > old(nextLineId)
      ensures toastMessage == AddedMessage && toastType == Success
    {
      cart := cart + [Line(nextLineId, item)];
      nextLineId := nextLineId + 1;
      ShowToast(AddedMessage, Some(Success));
    }

    /** `removeFromCart`: drops the lines with that id. */
    method RemoveFromCart(id: nat)
      requires Valid()
      modifies this`cart, this`toastMessage, this`toastType
      ensures Valid()
      ensures cart == RemoveLine(old(cart), id)
      ensures toastMessage == RemovedMessage && toastType == Info
    {
      RemoveKeepsFresh(cart, nextLineId, id);
      cart := RemoveLine(cart, id);
      ShowToast(RemovedMessage, Some(Info));
    }

    /** `clearCart`. */
    method ClearCart()
      requires Valid()
      modifies this`cart
      ensures Valid() && cart == []
    {
      cart := [];
    }

    /** `login`: on success sets the user and routes to the role's home; otherwise changes nothing. */
    method Login(email: string, password: string) returns (ok: bool)
      modifies this`user, this`route
      ensures ok == Authenticate(email, password).Some?
      ensures ok ==> user == Some(Authenticate(email, password).value.user)
      ensures ok ==> route == Some(Authenticate(email, password).value.route)
      ensures !ok ==> user == old(user) && route == old(route)
    {
      var decision := Authenticate(email, password);
      match decision
      case None =>
        ok := false;
      case Some(signIn) =>
        user := Some(signIn.user);
        route := Some(signIn.route);
        ok := true;
    }

    /** `logout`: ends the session, empties the cart, goes home and says so. */
    method Logout()
      requires Valid()
      modifies this`user, this`cart, this`route, this`toastMessage, this`toastType
      ensures Valid()
      ensures user == None && cart == [] && route == Some("/")
      ensures toastMessage == LogoutMessage && toastType == Success
    {
      user := None;
      ClearCart();
      route := Some("/");
      ShowToast(LogoutMessage, Some(Success));
    }

    /** `setUser`. */
    method SetUser(u: Option<User>)
      modifies this`user
      ensures user == u
    {
      user := u;
    }

    /** `setSearchQuery`. */
    method SetSearchQuery(q: string)
      modifies this`searchQuery
      ensures searchQuery == q
    {
      searchQuery := q;
    }

    /** `setSelectedEvent`. */
    method SetSelectedEvent(e: Option<Event>)
      modifies this`selectedEvent
      ensures selectedEvent == e
    {
      selectedEvent := e;
    }

    /** `setFoundPhotos`: wholesale replacement, never a merge. */
    method SetFoundPhotos(ps: seq<Photo>)
      modifies this`foundPhotos
      ensures foundPhotos == ps
    {
      foundPhotos := ps;
    }
  }
}
