/**
 * The found-photos page: the selection of photo ids, select-all, the price of the selection,
 * the average confidence, the confidence bands and "add selected to cart".
 */
module FoundPhotosPage {
  import opened Types
  import Seqs
  import AppState

  /** `prev.includes(id) ? prev.filter((x) => x !== id) : [...prev, id]`. */
  function Toggle(sel: seq<string>, id: string): seq<string>
  {
    if id in sel then Seqs.Filter(sel, (x: string) => x != id) else sel + [id]
  }

  /** Toggle adds an absent id at the end and removes every copy of a present one. */
  lemma ToggleMembers(sel: seq<string>, id: string, x: string)
    ensures id !in sel ==> Toggle(sel, id) == sel + [id]
    ensures id in sel ==> (x in Toggle(sel, id) <==> x in sel && x != id)
  {
    if id in sel {
      Seqs.FilterMembers(sel, (y: string) => y != id, x);
    }
  }

  /** Toggling an absent id twice gives back the selection exactly. */
  lemma ToggleTwiceRestores(sel: seq<string>, id: string)
    requires id !in sel
    ensures Toggle(Toggle(sel, id), id) == sel
  {
    var p := (y: string) => y != id;
    Seqs.FilterAppend(sel, [id], p);
    Seqs.FilterKeepsAll(sel, p);
  }

  /** Toggling a present id twice gives back the same set of ids, with that id moved last. */
  lemma ToggleTwicePresent(sel: seq<string>, id: string, x: string)
    requires id in sel
    ensures Toggle(Toggle(sel, id), id) == Seqs.Filter(sel, (y: string) => y != id) + [id]
    ensures x in Toggle(Toggle(sel, id), id) <==> x in sel
  {
    var once := Seqs.Filter(sel, (y: string) => y != id);
    Seqs.FilterMembers(sel, (y: string) => y != id, id);
    Seqs.FilterMembers(sel, (y: string) => y != id, x);
    assert Toggle(sel, id) == once;
  }

  /** Toggling never creates a duplicate id. */
  lemma ToggleKeepsNoDup(sel: seq<string>, id: string)
    requires Seqs.NoDup(sel)
    ensures Seqs.NoDup(Toggle(sel, id))
  {
    if id in sel {
      Seqs.FilterNoDup(sel, (y: string) => y != id);
    }
  }

  function Ids(found: seq<Photo>): (r: seq<string>)
    ensures |r| == |found|
    ensures forall i :: 0 <= i < |found| ==> r[i] == found[i].id
  {
    seq(|found|, i requires 0 <= i < |found| => found[i].id)
  }

  /** The select-all button: clear when the counts match, otherwise every found id in order. */
  function SelectAllToggle(sel: seq<string>, found: seq<Photo>): (r: seq<string>)
    ensures |sel| == |found| ==> r == []
    ensures |sel| != |found| ==> r == Ids(found)
  {
    if |sel| == |found| then [] else Ids(found)
  }

  /** `found[k]` is the first found photo with that id. */
  predicate FirstWithId(found: seq<Photo>, id: string, k: int)
  {
    && 0 <= k < |found| && found[k].id == id
    && forall j :: 0 <= j < k ==> found[j].id != id
  }

  /** `foundPhotos.find((p) => p.id === id)`. */
  function Find(found: seq<Photo>, id: string): (r: Option<Photo>)
    ensures r.None? <==> id !in Ids(found)
    ensures r.Some? ==> r.value in found && r.value.id == id
    ensures forall k {:trigger FirstWithId(found, id, k)} :: FirstWithId(found, id, k) ==> r == Some(found[k])
  {
    if found == [] then None
    else if found[0].id == id then Some(found[0])
    else
      var r := Find(found[1..], id);
      assert Ids(found) == [found[0].id] + Ids(found[1..]);
      assert forall k :: 1 <= k < |found| ==> found[k] == found[1..][k - 1];
      assert forall k {:trigger FirstWithId(found, id, k)} ::
        FirstWithId(found, id, k) ==> FirstWithId(found[1..], id, k - 1);
      r
  }

  /** The price a selected id contributes: `photo?.price || 0`. */
  function PriceOf(found: seq<Photo>, id: string): real
  {
    match Find(found, id)
    case None => 0.0
    case Some(p) => p.price
  }

  /** `totalPrice`: the summed price of the selected ids, missing ids counting 0. */
  function TotalPrice(sel: seq<string>, found: seq<Photo>): real
  {
    if sel == [] then 0.0 else TotalPrice(sel[..|sel| - 1], found) + PriceOf(found, sel[|sel| - 1])
  }

  function SumPrices(ps: seq<Photo>): real
  {
    if ps == [] then 0.0 else SumPrices(ps[..|ps| - 1]) + ps[|ps| - 1].price
  }

  lemma {:induction false} TotalPriceAppend(a: seq<string>, b: seq<string>, found: seq<Photo>)
    ensures TotalPrice(a + b, found) == TotalPrice(a, found) + TotalPrice(b, found)
  {
    if b != [] {
      assert (a + b)[..|a + b| - 1] == a + b[..|b| - 1];
      TotalPriceAppend(a, b[..|b| - 1], found);
    } else {
      assert a + b == a;
    }
  }

  /** Selecting an absent photo adds its price to the total; deselecting it takes it off again. */
  lemma ToggleAbsentTotal(sel: seq<string>, id: string, found: seq<Photo>)
    requires id !in sel
    ensures TotalPrice(Toggle(sel, id), found) == TotalPrice(sel, found) + PriceOf(found, id)
    ensures TotalPrice(Toggle(Toggle(sel, id), id), found) == TotalPrice(sel, found)
  {
    assert (sel + [id])[..|sel|] == sel;
    ToggleTwiceRestores(sel, id);
  }

  /** With distinct ids, each found photo is what `find` returns for its own id. */
  lemma {:induction false} FindOwnId(found: seq<Photo>, k: nat)
    requires Seqs.NoDup(Ids(found)) && k < |found|
    ensures Find(found, found[k].id) == Some(found[k])
  {
    if k > 0 {
      assert Ids(found)[0] != Ids(found)[k];
      assert Seqs.NoDup(Ids(found[1..])) by {
        forall i, j | 0 <= i < j < |found| - 1 ensures Ids(found[1..])[i] != Ids(found[1..])[j] {
          assert Ids(found)[i + 1] != Ids(found)[j + 1];
        }
      }
      FindOwnId(found[1..], k - 1);
    }
  }

  /** Selecting all of a list with distinct ids costs the sum of its prices. */
  lemma {:induction false} SelectAllTotal(found: seq<Photo>, n: nat)
    requires Seqs.NoDup(Ids(found)) && n <= |found|
    ensures TotalPrice(Ids(found)[..n], found) == SumPrices(found[..n])
  {
    if n > 0 {
      SelectAllTotal(found, n - 1);
      assert Ids(found)[..n][..n - 1] == Ids(found)[..n - 1];
      assert found[..n][..n - 1] == found[..n - 1];
      FindOwnId(found, n - 1);
    }
  }

  /** The three confidence bands the page distinguishes. */
  datatype Band = High | Medium | Low

  /** `confidence >= 90` is high, `>= 80` medium, anything lower low. */
  function BandOf(confidence: real): (b: Band)
    ensures b == High <==> confidence >= 90.0
    ensures b == Medium <==> 80.0 <= confidence < 90.0
    ensures b == Low <==> confidence < 80.0
  {
    if confidence >= 90.0 then High
    else if confidence >= 80.0 then Medium
    else Low
  }

  /** The badge colour of a confidence. */
  function ConfidenceColor(confidence: real): string
  {
    match BandOf(confidence)
    case High => "bg-green-500"
    case Medium => "bg-yellow-500"
    case Low => "bg-red-500"
  }

  /** The badge text of a confidence. */
  function ConfidenceText(confidence: real): string
  {
    match BandOf(confidence)
    case High => "Alta confiança"
    case Medium => "Média confiança"
    case Low => "Baixa confiança"
  }

  /** The badge colour and its text always name the same band. */
  lemma BadgeAgreesWithText(confidence: real)
    ensures ConfidenceColor(confidence) == "bg-green-500" <==> ConfidenceText(confidence) == "Alta confiança"
    ensures ConfidenceColor(confidence) == "bg-yellow-500" <==> ConfidenceText(confidence) == "Média confiança"
    ensures ConfidenceColor(confidence) == "bg-red-500" <==> ConfidenceText(confidence) == "Baixa confiança"
  {
  }

  /** `photo.confidence || 0`. */
  function ConfidenceOrZero(p: Photo): real
  {
    if p.confidence.Some? then p.confidence.value else 0.0
  }

  function SumConfidence(ps: seq<Photo>): real
  {
    if ps == [] then 0.0 else SumConfidence(ps[..|ps| - 1]) + ConfidenceOrZero(ps[|ps| - 1])
  }

  /** Every stated confidence is a percentage. */
  predicate Percentages(ps: seq<Photo>)
  {
    forall i :: 0 <= i < |ps| && ps[i].confidence.Some? ==> 0.0 <= ps[i].confidence.value <= 100.0
  }

  lemma {:induction false} SumConfidenceBounds(ps: seq<Photo>)
    requires Percentages(ps)
    ensures 0.0 <= SumConfidence(ps) <= 100.0 * |ps| as real
  {
    if ps != [] {
      SumConfidenceBounds(ps[..|ps| - 1]);
    }
  }

  /** `averageConfidence`, reached only once the list is known to be non-empty. */
  function AverageConfidence(found: seq<Photo>): (r: real)
    requires |found| > 0
    ensures r == SumConfidence(found) / |found| as real
    ensures Percentages(found) ==> 0.0 <= r <= 100.0
  {
    assert Percentages(found) ==> 0.0 <= SumConfidence(found) <= 100.0 * |found| as real by {
      if Percentages(found) {
        SumConfidenceBounds(found);
      }
    }
    SumConfidence(found) / |found| as real
  }

  /** The lines `handleAddToCart` adds: one per selected id found, in selection order. */
  function ToAdd(sel: seq<string>, found: seq<Photo>, event: Option<Event>): seq<NewCartItem>
  {
    if sel == [] || event.None? then []
    else
      var rest := ToAdd(sel[..|sel| - 1], found, event);
      match Find(found, sel[|sel| - 1])
      case None => rest
      case Some(p) => rest + [NewCartItem(p.id, p.eventId, event.value.name, p.price, p.image)]
  }

  /** One more selected id adds at most its own line. */
  lemma ToAddStep(sel: seq<string>, found: seq<Photo>, event: Option<Event>, i: nat)
    requires i < |sel|
    ensures ToAdd(sel[..i + 1], found, event) ==
              ToAdd(sel[..i], found, event) +
              (if event.Some? && Find(found, sel[i]).Some?
               then var p := Find(found, sel[i]).value; [NewCartItem(p.id, p.eventId, event.value.name, p.price, p.image)]
               else [])
  {
    assert sel[..i + 1][..i] == sel[..i];
  }

  function SumNew(items: seq<NewCartItem>): real
  {
    if items == [] then 0.0 else SumNew(items[..|items| - 1]) + items[|items| - 1].price
  }

  /** The cart receives exactly the total the page shows for the selection. */
  lemma {:induction false} AddedPriceIsTotal(sel: seq<string>, found: seq<Photo>, e: Event)
    ensures SumNew(ToAdd(sel, found, Some(e))) == TotalPrice(sel, found)
  {
    if sel != [] {
      var init, last := sel[..|sel| - 1], sel[|sel| - 1];
      var rest := ToAdd(init, found, Some(e));
      AddedPriceIsTotal(init, found, e);
      assert TotalPrice(sel, found) == TotalPrice(init, found) + PriceOf(found, last);
      match Find(found, last)
      case None =>
        assert ToAdd(sel, found, Some(e)) == rest;
      case Some(p) =>
        var item := NewCartItem(p.id, p.eventId, e.name, p.price, p.image);
        assert ToAdd(sel, found, Some(e)) == rest + [item];
        assert (rest + [item])[..|rest|] == rest;
        assert SumNew(rest + [item]) == SumNew(rest) + p.price;
    }
  }

  /** Without a selected event nothing is added. */
  lemma NothingAddedWithoutEvent(sel: seq<string>, found: seq<Photo>)
    ensures ToAdd(sel, found, None) == []
  {
  }

  /** The cart lines without their ids. */
  function Payloads(cart: seq<CartItem>): (r: seq<NewCartItem>)
    ensures |r| == |cart|
    ensures forall i :: 0 <= i < |cart| ==> r[i] == AppState.Payload(cart[i])
  {
    if cart == [] then [] else Payloads(cart[..|cart| - 1]) + [AppState.Payload(cart[|cart| - 1])]
  }

  /** Appending one cart line appends its payload to the payloads of any suffix. */
  lemma PayloadsAppendOne(cart: seq<CartItem>, start: nat, l: CartItem)
    requires start <= |cart|
    ensures Payloads((cart + [l])[start..]) == Payloads(cart[start..]) + [AppState.Payload(l)]
  {
    assert (cart + [l])[start..] == cart[start..] + [l];
    assert (cart[start..] + [l])[..|cart[start..]|] == cart[start..];
  }

  class FoundPhotos {
    var selected: seq<string>
    /** The last path this page pushed to the router, if any. */
    var route: Option<string>

    constructor ()
      ensures selected == [] && route == None
    {
      selected := [];
      route := None;
    }

    /** `togglePhotoSelection`. */
    method TogglePhotoSelection(id: string)
      modifies this`selected
      ensures selected == Toggle(old(selected), id)
    {
      selected := Toggle(selected, id);
    }

    /** The select-all / deselect-all button. */
    method ToggleSelectAll(found: seq<Photo>)
      modifies this`selected
      ensures selected == SelectAllToggle(old(selected), found)
    {
      if |selected| == |found| {
        selected := [];
      } else {
        selected := Ids(found);
      }
    }

    /** `handleAddToCart`: one `addToCart` per selected id found, then on to the cart. */
    method HandleAddToCart(app: AppState.App)
      requires app.Valid()
      modifies app`cart, app`nextLineId, app`toastMessage, app`toastType, this`route
      ensures app.Valid()
      ensures |app.cart| >= |old(app.cart)| && app.cart[..|old(app.cart)|] == old(app.cart)
      ensures Payloads(app.cart[|old(app.cart)|..]) == ToAdd(selected, app.foundPhotos, app.selectedEvent)
      ensures ToAdd(selected, app.foundPhotos, app.selectedEvent) == [] ==>
                app.toastMessage == old(app.toastMessage) && app.toastType == old(app.toastType)
      ensures ToAdd(selected, app.foundPhotos, app.selectedEvent) != [] ==>
                app.toastMessage == AppState.AddedMessage && app.toastType == Success
      ensures route == Some("/cart")
    {
      var start := |app.cart|;
      var i := 0;
      while i < |selected|
        invariant 0 <= i <= |selected|
        invariant app.Valid()
        invariant |app.cart| >= start && app.cart[..start] == old(app.cart)
        invariant Payloads(app.cart[start..]) == ToAdd(selected[..i], app.foundPhotos, app.selectedEvent)
        invariant ToAdd(selected[..i], app.foundPhotos, app.selectedEvent) == [] ==>
                    app.toastMessage == old(app.toastMessage) && app.toastType == old(app.toastType)
        invariant ToAdd(selected[..i], app.foundPhotos, app.selectedEvent) != [] ==>
                    app.toastMessage == AppState.AddedMessage && app.toastType == Success
      {
        ToAddStep(selected, app.foundPhotos, app.selectedEvent, i);
        var photo := Find(app.foundPhotos, selected[i]);
        if photo.Some? && app.selectedEvent.Some? {
          var p := photo.value;
          ghost var before := app.cart;
          app.AddToCart(NewCartItem(p.id, p.eventId, app.selectedEvent.value.name, p.price, p.image));
          PayloadsAppendOne(before, start, app.cart[|app.cart| - 1]);
        }
        i := i + 1;
      }
      assert selected[..i] == selected;
      route := Some("/cart");
    }
  }
}
