/**
 * The photographer's dashboard: the metric cards for all events or one, the recent sales of
 * the selected event capped at five rows, the tab navigation and the `?event=` override.
 */
module DashboardPage {
  import opened Types
  import Seqs

  const All := "all"
  const MaxRows := 5

  datatype Metrics = Metrics(totalEvents: nat, totalPhotos: nat, monthlySales: nat, totalRevenue: real, topPhotoViews: nat)

  /** `getMetrics`: the aggregate figures for "all", the single-event figures for anything else. */
  function GetMetrics(selectedEvent: string): (r: Metrics)
    ensures selectedEvent == All ==> r.totalEvents == 5 && r.totalPhotos == 1250
    ensures selectedEvent != All ==> r.totalEvents == 1 && r.totalPhotos == 250
    ensures r.topPhotoViews == 1200
  {
    if selectedEvent == All then Metrics(5, 1250, 168, 840.0, 1200)
    else Metrics(1, 250, 45, 225.0, 1200)
  }

  /** A recent sale (photo URL, time, views and customer are display only and left out). */
  datatype Sale = Sale(id: nat, eventName: string, price: real)

  const Marathon := "Maratona São Paulo 2024"
  const Run5K := "Corrida 5K Parque Ibirapuera"

  /** The mock `recentSales` list. */
  const RecentSales: seq<Sale> := [Sale(1, Marathon, 25.0), Sale(2, Run5K, 20.0), Sale(3, Marathon, 25.0),
                                   Sale(4, Run5K, 20.0), Sale(5, Marathon, 25.0)]

  /** `filteredSales`: every sale for "all", otherwise those whose event name is exactly the selection. */
  function FilteredSales(sales: seq<Sale>, selectedEvent: string): seq<Sale>
  {
    if selectedEvent == All then sales else Seqs.Filter(sales, (s: Sale) => s.eventName == selectedEvent)
  }

  lemma FilteredSalesExact(sales: seq<Sale>, selectedEvent: string, s: Sale)
    requires selectedEvent != All
    ensures s in FilteredSales(sales, selectedEvent) <==> s in sales && s.eventName == selectedEvent
    ensures Seqs.IsSubsequence(FilteredSales(sales, selectedEvent), sales)
  {
    Seqs.FilterMembers(sales, (x: Sale) => x.eventName == selectedEvent, s);
    Seqs.FilterIsSubsequence(sales, (x: Sale) => x.eventName == selectedEvent);
  }

  /** The rows shown: `filteredSales.slice(0, 5)`. */
  function ShownRows(sales: seq<Sale>, selectedEvent: string): (r: seq<Sale>)
    ensures |r| <= MaxRows && |r| <= |FilteredSales(sales, selectedEvent)|
    ensures r == FilteredSales(sales, selectedEvent)[..|r|]
    ensures |r| == MaxRows || r == FilteredSales(sales, selectedEvent)
  {
    var f := FilteredSales(sales, selectedEvent);
    if |f| <= MaxRows then f else f[..MaxRows]
  }

  /** "Nenhuma venda encontrada para este evento" shows exactly when no sale is of the selection. */
  function ShowsNoSales(sales: seq<Sale>, selectedEvent: string): (r: bool)
    ensures r <==> (selectedEvent == All && sales == [])
                   || (selectedEvent != All && forall i :: 0 <= i < |sales| ==> sales[i].eventName != selectedEvent)
  {
    var f := FilteredSales(sales, selectedEvent);
    var p := (x: Sale) => x.eventName == selectedEvent;
    assert selectedEvent != All ==> (f != [] <==> exists i :: 0 <= i < |sales| && p(sales[i])) by {
      if selectedEvent != All {
        if f != [] {
          Seqs.FilterMembers(sales, p, f[0]);
        }
        if exists i :: 0 <= i < |sales| && p(sales[i]) {
          var i :| 0 <= i < |sales| && p(sales[i]);
          Seqs.FilterMembers(sales, p, sales[i]);
        }
      }
    }
    f == []
  }

  /** Over the mock list, the marathon has three sales, the 5K two and an unknown event none. */
  lemma RecentSalesPerEvent()
    ensures |FilteredSales(RecentSales, Marathon)| == 3
    ensures |FilteredSales(RecentSales, Run5K)| == 2
    ensures ShowsNoSales(RecentSales, "Outro evento")
  {
    var s := RecentSales;
    var m := (x: Sale) => x.eventName == Marathon;
    var k := (x: Sale) => x.eventName == Run5K;
    assert s[4..][1..] == [];
    assert Seqs.Filter(s[4..], m) == [s[4]] && Seqs.Filter(s[4..], k) == [];
    assert s[3..][1..] == s[4..];
    assert Seqs.Filter(s[3..], m) == [s[4]] && Seqs.Filter(s[3..], k) == [s[3]];
    assert s[2..][1..] == s[3..];
    assert Seqs.Filter(s[2..], m) == [s[2], s[4]] && Seqs.Filter(s[2..], k) == [s[3]];
    assert s[1..][1..] == s[2..];
    assert Seqs.Filter(s[1..], m) == [s[2], s[4]] && Seqs.Filter(s[1..], k) == [s[1], s[3]];
    assert Seqs.Filter(s, m) == [s[0], s[2], s[4]] && Seqs.Filter(s, k) == [s[1], s[3]];
  }

  /** The ids the event select offers besides "all". */
  const DropdownEvents: seq<string> := ["event-1", "event-2", "event-3", "event-4", "event-5"]

  /**
   * The select offers event ids, but the sales are filtered by event name, so every event
   * chosen from the select shows the "no sales" message over the mock list.
   */
  lemma DropdownChoicesShowNoSales(e: string)
    requires e in DropdownEvents
    ensures ShowsNoSales(RecentSales, e)
    ensures ShownRows(RecentSales, e) == []
  {
    assert forall i :: 0 <= i < |RecentSales| ==> RecentSales[i].eventName in {Marathon, Run5K};
  }

  class Dashboard {
    var activeTab: string
    var selectedEvent: string
    var route: Option<string>

    constructor ()
      ensures activeTab == "dashboard" && selectedEvent == All && route.None?
    {
      activeTab := "dashboard";
      selectedEvent := All;
      route := None;
    }

    /** The mount effect: a non-empty `event` URL parameter replaces the selection. */
    method ApplyUrlParam(hasWindow: bool, eventParam: Option<string>)
      modifies this`selectedEvent
      ensures hasWindow && eventParam.Some? && eventParam.value != "" ==> selectedEvent == eventParam.value
      ensures !(hasWindow && eventParam.Some? && eventParam.value != "") ==> selectedEvent == old(selectedEvent)
    {
      if hasWindow && eventParam.Some? && eventParam.value != "" {
        selectedEvent := eventParam.value;
      }
    }

    /** `handleTabChange`: three tabs navigate away, any other tab becomes the active one. */
    method HandleTabChange(tab: string)
      modifies this`activeTab, this`route
      ensures tab == "events" ==> route == Some("/photographer/events") && activeTab == old(activeTab)
      ensures tab == "photos" ==> route == Some("/photographer/photos") && activeTab == old(activeTab)
      ensures tab == "profile" ==> route == Some("/photographer/profile") && activeTab == old(activeTab)
      ensures tab !in {"events", "photos", "profile"} ==> activeTab == tab && route == old(route)
    {
      if tab == "events" {
        route := Some("/photographer/events");
      } else if tab == "photos" {
        route := Some("/photographer/photos");
      } else if tab == "profile" {
        route := Some("/photographer/profile");
      } else {
        activeTab := tab;
      }
    }

    /** `handleEventChange`. */
    method HandleEventChange(eventId: string)
      modifies this`selectedEvent
      ensures selectedEvent == eventId
    {
      selectedEvent := eventId;
    }
  }
}
