/** The values both gig finders (src/Calidarr.py and src/Lidagigs.py) share:
    the scraped records, the abstract outcome of one Songkick lookup, the
    cooperative stop request, the Lidarr library items, the socket events, and
    the artist selection that `start` builds from the library items. */
module Gigs {

  datatype Option<T> = None | Some(value: T)

  /** One `li.event-listing` of an artist's Songkick calendar page, with each
      field absent when its selector found nothing. */
  datatype Listing = Listing(
    evtLink: Option<string>,
    evtDate: Option<string>,
    stateTag: Option<string>,
    venue: Option<string>,
    location: Option<string>)

  /** A gig record, the dictionary the finders append to `raw_new_gigs`. */
  datatype Gig = Gig(
    name: string,
    imgLink: Option<string>,
    evtLink: Option<string>,
    evtDate: Option<string>,
    venue: Option<string>,
    location: Option<string>,
    status: Option<string>)

  /** What looking up one artist on Songkick yields: the search page has no
      artist link, an exception is raised before any listing is read, or the
      calendar page lists `listings`; when `raisesAfter` holds, reading the
      listing that follows them raises. */
  datatype Lookup =
    | Unresolved
    | Raises
    | Listed(img: Option<string>, listings: seq<Listing>, raisesAfter: bool)

  /** When a stop request (`stop_event.set()` from another thread) lands during
      a pass: never, or just before the pass's stop check number `k` (0-based).
      Once it has landed every later check sees it. */
  datatype Cancel = Never | AtCheck(k: nat)

  predicate StopSeen(c: Cancel) {
    c == AtCheck(0)
  }

  /** The stop schedule as seen by the check after this one. */
  function Tick(c: Cancel): Cancel {
    match c
    case Never => Never
    case AtCheck(k) => if k == 0 then c else AtCheck(k - 1)
  }

  /** A `lidarr_items` entry. */
  datatype Item = Item(name: string, checked: bool)

  /** What the server emits on its socket. */
  datatype Event =
    | Clear
    | MoreGigsLoaded(gigs: seq<Gig>)
    | Toast(title: string, message: string)
    | SidebarUpdate(status: string, code: string, data: seq<Item>, running: bool)
    | RefreshArtist(gig: Gig)

  const SearchExhausted: Event :=
    Toast("Search Exhausted", "Try selecting more artists from existing Lidarr library")

  const NoArtistsSelected: string := "No Lidarr Artists Selected"

  /** The `more_gigs_loaded` events a pass emits, one record per event. */
  function Loaded(gigs: seq<Gig>): seq<Event> {
    seq(|gigs|, i requires 0 <= i < |gigs| => MoreGigsLoaded([gigs[i]]))
  }

  lemma LoadedSplit(a: seq<Gig>, b: seq<Gig>)
    ensures Loaded(a + b) == Loaded(a) + Loaded(b)
  {
  }

  /** The library items after `start(data)` has marked them. */
  function Checked(items: seq<Item>, data: seq<string>): seq<Item> {
    seq(|items|, i requires 0 <= i < |items| => Item(items[i].name, items[i].name in data))
  }

  /** `artists_to_use_in_search` after `start(data)`. */
  function Selected(items: seq<Item>, data: seq<string>): seq<string>
    decreases |items|
  {
    if items == [] then []
    else (if items[0].name in data then [items[0].name] else []) + Selected(items[1..], data)
  }

  /** Selecting from a concatenation selects from each part, in order. */
  lemma {:induction false} SelectedSplit(a: seq<Item>, b: seq<Item>, data: seq<string>)
    ensures Selected(a + b, data) == Selected(a, data) + Selected(b, data)
    decreases |a|
  {
    if a == [] {
      assert a + b == b;
    } else {
      assert (a + b)[1..] == a[1..] + b;
      SelectedSplit(a[1..], b, data);
    }
  }

  /** The selection holds exactly the library names that were requested. */
  lemma {:induction false} SelectedMembers(items: seq<Item>, data: seq<string>, n: string)
    ensures n in Selected(items, data) <==> n in data && exists i :: 0 <= i < |items| && items[i].name == n
    decreases |items|
  {
    if items != [] {
      SelectedMembers(items[1..], data, n);
      if exists i :: 0 <= i < |items[1..]| && items[1..][i].name == n {
        var i :| 0 <= i < |items[1..]| && items[1..][i].name == n;
        assert items[i + 1].name == n;
      }
      if exists i :: 0 <= i < |items| && items[i].name == n {
        var i :| 0 <= i < |items| && items[i].name == n;
        if i > 0 {
          assert items[1..][i - 1].name == n;
        }
      }
    }
  }

  /** The selection is empty exactly when no library item was requested. */
  lemma {:induction false} SelectedEmpty(items: seq<Item>, data: seq<string>)
    ensures Selected(items, data) == [] <==> forall i :: 0 <= i < |items| ==> items[i].name !in data
    decreases |items|
  {
    if items != [] {
      SelectedEmpty(items[1..], data);
      assert forall i :: 1 <= i < |items| ==> items[i] == items[1..][i - 1];
    }
  }
}
