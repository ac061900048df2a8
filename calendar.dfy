/** The calendar feed of src/Calidarr.py: `CalendarHandler.run` registers
    `try_add_event` as the handler's gig callback, and each record it receives
    is offered to `add_event` when it passes the country filter. */
module Calendar {
  import opened Text
  import opened Gigs
  import opened Calidarr

  /** `any(location.lower().endswith(c.lower()) for c in countries)`. */
  function CountryPass(location: string, countries: seq<string>): (r: bool)
    ensures r <==> exists i :: 0 <= i < |countries| && EndsWith(Lower(location), Lower(countries[i]))
    decreases |countries|
  {
    if countries == [] then false
    else if EndsWith(Lower(location), Lower(countries[0])) then true
    else
      var rest := CountryPass(location, countries[1..]);
      assert forall i :: 1 <= i < |countries| ==> countries[i] == countries[1..][i - 1];
      rest
  }

  /** The test of `try_add_event` (lines 344-351). With no country the
      location is never read; otherwise a missing location raises inside the
      try block and the gig is dropped. */
  function Offered(g: Gig, countries: seq<string>): (r: bool)
    ensures countries == [] ==> r
    ensures countries != [] ==> (r <==> g.location.Some? && exists i :: 0 <= i < |countries| && EndsWith(Lower(g.location.value), Lower(countries[i])))
  {
    if countries == [] then true
    else match g.location
      case None => false
      case Some(location) => CountryPass(location, countries)
  }

  /** The records offered to `add_event`, in the order the callback received them. */
  function OfferedGigs(received: seq<Gig>, countries: seq<string>): seq<Gig>
    decreases |received|
  {
    if received == [] then []
    else (if Offered(received[0], countries) then [received[0]] else []) + OfferedGigs(received[1..], countries)
  }

  /** Exactly the received records that pass the filter are offered to `add_event`. */
  lemma {:induction false} OfferedGigsMembers(received: seq<Gig>, countries: seq<string>, g: Gig)
    ensures g in OfferedGigs(received, countries) <==> g in received && Offered(g, countries)
    decreases |received|
  {
    if received != [] {
      OfferedGigsMembers(received[1..], countries, g);
      assert received == [received[0]] + received[1..];
    }
  }

  /** Filtering a concatenation filters each part, in order. */
  lemma {:induction false} OfferedGigsSplit(a: seq<Gig>, b: seq<Gig>, countries: seq<string>)
    ensures OfferedGigs(a + b, countries) == OfferedGigs(a, countries) + OfferedGigs(b, countries)
    decreases |a|
  {
    if a == [] {
      assert a + b == b;
    } else {
      assert (a + b)[1..] == a[1..] + b;
      OfferedGigsSplit(a[1..], b, countries);
    }
  }

  /** With no country every received record is offered to `add_event`. */
  lemma {:induction false} NoCountryOffersAll(received: seq<Gig>)
    ensures OfferedGigs(received, []) == received
    decreases |received|
  {
    if received != [] {
      NoCountryOffersAll(received[1..]);
    }
  }

  /** A location that ends with a country as written passes the filter in any case. */
  lemma CaseSensitiveSuffixPasses(g: Gig, countries: seq<string>, i: nat)
    requires i < |countries| && g.location.Some? && EndsWith(g.location.value, countries[i])
    ensures Offered(g, countries)
  {
    EndsWithLower(g.location.value, countries[i]);
  }

  /** The filter ignores case on both sides. */
  lemma FilterIgnoresCase(countries: seq<string>)
    ensures Offered(Gig("A", None, None, None, None, Some("Berlin, Germany"), None), ["GERMANY"])
    ensures !Offered(Gig("A", None, None, None, None, Some("Berlin, Germany"), None), ["France"])
    ensures countries != [] ==> !Offered(Gig("A", None, None, None, None, None, None), countries)
  {
    assert Lower("Berlin, Germany")[8..] == Lower("GERMANY");
    var l := Lower("Berlin, Germany");
    assert l[|l| - 6..] != Lower("France") by {
      assert l[|l| - 6] == 'e' && Lower("France")[0] == 'f';
    }
  }

  // ------------------------------------------------- the run of a calendar

  /** The names as `set_artists_from_lidarr` stores them; `fold` stands for unidecode. */
  function FoldedNames(names: seq<string>, fold: string -> string): (r: seq<string>)
    ensures |r| == |names|
  {
    seq(|names|, i requires 0 <= i < |names| => fold(names[i]))
  }

  /** The selection `run` obtains as written (lines 353-355): the library
      items hold the folded names, but `start` is given the names unfolded. */
  function RunSelection(names: seq<string>, fold: string -> string): seq<string> {
    Selected(FoldedItems(names, fold), names)
  }

  /** The selection `run` evidently intends: every given artist. */
  function RunSelectionFolded(names: seq<string>, fold: string -> string): seq<string> {
    Selected(FoldedItems(names, fold), FoldedNames(names, fold))
  }

  /** Items whose names were all requested are all selected, in order. */
  lemma {:induction false} SelectedAll(items: seq<Item>, data: seq<string>)
    requires forall i :: 0 <= i < |items| ==> items[i].name in data
    ensures Selected(items, data) == seq(|items|, i requires 0 <= i < |items| => items[i].name)
    decreases |items|
  {
    if items != [] {
      SelectedAll(items[1..], data);
    }
  }

  /** As written, a given name is selected only when unidecode leaves some given name unchanged. */
  lemma RunSelectionAsWritten(names: seq<string>, fold: string -> string, n: string)
    ensures n in RunSelection(names, fold) <==> n in names && exists i :: 0 <= i < |names| && fold(names[i]) == n
  {
    var items := FoldedItems(names, fold);
    SelectedMembers(items, names, n);
    if exists i :: 0 <= i < |names| && fold(names[i]) == n {
      var i :| 0 <= i < |names| && fold(names[i]) == n;
      assert items[i].name == n;
    }
  }

  /** "Björk" is stored as "Bjork" and never matched, so the run selects no artist. */
  lemma RunSelectionMissesAccentedName()
    ensures var fold := (x: string) => if x == "Bj\U{F6}rk" then "Bjork" else x;
      RunSelection(["Bj\U{F6}rk"], fold) == []
  {
    var fold := (x: string) => if x == "Bj\U{F6}rk" then "Bjork" else x;
    RunSelectionAsWritten(["Bj\U{F6}rk"], fold, "Bjork");
    assert "Bjork" != "Bj\U{F6}rk" by {
      assert "Bjork"[2] != "Bj\U{F6}rk"[2];
    }
    var sel := RunSelection(["Bj\U{F6}rk"], fold);
    if sel != [] {
      assert sel[0] in sel;
      RunSelectionAsWritten(["Bj\U{F6}rk"], fold, sel[0]);
    }
  }

  /** Corrected: with the request folded like the items every given artist is searched, in order. */
  lemma RunSelectionFoldedSelectsAll(names: seq<string>, fold: string -> string)
    ensures RunSelectionFolded(names, fold) == FoldedNames(names, fold)
  {
    var items := FoldedItems(names, fold);
    assert forall i :: 0 <= i < |items| ==> items[i].name == FoldedNames(names, fold)[i];
    SelectedAll(items, FoldedNames(names, fold));
  }

  /** What a calendar run offers to `add_event`: a fresh handler gets the given names as its
      library, the corrected selection starts a pass, and every record the
      pass delivers to `try_add_event` is filtered by country. */
  function CalendarEntries(s: Run, names: seq<string>, fold: string -> string, countries: seq<string>,
                           lookup: string -> Lookup, cancel: Cancel): seq<Gig>
  {
    var r := StartSpec(s.(items := FoldedItems(names, fold), delivered := []), FoldedNames(names, fold),
                       true, true, lookup, cancel);
    OfferedGigs(r.delivered, countries)
  }

  /** A calendar run with the request folded like the library items (the
      corrected selection of `RunSelectionFoldedSelectsAll`) offers to
      `add_event`, in search order, exactly the records of the given artists
      searched before any stop request that pass the country filter. */
  lemma CalendarOffersFilteredRecords(s: Run, names: seq<string>, fold: string -> string, countries: seq<string>,
                                     lookup: string -> Lookup, cancel: Cancel)
    requires !s.inProgress && names != []
    ensures var sel := FoldedNames(names, fold);
      CalendarEntries(s, names, fold, countries, lookup, cancel)
        == OfferedGigs(AllGigs(sel[..Visited(cancel, |sel|)], lookup), countries)
  {
    var s1 := s.(items := FoldedItems(names, fold), delivered := []);
    var data := FoldedNames(names, fold);
    assert s1.items[0].name == data[0];
    RunSelectionFoldedSelectsAll(names, fold);
    StartRunsPass(s1, data, true, lookup, cancel);
  }
}
