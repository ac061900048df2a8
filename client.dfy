/** The browser side of src/static/script.js: the country filter the user
    toggles, which cards `append_gigs` shows and in which colour, how
    `refresh_gig` restyles a card after an add attempt, the "select all" box,
    the results kept in local storage across reloads, and the theme switch.
    The page is a class whose fields are the script's globals, the cards on
    the page and the local storage entries it uses. */
module Client {
  import opened Text
  import opened Gigs
  import opened LidagigsArtists
  import C = Calidarr
  import Calendar
  import Lidagigs

  // ---------------------------------------------------------------- country filter

  /** The filter with every entry equal to `value` removed, the others in order. */
  function Without(filter: seq<string>, value: string): (r: seq<string>)
    ensures value !in r
    ensures forall x :: x != value ==> (x in r <==> x in filter)
    ensures |r| <= |filter|
    decreases |filter|
  {
    if filter == [] then []
    else (if filter[0] == value then [] else [filter[0]]) + Without(filter[1..], value)
  }

  /** `update_countries_handler` (lines 156-160): the value is removed and
      put back at the end when its box is checked. */
  function Toggled(filter: seq<string>, value: string, checked: bool): seq<string> {
    Without(filter, value) + (if checked then [value] else [])
  }

  lemma {:induction false} WithoutTwice(filter: seq<string>, value: string)
    ensures Without(Without(filter, value), value) == Without(filter, value)
    decreases |filter|
  {
    if filter != [] {
      WithoutTwice(filter[1..], value);
      var rest := Without(filter[1..], value);
      if filter[0] != value {
        assert Without(filter, value) == [filter[0]] + rest;
        assert ([filter[0]] + rest)[1..] == rest;
      } else {
        assert Without(filter, value) == [] + rest == rest;
      }
    }
  }

  lemma {:induction false} WithoutSplit(a: seq<string>, b: seq<string>, value: string)
    ensures Without(a + b, value) == Without(a, value) + Without(b, value)
    decreases |a|
  {
    if a == [] {
      assert a + b == b;
    } else {
      assert (a + b)[1..] == a[1..] + b;
      WithoutSplit(a[1..], b, value);
    }
  }

  /** The value is in the new filter exactly when its box is checked, then
      once and last; every other entry stays, in its order; toggling again
      with the same box state changes nothing. */
  lemma ToggledRule(filter: seq<string>, value: string, checked: bool)
    ensures var r := Toggled(filter, value, checked);
      && (value in r <==> checked)
      && (checked ==> r[|r| - 1] == value && value !in r[..|r| - 1])
      && (forall x :: x != value ==> (x in r <==> x in filter))
      && Without(r, value) == Without(filter, value)
      && Toggled(r, value, checked) == r
  {
    var w := Without(filter, value);
    var tail: seq<string> := if checked then [value] else [];
    WithoutTwice(filter, value);
    WithoutSplit(w, tail, value);
    assert Without(tail, value) == [] by {
      if checked {
        assert Without(tail, value) == [] + Without(tail[1..], value);
      }
    }
    assert w + tail == Toggled(filter, value, checked);
    if checked {
      assert Toggled(filter, value, checked)[..|w|] == w;
    }
  }

  /** The text of the selection button (lines 162 and 176). */
  function SelectionLabel(filter: seq<string>): string {
    if filter == [] then "all" else NatToString(|filter|) + " selected"
  }

  /** "all" exactly for the empty filter, otherwise decimal digits that read
      as the number of selected countries, followed by " selected". */
  lemma SelectionLabelRule(filter: seq<string>)
    ensures SelectionLabel(filter) == "all" <==> filter == []
    ensures filter != [] ==> var text := SelectionLabel(filter);
      && |text| > |" selected"|
      && text[|text| - |" selected"|..] == " selected"
      && (forall i :: 0 <= i < |text| - |" selected"| ==> '0' <= text[i] <= '9')
      && DigitsValue(text[..|text| - |" selected"|]) == |filter|
  {
    if filter != [] {
      var digits := NatToString(|filter|);
      var text := SelectionLabel(filter);
      assert text[0] == digits[0];
      assert "all"[0] == 'a';
      assert text[..|text| - |" selected"|] == digits;
      NatToStringValue(|filter|);
    }
  }

  // ---------------------------------------------------------------- cards

  /** The colour classes a card can carry. */
  datatype Colour = Green | Red | Blue | NoColour

  /** A gig card: the record it shows, its colour and its add button. */
  datatype Card = Card(gig: Gig, colour: Colour, addDisabled: bool, addLabel: Option<string>)

  /** A record with a location is skipped when the filter is non-empty and
      the location ends with none of its entries, compared as written (line 85). */
  predicate Skipped(g: Gig, filter: seq<string>) {
    && g.location.Some? && g.location.value != "" && filter != []
    && !(exists i :: 0 <= i < |filter| && EndsWith(g.location.value, filter[i]))
  }

  /** The colour of a new card (lines 90-100): green without a status, red
      for a status that mentions "cancelled" in any case, none otherwise. */
  function CardColour(status: Option<string>): Colour {
    if status.None? || status.value == "" then Green
    else if Contains(Lower(status.value), "cancelled") then Red
    else NoColour
  }

  /** The card `append_gigs` builds; the add button starts enabled. */
  function NewCard(g: Gig): Card {
    Card(g, CardColour(g.status), false, None)
  }

  /** The cards `append_gigs` adds for `gigs`. */
  function Shown(gigs: seq<Gig>, filter: seq<string>): seq<Card>
    decreases |gigs|
  {
    if gigs == [] then []
    else (if Skipped(gigs[0], filter) then [] else [NewCard(gigs[0])]) + Shown(gigs[1..], filter)
  }

  /** The page shows a card for exactly the records that are not skipped. */
  lemma {:induction false} ShownMembers(gigs: seq<Gig>, filter: seq<string>, g: Gig)
    ensures NewCard(g) in Shown(gigs, filter) <==> g in gigs && !Skipped(g, filter)
    decreases |gigs|
  {
    if gigs != [] {
      ShownMembers(gigs[1..], filter, g);
      assert gigs == [gigs[0]] + gigs[1..];
    }
  }

  lemma {:induction false} ShownSplit(a: seq<Gig>, b: seq<Gig>, filter: seq<string>)
    ensures Shown(a + b, filter) == Shown(a, filter) + Shown(b, filter)
    decreases |a|
  {
    if a == [] {
      assert a + b == b;
    } else {
      assert (a + b)[1..] == a[1..] + b;
      ShownSplit(a[1..], b, filter);
    }
  }

  /** With no country selected every record gets a card. */
  lemma {:induction false} NoFilterShowsAll(gigs: seq<Gig>)
    ensures |Shown(gigs, [])| == |gigs|
    ensures forall i :: 0 <= i < |gigs| ==> Shown(gigs, [])[i] == NewCard(gigs[i])
    decreases |gigs|
  {
    if gigs != [] {
      NoFilterShowsAll(gigs[1..]);
    }
  }

  /** The colour rule: green exactly without a status, red exactly for a
      cancelled one, never blue on a new card. */
  lemma CardColourRule(status: Option<string>)
    ensures CardColour(status) == Green <==> status.None? || status.value == ""
    ensures CardColour(status) == Red <==> status.Some? && status.value != "" && Contains(Lower(status.value), "cancelled")
    ensures CardColour(status) != Blue
    ensures CardColour(Some("Event CANCELLED")) == Red
  {
    assert OccursAt(Lower("Event CANCELLED"), "cancelled", 6);
  }

  /** Lidagigs records carry no status, so every Lidagigs card starts green. */
  lemma LidagigsCardsStartGreen(artist: string, img: Option<string>, l: Listing)
    ensures NewCard(Lidagigs.LidagigsGig(artist, img, l)).colour == Green
  {
  }

  /** The browser's skip and the calendar's filter compared: a record the
      browser shows for a non-empty filter is offered to `add_event` too, but a
      record without a location is shown in the browser and dropped by the calendar filter. */
  lemma BrowserAndCalendarFilters(g: Gig, filter: seq<string>)
    requires filter != []
    ensures g.location.Some? && !Skipped(g, filter) ==> Calendar.Offered(g, filter) || g.location.value == ""
    ensures g.location.None? ==> !Skipped(g, filter) && !Calendar.Offered(g, filter)
  {
    if g.location.Some? && !Skipped(g, filter) && g.location.value != "" {
      var i :| 0 <= i < |filter| && EndsWith(g.location.value, filter[i]);
      Calendar.CaseSensitiveSuffixPasses(g, filter, i);
    }
  }

  // ---------------------------------------------------------------- refresh_gig

  /** A card restyled by `refresh_gig` (lines 335-354). */
  function RefreshCard(card: Card, status: Option<string>): Card {
    if status == Some("Added") || status == Some("Already in Lidarr") then
      card.(colour := Green, addDisabled := true, addLabel := status)
    else if status == Some("Failed to Add") || status == Some("Invalid Path") then
      card.(colour := Red, addDisabled := true, addLabel := status)
    else card.(colour := Blue, addDisabled := false)
  }

  /** Every card whose title is the record's name is restyled; the callback's
      `return` only ends that card's turn, so all cards of the artist are. */
  function Refreshed(cards: seq<Card>, gig: Gig): (r: seq<Card>)
    ensures |r| == |cards|
  {
    seq(|cards|, i requires 0 <= i < |cards| =>
      if cards[i].gig.name == gig.name then RefreshCard(cards[i], gig.status) else cards[i])
  }

  /** After an add attempt every card of the artist shows the reported
      status on a disabled button: green for added or already present, red
      otherwise; cards of other artists are untouched. */
  lemma RefreshShowsAddStatus(cards: seq<Card>, gig: Gig, mbid: Option<string>, dryRun: bool, response: Response)
    requires gig.status == Some(AddStatus(mbid, dryRun, response))
    ensures var r := Refreshed(cards, gig);
            var status := AddStatus(mbid, dryRun, response);
      forall i :: 0 <= i < |cards| ==>
        if cards[i].gig.name == gig.name then
          && r[i].addDisabled && r[i].addLabel == Some(status) && r[i].gig == cards[i].gig
          && (r[i].colour == Green <==> status == "Added" || status == "Already in Lidarr")
          && (r[i].colour == Red <==> status == "Failed to Add" || status == "Invalid Path")
        else r[i] == cards[i]
  {
    AddStatusValues(mbid, dryRun, response);
  }

  /** Any other status turns the card blue and enables its button again, keeping its label. */
  lemma RefreshOtherStatus(card: Card, status: Option<string>)
    requires status.None? || status.value !in {"Added", "Already in Lidarr", "Failed to Add", "Invalid Path"}
    ensures RefreshCard(card, status) == card.(colour := Blue, addDisabled := false)
  {
  }

  // ---------------------------------------------------------------- select all

  /** The "select all" box should be checked. */
  predicate AllChecked(boxes: seq<bool>) {
    forall i :: 0 <= i < |boxes| ==> boxes[i]
  }

  /** The loop of `check_if_all_selected` (lines 27-37). */
  method CheckIfAllSelected(boxes: seq<bool>) returns (allChecked: bool)
    ensures allChecked <==> AllChecked(boxes)
    ensures boxes == [] ==> allChecked
  {
    allChecked := true;
    var i := 0;
    while i < |boxes|
      invariant 0 <= i <= |boxes|
      invariant allChecked
      invariant forall j :: 0 <= j < i ==> boxes[j]
    {
      if !boxes[i] {
        allChecked := false;
        break;
      }
      i := i + 1;
    }
  }

  /** The boxes after the "select all" box changes (lines 186-192). */
  function SetAll(boxes: seq<bool>, isChecked: bool): (r: seq<bool>)
    ensures |r| == |boxes|
  {
    seq(|boxes|, i requires 0 <= i < |boxes| => isChecked)
  }

  /** Checking "select all" checks every box; unchecking it leaves the check
      false unless there is no box. */
  lemma SelectAllAgrees(boxes: seq<bool>, isChecked: bool)
    ensures AllChecked(SetAll(boxes, isChecked)) <==> isChecked || boxes == []
  {
    if !isChecked && boxes != [] {
      assert !SetAll(boxes, isChecked)[0];
    }
  }

  // ---------------------------------------------------------------- stored results

  /** A local storage entry holding a JSON list: absent, the JSON `null` that
      "clear" stores, a list, or text that does not parse. */
  datatype Stored<T> = Missing | JsonNull | Saved(items: seq<T>) | Malformed

  /** `previous_results` and `previous_countries` (lines 39-51): the stored
      list, or an empty one for anything else. */
  function Previous<T>(s: Stored<T>): seq<T> {
    if s.Saved? then s.items else []
  }

  /** The "results" entry after the browser handled the server's events in
      order (lines 360-363 and 373-376). */
  function StoredAfter(s: Stored<Gig>, events: seq<Event>): Stored<Gig>
    decreases |events|
  {
    if events == [] then s
    else
      var next := match events[0]
        case MoreGigsLoaded(batch) => Saved(Previous(s) + batch)
        case Clear => JsonNull
        case _ => s;
      StoredAfter(next, events[1..])
  }

  lemma {:induction false} StoredAfterSplit(s: Stored<Gig>, a: seq<Event>, b: seq<Event>)
    ensures StoredAfter(s, a + b) == StoredAfter(StoredAfter(s, a), b)
    decreases |a|
  {
    if a == [] {
      assert a + b == b;
    } else {
      assert (a + b)[1..] == a[1..] + b;
      var next := match a[0]
        case MoreGigsLoaded(batch) => Saved(Previous(s) + batch)
        case Clear => JsonNull
        case _ => s;
      StoredAfterSplit(next, a[1..], b);
    }
  }

  /** Each loaded batch is appended to what was stored before. */
  lemma {:induction false} StoredAccumulates(s: Stored<Gig>, gigs: seq<Gig>)
    ensures StoredAfter(s, Loaded(gigs)) == if gigs == [] then s else Saved(Previous(s) + gigs)
    decreases |gigs|
  {
    if gigs != [] {
      var next: Stored<Gig> := Saved(Previous(s) + [gigs[0]]);
      assert Loaded(gigs)[1..] == Loaded(gigs[1..]);
      StoredAccumulates(next, gigs[1..]);
      assert Previous(next) + gigs[1..] == Previous(s) + gigs;
    }
  }

  /** After "clear" the stored results are empty, and other events leave them alone. */
  lemma ClearEmpties(s: Stored<Gig>, title: string, message: string)
    ensures Previous(StoredAfter(s, [Clear])) == []
    ensures StoredAfter(s, [Toast(title, message)]) == s
  {
  }

  /** What a start emits: "clear", one batch per record, and possibly the exhaustion toast. */
  lemma StoredAfterStart(stored: Stored<Gig>, events: seq<Event>, before: seq<Event>, raw: seq<Gig>, tail: seq<Event>)
    requires tail == [] || tail == [SearchExhausted]
    requires events == before + [Clear] + Loaded(raw) + tail
    ensures Previous(StoredAfter(stored, events[|before|..])) == raw
  {
    assert events[|before|..] == [Clear] + Loaded(raw) + tail;
    StoredAfterSplit(stored, [Clear], Loaded(raw) + tail);
    assert [Clear] + Loaded(raw) + tail == [Clear] + (Loaded(raw) + tail);
    StoredAfterSplit(JsonNull, Loaded(raw), tail);
    StoredAccumulates(JsonNull, raw);
    if tail != [] {
      assert StoredAfter(StoredAfter(JsonNull, Loaded(raw)), tail) == StoredAfter(JsonNull, Loaded(raw));
    }
  }

  /** After a Calidarr search is started, the browser's stored results are
      exactly the records the pass found, in the order they were found. */
  lemma StartStoresFoundRecords(s: C.Run, data: seq<string>, registered: bool, lookup: string -> Lookup,
                                cancel: Cancel, stored: Stored<Gig>)
    requires !s.inProgress
    requires exists i :: 0 <= i < |s.items| && s.items[i].name in data
    ensures var r := C.StartSpec(s, data, true, registered, lookup, cancel);
      Previous(StoredAfter(stored, r.events[|s.events|..])) == r.raw
  {
    C.StartEvents(s, data, registered, lookup, cancel);
    var r := C.StartSpec(s, data, true, registered, lookup, cancel);
    StoredAfterStart(stored, r.events, s.events, r.raw, if r.raw == [] then [SearchExhausted] else []);
  }

  // ---------------------------------------------------------------- theme

  /** The theme after a click on the switch (lines 471-475). */
  function NextTheme(theme: Option<string>): (t: string)
    ensures t in {"light", "dark"}
    ensures t == "light" <==> theme == Some("dark")
  {
    if theme == Some("dark") then "light" else "dark"
  }

  /** Two clicks bring a dark or light theme back. */
  lemma ThemeTogglesBack(theme: string)
    requires theme in {"light", "dark"}
    ensures NextTheme(Some(NextTheme(Some(theme)))) == theme
  {
  }

  /** The key the switch position is read from at page load (line 460). */
  const SwitchKeyRead := "switch-position"

  /** The key the click handler writes it under as written (line 477). */
  const SwitchKeyWritten := "switch_position"

  /** The switch position at page load (lines 460-464): a non-empty stored
      value checks the switch when it is "true"; otherwise the page's own state stays. */
  function RestoredSwitch(store: map<string, string>, initial: bool): bool {
    if SwitchKeyRead in store && store[SwitchKeyRead] != "" then store[SwitchKeyRead] == "true" else initial
  }

  function BoolText(b: bool): string {
    if b then "true" else "false"
  }

  /** The theme entries after a click as written (lines 476-477). */
  function ClickStoreAsWritten(store: map<string, string>, theme: Option<string>, checked: bool): map<string, string> {
    store["theme" := NextTheme(theme)][SwitchKeyWritten := BoolText(checked)]
  }

  /** The theme entries after a click with the position written under the key it is read from. */
  function ClickStore(store: map<string, string>, theme: Option<string>, checked: bool): map<string, string> {
    store["theme" := NextTheme(theme)][SwitchKeyRead := BoolText(checked)]
  }

  /** As written, a click never changes what the next page load restores:
      from a fresh browser, switching to dark and reloading shows the dark
      theme with the switch back in its initial position. */
  lemma SwitchPositionLost(store: map<string, string>, theme: Option<string>, checked: bool, initial: bool)
    ensures RestoredSwitch(ClickStoreAsWritten(store, theme, checked), initial) == RestoredSwitch(store, initial)
    ensures var after := ClickStoreAsWritten(map[], None, true);
      after["theme"] == "dark" && !RestoredSwitch(after, false)
  {
    assert SwitchKeyRead != SwitchKeyWritten by {
      assert SwitchKeyRead[6] != SwitchKeyWritten[6];
    }
  }

  /** Corrected: the next page load restores the position the click left. */
  lemma SwitchPositionRestored(store: map<string, string>, theme: Option<string>, checked: bool, initial: bool)
    ensures RestoredSwitch(ClickStore(store, theme, checked), initial) == checked
    ensures ClickStore(store, theme, checked)["theme"] == NextTheme(theme)
  {
  }

  // ---------------------------------------------------------------- the page

  class Page {
    var countriesFilter: seq<string>
    var selectionLabel: string
    var storedCountries: Stored<string>
    var storedResults: Stored<Gig>
    var cards: seq<Card>
    var theme: Option<string>
    var switchChecked: bool
    var store: map<string, string>

    /** The top-level code that runs when the page loads (lines 174-176 and
        458-468); the page starts with the switch in `initialSwitch` and no theme. */
    constructor (storedCountries: Stored<string>, storedResults: Stored<Gig>, store: map<string, string>, initialSwitch: bool)
      ensures countriesFilter == Previous(storedCountries)
      ensures selectionLabel == SelectionLabel(countriesFilter)
      ensures this.storedCountries == storedCountries && this.storedResults == storedResults && this.store == store
      ensures cards == []
      ensures switchChecked == RestoredSwitch(store, initialSwitch)
      ensures theme == if "theme" in store && store["theme"] != "" then Some(store["theme"]) else None
    {
      this.storedCountries := storedCountries;
      this.storedResults := storedResults;
      this.store := store;
      countriesFilter := Previous(storedCountries);
      selectionLabel := SelectionLabel(Previous(storedCountries));
      cards := [];
      switchChecked := initialSwitch;
      theme := None;
      if SwitchKeyRead in store && store[SwitchKeyRead] != "" {
        switchChecked := store[SwitchKeyRead] == "true";
      }
      if "theme" in store && store["theme"] != "" {
        theme := Some(store["theme"]);
      }
    }

    /** `update_countries_handler`. */
    method UpdateCountries(value: string, checked: bool)
      modifies this`countriesFilter, this`selectionLabel, this`storedCountries
      ensures countriesFilter == Toggled(old(countriesFilter), value, checked)
      ensures selectionLabel == SelectionLabel(countriesFilter)
      ensures storedCountries == Saved(countriesFilter)
    {
      countriesFilter := Toggled(countriesFilter, value, checked);
      selectionLabel := SelectionLabel(countriesFilter);
      storedCountries := Saved(countriesFilter);
    }

    /** `append_gigs` (lines 77-126): one card per record that is not skipped, in order. */
    method AppendGigs(gigs: seq<Gig>)
      modifies this`cards
      ensures cards == old(cards) + Shown(gigs, countriesFilter)
    {
      ghost var cards0 := cards;
      var i := 0;
      while i < |gigs|
        invariant 0 <= i <= |gigs|
        invariant cards == cards0 + Shown(gigs[..i], countriesFilter)
      {
        ShownSplit(gigs[..i], [gigs[i]], countriesFilter);
        assert gigs[..i + 1] == gigs[..i] + [gigs[i]];
        assert Shown([gigs[i]], countriesFilter)
            == (if Skipped(gigs[i], countriesFilter) then [] else [NewCard(gigs[i])]) + Shown([], countriesFilter);
        if !Skipped(gigs[i], countriesFilter) {
          cards := cards + [NewCard(gigs[i])];
        }
        i := i + 1;
      }
      assert gigs[..i] == gigs;
    }

    /** The "more_gigs_loaded" handler. */
    method MoreGigsLoaded(data: seq<Gig>)
      modifies this`cards, this`storedResults
      ensures cards == old(cards) + Shown(data, countriesFilter)
      ensures storedResults == StoredAfter(old(storedResults), [Event.MoreGigsLoaded(data)])
    {
      AppendGigs(data);
      storedResults := Saved(Previous(storedResults) + data);
    }

    /** The "clear" handler. */
    method Clear()
      modifies this`cards, this`storedResults
      ensures cards == []
      ensures storedResults == StoredAfter(old(storedResults), [Event.Clear])
    {
      cards := [];
      storedResults := JsonNull;
    }

    /** The "connect" handler: the page is rebuilt from the stored results. */
    method Connect()
      modifies this`cards
      ensures cards == Shown(Previous(storedResults), countriesFilter)
    {
      cards := [];
      AppendGigs(Previous(storedResults));
    }

    /** The "refresh_gig" handler. */
    method RefreshGig(gig: Gig)
      modifies this`cards
      ensures cards == Refreshed(old(cards), gig)
    {
      ghost var cards0 := cards;
      var i := 0;
      while i < |cards|
        invariant 0 <= i <= |cards| == |cards0|
        invariant forall j :: 0 <= j < i ==> cards[j] == Refreshed(cards0, gig)[j]
        invariant forall j :: i <= j < |cards| ==> cards[j] == cards0[j]
      {
        if cards[i].gig.name == gig.name {
          cards := cards[i := RefreshCard(cards[i], gig.status)];
        }
        i := i + 1;
      }
    }

    /** The theme switch's click handler, with the position stored under the key the page reads. */
    method ToggleTheme(checked: bool)
      modifies this`theme, this`switchChecked, this`store
      ensures theme == Some(NextTheme(old(theme)))
      ensures switchChecked == checked
      ensures store == ClickStore(old(store), old(theme), checked)
    {
      switchChecked := checked;
      theme := Some(NextTheme(theme));
      store := store["theme" := theme.value][SwitchKeyRead := BoolText(checked)];
    }
  }
}
