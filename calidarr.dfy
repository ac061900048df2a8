/** The gig finder of src/Calidarr.py. Its DataHandler keeps the search state
    between socket calls: `start` marks the requested library artists and runs
    a pass, `find_gigs` sweeps every selected artist once, appending each
    Songkick listing to `raw_new_gigs`, emitting it, and handing it to the
    registered `gig_event` callback; a pass that finds nothing reports that the
    search is exhausted.

    The socket is an event log (`events`), the callback's calls are the
    sequence of records it received (`delivered`), and each artist's Songkick
    lookup is the abstract outcome `lookup(artist)`. */
module Calidarr {
  import opened Text
  import opened Gigs
  import opened Settings

  /** The handler's search state. */
  datatype Run = Run(
    stop: bool,              // stop_event is set
    inProgress: bool,        // search_in_progress_flag
    counter: nat,            // new_found_gigs_counter
    clients: nat,            // clients_connected_counter
    items: seq<Item>,        // lidarr_items
    selection: seq<string>,  // artists_to_use_in_search
    raw: seq<Gig>,           // raw_new_gigs
    gigs: seq<Gig>,          // gigs
    events: seq<Event>,      // what was emitted on the socket, in order
    delivered: seq<Gig>)     // the records passed to gig_event, in order

  /** The record built from one listing of `artist` (lines 209-217). */
  function CalidarrGig(artist: string, img: Option<string>, l: Listing): Gig {
    Gig(artist, img, l.evtLink, l.evtDate, l.venue, l.location, l.stateTag)
  }

  function Stamped(artist: string, img: Option<string>, ls: seq<Listing>): seq<Gig> {
    seq(|ls|, j requires 0 <= j < |ls| => CalidarrGig(artist, img, ls[j]))
  }

  /** The records one artist adds to a pass. An unresolved artist and an
      exception add nothing beyond what was appended before the exception. */
  function ArtistGigs(artist: string, o: Lookup): seq<Gig> {
    match o
    case Listed(img, ls, _) => Stamped(artist, img, ls)
    case _ => []
  }

  /** Reference: everything an uninterrupted sweep over `artists` collects. */
  function AllGigs(artists: seq<string>, lookup: string -> Lookup): seq<Gig>
    decreases |artists|
  {
    if artists == [] then [] else ArtistGigs(artists[0], lookup(artists[0])) + AllGigs(artists[1..], lookup)
  }

  /** What one sweep appended and whether it saw the stop request. */
  datatype Sweep = Sweep(records: seq<Gig>, stopped: bool)

  /** The loop of lines 165-225: the stop flag is checked before each artist. */
  function SweepArtists(artists: seq<string>, lookup: string -> Lookup, c: Cancel): Sweep
    decreases |artists|
  {
    if artists == [] then Sweep([], false)
    else if StopSeen(c) then Sweep([], true)
    else
      var rest := SweepArtists(artists[1..], lookup, Tick(c));
      Sweep(ArtistGigs(artists[0], lookup(artists[0])) + rest.records, rest.stopped)
  }

  /** The Songkick pass of `find_gigs` (lines 157-237): `registered` is
      whether a gig_event callback is set. */
  function PassSpec(s: Run, registered: bool, lookup: string -> Lookup, cancel: Cancel): Run {
    var sw := SweepArtists(s.selection, lookup, cancel);
    var raw := s.raw + sw.records;
    var found := |sw.records|;
    s.(stop := sw.stopped, counter := found, raw := raw,
       gigs := if found == 0 then s.gigs else s.gigs + raw,
       events := s.events + Loaded(sw.records) + (if found == 0 then [SearchExhausted] else []),
       delivered := if registered then s.delivered + sw.records else s.delivered)
  }

  /** `find_gigs` (lines 154-250) on the state `s`: `songkick` is whether the
      mode setting is "Songkick". */
  function FindGigsSpec(s: Run, songkick: bool, registered: bool, lookup: string -> Lookup, cancel: Cancel): Run {
    if s.stop || s.inProgress then s
    else if songkick && s.counter > 0 then PassSpec(s, registered, lookup, cancel)
    else if s.counter == 0 then s.(events := s.events + [SearchExhausted])
    else s
  }

  /** The first part of `start(data)` (lines 90-102): "clear" is emitted, the
      buffers are emptied and the requested library items are selected. */
  function ResetSpec(s: Run, data: seq<string>): Run {
    s.(counter := 1, raw := [], gigs := [], items := Checked(s.items, data),
       selection := Selected(s.items, data), events := s.events + [Clear])
  }

  /** `start(data)` (lines 88-117). */
  function StartSpec(s: Run, data: seq<string>, songkick: bool, registered: bool,
                     lookup: string -> Lookup, cancel: Cancel): Run
  {
    var reset := ResetSpec(s, data);
    if reset.selection == [] then
      reset.(stop := true, events := reset.events + [SidebarUpdate("Error", NoArtistsSelected, reset.items, false)])
    else FindGigsSpec(reset.(stop := false), songkick, registered, lookup, cancel)
  }

  /** The library items `set_artists_from_lidarr(names)` builds; `fold` stands for unidecode. */
  function FoldedItems(names: seq<string>, fold: string -> string): seq<Item> {
    seq(|names|, i requires 0 <= i < |names| => Item(fold(names[i]), false))
  }

  /** How many artists a sweep visits before the stop request ends it. */
  function Visited(c: Cancel, n: nat): nat {
    match c
    case Never => n
    case AtCheck(k) => if k < n then k else n
  }

  // ---------------------------------------------------------------- lemmas

  /** Sweeping a concatenation collects the first part's records, then the second's. */
  lemma {:induction false} AllGigsSplit(a: seq<string>, b: seq<string>, lookup: string -> Lookup)
    ensures AllGigs(a + b, lookup) == AllGigs(a, lookup) + AllGigs(b, lookup)
    decreases |a|
  {
    if a == [] {
      assert a + b == b;
    } else {
      assert (a + b)[1..] == a[1..] + b;
      AllGigsSplit(a[1..], b, lookup);
    }
  }

  /** An unresolved artist, or one whose lookup raises before any listing,
      is skipped and every other artist is still searched. */
  lemma FailedArtistSkipped(a: seq<string>, x: string, b: seq<string>, lookup: string -> Lookup)
    requires lookup(x) == Unresolved || lookup(x) == Raises
    ensures AllGigs(a + [x] + b, lookup) == AllGigs(a, lookup) + AllGigs(b, lookup)
  {
    AllGigsSplit(a + [x], b, lookup);
    AllGigsSplit(a, [x], lookup);
    assert AllGigs([x], lookup) == [] by {
      assert [x][1..] == [];
    }
    assert AllGigs(a + [x], lookup) == AllGigs(a, lookup);
  }

  /** Every record of a sweep names the artist it was found for. */
  lemma {:induction false} RecordsNameTheirArtist(artists: seq<string>, lookup: string -> Lookup, g: Gig)
    requires g in AllGigs(artists, lookup)
    ensures g.name in artists
    decreases |artists|
  {
    if g !in ArtistGigs(artists[0], lookup(artists[0])) {
      RecordsNameTheirArtist(artists[1..], lookup, g);
    }
  }

  /** The stop check before each artist: a sweep collects exactly the records
      of the artists before the stop request, in selection order, and reports
      the stop iff it landed before the last artist was started. */
  lemma {:induction false} SweepStopsAtRequest(artists: seq<string>, lookup: string -> Lookup, c: Cancel)
    ensures SweepArtists(artists, lookup, c).records == AllGigs(artists[..Visited(c, |artists|)], lookup)
    ensures SweepArtists(artists, lookup, c).stopped <==> c.AtCheck? && c.k < |artists|
    decreases |artists|
  {
    if artists != [] && !StopSeen(c) {
      SweepStopsAtRequest(artists[1..], lookup, Tick(c));
      var v := Visited(c, |artists|);
      assert v == Visited(Tick(c), |artists| - 1) + 1;
      assert artists[..v][1..] == artists[1..][..v - 1];
    } else if artists != [] {
      assert artists[..Visited(c, |artists|)] == [];
    }
  }

  /** The stop schedule as the check before artist `i` of a pass sees it. */
  function Shifted(c: Cancel, i: nat): Cancel {
    match c
    case Never => Never
    case AtCheck(k) => AtCheck(if k >= i then k - i else 0)
  }

  /** The schedule seen at the check before artist `i + 1`, when the check before artist `i` saw no stop. */
  lemma ShiftedTick(cancel: Cancel, i: nat)
    requires cancel.AtCheck? ==> i <= cancel.k
    requires !StopSeen(Shifted(cancel, i))
    ensures Tick(Shifted(cancel, i)) == Shifted(cancel, i + 1)
    ensures cancel.AtCheck? ==> i + 1 <= cancel.k
  {
  }

  /** Searching one more artist appends that artist's records. */
  lemma AllGigsSnoc(artists: seq<string>, i: nat, lookup: string -> Lookup)
    requires i < |artists|
    ensures AllGigs(artists[..i + 1], lookup) == AllGigs(artists[..i], lookup) + ArtistGigs(artists[i], lookup(artists[i]))
  {
    assert artists[..i + 1] == artists[..i] + [artists[i]];
    AllGigsSplit(artists[..i], [artists[i]], lookup);
    assert [artists[i]][1..] == [];
  }

  /** Where the artist loop ends: at the end of the selection, or at the
      stop check that saw the request. */
  lemma SweepAfterLoop(artists: seq<string>, lookup: string -> Lookup, cancel: Cancel, i: nat, stopped: bool)
    requires i <= |artists|
    requires cancel.AtCheck? ==> i <= cancel.k
    requires stopped ==> i < |artists| && StopSeen(Shifted(cancel, i))
    requires !stopped ==> i == |artists|
    ensures SweepArtists(artists, lookup, cancel) == Sweep(AllGigs(artists[..i], lookup), stopped)
  {
    SweepStopsAtRequest(artists, lookup, cancel);
    assert artists[..|artists|] == artists;
  }

  /** One step of the artist loop: an artist searched before the stop request. */
  lemma SweepStep(artists: seq<string>, i: nat, lookup: string -> Lookup, c: Cancel)
    requires i < |artists| && !StopSeen(c)
    ensures var rest := SweepArtists(artists[i + 1..], lookup, Tick(c));
      SweepArtists(artists[i..], lookup, c) == Sweep(ArtistGigs(artists[i], lookup(artists[i])) + rest.records, rest.stopped)
  {
    assert artists[i..][1..] == artists[i + 1..];
  }

  /** A pass blocked by the stop flag or by a pass in progress changes nothing. */
  lemma PassGuard(s: Run, songkick: bool, registered: bool, lookup: string -> Lookup, cancel: Cancel)
    requires s.stop || s.inProgress
    ensures FindGigsSpec(s, songkick, registered, lookup, cancel) == s
  {
  }

  /** With the counter at 0 a trigger only repeats the exhaustion toast. */
  lemma ExhaustedTrigger(s: Run, songkick: bool, registered: bool, lookup: string -> Lookup, cancel: Cancel)
    requires !s.stop && !s.inProgress && s.counter == 0
    ensures FindGigsSpec(s, songkick, registered, lookup, cancel) == s.(events := s.events + [SearchExhausted])
  {
  }

  /** A Songkick pass: the counter ends equal to the number of records it
      appended, which are the records of the artists visited before the stop
      request; `gigs` takes the whole buffer unless nothing was found, in which
      case the exhaustion toast is emitted; the in-progress flag ends clear. */
  lemma PassOutcome(s: Run, registered: bool, lookup: string -> Lookup, cancel: Cancel)
    requires !s.stop && !s.inProgress && s.counter > 0
    ensures var r := FindGigsSpec(s, true, registered, lookup, cancel);
      && r.raw == s.raw + AllGigs(s.selection[..Visited(cancel, |s.selection|)], lookup)
      && r.counter == |r.raw| - |s.raw|
      && !r.inProgress
      && (r.stop <==> cancel.AtCheck? && cancel.k < |s.selection|)
      && (r.counter == 0 ==> r.gigs == s.gigs && r.events == s.events + [SearchExhausted])
      && (r.counter > 0 ==> r.gigs == s.gigs + r.raw && r.events == s.events + Loaded(r.raw[|s.raw|..]))
      && r.delivered == (if registered then s.delivered + r.raw[|s.raw|..] else s.delivered)
      && r.selection == s.selection && r.items == s.items && r.clients == s.clients
  {
    SweepStopsAtRequest(s.selection, lookup, cancel);
    var r := FindGigsSpec(s, true, registered, lookup, cancel);
    assert r.raw[|s.raw|..] == SweepArtists(s.selection, lookup, cancel).records;
  }

  /** Each appended record is emitted and handed to the callback in append order. */
  lemma CallbackInAppendOrder(s: Run, lookup: string -> Lookup, cancel: Cancel, i: nat)
    requires !s.stop && !s.inProgress && s.counter > 0
    requires i < |FindGigsSpec(s, true, true, lookup, cancel).raw| - |s.raw|
    ensures var r := FindGigsSpec(s, true, true, lookup, cancel);
      && |r.delivered| == |s.delivered| + |r.raw| - |s.raw|
      && r.delivered[|s.delivered| + i] == r.raw[|s.raw| + i]
      && r.events[|s.events| + i] == MoreGigsLoaded([r.raw[|s.raw| + i]])
  {
  }

  /** `gigs` is extended with the whole buffer, so a second pass adds the first
      pass's records again: nothing is deduplicated. */
  lemma RepeatedPassesRepeatRecords(s: Run, registered: bool, lookup1: string -> Lookup, lookup2: string -> Lookup)
    requires !s.stop && !s.inProgress && s.counter > 0 && s.raw == [] && s.gigs == []
    requires AllGigs(s.selection, lookup1) != [] && AllGigs(s.selection, lookup2) != []
    ensures var r1 := FindGigsSpec(s, true, registered, lookup1, Never);
            var r2 := FindGigsSpec(r1, true, registered, lookup2, Never);
      r2.gigs == AllGigs(s.selection, lookup1) + AllGigs(s.selection, lookup1) + AllGigs(s.selection, lookup2)
  {
    var sel := s.selection;
    var found1, found2 := AllGigs(sel, lookup1), AllGigs(sel, lookup2);
    assert sel[..Visited(Never, |sel|)] == sel;
    PassOutcome(s, registered, lookup1, Never);
    var r1 := FindGigsSpec(s, true, registered, lookup1, Never);
    assert r1.raw == found1 && r1.gigs == found1;
    assert !r1.stop && !r1.inProgress && r1.counter > 0 && r1.selection == sel;
    PassOutcome(r1, registered, lookup2, Never);
    var r2 := FindGigsSpec(r1, true, registered, lookup2, Never);
    assert r2.raw == found1 + found2;
    assert r2.gigs == found1 + (found1 + found2);
  }

  /** `start` marks each library item checked iff it was requested and
      selects exactly the requested library names, in library order; no pass
      changes the items or the selection. */
  lemma StartSelects(s: Run, data: seq<string>, songkick: bool, registered: bool,
                     lookup: string -> Lookup, cancel: Cancel, n: string)
    ensures var r := StartSpec(s, data, songkick, registered, lookup, cancel);
      && |r.items| == |s.items|
      && (forall i :: 0 <= i < |s.items| ==> r.items[i].name == s.items[i].name && (r.items[i].checked <==> s.items[i].name in data))
      && r.selection == Selected(s.items, data)
      && (n in r.selection <==> n in data && exists i :: 0 <= i < |s.items| && s.items[i].name == n)
  {
    SelectedMembers(s.items, data, n);
  }

  /** `start` always emits "clear" first; with no requested library artist
      it sets the stop flag, reports the error and runs no pass. */
  lemma StartWithoutArtists(s: Run, data: seq<string>, songkick: bool, registered: bool,
                            lookup: string -> Lookup, cancel: Cancel)
    requires forall i :: 0 <= i < |s.items| ==> s.items[i].name !in data
    ensures var r := StartSpec(s, data, songkick, registered, lookup, cancel);
      && r.stop && r.counter == 1 && r.raw == [] && r.gigs == [] && r.selection == []
      && r.events == s.events + [Clear, SidebarUpdate("Error", NoArtistsSelected, Checked(s.items, data), false)]
  {
    SelectedEmpty(s.items, data);
  }

  /** With some requested artist `start` clears the stop flag and runs a pass
      from an empty buffer: the buffer ends holding that pass's records. */
  lemma StartRunsPass(s: Run, data: seq<string>, registered: bool, lookup: string -> Lookup, cancel: Cancel)
    requires !s.inProgress
    requires exists i :: 0 <= i < |s.items| && s.items[i].name in data
    ensures var r := StartSpec(s, data, true, registered, lookup, cancel);
            var sel := Selected(s.items, data);
      && r.events[|s.events|] == Clear
      && r.raw == AllGigs(sel[..Visited(cancel, |sel|)], lookup)
      && r.counter == |r.raw|
      && (r.counter == 0 ==> r.gigs == [] && r.events == s.events + [Clear, SearchExhausted])
      && (r.counter > 0 ==> r.gigs == r.raw)
      && r.delivered == (if registered then s.delivered + r.raw else s.delivered)
      && !r.inProgress
  {
    SelectedEmpty(s.items, data);
    var sel := Selected(s.items, data);
    var reset := s.(counter := 1, raw := [], gigs := [], items := Checked(s.items, data), selection := sel,
                    events := s.events + [Clear], stop := false);
    PassOutcome(reset, registered, lookup, cancel);
  }

  /** What a start with some requested artist emits: "clear", one batch per
      record found, and the toast when none was. */
  lemma StartEvents(s: Run, data: seq<string>, registered: bool, lookup: string -> Lookup, cancel: Cancel)
    requires !s.inProgress
    requires exists i :: 0 <= i < |s.items| && s.items[i].name in data
    ensures var r := StartSpec(s, data, true, registered, lookup, cancel);
      r.events == s.events + [Clear] + Loaded(r.raw) + (if r.raw == [] then [SearchExhausted] else [])
  {
    SelectedEmpty(s.items, data);
    var sel := Selected(s.items, data);
    var reset := s.(counter := 1, raw := [], gigs := [], items := Checked(s.items, data), selection := sel,
                    events := s.events + [Clear], stop := false);
    PassOutcome(reset, registered, lookup, cancel);
    var r := StartSpec(s, data, true, registered, lookup, cancel);
    assert r.raw[|reset.raw|..] == r.raw;
  }

  // ---------------------------------------------------------------- settings

  const SettingKinds: map<string, Kind> := map[
    "lidarr_address" := Plain, "lidarr_api_key" := Plain, "fallback_to_top_result" := Boolean,
    "lidarr_api_timeout" := Numeric, "app_name" := Plain, "app_rev" := Plain,
    "app_url" := Plain, "mode" := Plain]

  /** The defaults of lines 38-47; `randomName` stands for the ten random letters of app_url. */
  function Defaults(randomName: string): seq<(string, Value)> {
    [("lidarr_address", Str("http://192.168.1.2:8686")), ("lidarr_api_key", Str("")),
     ("fallback_to_top_result", Flag(false)), ("lidarr_api_timeout", Number("120.0")),
     ("app_name", Str("Calidarr")), ("app_rev", Str("0.04")),
     ("app_url", Str("http://" + randomName + ".com")), ("mode", Str("Songkick"))]
  }

  /** Every default names a setting. */
  lemma DefaultsAreSettings(randomName: string)
    ensures forall i :: 0 <= i < |Defaults(randomName)| ==> Defaults(randomName)[i].0 in SettingKinds
  {
  }

  /** The handler's other attributes and methods when the settings are
      loaded (`raw_new_gigs` and the selection do not exist yet): a
      configuration-file key may name one of them without ending the file stage. */
  const OtherAttributes: set<string> := {
    "logger", "search_in_progress_flag", "gig_event", "new_found_gigs_counter",
    "clients_connected_counter", "config_folder", "gigs", "lidarr_items", "cleaned_lidarr_items",
    "stop_event", "settings_config_file", "load_environ_or_config_settings", "connection", "disconnection",
    "start", "on_gig_event", "set_artists_from_lidarr", "get_artists_from_lidarr", "find_gigs",
    "load_settings", "update_settings", "format_numbers", "save_config_to_file"}

  /** Without environment variables or a configuration file, the handler
      searches Songkick and keeps an empty API key. */
  lemma FreshInstallSettings(randomName: string)
    ensures var r := Resolve(SettingKinds, map[], OtherAttributes, None, Defaults(randomName));
      && r["mode"] == Str("Songkick") && r["lidarr_api_key"] == Unset && r["app_name"] == Str("Calidarr")
  {
    var d := Defaults(randomName);
    var attrs := EnvStage(SettingKinds, map[]);
    assert forall k :: k in attrs ==> attrs[k] == Unset;
    assert KeyOnce(d, 7) && KeyOnce(d, 1) && KeyOnce(d, 4);
    DefaultFills(attrs, d, 7);
    DefaultFills(attrs, d, 1);
    DefaultFills(attrs, d, 4);
  }

  // ---------------------------------------------------------------- the handler

  class DataHandler {
    var stopEvent: bool
    var searchInProgressFlag: bool
    var newFoundGigsCounter: nat
    var clientsConnectedCounter: nat
    var lidarrItems: seq<Item>
    var cleanedLidarrItems: seq<string>
    var artistsToUseInSearch: seq<string>
    var rawNewGigs: seq<Gig>
    var gigs: seq<Gig>
    var events: seq<Event>
    var gigEventRegistered: bool
    var delivered: seq<Gig>
    var settings: map<string, Value>

    function State(): Run
      reads this
    {
      Run(stopEvent, searchInProgressFlag, newFoundGigsCounter, clientsConnectedCounter,
          lidarrItems, artistsToUseInSearch, rawNewGigs, gigs, events, delivered)
    }

    predicate Songkick()
      reads this
    {
      "mode" in settings && settings["mode"] == Str("Songkick")
    }

    /** `__init__`: the stop flag starts set, so no pass runs before `start`. */
    constructor (env: map<string, string>, file: Option<seq<(string, Value)>>, randomName: string)
      ensures State() == Run(true, false, 0, 0, [], [], [], [], [], [])
      ensures !gigEventRegistered && cleanedLidarrItems == []
      ensures settings == Resolve(SettingKinds, env, OtherAttributes, file, Defaults(randomName))
    {
      stopEvent := true;
      searchInProgressFlag := false;
      newFoundGigsCounter := 0;
      clientsConnectedCounter := 0;
      lidarrItems := [];
      cleanedLidarrItems := [];
      artistsToUseInSearch := [];
      rawNewGigs := [];
      gigs := [];
      events := [];
      gigEventRegistered := false;
      delivered := [];
      settings := map[];
      new;
      DefaultsAreSettings(randomName);
      LoadEnvironOrConfigSettings(env, file, randomName);
    }

    method LoadEnvironOrConfigSettings(env: map<string, string>, file: Option<seq<(string, Value)>>, randomName: string)
      modifies this`settings
      ensures settings == Resolve(SettingKinds, env, OtherAttributes, file, Defaults(randomName))
    {
      DefaultsAreSettings(randomName);
      var fromEnv := EnvStage(SettingKinds, env);
      var attrs := fromEnv;
      match file {
        case None =>
        case Some(entries) =>
          attrs := ApplyFile(fromEnv, OtherAttributes, entries);
      }
      FileStageKeys(fromEnv, OtherAttributes, if file.Some? then file.value else []);
      attrs := ApplyDefaults(attrs, Defaults(randomName));
      settings := attrs;
    }

    method Connection()
      modifies this`clientsConnectedCounter
      ensures State() == old(State()).(clients := old(clientsConnectedCounter) + 1)
    {
      clientsConnectedCounter := clientsConnectedCounter + 1;
    }

    method Disconnection()
      modifies this`clientsConnectedCounter
      ensures State() == old(State()).(clients := if old(clientsConnectedCounter) == 0 then 0 else old(clientsConnectedCounter) - 1)
    {
      clientsConnectedCounter := if clientsConnectedCounter == 0 then 0 else clientsConnectedCounter - 1;
    }

    /** The `stop_req` handler. */
    method Stop()
      modifies this`stopEvent
      ensures State() == old(State()).(stop := true)
    {
      stopEvent := true;
    }

    method OnGigEvent()
      modifies this`gigEventRegistered
      ensures gigEventRegistered
    {
      gigEventRegistered := true;
    }

    /** `set_artists_from_lidarr`; `fold` stands for unidecode. */
    method SetArtistsFromLidarr(names: seq<string>, fold: string -> string)
      modifies this`lidarrItems, this`cleanedLidarrItems
      ensures lidarrItems == FoldedItems(names, fold)
      ensures |cleanedLidarrItems| == |names|
      ensures forall i :: 0 <= i < |names| ==> cleanedLidarrItems[i] == Lower(lidarrItems[i].name)
    {
      lidarrItems := FoldedItems(names, fold);
      cleanedLidarrItems := seq(|lidarrItems|, i requires 0 <= i < |lidarrItems| reads this => Lower(lidarrItems[i].name));
    }

    /** The loop of lines 96-102: marks each library item checked iff it was
        requested and collects the requested names in library order. */
    method MarkRequested(data: seq<string>)
      modifies this`lidarrItems, this`artistsToUseInSearch
      ensures lidarrItems == Checked(old(lidarrItems), data)
      ensures artistsToUseInSearch == old(artistsToUseInSearch) + Selected(old(lidarrItems), data)
    {
      ghost var items0 := lidarrItems;
      ghost var sel0 := artistsToUseInSearch;
      var i := 0;
      while i < |lidarrItems|
        invariant 0 <= i <= |lidarrItems| == |items0|
        invariant forall j :: 0 <= j < i ==> lidarrItems[j] == Item(items0[j].name, items0[j].name in data)
        invariant forall j :: i <= j < |items0| ==> lidarrItems[j] == items0[j]
        invariant artistsToUseInSearch == sel0 + Selected(items0[..i], data)
      {
        assert items0[..i + 1] == items0[..i] + [items0[i]];
        SelectedSplit(items0[..i], [items0[i]], data);
        assert [items0[i]][1..] == [];
        var itemName := lidarrItems[i].name;
        if itemName in data {
          lidarrItems := lidarrItems[i := Item(itemName, true)];
          artistsToUseInSearch := artistsToUseInSearch + [itemName];
        } else {
          lidarrItems := lidarrItems[i := Item(itemName, false)];
        }
        i := i + 1;
      }
      assert items0[..i] == items0;
    }

    method Start(data: seq<string>, lookup: string -> Lookup, cancel: Cancel)
      modifies this`stopEvent, this`searchInProgressFlag, this`newFoundGigsCounter, this`lidarrItems,
               this`artistsToUseInSearch, this`rawNewGigs, this`gigs, this`events, this`delivered
      ensures State() == StartSpec(old(State()), data, Songkick(), gigEventRegistered, lookup, cancel)
    {
      ResetSearch(data);
      if artistsToUseInSearch != [] {
        stopEvent := false;
        FindGigs(lookup, cancel);
      } else {
        stopEvent := true;
        events := events + [SidebarUpdate("Error", NoArtistsSelected, lidarrItems, !stopEvent)];
      }
    }

    method ResetSearch(data: seq<string>)
      modifies this`newFoundGigsCounter, this`lidarrItems, this`artistsToUseInSearch, this`rawNewGigs,
               this`gigs, this`events
      ensures State() == ResetSpec(old(State()), data)
    {
      events := events + [Clear];
      newFoundGigsCounter := 1;
      rawNewGigs := [];
      artistsToUseInSearch := [];
      gigs := [];
      MarkRequested(data);
    }

    method FindGigs(lookup: string -> Lookup, cancel: Cancel)
      modifies this`stopEvent, this`searchInProgressFlag, this`newFoundGigsCounter,
               this`rawNewGigs, this`gigs, this`events, this`delivered
      ensures State() == FindGigsSpec(old(State()), Songkick(), gigEventRegistered, lookup, cancel)
    {
      if stopEvent || searchInProgressFlag {
        return;
      } else if Songkick() && newFoundGigsCounter > 0 {
        Pass(lookup, cancel);
      } else if newFoundGigsCounter == 0 {
        searchInProgressFlag := true;
        events := events + [SearchExhausted];
        searchInProgressFlag := false;
      }
    }

    /** The Songkick branch of `find_gigs`. */
    method Pass(lookup: string -> Lookup, cancel: Cancel)
      requires !stopEvent && !searchInProgressFlag
      modifies this`stopEvent, this`searchInProgressFlag, this`newFoundGigsCounter,
               this`rawNewGigs, this`gigs, this`events, this`delivered
      ensures State() == PassSpec(old(State()), gigEventRegistered, lookup, cancel)
    {
      newFoundGigsCounter := 0;
      searchInProgressFlag := true;
      SweepSelection(lookup, cancel);
      if newFoundGigsCounter == 0 {
        events := events + [SearchExhausted];
      } else {
        gigs := gigs + rawNewGigs;
      }
      searchInProgressFlag := false;
    }

    /** The pass buffers hold their values from before the pass followed by
        the records `found` so far: appended, counted, emitted one per event,
        and handed to the callback when one is registered. */
    ghost predicate Appended(raw0: seq<Gig>, n0: nat, events0: seq<Event>, delivered0: seq<Gig>, found: seq<Gig>)
      reads this
    {
      && rawNewGigs == raw0 + found
      && newFoundGigsCounter == n0 + |found|
      && events == events0 + Loaded(found)
      && delivered == (if gigEventRegistered then delivered0 + found else delivered0)
    }

    /** The artist loop of lines 165-225, which checks the stop flag before each artist. */
    method SweepSelection(lookup: string -> Lookup, cancel: Cancel)
      requires !stopEvent
      modifies this`rawNewGigs, this`events, this`newFoundGigsCounter, this`delivered, this`stopEvent
      ensures var sw := SweepArtists(artistsToUseInSearch, lookup, cancel);
        && Appended(old(rawNewGigs), old(newFoundGigsCounter), old(events), old(delivered), sw.records)
        && stopEvent == sw.stopped
    {
      var randomArtists := artistsToUseInSearch;
      ghost var raw0, n0, events0, delivered0 := rawNewGigs, newFoundGigsCounter, events, delivered;
      ghost var found: seq<Gig> := [];
      var c := cancel;
      var i := 0;
      while i < |randomArtists|
        modifies this`rawNewGigs, this`events, this`newFoundGigsCounter, this`delivered, this`stopEvent
        invariant 0 <= i <= |randomArtists|
        invariant !stopEvent
        invariant Appended(raw0, n0, events0, delivered0, found)
        invariant found == AllGigs(randomArtists[..i], lookup)
        invariant cancel.AtCheck? ==> i <= cancel.k
        invariant c == Shifted(cancel, i)
      {
        if StopSeen(c) {
          stopEvent := true;
          break;
        }
        ShiftedTick(cancel, i);
        c := Tick(c);
        var artistName := randomArtists[i];
        SearchArtist(artistName, lookup, raw0, n0, events0, delivered0, found);
        AllGigsSnoc(randomArtists, i, lookup);
        found := found + ArtistGigs(artistName, lookup(artistName));
        i := i + 1;
      }
      SweepAfterLoop(randomArtists, lookup, cancel, i, stopEvent);
    }

    /** One artist of the loop of lines 165-225: an unresolved artist and an
        exception caught for it add nothing beyond what was already appended. */
    method SearchArtist(artistName: string, lookup: string -> Lookup, ghost raw0: seq<Gig>, ghost n0: nat,
                        ghost events0: seq<Event>, ghost delivered0: seq<Gig>, ghost found: seq<Gig>)
      requires Appended(raw0, n0, events0, delivered0, found)
      modifies this`rawNewGigs, this`events, this`newFoundGigsCounter, this`delivered
      ensures Appended(raw0, n0, events0, delivered0, found + ArtistGigs(artistName, lookup(artistName)))
    {
      var outcome := lookup(artistName);
      if outcome.Listed? {
        ghost var added := Stamped(artistName, outcome.img, outcome.listings);
        ghost var raw1, n1, events1, delivered1 := rawNewGigs, newFoundGigsCounter, events, delivered;
        AddListings(artistName, outcome.img, outcome.listings);
        LoadedSplit(found, added);
        assert rawNewGigs == raw1 + added == raw0 + (found + added);
        assert events == events1 + Loaded(added) == events0 + Loaded(found + added);
        assert newFoundGigsCounter == n0 + |found + added|;
      } else {
        assert found + ArtistGigs(artistName, outcome) == found;
      }
    }

    /** The listing loop of lines 193-222 for one artist: each record is
        appended, emitted, counted and handed to the callback. */
    method AddListings(artistName: string, img: Option<string>, listings: seq<Listing>)
      modifies this`rawNewGigs, this`events, this`newFoundGigsCounter, this`delivered
      ensures var added := Stamped(artistName, img, listings);
        && rawNewGigs == old(rawNewGigs) + added
        && newFoundGigsCounter == old(newFoundGigsCounter) + |added|
        && events == old(events) + Loaded(added)
        && delivered == (if gigEventRegistered then old(delivered) + added else old(delivered))
    {
      var j := 0;
      while j < |listings|
        invariant 0 <= j <= |listings|
        invariant rawNewGigs == old(rawNewGigs) + Stamped(artistName, img, listings[..j])
        invariant newFoundGigsCounter == old(newFoundGigsCounter) + j
        invariant events == old(events) + Loaded(Stamped(artistName, img, listings[..j]))
        invariant delivered == if gigEventRegistered then old(delivered) + Stamped(artistName, img, listings[..j]) else old(delivered)
      {
        var gigData := CalidarrGig(artistName, img, listings[j]);
        assert Stamped(artistName, img, listings[..j + 1]) == Stamped(artistName, img, listings[..j]) + [gigData];
        LoadedSplit(Stamped(artistName, img, listings[..j]), [gigData]);
        rawNewGigs := rawNewGigs + [gigData];
        events := events + [MoreGigsLoaded([gigData])];
        newFoundGigsCounter := newFoundGigsCounter + 1;
        if gigEventRegistered {
          delivered := delivered + [gigData];
        }
        j := j + 1;
      }
      assert listings[..j] == listings;
    }
  }
}
