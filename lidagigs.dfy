/** The gig finder of src/Lidagigs.py, a variant of the Calidarr handler: a
    pass searches a random sample of at most five selected artists, the first
    artist Songkick does not know ends the sweep, an exception aborts the
    whole pass, the stop flag is also checked before each record, and the
    found-gigs counter is never incremented. The first client to connect gets
    a shuffled sample of `gigs`.

    The random draws are inputs: `order` is the permutation of the list that
    `random.sample` or `random.shuffle` produces, and a sample is its prefix. */
module Lidagigs {
  import opened Text
  import opened Gigs
  import opened Settings
  import opened LidagigsArtists

  /** The handler's search state. */
  datatype Run = Run(
    stop: bool,              // stop_event is set
    inProgress: bool,        // search_in_progress_flag
    counter: nat,            // new_found_gigs_counter
    clients: nat,            // clients_connected_counter
    items: seq<Item>,        // lidarr_items
    selection: seq<string>,  // artists_to_use_in_search
    raw: seq<Gig>,           // raw_new_gigs
    gigs: seq<Gig>,          // gigs
    events: seq<Event>)      // what was emitted on the socket, in order

  /** The record built from one listing of `artist` (lines 232-239): it has no status. */
  function LidagigsGig(artist: string, img: Option<string>, l: Listing): Gig {
    Gig(artist, img, l.evtLink, l.evtDate, l.venue, l.location, None)
  }

  /** The first `k` of the drawn order, or all of it when it is shorter. */
  function Sample<T>(order: seq<T>, k: nat): (r: seq<T>)
    ensures |r| == if |order| < k then |order| else k
    ensures multiset(r) <= multiset(order)
  {
    var m := if |order| < k then |order| else k;
    assert order == order[..m] + order[m..];
    order[..m]
  }

  /** How one artist's listing loop ends: the sweep goes on with the stop
      schedule `next`, or the pass halts because the stop request was seen or
      an exception was raised. */
  datatype Step = Continue(next: Cancel) | Halt(stopped: bool, aborted: bool)

  datatype ArtistRun = ArtistRun(records: seq<Gig>, step: Step)

  /** The listing loop of lines 216-241: the stop flag is checked before each
      listing; when `raisesAfter` holds, the listing after `ls` raises once its
      own stop check has passed. */
  function ListingRun(artist: string, img: Option<string>, ls: seq<Listing>, raisesAfter: bool, c: Cancel): ArtistRun
    decreases |ls|
  {
    if ls == [] then
      if !raisesAfter then ArtistRun([], Continue(c))
      else if StopSeen(c) then ArtistRun([], Halt(true, false))
      else ArtistRun([], Halt(false, true))
    else if StopSeen(c) then ArtistRun([], Halt(true, false))
    else
      var rest := ListingRun(artist, img, ls[1..], raisesAfter, Tick(c));
      ArtistRun([LidagigsGig(artist, img, ls[0])] + rest.records, rest.step)
  }

  /** What a sweep appended, whether it saw the stop request and whether it was aborted. */
  datatype Sweep = Sweep(records: seq<Gig>, stopped: bool, aborted: bool)

  /** The artist loop of lines 191-241. An unknown artist ends the sweep
      (line 204); an exception leaves the loop and aborts the pass. */
  function SweepFrom(artists: seq<string>, lookup: string -> Lookup, c: Cancel): Sweep
    decreases |artists|
  {
    if artists == [] then Sweep([], false, false)
    else if StopSeen(c) then Sweep([], true, false)
    else match lookup(artists[0])
      case Unresolved => Sweep([], false, false)
      case Raises => Sweep([], false, true)
      case Listed(img, ls, raisesAfter) =>
        var a := ListingRun(artists[0], img, ls, raisesAfter, Tick(c));
        match a.step
        case Halt(stopped, aborted) => Sweep(a.records, stopped, aborted)
        case Continue(next) =>
          var rest := SweepFrom(artists[1..], lookup, next);
          Sweep(a.records + rest.records, rest.stopped, rest.aborted)
  }

  /** The Songkick pass of `find_gigs` (lines 184-254) with `order` the draw
      of `random.sample`. The counter is set to 0 and never incremented, so a
      pass that is not aborted always ends with the exhaustion toast and
      `gigs` is never extended. */
  function PassSpec(s: Run, order: seq<string>, lookup: string -> Lookup, cancel: Cancel): Run {
    var sw := SweepFrom(Sample(order, 5), lookup, cancel);
    s.(stop := sw.stopped, counter := 0, raw := s.raw + sw.records,
       events := s.events + Loaded(sw.records) + (if sw.aborted then [] else [SearchExhausted]))
  }

  /** `find_gigs` (lines 181-267); `songkick` is whether the mode setting is "Songkick". */
  function FindGigsSpec(s: Run, songkick: bool, order: seq<string>, lookup: string -> Lookup, cancel: Cancel): Run {
    if s.stop || s.inProgress then s
    else if songkick && s.counter > 0 then PassSpec(s, order, lookup, cancel)
    else if s.counter == 0 then s.(events := s.events + [SearchExhausted])
    else s
  }

  /** The first part of `start(data)` (lines 124-137). */
  function ResetSpec(s: Run, data: seq<string>): Run {
    s.(counter := 1, raw := [], gigs := [], items := Checked(s.items, data),
       selection := Selected(s.items, data), events := s.events + [Clear])
  }

  /** `start(data)` (lines 122-151). */
  function StartSpec(s: Run, data: seq<string>, songkick: bool, order: seq<string>,
                     lookup: string -> Lookup, cancel: Cancel): Run
  {
    var reset := ResetSpec(s, data);
    if reset.selection == [] then
      reset.(stop := true, events := reset.events + [SidebarUpdate("Error", NoArtistsSelected, reset.items, false)])
    else FindGigsSpec(reset.(stop := false), songkick, order, lookup, cancel)
  }

  /** `connection` (lines 106-117) with `order` the draw of `random.sample` or `random.shuffle`. */
  function ConnectionSpec(s: Run, order: seq<Gig>): Run {
    if s.gigs == [] then s.(clients := s.clients + 1)
    else
      var gigs := if s.clients > 0 then s.gigs else if |s.gigs| > 15 then Sample(order, 15) else order;
      var raw := if s.clients > 0 then s.raw else [];
      s.(gigs := gigs, raw := raw, events := s.events + [MoreGigsLoaded(gigs)], clients := s.clients + 1)
  }

  /** `disconnection` (lines 119-120). */
  function DisconnectionSpec(s: Run): Run {
    s.(clients := if s.clients == 0 then 0 else s.clients - 1)
  }

  // ---------------------------------------------------------------- lemmas

  /** One artist of the sweep from position `i`, when the stop request has not been seen. */
  lemma SweepArtist(artists: seq<string>, i: nat, lookup: string -> Lookup, c: Cancel)
    requires i < |artists| && !StopSeen(c)
    ensures var o := lookup(artists[i]);
      && (o.Unresolved? ==> SweepFrom(artists[i..], lookup, c) == Sweep([], false, false))
      && (o.Raises? ==> SweepFrom(artists[i..], lookup, c) == Sweep([], false, true))
      && (o.Listed? ==>
            var a := ListingRun(artists[i], o.img, o.listings, o.raisesAfter, Tick(c));
            SweepFrom(artists[i..], lookup, c)
              == if a.step.Halt? then Sweep(a.records, a.step.stopped, a.step.aborted)
                 else Then(a.records, SweepFrom(artists[i + 1..], lookup, a.step.next)))
  {
    assert artists[i..][1..] == artists[i + 1..];
  }

  /** An artist's run that first appended `records`. */
  function ThenRun(records: seq<Gig>, rest: ArtistRun): ArtistRun {
    ArtistRun(records + rest.records, rest.step)
  }

  /** One listing of the loop, when the stop request has not been seen. */
  lemma ListingStep(artist: string, img: Option<string>, ls: seq<Listing>, j: nat, raisesAfter: bool,
                    added: seq<Gig>, c: Cancel)
    requires j < |ls| && !StopSeen(c)
    ensures ThenRun(added, ListingRun(artist, img, ls[j..], raisesAfter, c))
         == ThenRun(added + [LidagigsGig(artist, img, ls[j])], ListingRun(artist, img, ls[j + 1..], raisesAfter, Tick(c)))
  {
    assert ls[j..][1..] == ls[j + 1..];
    var rest := ListingRun(artist, img, ls[j + 1..], raisesAfter, Tick(c));
    assert added + ([LidagigsGig(artist, img, ls[j])] + rest.records) == (added + [LidagigsGig(artist, img, ls[j])]) + rest.records;
  }

  /** A sweep that first appended `records`. */
  function Then(records: seq<Gig>, rest: Sweep): Sweep {
    Sweep(records + rest.records, rest.stopped, rest.aborted)
  }

  lemma ThenAssoc(a: seq<Gig>, b: seq<Gig>, rest: Sweep)
    ensures Then(a, Then(b, rest)) == Then(a + b, rest)
  {
    assert a + (b + rest.records) == (a + b) + rest.records;
  }

  /** A draw of at most five distinct selected artists: `min(5, n)` of them,
      each as often as it is selected at most. */
  lemma SampleOfSelection(order: seq<string>, selection: seq<string>)
    requires multiset(order) == multiset(selection)
    ensures |Sample(order, 5)| == if |selection| < 5 then |selection| else 5
    ensures multiset(Sample(order, 5)) <= multiset(selection)
    ensures forall a :: a in Sample(order, 5) ==> a in selection
  {
    assert |order| == |multiset(order)| == |selection|;
    forall a | a in Sample(order, 5)
      ensures a in selection
    {
      assert a in multiset(Sample(order, 5));
    }
  }

  /** A listing loop that no stop request and no exception interrupts appends every listing. */
  lemma {:induction false} ListingRunComplete(artist: string, img: Option<string>, ls: seq<Listing>)
    ensures ListingRun(artist, img, ls, false, Never)
         == ArtistRun(seq(|ls|, j requires 0 <= j < |ls| => LidagigsGig(artist, img, ls[j])), Continue(Never))
    decreases |ls|
  {
    if ls != [] {
      ListingRunComplete(artist, img, ls[1..]);
    }
  }

  /** An artist's records are appended in listing order; each listing costs
      one stop check, so a request landing before check `k` lets at most `k`
      records through, and a loop that goes on leaves `k` less the records. */
  lemma {:induction false} ListingRunBound(artist: string, img: Option<string>, ls: seq<Listing>, raisesAfter: bool, k: nat)
    ensures var a := ListingRun(artist, img, ls, raisesAfter, AtCheck(k));
      && |a.records| <= k
      && (a.step.Continue? ==> a.step.next == AtCheck(k - |a.records|))
    decreases |ls|
  {
    if ls != [] && k != 0 {
      ListingRunBound(artist, img, ls[1..], raisesAfter, k - 1);
    }
  }

  /** Stop is checked before each artist and each record: a request landing
      before check `k` lets at most `k` records into the buffer. */
  lemma {:induction false} SweepStopBound(artists: seq<string>, lookup: string -> Lookup, k: nat)
    ensures |SweepFrom(artists, lookup, AtCheck(k)).records| <= k
    decreases |artists|
  {
    if artists != [] && k != 0 {
      match lookup(artists[0])
      case Unresolved =>
      case Raises =>
      case Listed(img, ls, raisesAfter) =>
        ListingRunBound(artists[0], img, ls, raisesAfter, k - 1);
        var a := ListingRun(artists[0], img, ls, raisesAfter, AtCheck(k - 1));
        if a.step.Continue? {
          SweepStopBound(artists[1..], lookup, k - 1 - |a.records|);
        }
    }
  }

  /** Artists whose listings all read cleanly. */
  predicate CleanListings(artists: seq<string>, lookup: string -> Lookup) {
    forall i :: 0 <= i < |artists| ==> lookup(artists[i]).Listed? && !lookup(artists[i]).raisesAfter
  }

  /** The records of artists whose listings read cleanly, in order. */
  function CleanRecords(artists: seq<string>, lookup: string -> Lookup): seq<Gig>
    requires CleanListings(artists, lookup)
    decreases |artists|
  {
    if artists == [] then []
    else
      var o := lookup(artists[0]);
      seq(|o.listings|, j requires 0 <= j < |o.listings| => LidagigsGig(artists[0], o.img, o.listings[j]))
      + CleanRecords(artists[1..], lookup)
  }

  /** A listing loop whose stop request lands `m` checks after its last
      listing appends every listing and passes on the `m` checks left. */
  lemma {:induction false} ListingRunClean(artist: string, img: Option<string>, ls: seq<Listing>, m: nat)
    ensures ListingRun(artist, img, ls, false, AtCheck(|ls| + m))
         == ArtistRun(seq(|ls|, j requires 0 <= j < |ls| => LidagigsGig(artist, img, ls[j])), Continue(AtCheck(m)))
    decreases |ls|
  {
    if ls != [] {
      ListingRunClean(artist, img, ls[1..], m);
      var all := seq(|ls|, j requires 0 <= j < |ls| => LidagigsGig(artist, img, ls[j]));
      var rest := seq(|ls| - 1, j requires 0 <= j < |ls| - 1 => LidagigsGig(artist, img, ls[1..][j]));
      assert all == [LidagigsGig(artist, img, ls[0])] + rest;
    }
  }

  /** An artist whose listings read cleanly, reached `1 + |listings| + m`
      checks before the stop request, appends all its listings and leaves `m`
      checks to the artists after it. */
  lemma SweepCleanHead(artists: seq<string>, lookup: string -> Lookup, m: nat)
    requires artists != [] && lookup(artists[0]).Listed? && !lookup(artists[0]).raisesAfter
    ensures var o := lookup(artists[0]);
      SweepFrom(artists, lookup, AtCheck(1 + |o.listings| + m))
        == Then(seq(|o.listings|, j requires 0 <= j < |o.listings| => LidagigsGig(artists[0], o.img, o.listings[j])),
                SweepFrom(artists[1..], lookup, AtCheck(m)))
  {
    var o := lookup(artists[0]);
    ListingRunClean(artists[0], o.img, o.listings, m);
  }

  /** The stop check before each artist (line 192): a request that lands
      right after the records of artists `a` (one check per artist and one per
      record) keeps exactly those records and stops the sweep before the next
      artist is searched; with no artist left the sweep simply ends. */
  lemma {:induction false} StopBeforeArtist(a: seq<string>, b: seq<string>, lookup: string -> Lookup)
    requires CleanListings(a, lookup)
    ensures SweepFrom(a + b, lookup, AtCheck(|a| + |CleanRecords(a, lookup)|)) == Sweep(CleanRecords(a, lookup), b != [], false)
    decreases |a|
  {
    if a == [] {
      assert a + b == b;
    } else {
      var o := lookup(a[0]);
      assert CleanListings(a[1..], lookup) by {
        forall i | 0 <= i < |a[1..]|
          ensures lookup(a[1..][i]).Listed? && !lookup(a[1..][i]).raisesAfter
        {
          assert a[1..][i] == a[i + 1];
        }
      }
      var head := seq(|o.listings|, j requires 0 <= j < |o.listings| => LidagigsGig(a[0], o.img, o.listings[j]));
      var m := |a[1..]| + |CleanRecords(a[1..], lookup)|;
      assert CleanRecords(a, lookup) == head + CleanRecords(a[1..], lookup);
      assert (a + b)[0] == a[0];
      SweepCleanHead(a + b, lookup, m);
      assert (a + b)[1..] == a[1..] + b;
      StopBeforeArtist(a[1..], b, lookup);
    }
  }

  /** The first artist Songkick does not know ends the whole sweep: the artists
      after it are never searched, unlike in Calidarr, where only that artist is skipped. */
  lemma {:induction false} UnresolvedEndsSweep(a: seq<string>, x: string, b: seq<string>, lookup: string -> Lookup)
    requires CleanListings(a, lookup) && lookup(x) == Unresolved
    ensures SweepFrom(a + [x] + b, lookup, Never) == Sweep(CleanRecords(a, lookup), false, false)
    decreases |a|
  {
    if a != [] {
      var o := lookup(a[0]);
      ListingRunComplete(a[0], o.img, o.listings);
      assert (a + [x] + b)[1..] == a[1..] + [x] + b;
      UnresolvedEndsSweep(a[1..], x, b, lookup);
    }
  }

  /** An exception for an artist aborts the pass: what was appended before stays, nothing after is searched. */
  lemma {:induction false} RaisesAbortsSweep(a: seq<string>, x: string, b: seq<string>, lookup: string -> Lookup)
    requires CleanListings(a, lookup) && lookup(x) == Raises
    ensures SweepFrom(a + [x] + b, lookup, Never) == Sweep(CleanRecords(a, lookup), false, true)
    decreases |a|
  {
    if a != [] {
      var o := lookup(a[0]);
      ListingRunComplete(a[0], o.img, o.listings);
      assert (a + [x] + b)[1..] == a[1..] + [x] + b;
      RaisesAbortsSweep(a[1..], x, b, lookup);
    }
  }

  /** A pass leaves the counter at 0 and `gigs` as it was; unless it was
      aborted it ends with the exhaustion toast, and then the next trigger
      only repeats that toast. */
  lemma PassNeverFeedsGigs(s: Run, order: seq<string>, lookup: string -> Lookup, cancel: Cancel,
                           order2: seq<string>, lookup2: string -> Lookup, cancel2: Cancel)
    requires !s.stop && !s.inProgress && s.counter > 0
    ensures var r := FindGigsSpec(s, true, order, lookup, cancel);
            var sw := SweepFrom(Sample(order, 5), lookup, cancel);
      && r.counter == 0 && r.gigs == s.gigs && !r.inProgress
      && r.raw == s.raw + sw.records
      && (!sw.aborted ==> r.events[|r.events| - 1] == SearchExhausted)
      && (sw.aborted ==> r.events == s.events + Loaded(sw.records))
      && (!r.stop ==> FindGigsSpec(r, true, order2, lookup2, cancel2) == r.(events := r.events + [SearchExhausted]))
  {
  }

  /** `gigs` starts empty, only `start` and `connection` assign it, and no
      pass extends it: it stays empty, so a connecting client never triggers
      the sampling branch. */
  lemma GigsStayEmpty(s: Run, data: seq<string>, songkick: bool, order: seq<string>, gigOrder: seq<Gig>,
                      lookup: string -> Lookup, cancel: Cancel)
    requires s.gigs == []
    ensures FindGigsSpec(s, songkick, order, lookup, cancel).gigs == []
    ensures StartSpec(s, data, songkick, order, lookup, cancel).gigs == []
    ensures ConnectionSpec(s, gigOrder) == s.(clients := s.clients + 1)
    ensures DisconnectionSpec(s).gigs == []
  {
  }

  /** The first client to connect while `gigs` is non-empty gets a shuffled
      sample of at most 15 of them (all of them when there are at most 15),
      and the buffer is emptied. */
  lemma FirstConnectionSamples(s: Run, order: seq<Gig>)
    requires s.gigs != [] && s.clients == 0
    requires multiset(order) == multiset(s.gigs)
    ensures var r := ConnectionSpec(s, order);
      && |r.gigs| == (if |s.gigs| > 15 then 15 else |s.gigs|)
      && multiset(r.gigs) <= multiset(s.gigs)
      && (|s.gigs| <= 15 ==> multiset(r.gigs) == multiset(s.gigs))
      && r.raw == [] && r.clients == 1
      && r.events == s.events + [MoreGigsLoaded(r.gigs)]
  {
    assert |order| == |multiset(order)| == |s.gigs|;
  }

  /** Later clients get `gigs` as it is. */
  lemma LaterConnectionKeepsGigs(s: Run, order: seq<Gig>)
    requires s.gigs != [] && s.clients > 0
    ensures ConnectionSpec(s, order) == s.(events := s.events + [MoreGigsLoaded(s.gigs)], clients := s.clients + 1)
  {
  }

  /** Disconnecting undoes a connection's count and never goes below 0. */
  lemma ClientCount(s: Run, order: seq<Gig>)
    ensures DisconnectionSpec(ConnectionSpec(s, order)).clients == s.clients
    ensures DisconnectionSpec(s).clients == if s.clients == 0 then 0 else s.clients - 1
    ensures s.clients == 0 ==> DisconnectionSpec(s) == s
  {
  }

  /** The toast of lines 318-319 for an artist MusicBrainz has no match for. */
  function NoMatch(artistName: string): Event {
    Toast("Failed to add Artist", "No Matching Artist for: '" + artistName + "' in MusicBrainz.")
  }

  // ---------------------------------------------------------------- settings

  const SettingKinds: map<string, Kind> := map[
    "lidarr_address" := Plain, "lidarr_api_key" := Plain, "root_folder_path" := Plain,
    "spotify_client_id" := Plain, "spotify_client_secret" := Plain, "fallback_to_top_result" := Boolean,
    "lidarr_api_timeout" := Numeric, "quality_profile_id" := Numeric, "metadata_profile_id" := Numeric,
    "search_for_missing_albums" := Boolean, "dry_run_adding_to_lidarr" := Boolean,
    "app_name" := Plain, "app_rev" := Plain, "app_url" := Plain,
    "last_fm_api_key" := Plain, "last_fm_api_secret" := Plain, "mode" := Plain]

  /** The defaults of lines 40-58; `randomName` stands for the ten random letters of app_url. */
  function Defaults(randomName: string): seq<(string, Value)> {
    [("lidarr_address", Str("http://192.168.1.2:8686")), ("lidarr_api_key", Str("")),
     ("root_folder_path", Str("/data/media/music/")), ("spotify_client_id", Str("")),
     ("spotify_client_secret", Str("")), ("fallback_to_top_result", Flag(false)),
     ("lidarr_api_timeout", Number("120.0")), ("quality_profile_id", Number("1")),
     ("metadata_profile_id", Number("1")), ("search_for_missing_albums", Flag(false)),
     ("dry_run_adding_to_lidarr", Flag(false)), ("app_name", Str("Lidagigs")), ("app_rev", Str("0.04")),
     ("app_url", Str("http://" + randomName + ".com")), ("last_fm_api_key", Str("")),
     ("last_fm_api_secret", Str("")), ("mode", Str("Spotify"))]
  }

  /** Every default names a setting. */
  lemma DefaultsAreSettings(randomName: string)
    ensures forall i :: 0 <= i < |Defaults(randomName)| ==> Defaults(randomName)[i].0 in SettingKinds
  {
  }

  /** The handler's other attributes and methods when the settings are loaded. */
  const OtherAttributes: set<string> := {
    "lidagigs_logger", "musicbrainzngs_logger", "pylast_logger", "search_in_progress_flag",
    "new_found_gigs_counter", "clients_connected_counter", "config_folder", "gigs", "lidarr_items",
    "cleaned_lidarr_items", "stop_event", "settings_config_file", "load_environ_or_config_settings",
    "connection", "disconnection", "start", "get_artists_from_lidarr", "find_gigs", "add_artists",
    "get_mbid_from_musicbrainz", "load_settings", "update_settings", "format_numbers",
    "save_config_to_file", "preview"}

  /** Without environment variables or a configuration file the mode is
      "Spotify", so a started search runs no Songkick pass: `find_gigs` then
      changes nothing until the counter is 0. */
  lemma FreshInstallRunsNoPass(randomName: string, s: Run, order: seq<string>, lookup: string -> Lookup, cancel: Cancel)
    requires s.counter > 0
    ensures var r := Resolve(SettingKinds, map[], OtherAttributes, None, Defaults(randomName));
      "mode" in r && r["mode"] == Str("Spotify")
    ensures FindGigsSpec(s, false, order, lookup, cancel) == s
  {
    var d := Defaults(randomName);
    var attrs := EnvStage(SettingKinds, map[]);
    assert forall k :: k in attrs ==> attrs[k] == Unset;
    assert KeyOnce(d, 16);
    DefaultFills(attrs, d, 16);
  }

  // ---------------------------------------------------------------- the handler

  class DataHandler {
    var stopEvent: bool
    var searchInProgressFlag: bool
    var newFoundGigsCounter: nat
    var clientsConnectedCounter: nat
    var lidarrItems: seq<Item>
    var cleanedLidarrItems: seq<string>
    var artistsToUseInSearch: seq<string>
    var rawNewGigs: seq<Gig>
    var gigs: seq<Gig>
    var events: seq<Event>
    var settings: map<string, Value>

    function State(): Run
      reads this
    {
      Run(stopEvent, searchInProgressFlag, newFoundGigsCounter, clientsConnectedCounter,
          lidarrItems, artistsToUseInSearch, rawNewGigs, gigs, events)
    }

    predicate Songkick()
      reads this
    {
      "mode" in settings && settings["mode"] == Str("Songkick")
    }

    /** `__init__`: the stop flag starts set. */
    constructor (env: map<string, string>, file: Option<seq<(string, Value)>>, randomName: string)
      ensures State() == Run(true, false, 0, 0, [], [], [], [], [])
      ensures cleanedLidarrItems == []
      ensures settings == Resolve(SettingKinds, env, OtherAttributes, file, Defaults(randomName))
    {
      stopEvent := true;
      searchInProgressFlag := false;
      newFoundGigsCounter := 0;
      clientsConnectedCounter := 0;
      lidarrItems := [];
      cleanedLidarrItems := [];
      artistsToUseInSearch := [];
      rawNewGigs := [];
      gigs := [];
      events := [];
      settings := map[];
      new;
      DefaultsAreSettings(randomName);
      LoadEnvironOrConfigSettings(env, file, randomName);
    }

    method LoadEnvironOrConfigSettings(env: map<string, string>, file: Option<seq<(string, Value)>>, randomName: string)
      modifies this`settings
      ensures settings == Resolve(SettingKinds, env, OtherAttributes, file, Defaults(randomName))
    {
      DefaultsAreSettings(randomName);
      var fromEnv := EnvStage(SettingKinds, env);
      var attrs := fromEnv;
      match file {
        case None =>
        case Some(entries) =>
          attrs := ApplyFile(fromEnv, OtherAttributes, entries);
      }
      FileStageKeys(fromEnv, OtherAttributes, if file.Some? then file.value else []);
      attrs := ApplyDefaults(attrs, Defaults(randomName));
      settings := attrs;
    }

    /** `connection`; `order` is the draw of `random.sample` or `random.shuffle`. */
    method Connection(order: seq<Gig>)
      requires multiset(order) == multiset(gigs)
      modifies this`gigs, this`rawNewGigs, this`events, this`clientsConnectedCounter
      ensures State() == ConnectionSpec(old(State()), order)
    {
      if gigs != [] {
        if clientsConnectedCounter == 0 {
          if |gigs| > 15 {
            gigs := Sample(order, 15);
          } else {
            gigs := order;
          }
          rawNewGigs := [];
        }
        events := events + [MoreGigsLoaded(gigs)];
      }
      clientsConnectedCounter := clientsConnectedCounter + 1;
    }

    method Disconnection()
      modifies this`clientsConnectedCounter
      ensures State() == DisconnectionSpec(old(State()))
    {
      clientsConnectedCounter := if clientsConnectedCounter == 0 then 0 else clientsConnectedCounter - 1;
    }

    /** The `stop_req` handler. */
    method Stop()
      modifies this`stopEvent
      ensures State() == old(State()).(stop := true)
    {
      stopEvent := true;
    }

    /** `start`; `order` is the draw of `random.sample` over the selection `start` builds. */
    method Start(data: seq<string>, order: seq<string>, lookup: string -> Lookup, cancel: Cancel)
      requires multiset(order) == multiset(Selected(lidarrItems, data))
      modifies this`stopEvent, this`searchInProgressFlag, this`newFoundGigsCounter, this`lidarrItems,
               this`artistsToUseInSearch, this`rawNewGigs, this`gigs, this`events
      ensures State() == StartSpec(old(State()), data, Songkick(), order, lookup, cancel)
    {
      ResetSearch(data);
      if artistsToUseInSearch != [] {
        stopEvent := false;
        FindGigs(order, lookup, cancel);
      } else {
        stopEvent := true;
        events := events + [SidebarUpdate("Error", NoArtistsSelected, lidarrItems, !stopEvent)];
      }
    }

    method ResetSearch(data: seq<string>)
      modifies this`newFoundGigsCounter, this`lidarrItems, this`artistsToUseInSearch, this`rawNewGigs,
               this`gigs, this`events
      ensures State() == ResetSpec(old(State()), data)
    {
      events := events + [Clear];
      newFoundGigsCounter := 1;
      rawNewGigs := [];
      artistsToUseInSearch := [];
      gigs := [];
      MarkRequested(data);
    }

    /** The loop of lines 130-136. */
    method MarkRequested(data: seq<string>)
      modifies this`lidarrItems, this`artistsToUseInSearch
      ensures lidarrItems == Checked(old(lidarrItems), data)
      ensures artistsToUseInSearch == old(artistsToUseInSearch) + Selected(old(lidarrItems), data)
    {
      ghost var items0 := lidarrItems;
      ghost var sel0 := artistsToUseInSearch;
      var i := 0;
      while i < |lidarrItems|
        invariant 0 <= i <= |lidarrItems| == |items0|
        invariant forall j :: 0 <= j < i ==> lidarrItems[j] == Item(items0[j].name, items0[j].name in data)
        invariant forall j :: i <= j < |items0| ==> lidarrItems[j] == items0[j]
        invariant artistsToUseInSearch == sel0 + Selected(items0[..i], data)
      {
        assert items0[..i + 1] == items0[..i] + [items0[i]];
        SelectedSplit(items0[..i], [items0[i]], data);
        assert [items0[i]][1..] == [];
        var itemName := lidarrItems[i].name;
        if itemName in data {
          lidarrItems := lidarrItems[i := Item(itemName, true)];
          artistsToUseInSearch := artistsToUseInSearch + [itemName];
        } else {
          lidarrItems := lidarrItems[i := Item(itemName, false)];
        }
        i := i + 1;
      }
      assert items0[..i] == items0;
    }

    /** `find_gigs`; `order` is the draw of `random.sample` over the selection. */
    method FindGigs(order: seq<string>, lookup: string -> Lookup, cancel: Cancel)
      requires multiset(order) == multiset(artistsToUseInSearch)
      modifies this`stopEvent, this`searchInProgressFlag, this`newFoundGigsCounter, this`rawNewGigs, this`events
      ensures State() == FindGigsSpec(old(State()), Songkick(), order, lookup, cancel)
    {
      if stopEvent || searchInProgressFlag {
        return;
      } else if Songkick() && newFoundGigsCounter > 0 {
        Pass(order, lookup, cancel);
      } else if newFoundGigsCounter == 0 {
        searchInProgressFlag := true;
        events := events + [SearchExhausted];
        searchInProgressFlag := false;
      }
    }

    /** The Songkick branch of `find_gigs`. The `finally` clause resets the
        in-progress flag whether or not the pass was aborted. */
    method Pass(order: seq<string>, lookup: string -> Lookup, cancel: Cancel)
      requires !stopEvent && !searchInProgressFlag
      modifies this`stopEvent, this`searchInProgressFlag, this`newFoundGigsCounter, this`rawNewGigs, this`events
      ensures State() == PassSpec(old(State()), order, lookup, cancel)
    {
      newFoundGigsCounter := 0;
      searchInProgressFlag := true;
      var randomArtists := Sample(order, 5);
      var aborted := SweepSample(randomArtists, lookup, cancel);
      if !aborted {
        // The counter is never incremented (line 242), so of lines 244-248
        // only the exhaustion toast can be reached.
        events := events + [SearchExhausted];
      }
      searchInProgressFlag := false;
    }

    /** The buffer and the socket hold their values from before the pass
        followed by the records `found` so far. */
    ghost predicate Emitted(raw0: seq<Gig>, events0: seq<Event>, found: seq<Gig>)
      reads this
    {
      rawNewGigs == raw0 + found && events == events0 + Loaded(found)
    }

    /** The artist loop of lines 191-241. */
    method SweepSample(randomArtists: seq<string>, lookup: string -> Lookup, cancel: Cancel) returns (aborted: bool)
      requires !stopEvent
      modifies this`rawNewGigs, this`events, this`stopEvent
      ensures var sw := SweepFrom(randomArtists, lookup, cancel);
        && Emitted(old(rawNewGigs), old(events), sw.records)
        && stopEvent == sw.stopped && aborted == sw.aborted
    {
      ghost var raw0, events0 := rawNewGigs, events;
      ghost var found: seq<Gig> := [];
      aborted := false;
      var c := cancel;
      var i := 0;
      while i < |randomArtists|
        invariant 0 <= i <= |randomArtists|
        invariant !stopEvent && !aborted
        invariant Emitted(raw0, events0, found)
        invariant SweepFrom(randomArtists, lookup, cancel) == Then(found, SweepFrom(randomArtists[i..], lookup, c))
      {
        if StopSeen(c) {
          stopEvent := true;
          break;
        }
        SweepArtist(randomArtists, i, lookup, c);
        var artistName := randomArtists[i];
        var outcome := lookup(artistName);
        if outcome.Unresolved? {
          break;
        } else if outcome.Raises? {
          aborted := true;
          break;
        }
        ghost var a := ListingRun(artistName, outcome.img, outcome.listings, outcome.raisesAfter, Tick(c));
        var step := SearchListings(artistName, outcome.img, outcome.listings, outcome.raisesAfter, Tick(c),
                                   raw0, events0, found);
        if step.Halt? {
          found := found + a.records;
          stopEvent := step.stopped;
          aborted := step.aborted;
          break;
        }
        ThenAssoc(found, a.records, SweepFrom(randomArtists[i + 1..], lookup, step.next));
        found := found + a.records;
        c := step.next;
        i := i + 1;
      }
    }

    /** The listing loop of lines 216-241 for one artist. */
    method SearchListings(artistName: string, img: Option<string>, listings: seq<Listing>, raisesAfter: bool,
                          c0: Cancel, ghost raw0: seq<Gig>, ghost events0: seq<Event>, ghost found: seq<Gig>)
      returns (step: Step)
      requires Emitted(raw0, events0, found)
      modifies this`rawNewGigs, this`events
      ensures var a := ListingRun(artistName, img, listings, raisesAfter, c0);
        step == a.step && Emitted(raw0, events0, found + a.records)
    {
      ghost var added: seq<Gig> := [];
      var c := c0;
      var j := 0;
      assert listings[0..] == listings;
      while j < |listings|
        invariant 0 <= j <= |listings|
        invariant Emitted(raw0, events0, found + added)
        invariant ListingRun(artistName, img, listings, raisesAfter, c0)
               == ThenRun(added, ListingRun(artistName, img, listings[j..], raisesAfter, c))
      {
        if StopSeen(c) {
          return Halt(true, false);
        }
        ListingStep(artistName, img, listings, j, raisesAfter, added, c);
        c := Tick(c);
        var gigData := LidagigsGig(artistName, img, listings[j]);
        LoadedSplit(found + added, [gigData]);
        assert found + added + [gigData] == found + (added + [gigData]);
        rawNewGigs := rawNewGigs + [gigData];
        events := events + [MoreGigsLoaded([gigData])];
        added := added + [gigData];
        j := j + 1;
      }
      if !raisesAfter {
        step := Continue(c);
      } else if StopSeen(c) {
        step := Halt(true, false);
      } else {
        step := Halt(false, true);
      }
    }

    /** `add_artists` for one artist (lines 270-325) once the MusicBrainz id
        and Lidarr's response are known: an added artist joins the library
        unchecked, with its unidecoded lower-cased name among the cleaned
        names; with no id the "Failed to add Artist" toast is emitted; then the
        artist's first record takes the status. */
    method AddArtist(artistName: string, mbid: Option<string>, dryRun: bool, response: Response,
                     fold: string -> string)
      modifies this`lidarrItems, this`cleanedLidarrItems, this`gigs, this`events
      ensures var status := AddStatus(mbid, dryRun, response);
        && lidarrItems == old(lidarrItems) + (if status == "Added" then [Item(artistName, false)] else [])
        && cleanedLidarrItems == old(cleanedLidarrItems) + (if status == "Added" then [Lower(fold(artistName))] else [])
        && gigs == WithStatus(old(gigs), artistName, status)
        && var i := FirstNamed(old(gigs), artistName);
           events == old(events) + (if HasMbid(mbid) then [] else [NoMatch(artistName)])
                                 + (if i < |old(gigs)| then [RefreshArtist(gigs[i])] else [])
    {
      var status := AddStatus(mbid, dryRun, response);
      if status == "Added" {
        lidarrItems := lidarrItems + [Item(artistName, false)];
        cleanedLidarrItems := cleanedLidarrItems + [Lower(fold(artistName))];
      }
      if !HasMbid(mbid) {
        events := events + [NoMatch(artistName)];
      }
      SetStatus(artistName, status);
    }

    /** The loop of lines 321-325: the first record of the artist takes the status and is re-sent. */
    method SetStatus(artistName: string, status: string)
      modifies this`gigs, this`events
      ensures gigs == WithStatus(old(gigs), artistName, status)
      ensures var i := FirstNamed(old(gigs), artistName);
        events == old(events) + (if i < |old(gigs)| then [RefreshArtist(gigs[i])] else [])
    {
      var i := 0;
      while i < |gigs|
        invariant 0 <= i <= |gigs| && gigs == old(gigs) && events == old(events)
        invariant forall j :: 0 <= j < i ==> gigs[j].name != artistName
      {
        if gigs[i].name == artistName {
          FirstNamedIs(gigs, artistName, i);
          gigs := gigs[i := gigs[i].(status := Some(status))];
          events := events + [RefreshArtist(gigs[i])];
          return;
        }
        i := i + 1;
      }
      FirstNamedIs(gigs, artistName, i);
    }
  }
}
