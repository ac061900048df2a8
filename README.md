# Calidarr and Lidagigs gig finders, modelled in Dafny

Calidarr and Lidagigs are two small Flask/Socket.IO servers. They take the
artists of a Lidarr music library, search Songkick for each artist's upcoming
concerts ("gigs"), and push the records to a browser page over a socket.
Calidarr can also write the records to an iCalendar feed, filtered by country.
Lidagigs searches a random sample of five artists and can add an artist to
Lidarr after looking it up on MusicBrainz.

This project models the core of both servers and of the browser script, and
proves properties of that model:

- `Calidarr.DataHandler` (calidarr.dfy) and `Lidagigs.DataHandler`
  (lidagigs.dfy) are classes with the handler's fields.
  - Their methods are proved against pure specification functions over a
    `Run` value: `StartSpec`, `FindGigsSpec`, `PassSpec` and `ConnectionSpec`.
  - The lemmas in the same modules state what those functions promise.
- Shared pieces:
  - gigs.dfy: the record, event and lookup datatypes, and the selection rule of `start`.
  - settings.dfy: the environment, configuration-file and default precedence of `load_environ_or_config_settings`.
  - text.dfy: case folding, suffix and substring tests.
- calendar.dfy is the country filter of `CalendarHandler.run`.
- lidagigs_artists.dfy covers the MusicBrainz candidate choice, the add status
  and the status update of Lidagigs' `add_artists`.
- client.dfy models src/static/script.js as a `Page` class with pure rules
  beside it: the country filter, card colours, `refresh_gig`, select-all,
  stored results and the theme switch.

The outside world becomes inputs:

- Each Songkick lookup is a function `lookup: string -> Lookup`. The answer
  is "not found", "raises", or the artist's listings, possibly followed by a
  listing that raises.
- A stop request sent from another thread is a schedule `Cancel`: it lands
  before the k-th stop check of a pass, or never.
- A random sample or shuffle is the permutation `order` it drew, and the sample is its prefix.
- unidecode and fuzz.ratio are uninterpreted functions passed in as `fold` and `ratio`.
- Socket emits are appended to an event log (`events`). The calendar callback's
  arguments are logged in `delivered`.

## Model

| member | source | states |
|---|---|---|
| Text.LowerSuffix | src/Calidarr.py:346 | lower-casing commutes with taking a suffix |
| Text.EndsWithLower | src/Calidarr.py:346 | a case-sensitive suffix is still a suffix after both sides are lower-cased |
| Text.NatToString | src/static/script.js:162 | the count in the label is a non-empty string of decimal digits |
| Text.NatToStringValue | src/static/script.js:162 | the rendered digits read back as the count itself |
| Gigs.LoadedSplit | src/Calidarr.py:219 | the one-record `more_gigs_loaded` events of two runs of appends are the events of each run, in order |
| Gigs.SelectedSplit | src/Calidarr.py:96-102 | selecting from concatenated library items selects from each part, in order |
| Gigs.SelectedMembers | src/Calidarr.py:96-102 | a name is selected iff it was requested and is a library item name |
| Gigs.SelectedEmpty | src/Calidarr.py:104-108 | the selection is empty iff no library item was requested |
| Settings.Resolve | src/Calidarr.py:36-77 | the three stages define exactly the known settings |
| Settings.ApplyFile | src/Calidarr.py:62-72 | the file loop equals the file stage: a setting still "" takes the file value, another attribute is skipped, and the first unknown key ends the stage |
| Settings.ApplyDefaults | src/Calidarr.py:75-77 | the default loop equals the default stage over the defaults in order |
| Settings.FileStageKeys | src/Lidagigs.py:86-96 | the file stage adds no attribute and never overwrites a value other than "" |
| Settings.DefaultStageKeeps | src/Lidagigs.py:99-101 | the default stage adds no attribute and never overwrites a value other than "" |
| Settings.EnvWins | src/Lidagigs.py:60-83 | a non-empty environment variable decides its setting, whatever the file and the defaults say |
| Settings.BooleanEnv | src/Lidagigs.py:66-67 | a non-empty boolean variable means true iff it lower-cases to "true" |
| Settings.FileFills | src/Lidagigs.py:92-94 | a file entry reached before any unknown key fills a setting still "" |
| Settings.FileStageStops | src/Lidagigs.py:86-96 | the first key that is no attribute ends the file stage: the result is that of the entries before it, so no later entry has any effect |
| Settings.FileStageUnsetStays | src/Lidagigs.py:92-94 | a setting no later file entry names keeps its value |
| Settings.DefaultFills | src/Lidagigs.py:99-101 | a setting the environment and the file left "" takes its default |
| Settings.DefaultUntouched | src/Lidagigs.py:99-101 | a setting no remaining default names keeps its value |
| Calidarr.AllGigsSplit | src/Calidarr.py:165-225 | searching two artist lists in a row collects the first list's records, then the second's |
| Calidarr.FailedArtistSkipped | src/Calidarr.py:177-179 | an unresolved or raising artist contributes nothing, and every other artist is still searched |
| Calidarr.RecordsNameTheirArtist | src/Calidarr.py:209-217 | every record of a sweep names an artist of the selection |
| Calidarr.SweepStopsAtRequest | src/Calidarr.py:165-167 | a sweep collects exactly the records of the artists started before the stop request, and stops iff the request landed before the last artist |
| Calidarr.AllGigsSnoc | src/Calidarr.py:193-222 | searching one more artist appends that artist's records |
| Calidarr.SweepAfterLoop | src/Calidarr.py:165-167 | the artist loop ends at the end of the selection or at the check that saw the request, with the records of the artists before it |
| Calidarr.SweepStep | src/Calidarr.py:165-225 | an artist searched before the request adds its records and passes the schedule on |
| Calidarr.PassGuard | src/Calidarr.py:155-156 | with the stop flag set or a pass running, `find_gigs` changes nothing |
| Calidarr.ExhaustedTrigger | src/Calidarr.py:239-250 | with the counter at 0, a trigger only emits the exhaustion toast |
| Calidarr.PassOutcome | src/Calidarr.py:157-237 | a Songkick pass appends the records of the artists visited before the request, and the counter ends equal to their number. If none was found, only the toast is emitted and `gigs` is unchanged; otherwise `gigs` is extended by the whole buffer. The stop flag is set iff the request was seen, the flag ends clear, and the callback gets every new record |
| Calidarr.CallbackInAppendOrder | src/Calidarr.py:218-222 | the i-th new record is the i-th emitted record and the i-th callback argument |
| Calidarr.RepeatedPassesRepeatRecords | src/Calidarr.py:231 | a second pass extends `gigs` with the first pass's records again: nothing is deduplicated |
| Calidarr.StartSelects | src/Calidarr.py:96-102 | after `start`, each item is checked iff it was requested, and the selection is the requested library names in library order |
| Calidarr.StartWithoutArtists | src/Calidarr.py:104-114 | with no requested library artist, `start` emits "clear", sets the stop flag, reports the error with the items and runs no pass |
| Calidarr.StartRunsPass | src/Calidarr.py:88-117 | with a requested artist, `start` empties the buffers, emits "clear", clears the stop flag and runs a pass over the selection, with the pass's callback arguments |
| Calidarr.StartEvents | src/Calidarr.py:88-117 | after a start with a requested artist the new events are "clear", one batch per record found, and the "search exhausted" toast exactly when none was found |
| Calidarr.FreshInstallSettings | src/Calidarr.py:38-47 | without environment or file, the mode is "Songkick", the API key is "" and the app name is "Calidarr" |
| Calidarr.DataHandler.constructor | src/Calidarr.py:19-34 | all buffers empty, counters 0, stop flag set, no callback, settings resolved |
| Calidarr.DataHandler.LoadEnvironOrConfigSettings | src/Calidarr.py:36-77 | the settings are `Resolve` of the environment, the file and the defaults |
| Calidarr.DataHandler.Connection | src/Calidarr.py:82-83 | the client counter grows by one and nothing else changes |
| Calidarr.DataHandler.Disconnection | src/Calidarr.py:85-86 | the client counter drops by one but not below 0 |
| Calidarr.DataHandler.Stop | src/Calidarr.py:426-428 | only the stop flag is set |
| Calidarr.DataHandler.OnGigEvent | src/Calidarr.py:119-120 | a callback is registered |
| Calidarr.DataHandler.SetArtistsFromLidarr | src/Calidarr.py:122-124 | the library becomes the folded names, unchecked, and the cleaned list their lower-cased forms |
| Calidarr.DataHandler.MarkRequested | src/Calidarr.py:96-102 | the items become `Checked` and the selection grows by `Selected` |
| Calidarr.DataHandler.Start | src/Calidarr.py:88-117 | the new state is `StartSpec` of the old one |
| Calidarr.DataHandler.ResetSearch | src/Calidarr.py:90-102 | the new state is `ResetSpec` of the old one |
| Calidarr.DataHandler.FindGigs | src/Calidarr.py:154-250 | the new state is `FindGigsSpec` of the old one |
| Calidarr.DataHandler.Pass | src/Calidarr.py:157-237 | the new state is `PassSpec` of the old one |
| Calidarr.DataHandler.SweepSelection | src/Calidarr.py:165-225 | the artist loop appends and emits exactly the `SweepArtists` records and sets the stop flag iff it saw the request |
| Calidarr.DataHandler.SearchArtist | src/Calidarr.py:169-225 | one artist appends its records, emits them and hands them to the callback |
| Calidarr.DataHandler.AddListings | src/Calidarr.py:193-222 | the listing loop appends, emits and delivers one record per listing, in order |
| Calendar.CountryPass | src/Calidarr.py:346 | true iff the lower-cased location ends with some lower-cased country |
| Calendar.Offered | src/Calidarr.py:344-351 | with no country every gig is offered; otherwise a gig is offered iff it has a location whose lower-cased form ends with a lower-cased country (a missing location raises and is dropped) |
| Calendar.OfferedGigsMembers | src/Calidarr.py:344-351 | a record is offered to `add_event` iff it was received and passes the filter |
| Calendar.OfferedGigsSplit | src/Calidarr.py:344-351 | filtering two runs of records filters each, in order |
| Calendar.NoCountryOffersAll | src/Calidarr.py:347 | with no country every received record is offered to `add_event`, in order |
| Calendar.CaseSensitiveSuffixPasses | src/Calidarr.py:346 | a location that ends with a country as written passes |
| Calendar.FilterIgnoresCase | src/Calidarr.py:346-347 | "Berlin, Germany" passes for "GERMANY" and not for "France"; a record without location is dropped by any non-empty list |
| Calendar.SelectedAll | src/Calidarr.py:96-102 | items whose names were all requested are all selected, in order |
| Calendar.RunSelectionAsWritten | src/Calidarr.py:353-355 | as written, a given name is selected iff it is among the given names and also the folded form of one |
| Calendar.RunSelectionMissesAccentedName | src/Calidarr.py:353-355 | as written, a run for "Björk" selects nothing |
| Calendar.RunSelectionFoldedSelectsAll | src/Calidarr.py:353-355 | with the request folded like the items, every given artist is selected, in order |
| Calendar.CalendarOffersFilteredRecords | src/Calidarr.py:339-355 | a calendar run with the request folded like the library items (the corrected run of the src/Calidarr.py:353-355 Findings row) offers to `add_event`, in search order, exactly the records of the artists searched before any stop request that pass the country filter |
| LidagigsArtists.FirstMatch | src/Lidagigs.py:337-343 | the position of the first candidate whose plain or folded lower-cased name scores above 90, or the length when none does |
| LidagigsArtists.GetMbidFromMusicbrainz | src/Lidagigs.py:330-349 | the search loop with early exit and `for ... else` fallback returns `ChooseMbid` |
| LidagigsArtists.FirstMatchIs | src/Lidagigs.py:337-343 | a position with no earlier match, at which a candidate matches or the list ends, is the first match |
| LidagigsArtists.MbidRule | src/Lidagigs.py:330-349 | no artist list gives no id; otherwise the first matching candidate's id; with no match, the top candidate's id iff fallback is on and the list is non-empty, else no id |
| LidagigsArtists.ErrorMessage | src/Lidagigs.py:301-302 | the first entry's "errorMessage"; "No Error Message Returned" without one; "Error Unknown" for an empty body |
| LidagigsArtists.Classify | src/Lidagigs.py:304-314 | "Already in Lidarr" iff the message contains "already been added" or "configured for an existing artist"; else "Invalid Path" iff it contains "Invalid Path"; else "Failed to Add" |
| LidagigsArtists.AddStatusValues | src/Lidagigs.py:275-317 | the status is one of the four values, "Added" iff an id was found and the artist was created or the run is dry, and "Failed to Add" without an id |
| LidagigsArtists.KnownRejections | src/Lidagigs.py:288-305 | "This artist has already been added." gives "Already in Lidarr"; a dry run gives "Added" whatever Lidarr would answer |
| LidagigsArtists.FolderName | src/Lidagigs.py:272 | same length as the name (the replacement itself is stated by FolderNameRule) |
| LidagigsArtists.FolderNameRule | src/Lidagigs.py:272 | each "/" of the name becomes a space and every other character stays in place; so the folder name has no "/", equals the name when it has no "/", and is stable |
| LidagigsArtists.FirstNamed | src/Lidagigs.py:321-325 | the position of the first record of the artist, or the length when there is none |
| LidagigsArtists.FirstNamedIs | src/Lidagigs.py:321-325 | a position with no earlier record of the artist, at which one is or the list ends, is the first |
| LidagigsArtists.WithStatusRule | src/Lidagigs.py:321-325 | only the first record of the artist takes the status; all other records and the length stay; no record of the artist means no change |
| Lidagigs.Sample | src/Lidagigs.py:189 | a sample has `min(k, n)` elements, each drawn at most as often as it occurs |
| Lidagigs.SweepArtist | src/Lidagigs.py:191-241 | one artist searched before the request: not found ends the sweep, raising aborts it, listings add the artist's run |
| Lidagigs.ListingStep | src/Lidagigs.py:216-241 | one listing searched before the request appends its record and passes the schedule on |
| Lidagigs.ThenAssoc | src/Lidagigs.py:240 | appending records in two steps is appending them at once |
| Lidagigs.SampleOfSelection | src/Lidagigs.py:189 | a pass searches `min(5, n)` artists of the selection, none more often than selected |
| Lidagigs.ListingRunComplete | src/Lidagigs.py:216-241 | without stop request or exception every listing becomes a record, in order |
| Lidagigs.ListingRunBound | src/Lidagigs.py:216-218 | each record costs a stop check, so a request before check k lets at most k records through |
| Lidagigs.ListingRunClean | src/Lidagigs.py:216-218 | a listing loop whose stop request lands m checks after its last listing appends every listing, in order, and goes on with m checks left |
| Lidagigs.SweepCleanHead | src/Lidagigs.py:191-218 | an artist whose listings read cleanly, reached before the stop request, passes the check before it, appends all its listings and leaves the remaining checks to the next artists |
| Lidagigs.StopBeforeArtist | src/Lidagigs.py:191-193 | with one stop check per artist and per record, a request landing right after the records of artists a keeps exactly those records, and stops the sweep before the next artist is searched (stop reported iff an artist was left) |
| Lidagigs.SweepStopBound | src/Lidagigs.py:191-193 | stop is checked before each artist and each record: a request before check k lets at most k records into the buffer |
| Lidagigs.UnresolvedEndsSweep | src/Lidagigs.py:202-204 | the first artist Songkick does not know ends the whole sweep; later artists are never searched |
| Lidagigs.RaisesAbortsSweep | src/Lidagigs.py:250-254 | an exception aborts the pass after the records already appended, and no toast is emitted |
| Lidagigs.PassNeverFeedsGigs | src/Lidagigs.py:187-267 | after a pass the counter is 0 and `gigs` is unchanged, with the in-progress flag clear. A pass that is not aborted ends with the toast, and the next trigger only repeats it |
| Lidagigs.GigsStayEmpty | src/Lidagigs.py:106-128 | from an empty `gigs`, no start, search, connection or disconnection makes it non-empty, so a connection never samples |
| Lidagigs.FirstConnectionSamples | src/Lidagigs.py:106-117 | the first client gets a sample of at most 15 records (all of them, shuffled, when there are at most 15); the buffer is emptied and the count becomes 1 |
| Lidagigs.LaterConnectionKeepsGigs | src/Lidagigs.py:106-117 | later clients get `gigs` unchanged |
| Lidagigs.ClientCount | src/Lidagigs.py:117-120 | a disconnection undoes a connection's count and never goes below 0 |
| Lidagigs.FreshInstallRunsNoPass | src/Lidagigs.py:40-101 | without environment or file the mode is "Spotify", and with that mode a trigger changes nothing while the counter is positive |
| Lidagigs.DataHandler.constructor | src/Lidagigs.py:18-36 | stop flag set, counters 0, lists empty, settings resolved |
| Lidagigs.DataHandler.LoadEnvironOrConfigSettings | src/Lidagigs.py:38-101 | the settings are `Resolve` of the environment, the file and the defaults |
| Lidagigs.DataHandler.Connection | src/Lidagigs.py:106-117 | the new state is `ConnectionSpec` of the old one for the drawn order |
| Lidagigs.DataHandler.Disconnection | src/Lidagigs.py:119-120 | the new state is `DisconnectionSpec` of the old one |
| Lidagigs.DataHandler.Stop | src/Lidagigs.py:544-546 | only the stop flag is set |
| Lidagigs.DataHandler.Start | src/Lidagigs.py:122-151 | the new state is `StartSpec` of the old one |
| Lidagigs.DataHandler.ResetSearch | src/Lidagigs.py:124-136 | the new state is `ResetSpec` of the old one |
| Lidagigs.DataHandler.MarkRequested | src/Lidagigs.py:130-136 | the items become `Checked` and the selection grows by `Selected` |
| Lidagigs.DataHandler.FindGigs | src/Lidagigs.py:181-267 | the new state is `FindGigsSpec` of the old one |
| Lidagigs.DataHandler.Pass | src/Lidagigs.py:184-254 | the new state is `PassSpec` of the old one |
| Lidagigs.DataHandler.SweepSample | src/Lidagigs.py:191-241 | the artist loop appends and emits exactly the `SweepFrom` records, and reports whether it saw the request or was aborted |
| Lidagigs.DataHandler.SearchListings | src/Lidagigs.py:216-241 | the listing loop appends and emits the `ListingRun` records and reports how it ended |
| Lidagigs.DataHandler.AddArtist | src/Lidagigs.py:270-325 | an artist whose status is "Added" joins the library unchecked and its unidecoded lower-cased name joins the cleaned names; with no id the "Failed to add Artist" toast is emitted; then the first record of the artist takes the status and is re-sent |
| Lidagigs.DataHandler.SetStatus | src/Lidagigs.py:321-325 | `gigs` becomes `WithStatus`, and the marked record is re-sent iff there was one |
| Client.Without | src/static/script.js:158-159 | the value is gone, every other entry stays, and nothing is added |
| Client.WithoutTwice | src/static/script.js:158-159 | removing a value twice is removing it once |
| Client.WithoutSplit | src/static/script.js:158-159 | removal works on each part of a concatenation, in order |
| Client.ToggledRule | src/static/script.js:156-160 | the value is in the new filter iff its box is checked, and then once and last. Every other entry stays in its order, and repeating the toggle changes nothing |
| Client.SelectionLabelRule | src/static/script.js:162 | the label is "all" iff the filter is empty, otherwise decimal digits that read as the number of selected countries, followed by " selected" |
| Client.ShownMembers | src/static/script.js:81-88 | a record gets a card iff it is not skipped |
| Client.ShownSplit | src/static/script.js:81-125 | the cards for two batches are the cards for each, in order |
| Client.NoFilterShowsAll | src/static/script.js:85 | with no country selected every record gets a card, in order |
| Client.CardColourRule | src/static/script.js:90-100 | green iff no status, red iff the status contains "cancelled" in any case, never blue |
| Client.LidagigsCardsStartGreen | src/static/script.js:90-92 | Lidagigs records have no status, so their cards start green |
| Client.BrowserAndCalendarFilters | src/static/script.js:85 | with a non-empty filter, a record with a non-empty location that the browser shows is also offered to `add_event`; a record without a location is shown by the browser and dropped by the calendar filter |
| Client.Refreshed | src/static/script.js:328-358 | one card per card, in place |
| Client.RefreshShowsAddStatus | src/static/script.js:339-350 | every card of the artist shows the add status on a disabled button: green for "Added" and "Already in Lidarr", red for "Failed to Add" and "Invalid Path"; other cards are untouched |
| Client.RefreshOtherStatus | src/static/script.js:351-354 | any other status turns the card blue and enables its button, keeping its label |
| Client.CheckIfAllSelected | src/static/script.js:27-37 | the loop with early exit is true iff every box is checked, and true for no boxes |
| Client.SetAll | src/static/script.js:186-192 | every box takes the select-all state |
| Client.SelectAllAgrees | src/static/script.js:186-192 | after the select-all box changes, all boxes are checked iff it was checked or there are none |
| Client.StoredAfterSplit | src/static/script.js:360-376 | handling two runs of events handles each in turn |
| Client.StoredAccumulates | src/static/script.js:360-363 | the stored results become the previous results followed by the loaded batch |
| Client.ClearEmpties | src/static/script.js:373-376 | after "clear" the previous results are empty; other events leave them alone |
| Client.StoredAfterStart | src/static/script.js:360-376 | after "clear", batches and a toast, the stored results are exactly the batches |
| Client.StartStoresFoundRecords | src/static/script.js:360-376 | after a Calidarr start, the browser's stored results are exactly the records the pass found, in order |
| Client.NextTheme | src/static/script.js:470-475 | "light" iff the theme was "dark", otherwise "dark" |
| Client.ThemeTogglesBack | src/static/script.js:470-475 | two clicks bring a light or dark theme back |
| Client.SwitchPositionLost | src/static/script.js:460-477 | as written, a click never changes what the next load restores: the switch goes back to its initial position under a dark theme |
| Client.SwitchPositionRestored | src/static/script.js:460-477 | with the position stored under the key that is read, the next load restores it |
| Client.Page.constructor | src/static/script.js:174-176 | the filter and its label come from the stored countries; the switch and the theme come from storage |
| Client.Page.UpdateCountries | src/static/script.js:156-164 | the filter is toggled, the label follows it and the filter is stored |
| Client.Page.AppendGigs | src/static/script.js:77-126 | the cards grow by one card per record that is not skipped, in order |
| Client.Page.MoreGigsLoaded | src/static/script.js:360-363 | cards are added and the stored results follow `StoredAfter` |
| Client.Page.Clear | src/static/script.js:373-376 | no cards, and the stored results become JSON null |
| Client.Page.Connect | src/static/script.js:386-389 | the page shows exactly the cards for the stored results |
| Client.Page.RefreshGig | src/static/script.js:328-358 | the cards become `Refreshed` |
| Client.Page.ToggleTheme | src/static/script.js:470-477 | the theme flips and is stored with the switch position (corrected key) |

## Left out

- Network and HTML:
  - The Songkick requests, BeautifulSoup selectors and `time.sleep` are replaced by the `lookup` function.
  - The Lidarr and MusicBrainz requests are replaced by their results, given as inputs.
  - The Spotify and Last.fm previews, `load_settings`, `update_settings`, `save_config_to_file` and `format_numbers` are not part of this model.
- Socket.IO wiring: emits are an event log.
  - Lidagigs' "finder" route passes an argument that `find_gigs` does not accept (src/Lidagigs.py:504-508), and the same holds for Calidarr (src/Calidarr.py:393-398).
  - The browser scrolls with "load_more_gigs", which Lidagigs does not handle (it listens for "load_more_artists").
  - The Lidagigs server emits "refresh_artist" (src/Lidagigs.py:324), while the browser handles "refresh_gig". So `Client.RefreshShowsAddStatus` relates the two through the status values only.
- Threads: calls are sequential. The race between testing and setting the in-progress flag is not modelled. A stop request from another thread is the `Cancel` schedule.
- Randomness: the sampled or shuffled order is an input permutation.
- `get_artists_from_lidarr` is not part of this model (network).
  - Lidagigs' library therefore only comes from its initial state.
  - Calidarr's comes from `SetArtistsFromLidarr`.
- Calendar output: the icalendar events, `strptime`, the cache file and its key (`hash()` of the arguments), and agenda.py are not part of this model.
- Python's `str.lower()` and JavaScript's `/i` are modelled as ASCII case folding. unidecode and fuzz.ratio are uninterpreted.
- Number parsing: a numeric setting keeps its text, and `float`/`int` errors are not modelled.
- Lidagigs `add_artists` and `get_mbid_from_musicbrainz` raise NameError as written, because `musicbrainzngs` is never imported (src/Lidagigs.py:273, 331). The model describes the code after that call, with the MusicBrainz result as an input (`Lidagigs.DataHandler.AddArtist` for one artist, with the id and Lidarr's response as inputs). The exception handler's logging is left out.
- LidagigsArtists.ErrorMessage: an error body that is not a list of objects (for example a JSON object) raises in the source; the model takes a list of optional messages.
- Client.Page.RefreshGig: the card title is compared after `trim()`; the model compares names untrimmed.
- Client.Skipped: the filter strings are joined into a regular expression; the model treats them as literal suffixes (regular-expression metacharacters in a country name are not modelled).
- Page building, Bootstrap toasts and modals, `window.open`, the Google Calendar link and the scroll listeners are not part of this model.
- Calidarr.DataHandler.constructor: `raw_new_gigs` and `artists_to_use_in_search` do not exist before the first `start` (src/Calidarr.py:19-34). The model starts them empty, and no modelled call reads them earlier.
- Calendar.OfferedGigs, Calendar.OfferedGigsMembers, Calendar.NoCountryOffersAll, Calendar.CalendarOffersFilteredRecords: these state what the country filter offers to `add_event`, not what the calendar ends up holding. `add_event` parses `Evt_Date` with `strptime` and the format `%Y-%m-%dT%H:%M:%S%z` (src/Calidarr.py:310). `Evt_Date` is None for a listing without a time (src/Calidarr.py:197-198), and a date-only or otherwise unparsable value fails too. In those cases `try_add_event` catches the error (src/Calidarr.py:349-351) and the record is dropped. Date parsing is not part of this model.
- Lidagigs.DataHandler.constructor: `raw_new_gigs` and `artists_to_use_in_search` do not exist before the first `start`. The model starts them empty, and no modelled call reads them earlier.

## Findings

| source | as written | input that shows it | evidently intended | confidence | as-written member | corrected member |
|---|---|---|---|---|---|---|
| src/Calidarr.py:353-355 | `run` stores the library items with unidecode applied to the names, but passes the names unchanged to `start`, which compares them with the folded items | names = ["Björk"]: the item is "Bjork", "Björk" is not in the request, and nothing is selected | every given artist is searched | medium, not executed | Calendar.RunSelectionMissesAccentedName | Calendar.RunSelectionFoldedSelectsAll |
| src/static/script.js:460-477 | the click handler stores the switch position under "switch_position", but the page reads "switch-position" | empty storage, click to dark with the switch checked, reload: dark theme with the switch unchecked | the reload restores the switch position | high, not executed | Client.SwitchPositionLost | Client.SwitchPositionRestored |
