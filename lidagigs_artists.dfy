/** The artist-adding rules of src/Lidagigs.py: which MusicBrainz candidate
    `get_mbid_from_musicbrainz` picks, which status `add_artists` reports, the
    folder name it builds and the gig record it marks. The MusicBrainz search
    and the Lidarr request are inputs: the candidate list (absent when the
    result has no "artist-list") and the response. */
module LidagigsArtists {
  import opened Text
  import opened Gigs

  /** One entry of the MusicBrainz "artist-list". */
  datatype Candidate = Candidate(id: string, name: string)

  /** The comparison of lines 338-340; `ratio` stands for fuzz.ratio and `fold` for unidecode. */
  predicate IsMatch(artistName: string, c: Candidate, ratio: (string, string) -> int, fold: string -> string) {
    ratio(Lower(artistName), Lower(c.name)) > 90 || ratio(fold(Lower(artistName)), fold(Lower(c.name))) > 90
  }

  /** The position of the first matching candidate, or the list's length when none matches. */
  function FirstMatch(artistName: string, artists: seq<Candidate>, ratio: (string, string) -> int,
                      fold: string -> string): (i: nat)
    ensures i <= |artists|
    ensures i < |artists| ==> IsMatch(artistName, artists[i], ratio, fold)
    ensures forall j :: 0 <= j < i ==> !IsMatch(artistName, artists[j], ratio, fold)
    decreases |artists|
  {
    if artists == [] then 0
    else if IsMatch(artistName, artists[0], ratio, fold) then 0
    else
      var k := FirstMatch(artistName, artists[1..], ratio, fold);
      assert forall j :: 1 <= j < 1 + k ==> artists[j] == artists[1..][j - 1];
      1 + k
  }

  /** The id `get_mbid_from_musicbrainz` returns (lines 330-349). */
  function ChooseMbid(artistName: string, result: Option<seq<Candidate>>, fallback: bool,
                      ratio: (string, string) -> int, fold: string -> string): Option<string>
  {
    match result
    case None => None
    case Some(artists) =>
      var i := FirstMatch(artistName, artists, ratio, fold);
      if i < |artists| then Some(artists[i].id)
      else if fallback && artists != [] then Some(artists[0].id)
      else None
  }

  /** The loop of lines 337-346 with its early exit and its `for ... else` fallback. */
  method GetMbidFromMusicbrainz(artistName: string, result: Option<seq<Candidate>>, fallback: bool,
                                ratio: (string, string) -> int, fold: string -> string)
    returns (mbid: Option<string>)
    ensures mbid == ChooseMbid(artistName, result, fallback, ratio, fold)
  {
    mbid := None;
    if result.Some? {
      var artists := result.value;
      var i := 0;
      while i < |artists|
        invariant 0 <= i <= |artists|
        invariant forall j :: 0 <= j < i ==> !IsMatch(artistName, artists[j], ratio, fold)
      {
        if IsMatch(artistName, artists[i], ratio, fold) {
          mbid := Some(artists[i].id);
          FirstMatchIs(artistName, artists, ratio, fold, i);
          return;
        }
        i := i + 1;
      }
      FirstMatchIs(artistName, artists, ratio, fold, i);
      if fallback && artists != [] {
        mbid := Some(artists[0].id);
      }
    }
  }

  /** A position before which nothing matches and at which a candidate matches (or the list ends) is the first match. */
  lemma {:induction false} FirstMatchIs(artistName: string, artists: seq<Candidate>, ratio: (string, string) -> int,
                                        fold: string -> string, i: nat)
    requires i <= |artists|
    requires forall j :: 0 <= j < i ==> !IsMatch(artistName, artists[j], ratio, fold)
    requires i < |artists| ==> IsMatch(artistName, artists[i], ratio, fold)
    ensures FirstMatch(artistName, artists, ratio, fold) == i
  {
    var k := FirstMatch(artistName, artists, ratio, fold);
  }

  /** The selection rule: the first candidate whose plain or unidecoded
      lower-cased name scores above 90; failing that, the top candidate when
      fallback is on; otherwise no id. */
  lemma MbidRule(artistName: string, artists: seq<Candidate>, fallback: bool,
                 ratio: (string, string) -> int, fold: string -> string)
    ensures ChooseMbid(artistName, None, fallback, ratio, fold) == None
    ensures forall i :: 0 <= i < |artists| && IsMatch(artistName, artists[i], ratio, fold)
                        && (forall j :: 0 <= j < i ==> !IsMatch(artistName, artists[j], ratio, fold))
                        ==> ChooseMbid(artistName, Some(artists), fallback, ratio, fold) == Some(artists[i].id)
    ensures (forall j :: 0 <= j < |artists| ==> !IsMatch(artistName, artists[j], ratio, fold))
            ==> ChooseMbid(artistName, Some(artists), fallback, ratio, fold)
                == (if fallback && artists != [] then Some(artists[0].id) else None)
  {
    forall i | 0 <= i < |artists| && IsMatch(artistName, artists[i], ratio, fold)
               && (forall j :: 0 <= j < i ==> !IsMatch(artistName, artists[j], ratio, fold))
      ensures ChooseMbid(artistName, Some(artists), fallback, ratio, fold) == Some(artists[i].id)
    {
      FirstMatchIs(artistName, artists, ratio, fold, i);
    }
    if forall j :: 0 <= j < |artists| ==> !IsMatch(artistName, artists[j], ratio, fold) {
      FirstMatchIs(artistName, artists, ratio, fold, |artists|);
    }
  }

  // ---------------------------------------------------------------- add status

  /** Lidarr's answer to the add request: created (201), or another status
      whose body is a list of error entries, each with its "errorMessage" if it has one. */
  datatype Response = Created | Rejected(errorData: seq<Option<string>>)

  /** The message of lines 301-302. */
  function ErrorMessage(errorData: seq<Option<string>>): (m: string)
    ensures errorData == [] ==> m == "Error Unknown"
    ensures errorData != [] && errorData[0].None? ==> m == "No Error Message Returned"
    ensures errorData != [] && errorData[0].Some? ==> m == errorData[0].value
  {
    if errorData == [] then "Error Unknown"
    else match errorData[0]
      case None => "No Error Message Returned"
      case Some(message) => message
  }

  /** The if-chain of lines 304-314 on a rejection's message. */
  function Classify(message: string): (status: string)
    ensures status in {"Already in Lidarr", "Invalid Path", "Failed to Add"}
    ensures status == "Already in Lidarr" <==>
      Contains(message, "already been added") || Contains(message, "configured for an existing artist")
    ensures status == "Invalid Path" <==>
      !Contains(message, "already been added") && !Contains(message, "configured for an existing artist")
      && Contains(message, "Invalid Path")
  {
    if Contains(message, "already been added") then "Already in Lidarr"
    else if Contains(message, "configured for an existing artist") then "Already in Lidarr"
    else if Contains(message, "Invalid Path") then "Invalid Path"
    else "Failed to Add"
  }

  /** Python's truth value of the id: None and "" are false. */
  predicate HasMbid(mbid: Option<string>) {
    mbid.Some? && mbid.value != ""
  }

  /** The status `add_artists` reports (lines 275-317). A dry run counts as created. */
  function AddStatus(mbid: Option<string>, dryRun: bool, response: Response): string {
    if !HasMbid(mbid) then "Failed to Add"
    else if dryRun || response.Created? then "Added"
    else Classify(ErrorMessage(response.errorData))
  }

  /** Every status is one of the four the browser knows; "Added" exactly when
      an id was found and the artist was created or the run is dry. */
  lemma AddStatusValues(mbid: Option<string>, dryRun: bool, response: Response)
    ensures AddStatus(mbid, dryRun, response) in {"Added", "Already in Lidarr", "Invalid Path", "Failed to Add"}
    ensures AddStatus(mbid, dryRun, response) == "Added" <==> HasMbid(mbid) && (dryRun || response.Created?)
    ensures !HasMbid(mbid) ==> AddStatus(mbid, dryRun, response) == "Failed to Add"
  {
    if HasMbid(mbid) && !dryRun && !response.Created? {
      var status := Classify(ErrorMessage(response.errorData));
      assert status != "Added";
    }
  }

  /** Lidarr's rejection of a known artist reports "Already in Lidarr"; a dry run reports "Added" whatever the response. */
  lemma KnownRejections(mbid: Option<string>)
    requires HasMbid(mbid)
    ensures AddStatus(mbid, false, Rejected([Some("This artist has already been added.")])) == "Already in Lidarr"
    ensures AddStatus(mbid, true, Rejected([Some("Invalid Path: /music")])) == "Added"
  {
    assert OccursAt("This artist has already been added.", "already been added", 16);
  }

  // ---------------------------------------------------------------- folder and record

  /** `artist_name.replace("/", " ")`. */
  function FolderName(artistName: string): (folder: string)
    ensures |folder| == |artistName|
  {
    seq(|artistName|, i requires 0 <= i < |artistName| => if artistName[i] == '/' then ' ' else artistName[i])
  }

  /** The folder name puts a space where the name has "/", keeps every other
      character in place, has no "/", and is the name itself when the name has no "/". */
  lemma FolderNameRule(artistName: string)
    ensures forall i :: 0 <= i < |artistName| ==>
      FolderName(artistName)[i] == (if artistName[i] == '/' then ' ' else artistName[i])
    ensures '/' !in FolderName(artistName)
    ensures forall i :: 0 <= i < |artistName| && artistName[i] != '/' ==> FolderName(artistName)[i] == artistName[i]
    ensures '/' !in artistName ==> FolderName(artistName) == artistName
    ensures FolderName(FolderName(artistName)) == FolderName(artistName)
  {
  }

  /** The position of the first record of `artistName`, or the list's length when there is none. */
  function FirstNamed(gigs: seq<Gig>, artistName: string): (i: nat)
    ensures i <= |gigs|
    ensures i < |gigs| ==> gigs[i].name == artistName
    ensures forall j :: 0 <= j < i ==> gigs[j].name != artistName
    decreases |gigs|
  {
    if gigs == [] then 0
    else if gigs[0].name == artistName then 0
    else
      var k := FirstNamed(gigs[1..], artistName);
      assert forall j :: 1 <= j < 1 + k ==> gigs[j] == gigs[1..][j - 1];
      1 + k
  }

  /** A position before which no record names the artist and at which one does (or the list ends) is the first. */
  lemma FirstNamedIs(gigs: seq<Gig>, artistName: string, i: nat)
    requires i <= |gigs|
    requires forall j :: 0 <= j < i ==> gigs[j].name != artistName
    requires i < |gigs| ==> gigs[i].name == artistName
    ensures FirstNamed(gigs, artistName) == i
  {
    var k := FirstNamed(gigs, artistName);
  }

  /** The records after lines 321-325: only the first record of the artist takes the status. */
  function WithStatus(gigs: seq<Gig>, artistName: string, status: string): seq<Gig> {
    var i := FirstNamed(gigs, artistName);
    if i < |gigs| then gigs[i := gigs[i].(status := Some(status))] else gigs
  }

  /** Marking keeps the length and every other record; the first record of
      the artist alone gets the status, and nothing changes when the artist has no record. */
  lemma WithStatusRule(gigs: seq<Gig>, artistName: string, status: string)
    ensures var r := WithStatus(gigs, artistName, status);
      && |r| == |gigs|
      && (forall j :: 0 <= j < |gigs| && (gigs[j].name != artistName || exists k :: 0 <= k < j && gigs[k].name == artistName)
                      ==> r[j] == gigs[j])
      && (forall j :: 0 <= j < |gigs| && gigs[j].name == artistName && (forall k :: 0 <= k < j ==> gigs[k].name != artistName)
                      ==> r[j] == gigs[j].(status := Some(status)))
      && ((forall j :: 0 <= j < |gigs| ==> gigs[j].name != artistName) ==> r == gigs)
  {
    var i := FirstNamed(gigs, artistName);
  }
}
