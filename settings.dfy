/** How `load_environ_or_config_settings` gives each setting its value, in
    both handlers: the environment variable first, then the JSON configuration
    file for attributes still equal to "", then the built-in default for
    attributes still equal to "". The handler's attributes are a map from
    attribute name to value. */
module Settings {
  import opened Text
  import opened Gigs

  /** An attribute value: a string, a boolean, a number (kept as the text it
      was parsed from) or JSON null. Only `Str("")` equals "" in Python. */
  datatype Value = Str(s: string) | Flag(b: bool) | Number(literal: string) | Null

  /** How a setting's environment variable is read. */
  datatype Kind = Plain | Boolean | Numeric

  const Unset: Value := Str("")

  /** The value `os.environ.get(key, "")` gives an attribute: booleans are
      `lower() == "true"`, numbers are converted, and an empty variable leaves
      the attribute "". */
  function FromEnv(kind: Kind, e: string): Value {
    match kind
    case Plain => Str(e)
    case Boolean => if e != "" then Flag(Lower(e) == "true") else Unset
    case Numeric => if e != "" then Number(e) else Unset
  }

  /** The attributes after the environment stage. */
  function EnvStage(kinds: map<string, Kind>, env: map<string, string>): map<string, Value> {
    map k | k in kinds :: FromEnv(kinds[k], if k in env then env[k] else "")
  }

  /** The configuration-file stage over the file's entries in order: a setting
      still equal to "" takes the file's value, another attribute of the
      handler (`others`) is left alone, and the first key that is no attribute
      at all raises AttributeError, which ends the stage. */
  function FileStage(attrs: map<string, Value>, others: set<string>, entries: seq<(string, Value)>): map<string, Value>
    decreases |entries|
  {
    if entries == [] then attrs
    else
      var k := entries[0].0;
      if k in attrs then
        FileStage(if attrs[k] == Unset then attrs[k := entries[0].1] else attrs, others, entries[1..])
      else if k in others then FileStage(attrs, others, entries[1..])
      else attrs
  }

  /** The default stage over the defaults in order: a setting still equal to
      "" takes its default. */
  function DefaultStage(attrs: map<string, Value>, defaults: seq<(string, Value)>): map<string, Value>
    requires forall i :: 0 <= i < |defaults| ==> defaults[i].0 in attrs
    decreases |defaults|
  {
    if defaults == [] then attrs
    else
      var k := defaults[0].0;
      var next := if attrs[k] == Unset then attrs[k := defaults[0].1] else attrs;
      DefaultStage(next, defaults[1..])
  }

  /** All three stages; `file` is None when there is no readable file. */
  function Resolve(kinds: map<string, Kind>, env: map<string, string>, others: set<string>,
                   file: Option<seq<(string, Value)>>, defaults: seq<(string, Value)>): (r: map<string, Value>)
    requires forall i :: 0 <= i < |defaults| ==> defaults[i].0 in kinds
    ensures r.Keys == kinds.Keys
  {
    var fromEnv := EnvStage(kinds, env);
    var fromFile := match file case None => fromEnv case Some(entries) => FileStage(fromEnv, others, entries);
    FileStageKeys(fromEnv, others, if file.Some? then file.value else []);
    DefaultStageKeeps(fromFile, defaults);
    DefaultStage(fromFile, defaults)
  }

  /** The loop of lines 68-70 (Calidarr) and 92-94 (Lidagigs). */
  method ApplyFile(attrs: map<string, Value>, others: set<string>, entries: seq<(string, Value)>)
    returns (r: map<string, Value>)
    ensures r == FileStage(attrs, others, entries)
  {
    r := attrs;
    var i := 0;
    while i < |entries|
      invariant 0 <= i <= |entries|
      invariant FileStage(attrs, others, entries) == FileStage(r, others, entries[i..])
    {
      assert entries[i..][1..] == entries[i + 1..];
      var k := entries[i].0;
      if k in r {
        if r[k] == Unset {
          r := r[k := entries[i].1];
        }
      } else if k !in others {
        break;
      }
      i := i + 1;
    }
  }

  /** The loop of lines 75-77 (Calidarr) and 99-101 (Lidagigs). */
  method ApplyDefaults(attrs: map<string, Value>, defaults: seq<(string, Value)>) returns (r: map<string, Value>)
    requires forall i :: 0 <= i < |defaults| ==> defaults[i].0 in attrs
    ensures r == DefaultStage(attrs, defaults)
  {
    r := attrs;
    var i := 0;
    while i < |defaults|
      invariant 0 <= i <= |defaults|
      invariant r.Keys == attrs.Keys
      invariant DefaultStage(attrs, defaults) == DefaultStage(r, defaults[i..])
    {
      assert defaults[i..][1..] == defaults[i + 1..];
      var k := defaults[i].0;
      if r[k] == Unset {
        r := r[k := defaults[i].1];
      }
      i := i + 1;
    }
  }

  /** The file stage changes no attribute set and never overwrites a value other than "". */
  lemma {:induction false} FileStageKeys(attrs: map<string, Value>, others: set<string>, entries: seq<(string, Value)>)
    ensures FileStage(attrs, others, entries).Keys == attrs.Keys
    ensures forall k :: k in attrs && attrs[k] != Unset ==> FileStage(attrs, others, entries)[k] == attrs[k]
    decreases |entries|
  {
    if entries != [] {
      var k := entries[0].0;
      if k in attrs {
        FileStageKeys(if attrs[k] == Unset then attrs[k := entries[0].1] else attrs, others, entries[1..]);
      } else if k in others {
        FileStageKeys(attrs, others, entries[1..]);
      }
    }
  }

  /** The default stage never overwrites a value other than "". */
  lemma {:induction false} DefaultStageKeeps(attrs: map<string, Value>, defaults: seq<(string, Value)>)
    requires forall i :: 0 <= i < |defaults| ==> defaults[i].0 in attrs
    ensures DefaultStage(attrs, defaults).Keys == attrs.Keys
    ensures forall k :: k in attrs && attrs[k] != Unset ==> DefaultStage(attrs, defaults)[k] == attrs[k]
    decreases |defaults|
  {
    if defaults != [] {
      var k := defaults[0].0;
      var next := if attrs[k] == Unset then attrs[k := defaults[0].1] else attrs;
      DefaultStageKeeps(next, defaults[1..]);
    }
  }

  /** A non-empty environment variable decides its setting: neither the file
      nor the defaults replace it. */
  lemma EnvWins(kinds: map<string, Kind>, env: map<string, string>, others: set<string>,
                file: Option<seq<(string, Value)>>, defaults: seq<(string, Value)>, k: string)
    requires forall i :: 0 <= i < |defaults| ==> defaults[i].0 in kinds
    requires k in kinds && k in env && env[k] != ""
    ensures Resolve(kinds, env, others, file, defaults)[k] == FromEnv(kinds[k], env[k]) != Unset
  {
    var fromEnv := EnvStage(kinds, env);
    var entries := if file.Some? then file.value else [];
    FileStageKeys(fromEnv, others, entries);
    var fromFile := match file case None => fromEnv case Some(entries) => FileStage(fromEnv, others, entries);
    DefaultStageKeeps(fromFile, defaults);
  }

  /** A boolean environment variable means true exactly when it lower-cases to "true". */
  lemma BooleanEnv(e: string)
    requires e != ""
    ensures FromEnv(Boolean, e) == Flag(true) <==> Lower(e) == "true"
    ensures FromEnv(Boolean, e) == Flag(false) <==> Lower(e) != "true"
  {
  }

  /** Keys of the file entries before position `n` are all attributes of the handler. */
  predicate KnownBefore(attrs: map<string, Value>, others: set<string>, entries: seq<(string, Value)>, n: nat)
    requires n <= |entries|
  {
    forall j :: 0 <= j < n ==> entries[j].0 in attrs || entries[j].0 in others
  }

  predicate DistinctKeys(entries: seq<(string, Value)>) {
    forall i, j :: 0 <= i < j < |entries| ==> entries[i].0 != entries[j].0
  }

  /** A file entry reached before any unknown key fills a setting still equal to "". */
  lemma {:induction false} FileFills(attrs: map<string, Value>, others: set<string>, entries: seq<(string, Value)>, n: nat)
    requires n < |entries| && DistinctKeys(entries) && KnownBefore(attrs, others, entries, n)
    requires entries[n].0 in attrs && attrs[entries[n].0] == Unset
    ensures entries[n].0 in FileStage(attrs, others, entries)
    ensures FileStage(attrs, others, entries)[entries[n].0] == entries[n].1
    decreases n
  {
    FileStageKeys(attrs, others, entries);
    var k := entries[0].0;
    var next := if k in attrs && attrs[k] == Unset then attrs[k := entries[0].1] else attrs;
    if n == 0 {
      FileStageUnsetStays(next, others, entries[1..], k);
    } else {
      assert entries[1..][n - 1] == entries[n];
      FileFills(next, others, entries[1..], n - 1);
    }
  }

  /** The first key that is no attribute ends the file stage: no entry from
      there on has any effect. */
  lemma {:induction false} FileStageStops(attrs: map<string, Value>, others: set<string>, entries: seq<(string, Value)>, n: nat)
    requires n < |entries| && KnownBefore(attrs, others, entries, n)
    requires entries[n].0 !in attrs && entries[n].0 !in others
    ensures FileStage(attrs, others, entries) == FileStage(attrs, others, entries[..n])
    decreases n
  {
    if n == 0 {
      assert entries[..0] == [];
    } else {
      var k := entries[0].0;
      var next := if k in attrs && attrs[k] == Unset then attrs[k := entries[0].1] else attrs;
      assert next.Keys == attrs.Keys;
      assert entries[..n][0] == entries[0];
      assert entries[..n][1..] == entries[1..][..n - 1];
      assert entries[1..][n - 1] == entries[n];
      assert KnownBefore(next, others, entries[1..], n - 1) by {
        forall j | 0 <= j < n - 1
          ensures entries[1..][j].0 in next || entries[1..][j].0 in others
        {
          assert entries[1..][j] == entries[j + 1];
        }
      }
      FileStageStops(next, others, entries[1..], n - 1);
    }
  }

  /** A setting no later entry names keeps its value through the file stage. */
  lemma {:induction false} FileStageUnsetStays(attrs: map<string, Value>, others: set<string>, entries: seq<(string, Value)>, key: string)
    requires key in attrs
    requires forall j :: 0 <= j < |entries| ==> entries[j].0 != key
    ensures key in FileStage(attrs, others, entries)
    ensures FileStage(attrs, others, entries)[key] == attrs[key]
    decreases |entries|
  {
    FileStageKeys(attrs, others, entries);
    if entries != [] {
      var k := entries[0].0;
      if k in attrs {
        FileStageUnsetStays(if attrs[k] == Unset then attrs[k := entries[0].1] else attrs, others, entries[1..], key);
      } else if k in others {
        FileStageUnsetStays(attrs, others, entries[1..], key);
      }
    }
  }

  /** No other entry names the key of entry `n`. */
  predicate KeyOnce(entries: seq<(string, Value)>, n: nat)
    requires n < |entries|
  {
    forall j :: 0 <= j < |entries| && j != n ==> entries[j].0 != entries[n].0
  }

  /** A setting the environment and the file left "" takes its default. */
  lemma {:induction false} DefaultFills(attrs: map<string, Value>, defaults: seq<(string, Value)>, n: nat)
    requires forall i :: 0 <= i < |defaults| ==> defaults[i].0 in attrs
    requires n < |defaults| && KeyOnce(defaults, n) && attrs[defaults[n].0] == Unset
    ensures defaults[n].0 in DefaultStage(attrs, defaults)
    ensures DefaultStage(attrs, defaults)[defaults[n].0] == defaults[n].1
    decreases n
  {
    DefaultStageKeeps(attrs, defaults);
    var k := defaults[0].0;
    var next := if attrs[k] == Unset then attrs[k := defaults[0].1] else attrs;
    if n == 0 {
      DefaultUntouched(next, defaults[1..], k);
    } else {
      assert defaults[1..][n - 1] == defaults[n];
      assert KeyOnce(defaults[1..], n - 1) by {
        forall j | 0 <= j < |defaults[1..]| && j != n - 1
          ensures defaults[1..][j].0 != defaults[1..][n - 1].0
        {
          assert defaults[1..][j] == defaults[j + 1];
        }
      }
      DefaultFills(next, defaults[1..], n - 1);
    }
  }

  /** A setting no remaining default names keeps its value through the default stage. */
  lemma {:induction false} DefaultUntouched(attrs: map<string, Value>, defaults: seq<(string, Value)>, key: string)
    requires forall i :: 0 <= i < |defaults| ==> defaults[i].0 in attrs
    requires key in attrs
    requires forall j :: 0 <= j < |defaults| ==> defaults[j].0 != key
    ensures key in DefaultStage(attrs, defaults)
    ensures DefaultStage(attrs, defaults)[key] == attrs[key]
    decreases |defaults|
  {
    DefaultStageKeeps(attrs, defaults);
    if defaults != [] {
      var k := defaults[0].0;
      var next := if attrs[k] == Unset then attrs[k := defaults[0].1] else attrs;
      DefaultUntouched(next, defaults[1..], key);
    }
  }
}
