/**
 * The building block of both `get_config` functions: walk an ordered key mapping
 * (a Python `dict` literal, so in insertion order) and copy each present source
 * value onto its configuration key. A later entry for the same configuration key
 * overwrites an earlier one.
 */
module ConfigLayering {
  import opened Wrappers
  import opened Json

  type Config = map<string, Value>

  /** An ordered mapping from source keys to configuration keys. */
  type KeyMapping = seq<(string, string)>

  /** When a source key counts as given. */
  datatype Presence =
    | NonEmpty   // `if value:` on an environment string
    | Contained  // `if key in file_config:`, whatever the value, `null` included
    | NotNone    // `if value is not None:` on a command-line argument

  predicate Present(p: Presence, source: Config, key: string)
  {
    key in source &&
    match p
    case NonEmpty => source[key] != Str("")
    case Contained => true
    case NotNone => source[key] != Null
  }

  /** The configuration after the first `|mapping|` steps of the overlay loop. */
  function Layered(config: Config, source: Config, mapping: KeyMapping, p: Presence): Config
    decreases |mapping|
  {
    if mapping == [] then config
    else
      var prev := Layered(config, source, mapping[..|mapping| - 1], p);
      var (from, to) := mapping[|mapping| - 1];
      if Present(p, source, from) then prev[to := source[from]] else prev
  }

  /** The value the last present source key for `key` carries, if any does. */
  function Pick(source: Config, mapping: KeyMapping, p: Presence, key: string): (v: Option<Value>)
    decreases |mapping|
  {
    if mapping == [] then None
    else
      var (from, to) := mapping[|mapping| - 1];
      if to == key && Present(p, source, from) then Some(source[from])
      else Pick(source, mapping[..|mapping| - 1], p, key)
  }

  /**
   * After the overlay, a key holds the value of the last present source key that
   * maps to it; a key no present source key maps to keeps its old value, or stays absent.
   */
  lemma {:induction false} LayeredLookup(config: Config, source: Config, mapping: KeyMapping, p: Presence, key: string)
    ensures var r := Layered(config, source, mapping, p);
      && (Pick(source, mapping, p, key).Some? ==> key in r && r[key] == Pick(source, mapping, p, key).value)
      && (Pick(source, mapping, p, key).None? ==> (key in r <==> key in config) && (key in r ==> r[key] == config[key]))
    decreases |mapping|
  {
    if mapping != [] {
      LayeredLookup(config, source, mapping[..|mapping| - 1], p, key);
    }
  }

  /** The overlay only writes configuration keys the mapping names. */
  lemma {:induction false} LayeredKeys(config: Config, source: Config, mapping: KeyMapping, p: Presence)
    requires forall i | 0 <= i < |mapping| :: mapping[i].1 in config
    ensures Layered(config, source, mapping, p).Keys == config.Keys
    decreases |mapping|
  {
    if mapping != [] {
      var init := mapping[..|mapping| - 1];
      assert forall i | 0 <= i < |init| :: init[i] == mapping[i];
      LayeredKeys(config, source, init, p);
    }
  }

  /** A present entry that no later entry for the same key follows decides that key. */
  lemma {:induction false} PickLast(source: Config, mapping: KeyMapping, p: Presence, i: nat)
    requires i < |mapping| && Present(p, source, mapping[i].0)
    requires forall j | i < j < |mapping| :: mapping[j].1 != mapping[i].1
    ensures Pick(source, mapping, p, mapping[i].1) == Some(source[mapping[i].0])
    decreases |mapping|
  {
    if i < |mapping| - 1 {
      var init := mapping[..|mapping| - 1];
      assert init[i] == mapping[i];
      PickLast(source, init, p, i);
    }
  }

  /** With no present entry for a key, the overlay leaves it alone. */
  lemma {:induction false} PickNone(source: Config, mapping: KeyMapping, p: Presence, key: string)
    requires forall j | 0 <= j < |mapping| && mapping[j].1 == key :: !Present(p, source, mapping[j].0)
    ensures Pick(source, mapping, p, key) == None
    decreases |mapping|
  {
    if mapping != [] {
      var init := mapping[..|mapping| - 1];
      assert forall j | 0 <= j < |init| :: init[j] == mapping[j];
      PickNone(source, init, p, key);
    }
  }

  /** The overlay loop: `for from, to in mapping.items(): if present: config[to] = source[from]`. */
  method ApplyLayer(config: Config, source: Config, mapping: KeyMapping, p: Presence) returns (result: Config)
    ensures result == Layered(config, source, mapping, p)
  {
    result := config;
    var i := 0;
    while i < |mapping|
      invariant i <= |mapping| && result == Layered(config, source, mapping[..i], p)
    {
      var (from, to) := mapping[i];
      assert mapping[..i + 1][..i] == mapping[..i];
      if Present(p, source, from) {
        result := result[to := source[from]];
      }
      i := i + 1;
    }
    assert mapping[..i] == mapping;
  }
}
