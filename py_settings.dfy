/**
 * `VGridSettingsBuilder` (vgridpy/vgrid/settings.py): a chainable builder
 * whose setter for each allowed setting name stores the value in a dict and
 * hands the builder back.
 */
module PySettings {
  import opened Js

  /** `VGridSettingsBuilder.keys`: the only settings the builder accepts.
      `blocks_per_page` is not among them. */
  const BuilderKeys: seq<string> :=
    ["spinner_dev_mode", "key_mode", "frameserver_endpoint", "video_endpoint", "use_frameserver", "show_timeline"]

  /** Every stored setting is one the builder accepts, and each at most once. */
  ghost predicate KnownSettings(settings: seq<(string, Json)>)
  {
    && DistinctKeys(settings)
    && forall i :: 0 <= i < |settings| ==> settings[i].0 in BuilderKeys
  }

  /** Storing an accepted setting keeps the dict known. */
  lemma {:induction false} PutKnown(settings: seq<(string, Json)>, k: string, v: Json)
    requires KnownSettings(settings) && k in BuilderKeys
    ensures KnownSettings(Put(settings, k, v))
    ensures HasKey(Put(settings, k, v), k)
  {
    PutKeepsDistinct(settings, k, v);
    var r := Put(settings, k, v);
    if !HasKey(settings, k) {
      assert forall i :: 0 <= i < |settings| ==> r[i] == settings[i];
    }
  }

  /** A known dict never holds a setting the builder does not accept, such
      as `blocks_per_page`. */
  lemma UnknownAbsent(settings: seq<(string, Json)>, k: string)
    requires KnownSettings(settings) && k !in BuilderKeys
    ensures !HasKey(settings, k) && Get(settings, k) == None
  {
  }

  class SettingsBuilder {
    /** `self.settings`, in insertion order. */
    var settings: seq<(string, Json)>

    ghost predicate Valid()
      reads this
    {
      KnownSettings(settings)
    }

    /** `VGridSettingsBuilder()` starts with no settings. */
    constructor ()
      ensures settings == [] && Valid()
    {
      settings := [];
    }

    /** `builder.<k>(v)`: for an accepted name, `__getattr__` returns a setter
        that writes `settings[k] = v` and returns the builder itself, so calls
        chain; any other name raises before anything is stored. Names the
        builder itself defines never reach `__getattr__`; they are not
        modelled. */
    method Set(k: string, v: Json) returns (r: Result<SettingsBuilder>)
      requires Valid()
      modifies this
      ensures Valid()
      ensures k in BuilderKeys ==> r == Ok(this) && settings == Put(old(settings), k, v)
      ensures k !in BuilderKeys ==> r == Err(Thrown("Invalid setting `" + k + "`")) && settings == old(settings)
      ensures forall k' :: Get(settings, k') == if k' == k && k in BuilderKeys then Some(v) else Get(old(settings), k')
    {
      if k in BuilderKeys {
        PutKnown(settings, k, v);
        forall k' ensures Get(Put(settings, k, v), k') == if k' == k then Some(v) else Get(settings, k') {
          GetPut(settings, k, v, k');
        }
        settings := Put(settings, k, v);
        return Ok(this);
      }
      return Err(Thrown("Invalid setting `" + k + "`"));
    }

    /** `build()`: the settings that were set, each under an accepted name
        and once, holding the value it was last set to. */
    method Build() returns (r: seq<(string, Json)>)
      requires Valid()
      ensures r == settings
      ensures DistinctKeys(r)
      ensures forall i :: 0 <= i < |r| ==> r[i].0 in BuilderKeys
      ensures !HasKey(r, "blocks_per_page")
    {
      UnknownAbsent(settings, "blocks_per_page");
      return settings;
    }
  }

  /** The settings a chain of setter calls on a fresh builder ends with, or
      the error of the first call with a name that is not accepted. */
  function Chained(calls: seq<(string, Json)>): (r: Result<seq<(string, Json)>>)
    ensures r.Ok? <==> forall i :: 0 <= i < |calls| ==> calls[i].0 in BuilderKeys
  {
    if calls == [] then Ok([])
    else
      var init, last := calls[..|calls| - 1], calls[|calls| - 1];
      match Chained(init)
      case Err(e) => Err(e)
      case Ok(s) =>
        if last.0 in BuilderKeys then Ok(Put(s, last.0, last.1))
        else Err(Thrown("Invalid setting `" + last.0 + "`"))
  }

  /** A chain that goes through holds only accepted names, once each, and
      for every name the value of the last call that set it. */
  lemma {:induction false} ChainedLastWins(calls: seq<(string, Json)>, k: string)
    requires Chained(calls).Ok?
    ensures KnownSettings(Chained(calls).value)
    ensures Get(Chained(calls).value, k) == LastSet(calls, k)
    decreases |calls|
  {
    if calls != [] {
      var init, last := calls[..|calls| - 1], calls[|calls| - 1];
      ChainedLastWins(init, k);
      PutKnown(Chained(init).value, last.0, last.1);
      GetPut(Chained(init).value, last.0, last.1, k);
    }
  }

  /** The value of the last call in `calls` that names `k`. */
  function LastSet(calls: seq<(string, Json)>, k: string): (r: Option<Json>)
    ensures r.Some? <==> exists i :: 0 <= i < |calls| && calls[i].0 == k
    ensures r.Some? ==> exists i :: 0 <= i < |calls| && calls[i] == (k, r.value)
  {
    if calls == [] then None
    else if calls[|calls| - 1].0 == k then Some(calls[|calls| - 1].1)
    else
      var r := LastSet(calls[..|calls| - 1], k);
      assert forall i :: 0 <= i < |calls| - 1 ==> calls[..|calls| - 1][i] == calls[i];
      r
  }
}
