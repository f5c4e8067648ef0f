/** `juju_spell/cli/config.py`: the `key=value` pairs of `--config-set` and
    the application settings of `--config-file`. */
module CliConfig {
  import opened Common
  import opened Strings
  import ConfigCommand

  /** `key, value = value.split("=", 1)` on a value without `=`. */
  const UNPACK_ERROR: Error := ValueError("not enough values to unpack (expected 2, got 1)")

  /** The parsed command line (`argparse.Namespace`), as far as its
      dictionary-valued destinations go. */
  class Namespace {
    var attributes: map<string, map<string, string>>

    constructor ()
      ensures attributes == map[]
    {
      attributes := map[];
    }
  }

  /** The key of a `key=value` pair: what comes before its first `=`. */
  function Key(pair: string): string
    requires '=' in pair
  {
    SplitOnce(pair, '=').value.0
  }

  /** The value of a `key=value` pair: everything after its first `=`. */
  function Val(pair: string): string
    requires '=' in pair
  {
    SplitOnce(pair, '=').value.1
  }

  /** The dictionary the pairs fill in order, and whether a pair without
      `=` stopped it; a later pair for a key overrides an earlier one. */
  function Assigned(values: seq<string>): (Try<()>, map<string, string>)
    decreases |values|
  {
    if |values| == 0 then (Ok(()), map[])
    else
      var prev := Assigned(values[..|values| - 1]);
      var last := values[|values| - 1];
      if prev.0.Raise? then prev
      else if '=' !in last then (Raise(UNPACK_ERROR), prev.1)
      else (Ok(()), prev.1[Key(last) := Val(last)])
  }

  /** The pairs raise exactly when one of them has no `=`. */
  lemma {:induction false} AssignedRaises(values: seq<string>)
    ensures Assigned(values).0.Raise? <==> exists i | 0 <= i < |values| :: '=' !in values[i]
    ensures Assigned(values).0.Raise? ==> Assigned(values).0 == Raise(UNPACK_ERROR)
    decreases |values|
  {
    if |values| > 0 {
      var init := values[..|values| - 1];
      AssignedRaises(init);
      if exists i | 0 <= i < |init| :: '=' !in init[i] {
        var i :| 0 <= i < |init| && '=' !in init[i];
        assert values[i] == init[i];
      }
      if exists i | 0 <= i < |values| :: '=' !in values[i] {
        var i :| 0 <= i < |values| && '=' !in values[i];
        if i < |init| {
          assert init[i] == values[i];
        }
      }
    }
  }

  /** When every pair has `=`, the dictionary holds exactly the keys
      given. */
  lemma {:induction false} AssignedKeys(values: seq<string>)
    requires forall i | 0 <= i < |values| :: '=' in values[i]
    ensures Assigned(values).0.Ok?
    ensures forall k :: k in Assigned(values).1 <==> exists i | 0 <= i < |values| :: Key(values[i]) == k
    decreases |values|
  {
    if |values| > 0 {
      var init := values[..|values| - 1];
      var last := values[|values| - 1];
      AssignedKeys(init);
      var before := Assigned(init).1;
      var m := Assigned(values).1;
      assert m == before[Key(last) := Val(last)];
      forall k | k in m
        ensures exists i | 0 <= i < |values| :: Key(values[i]) == k
      {
        if k != Key(last) {
          var i :| 0 <= i < |init| && Key(init[i]) == k;
          assert values[i] == init[i];
        }
      }
      forall k | exists i | 0 <= i < |values| :: Key(values[i]) == k
        ensures k in m
      {
        var i :| 0 <= i < |values| && Key(values[i]) == k;
        if i < |init| {
          assert init[i] == values[i];
          assert Key(init[i]) == k;
          assert k in before;
        } else {
          assert values[i] == last;
        }
      }
    }
  }

  /** When every pair has `=`, each key holds the value of the last pair
      that names it. */
  lemma {:induction false} AssignedLastWins(values: seq<string>, i: nat)
    requires forall j | 0 <= j < |values| :: '=' in values[j]
    requires i < |values| && forall j | i < j < |values| :: Key(values[j]) != Key(values[i])
    ensures Key(values[i]) in Assigned(values).1 && Assigned(values).1[Key(values[i])] == Val(values[i])
    decreases |values|
  {
    var init := values[..|values| - 1];
    var last := values[|values| - 1];
    AssignedKeys(init);
    assert Assigned(values).1 == Assigned(init).1[Key(last) := Val(last)];
    if i < |init| {
      assert init[i] == values[i];
      forall j | i < j < |init|
        ensures Key(init[j]) != Key(init[i])
      {
        assert init[j] == values[j];
      }
      AssignedLastWins(init, i);
    }
  }

  /** A key without `=` is read back whole, whatever its value holds. */
  lemma PairRoundTrip(key: string, value: string)
    requires '=' !in key
    ensures '=' in key + "=" + value
    ensures Key(key + "=" + value) == key && Val(key + "=" + value) == value
  {
    assert key + "=" + value == key + ['='] + value;
    SplitOnceFirst(key, '=', value);
  }

  /** `KeyValue.__call__`: the destination is reset to a new dictionary,
      which the pairs then fill; a pair without `=` raises and leaves the
      pairs before it in place. */
  method KeyValue(namespace: Namespace, dest: string, values: Option<seq<string>>) returns (r: Try<()>)
    modifies namespace
    ensures var given := if values.Some? then values.value else [];
      r == Assigned(given).0 &&
      namespace.attributes == old(namespace.attributes)[dest := Assigned(given).1]
  {
    var start := namespace.attributes;
    var filled: map<string, string> := map[];
    namespace.attributes := start[dest := filled];
    r := Ok(());
    if values.Some? && |values.value| > 0 {
      var pairs := values.value;
      var i := 0;
      while i < |pairs|
        invariant 0 <= i <= |pairs|
        invariant Assigned(pairs[..i]) == (Ok(()), filled)
        invariant namespace.attributes == start[dest := filled]
      {
        var split := SplitOnce(pairs[i], '=');
        AssignedSnoc(pairs, i);
        if split.None? {
          AssignedStops(pairs, i + 1);
          return Raise(UNPACK_ERROR);
        }
        var key, value := split.value.0, split.value.1;
        // the dictionary stored under `dest` gets the pair
        filled := filled[key := value];
        namespace.attributes := start[dest := filled];
        i := i + 1;
      }
      assert pairs[..i] == pairs;
    }
  }

  /** One more pair: a pair without `=` raises, keeping what was filled
      in; any other sets its key. */
  lemma AssignedSnoc(values: seq<string>, i: nat)
    requires i < |values| && Assigned(values[..i]).0.Ok?
    ensures '=' !in values[i] ==> Assigned(values[..i + 1]) == (Raise(UNPACK_ERROR), Assigned(values[..i]).1)
    ensures '=' in values[i] ==>
      Assigned(values[..i + 1]) == (Ok(()), Assigned(values[..i]).1[Key(values[i]) := Val(values[i])])
  {
    assert values[..i + 1][..i] == values[..i];
  }

  /** Once a prefix of the pairs raises, all of them raise with what that
      prefix filled in. */
  lemma {:induction false} AssignedStops(values: seq<string>, n: nat)
    requires n <= |values| && Assigned(values[..n]).0.Raise?
    ensures Assigned(values) == Assigned(values[..n])
    decreases |values| - n
  {
    if n < |values| {
      assert values[..|values| - 1][..n] == values[..n];
      AssignedStops(values[..|values| - 1], n);
    } else {
      assert values[..n] == values;
    }
  }

  /** `get_application_config`: one `ApplicationConfig` per top-level
      entry of the file, in file order. `document` is what the YAML file
      holds, in order; None when it is not a mapping, which has no
      `items`. */
  method GetApplicationConfig(document: Option<seq<(string, map<string, Value>)>>)
    returns (r: Try<seq<ConfigCommand.ApplicationConfig>>)
    ensures document.None? ==> r == Raise(AttributeError("items"))
    ensures document.Some? ==> r.Ok? && |r.value| == |document.value|
    ensures document.Some? ==> forall i | 0 <= i < |document.value| ::
      r.value[i].application == document.value[i].0 && r.value[i].config == document.value[i].1
  {
    if document.None? {
      return Raise(AttributeError("items"));
    }
    var items := document.value;
    var result: seq<ConfigCommand.ApplicationConfig> := [];
    var i := 0;
    while i < |items|
      invariant 0 <= i <= |items| && |result| == i
      invariant forall j | 0 <= j < i :: result[j].application == items[j].0 && result[j].config == items[j].1
    {
      result := result + [ConfigCommand.ApplicationConfig(items[i].0, items[i].1)];
      i := i + 1;
    }
    r := Ok(result);
  }

  /** The settings a file gives an application are those of its entry. */
  lemma {:induction false} FileSettings(document: seq<(string, map<string, Value>)>, result: seq<ConfigCommand.ApplicationConfig>,
                     k: nat)
    requires |result| == |document|
    requires forall i | 0 <= i < |document| ::
      result[i].application == document[i].0 && result[i].config == document[i].1
    requires k < |document| && forall i | 0 <= i < |document| && i != k :: document[i].0 != document[k].0
    ensures ConfigCommand.Pending(result, document[k].0) == document[k].1
  {
    var app := document[k].0;
    var before := result[..k + 1];
    ConfigCommand.PendingUnnamed(result[..k], app);
    assert before[..k] == result[..k];
    assert ConfigCommand.Pending(before, app) == document[k].1;
    var j := k + 1;
    while j < |result|
      invariant k + 1 <= j <= |result|
      invariant ConfigCommand.Pending(result[..j], app) == document[k].1
    {
      assert result[..j + 1][..j] == result[..j];
      j := j + 1;
    }
    assert result[..j] == result;
  }
}
