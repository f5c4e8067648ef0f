/** `juju_spell/filter.py`: keeps the controllers of a configuration that
    satisfy every `key=v1,v2,...` clause of a filter expression. Finding the
    clauses in the expression is regular-expression matching; the model
    takes the clauses as found. */
module Filter {
  import opened Common
  import opened Strings
  import Config

  /** One `key=values` clause; `values` is the comma-separated text. */
  datatype Clause = Clause(key: string, values: string)

  /** `serialize` of the clause text: the set of its comma-separated
      pieces. */
  function Serialize(values: string): (r: set<string>)
    ensures forall v :: v in r <==> v in Split(values, ',')
  {
    set i | 0 <= i < |Split(values, ',')| :: Split(values, ',')[i]
  }

  /** `serialize` of a list attribute: the set of its items. */
  function SerializeList(items: seq<Value>): (r: set<Value>)
    ensures forall v :: v in r <==> v in items
  {
    set i | 0 <= i < |items| :: items[i]
  }

  /** The comma-separated pieces as Python strings. */
  function Strs(values: set<string>): set<Value>
  {
    set v | v in values :: Str(v)
  }

  /** One clause on the controller's attributes (`asdict(controller)`),
      checked in the order `_filter` checks it. */
  predicate Passes(fields: map<string, Value>, clause: Clause)
  {
    if clause.key !in fields || !Truthy(fields[clause.key]) then false
    else match fields[clause.key]
      case List(items) => |SerializeList(items) * Strs(Serialize(clause.values))| > 0
      case Str(s) => s in Serialize(clause.values)
      case _ => true
  }

  /** What a clause means: a missing or empty attribute fails it; a list
      attribute passes when one of its items is one of the values; a string
      attribute passes when it is one of the values; any other attribute
      passes. */
  lemma ClauseMeaning(fields: map<string, Value>, clause: Clause)
    ensures clause.key !in fields || !Truthy(fields[clause.key]) ==> !Passes(fields, clause)
    ensures clause.key in fields && fields[clause.key].List? ==>
      (Passes(fields, clause) <==>
       exists i :: 0 <= i < |fields[clause.key].items| && fields[clause.key].items[i].Str? &&
                   fields[clause.key].items[i].s in Split(clause.values, ','))
    ensures clause.key in fields && fields[clause.key].Str? ==>
      (Passes(fields, clause) <==> fields[clause.key].s != "" && fields[clause.key].s in Split(clause.values, ','))
    ensures clause.key in fields && Truthy(fields[clause.key]) && !fields[clause.key].List? && !fields[clause.key].Str?
      ==> Passes(fields, clause)
  {
    if clause.key in fields && fields[clause.key].List? {
      var items := fields[clause.key].items;
      var common := SerializeList(items) * Strs(Serialize(clause.values));
      if Passes(fields, clause) {
        var v :| v in common;
        var i :| 0 <= i < |items| && items[i] == v;
        assert items[i].Str? && items[i].s in Split(clause.values, ',');
      }
      if exists i :: 0 <= i < |items| && items[i].Str? && items[i].s in Split(clause.values, ',') {
        var i :| 0 <= i < |items| && items[i].Str? && items[i].s in Split(clause.values, ',');
        assert items[i] in common;
      }
    }
  }

  /** `make_controllers_filter(expression)` applied to a controller: the
      clauses are checked in order and the first failing one decides. */
  function Matches(c: Config.Controller, clauses: seq<Clause>): (r: bool)
    ensures r <==> forall i | 0 <= i < |clauses| :: Passes(Config.Fields(c), clauses[i])
    decreases |clauses|
  {
    if |clauses| == 0 then true
    else if !Passes(Config.Fields(c), clauses[0]) then false
    else
      var r := Matches(c, clauses[1..]);
      assert forall i | 1 <= i < |clauses| :: clauses[1..][i - 1] == clauses[i];
      r
  }

  /** `list(filter(f, controllers))`. */
  function Kept(controllers: seq<Config.Controller>, clauses: seq<Clause>): seq<Config.Controller>
    decreases |controllers|
  {
    if |controllers| == 0 then []
    else (if Matches(controllers[0], clauses) then [controllers[0]] else []) + Kept(controllers[1..], clauses)
  }

  /** The kept controllers are exactly those that match, in their order:
      every kept one matches and is one of the controllers, every matching
      one is kept, and keeping is idempotent and distributes over
      concatenation. */
  lemma KeptMatching(controllers: seq<Config.Controller>, clauses: seq<Clause>)
    ensures forall c | c in Kept(controllers, clauses) :: c in controllers && Matches(c, clauses)
    ensures forall c | c in controllers && Matches(c, clauses) :: c in Kept(controllers, clauses)
    ensures |Kept(controllers, clauses)| <= |controllers|
    ensures Kept(Kept(controllers, clauses), clauses) == Kept(controllers, clauses)
  {
    KeptSound(controllers, clauses);
    KeptComplete(controllers, clauses);
    KeptIdempotent(controllers, clauses);
  }

  lemma {:induction false} KeptSound(controllers: seq<Config.Controller>, clauses: seq<Clause>)
    ensures forall c | c in Kept(controllers, clauses) :: c in controllers && Matches(c, clauses)
    ensures |Kept(controllers, clauses)| <= |controllers|
    decreases |controllers|
  {
    if |controllers| > 0 {
      KeptSound(controllers[1..], clauses);
    }
  }

  lemma {:induction false} KeptComplete(controllers: seq<Config.Controller>, clauses: seq<Clause>)
    ensures forall c | c in controllers && Matches(c, clauses) :: c in Kept(controllers, clauses)
    decreases |controllers|
  {
    if |controllers| > 0 {
      KeptComplete(controllers[1..], clauses);
      forall c | c in controllers && Matches(c, clauses)
        ensures c in Kept(controllers, clauses)
      {
        if c != controllers[0] {
          assert c in controllers[1..];
        }
      }
    }
  }

  lemma {:induction false} KeptIdempotent(controllers: seq<Config.Controller>, clauses: seq<Clause>)
    ensures Kept(Kept(controllers, clauses), clauses) == Kept(controllers, clauses)
    decreases |controllers|
  {
    if |controllers| > 0 {
      var rest := Kept(controllers[1..], clauses);
      KeptIdempotent(controllers[1..], clauses);
      if Matches(controllers[0], clauses) {
        assert ([controllers[0]] + rest)[1..] == rest;
      } else {
        assert [] + rest == rest;
      }
    }
  }

  /** With every controller matching, all are kept, in order. */
  lemma {:induction false} KeptAll(controllers: seq<Config.Controller>, clauses: seq<Clause>)
    requires forall i | 0 <= i < |controllers| :: Matches(controllers[i], clauses)
    ensures Kept(controllers, clauses) == controllers
    decreases |controllers|
  {
    if |controllers| > 0 {
      KeptAll(controllers[1..], clauses);
      assert [controllers[0]] + controllers[1..] == controllers;
    }
  }

  /** Keeping from a concatenation keeps from each part. */
  lemma {:induction false} KeptConcat(a: seq<Config.Controller>, b: seq<Config.Controller>, clauses: seq<Clause>)
    ensures Kept(a + b, clauses) == Kept(a, clauses) + Kept(b, clauses)
    decreases |a|
  {
    if |a| == 0 {
      assert a + b == b;
    } else {
      assert (a + b)[1..] == a[1..] + b;
      KeptConcat(a[1..], b, clauses);
      var head := if Matches(a[0], clauses) then [a[0]] else [];
      assert head + (Kept(a[1..], clauses) + Kept(b, clauses)) == head + Kept(a[1..], clauses) + Kept(b, clauses);
    }
  }

  const NO_MATCH: string := "No match controller"

  /** `get_filtered_config`: an empty expression leaves the configuration
      alone; otherwise only the matching controllers stay, and none
      staying is an error. `clauses` are the clauses found in
      `expression`. */
  method GetFilteredConfig(config: Config.Config, expression: string, clauses: seq<Clause>) returns (r: Try<()>)
    modifies config
    ensures expression == "" ==> config.controllers == old(config.controllers) && r.Ok?
    ensures expression != "" ==> config.controllers == Kept(old(config.controllers), clauses)
    ensures expression != "" ==> (r.Raise? <==> |config.controllers| == 0)
    ensures r.Raise? ==> r.error == ValueError(NO_MATCH)
  {
    if expression == "" {
      return Ok(());
    }
    config.controllers := Kept(config.controllers, clauses);
    if |config.controllers| <= 0 {
      return Raise(ValueError(NO_MATCH));
    }
    r := Ok(());
  }
}
