/** `juju_spell/config.py`: the controller records, the port-range
    conversion, the defaulting of the `default:` section into its sibling
    lists, the merge of a personal configuration into the global one, and
    the conversion of `juju show-controller` output. Configuration
    documents are `Value`s; the library-driven schema validation is an
    input. */
module Config {
  import opened Common
  import opened Strings
  import Utils

  const DEFAULT_KEY: string := "default"

  // ---------------------------------------------------------------------
  // Records
  // ---------------------------------------------------------------------

  /** Python's `range(start, stop)`. */
  datatype PortRange = PortRange(start: int, stop: int)
  {
    /** The ports in the range, in increasing order. */
    function Ports(): (ps: seq<int>)
      ensures |ps| == if stop > start then stop - start else 0
      ensures forall i :: 0 <= i < |ps| ==> ps[i] == start + i
    {
      if stop > start then seq(stop - start, i requires 0 <= i < stop - start => start + i) else []
    }
  }

  datatype Connection = Connection(
    destination: string,
    jumps: Option<seq<string>>,
    subnets: Option<seq<string>>,
    portRange: Option<PortRange>)

  datatype RetryPolicy = RetryPolicy(attempt: Option<int>, wait: Option<int>, timeout: Option<int>)

  datatype Controller = Controller(
    uuid: string,
    name: string,
    customer: string,
    owner: string,
    endpoint: string,
    caCert: string,
    user: string,
    password: string,
    /** Model name to the list of models it stands for. */
    modelMapping: Option<map<string, Option<seq<string>>>>,
    description: Option<string>,
    tags: Option<seq<string>>,
    risk: int,
    connection: Option<Connection>,
    retryPolicy: Option<RetryPolicy>)

  /** The validated configuration; `get_filtered_config` replaces its
      controller list in place. */
  class Config {
    var controllers: seq<Controller>

    constructor (controllers: seq<Controller>)
      ensures this.controllers == controllers
    {
      this.controllers := controllers;
    }
  }

  /** The attribute names of the `Controller` dataclass. */
  const ControllerFields: set<string> := {
    "uuid", "name", "customer", "owner", "endpoint", "ca_cert", "user", "password",
    "model_mapping", "description", "tags", "risk", "connection", "retry_policy"}

  /** `dataclasses.asdict(controller)`: each attribute under its Python
      name; the nested records become mappings, and the `range` object of a
      port range is shown by its bounds. */
  function Fields(c: Controller): (r: map<string, Value>)
    ensures r.Keys == ControllerFields
    ensures r["uuid"] == Str(c.uuid) && r["name"] == Str(c.name) && r["user"] == Str(c.user)
  {
    map[
      "customer" := Str(c.customer),
      "owner" := Str(c.owner), "ca_cert" := Str(c.caCert),
      "password" := Str(c.password),
      "model_mapping" := (match c.modelMapping
                          case None => Null
                          case Some(m) => Dict(map k | k in m :: OptStrings(m[k]))),
      "description" := (match c.description case None => Null case Some(d) => Str(d)),
      "tags" := OptStrings(c.tags),
      "risk" := Int(c.risk),
      "connection" := (match c.connection
                       case None => Null
                       case Some(conn) => Dict(map[
                         "destination" := Str(conn.destination),
                         "jumps" := OptStrings(conn.jumps),
                         "subnets" := OptStrings(conn.subnets),
                         "port_range" := (match conn.portRange
                                          case None => Null
                                          case Some(p) => Dict(map["start" := Int(p.start), "stop" := Int(p.stop)]))])),
      "retry_policy" := (match c.retryPolicy
                         case None => Null
                         case Some(p) => Dict(map[
                           "attempt" := OptInt(p.attempt), "wait" := OptInt(p.wait),
                           "timeout" := OptInt(p.timeout)])),
      "endpoint" := Str(c.endpoint), "user" := Str(c.user), "name" := Str(c.name), "uuid" := Str(c.uuid)]
  }

  function OptStrings(xs: Option<seq<string>>): (r: Value)
    ensures xs.Some? ==> r.List? && |r.items| == |xs.value|
    ensures xs.None? ==> r == Null
  {
    match xs
    case None => Null
    case Some(s) => List(seq(|s|, i requires 0 <= i < |s| => Str(s[i])))
  }

  function OptInt(x: Option<int>): Value
  {
    match x
    case None => Null
    case Some(i) => Int(i)
  }

  // ---------------------------------------------------------------------
  // PortRange.convert
  // ---------------------------------------------------------------------

  /** `PortRange.convert`: the template's pattern check (`matches`), then
      `start, end = value.split(":")` and `range(int(start), int(end))`.
      `int` ignores whitespace around the digits, which matters because the
      pattern's closing `$` also accepts a value ending in a newline. */
  function ConvertPortRange(value: string, matches: bool): (r: Try<PortRange>)
    ensures !matches ==> r == Raise(ConfigError("Invalid port_range definition"))
    ensures r.Raise? ==> r.error.ConfigError? || r.error.ValueError?
  {
    if !matches then Raise(ConfigError("Invalid port_range definition"))
    else
      var parts := Split(value, ':');
      if |parts| != 2 then Raise(ValueError("wrong number of values to unpack"))
      else
        match (ParseNat(Strip(parts[0])), ParseNat(Strip(parts[1])))
        case (Some(a), Some(b)) => Ok(PortRange(a, b))
        case _ => Raise(ValueError("invalid literal for int() with base 10"))
  }

  /** `"a:b"`, possibly followed by whitespace such as the newline the
      pattern lets through, becomes the half-open range `[a, b)`. */
  lemma ConvertPortRangeRoundTrip(a: nat, b: nat, end: string)
    requires forall c :: c in end ==> c in Whitespace
    ensures ConvertPortRange(NatToString(a) + ":" + NatToString(b) + end, true) == Ok(PortRange(a, b))
  {
    var sa, sb := NatToString(a), NatToString(b);
    PortRangeParts(sa, sb, end);
    ParseNatToString(a);
    ParseNatToString(b);
    StripDigits(sa, "");
    assert sa + "" == sa;
    StripDigits(sb, end);
  }

  /** Splitting `"a:b"` and a whitespace tail on the colon. */
  lemma PortRangeParts(sa: string, sb: string, end: string)
    requires IsDigits(sa) && IsDigits(sb)
    requires forall c :: c in end ==> c in Whitespace
    ensures Split(sa + ":" + sb + end, ':') == [sa, sb + end]
  {
    var tail := sb + end;
    assert ':' !in sa && ':' !in tail by {
      forall i | 0 <= i < |sa| ensures sa[i] != ':' { }
      forall i | 0 <= i < |tail| ensures tail[i] != ':' {
        if i >= |sb| { assert tail[i] in end; }
      }
    }
    assert sa + ":" + sb + end == sa + [':'] + tail;
    SplitCons(sa, ':', tail);
    SplitNoSep(tail, ':');
  }

  /** A value converts exactly when it is two digit strings around one
      colon, each possibly wrapped in whitespace. */
  lemma ConvertPortRangeOk(value: string)
    ensures ConvertPortRange(value, true).Ok? <==>
      |Split(value, ':')| == 2 && IsDigits(Strip(Split(value, ':')[0])) && IsDigits(Strip(Split(value, ':')[1]))
  {
  }

  // ---------------------------------------------------------------------
  // _apply_default_dict / _apply_default_list
  // ---------------------------------------------------------------------

  /** What `_apply_default_dict(source, default)` returns, or None when it
      raises. A default that is not a mapping is iterated: an empty string
      or list adds nothing, a non-empty one fails on `.get`, anything else
      is not iterable. */
  function DefaultDict(source: map<string, Value>, default: Value): (r: Option<map<string, Value>>)
    ensures default.Dict? && r.Some? ==> r.value.Keys == source.Keys + default.entries.Keys
    ensures !default.Dict? ==> r == (if default == Str("") || default == List([]) then Some(source) else None)
    decreases default, 2, 0
  {
    match default
    case Dict(m) =>
      if forall k | k in m :: DefaultEntry(source, m, k).Some? then Some(DefaultedMap(source, m)) else None
    case Str(s) => if s == "" then Some(source) else None
    case List(xs) => if xs == [] then Some(source) else None
    case _ => None
  }

  /** The source with every default key given its defaulted value. */
  function DefaultedMap(source: map<string, Value>, m: map<string, Value>): (r: map<string, Value>)
    requires forall k | k in m :: DefaultEntry(source, m, k).Some?
    ensures r.Keys == source.Keys + m.Keys
    ensures forall k | k in r :: r[k] == if k in m then DefaultEntry(source, m, k).value else source[k]
    decreases Dict(m), 1, 1
  {
    map k | k in source.Keys + m.Keys :: if k in m then DefaultEntry(source, m, k).value else source[k]
  }

  /** The new value of default key `k`: the source value when present, else
      the default, with mappings and lists defaulted recursively. */
  function DefaultEntry(source: map<string, Value>, m: map<string, Value>, k: string): (r: Option<Value>)
    requires k in m
    decreases Dict(m), 1, 0
  {
    var target := if k in source then source[k] else m[k];
    match target
    case Dict(t) =>
      (match DefaultDict(t, m[k]) case Some(d) => Some(Dict(d)) case None => None)
    case List(xs) =>
      (match DefaultList(xs, m[k]) case Some(l) => Some(List(l)) case None => None)
    case _ => Some(target)
  }

  /** What `_apply_default_list(source, default)` returns, or None when it
      raises: dict elements are defaulted by a dict default, every other
      element is replaced by the default itself. */
  function DefaultList(xs: seq<Value>, default: Value): (r: Option<seq<Value>>)
    ensures r.Some? ==> |r.value| == |xs|
    decreases default, 3, |xs|
  {
    if |xs| == 0 then Some([])
    else
      match DefaultList(xs[..|xs| - 1], default)
      case None => None
      case Some(prefix) =>
        var x := xs[|xs| - 1];
        if x.Dict? && default.Dict? then
          match DefaultDict(x.entries, default)
          case None => None
          case Some(d) => Some(prefix + [Dict(d)])
        else Some(prefix + [default])
  }

  /** Elementwise reading of the list defaulting. */
  lemma {:induction false} DefaultListAt(xs: seq<Value>, default: Value, i: nat)
    requires DefaultList(xs, default).Some? && i < |xs|
    ensures !(xs[i].Dict? && default.Dict?) ==> DefaultList(xs, default).value[i] == default
    ensures xs[i].Dict? && default.Dict? ==>
              DefaultDict(xs[i].entries, default).Some? &&
              DefaultList(xs, default).value[i] == Dict(DefaultDict(xs[i].entries, default).value)
    decreases |xs|
  {
    if i < |xs| - 1 {
      DefaultListAt(xs[..|xs| - 1], default, i);
    }
  }

  /** `_apply_default_dict` never loses a source key, and a source value that
      is not a collection always wins over the default. */
  lemma DefaultDictKeepsSource(source: map<string, Value>, m: map<string, Value>, k: string)
    requires DefaultDict(source, Dict(m)).Some? && k in source
    requires !source[k].Dict? && !source[k].List?
    ensures k in DefaultDict(source, Dict(m)).value && DefaultDict(source, Dict(m)).value[k] == source[k]
  {
    if k in m {
      assert DefaultEntry(source, m, k).Some?;
    }
  }

  /** A default key missing from the source is filled from the default. */
  lemma DefaultDictFillsMissing(source: map<string, Value>, m: map<string, Value>, k: string)
    requires DefaultDict(source, Dict(m)).Some? && k in m && k !in source
    requires !m[k].Dict? && !m[k].List?
    ensures DefaultDict(source, Dict(m)).value[k] == m[k]
  {
    assert DefaultEntry(source, m, k).Some?;
  }

  /** A list-valued default for a key the source lacks comes back as a list
      holding one copy of the default per element, not as the default list. */
  lemma DefaultDictListDefault()
    ensures DefaultDict(map[], Dict(map["tags" := List([Str("a"), Str("b")])]))
         == Some(map["tags" := List([List([Str("a"), Str("b")]), List([Str("a"), Str("b")])])])
  {
    var d := List([Str("a"), Str("b")]);
    var m := map["tags" := d];
    var none: map<string, Value> := map[];
    assert [Str("a")][..0] == [];
    assert DefaultList([], d) == Some([]);
    assert DefaultList([Str("a")], d) == Some([] + [d]);
    assert [] + [d] == [d];
    assert [Str("a"), Str("b")][..1] == [Str("a")];
    assert DefaultList([Str("a"), Str("b")], d) == Some([d] + [d]);
    assert [d] + [d] == [d, d];
    assert DefaultEntry(none, m, "tags") == Some(List([d, d]));
    assert forall k | k in m :: DefaultEntry(none, m, k).Some?;
    var r := DefaultedMap(none, m);
    assert r.Keys == {"tags"};
    assert r == map["tags" := List([d, d])];
  }

  /** A default key whose value fails makes the whole mapping fail. */
  lemma DefaultDictFails(source: map<string, Value>, m: map<string, Value>, k: string)
    requires k in m && DefaultEntry(source, m, k).None?
    ensures DefaultDict(source, Dict(m)).None?
  {
  }

  /** The entry for a key whose target is a mapping or a list. */
  lemma DefaultEntryOf(source: map<string, Value>, m: map<string, Value>, k: string)
    requires k in m
    ensures var target := if k in source then source[k] else m[k];
            DefaultEntry(source, m, k) ==
              if target.Dict? then
                (if DefaultDict(target.entries, m[k]).Some? then Some(Dict(DefaultDict(target.entries, m[k]).value)) else None)
              else if target.List? then
                (if DefaultList(target.items, m[k]).Some? then Some(List(DefaultList(target.items, m[k]).value)) else None)
              else Some(target)
  {
  }

  /** `_apply_default_dict`: copy the source, then give every default key
      its defaulted value. A failure in one key raises; which of several
      failing keys is reported depends on the mapping order, which the
      model leaves open. */
  method ApplyDefaultDict(source: map<string, Value>, default: Value) returns (r: Try<map<string, Value>>)
    ensures r.Ok? <==> DefaultDict(source, default).Some?
    ensures r.Ok? ==> r.value == DefaultDict(source, default).value
    ensures r.Raise? ==> r.error.TypeError? || r.error.AttributeError?
    decreases default, 2, 0
  {
    if !default.Dict? {
      if default == Str("") || default == List([]) {
        return Ok(source);
      } else if default.Str? || default.List? {
        return Raise(AttributeError("get"));
      }
      return Raise(TypeError("object is not iterable"));
    }
    var m := default.entries;
    var newDict := source;
    var done: set<string> := {};
    assert EntriesOver(source, m, done) == source;
    while m.Keys - done != {}
      invariant done <= m.Keys
      invariant forall k | k in done :: DefaultEntry(source, m, k).Some?
      invariant newDict == EntriesOver(source, m, done)
      decreases m.Keys - done
    {
      var k :| k in m.Keys - done;
      DefaultEntryOf(source, m, k);
      var target := if k in source then source[k] else m[k];
      var v: Value;
      if target.Dict? {
        var sub := ApplyDefaultDict(target.entries, m[k]);
        if sub.Raise? {
          DefaultDictFails(source, m, k);
          return Raise(sub.error);
        }
        v := Dict(sub.value);
      } else if target.List? {
        var sub := ApplyDefaultList(target.items, m[k]);
        if sub.Raise? {
          DefaultDictFails(source, m, k);
          return Raise(sub.error);
        }
        v := List(sub.value);
      } else {
        v := target;
      }
      assert DefaultEntry(source, m, k) == Some(v);
      EntriesOverStep(source, m, done, k);
      newDict := newDict[k := v];
      done := done + {k};
    }
    forall k | k in m.Keys ensures k in done {
      assert k !in m.Keys - done;
    }
    assert done == m.Keys;
    EntriesOverAll(source, m);
    return Ok(newDict);
  }

  /** The copy of the source once the default keys in `done` are set. */
  function EntriesOver(source: map<string, Value>, m: map<string, Value>, done: set<string>): map<string, Value>
    requires done <= m.Keys
    requires forall k | k in done :: DefaultEntry(source, m, k).Some?
  {
    source + map k | k in done :: DefaultEntry(source, m, k).value
  }

  lemma EntriesOverStep(source: map<string, Value>, m: map<string, Value>, done: set<string>, key: string)
    requires done <= m.Keys && key in m
    requires forall k | k in done :: DefaultEntry(source, m, k).Some?
    requires DefaultEntry(source, m, key).Some?
    ensures forall k | k in done + {key} :: DefaultEntry(source, m, k).Some?
    ensures EntriesOver(source, m, done + {key}) == EntriesOver(source, m, done)[key := DefaultEntry(source, m, key).value]
  {
  }

  lemma EntriesOverAll(source: map<string, Value>, m: map<string, Value>)
    requires forall k | k in m :: DefaultEntry(source, m, k).Some?
    ensures DefaultDict(source, Dict(m)) == Some(EntriesOver(source, m, m.Keys))
  {
    var v := DefaultedMap(source, m);
    var w := EntriesOver(source, m, m.Keys);
    assert w.Keys == v.Keys;
    forall k | k in v ensures w[k] == v[k] { }
    assert w == v;
  }

  /** `_apply_default_list`. */
  method ApplyDefaultList(source: seq<Value>, default: Value) returns (r: Try<seq<Value>>)
    ensures r.Ok? <==> DefaultList(source, default).Some?
    ensures r.Ok? ==> r.value == DefaultList(source, default).value
    ensures r.Raise? ==> r.error.TypeError? || r.error.AttributeError?
    decreases default, 3, |source|
  {
    var newList: seq<Value> := [];
    var i := 0;
    while i < |source|
      invariant 0 <= i <= |source|
      invariant DefaultList(source[..i], default) == Some(newList)
    {
      var value := source[i];
      assert source[..i + 1][..i] == source[..i];
      if value.Dict? && default.Dict? {
        var sub := ApplyDefaultDict(value.entries, default);
        if sub.Raise? {
          DefaultListFails(source, default, i + 1);
          return Raise(sub.error);
        }
        newList := newList + [Dict(sub.value)];
      } else {
        newList := newList + [default];
      }
      i := i + 1;
    }
    assert source[..i] == source;
    return Ok(newList);
  }

  /** A failing prefix makes the whole list fail. */
  lemma {:induction false} DefaultListFails(xs: seq<Value>, default: Value, n: nat)
    requires n <= |xs| && DefaultList(xs[..n], default).None?
    ensures DefaultList(xs, default).None?
    decreases |xs| - n
  {
    if n < |xs| {
      assert xs[..n + 1][..n] == xs[..n];
      DefaultListFails(xs, default, n + 1);
    } else {
      assert xs[..n] == xs;
    }
  }

  // ---------------------------------------------------------------------
  // _apply_default
  // ---------------------------------------------------------------------

  /** Whether `tk` is `k + "s"` for a default key `k`. */
  predicate IsTarget(tk: string, d: map<string, Value>)
  {
    |tk| > 0 && tk[|tk| - 1] == 's' && tk[..|tk| - 1] in d
  }

  /** A sibling value after defaulting with default value `dv`: lists
      elementwise, mappings as a dict, anything else untouched. */
  function DefaultSibling(v: Value, dv: Value): Option<Value>
  {
    match v
    case List(xs) => (match DefaultList(xs, dv) case Some(l) => Some(List(l)) case None => None)
    case Dict(t) => (match DefaultDict(t, dv) case Some(t2) => Some(Dict(t2)) case None => None)
    case _ => Some(v)
  }

  /** What `_apply_default(source)` returns once the document has passed the
      defaults template, or None when it raises. */
  function DefaultConfig(source: map<string, Value>): (r: Option<map<string, Value>>)
    ensures r.Some? ==> DEFAULT_KEY !in r.value
    ensures r.Some? ==> r.value.Keys == source.Keys - {DEFAULT_KEY}
  {
    var rest := source - {DEFAULT_KEY};
    if DEFAULT_KEY !in source || source[DEFAULT_KEY] == Null then Some(rest)
    else if !source[DEFAULT_KEY].Dict? then None
    else
      var d := source[DEFAULT_KEY].entries;
      if forall tk | tk in rest && IsTarget(tk, d) :: DefaultSibling(rest[tk], d[tk[..|tk| - 1]]).Some? then
        Some(DefaultedSiblings(rest, d))
      else None
  }

  /** The document with every `k + "s"` sibling defaulted. */
  function DefaultedSiblings(rest: map<string, Value>, d: map<string, Value>): (r: map<string, Value>)
    requires forall tk | tk in rest && IsTarget(tk, d) :: DefaultSibling(rest[tk], d[tk[..|tk| - 1]]).Some?
    ensures r.Keys == rest.Keys
    ensures forall tk | tk in r :: r[tk] == if IsTarget(tk, d) then DefaultSibling(rest[tk], d[tk[..|tk| - 1]]).value else rest[tk]
  {
    map tk | tk in rest :: if IsTarget(tk, d) then DefaultSibling(rest[tk], d[tk[..|tk| - 1]]).value else rest[tk]
  }

  /** Without a default section the document is returned as it is. */
  lemma DefaultConfigNoDefault(source: map<string, Value>)
    requires DEFAULT_KEY !in source
    ensures DefaultConfig(source) == Some(source)
  {
    assert source - {DEFAULT_KEY} == source;
  }

  /** Only the `k + "s"` siblings of default keys change. */
  lemma DefaultConfigUntouched(source: map<string, Value>, tk: string)
    requires DefaultConfig(source).Some? && tk in source && tk != DEFAULT_KEY
    requires DEFAULT_KEY !in source || !source[DEFAULT_KEY].Dict? || !IsTarget(tk, source[DEFAULT_KEY].entries)
    ensures DefaultConfig(source).value[tk] == source[tk]
  {
  }

  /** Defaulting a controllers list with a controller default gives each
      controller the default keys it lacks. */
  lemma DefaultConfigControllers(source: map<string, Value>, i: nat, field: string)
    requires DEFAULT_KEY in source && source[DEFAULT_KEY].Dict?
    requires "controller" in source[DEFAULT_KEY].entries
    requires source[DEFAULT_KEY].entries["controller"].Dict?
    requires "controllers" in source && source["controllers"].List?
    requires i < |source["controllers"].items| && source["controllers"].items[i].Dict?
    requires DefaultConfig(source).Some?
    requires field in source[DEFAULT_KEY].entries["controller"].entries
    requires field !in source["controllers"].items[i].entries
    requires !source[DEFAULT_KEY].entries["controller"].entries[field].Dict?
    requires !source[DEFAULT_KEY].entries["controller"].entries[field].List?
    ensures DefaultConfig(source).value["controllers"].List?
    ensures var out := DefaultConfig(source).value["controllers"].items;
            i < |out| && out[i].Dict? && field in out[i].entries &&
            out[i].entries[field] == source[DEFAULT_KEY].entries["controller"].entries[field]
  {
    var d := source[DEFAULT_KEY].entries;
    var rest := source - {DEFAULT_KEY};
    assert "controllers"[..|"controllers"| - 1] == "controller";
    assert IsTarget("controllers", d);
    assert "controller" + "s" == "controllers";
    var xs := source["controllers"].items;
    assert DefaultSibling(rest["controllers"], d["controller"]).Some?;
    DefaultListAt(xs, d["controller"], i);
    DefaultDictFillsMissing(xs[i].entries, d["controller"].entries, field);
  }

  /** `_apply_default(source)`: `valid` is the outcome of the defaults
      template check that runs first. The default section is popped, and
      each default key `k` defaults the sibling `k + "s"`. */
  method ApplyDefault(source: map<string, Value>, valid: bool) returns (r: Try<map<string, Value>>)
    ensures !valid ==> r == Raise(JujuSpellError("configuration file validation failed"))
    ensures valid ==> (r.Ok? <==> DefaultConfig(source).Some?)
    ensures valid && r.Ok? ==> r.value == DefaultConfig(source).value
  {
    if !valid {
      return Raise(JujuSpellError("configuration file validation failed"));
    }
    var rest := source - {DEFAULT_KEY};
    if DEFAULT_KEY !in source || source[DEFAULT_KEY] == Null {
      return Ok(rest);
    }
    if !source[DEFAULT_KEY].Dict? {
      return Raise(AttributeError("items"));
    }
    var d := source[DEFAULT_KEY].entries;
    var out := rest;
    var done: set<string> := {};
    assert SiblingsOver(rest, d, done) == rest;
    while d.Keys - done != {}
      invariant done <= d.Keys
      invariant SiblingsDone(rest, d, done)
      invariant out == SiblingsOver(rest, d, done)
      decreases d.Keys - done
    {
      var key :| key in d.Keys - done;
      var targetKey := key + "s";
      SiblingsOverFresh(rest, d, done, key);
      if targetKey in out {
        var sub := DefaultTarget(out[targetKey], d[key]);
        if sub.Raise? {
          TargetOf(key);
          DefaultConfigFails(source, targetKey);
          return Raise(sub.error);
        }
        out := out[targetKey := sub.value];
      }
      SiblingsOverStep(rest, d, done, key);
      done := done + {key};
    }
    forall k | k in d.Keys ensures k in done {
      assert k !in d.Keys - done;
    }
    assert done == d.Keys;
    SiblingsOverAll(rest, d);
    return Ok(out);
  }

  /** The two `isinstance` branches of the `_apply_default` loop: a list
      target is defaulted elementwise, a mapping target as a dict, and any
      other value is left as it is. */
  method DefaultTarget(v: Value, dv: Value) returns (r: Try<Value>)
    ensures r.Ok? <==> DefaultSibling(v, dv).Some?
    ensures r.Ok? ==> r.value == DefaultSibling(v, dv).value
    ensures r.Raise? ==> r.error.TypeError? || r.error.AttributeError?
  {
    if v.List? {
      var sub := ApplyDefaultList(v.items, dv);
      if sub.Raise? {
        return Raise(sub.error);
      }
      return Ok(List(sub.value));
    } else if v.Dict? {
      var sub := ApplyDefaultDict(v.entries, dv);
      if sub.Raise? {
        return Raise(sub.error);
      }
      return Ok(Dict(sub.value));
    }
    return Ok(v);
  }

  /** `k + "s"` is the target of `k`, and of no other key. */
  lemma TargetOf(key: string)
    ensures (key + "s")[..|key + "s"| - 1] == key
    ensures forall tk | |tk| > 0 && tk[|tk| - 1] == 's' && tk[..|tk| - 1] == key :: tk == key + "s"
  {
    forall tk | |tk| > 0 && tk[|tk| - 1] == 's' && tk[..|tk| - 1] == key ensures tk == key + "s" {
      assert tk == tk[..|tk| - 1] + [tk[|tk| - 1]];
    }
  }

  /** Every target of a default key in `done` defaults successfully. */
  predicate SiblingsDone(rest: map<string, Value>, d: map<string, Value>, done: set<string>)
  {
    forall tk | tk in rest && IsTarget(tk, d) && tk[..|tk| - 1] in done :: DefaultSibling(rest[tk], d[tk[..|tk| - 1]]).Some?
  }

  /** The document once the default keys in `done` have been applied. */
  function SiblingsOver(rest: map<string, Value>, d: map<string, Value>, done: set<string>): map<string, Value>
    requires SiblingsDone(rest, d, done)
  {
    map tk | tk in rest :: if IsTarget(tk, d) && tk[..|tk| - 1] in done then DefaultSibling(rest[tk], d[tk[..|tk| - 1]]).value else rest[tk]
  }

  lemma SiblingsOverFresh(rest: map<string, Value>, d: map<string, Value>, done: set<string>, key: string)
    requires SiblingsDone(rest, d, done) && key in d && key !in done
    ensures SiblingsOver(rest, d, done).Keys == rest.Keys
    ensures key + "s" in rest ==> SiblingsOver(rest, d, done)[key + "s"] == rest[key + "s"]
  {
    TargetOf(key);
  }

  lemma SiblingsOverStep(rest: map<string, Value>, d: map<string, Value>, done: set<string>, key: string)
    requires SiblingsDone(rest, d, done) && key in d
    requires key + "s" in rest ==> DefaultSibling(rest[key + "s"], d[key]).Some?
    ensures SiblingsDone(rest, d, done + {key})
    ensures key + "s" in rest ==>
      SiblingsOver(rest, d, done + {key}) == SiblingsOver(rest, d, done)[key + "s" := DefaultSibling(rest[key + "s"], d[key]).value]
    ensures key + "s" !in rest ==> SiblingsOver(rest, d, done + {key}) == SiblingsOver(rest, d, done)
  {
    TargetOf(key);
  }

  lemma SiblingsOverAll(rest: map<string, Value>, d: map<string, Value>)
    requires SiblingsDone(rest, d, d.Keys)
    ensures SiblingsOver(rest, d, d.Keys) == DefaultedSiblings(rest, d)
  {
  }

  lemma DefaultConfigFails(source: map<string, Value>, tk: string)
    requires DEFAULT_KEY in source && source[DEFAULT_KEY].Dict?
    requires tk in source - {DEFAULT_KEY} && IsTarget(tk, source[DEFAULT_KEY].entries)
    requires DefaultSibling(source[tk], source[DEFAULT_KEY].entries[tk[..|tk| - 1]]).None?
    ensures DefaultConfig(source).None?
  {
  }

  // ---------------------------------------------------------------------
  // merge_configs
  // ---------------------------------------------------------------------

  /** `{**a.get(key, {}), **b.get(key, {})}`: both sides must be mappings,
      the right one wins. */
  function MergeSection(a: map<string, Value>, b: map<string, Value>, key: string): (r: Option<map<string, Value>>)
    ensures r.None? <==> (key in a && !a[key].Dict?) || (key in b && !b[key].Dict?)
  {
    var x := if key in a then a[key] else Dict(map[]);
    var y := if key in b then b[key] else Dict(map[]);
    if x.Dict? && y.Dict? then Some(x.entries + y.entries) else None
  }

  /** The document after the `default` sections are merged, or None when
      that raises. */
  function MergedConfig(config: map<string, Value>, personal: map<string, Value>): (r: Option<map<string, Value>>)
    requires DEFAULT_KEY in config ==> config[DEFAULT_KEY].Dict?
    requires DEFAULT_KEY in personal ==> personal[DEFAULT_KEY].Dict?
    ensures r.Some? ==> r.value.Keys == config.Keys
    ensures r.Some? ==> forall k | k in config && k != DEFAULT_KEY :: r.value[k] == config[k]
  {
    var cd := if DEFAULT_KEY in config then config[DEFAULT_KEY].entries else map[];
    var pd := if DEFAULT_KEY in personal then personal[DEFAULT_KEY].entries else map[];
    if cd.Keys + pd.Keys == {} then Some(config)
    else if DEFAULT_KEY !in config then None
    else if forall k | k in cd.Keys + pd.Keys :: MergeSection(cd, pd, k).Some? then
      Some(config[DEFAULT_KEY := Dict(MergedSections(cd, pd))])
    else None
  }

  /** Every section of either side, merged. */
  function MergedSections(cd: map<string, Value>, pd: map<string, Value>): (r: map<string, Value>)
    requires forall k | k in cd.Keys + pd.Keys :: MergeSection(cd, pd, k).Some?
    ensures r.Keys == cd.Keys + pd.Keys
    ensures forall k | k in r :: r[k] == Dict(MergeSection(cd, pd, k).value)
  {
    map k | k in cd.Keys + pd.Keys :: Dict(MergeSection(cd, pd, k).value)
  }

  /** The merged `default` sections when the merge succeeds. */
  lemma MergedDefaultSection(config: map<string, Value>, personal: map<string, Value>, section: string)
    requires DEFAULT_KEY in config && config[DEFAULT_KEY].Dict?
    requires DEFAULT_KEY in personal ==> personal[DEFAULT_KEY].Dict?
    requires MergedConfig(config, personal).Some?
    requires var pd := if DEFAULT_KEY in personal then personal[DEFAULT_KEY].entries else map[];
             section in config[DEFAULT_KEY].entries || section in pd
    ensures var cd := config[DEFAULT_KEY].entries;
            var pd := if DEFAULT_KEY in personal then personal[DEFAULT_KEY].entries else map[];
            var out := MergedConfig(config, personal).value[DEFAULT_KEY];
            MergeSection(cd, pd, section).Some? &&
            out.Dict? && section in out.entries &&
            out.entries[section] == Dict(MergeSection(cd, pd, section).value)
  {
  }

  /** Personal values override global ones inside each default section, and
      global values the personal side does not set survive. */
  lemma MergedDefaultsOverride(cd: map<string, Value>, pd: map<string, Value>, section: string, f: string)
    requires MergeSection(cd, pd, section).Some?
    ensures var out := MergeSection(cd, pd, section).value;
            (section in pd && f in pd[section].entries ==> f in out && out[f] == pd[section].entries[f]) &&
            ((section in cd && f in cd[section].entries && !(section in pd && f in pd[section].entries))
               ==> f in out && out[f] == cd[section].entries[f]) &&
            (f in out ==> (section in cd && f in cd[section].entries) || (section in pd && f in pd[section].entries))
  {
  }

  /** The `default` step of `merge_configs`: a personal default section
      with no global one to write into raises KeyError, unless the first
      section tried already fails to merge. */
  method MergeDefaults(config: map<string, Value>, personal: map<string, Value>) returns (r: Try<map<string, Value>>)
    requires DEFAULT_KEY in config ==> config[DEFAULT_KEY].Dict?
    requires DEFAULT_KEY in personal ==> personal[DEFAULT_KEY].Dict?
    ensures r.Ok? <==> MergedConfig(config, personal).Some?
    ensures r.Ok? ==> r.value == MergedConfig(config, personal).value
    ensures r.Raise? ==> r.error.TypeError? || r.error == KeyError(DEFAULT_KEY)
  {
    var cd := if DEFAULT_KEY in config then config[DEFAULT_KEY].entries else map[];
    var pd := if DEFAULT_KEY in personal then personal[DEFAULT_KEY].entries else map[];
    if cd.Keys + pd.Keys == {} {
      return Ok(config);
    }
    if DEFAULT_KEY !in config {
      var key :| key in cd.Keys + pd.Keys;
      if MergeSection(cd, pd, key).None? {
        return Raise(TypeError("'NoneType' object is not a mapping"));
      }
      return Raise(KeyError(DEFAULT_KEY));
    }
    var sections := MergeSections(cd, pd);
    if sections.Raise? {
      return Raise(sections.error);
    }
    return Ok(config[DEFAULT_KEY := Dict(sections.value)]);
  }

  /** The loop over the union of default keys in `merge_configs`, writing
      each merged section into the global default section; which of several
      failing keys is reported is left open. */
  method MergeSections(cd: map<string, Value>, pd: map<string, Value>) returns (r: Try<map<string, Value>>)
    ensures r.Ok? <==> forall k | k in cd.Keys + pd.Keys :: MergeSection(cd, pd, k).Some?
    ensures r.Ok? ==> r.value == MergedSections(cd, pd)
    ensures r.Raise? ==> r.error.TypeError?
  {
    var keys := cd.Keys + pd.Keys;
    var newDefault := cd;
    var done: set<string> := {};
    assert SectionsOver(cd, pd, done) == cd;
    while keys - done != {}
      invariant done <= keys
      invariant forall k | k in done :: MergeSection(cd, pd, k).Some?
      invariant newDefault == SectionsOver(cd, pd, done)
      decreases keys - done
    {
      var key :| key in keys - done;
      var section := MergeSection(cd, pd, key);
      if section.None? {
        return Raise(TypeError("'NoneType' object is not a mapping"));
      }
      SectionsOverStep(cd, pd, done, key);
      newDefault := newDefault[key := Dict(section.value)];
      done := done + {key};
    }
    assert done == keys;
    SectionsOverAll(cd, pd);
    return Ok(newDefault);
  }

  /** The global default section once the sections in `done` are merged. */
  function SectionsOver(cd: map<string, Value>, pd: map<string, Value>, done: set<string>): (r: map<string, Value>)
    requires forall k | k in done :: MergeSection(cd, pd, k).Some?
  {
    cd + map k | k in done :: Dict(MergeSection(cd, pd, k).value)
  }

  lemma SectionsOverStep(cd: map<string, Value>, pd: map<string, Value>, done: set<string>, key: string)
    requires forall k | k in done :: MergeSection(cd, pd, k).Some?
    requires MergeSection(cd, pd, key).Some?
    ensures forall k | k in done + {key} :: MergeSection(cd, pd, k).Some?
    ensures SectionsOver(cd, pd, done + {key}) == SectionsOver(cd, pd, done)[key := Dict(MergeSection(cd, pd, key).value)]
  {
  }

  lemma SectionsOverAll(cd: map<string, Value>, pd: map<string, Value>)
    requires forall k | k in cd.Keys + pd.Keys :: MergeSection(cd, pd, k).Some?
    ensures SectionsOver(cd, pd, cd.Keys + pd.Keys) == MergedSections(cd, pd)
  {
    var v := MergedSections(cd, pd);
    var w := SectionsOver(cd, pd, cd.Keys + pd.Keys);
    assert w.Keys == v.Keys;
    forall k | k in v ensures w[k] == v[k] { }
  }

  /** Whether both sides have a truthy controllers entry. */
  predicate BothHaveControllers(config: map<string, Value>, personal: map<string, Value>)
  {
    "controllers" in config && Truthy(config["controllers"]) &&
    "controllers" in personal && Truthy(personal["controllers"])
  }

  /** The TypeError of walking a truthy non-list `v` as a list of
      mappings: a string or a mapping yields strings, which cannot be
      indexed by `"uuid"`; anything else cannot be iterated. */
  function NotAList(v: Value): Error
  {
    if v.Str? || v.Dict? then TypeError("string indices must be integers")
    else TypeError("object is not iterable")
  }

  /** The controllers of both sides merged by `uuid`, global ones first.
      The global list is walked to its end before the personal value is
      looked at, so an error among the global controllers comes first. */
  function MergedControllers(config: map<string, Value>, personal: map<string, Value>): Try<Value>
    requires BothHaveControllers(config, personal)
  {
    var global, own := config["controllers"], personal["controllers"];
    if !global.List? then Raise(NotAList(global))
    else if Utils.MergeGroups("uuid", Utils.Flatten([global.items])).Raise? then
      Raise(Utils.MergeGroups("uuid", Utils.Flatten([global.items])).error)
    else if !own.List? then Raise(NotAList(own))
    else
      var groups := Utils.MergeGroups("uuid", Utils.Flatten([global.items, own.items]));
      if groups.Ok? then Ok(List(Utils.AsDicts(groups.value))) else Raise(groups.error)
  }

  /** A global controller without a `uuid` is reported before a personal
      controllers value that is not a list. */
  lemma GlobalControllersFirst()
    ensures var config := map["controllers" := List([Dict(map["name" := Str("a")])])];
            var personal := map["controllers" := Str("x")];
            BothHaveControllers(config, personal) &&
            MergedControllers(config, personal) == Raise(KeyError("uuid"))
  {
    var config := map["controllers" := List([Dict(map["name" := Str("a")])])];
    var elems := Utils.Flatten([config["controllers"].items]);
    assert elems == [Dict(map["name" := Str("a")])] by {
      assert Utils.Flatten([config["controllers"].items]) == config["controllers"].items + Utils.Flatten([]);
    }
    assert Utils.MergeGroups("uuid", elems) == Raise(KeyError("uuid")) by {
      assert elems[..0] == [];
    }
  }

  /** `doc.get(DEFAULT_KEY, {})`. */
  function DefaultOf(doc: map<string, Value>): Value
  {
    if DEFAULT_KEY in doc then doc[DEFAULT_KEY] else Dict(map[])
  }

  /** What `set().union(v)` collects from one side: a mapping gives its
      keys, a string its characters and a list its elements, which must be
      hashable; any other value is not iterable. (`True` and `1`, equal in
      Python, are kept apart here: only whether the union is empty
      matters to the code.) */
  function UnionPart(v: Value): (r: Try<set<Value>>)
    ensures r.Raise? ==> r.error.TypeError?
    ensures v.Dict? ==> r == Ok(set k | k in v.entries :: Str(k))
  {
    match v
    case Dict(m) => Ok(set k | k in m :: Str(k))
    case Str(s) => Ok(set i | 0 <= i < |s| :: Str([s[i]]))
    case List(xs) =>
      if forall i | 0 <= i < |xs| :: !xs[i].List? && !xs[i].Dict? then Ok(set i | 0 <= i < |xs| :: xs[i])
      else Raise(TypeError("unhashable type"))
    case _ => Raise(TypeError("object is not iterable"))
  }

  /** An empty string or list contributes no key, like an empty mapping. */
  lemma UnionPartEmpty(v: Value)
    requires v == Str("") || v == List([]) || v == Dict(map[])
    ensures UnionPart(v) == Ok({})
  {
    if v.Dict? {
      assert (set k | k in v.entries :: Str(k)) == {};
    } else {
      forall x ensures x !in UnionPart(v).value {
        if x in UnionPart(v).value {
          assert false;
        }
      }
      assert UnionPart(v).Ok?;
      assert UnionPart(v).value == {};
    }
  }

  /** A mapping with some key contributes some key. */
  lemma UnionPartKeys(v: Value)
    requires v.Dict?
    ensures v.entries != map[] ==> UnionPart(v).value != {}
  {
    if v.entries != map[] {
      var k :| k in v.entries;
      assert Str(k) in UnionPart(v).value;
    }
  }

  /** A non-empty string or a non-empty list of hashable values contributes
      at least one key. */
  lemma UnionPartNonEmpty(v: Value)
    requires (v.Str? && v.s != "") || (v.List? && |v.items| > 0 && UnionPart(v).Ok?)
    ensures UnionPart(v).Ok? && UnionPart(v).value != {}
  {
    if v.Str? {
      assert Str([v.s[0]]) in UnionPart(v).value;
    } else {
      assert v.items[0] in UnionPart(v).value;
    }
  }

  /** `merge_configs(config, personal_config)`: merge every section of
      `default` key by key with personal values overriding, then merge the
      controllers by `uuid` when both sides have some; otherwise the global
      controllers stay. Collecting the default keys raises TypeError for a
      side that is not iterable; a side that is not a mapping but
      contributes keys has no `get`, which raises AttributeError unless
      the global section value tried first is not a mapping; an empty
      string or list contributes nothing. A section value that is not a
      mapping raises TypeError; personal defaults without a global
      `default` key raise KeyError. */
  method MergeConfigs(config: map<string, Value>, personal: map<string, Value>) returns (r: Try<map<string, Value>>)
    ensures UnionPart(DefaultOf(config)).Raise? ==> r == Raise(UnionPart(DefaultOf(config)).error)
    ensures UnionPart(DefaultOf(config)).Ok? && UnionPart(DefaultOf(personal)).Raise? ==>
      r == Raise(UnionPart(DefaultOf(personal)).error)
    ensures (UnionPart(DefaultOf(config)).Ok? && UnionPart(DefaultOf(personal)).Ok? &&
             UnionPart(DefaultOf(config)).value + UnionPart(DefaultOf(personal)).value == {}) ==>
      r == ControllersStep(config, personal)
    ensures (UnionPart(DefaultOf(config)).Ok? && UnionPart(DefaultOf(personal)).Ok? &&
             UnionPart(DefaultOf(config)).value + UnionPart(DefaultOf(personal)).value != {}) ==>
      (!DefaultOf(config).Dict? ==> r == Raise(AttributeError("get"))) &&
      (DefaultOf(config).Dict? && !DefaultOf(personal).Dict? ==>
        r.Raise? && (r.error == AttributeError("get") || r.error.TypeError?))
    ensures DefaultOf(config).Dict? && DefaultOf(personal).Dict? ==>
      (MergedConfig(config, personal).None? ==> r.Raise? && (r.error.TypeError? || r.error == KeyError(DEFAULT_KEY))) &&
      (MergedConfig(config, personal).Some? ==> r == MergeConfigsSpec(config, personal))
  {
    var cd, pd := DefaultOf(config), DefaultOf(personal);
    var ck := UnionPart(cd);
    if ck.Raise? {
      return Raise(ck.error);
    }
    var pk := UnionPart(pd);
    if pk.Raise? {
      return Raise(pk.error);
    }
    var out := config;
    if cd.Dict? && pd.Dict? {
      UnionPartKeys(cd);
      UnionPartKeys(pd);
      var merged := MergeDefaults(config, personal);
      if merged.Raise? {
        return Raise(merged.error);
      }
      out := merged.value;
    } else if ck.value + pk.value != {} {
      if !cd.Dict? {
        return Raise(AttributeError("get"));
      }
      // the first key tried: the global section is unpacked before the
      // personal side's `get` is looked up
      var key :| key in ck.value + pk.value;
      if key.Str? && key.s in cd.entries && !cd.entries[key.s].Dict? {
        return Raise(TypeError("'" + key.s + "' is not a mapping"));
      }
      return Raise(AttributeError("get"));
    }
    if BothHaveControllers(out, personal) {
      if !out["controllers"].List? {
        return Raise(NotAList(out["controllers"]));
      }
      var global := Utils.MergeListOfDictByKey("uuid", [out["controllers"].items]);
      if global.Raise? {
        return Raise(global.error);
      }
      if !personal["controllers"].List? {
        return Raise(NotAList(personal["controllers"]));
      }
      var controllers := Utils.MergeListOfDictByKey("uuid", [out["controllers"].items, personal["controllers"].items]);
      if controllers.Raise? {
        return Raise(controllers.error);
      }
      out := out["controllers" := List(controllers.value)];
    }
    return Ok(out);
  }

  /** The controllers step of `merge_configs` on the document `doc`: the
      controllers of both sides merged by `uuid` when both have some,
      otherwise `doc` as it is. */
  function ControllersStep(doc: map<string, Value>, personal: map<string, Value>): (r: Try<map<string, Value>>)
  {
    if BothHaveControllers(doc, personal) then
      match MergedControllers(doc, personal)
      case Raise(e) => Raise(e)
      case Ok(c) => Ok(doc["controllers" := c])
    else Ok(doc)
  }

  /** What `merge_configs` returns once the default sections merged. */
  function MergeConfigsSpec(config: map<string, Value>, personal: map<string, Value>): (r: Try<map<string, Value>>)
    requires DEFAULT_KEY in config ==> config[DEFAULT_KEY].Dict?
    requires DEFAULT_KEY in personal ==> personal[DEFAULT_KEY].Dict?
    requires MergedConfig(config, personal).Some?
  {
    ControllersStep(MergedConfig(config, personal).value, personal)
  }

  /** Controllers are merged by `uuid` only when both sides have some;
      otherwise the global list is kept as it is. */
  lemma MergeConfigsControllers(config: map<string, Value>, personal: map<string, Value>)
    requires DEFAULT_KEY in config ==> config[DEFAULT_KEY].Dict?
    requires DEFAULT_KEY in personal ==> personal[DEFAULT_KEY].Dict?
    requires MergedConfig(config, personal).Some?
    requires "controllers" in config
    ensures !BothHaveControllers(config, personal) ==>
      MergeConfigsSpec(config, personal).Ok? && MergeConfigsSpec(config, personal).value["controllers"] == config["controllers"]
    ensures BothHaveControllers(config, personal) && MergedControllers(config, personal).Ok? ==>
      MergeConfigsSpec(config, personal).Ok? &&
      MergeConfigsSpec(config, personal).value["controllers"] == MergedControllers(config, personal).value
  {
  }
  // ---------------------------------------------------------------------
  // convert_config
  // ---------------------------------------------------------------------

  /** `x[0]` on a value. */
  function First(v: Value): (r: Try<Value>)
    ensures v.List? && |v.items| > 0 ==> r == Ok(v.items[0])
    ensures v.List? && |v.items| == 0 ==> r.Raise? && r.error.IndexError?
  {
    match v
    case List(xs) => if |xs| > 0 then Ok(xs[0]) else Raise(IndexError("list index out of range"))
    case Str(s) => if |s| > 0 then Ok(Str([s[0]])) else Raise(IndexError("string index out of range"))
    case Dict(_) => Raise(KeyError("0"))
    case _ => Raise(TypeError("object is not subscriptable"))
  }

  /** `d[a][b]`. */
  function Index2(d: Value, a: string, b: string): Try<Value>
  {
    match Index(d, a)
    case Raise(e) => Raise(e)
    case Ok(x) => Index(x, b)
  }

  /** `convert_config(original_config)` on the mapping in its order: the
      first controller becomes a JujuSpell controller entry; an empty
      mapping gives None. */
  function ConvertConfig(original: seq<(string, Value)>): Try<Option<map<string, Value>>>
  {
    if |original| == 0 then Ok(None)
    else
      var (name, controller) := original[0];
      match Index2(controller, "details", "uuid")
      case Raise(e) => Raise(e)
      case Ok(uuid) =>
        match Index2(controller, "details", "api-endpoints")
        case Raise(e) => Raise(e)
        case Ok(endpoints) =>
          match First(endpoints)
          case Raise(e) => Raise(e)
          case Ok(endpoint) =>
            match Index2(controller, "details", "ca-cert")
            case Raise(e) => Raise(e)
            case Ok(caCert) =>
              match Index2(controller, "account", "user")
              case Raise(e) => Raise(e)
              case Ok(user) =>
                match Index2(controller, "account", "password")
                case Raise(e) => Raise(e)
                case Ok(password) =>
                  Ok(Some(map["uuid" := uuid, "name" := Str(name), "endpoint" := endpoint,
                              "ca_cert" := caCert, "user" := user, "password" := password]))
  }

  /** A well-formed `show-controller` entry converts field by field, taking
      the first API endpoint; later controllers are ignored. */
  lemma ConvertConfigFields(name: string, details: map<string, Value>, account: map<string, Value>,
                            rest: seq<(string, Value)>)
    requires "uuid" in details && "ca-cert" in details && "api-endpoints" in details
    requires details["api-endpoints"].List? && |details["api-endpoints"].items| > 0
    requires "user" in account && "password" in account
    ensures var c := Dict(map["details" := Dict(details), "account" := Dict(account)]);
            ConvertConfig([(name, c)] + rest) == Ok(Some(map[
              "uuid" := details["uuid"], "name" := Str(name),
              "endpoint" := details["api-endpoints"].items[0],
              "ca_cert" := details["ca-cert"],
              "user" := account["user"], "password" := account["password"]]))
  {
  }

  /** Missing sections or fields raise KeyError; no endpoints raise IndexError. */
  lemma ConvertConfigErrors(name: string, details: map<string, Value>, rest: seq<(string, Value)>)
    requires "uuid" in details && "api-endpoints" in details && details["api-endpoints"] == List([])
    ensures ConvertConfig([(name, Dict(map[]))] + rest) == Raise(KeyError("details"))
    ensures ConvertConfig([(name, Dict(map["details" := Dict(details)]))] + rest).Raise?
    ensures ConvertConfig([(name, Dict(map["details" := Dict(details)]))] + rest).error.IndexError?
    ensures ConvertConfig([]) == Ok(None)
  {
  }
}
