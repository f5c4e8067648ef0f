/** The helpers of `juju_spell/utils.py`: the file cache of command output
    with its TTL rule, `strtobool`, `humanize_list` and
    `merge_list_of_dict_by_key`. */
module Utils {
  import opened Common
  import opened Strings

  /** Seconds a cached command output stays fresh. */
  const DEFAULT_TTL_RULE: int := 3600

  // ---------------------------------------------------------------------
  // File cache
  // ---------------------------------------------------------------------

  /** The dataclass part of a cache: what is written to and read from disk.
      Timestamps are whole seconds. */
  datatype CacheContext = CacheContext(uuid: string, name: string, data: map<string, Value>, timestamp: int)

  /** The attributes `put`/`get` address. */
  datatype Field = UuidField | NameField | DataField | TimestampField

  /** One attribute together with a value for it. */
  datatype Entry =
    | UuidEntry(uuid: string)
    | NameEntry(name: string)
    | DataEntry(data: map<string, Value>)
    | TimestampEntry(timestamp: int)
  {
    function FieldOf(): Field
    {
      match this
      case UuidEntry(_) => UuidField
      case NameEntry(_) => NameField
      case DataEntry(_) => DataField
      case TimestampEntry(_) => TimestampField
    }
  }

  /** How reaching a cache file can go wrong besides the file being absent:
      opening it is refused, opening it fails otherwise, or it opens and
      then reading or writing it fails. */
  datatype IoFault = NoFault | PermissionDenied | OtherFault(msg: string) | StreamFault(msg: string)

  /** What a cache file holds: a context written in full, or what is left
      when the file was opened for writing, which empties it, and the write
      then failed. */
  datatype StoredFile = Written(context: CacheContext) | Truncated

  /** The cache directory: file name to what the file holds. */
  class CacheDirectory {
    var files: map<string, StoredFile>

    constructor ()
      ensures files == map[]
    {
      files := map[];
    }
  }

  /** The `FileCache` class object: `connect` writes the class attribute
      `cache_name`, which every instance without its own value reads. */
  class FileCacheClass {
    var cacheName: string

    constructor ()
      ensures cacheName == ""
    {
      cacheName := "";
    }
  }

  class FileCache {
    const cls: FileCacheClass
    var uuid: string
    var name: string
    var data: map<string, Value>
    var timestamp: int
    /** The instance attribute `cache_name`, once `commit` has set it. */
    var ownCacheName: Option<string>

    constructor (cls: FileCacheClass, ctx: CacheContext)
      ensures this.cls == cls && Context() == ctx && ownCacheName == None
    {
      this.cls := cls;
      uuid, name, data, timestamp := ctx.uuid, ctx.name, ctx.data, ctx.timestamp;
      ownCacheName := None;
    }

    /** `self.cache_name`: the instance value, else the class value. */
    function CacheName(): string
      reads this, cls
    {
      if ownCacheName.Some? then ownCacheName.value else cls.cacheName
    }

    /** `context`: the dataclass fields as a record. */
    function Context(): CacheContext
      reads this
    {
      CacheContext(uuid, name, data, timestamp)
    }

    /** `expired` at wall-clock second `now`. */
    predicate Expired(now: int)
      reads this
    {
      timestamp + DEFAULT_TTL_RULE < now
    }

    /** `get(key)`. */
    function Get(f: Field): (e: Entry)
      reads this
      ensures e.FieldOf() == f
    {
      match f
      case UuidField => UuidEntry(uuid)
      case NameField => NameEntry(name)
      case DataField => DataEntry(data)
      case TimestampField => TimestampEntry(timestamp)
    }

    /** `put(key, value)`: `get(key)` then returns the value and every other
        attribute keeps its value. */
    method Put(e: Entry)
      modifies this
      ensures Context() == WithEntry(old(Context()), e)
      ensures Get(e.FieldOf()) == e
      ensures forall f :: f != e.FieldOf() ==> Get(f) == old(Get(f))
      ensures ownCacheName == old(ownCacheName)
    {
      match e
      case UuidEntry(u) => uuid := u;
      case NameEntry(n) => name := n;
      case DataEntry(d) => data := d;
      case TimestampEntry(t) => timestamp := t;
    }

    /** `update(**kwargs)`: `put` for each pair in order. */
    method Update(entries: seq<Entry>)
      modifies this
      ensures Context() == Applied(old(Context()), entries)
      ensures ownCacheName == old(ownCacheName)
    {
      var i := 0;
      while i < |entries|
        invariant 0 <= i <= |entries|
        invariant Context() == Applied(old(Context()), entries[..i])
        invariant ownCacheName == old(ownCacheName)
      {
        Put(entries[i]);
        assert entries[..i + 1][..i] == entries[..i];
        i := i + 1;
      }
      assert entries[..i] == entries;
    }

    /** `commit(name)`: write the context under the cache name, after a
        non-empty `name` has replaced it. */
    method Commit(name: string, dir: CacheDirectory, fault: IoFault) returns (r: Try<()>)
      modifies this, dir
      ensures Context() == old(Context())
      ensures old(CacheName()) == "" && name == "" ==>
        r.Raise? && r.error.JujuSpellError? && ownCacheName == old(ownCacheName) && dir.files == old(dir.files)
      ensures !(old(CacheName()) == "" && name == "") ==> (
                CacheName() == (if name != "" then name else old(CacheName())) &&
                (r.Ok? <==> fault == NoFault) &&
                (r.Raise? ==> r.error.JujuSpellError?) &&
                dir.files == Committed(old(dir.files), CacheName(), Context(), fault))
    {
      if CacheName() == "" && name == "" {
        return Raise(JujuSpellError("failed to write commit file cache: missing 'name' for file cache."));
      }
      if name != "" {
        ownCacheName := Some(name);
      }
      var fname := CacheName();
      match fault
      case NoFault =>
        dir.files := dir.files[fname := Written(Context())];
        r := Ok(());
      case PermissionDenied =>
        r := Raise(JujuSpellError("permission denied to write to file `" + fname + "`."));
      case OtherFault(msg) =>
        r := Raise(JujuSpellError(msg + "."));
      case StreamFault(msg) =>
        // the file was opened, and so emptied, before the write failed
        dir.files := dir.files[fname := Truncated];
        r := Raise(JujuSpellError(msg + "."));
    }
  }

  /** The directory after writing `ctx` to `fname`: written in full, left
      alone when the file cannot be opened, emptied when the write fails
      after opening it. */
  function Committed(files: map<string, StoredFile>, fname: string, ctx: CacheContext, fault: IoFault)
    : (r: map<string, StoredFile>)
    ensures r.Keys == files.Keys || r.Keys == files.Keys + {fname}
    ensures forall n | n in files && n != fname :: n in r && r[n] == files[n]
  {
    match fault
    case NoFault => files[fname := Written(ctx)]
    case StreamFault(_) => files[fname := Truncated]
    case _ => files
  }

  /** What reading an emptied cache file raises: YAML reads nothing, and
      nothing cannot be unpacked into a cache. */
  const TRUNCATED_ERROR: Error :=
    JujuSpellError("FileCache() argument after ** must be a mapping, not NoneType.")

  /** What `connect(backend)` reads from the directory. */
  function Load(files: map<string, StoredFile>, backend: string, fault: IoFault): (r: Try<CacheContext>)
    ensures r.Raise? ==> r.error.JujuSpellError?
    ensures r.Ok? <==> backend in files && files[backend].Written? && fault == NoFault
  {
    if backend !in files then Raise(JujuSpellError("`" + backend + "` does not exists."))
    else match fault
      case PermissionDenied => Raise(JujuSpellError("permission denied to read from file `" + backend + "`."))
      case OtherFault(msg) => Raise(JujuSpellError(msg + "."))
      case StreamFault(msg) => Raise(JujuSpellError(msg + "."))
      case NoFault =>
        match files[backend]
        case Written(ctx) => Ok(ctx)
        case Truncated => Raise(TRUNCATED_ERROR)
  }

  /** Reading back what was committed: a write that succeeded gives the
      context back; a write that failed after opening the file leaves one
      that fails to load; a write that could not open the file leaves what
      was there before; other files read as they did. */
  lemma CommitThenLoad(files: map<string, StoredFile>, fname: string, ctx: CacheContext, fault: IoFault,
                       other: string, readFault: IoFault)
    ensures Load(Committed(files, fname, ctx, NoFault), fname, NoFault) == Ok(ctx)
    ensures fault.StreamFault? ==> Load(Committed(files, fname, ctx, fault), fname, readFault).Raise?
    ensures fault.PermissionDenied? || fault.OtherFault? ==>
      Load(Committed(files, fname, ctx, fault), fname, readFault) == Load(files, fname, readFault)
    ensures other != fname ==>
      Load(Committed(files, fname, ctx, fault), other, readFault) == Load(files, other, readFault)
  {
  }

  /** The context with one attribute replaced. */
  function WithEntry(ctx: CacheContext, e: Entry): CacheContext
  {
    match e
    case UuidEntry(u) => ctx.(uuid := u)
    case NameEntry(n) => ctx.(name := n)
    case DataEntry(d) => ctx.(data := d)
    case TimestampEntry(t) => ctx.(timestamp := t)
  }

  /** The context after `put` of each entry in order. */
  function Applied(ctx: CacheContext, entries: seq<Entry>): CacheContext
    decreases |entries|
  {
    if |entries| == 0 then ctx
    else WithEntry(Applied(ctx, entries[..|entries| - 1]), entries[|entries| - 1])
  }

  /** `FileCache.connect(backend)`: sets the class-level cache name, then
      loads the named file into a new instance. */
  method Connect(cls: FileCacheClass, backend: string, dir: CacheDirectory, fault: IoFault)
    returns (r: Try<FileCache>)
    modifies cls
    ensures cls.cacheName == backend
    ensures r.Ok? <==> Load(dir.files, backend, fault).Ok?
    ensures r.Raise? ==> r.error == Load(dir.files, backend, fault).error
    ensures r.Ok? ==>
              fresh(r.value) && r.value.cls == cls && r.value.Context() == Load(dir.files, backend, fault).value &&
              r.value.CacheName() == backend
  {
    cls.cacheName := backend;
    if backend !in dir.files {
      return Raise(JujuSpellError("`" + backend + "` does not exists."));
    }
    match fault
    case NoFault =>
      match dir.files[backend] {
        case Written(ctx) =>
          var c := new FileCache(cls, ctx);
          r := Ok(c);
        case Truncated =>
          r := Raise(TRUNCATED_ERROR);
      }
    case PermissionDenied =>
      r := Raise(JujuSpellError("permission denied to read from file `" + backend + "`."));
    case OtherFault(msg) =>
      r := Raise(JujuSpellError(msg + "."));
    case StreamFault(msg) =>
      r := Raise(JujuSpellError(msg + "."));
  }

  // ---------------------------------------------------------------------
  // strtobool
  // ---------------------------------------------------------------------

  const TRUE_WORDS: set<string> := {"y", "yes", "t", "true", "on", "1"}
  const FALSE_WORDS: set<string> := {"n", "no", "f", "false", "off", "0"}

  /** `strtobool(value)`: a recognised word, compared after lowering. */
  function StrToBool(value: string): (r: Try<bool>)
    ensures r.Ok? <==> Lower(value) in TRUE_WORDS + FALSE_WORDS
    ensures r.Ok? ==> (r.value <==> Lower(value) in TRUE_WORDS)
    ensures r.Raise? ==> r.error.ValueError?
  {
    var parsed := Lower(value);
    if parsed in TRUE_WORDS then Ok(true)
    else if parsed in FALSE_WORDS then Ok(false)
    else Raise(ValueError("Invalid boolean value of '" + value + "'"))
  }

  lemma {:induction false} LowerIdempotent(s: string)
    ensures Lower(Lower(s)) == Lower(s)
  {
    var l := Lower(s);
    forall i | 0 <= i < |s| ensures Lower(l)[i] == l[i] {
    }
  }

  /** The answer does not depend on letter case. */
  lemma StrToBoolCaseInsensitive(a: string, b: string)
    requires Lower(a) == Lower(b)
    ensures StrToBool(a).Ok? == StrToBool(b).Ok?
    ensures StrToBool(a).Ok? ==> StrToBool(a).value == StrToBool(b).value
  {
  }

  /** No word is both true and false, and every upper-case spelling of a
      recognised word is recognised the same way. */
  lemma StrToBoolUpper()
    ensures StrToBool("YES") == Ok(true) && StrToBool("Off") == Ok(false)
    ensures TRUE_WORDS * FALSE_WORDS == {}
  {
    assert Lower("YES") == "yes";
    assert Lower("Off") == "off";
  }

  // ---------------------------------------------------------------------
  // humanize_list
  // ---------------------------------------------------------------------

  predicate SortedStrings(s: seq<string>)
  {
    forall i, j :: 0 <= i < j < |s| ==> LexLe(s[i], s[j])
  }

  function InsertSorted(x: string, s: seq<string>): (r: seq<string>)
    requires SortedStrings(s)
    ensures SortedStrings(r) && multiset(r) == multiset(s) + multiset{x}
    decreases |s|
  {
    if |s| == 0 then [x]
    else if LexLe(x, s[0]) then
      LexLeAllAfter(x, s);
      [x] + s
    else
      LexLeTotal(x, s[0]);
      var rest := InsertSorted(x, s[1..]);
      assert s == [s[0]] + s[1..];
      HeadLeAll(s[0], rest, s[1..], x);
      [s[0]] + rest
  }

  lemma LexLeAllAfter(x: string, s: seq<string>)
    requires SortedStrings(s) && |s| > 0 && LexLe(x, s[0])
    ensures SortedStrings([x] + s)
  {
    forall j | 0 < j < |s| + 1 ensures LexLe(([x] + s)[0], ([x] + s)[j]) {
      if j > 1 { LexLeTrans(x, s[0], s[j - 1]); }
    }
  }

  lemma HeadLeAll(h: string, rest: seq<string>, tail: seq<string>, x: string)
    requires SortedStrings([h] + tail) && LexLe(h, x) && SortedStrings(rest)
    requires multiset(rest) == multiset(tail) + multiset{x}
    ensures SortedStrings([h] + rest)
  {
    forall j | 0 <= j < |rest| ensures LexLe(h, rest[j]) {
      assert rest[j] in multiset(rest);
      if rest[j] != x {
        assert rest[j] in multiset(tail);
        var k :| 0 <= k < |tail| && tail[k] == rest[j];
        assert ([h] + tail)[k + 1] == tail[k];
        assert LexLe(([h] + tail)[0], ([h] + tail)[k + 1]);
      }
    }
    forall i, j | 0 <= i < j < |[h] + rest| ensures LexLe(([h] + rest)[i], ([h] + rest)[j]) {
      if i > 0 { assert ([h] + rest)[i] == rest[i - 1]; }
    }
  }

  /** `sorted(items)` on strings. */
  function SortStrings(s: seq<string>): (r: seq<string>)
    ensures SortedStrings(r) && multiset(r) == multiset(s)
    decreases |s|
  {
    if |s| == 0 then []
    else
      var r := InsertSorted(s[0], SortStrings(s[1..]));
      assert s == [s[0]] + s[1..];
      r
  }

  lemma LexLeAntisym(a: string, b: string)
    requires LexLe(a, b) && LexLe(b, a)
    ensures a == b
    decreases |a|
  {
    if |a| > 0 && |b| > 0 {
      LexLeAntisym(a[1..], b[1..]);
      assert a == [a[0]] + a[1..] && b == [b[0]] + b[1..];
    }
  }

  lemma SortedHead(s: seq<string>, t: seq<string>)
    requires SortedStrings(s) && SortedStrings(t) && multiset(s) == multiset(t) && |s| > 0
    ensures |t| > 0 && s[0] == t[0]
  {
    assert s[0] in multiset(t);
    var j :| 0 <= j < |t| && t[j] == s[0];
    assert t[0] in multiset(s);
    var k :| 0 <= k < |s| && s[k] == t[0];
    assert LexLe(t[0], s[0]) by {
      if j > 0 { assert LexLe(t[0], t[j]); } else { LexLeRefl(s[0]); }
    }
    assert LexLe(s[0], t[0]) by {
      if k > 0 { assert LexLe(s[0], s[k]); } else { LexLeRefl(t[0]); }
    }
    LexLeAntisym(s[0], t[0]);
  }

  lemma MultisetCancel<T>(a: multiset<T>, b: multiset<T>, c: multiset<T>)
    requires a + c == b + c
    ensures a == b
  {
    forall y ensures a[y] == b[y] {
      assert (a + c)[y] == a[y] + c[y];
      assert (b + c)[y] == b[y] + c[y];
    }
  }

  lemma MultisetTail<T>(s: seq<T>, t: seq<T>)
    requires |s| > 0 && |t| > 0 && s[0] == t[0] && multiset(s) == multiset(t)
    ensures multiset(s[1..]) == multiset(t[1..])
  {
    assert s == [s[0]] + s[1..];
    assert t == [t[0]] + t[1..];
    assert multiset(s) == multiset(s[1..]) + multiset{s[0]};
    assert multiset(t) == multiset(t[1..]) + multiset{s[0]};
    MultisetCancel(multiset(s[1..]), multiset(t[1..]), multiset{s[0]});
  }

  /** Two sorted arrangements of the same strings are the same sequence. */
  lemma {:induction false} SortedUnique(s: seq<string>, t: seq<string>)
    requires SortedStrings(s) && SortedStrings(t) && multiset(s) == multiset(t)
    ensures s == t
    decreases |s|
  {
    if |s| == 0 {
      assert |t| == |multiset(t)|;
    } else {
      SortedHead(s, t);
      MultisetTail(s, t);
      SortedUnique(s[1..], t[1..]);
      assert s == [s[0]] + s[1..] && t == [t[0]] + t[1..];
    }
  }

  function Formatted(items: seq<string>, format: string -> string): (r: seq<string>)
    ensures |r| == |items|
    ensures forall i :: 0 <= i < |items| ==> r[i] == format(items[i])
  {
    seq(|items|, i requires 0 <= i < |items| => format(items[i]))
  }

  /** `humanize_list(items, conjunction, item_format, sort)`; `format` is
      `item_format.format`. */
  function HumanizeList(items: seq<string>, conjunction: string, format: string -> string, sort: bool): string
  {
    if |items| == 0 then ""
    else
      var quoted := if sort then SortStrings(Formatted(items, format)) else Formatted(items, format);
      var n := |quoted|;
      if n == 1 then quoted[0]
      else
        var humanized := Join(quoted[..n - 1], ", ") + (if n > 2 then "," else "");
        humanized + " " + conjunction + " " + quoted[n - 1]
  }

  /** The shapes of the output for zero, one, two and three items. */
  lemma HumanizeListShapes(a: string, b: string, c: string, conj: string, format: string -> string)
    ensures HumanizeList([], conj, format, true) == ""
    ensures HumanizeList([a], conj, format, true) == format(a)
    ensures HumanizeList([a, b], conj, format, false) == format(a) + " " + conj + " " + format(b)
    ensures HumanizeList([a, b, c], conj, format, false)
      == format(a) + ", " + format(b) + ", " + conj + " " + format(c)
  {
    var q := Formatted([a], format);
    assert SortStrings(q) == [format(a)];
    var q3 := Formatted([a, b, c], format);
    assert q3[..2] == [format(a), format(b)];
    assert Join(q3[..2][1..], ", ") == format(b);
  }

  /** With sorting on, the order the items come in does not matter. */
  lemma HumanizeListOrderFree(xs: seq<string>, ys: seq<string>, conj: string, format: string -> string)
    requires multiset(xs) == multiset(ys)
    ensures HumanizeList(xs, conj, format, true) == HumanizeList(ys, conj, format, true)
  {
    assert |xs| == |multiset(xs)| == |multiset(ys)| == |ys|;
    if |xs| > 0 {
      FormattedPermutation(xs, ys, format);
      SortedUnique(SortStrings(Formatted(xs, format)), SortStrings(Formatted(ys, format)));
    }
  }

  lemma FormattedConcat(a: seq<string>, b: seq<string>, format: string -> string)
    ensures Formatted(a + b, format) == Formatted(a, format) + Formatted(b, format)
  {
  }

  lemma MultisetRemove<T>(ys: seq<T>, j: nat)
    requires j < |ys|
    ensures multiset(ys) == multiset(ys[..j] + ys[j + 1..]) + multiset{ys[j]}
  {
    assert ys == ys[..j] + [ys[j]] + ys[j + 1..];
  }

  lemma FormattedRemove(ys: seq<string>, j: nat, format: string -> string)
    requires j < |ys|
    ensures multiset(Formatted(ys, format))
         == multiset(Formatted(ys[..j] + ys[j + 1..], format)) + multiset{format(ys[j])}
  {
    assert ys == ys[..j] + [ys[j]] + ys[j + 1..];
    FormattedConcat(ys[..j] + [ys[j]], ys[j + 1..], format);
    FormattedConcat(ys[..j], [ys[j]], format);
    FormattedConcat(ys[..j], ys[j + 1..], format);
  }

  lemma {:induction false} FormattedPermutation(xs: seq<string>, ys: seq<string>, format: string -> string)
    requires multiset(xs) == multiset(ys)
    ensures multiset(Formatted(xs, format)) == multiset(Formatted(ys, format))
    decreases |xs|
  {
    assert |xs| == |multiset(xs)| == |multiset(ys)| == |ys|;
    if |xs| > 0 {
      var x := xs[0];
      assert x in multiset(ys);
      var j :| 0 <= j < |ys| && ys[j] == x;
      var ys' := ys[..j] + ys[j + 1..];
      MultisetRemove(ys, j);
      assert xs == [x] + xs[1..];
      assert multiset(xs) == multiset(xs[1..]) + multiset{x};
      MultisetCancel(multiset(xs[1..]), multiset(ys'), multiset{x});
      FormattedPermutation(xs[1..], ys', format);
      FormattedRemove(xs, 0, format);
      FormattedRemove(ys, j, format);
      assert xs[..0] + xs[1..] == xs[1..];
    }
  }

  // ---------------------------------------------------------------------
  // merge_list_of_dict_by_key
  // ---------------------------------------------------------------------

  /** One dictionary of the result: the key value it is grouped under and
      the union of the dictionaries that carry it. */
  datatype Group = Group(key: Value, fields: map<string, Value>)

  /** `elem[key]` used as a dictionary key: only mappings can be indexed,
      the key must be there, and lists and dicts are unhashable. */
  function KeyOf(key: string, elem: Value): (r: Try<Value>)
    ensures r.Ok? <==> elem.Dict? && key in elem.entries && !elem.entries[key].List? && !elem.entries[key].Dict?
    ensures r.Ok? ==> r.value == elem.entries[key]
  {
    match elem
    case Dict(m) =>
      if key !in m then Raise(KeyError(key))
      else if m[key].List? || m[key].Dict? then Raise(TypeError("unhashable type"))
      else Ok(m[key])
    case _ => Raise(TypeError("list indices must be integers or slices, not str"))
  }

  function GroupKeys(g: seq<Group>): (r: seq<Value>)
    ensures |r| == |g|
    ensures forall i :: 0 <= i < |g| ==> r[i] == g[i].key
  {
    seq(|g|, i requires 0 <= i < |g| => g[i].key)
  }

  /** The fields collected so far under key value `kv` (empty when none). */
  function FieldsOf(g: seq<Group>, kv: Value): map<string, Value>
  {
    if |g| == 0 then map[]
    else if g[0].key == kv then g[0].fields
    else FieldsOf(g[1..], kv)
  }

  /** `new_dict[kv].update(fields)` on the defaultdict. */
  function Insert(g: seq<Group>, kv: Value, fields: map<string, Value>): seq<Group>
  {
    if |g| == 0 then [Group(kv, fields)]
    else if g[0].key == kv then [Group(kv, g[0].fields + fields)] + g[1..]
    else [g[0]] + Insert(g[1..], kv, fields)
  }

  /** The groups built from `elems` in order, or the first error. */
  function MergeGroups(key: string, elems: seq<Value>): Try<seq<Group>>
    decreases |elems|
  {
    if |elems| == 0 then Ok([])
    else
      match MergeGroups(key, elems[..|elems| - 1])
      case Raise(e) => Raise(e)
      case Ok(g) =>
        match KeyOf(key, elems[|elems| - 1])
        case Raise(e) => Raise(e)
        case Ok(kv) => Ok(Insert(g, kv, elems[|elems| - 1].entries))
  }

  /** The lists concatenated. */
  function Flatten(lists: seq<seq<Value>>): seq<Value>
    decreases |lists|
  {
    if |lists| == 0 then [] else lists[0] + Flatten(lists[1..])
  }

  lemma {:induction false} FlattenConcat(a: seq<seq<Value>>, b: seq<seq<Value>>)
    ensures Flatten(a + b) == Flatten(a) + Flatten(b)
    decreases |a|
  {
    if |a| == 0 {
      assert a + b == b;
    } else {
      assert (a + b)[1..] == a[1..] + b;
      FlattenConcat(a[1..], b);
    }
  }

  function AsDicts(g: seq<Group>): (r: seq<Value>)
    ensures |r| == |g|
    ensures forall i :: 0 <= i < |g| ==> r[i] == Dict(g[i].fields)
  {
    seq(|g|, i requires 0 <= i < |g| => Dict(g[i].fields))
  }

  /** `merge_list_of_dict_by_key(key, lists)`. */
  method MergeListOfDictByKey(key: string, lists: seq<seq<Value>>) returns (r: Try<seq<Value>>)
    ensures MergeGroups(key, Flatten(lists)).Raise? ==> r == Raise(MergeGroups(key, Flatten(lists)).error)
    ensures MergeGroups(key, Flatten(lists)).Ok? ==> r == Ok(AsDicts(MergeGroups(key, Flatten(lists)).value))
  {
    var groups: seq<Group> := [];
    var i := 0;
    while i < |lists|
      invariant 0 <= i <= |lists|
      invariant MergeGroups(key, Flatten(lists[..i])) == Ok(groups)
    {
      FlattenSnoc(lists, i);
      var next := MergeInto(key, groups, Flatten(lists[..i]), lists[i]);
      if next.Raise? {
        FlattenAt(lists, i);
        MergeGroupsExtend(key, Flatten(lists[..i + 1]), Flatten(lists[i + 1..]));
        return Raise(next.error);
      }
      groups := next.value;
      i := i + 1;
    }
    assert lists[..i] == lists;
    r := Ok(AsDicts(groups));
  }

  /** The inner loop: `new_dict[elem[key]].update(elem)` for each element
      of one list. */
  method MergeInto(key: string, groups: seq<Group>, ghost done: seq<Value>, list: seq<Value>)
    returns (r: Try<seq<Group>>)
    requires MergeGroups(key, done) == Ok(groups)
    ensures r == MergeGroups(key, done + list)
  {
    var acc := groups;
    ghost var seen := done;
    var j := 0;
    while j < |list|
      invariant 0 <= j <= |list|
      invariant seen == done + list[..j]
      invariant MergeGroups(key, seen) == Ok(acc)
    {
      var kv := KeyOf(key, list[j]);
      MergeGroupsSnoc(key, seen, list[j]);
      assert seen + [list[j]] == done + list[..j + 1];
      if kv.Raise? {
        MergeGroupsRest(key, done, list, j, []);
        assert done + list + [] == done + list;
        return Raise(kv.error);
      }
      acc := Insert(acc, kv.value, list[j].entries);
      seen := seen + [list[j]];
      j := j + 1;
    }
    assert list[..j] == list;
    return Ok(acc);
  }

  lemma MergeGroupsSnoc(key: string, pre: seq<Value>, x: Value)
    ensures MergeGroups(key, pre + [x]) ==
      match MergeGroups(key, pre)
      case Raise(e) => Raise(e)
      case Ok(g) =>
        match KeyOf(key, x)
        case Raise(e) => Raise(e)
        case Ok(kv) => Ok(Insert(g, kv, x.entries))
  {
    assert (pre + [x])[..|pre + [x]| - 1] == pre;
  }

  lemma MergeGroupsRest(key: string, before: seq<Value>, list: seq<Value>, j: nat, after: seq<Value>)
    requires j < |list|
    requires MergeGroups(key, before + list[..j + 1]).Raise?
    ensures MergeGroups(key, before + list + after) == MergeGroups(key, before + list[..j + 1])
  {
    assert before + list + after == (before + list[..j + 1]) + (list[j + 1..] + after) by {
      assert list == list[..j + 1] + list[j + 1..];
    }
    MergeGroupsExtend(key, before + list[..j + 1], list[j + 1..] + after);
  }

  lemma FlattenSnoc(lists: seq<seq<Value>>, i: nat)
    requires i < |lists|
    ensures Flatten(lists[..i + 1]) == Flatten(lists[..i]) + lists[i]
  {
    FlattenConcat(lists[..i], [lists[i]]);
    assert lists[..i + 1] == lists[..i] + [lists[i]];
    assert [lists[i]][1..] == [];
    assert Flatten([lists[i]]) == lists[i] + Flatten([]);
  }

  lemma FlattenAt(lists: seq<seq<Value>>, i: nat)
    requires i < |lists|
    ensures Flatten(lists) == Flatten(lists[..i]) + lists[i] + Flatten(lists[i + 1..])
  {
    assert lists == lists[..i] + lists[i..];
    FlattenConcat(lists[..i], lists[i..]);
    assert lists[i..][1..] == lists[i + 1..];
  }

  /** An error on a prefix is the error of the whole input. */
  lemma {:induction false} MergeGroupsExtend(key: string, pre: seq<Value>, rest: seq<Value>)
    requires MergeGroups(key, pre).Raise?
    ensures MergeGroups(key, pre + rest) == MergeGroups(key, pre)
    decreases |rest|
  {
    if |rest| == 0 {
      assert pre + rest == pre;
    } else {
      var all := pre + rest;
      assert all[..|all| - 1] == pre + rest[..|rest| - 1];
      MergeGroupsExtend(key, pre, rest[..|rest| - 1]);
    }
  }

  /** The keys of one more group in front. */
  lemma GroupKeysCons(h: Group, t: seq<Group>)
    ensures GroupKeys([h] + t) == [h.key] + GroupKeys(t)
  {
    var whole := GroupKeys([h] + t);
    var parts := [h.key] + GroupKeys(t);
    forall i | 0 <= i < |whole|
      ensures whole[i] == parts[i]
    {
      if i > 0 {
        assert ([h] + t)[i] == t[i - 1];
      }
    }
  }

  /** Inserting keeps the keys in first-appearance order. */
  lemma {:induction false} InsertKeys(g: seq<Group>, kv: Value, fields: map<string, Value>)
    ensures GroupKeys(Insert(g, kv, fields)) == if kv in GroupKeys(g) then GroupKeys(g) else GroupKeys(g) + [kv]
    decreases |g|
  {
    if |g| > 0 {
      var t := g[1..];
      assert g == [g[0]] + t;
      GroupKeysCons(g[0], t);
      if g[0].key == kv {
        GroupKeysCons(Group(kv, g[0].fields + fields), t);
      } else {
        InsertKeys(t, kv, fields);
        GroupKeysCons(g[0], Insert(t, kv, fields));
        assert kv in GroupKeys(g) <==> kv in GroupKeys(t);
      }
    }
  }

  /** Inserting adds the new fields to its own key, and only to it. */
  lemma {:induction false} InsertFields(g: seq<Group>, kv: Value, fields: map<string, Value>, k: Value)
    ensures FieldsOf(Insert(g, kv, fields), k) == if k == kv then FieldsOf(g, k) + fields else FieldsOf(g, k)
    decreases |g|
  {
    if |g| == 0 {
      assert map[] + fields == fields;
    } else if g[0].key != kv {
      InsertFields(g[1..], kv, fields, k);
    }
  }

  /** The key values of `elems`, where every element has one. */
  function KeyValues(key: string, elems: seq<Value>): (r: seq<Value>)
    requires forall i :: 0 <= i < |elems| ==> KeyOf(key, elems[i]).Ok?
    ensures |r| == |elems|
    ensures forall i :: 0 <= i < |elems| ==> r[i] == KeyOf(key, elems[i]).value
  {
    seq(|elems|, i requires 0 <= i < |elems| && KeyOf(key, elems[i]).Ok? => KeyOf(key, elems[i]).value)
  }

  /** The distinct values of `s` in order of first appearance. */
  function Dedup(s: seq<Value>): seq<Value>
    decreases |s|
  {
    if |s| == 0 then []
    else
      var d := Dedup(s[..|s| - 1]);
      if s[|s| - 1] in d then d else d + [s[|s| - 1]]
  }

  /** The union of every element carrying key value `kv`, later ones winning. */
  function UnionFor(key: string, elems: seq<Value>, kv: Value): map<string, Value>
    decreases |elems|
  {
    if |elems| == 0 then map[]
    else
      var last := elems[|elems| - 1];
      UnionFor(key, elems[..|elems| - 1], kv)
        + (if KeyOf(key, last) == Ok(kv) then last.entries else map[])
  }

  /** The merge fails exactly when some element has no usable key value. */
  lemma {:induction false} MergeGroupsFails(key: string, elems: seq<Value>)
    ensures MergeGroups(key, elems).Ok? <==> forall i :: 0 <= i < |elems| ==> KeyOf(key, elems[i]).Ok?
    decreases |elems|
  {
    if |elems| > 0 {
      var pre := elems[..|elems| - 1];
      MergeGroupsFails(key, pre);
      assert forall i :: 0 <= i < |pre| ==> pre[i] == elems[i];
    }
  }

  /** One result dictionary per distinct key value, in first-appearance
      order, each the union of the dictionaries sharing that key value
      with later values overriding earlier ones. */
  lemma MergeGroupsSpec(key: string, elems: seq<Value>)
    requires forall i :: 0 <= i < |elems| ==> KeyOf(key, elems[i]).Ok?
    ensures MergeGroups(key, elems).Ok?
    ensures GroupKeys(MergeGroups(key, elems).value) == Dedup(KeyValues(key, elems))
    ensures forall k :: FieldsOf(MergeGroups(key, elems).value, k) == UnionFor(key, elems, k)
  {
    MergeGroupsFails(key, elems);
    MergeGroupsKeys(key, elems);
    forall k ensures FieldsOf(MergeGroups(key, elems).value, k) == UnionFor(key, elems, k) {
      MergeGroupsFields(key, elems, k);
    }
  }

  lemma {:induction false} MergeGroupsKeys(key: string, elems: seq<Value>)
    requires forall i :: 0 <= i < |elems| ==> KeyOf(key, elems[i]).Ok?
    requires MergeGroups(key, elems).Ok?
    ensures GroupKeys(MergeGroups(key, elems).value) == Dedup(KeyValues(key, elems))
    decreases |elems|
  {
    if |elems| > 0 {
      var pre := elems[..|elems| - 1];
      var last := elems[|elems| - 1];
      assert forall i :: 0 <= i < |pre| ==> pre[i] == elems[i];
      MergeGroupsFails(key, pre);
      MergeGroupsKeys(key, pre);
      var g := MergeGroups(key, pre).value;
      var kv := KeyOf(key, last).value;
      KeysStep(g, kv, last.entries, KeyValues(key, pre));
      KeyValuesSnoc(key, elems);
      assert MergeGroups(key, elems) == Ok(Insert(g, kv, last.entries));
    }
  }

  lemma KeyValuesSnoc(key: string, elems: seq<Value>)
    requires |elems| > 0 && forall i :: 0 <= i < |elems| ==> KeyOf(key, elems[i]).Ok?
    ensures KeyValues(key, elems)
      == KeyValues(key, elems[..|elems| - 1]) + [KeyOf(key, elems[|elems| - 1]).value]
  {
    var pre := elems[..|elems| - 1];
    var all := KeyValues(key, elems);
    var parts := KeyValues(key, pre) + [KeyOf(key, elems[|elems| - 1]).value];
    forall i | 0 <= i < |all|
      ensures all[i] == parts[i]
    {
      if i < |pre| {
        assert pre[i] == elems[i];
      }
    }
  }

  /** Inserting one more key value extends the keys as deduplicating
      one more value does. */
  lemma KeysStep(g: seq<Group>, kv: Value, fields: map<string, Value>, s: seq<Value>)
    requires GroupKeys(g) == Dedup(s)
    ensures GroupKeys(Insert(g, kv, fields)) == Dedup(s + [kv])
  {
    InsertKeys(g, kv, fields);
    assert (s + [kv])[..|s|] == s;
  }

  lemma {:induction false} MergeGroupsFields(key: string, elems: seq<Value>, k: Value)
    requires forall i :: 0 <= i < |elems| ==> KeyOf(key, elems[i]).Ok?
    requires MergeGroups(key, elems).Ok?
    ensures FieldsOf(MergeGroups(key, elems).value, k) == UnionFor(key, elems, k)
    decreases |elems|
  {
    if |elems| > 0 {
      var pre := elems[..|elems| - 1];
      var last := elems[|elems| - 1];
      assert forall i :: 0 <= i < |pre| ==> pre[i] == elems[i];
      MergeGroupsFails(key, pre);
      MergeGroupsFields(key, pre, k);
      InsertFields(MergeGroups(key, pre).value, KeyOf(key, last).value, last.entries, k);
    }
  }

  /** The key values of the result are pairwise different. */
  lemma {:induction false} DedupDistinct(s: seq<Value>)
    ensures forall i, j :: 0 <= i < j < |Dedup(s)| ==> Dedup(s)[i] != Dedup(s)[j]
    ensures forall x :: x in Dedup(s) <==> x in s
    decreases |s|
  {
    if |s| > 0 {
      DedupDistinct(s[..|s| - 1]);
      assert s == s[..|s| - 1] + [s[|s| - 1]];
    }
  }
}
