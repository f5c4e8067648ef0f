/** `juju_spell/commands/list_models.py`: lists a controller's models from
    the file cache, or from the controller when a refresh is asked for,
    nothing usable is cached or the cached list is stale. The cache is
    advisory: failing to read or write it never fails the command. */
module ListModels {
  import opened Common
  import Juju
  import Utils

  /** The command's name (its class name), which prefixes its cache file. */
  const COMMAND_NAME: string := "ListModelsCommand"

  /** The cache file of a controller's list: the same for loading and
      saving. */
  function CacheFile(uuid: string): (r: string)
    ensures |r| > |COMMAND_NAME| && r[..|COMMAND_NAME|] == COMMAND_NAME && r[|COMMAND_NAME|] == '_'
    ensures r[|COMMAND_NAME| + 1..] == uuid
  {
    COMMAND_NAME + "_" + uuid
  }

  /** The model names as a list value. */
  function ModelList(models: seq<string>): (r: Value)
    ensures r.List? && |r.items| == |models|
    ensures forall i | 0 <= i < |models| :: r.items[i] == Str(models[i])
  {
    List(seq(|models|, i requires 0 <= i < |models| => Str(models[i])))
  }

  /** What a refresh caches: the models and whether the refresh was asked
      for. */
  function Fetched(models: seq<string>, refresh: bool): map<string, Value>
  {
    map["models" := ModelList(models), "refresh" := Bool(refresh)]
  }

  /** A loaded cache: its contents with `refresh` forced to false. */
  function Loaded(ctx: Utils.CacheContext): Utils.CacheContext
  {
    ctx.(data := ctx.data["refresh" := Bool(false)])
  }

  /** The condition of line 24 as written: `need_refresh` is not an
      attribute of `FileCache`, so reading it on a loaded cache raises. */
  function RefetchAsWritten(refresh: bool, loaded: Option<Utils.CacheContext>): (r: Try<bool>)
  {
    if refresh then Ok(true)
    else if loaded.None? then Ok(true)
    else Raise(AttributeError("'FileCache' object has no attribute 'need_refresh'"))
  }

  /** Every time a cache is found without a refresh being asked for, the
      condition as written raises instead of deciding. */
  lemma RefetchAsWrittenRaises(ctx: Utils.CacheContext)
    ensures RefetchAsWritten(false, Some(ctx)).Raise?
    ensures RefetchAsWritten(false, Some(ctx)).error.AttributeError?
  {
  }

  /** The condition as intended: refetch when asked to, when nothing was
      loaded, or when the loaded cache has expired at second `now`. */
  function Refetch(refresh: bool, loaded: Option<Utils.CacheContext>, now: int): (r: bool)
    ensures r <==> refresh || loaded.None? || loaded.value.timestamp + Utils.DEFAULT_TTL_RULE < now
  {
    refresh || loaded.None? || loaded.value.timestamp + Utils.DEFAULT_TTL_RULE < now
  }

  /** The intended condition agrees with the written one wherever the
      written one decides, and a cache fresh at `now` is not refetched. */
  lemma RefetchAgrees(refresh: bool, loaded: Option<Utils.CacheContext>, now: int)
    ensures RefetchAsWritten(refresh, loaded).Ok? ==> RefetchAsWritten(refresh, loaded).value == Refetch(refresh, loaded, now)
    ensures !refresh && loaded.Some? && loaded.value.timestamp + Utils.DEFAULT_TTL_RULE >= now ==>
      !Refetch(refresh, loaded, now)
  {
  }

  /** A list saved at second `stamp` and read back without a refresh
      being asked for is used as it is until its TTL has passed, and
      refetched at every second from then on. */
  lemma CachedUntilTtl(files: map<string, Utils.StoredFile>, uuid: string, name: string,
                       data: map<string, Value>, stamp: int, now: int, later: int)
    requires now <= later
    ensures var fname := CacheFile(uuid);
      var saved := Utils.Committed(files, fname, Utils.CacheContext(uuid, name, data, stamp), Utils.NoFault);
      var load := Utils.Load(saved, fname, Utils.NoFault);
      load.Ok? &&
      (Refetch(false, Some(Loaded(load.value)), now) <==> stamp + Utils.DEFAULT_TTL_RULE < now) &&
      (Refetch(false, Some(Loaded(load.value)), now) ==> Refetch(false, Some(Loaded(load.value)), later))
  {
    Utils.CommitThenLoad(files, CacheFile(uuid), Utils.CacheContext(uuid, name, data, stamp), Utils.NoFault,
                         CacheFile(uuid), Utils.NoFault);
  }

  /** `load_cache_data`: the cache stored for the controller, with
      `refresh` set to false, or None when it cannot be read. */
  method LoadCacheData(controller: Juju.Controller, cls: Utils.FileCacheClass, dir: Utils.CacheDirectory,
                       fault: Utils.IoFault)
    returns (r: Option<Utils.FileCache>)
    modifies cls
    ensures cls.cacheName == CacheFile(controller.uuid)
    ensures r.Some? <==> Utils.Load(dir.files, CacheFile(controller.uuid), fault).Ok?
    ensures r.Some? ==> fresh(r.value) && r.value.Context() == Loaded(Utils.Load(dir.files, CacheFile(controller.uuid), fault).value)
  {
    var fname := CacheFile(controller.uuid);
    var connected := Utils.Connect(cls, fname, dir, fault);
    if connected.Raise? {
      // a JujuSpellError is only logged
      return None;
    }
    var cache := connected.value;
    cache.data := cache.data["refresh" := Bool(false)];
    r := Some(cache);
  }

  /** `save_cache_data`: a new cache of `data` stamped `now`, committed to
      the controller's cache file when it can be written. */
  method SaveCacheData(controller: Juju.Controller, cls: Utils.FileCacheClass, dir: Utils.CacheDirectory,
                       data: map<string, Value>, now: int, fault: Utils.IoFault)
    returns (cache: Utils.FileCache)
    modifies dir
    ensures fresh(cache)
    ensures cache.Context() == Utils.CacheContext(controller.uuid, controller.name, data, now)
    ensures dir.files == Utils.Committed(old(dir.files), CacheFile(controller.uuid), cache.Context(), fault)
  {
    cache := new Utils.FileCache(cls, Utils.CacheContext(controller.uuid, controller.name, data, now));
    var fname := CacheFile(controller.uuid);
    var committed := cache.Commit(fname, dir, fault);
    if committed.Raise? {
      // a JujuSpellError is only logged
    }
  }

  /** `ListModelsCommand.execute`, with the refresh condition as intended.
      `listed` is the controller's answer to `list_models`, `now` the
      clock; `loadFault` and `saveFault` say how reading and writing the
      cache file go. The answer is the context of the cache used; logging
      its model list raises when a cache file holds none. */
  method Execute(controller: Juju.Controller, refresh: bool, listed: Try<seq<string>>, now: int,
                 cls: Utils.FileCacheClass, dir: Utils.CacheDirectory,
                 loadFault: Utils.IoFault, saveFault: Utils.IoFault)
    returns (r: Try<Utils.CacheContext>, calls: seq<Juju.Call>)
    modifies cls, dir
    ensures var fname := CacheFile(controller.uuid);
      var load := Utils.Load(old(dir.files), fname, loadFault);
      var loaded := if !refresh && load.Ok? then Some(Loaded(load.value)) else None;
      (!Refetch(refresh, loaded, now) ==>
        r == (if "models" in loaded.value.data then Ok(loaded.value) else Raise(KeyError("models"))) &&
        calls == [] && dir.files == old(dir.files)) &&
      (Refetch(refresh, loaded, now) ==> calls == [Juju.ListModels]) &&
      (Refetch(refresh, loaded, now) && listed.Raise? ==> r == Raise(listed.error) && dir.files == old(dir.files)) &&
      (Refetch(refresh, loaded, now) && listed.Ok? ==>
        var saved := Utils.CacheContext(controller.uuid, controller.name, Fetched(listed.value, refresh), now);
        r == Ok(saved) &&
        dir.files == Utils.Committed(old(dir.files), fname, saved, saveFault))
    ensures refresh ==> cls.cacheName == old(cls.cacheName)
    ensures !refresh ==> cls.cacheName == CacheFile(controller.uuid)
  {
    var cache: Option<Utils.FileCache> := None;
    if !refresh {
      cache := LoadCacheData(controller, cls, dir, loadFault);
    }
    calls := [];
    var stale := cache.Some? && cache.value.Expired(now);
    if refresh || cache.None? || stale {
      calls := [Juju.ListModels];
      if listed.Raise? {
        return Raise(listed.error), calls;
      }
      var saved := SaveCacheData(controller, cls, dir, Fetched(listed.value, refresh), now, saveFault);
      cache := Some(saved);
    }
    // the debug line reads the model list, which a cache file may lack
    if "models" !in cache.value.data {
      return Raise(KeyError("models")), calls;
    }
    r := Ok(cache.value.Context());
  }
}
