# juju-spell, modelled in Dafny

juju-spell runs one command against many Juju controllers. It reads a
YAML configuration of controllers, merging a personal file into the global
one, filling in defaults and filtering the controllers. It connects to each
controller, through an `ssh` port-forward or an `sshuttle` tunnel when the
controller is behind a bastion, and keeps the handles in a registry keyed by
controller name. Then it runs the command on each controller in turn,
wrapping every outcome in a `Result` record. The commands modelled here are:

- add user, remove user and grant;
- get or set application configuration;
- list models through a per-controller file cache;
- patch packages: build the `apt-get` command line and parse apt's output.

This project models that core in Dafny, one module per source file:

| module | source file |
|---|---|
| `Common`, `Strings` | Python values, exceptions and `str` operations the rest uses |
| `Juju` | the handles of the Juju client library: controller, model, application |
| `Base` | `juju_spell/commands/base.py` |
| `AddUser`, `RemoveUser`, `Grant`, `ConfigCommand`, `ListModels`, `UpdatePackages` | the commands of `juju_spell/commands/` |
| `Runner` | `juju_spell/assignment/runner.py` |
| `Manager`, `Network`, `ConnBuilder` | `juju_spell/connections/` |
| `Config`, `Filter`, `Utils` | `juju_spell/config.py`, `juju_spell/filter.py`, `juju_spell/utils.py` |
| `CliConfig`, `CliUpdatePackages`, `CliUtils` | the argument parsers of `juju_spell/cli/` |

How the model is built:

- Python exceptions become the `Try` datatype: `Ok(value)` or `Raise(error)`.
  Every error path of the source is a `Raise` with the exception's class and
  message.
- The controller's side is an input. Each answer to a remote call (a dial, a
  grant, a model listing) is a parameter. The calls a command makes are
  returned as a trace of `Juju.Call` values, so contracts can state their
  order and number.
- State the source updates in place becomes classes with `modifies` clauses:
  - the connection registry and its singleton;
  - controller handles and tunnel processes;
  - the file cache and its directory;
  - the patch applications with their unit results;
  - the parsed command-line namespace.
- Loops are `while` loops proved against a specification function. The
  specification's properties are lemmas beside it.
- The socket probe, `random.shuffle`, the clock and `re.match` are inputs:
  - the set of free ports;
  - the shuffled port list;
  - the current second;
  - the outcome of a match.

`get_free_tcp_port` appears twice in the source, identically
(`juju_spell/connections/manager.py:26-41` and
`juju_spell/connections/network.py:22-36`). Both are modelled by
`Network.GetFreeTcpPort` and its `FirstFree` specification, which
`Manager` uses too.

## Model

| member | source | states |
|---|---|---|
| Base.Run | juju_spell/commands/base.py:96-110 | a raising `execute` gives a failed result that carries the error and no output; a plain value becomes a success with that output; a `Result` is handed on unchanged |
| Base.RunFailure | juju_spell/commands/base.py:102-110 | a run fails exactly when `execute` raised or handed on a failed `Result`; running a run result through `run` again changes nothing; a result carries an error only if `execute` raised or handed it on |
| Base.RunCall | juju_spell/commands/base.py:102-110 | a sub-command making one remote call succeeds exactly when the call does, with output True, and otherwise carries the call's error |
| Base.PreCheck | juju_spell/commands/base.py:69-82 | nothing to report exactly when the controller is connected; otherwise a failed result whose error names the controller's uuid |
| Base.DryRun | juju_spell/commands/base.py:85-94 | always a success whose output has exactly the keys `target` and `command_doc`, the target being the controller's uuid and `command_doc` the docstring, or None when there is none |
| Base.Expansion | juju_spell/commands/base.py:153-156 | a model expands to a non-empty list; it raises exactly when its mapping is None |
| Base.ApplyModelMappings | juju_spell/commands/base.py:134-158 | the loop gives the mapped expansions of the models, in order; without mappings, or with an empty mapping, it gives the models as they are |
| Base.MappedSnoc | juju_spell/commands/base.py:153-156 | one more model appends its expansion to the result, or the first error stays |
| Base.MappedPrefixFails | juju_spell/commands/base.py:153-156 | once a prefix of the models raises, the whole list raises with that error |
| Base.MappedUnmapped | juju_spell/commands/base.py:154-156 | models that have no mapping are kept as they are, in order |
| Base.MappedConcat | juju_spell/commands/base.py:152-156 | the expansion of a concatenation is the concatenation of the expansions |
| Base.FilteredModelNames | juju_spell/commands/base.py:58-61 | without asked-for models the controller's listing is used; otherwise the asked-for models after mapping |
| Base.GetModel | juju_spell/commands/base.py:64 | a model is returned exactly when the controller has it, and it is that model |
| Base.VisitCallsDisconnects | juju_spell/commands/base.py:63-66 | when the work on a model neither fetches nor disconnects models, a full pass fetches every visited model and disconnects each once, in the order visited |
| AddUser.PreCheck | juju_spell/commands/add_user.py:18-26 | a failed result exactly when the user to add is the configured user, with the error "User can't add self" |
| AddUser.Used | juju_spell/commands/add_user.py:34-36 | the given password when it is non-empty, else the generated one |
| AddUser.Account | juju_spell/commands/add_user.py:38-44 | the existing user when there is one; the created user when there is none; the lookup's error when it raises |
| AddUser.Execute | juju_spell/commands/add_user.py:28-73 | looks the user up first; adds it exactly when it does not exist; resets the password only with overwrite; runs enable exactly when it gets that far; runs grant exactly when an acl is given and enable succeeded or overwrite is set; hands on the failed sub-command result, or returns user, display name and password |
| CliConfig.AssignedRaises | juju_spell/cli/config.py:138-139 | the pairs raise exactly when one of them has no `=`, and then with the unpacking ValueError |
| CliConfig.AssignedKeys | juju_spell/cli/config.py:138-140 | when every pair has `=`, the dictionary holds exactly the keys given |
| CliConfig.AssignedLastWins | juju_spell/cli/config.py:138-140 | each key holds the value of the last pair naming it |
| CliConfig.PairRoundTrip | juju_spell/cli/config.py:139 | a key without `=` joined to any value by `=` is split back into that key and that value |
| CliConfig.KeyValue | juju_spell/cli/config.py:129-140 | the destination is reset to a new dictionary, which the pairs fill in order; a pair without `=` raises and leaves the pairs before it in place; nothing else in the namespace changes |
| CliConfig.AssignedStops | juju_spell/cli/config.py:137-140 | once a prefix of the pairs raises, all of them raise, with what that prefix filled in |
| CliConfig.GetApplicationConfig | juju_spell/cli/config.py:115-122 | one application setting per top-level entry, in file order, with that entry's name and settings; a document that is not a mapping raises AttributeError |
| CliConfig.FileSettings | juju_spell/cli/config.py:115-122 | for an application named once in the file, the pending settings are those of its entry |
| CliUpdatePackages.Items | juju_spell/cli/update_packages.py:87 | iteration succeeds exactly on a list |
| CliUpdatePackages.PackageOf | juju_spell/cli/update_packages.py:90-92 | a package entry is read exactly when it is a mapping with an `app` key |
| CliUpdatePackages.ReadPackages | juju_spell/cli/update_packages.py:88-93 | the inner loop reads the packages in order, the first unreadable one deciding the error |
| CliUpdatePackages.PackagesPrefixFails | juju_spell/cli/update_packages.py:89-93 | once a prefix of the packages raises, the whole list raises with that error |
| CliUpdatePackages.ConvertedPrefixFails | juju_spell/cli/update_packages.py:87-105 | once a prefix of the applications raises, the whole file raises with that error |
| CliUpdatePackages.GetPatchConfig | juju_spell/cli/update_packages.py:82-110 | the loop computes the specification function `PatchConfig` of the YAML document |
| CliUpdatePackages.ConvertedApps | juju_spell/cli/update_packages.py:87-105 | every application read keeps its place: one specification per entry, in order |
| CliUpdatePackages.ConvertedLines | juju_spell/cli/update_packages.py:95-97 | an error line is collected for exactly the applications whose `dist_upgrade` is not a boolean, in order |
| CliUpdatePackages.NoLinesAllBool | juju_spell/cli/update_packages.py:96-97 | no error line exactly when every `dist_upgrade` is a boolean |
| CliUpdatePackages.PatchAccepted | juju_spell/cli/update_packages.py:107-110 | a readable patch is accepted exactly when every `dist_upgrade` is a boolean, then with one application per entry in order; otherwise it raises JujuSpellError with a header line and one line per offending application |
| CliUtils.ParsedNoComma | juju_spell/cli/utils.py:87-90 | no item of the parsed list holds a comma |
| CliUtils.ParsedPieces | juju_spell/cli/utils.py:89-90 | pieces free of commas stay free of commas after filtering and stripping, and there are no more items than pieces |
| CliUtils.SplitJoin | juju_spell/cli/utils.py:89 | splitting at a separator what was joined with it gives the pieces back |
| CliUtils.ParseJoined | juju_spell/cli/utils.py:87-90 | items that are non-empty, free of commas and whose first and last characters are not whitespace in the sense of `str.isspace` (the characters `strip()` removes) are read back from their comma-separated form |
| CliUtils.KeptAsTheyAre | juju_spell/cli/utils.py:90 | non-empty items whose first and last characters are not `str.isspace` whitespace pass the filter and strip unchanged |
| CliUtils.GetValueFromPrompt | juju_spell/cli/utils.py:32-38 | an interrupt or the end of input raises Abort("Aborted by user"), and only then; otherwise the line with all `str.isspace` whitespace stripped from both ends: no longer than the input, and neither starting nor ending with such whitespace |
| CliUtils.Confirm | juju_spell/cli/utils.py:41-84 | without a terminal it raises JujuSpellError and asks nothing; otherwise its outcome and number of prompts are those of `ConfirmFrom` over the replies (each typed line stripped of `str.isspace` whitespace and lowered), every prompt being the question with its choices and suffix |
| CliUtils.ConfirmFirstDecision | juju_spell/cli/utils.py:72-84 | answers that decide nothing are asked again; the first deciding answer gives the outcome after one prompt per answer up to it |
| CliUtils.ConfirmNoDecision | juju_spell/cli/utils.py:72-84 | without a deciding answer the user is asked once per answer and once more, and the end of input aborts |
| CliUtils.Answers | juju_spell/cli/utils.py:75-82 | an empty answer takes the default; y/yes give true; n/no give false, or abort when asked to; anything else decides nothing |
| CliUtils.ParseFilter | juju_spell/cli/utils.py:93-98 | the value is accepted, unchanged, exactly when the pattern finds something in it or it is empty; otherwise ArgumentTypeError with the value in the message |
| Config.PortRange.Ports | juju_spell/config.py:87 | `range(start, stop)` holds `stop - start` ports (none when empty), the i-th being `start + i` |
| Config.Fields | juju_spell/config.py:288-306 | a controller record has exactly the dataclass attributes, `uuid`, `name` and `user` holding the record's values |
| Config.ConvertPortRange | juju_spell/config.py:72-87 | a value failing the pattern is rejected with "Invalid port_range definition"; any other failure is a ValueError from the unpacking or `int` |
| Config.ConvertPortRangeRoundTrip | juju_spell/config.py:83-87 | `"a:b"`, also when followed by whitespace such as the final newline the pattern's `$` accepts, converts to the half-open range from a to b |
| Config.ConvertPortRangeOk | juju_spell/config.py:84-87 | a value passing the pattern converts exactly when it splits on `:` into two pieces that are digit strings once `int` has stripped their surrounding whitespace |
| Config.DefaultDict | juju_spell/config.py:337-347 | with a mapping default the result holds the source keys and the default keys; a non-mapping default adds nothing when it is empty and fails otherwise |
| Config.DefaultList | juju_spell/config.py:350-357 | the defaulted list has as many elements as the source list |
| Config.DefaultListAt | juju_spell/config.py:352-356 | a mapping element under a mapping default is defaulted as a dict; every other element is replaced by the default itself |
| Config.DefaultDictKeepsSource | juju_spell/config.py:338-346 | no source key is lost, and a source value that is not a collection wins over the default |
| Config.DefaultDictFillsMissing | juju_spell/config.py:340-346 | a default key missing from the source is filled from the default |
| Config.DefaultDictListDefault | juju_spell/config.py:340-356 | a list default for a missing key comes back as one copy of the default per element, not as the default list |
| Config.DefaultDictFails | juju_spell/config.py:339-346 | one failing default key makes the whole mapping fail |
| Config.DefaultEntryOf | juju_spell/config.py:340-346 | the entry of a key is its mapping or list target defaulted recursively, or the target itself |
| Config.ApplyDefaultDict | juju_spell/config.py:337-347 | the loop succeeds exactly when `DefaultDict` does, with its value; failures are TypeError or AttributeError |
| Config.EntriesOverAll | juju_spell/config.py:338-347 | setting every default key in turn on the copy gives `DefaultDict` |
| Config.ApplyDefaultList | juju_spell/config.py:350-357 | the loop succeeds exactly when `DefaultList` does, with its value; failures are TypeError or AttributeError |
| Config.DefaultListFails | juju_spell/config.py:352-356 | a failing prefix makes the whole list fail |
| Config.DefaultConfig | juju_spell/config.py:379-390 | the result has the document's keys without the `default` section |
| Config.DefaultConfigNoDefault | juju_spell/config.py:379-381 | without a default section the document is returned as it is |
| Config.DefaultConfigUntouched | juju_spell/config.py:383-390 | only the `k + "s"` siblings of default keys change |
| Config.DefaultConfigControllers | juju_spell/config.py:360-390 | with a `controller` default, each controller gets the plain default fields it lacks |
| Config.DefaultConfigFails | juju_spell/config.py:386-389 | a sibling that fails to default makes the whole document fail |
| Config.ApplyDefault | juju_spell/config.py:360-390 | a document failing the defaults template raises JujuSpellError("configuration file validation failed"); otherwise it succeeds exactly when `DefaultConfig` does, with its value |
| Config.DefaultTarget | juju_spell/config.py:386-389 | a list target is defaulted elementwise, a mapping target as a dict, anything else is left as it is |
| Config.TargetOf | juju_spell/config.py:384 | `k + "s"` is the target of `k` and of no other key |
| Config.SiblingsOverAll | juju_spell/config.py:383-390 | applying every default key in turn gives the document with every sibling defaulted |
| Config.MergeSection | juju_spell/config.py:402-405 | a section merge fails exactly when either side's section is not a mapping |
| Config.MergedConfig | juju_spell/config.py:396-405 | the merged document has the global document's keys, and every section other than `default` is unchanged |
| Config.MergedDefaultSection | juju_spell/config.py:401-405 | each section named on either side holds the merge of both sides |
| Config.MergedDefaultsOverride | juju_spell/config.py:402-405 | personal values override global ones; global values the personal side does not set survive; no other field appears |
| Config.MergeDefaults | juju_spell/config.py:396-405 | succeeds exactly when `MergedConfig` does, with its value; a personal default section without a global one raises KeyError("default") |
| Config.MergeSections | juju_spell/config.py:401-405 | the loop succeeds exactly when every section merges, giving `MergedSections`; failures are TypeError |
| Config.SectionsOverAll | juju_spell/config.py:401-405 | merging every section in turn gives `MergedSections` |
| Config.UnionPart | juju_spell/config.py:398-400 | collecting the default keys raises only TypeError; a mapping contributes exactly its keys |
| Config.UnionPartEmpty | juju_spell/config.py:398-400 | an empty string, list or mapping contributes no key |
| Config.UnionPartNonEmpty | juju_spell/config.py:398-400 | a non-empty string, or a non-empty list of hashable items, contributes some key |
| Config.UnionPartKeys | juju_spell/config.py:398-400 | a mapping with a key contributes a key |
| Config.MergeConfigs | juju_spell/config.py:393-413 | a `default` whose keys cannot be collected (None, a bool, an int, a list holding a list or mapping) raises that TypeError, the global side first; when neither side contributes a key (empty mappings, strings or lists) the result is the global document with only the controllers step applied; a global `default` that is not a mapping but contributes keys raises AttributeError("get"); a mapping global `default` with a non-mapping personal one that contributes keys raises AttributeError("get") or a TypeError; with two mappings a failing merge raises TypeError or KeyError("default"), otherwise the result is `MergeConfigsSpec`, whose controllers step merges the global controllers before it requires the personal value to be a list |
| Config.MergeConfigsControllers | juju_spell/config.py:407-413 | controllers are merged by `uuid` only when both sides have some; otherwise the global list stays as it is |
| Config.GlobalControllersFirst | juju_spell/utils.py:235-238 | the global controllers are walked before the personal value: a global controller without `uuid` beside a personal string raises KeyError("uuid"), not TypeError |
| Config.First | juju_spell/config.py:464 | `x[0]` gives the first element of a non-empty list and IndexError on an empty one |
| Config.ConvertConfigFields | juju_spell/config.py:454-469 | a well-formed `show-controller` entry converts field by field, taking the first API endpoint; later controllers are ignored |
| Config.ConvertConfigErrors | juju_spell/config.py:454-469 | a missing `details` section raises KeyError("details"); an empty endpoint list raises IndexError; an empty mapping gives None |
| ConfigCommand.ApplyConfig | juju_spell/commands/config.py:68-77 | given properties are merged into the application's configuration, otherwise it is untouched; the answer is the whole configuration, or just the property asked for, and a property the configuration lacks raises KeyError |
| ConfigCommand.PendingUnnamed | juju_spell/commands/config.py:58-64 | an application no update names gets no settings |
| ConfigCommand.PendingLast | juju_spell/commands/config.py:58-64 | a setting ends with the value the last update naming it gives |
| ConfigCommand.Configs | juju_spell/commands/config.py:59 | there is one configuration per application of the model |
| ConfigCommand.Merged | juju_spell/commands/config.py:58-64 | updating configurations adds no application and drops none |
| ConfigCommand.ApplyFileConfig | juju_spell/commands/config.py:55-65 | each application the model has ends with its configuration merged with the updates naming it, in order; the answer is the new configuration of exactly the updated applications; applications the model lacks are skipped |
| ConfigCommand.Answers | juju_spell/commands/config.py:64 | the answer covers exactly the updated applications the model has |
| ConfigCommand.AnswersStep | juju_spell/commands/config.py:63-64 | answering one more application changes that application's answer only |
| ConfigCommand.ApplyUpdate | juju_spell/commands/config.py:59-64 | the named application takes the update's settings over its own and its new configuration is answered; no other application changes |
| ConfigCommand.MergedNone | juju_spell/commands/config.py:57-65 | no updates leave every configuration as it is |
| ConfigCommand.MergedStep | juju_spell/commands/config.py:58-64 | one more update adds its settings to its application when the model has it and changes nothing else |
| ConfigCommand.UpdatedStep | juju_spell/commands/config.py:59-64 | one more update adds its application to the answered ones exactly when the model has it |
| ConfigCommand.ConfigureModel | juju_spell/commands/config.py:34-47 | the answer is `VisitAnswer` and the applications' new configurations are `AfterVisit` of those before the visit: a named application the model lacks, or no application and no updates, answers nothing and changes nothing; a named application present takes the properties and answers only itself, with all its configuration or the one property asked for; file updates merge into the applications they name and answer exactly those the model has; the only error is the KeyError of a missing single property |
| ConfigCommand.ConfigureApplication | juju_spell/commands/config.py:40-45 | a named application present is answered and updated as `VisitAnswer` and `AfterVisit` say, and no other application changes |
| ConfigCommand.FileVisit | juju_spell/commands/config.py:46-47 | with file updates, an application of the model is answered exactly when some update names it, with its configuration merged with every update naming it, and that is its new configuration |
| ConfigCommand.NamedVisit | juju_spell/commands/config.py:40-45 | naming an application present answers it alone, with its configuration after the properties are set or the property asked for; a missing property raises; every other application keeps its configuration |
| ConfigCommand.VisitAnswerShape | juju_spell/commands/config.py:34-47 | the answer covers nothing, the named application alone, or the updated applications the model has; the only error is the KeyError of a missing single property |
| ConfigCommand.Execute | juju_spell/commands/config.py:26-52 | a failure to list or filter the models is handed on and changes no configuration; otherwise the answers and the configurations of every model afterwards are `Visits` of the configurations before over the filtered names; then every visited model is answered under its name and fetched and disconnected in turn, and with neither application nor updates every answer is empty |
| ConfigCommand.ConfigureModels | juju_spell/commands/config.py:29-52 | the loop's answers and the configurations it leaves are `Visits` over the names; on success it answers every model in order, fetching and disconnecting each |
| ConfigCommand.VisitsDistinct | juju_spell/commands/config.py:29-50 | over distinct models that exist and answer, the pass answers exactly those models, each with its `VisitAnswer`, leaves each with its `AfterVisit` configurations and every other model unchanged |
| ConfigCommand.VisitsMissing | juju_spell/commands/config.py:29-33 | a model the controller does not have ends the pass with the controller's error for it |
| ConfigCommand.VisitsStop | juju_spell/commands/config.py:29-50 | once a model raises, the pass ends with that error and later models are not visited |
| ConfigCommand.VisitsOk | juju_spell/commands/config.py:29-50 | a pass that succeeds visited only models the controller has, answers each under its name, and answers nothing for any when neither an application nor updates are given |
| ConfigCommand.VisitNext | juju_spell/commands/config.py:29-50 | one more turn of the loop extends the pass by that model's answer and configurations |
| ConfigCommand.VisitModel | juju_spell/commands/config.py:34-50 | visiting one model answers its `VisitAnswer` and changes that model's configurations to `AfterVisit`, and no other model's |
| ConfigCommand.VisitCallsStep | juju_spell/commands/config.py:29-33 | one more turn fetches and disconnects one more model, after all earlier ones |
| ConfigCommand.VisitedSnoc | juju_spell/commands/config.py:29-50 | visiting one more model adds its answer |
| ConfigCommand.VisitCallsSnoc | juju_spell/commands/config.py:29-33 | one more model is fetched and disconnected after all earlier ones |
| ConnBuilder.RetryRules | juju_spell/connections/conn_builder.py:95-111 | a stop after the policy's attempt count exactly when it is set, before a stop after its timeout exactly when that is set, and no other rule; the policy's wait when set, else the default connection wait |
| ConnBuilder.LastAttempt | juju_spell/connections/conn_builder.py:53-73 | the attempt that ends the loop is the first one that connects, raises an error that is not retried, or after which a stop rule fires |
| ConnBuilder.Conn | juju_spell/connections/conn_builder.py:39-81 | the connector is dialled once per attempt up to the one that ends the loop, whose outcome is re-raised or returned; a success names the controller with the given uuid and name, a failure leaves them as they were |
| ConnBuilder.BuildControllerConn | juju_spell/connections/conn_builder.py:85-124 | `_conn` under the rules of the policy, or of the default policy when none is given, dialling with the default frame size and the library's retries and backoff switched off; a failure leaves the controller's uuid and name as they were |
| ConnBuilder.RulesOf | juju_spell/connections/conn_builder.py:104-111 | the rules built are exactly `Rules` of the policy, in order |
| ConnBuilder.AttemptsBounded | juju_spell/connections/conn_builder.py:106-107 | with a stop after `n` attempts, at most `n` dials are made |
| ConnBuilder.NotRetried | juju_spell/connections/conn_builder.py:102 | a dial failing with an error other than `JujuConnectionError` is not retried |
| ConnBuilder.RetriedForever | juju_spell/connections/conn_builder.py:102-121 | with no stop rule every `JujuConnectionError` is retried until a success or another error |
| ConnBuilder.TwoAttempts | juju_spell/connections/conn_builder.py:96-111 | a policy of two attempts, a refused dial and then a successful one within the timeout: two dials, success |
| Filter.Serialize | juju_spell/filter.py:21-23 | a clause's values are exactly its comma-separated pieces |
| Filter.SerializeList | juju_spell/filter.py:24-25 | a list attribute's set holds exactly its items |
| Filter.ClauseMeaning | juju_spell/filter.py:35-46 | a missing or empty attribute fails a clause; a list attribute passes exactly when one of its items is among the values; a string attribute passes exactly when it is one of them; any other attribute passes |
| Filter.Matches | juju_spell/filter.py:28-47 | a controller matches exactly when every clause of the expression passes on its attributes |
| Filter.KeptMatching | juju_spell/filter.py:58 | the kept controllers are controllers that match, every matching controller is kept, none is added, and filtering again changes nothing |
| Filter.KeptSound | juju_spell/filter.py:58 | every kept controller is one of the controllers and matches; no more are kept than there were |
| Filter.KeptComplete | juju_spell/filter.py:58 | every matching controller is kept |
| Filter.KeptIdempotent | juju_spell/filter.py:58 | filtering the kept controllers again keeps them all |
| Filter.KeptAll | juju_spell/filter.py:58 | when every controller matches, all are kept in their order |
| Filter.KeptConcat | juju_spell/filter.py:58 | filtering a concatenation filters each part in order |
| Filter.GetFilteredConfig | juju_spell/filter.py:52-62 | an empty expression leaves the configuration alone; otherwise only the matching controllers stay, and ValueError("No match controller") is raised exactly when none does |
| Grant.AclChoices | juju_spell/commands/grant.py:25-55 | the controller and model levels are always valid choices; each is the requested level exactly when that is a level of its kind; a superuser gets admin on the models |
| Grant.Execute | juju_spell/commands/grant.py:34-73 | the outcome and the calls made are those of `GrantSpec`: the controller grant first, then one model grant per visited model until one is refused |
| Grant.GrantPass | juju_spell/commands/grant.py:61-73 | the loop over the visited models gives the outcome and calls of `GrantModels` |
| Grant.AllGranted | juju_spell/commands/grant.py:61-73 | when every model grant is given, each visited model is fetched, granted and disconnected once, in order, and the command answers True |
| Grant.FirstRefusal | juju_spell/commands/grant.py:66-72 | the first refused model grant answers False; the models before it were granted and disconnected, none after it is fetched |
| Grant.ControllerRefused | juju_spell/commands/grant.py:57-59 | a refused controller grant answers False before any model is listed or fetched |
| ListModels.CacheFile | juju_spell/commands/list_models.py:53 | the cache file name is the command name, an underscore and the controller's uuid, so loading and saving use the same file |
| ListModels.ModelList | juju_spell/commands/list_models.py:25-35 | the cached model list holds the model names in order |
| ListModels.RefetchAsWrittenRaises | juju_spell/commands/list_models.py:24 | as written, a loaded cache without a refresh asked for raises AttributeError instead of deciding |
| ListModels.Refetch | juju_spell/commands/list_models.py:21-24 | the models are fetched again exactly when a refresh is asked for, nothing was loaded, or the loaded cache has expired |
| ListModels.RefetchAgrees | juju_spell/commands/list_models.py:24 | the intended condition agrees with the written one wherever that one decides, and a cache that has not expired is not refetched |
| ListModels.LoadCacheData | juju_spell/commands/list_models.py:64-79 | the controller's cache file is loaded with `refresh` set to false exactly when `Utils.Load` reads a context from it, and None is answered otherwise |
| ListModels.SaveCacheData | juju_spell/commands/list_models.py:45-62 | a new cache of the data stamped with the clock is returned; the controller's cache file holds it when writing succeeds, is left alone when it cannot be opened, and is left emptied when the write fails after opening it |
| ListModels.Execute | juju_spell/commands/list_models.py:15-43 | without a refetch the loaded cache is answered and nothing is called or written; with one the models are listed, and the listing error is handed on or the new cache is saved (as `Utils.Committed` says) and answered; a cache without `models` raises KeyError |
| ListModels.CachedUntilTtl | juju_spell/commands/list_models.py:15-62 | a list saved at some second and read back without a refresh is used until its TTL has passed, and refetched at every second from then on |
| Manager.SshPortForwardingProc | juju_spell/connections/manager.py:44-81 | a new, running process whose command is the `ssh -N -L` port-forward of the local target to the remote one, through the jumps when there are any |
| Manager.SshuttleProc | juju_spell/connections/manager.py:84-115 | a new, running `sshuttle` process over the subnets, through the jumps when there are any; a missing subnet list raises TypeError and spawns nothing |
| Manager.PlanChoice | juju_spell/connections/manager.py:176-192 | a local endpoint exactly when there is a connection section and sshuttle is off, a tunnel process exactly when there is a connection section; the forwarded port is a free one of the range and the port-forward targets the configured endpoint from `localhost:<port>` |
| Manager.Attr | juju_spell/connections/manager.py:195-198 | reading an attribute of the controller configuration succeeds exactly for the dataclass's fields |
| Manager.DialAsWrittenRaises | juju_spell/connections/manager.py:196 | as written, the dial reads a `username` attribute the configuration does not have and raises AttributeError for every controller |
| Manager.DialFor | juju_spell/connections/manager.py:194-199 | the intended dial uses the configured `user`, the configured password and CA certificate, and the configured endpoint exactly when there is no local forwarded endpoint |
| Manager.ConnectManagerClass.New | juju_spell/connections/manager.py:159-163 | the first call creates the single instance, every later call returns that same instance, and the registry is unchanged |
| Manager.ConnectManager.Connect | juju_spell/connections/manager.py:170-204 | a failing tunnel plan or a refused dial raises and registers nothing; otherwise a new connected controller, dialled once with `DialFor`, is registered under the configured name together with the tunnel process, replacing only that entry |
| Manager.ConnectManager.StartTunnel | juju_spell/connections/manager.py:176-192 | the tunnel raises exactly when the plan does, with its error; otherwise the local endpoint is the plan's and a new running process is spawned with the plan's command exactly when the plan has one |
| Manager.ConnectManager.Clean | juju_spell/connections/manager.py:206-219 | every registered controller is disconnected, every tunnel process terminated, and the registry emptied |
| Manager.ConnectManager.CloseEntry | juju_spell/connections/manager.py:209-216 | one entry's controller is disconnected, its tunnel process terminated, and only that entry removed |
| Manager.ConnectManager.GetController | juju_spell/connections/manager.py:221-242 | a registered, connected controller is reused unless a reconnect is asked for; with a reconnect the registered controller is disconnected first; otherwise a new connection is made and registered exactly when the tunnel and the dial succeed |
| Network.FirstFree | juju_spell/connections/network.py:31-34 | the position found holds a free port and every port before it is taken; none is found exactly when every port is taken |
| Network.PortInRange | juju_spell/config.py:87 | a port of the range lies between its start and its stop |
| Network.GetFreeTcpPort | juju_spell/connections/network.py:22-36 | the ports are probed in shuffled order and the first free one is returned, which lies in the range; when none is free, ValueError naming the range is raised |
| Network.FirstFreeAt | juju_spell/connections/network.py:31-34 | the scan stops at the first free port |
| Network.EmptyRangeHasNoPort | juju_spell/connections/network.py:28-36 | an empty range never yields a port |
| Network.Process.Terminate | juju_spell/connections/network.py:95-98 | terminating only sends the signal: the exit status is left as it was |
| Network.EmptyConnection.Connect | juju_spell/connections/network.py:70-71 | a direct connection is connected after `connect` |
| Network.EmptyConnection.Clean | juju_spell/connections/network.py:73-74 | a direct connection is not connected after `clean` |
| Network.JumpFlagsWords | juju_spell/connections/network.py:159-160 | the jump argument reads back, word by word, as `-J` before each jump host, in order |
| Network.SubprocessConnection.Connect | juju_spell/connections/network.py:92-211 | the base class raises NotImplementedError; a port-forward or sshuttle tunnel spawns a new running process with its command line, which `is_connected` as written reports as not connected |
| Network.SubprocessConnection.Clean | juju_spell/connections/network.py:95-98 | the process, if any, is terminated and its exit status left as it was |
| Network.FreshTunnelNotConnected | juju_spell/connections/network.py:85-90 | a running tunnel process is alive but `is_connected` as written reports it not connected |
| Network.EndedTunnelConnected | juju_spell/connections/network.py:85-90 | a tunnel whose process has exited is reported connected by `is_connected` as written, though it is not alive |
| Network.GetConnection | juju_spell/connections/network.py:214-240 | without a connection section the controller is dialled directly at its endpoint; a port-forward goes from the first free local port of the range to the endpoint, and no free port raises ValueError; sshuttle tunnels only when there are subnets, and otherwise connects directly |
| RemoveUser.PreCheck | juju_spell/commands/remove_user.py:32-40 | the check objects exactly when the user to remove is the configured user, with a failed result whose output and error both say the user cannot remove itself |
| RemoveUser.RevokeModels | juju_spell/commands/remove_user.py:51-68 | the model pass only fetches, revokes and disconnects models, and fails exactly when a visited model cannot be handed out |
| RemoveUser.RemoveSpec | juju_spell/commands/remove_user.py:42-95 | a successful removal answers True and ends with the login revoke and the disable; a failed one revokes no login and disables no one |
| RemoveUser.Execute | juju_spell/commands/remove_user.py:42-95 | the outcome and the calls are those of `RemoveSpec`, whatever the controller answers to the revokes and the disable |
| RemoveUser.RevokePass | juju_spell/commands/remove_user.py:52-68 | the loop over the visited models gives the outcome and calls of `RevokeModels`; a failed revoke is only logged |
| RemoveUser.AllRevoked | juju_spell/commands/remove_user.py:52-68 | when every visited model exists, each is fetched, revoked and disconnected once, in order |
| RemoveUser.Removed | juju_spell/commands/remove_user.py:42-95 | with every visited model available the command answers True: every model is revoked and disconnected, then the login is revoked and the user disabled |
| Runner.GetResult | juju_spell/assignment/runner.py:25-34 | a record carries the controller's uuid, name and customer, and the result unchanged |
| Runner.SerialAllReached | juju_spell/assignment/runner.py:59-70 | with every controller reachable, a serial run yields one record per controller, in configuration order, each with its own controller's context and result, and runs the command once per controller |
| Runner.SerialUnreached | juju_spell/assignment/runner.py:61-62 | the first unreachable controller ends the run with its error: the command ran on every controller before it and on none after |
| Runner.RunSerial | juju_spell/assignment/runner.py:47-70 | the records and the invocations are those of `Serial` over the configured controllers; the namespace ends with the last controller run on |
| Runner.RunSerialAsWrittenRaises | juju_spell/assignment/runner.py:60 | as written, the serial run reads a `connection` attribute `Config` does not have and raises before any command runs, where the run as meant succeeds |
| Runner.RunParallel | juju_spell/assignment/runner.py:37-44 | a parallel run raises NotImplementedError |
| Runner.RunBatch | juju_spell/assignment/runner.py:73-80 | a batch run raises NotImplementedError |
| Runner.PreCheck | juju_spell/assignment/runner.py:83-96 | the controllers are pinged the way the run type says; the check is ok exactly when no ping reports an unreachable controller, and the ping records are handed back either way |
| Runner.SerialInvokes | juju_spell/assignment/runner.py:61-66 | a serial run invokes the command on the controllers in order, at most once each |
| Runner.RunPreCheck | juju_spell/assignment/runner.py:104-109 | a failed pre-check hands back the ping records and the command asked for never runs; without a pre-check nothing is pinged |
| Runner.Run | juju_spell/assignment/runner.py:99-119 | the outcome is that of `RunSpec`, and whatever happens the connection registry is cleaned: emptied, with every controller it held disconnected |
| UpdatePackages.Entry | juju_spell/commands/update_packages.py:147-155 | an entry is made only when the stripped name and both stripped versions are non-empty |
| UpdatePackages.ParseLineCases | juju_spell/commands/update_packages.py:135-155 | a line that is neither an `Inst ` nor an `Unpacking` line gives nothing; a line of either kind with too few fields raises the unpacking ValueError; every entry has a name and both versions |
| UpdatePackages.Mapped | juju_spell/commands/update_packages.py:165 | the list comprehension applies the function to each element in order |
| UpdatePackages.MappedConcat | juju_spell/commands/update_packages.py:165 | mapping a concatenation maps each part in order |
| UpdatePackages.Outcomes | juju_spell/commands/update_packages.py:135 | there is one outcome per line |
| UpdatePackages.CollectFrom | juju_spell/commands/update_packages.py:150-155 | every collected entry comes from a line |
| UpdatePackages.ParsedComplete | juju_spell/commands/update_packages.py:150-155 | every parsed entry has a name, an old and a new version |
| UpdatePackages.CollectConcat | juju_spell/commands/update_packages.py:135-157 | collecting two runs of outcomes gives the entries of the first, then those of the second |
| UpdatePackages.ParseLinesConcat | juju_spell/commands/update_packages.py:133-157 | parsing two runs of lines gives the entries of the first run, then those of the second |
| UpdatePackages.SplitWords | juju_spell/commands/update_packages.py:141 | four space-free words and a rest split at spaces into those words, then the rest's pieces |
| UpdatePackages.StartsWithConcat | juju_spell/commands/update_packages.py:140 | a string starts with what it is built from |
| UpdatePackages.InstFields | juju_spell/commands/update_packages.py:136-141 | an `Inst` line splits into `Inst`, the name, the bracketed old version and the opened new version |
| UpdatePackages.InstLine | juju_spell/commands/update_packages.py:136-155 | `Inst N [v1] (v2 ...` gives package N from v1 to v2 |
| UpdatePackages.EntryOf | juju_spell/commands/update_packages.py:147-149 | versions wrapped in brackets or parentheses give the bare versions |
| UpdatePackages.UnpackingStarts | juju_spell/commands/update_packages.py:140-144 | an `Unpacking` line is not an `Inst` line |
| UpdatePackages.UnpackingSplit | juju_spell/commands/update_packages.py:145 | the words of an `Unpacking` line |
| UpdatePackages.UnpackingFields | juju_spell/commands/update_packages.py:143-145 | an `Unpacking` line splits into `Unpacking`, the name, the new version, `over` and the old version |
| UpdatePackages.UnpackingLine | juju_spell/commands/update_packages.py:143-155 | `Unpacking N (v2) over (v1)` gives package N from v1 to v2 |
| UpdatePackages.ParseResult | juju_spell/commands/update_packages.py:128-157 | the loop gives the entries of the output's lines, in order, or the error of the first line that raises |
| UpdatePackages.CollectPrefixFails | juju_spell/commands/update_packages.py:141-145 | once a line raises, the whole parse raises the same way |
| UpdatePackages.PackageNames | juju_spell/commands/update_packages.py:165 | the names of the packages to update, in order |
| UpdatePackages.GetUpdateCommand | juju_spell/commands/update_packages.py:159-167 | every command starts with the apt prefix of the template and ends with `--dry-run` on a dry run and with a blank otherwise |
| UpdatePackages.UpdateCommandWords | juju_spell/commands/update_packages.py:159-167 | after the apt prefix, the command splits at blanks into exactly the verb (`dist-upgrade` or `install`), `--upgrade`, `-y`, the package names in order (one empty word when none are named, as for a distribution upgrade) and `--dry-run` or an empty word, whenever no package name holds a blank |
| UpdatePackages.PrefixedWords | juju_spell/commands/update_packages.py:159-167 | the words the template runs together with single blanks split back into those words |
| UpdatePackages.SplitJoinedThen | juju_spell/commands/update_packages.py:165-166 | names joined by blanks, then a blank and a last piece, split back into the names and that piece's words |
| UpdatePackages.DistUpgradeCommands | juju_spell/commands/update_packages.py:162-163 | a distribution upgrade names no package, with or without a dry run |
| UpdatePackages.TwoNames | juju_spell/commands/update_packages.py:165-166 | the names apt and rsync join as `apt rsync` |
| UpdatePackages.InstallCommands | juju_spell/commands/update_packages.py:164-167 | an install of apt and rsync names both, with or without a dry run |
| UpdatePackages.UnitUpdateResult.constructor | juju_spell/commands/update_packages.py:30-36 | a new unit result has run nothing: empty raw output, no packages, no success |
| UpdatePackages.SucceededMeaning | juju_spell/commands/update_packages.py:187-195 | a unit succeeded exactly when every expected package was reported at its expected version; with nothing expected every unit succeeds |
| UpdatePackages.SetSuccessFlags | juju_spell/commands/update_packages.py:187-195 | a unit whose output was never parsed raises TypeError and is left as it was; otherwise only its success flag changes, to `Succeeded` |
| UpdatePackages.MatchingMeaning | juju_spell/commands/update_packages.py:177-178 | an application is matched exactly when `re.match` accepts its name; the matches keep the model's order and include all when every name matches |
| UpdatePackages.MatchingMembers | juju_spell/commands/update_packages.py:177-178 | the matched applications are exactly those whose name is accepted |
| UpdatePackages.MatchingLength | juju_spell/commands/update_packages.py:177-178 | no more applications are matched than the model has |
| UpdatePackages.MatchingAll | juju_spell/commands/update_packages.py:177-178 | when every name is accepted all applications are matched, in order |
| UpdatePackages.AppendedSnoc | juju_spell/commands/update_packages.py:177-185 | one more matched application adds one more result laid out for it |
| UpdatePackages.NewUnits | juju_spell/commands/update_packages.py:179-182 | one new unit result per unit name, each with the command and nothing run yet |
| UpdatePackages.MatchedResults | juju_spell/commands/update_packages.py:177-185 | one result per matched application, in the model's order, named after it, with one new unit result per unit carrying the command |
| UpdatePackages.AddResults | juju_spell/commands/update_packages.py:176-185 | one patch application keeps the results it had and gets one more result per matched application |
| UpdatePackages.SetAppsToUpdate | juju_spell/commands/update_packages.py:169-185 | every patch application keeps its earlier results and gets one result per model application its name matches, each unit set up with that application's update command |
| Utils.FileCache.constructor | juju_spell/utils.py:90-104 | a new cache holds the given context and has no cache name of its own |
| Utils.FileCache.Get | juju_spell/utils.py:120-122 | `get` of an attribute answers that attribute |
| Utils.FileCache.Put | juju_spell/utils.py:116-118 | after `put`, `get` of the key answers the value and every other attribute keeps its value |
| Utils.FileCache.Update | juju_spell/utils.py:124-127 | `update` puts each pair in order |
| Utils.FileCache.Commit | juju_spell/utils.py:129-148 | with no cache name and no name given it raises JujuSpellError and writes nothing; otherwise a given name replaces the cache name and the directory becomes `Committed`: the context written under the cache name exactly when writing succeeds, the file emptied when the write fails after opening it, nothing changed when it cannot be opened; every failure raises JujuSpellError |
| Utils.Connect | juju_spell/utils.py:150-166 | the class-level cache name becomes the backend; the outcome is `Load`: the named file's context in a new cache exactly when it is present, written in full and readable, and otherwise the JujuSpellError `Load` names |
| Utils.Committed | juju_spell/utils.py:139-148 | writing one file adds at most that file and leaves every other file as it was |
| Utils.Load | juju_spell/utils.py:150-166 | a context is read exactly when the file is present, was written in full and can be read; every failure is a JujuSpellError |
| Utils.CommitThenLoad | juju_spell/utils.py:129-166 | a committed context reads back unchanged; a write that failed after opening leaves a file that fails to load; a write that could not open the file leaves what was there; other files read as before |
| Utils.StrToBool | juju_spell/utils.py:169-183 | the value is recognised exactly when its lower-case form is one of the true or false words, answering True exactly for a true word; anything else raises ValueError |
| Utils.LowerIdempotent | juju_spell/utils.py:176 | lowering twice is lowering once |
| Utils.StrToBoolCaseInsensitive | juju_spell/utils.py:176-183 | the answer does not depend on letter case |
| Utils.StrToBoolUpper | juju_spell/utils.py:178-181 | `YES` is true and `Off` is false; no word is both true and false |
| Utils.InsertSorted | juju_spell/utils.py:206 | inserting into a sorted list keeps it sorted and adds just the item |
| Utils.SortStrings | juju_spell/utils.py:206 | `sorted` gives a sorted permutation of the items |
| Utils.SortedUnique | juju_spell/utils.py:206 | two sorted arrangements of the same strings are the same list |
| Utils.Formatted | juju_spell/utils.py:203 | each item is formatted, in order |
| Utils.HumanizeListShapes | juju_spell/utils.py:186-216 | no items give the empty string, one gives the formatted item, two are joined by the conjunction, three or more are comma-separated with a comma before the conjunction |
| Utils.HumanizeListOrderFree | juju_spell/utils.py:205-206 | with sorting on, the order the items come in does not matter |
| Utils.FormattedPermutation | juju_spell/utils.py:203 | formatting permuted items gives permuted results |
| Utils.KeyOf | juju_spell/utils.py:238 | `elem[key]` is usable as a dictionary key exactly when the element is a mapping holding the key with a hashable value |
| Utils.MergeListOfDictByKey | juju_spell/utils.py:219-239 | the loops give the merged groups of the concatenated lists as dictionaries, or the error of the first element that has no usable key |
| Utils.MergeInto | juju_spell/utils.py:237-238 | the inner loop extends the groups of what was merged before by one list |
| Utils.FlattenConcat | juju_spell/utils.py:236-237 | flattening two runs of lists flattens each in order |
| Utils.MergeGroupsExtend | juju_spell/utils.py:236-238 | an error on a prefix is the error of the whole merge |
| Utils.InsertKeys | juju_spell/utils.py:238 | a new key value is added at the end and a known one keeps its place |
| Utils.InsertFields | juju_spell/utils.py:238 | an element's fields are added to its own key's dictionary, later values winning, and to no other |
| Utils.MergeGroupsFails | juju_spell/utils.py:236-238 | the merge fails exactly when some element has no usable key |
| Utils.MergeGroupsSpec | juju_spell/utils.py:219-239 | one dictionary per distinct key value, in first-appearance order, each the union of the dictionaries sharing that key value with later values overriding earlier ones |
| Utils.DedupDistinct | juju_spell/utils.py:239 | the merged key values are pairwise different and are exactly the key values of the input |
| Utils.MergeGroupsKeys | juju_spell/utils.py:235-239 | the merged dictionaries come one per distinct key value, in first-appearance order |
| Utils.MergeGroupsFields | juju_spell/utils.py:238 | each key value's dictionary is the union of the elements carrying it, later values winning |

## Left out

- The Juju client library (`juju.controller`, `juju.model`, `juju.application`) is not part of this model. Its calls are inputs, and `Juju` holds only the state the core reads or changes: dials, disconnects, connection status and application settings.
- Sockets, `subprocess.Popen`, `random.shuffle` and `re.match` are inputs: the set of free ports, the shuffled port list, a new `Network.Process` value, and the outcome of a match.
- Regular-expression checks are inputs: the confuse templates of `juju_spell/config.py`, `FILTER_EXPRESSION_REGEX` of `juju_spell/filter.py` and the pattern of `parse_filter`. `Filter` takes the clauses the expression holds; `Config.ApplyDefault` and `Config.ConvertPortRange` take whether the template accepted the value.
- File I/O and YAML are left out. Loading a YAML or configuration file is replaced by its parsed content. The cache directory is a map from file names to cache records, with an `IoFault` input saying whether a read or write fails. `load_config`, `load_config_file` and `_validate_config` are not modelled.
- Logging is left out everywhere; no logged value changes an outcome.
- Wall-clock time is an integer second given as input; `time()` floats and tenacity's waits between attempts are not modelled. `ConnBuilder` counts attempts and takes each attempt's elapsed time as an input.
- `juju_spell/settings.py` is not part of this model. Its constants (the default port range, connection wait and timeout, maximum frame size) are parameters of the members that use them.
- `get_filtered_model_names`, called by `juju_spell/commands/list_models.py:26`, is not part of this model. The model takes the answer to `list_models` as an input.
- The thin sub-commands (`ping.py`, `enable_user.py`, `revoke.py`, `status.py`, `show_controller.py`) are not modelled. Their `Result`s are inputs of the runner and of the composite commands.
- `UpdatePackages.run_updates_on_model` and `make_updates` (`juju_spell/commands/update_packages.py:89-127`) only run the command on each unit through the Juju client. They are not modelled; `ParseResult` and `SetSuccessFlags` model what they do with each unit's output.
- The CLI wiring (`cli/base.py`, `cli/add_user.py`, `cli/list_models.py`, `cli/grant.py`, `cli/enable_user.py`, craft_cli and argparse) is not modelled, and neither is the module-level alias of `connections/__init__.py`.
- Concurrency: commands are `async`, but the runner only runs serially, so every step is modelled in program order.
- UpdatePackages.ParseResult: `str.splitlines` is modelled as a split at `\n` only; a `\r` or any other line boundary apt does not print stays inside a line.
- CliUpdatePackages.Items: iterating a string or mapping where a list is expected raises TypeError in the model, where Python would iterate its characters or keys.
- CliUpdatePackages.Display: `str()` of a list or mapping inside an error line is abbreviated to `[...]` or `{...}`.
- CliUpdatePackages.GetPatchConfig: `os.linesep` is taken to be `\n`.
- CliConfig.GetApplicationConfig: each per-application value of the file is taken to be a mapping; other YAML values are not modelled.
- CliConfig.KeyValue: writes the dictionary back under the destination after each pair, rather than filling one dictionary object in place. The state after every step is the same.
- UpdatePackages.SetAppsToUpdate: requires the patch applications to be distinct objects; two entries aliasing one object are not modelled.
- Config.MergeConfigs: when the global `default` is a mapping and the personal one is a non-empty string or list, whether AttributeError or TypeError is raised depends on which key Python's set order tries first; the contract allows either. `UnionPart` keeps `True` and `1` apart, which Python's set merges; only whether the union is empty is used.
- Utils.MergeGroupsSpec: `KeyOf` and `MergeGroups` keep `True` and `1` (and `False` and `0`) apart as key values, while Python's dictionary treats them as one key; controllers whose `uuid` values are such a pair are grouped once in Python and twice in the model.
- Config.ConvertPortRange: the signs and underscores `int` also accepts are not modelled; a value the pattern accepts never holds them.
- Config.ApplyDefaultDict, Config.MergeSections: when several keys would fail, which one's error is raised depends on Python's set and dict order. The contract says only that the error is a TypeError or AttributeError.
- ListModels.Execute: models the refresh condition as intended (see Findings). The condition as written is `ListModels.RefetchAsWritten`.
- Utils.Load: a file left by a write that failed after opening it is taken to hold nothing that loads, as an emptied file does; a partly written YAML document that still parses into a full context is not modelled.
- Manager.ConnectManager.Connect: models the dial as intended (see Findings). The dial as written is `Manager.DialAsWritten`.
- Runner.RunSerial: takes the port range as an input (see Findings). The loop as written is `Runner.RunSerialAsWritten`. `get_controller` is a parameter here (`reached`), not a call of `Manager.ConnectManager.GetController`. The run therefore neither registers the connections it opens nor states that they are the ones `clean()` closes. Nor does it capture the TypeError that `list(None)` raises in `get_free_tcp_port` when the port range is None and a controller needs a tunnel; that outcome falls to `reached`.
- Runner.Run: the `clean()` on the way out is stated over the registry as it stood before the run. Because `get_controller` is a parameter, connections the run itself opens are not in that registry, so the contract does not say that every connection the run opened ends closed.
- Manager.ConnectManager.GetController: the `isinstance` assertion on the configuration always holds for a `Config.Controller` and is not modelled.

## Findings

| source | as written | input that shows it | evidently intended | confidence | as-written member | corrected member |
|---|---|---|---|---|---|---|
| juju_spell/connections/manager.py:196 | `_connect` dials with `controller_config.username`, but the `Controller` dataclass (`juju_spell/config.py:288-306`) has `user` and no `username` | any controller configuration, for example one without a connection section: `_connect` raises AttributeError after any tunnel was spawned | dial as the configured `user` | high; not executed | Manager.DialAsWrittenRaises | Manager.DialFor |
| juju_spell/connections/network.py:85-90 | `is_connected` is False while `process.returncode` is None, which is exactly while the tunnel process runs, and True once it has exited | a tunnel just spawned by `connect` (returncode None) is reported not connected; one whose process exited with status 1 is reported connected | connected while the process runs: `process is not None and process.returncode is None` | medium; not executed | Network.FreshTunnelNotConnected | Network.SubprocessConnection.IsAlive |
| juju_spell/assignment/runner.py:60 | `run_serial` reads `config.connection`, but `Config` (`juju_spell/config.py:309-311`) has only `controllers` | any configuration with one controller: `run_serial` raises AttributeError before any command runs | take the port range from the configuration, or the default | high; not executed | Runner.RunSerialAsWrittenRaises | Runner.RunSerial |
| juju_spell/commands/list_models.py:24 | the refresh condition reads `file_cache.need_refresh`, but `FileCache` (`juju_spell/utils.py:100-166`) has `expired` and no `need_refresh` | `refresh` false and a cache file that loads: `execute` raises AttributeError | refetch when the loaded cache has expired | high; not executed | ListModels.RefetchAsWrittenRaises | ListModels.Refetch |
