# BioVision core, modelled in Dafny

BioVision drives a laboratory set-up. A camera, an Arduino (temperature and light), a
mass-flow controller and a syringe pump are the hardware endpoints, and image-analysis
algorithms run beside them. Runs are measurement routines: ordered slots, each with a runtime,
parameter settings, an optional start condition and an optional stop-and-wait interaction.
This project models the coordinating core of the system:

- the routine system: slots, settings, subroutines, condition evaluation and the setting factory;
- the measurement runner: the per-slot setup, the one-second ticks, stop-and-wait and the reset;
- the algorithm manager: its task FIFO, its mode to state-class table and its dispatch step;
- the state templates of the algorithms, the device handler, the camera, the pump and the Arduino;
- the shared stores: the in-memory key/value store with reference counts and tags, the
  resource manager, the progress logger, the event manager's listener registry and the
  configuration manager;
- the folder and name bookkeeping of the measurement, mixing-time and project creators and of
  the profile manager;
- the row construction of the data writer and the SQL text it generates;
- the runtime unit conversion of the measurement handler;
- the pump's clamps and bounded wait loops;
- the contour bookkeeping of the bubble and pellet sizers;
- the block grid of the mixing-time image processor and the mixing-time data record.

Objects whose methods update their fields are Dafny classes with those fields, and their methods
state the whole new state. Pure computations are functions with lemmas. Loops are methods
proved against those functions. Singletons (`__new__` / `__init__` with a class-level instance)
are small registry classes that return the shared object and state what a second construction
resets.

What the outside world supplies becomes a parameter:

- The wall clock is a `now` argument, and a time stamp is an opaque text.
- uuid4 becomes a per-object counter, so a fresh uid is the next number.
- Threads, events and thread pools become flags, task logs and counters, and a worker loop's
  pass becomes one atomic step.
- Device readings, SDK answers, directory listings and fitted image measures are inputs.

Where the code and its documentation disagree, the model follows the code:

- A slot's settings are not unique per parameter: `add_setting_to_slot` appends without a check.
- A slot's condition never ends it early, because `_condition_checker` raises NameError.
- `update_scorespace_target` does not clamp the score again.
- Failed lookups in the routine system raise TypeError, because they `raise` the logger's
  `None` result; they do not raise the intended ValueError.
- `algorithm_manager.py` imports `MixingTimerState`, which does not exist. The state table is
  modelled as written.
- The runner writes keys the key enum lacks (`CAMERA_MASSFLOW_INTERRUPT`), and it replaces its
  stop event with `True` when a slot has no folders. Both are modelled as the exceptions they raise.
- `create_slot_dirs` returns None; the folder names it picks are exposed by the model.
- The mixing-time writer's colour keys are "Red", "Green" and "Blue", as in its code.
- `create_dir` ends in `_create_registry`, which reads `Keys.MEASUREMENT_REGISTRY_SQL`; the key
  enum has no such member, so the call raises AttributeError after the slot folders are
  registered. `Creators.CreateDir` models that, and `Creators.CreateDirIntended` the corrected call.
- `add_global_results` writes into "entropy" and "variance" dicts that nothing creates, so on a
  record from the constructor it raises KeyError. The record's method models that.
- An empty folder name, with nothing to number, joins to the parent folder itself, which exists:
  `create_dir` and `create_file_structures` raise FileExistsError there, and the new-project
  dialog catches the failure and binds no subfolder.
- The bubble processor raises TypeError for a frame without contours (no hierarchy), and
  ValueError when there is no outer contour to stack.
- The one place where the model runs a corrected version instead of the code: the in-memory
  store's `add_data`. Its rebinding pass never frees the value a key leaves, and the store
  class frees it (see Findings and Left out).

## Model

| member | source | states |
|---|---|---|
| ProgressLog.ProgressLogger.AddScorespace | operator_mod/logger/progress_logger.py:38-46 | a new name with a positive target starts at score 0 with one creation stamp; a present name, an empty name or a target of 0 or less changes nothing; scores stay within their targets |
| ProgressLog.ProgressLogger.UpdateScorespaceTarget | operator_mod/logger/progress_logger.py:59-64 | only a known space with a positive target gets the new target; scores and stamps are untouched, so the score stays bounded only if it is within the new target |
| ProgressLog.ProgressLogger.DelScorespace | operator_mod/logger/progress_logger.py:77-87 | with purge every space, score and stamp list is gone; otherwise exactly the named space is removed |
| ProgressLog.ProgressLogger.ProgressSpace | operator_mod/logger/progress_logger.py:100-108 | a non-negative increment raises the score by that much, capped at the target, and one completion stamp is appended when the target is reached; a negative increment or unknown name changes nothing; targets never change |
| ProgressLog.ProgressLogger.SetSpaceValue | operator_mod/logger/progress_logger.py:121-129 | a non-negative value becomes the score clamped to the target, with no stamp; otherwise nothing changes |
| ProgressLog.ProgressLogger.SpaceProgress | operator_mod/logger/progress_logger.py:162-166 | a result exactly for a known space: its name, a positive target and a score within [0, target] |
| ProgressLog.ProgressLogger.TotalPercent | operator_mod/logger/progress_logger.py:152-160 | 0.0 without spaces, never negative, at most 100 while every score is within its target |
| ProgressLog.SumFacts | operator_mod/logger/progress_logger.py:152-160 | the summed targets are 0 exactly when there are no spaces, and summed scores within their targets never exceed the summed targets |
| ProgressLog.ProgressLogger.Metadata | operator_mod/logger/progress_logger.py:177-181 | a result exactly for a known space, holding at least its creation stamp |
| ProgressLog.ProgressLoggerRegistry.Get | operator_mod/logger/progress_logger.py:18-26 | one logger per name: an existing name gives back the same object unchanged, a new name a fresh empty logger |
| InMemoryStore.ValuesEqualReflexive | operator_mod/in_mem_storage/in_memory_data.py:187-222 | every value equals itself under the element-wise comparison |
| InMemoryStore.TrueEqualsOne | operator_mod/in_mem_storage/in_memory_data.py:216 | True, 1 and 1.0 compare equal to each other while staying distinct values; the string "1" does not equal 1 |
| InMemoryStore.TrueReusesStoredOne | operator_mod/in_mem_storage/in_memory_data.py:245-283 | adding True to a key holding a stored 1 reuses that entry: same uid, `get_data` still gives the integer 1, nothing new stored |
| InMemoryStore.FirstEqualFacts | operator_mod/in_mem_storage/in_memory_data.py:256-264 | the search finds the uid of one of the given keys, and finds nothing exactly when no key's value equals the new one |
| InMemoryStore.FirstEqualFound | operator_mod/in_mem_storage/in_memory_data.py:256-264 | what the search finds is stored and equal to the new value |
| InMemoryStore.FindEqual | operator_mod/in_mem_storage/in_memory_data.py:256-264 | the loop returns what the search specification finds |
| InMemoryStore.RebindOneFacts | operator_mod/in_mem_storage/in_memory_data.py:275-283 | the rebinding pass as written never frees a value and keeps the reference-count invariant |
| InMemoryStore.RebindLeaksOldValue | operator_mod/in_mem_storage/in_memory_data.py:276-281 | a value whose only key is rebound stays stored with a count of 0 and no key: an orphan |
| InMemoryStore.RebindOneFreeingFacts | operator_mod/in_mem_storage/in_memory_data.py:275-283 | with the free check after the move, the counts stay exact, surviving values are unchanged, the new uid is live and no orphan appears |
| InMemoryStore.RebindAllFacts | operator_mod/in_mem_storage/in_memory_data.py:275-283 | for the corrected rebinding pass (see Findings): every given key is bound to the uid, other keys keep their uids, surviving values are unchanged, the count invariant holds and no new orphan appears |
| InMemoryStore.RebindStep | operator_mod/in_mem_storage/in_memory_data.py:275-283 | one in-place pass of the loop computes one step of the corrected rebinding, which frees the old value after the move |
| InMemoryStore.RebindKeys | operator_mod/in_mem_storage/in_memory_data.py:275-283 | the loop computes the corrected rebinding, not the as-written one that keeps the old value |
| InMemoryStore.AddToSpaceFacts | operator_mod/in_mem_storage/in_memory_data.py:245-283 | for the add built on the corrected rebinding: an equal value found among the keys is reused, otherwise the value is stored under the fresh uid; every key then reads that value and the count invariant holds |
| InMemoryStore.AddToSpaceFrame | operator_mod/in_mem_storage/in_memory_data.py:245-283 | the corrected add changes no other stored value and no other key, and leaves no orphan behind (the code as written does leave one) |
| InMemoryStore.AddKeepsStateOk | operator_mod/in_mem_storage/in_memory_data.py:245-283 | the corrected add keeps the store invariant: default namespace present, exact counts, uids below the next fresh one, no orphan, no empty tag |
| InMemoryStore.AddThenGet | operator_mod/in_mem_storage/in_memory_data.py:245-298 | after adding, every given key reads back a value equal to the one added |
| InMemoryStore.DeleteOneFacts | operator_mod/in_mem_storage/in_memory_data.py:300-312 | deleting a key unbinds it, lowers its uid's count by one and frees the value exactly when the count reaches 0 |
| InMemoryStore.DeleteAllFacts | operator_mod/in_mem_storage/in_memory_data.py:300-312 | after deleting, none of the keys is bound, other keys keep their values, and the invariants hold |
| InMemoryStore.DeleteStep | operator_mod/in_mem_storage/in_memory_data.py:306-312 | one in-place pass of the loop computes one step of the deletion specification |
| InMemoryStore.DeleteKeys | operator_mod/in_mem_storage/in_memory_data.py:300-312 | the loop computes the deletion specification |
| InMemoryStore.AddTagsFacts | operator_mod/in_mem_storage/in_memory_data.py:270-273 | every listed tag holds the pair afterwards (missing tags are created); other tags are untouched |
| InMemoryStore.TagPairs | operator_mod/in_mem_storage/in_memory_data.py:270-273 | the loop computes the tagging specification |
| InMemoryStore.RemoveTagsFacts | operator_mod/in_mem_storage/in_memory_data.py:314-320 | each listed tag loses the pair, is deleted exactly when that empties it, and other tags are untouched |
| InMemoryStore.UntagPairs | operator_mod/in_mem_storage/in_memory_data.py:314-320 | the loop computes the untagging specification |
| InMemoryStore.InMemoryData.constructor | operator_mod/in_mem_storage/in_memory_data.py:179-180 | a new store has only the empty default namespace and no tags |
| InMemoryStore.InMemoryData.GetNamespace | operator_mod/in_mem_storage/in_memory_data.py:224-228 | a missing namespace is created empty; the result is the namespace's contents |
| InMemoryStore.InMemoryData.CreateNamespace | operator_mod/in_mem_storage/in_memory_data.py:230-234 | an existing name raises and changes nothing; a new one is added empty |
| InMemoryStore.InMemoryData.DeleteNamespace | operator_mod/in_mem_storage/in_memory_data.py:236-243 | the string "default" and a missing name raise; any other namespace is removed |
| InMemoryStore.InMemoryData.AddData | operator_mod/in_mem_storage/in_memory_data.py:245-283 | the namespace becomes the corrected add's result (the old value of a rebound key is freed), the pair is tagged, and the invariant is kept |
| InMemoryStore.InMemoryData.GetData | operator_mod/in_mem_storage/in_memory_data.py:285-298 | by uid the stored value, else the key's value, else None; only a missing namespace is created |
| InMemoryStore.InMemoryData.DeleteData | operator_mod/in_mem_storage/in_memory_data.py:300-312 | the namespace becomes the deletion specification's result; tags are untouched |
| InMemoryStore.InMemoryData.RemoveTagsOf | operator_mod/in_mem_storage/in_memory_data.py:314-320 | the tags become the untagging specification's result; data is untouched |
| InMemoryStore.InMemoryData.PurgeAllData | operator_mod/in_mem_storage/in_memory_data.py:337-342 | the namespace is emptied (created if missing); tags are left as they are |
| InMemoryStore.InMemoryData.CheckKey | operator_mod/in_mem_storage/in_memory_data.py:344-346 | true exactly when the key is bound in the namespace |
| InMemoryStore.StoreRegistry.Get | operator_mod/in_mem_storage/in_memory_data.py:175-181 | the first call builds the store; later calls return the same store untouched |
| Resources.Listed | model/utils/resource_manager.py:50-62 | None for an unknown space or when neither names nor paths are asked for; otherwise the space's names, paths or both, in order |
| Resources.StampFirst | model/utils/resource_manager.py:125-133 | only the first stamp of a name is kept; other names are untouched |
| Resources.StampAllFacts | model/utils/resource_manager.py:83-85 | every name gets a stamp, earlier stamps are kept, and the new ones are all the current time |
| Resources.RegisterThenList | model/utils/resource_manager.py:38-48 | after registering, the name is listed under the space with the new path and other names keep theirs |
| Resources.DeregisterThenGet | model/utils/resource_manager.py:68-76 | after deregistering, the name is gone from the space and other names keep their paths |
| Resources.CountIsNotSize | model/utils/resource_manager.py:116-123 | the counter counts register calls: one name registered twice counts 2 for one entry |
| Resources.ResourceManager.constructor | model/utils/resource_manager.py:27-29 | the "default" and "SaveLocations" spaces exist empty; counts, stamps and safe are empty |
| Resources.ResourceManager.RegisteredResources | model/utils/resource_manager.py:50-62 | the listing of the current register |
| Resources.ResourceManager.RegisterResource | model/utils/resource_manager.py:38-48 | the space is created if missing, the name maps to the path, the count rises by one, and the creation stamp is set once |
| Resources.ResourceManager.DeregisterResource | model/utils/resource_manager.py:68-76 | the name is removed if present, the count falls by one regardless, and the deletion stamp is set once |
| Resources.ResourceManager.DeleteResourceSpace | model/utils/resource_manager.py:78-89 | a known space loses one count and gets one deletion stamp per name, then goes; an unknown space only warns |
| Resources.CountDownAndStamp | model/utils/resource_manager.py:83-85 | the loop lowers the space's count by one per name and gives each name its first deletion stamp |
| Resources.ResourceManager.SaveResource | model/utils/resource_manager.py:91-93 | the safe maps the key to the item |
| Resources.ResourceManager.GetResource | model/utils/resource_manager.py:95-104 | the saved item or None; with delete the key is also removed |
| Resources.ResourceManager.DeleteResource | model/utils/resource_manager.py:106-109 | the key is removed from the safe if present |
| Resources.ResourceManagerRegistry.Get | model/utils/resource_manager.py:15-24 | later constructions return the same manager with every register kept |
| Routines.Evaluate | model/measurements/routine_system/routine_system.py:72-80 | greater, less and equal compare the value strictly or exactly against the target |
| Routines.EvaluateExactlyOne | model/measurements/routine_system/routine_system.py:72-78 | for a value and a target exactly one of the three condition types holds |
| Routines.CreateParameterSetting | model/measurements/routine_system/routine_system.py:173-183 | MFC, PUMP, CAMERA and TEMPERATURE build their dataclass; another parameter, an unknown keyword or a missing required one raises |
| Routines.CreateThenRead | model/measurements/routine_system/routine_system.py:173-183 | a built setting is of the requested kind, each keyword reads back, and defaults fill the rest |
| Routines.SlotIndexFacts | model/measurements/routine_system/routine_system.py:161-165 | the search finds the first slot with the uid, and nothing only when no slot has it |
| Routines.FindSlot | model/measurements/routine_system/routine_system.py:161-165 | the loop returns the first matching index, or the error when none matches |
| Routines.SettingIndexFacts | model/measurements/routine_system/routine_system.py:167-171 | the search finds the first setting of the parameter, and nothing only when none has it |
| Routines.FindSetting | model/measurements/routine_system/routine_system.py:167-171 | the loop returns the first matching index, or the error when none matches |
| Routines.WithoutSlotFacts | model/measurements/routine_system/routine_system.py:139 | deleting keeps exactly the other slots, adds none, and leaves no slot with the uid |
| Routines.WithoutSlotAppend | model/measurements/routine_system/routine_system.py:139 | deleting works slot by slot in order: the result over a concatenation is the two results concatenated, and one slot stays exactly when its uid differs |
| Routines.WithoutSettingFacts | model/measurements/routine_system/routine_system.py:144 | deleting keeps exactly the settings of other parameters |
| Routines.WithoutSettingAppend | model/measurements/routine_system/routine_system.py:144 | deleting works setting by setting in order: concatenation distributes, and one setting stays exactly when its parameter differs |
| Routines.WithoutSubroutineFacts | model/measurements/routine_system/routine_system.py:151 | deleting keeps exactly the subroutines not equal to the given one |
| Routines.WithoutSubroutineAppend | model/measurements/routine_system/routine_system.py:151 | deleting works subroutine by subroutine in order: concatenation distributes, and one subroutine stays exactly when it differs |
| Routines.SatisfiedNamesFacts | model/measurements/routine_system/routine_system.py:153-159 | the evaluation fails exactly when some slot has no condition; otherwise a name is listed exactly when a slot of that name satisfies its condition |
| Routines.SatisfiedNamesAppend | model/measurements/routine_system/routine_system.py:153-159 | the evaluation goes slot by slot in order: over a concatenation it fails with the first part's failure, else the second's, else lists the first part's names then the second's; one slot gives its failure, or its name exactly when satisfied |
| Routines.EvaluateConditions | model/measurements/routine_system/routine_system.py:153-159 | the loop computes the evaluation specification |
| Routines.SatisfiedPrefixErr | model/measurements/routine_system/routine_system.py:155-158 | once a prefix fails, the whole evaluation fails with the same error |
| Routines.RoutineSystem.constructor | model/measurements/routine_system/routine_system.py:115-117 | the name is set and the slot list is empty |
| Routines.RoutineSystem.Reinit | model/measurements/routine_system/routine_system.py:115-117 | running `__init__` again resets the slots |
| Routines.RoutineSystem.CreateSlot | model/measurements/routine_system/routine_system.py:121-124 | a new slot with a fresh uid and no settings, condition or interaction is appended last |
| Routines.RoutineSystem.AddSettingToSlot | model/measurements/routine_system/routine_system.py:126-129 | the setting is appended to the slot with the uid, without a uniqueness check; an unknown uid raises and changes nothing |
| Routines.RoutineSystem.AddSubroutineToSetting | model/measurements/routine_system/routine_system.py:131-136 | the subroutine is appended to the first setting of the parameter; an unknown uid or parameter raises |
| Routines.RoutineSystem.DeleteSlot | model/measurements/routine_system/routine_system.py:138-139 | every slot with the uid goes and the rest keep their order; an unknown uid is no error |
| Routines.RoutineSystem.DeleteSettingFromSlot | model/measurements/routine_system/routine_system.py:141-144 | every setting of the parameter goes from the slot; an unknown uid raises |
| Routines.RoutineSystem.DeleteSubroutineFromSetting | model/measurements/routine_system/routine_system.py:146-151 | the first setting of the parameter loses every equal subroutine; an unknown uid or parameter raises |
| Routines.RoutineRegistry.Get | model/measurements/routine_system/routine_system.py:108-117 | one system per name; getting an existing name returns it with its slots reset |
| Routines.RoutineRegistry.GetInstance | model/measurements/routine_system/routine_system.py:185-187 | the registered instance of the name, or None |
| Events.InsertSorted | operator_mod/eventbus/event_handler.py:131-132 | appending and re-sorting keeps the list in descending priority |
| Events.InsertPermutes | operator_mod/eventbus/event_handler.py:131-132 | the result holds exactly the old entries and the new one |
| Events.InsertStable | operator_mod/eventbus/event_handler.py:131-132 | within each priority the entries keep the order in which they were added |
| Events.InsertListener | operator_mod/eventbus/event_handler.py:131-132 | the insertion loop computes the append-and-sort |
| Events.WithoutMembers | operator_mod/eventbus/event_handler.py:140 | removal keeps exactly the other listeners' entries |
| Events.WithoutAppend | operator_mod/eventbus/event_handler.py:140 | removal works entry by entry in order: the result over a concatenation is the two results concatenated |
| Events.WithoutOne | operator_mod/eventbus/event_handler.py:140 | one entry stays exactly when it belongs to another listener |
| Events.WithoutSorted | operator_mod/eventbus/event_handler.py:140 | removal keeps the list sorted |
| Events.WithoutIdempotent | operator_mod/eventbus/event_handler.py:140 | removing twice is removing once |
| Events.EventManager.GetListeners | operator_mod/eventbus/event_handler.py:113-116 | the event's list, or [] for an unknown event; always sorted |
| Events.EventManager.RegisterEvent | operator_mod/eventbus/event_handler.py:118-123 | only a new event gets an empty list; existing lists are untouched |
| Events.EventManager.AddListener | operator_mod/eventbus/event_handler.py:128-132 | the entry is inserted by priority into the event's list (created if missing); other events are untouched |
| Events.EventManager.RemoveListener | operator_mod/eventbus/event_handler.py:136-140 | every entry of the listener goes from the event's list; an unknown event is left alone |
| Events.EventManager.constructor | operator_mod/eventbus/event_handler.py:88-90 | an empty registry |
| Events.EventManagerRegistry.Get | operator_mod/eventbus/event_handler.py:75-90 | later constructions return the same manager with its registry kept |
| Configuration.ParseDevice | model/data/configuration_manager.py:141 | a device exactly for a device's value, and its value is that text |
| Configuration.ParseSetting | model/data/configuration_manager.py:142-143 | a setting exactly for a setting's name, and its name is that text |
| Configuration.Deserialize | model/data/configuration_manager.py:140-147 | the load succeeds exactly when every device key and setting name parses |
| Configuration.DeserializeConfig | model/data/configuration_manager.py:141-145 | one device's entry loads exactly when every name in it is a setting's name |
| Configuration.ConfigRoundTrip | model/data/configuration_manager.py:115-118 | saving then loading one device's settings gives them back |
| Configuration.RoundTrip | model/data/configuration_manager.py:140-146 | saving then loading gives back the configurations |
| Configuration.ConfigBack | model/data/configuration_manager.py:115-118 | loading then saving one device's entry gives it back |
| Configuration.RoundTripBack | model/data/configuration_manager.py:140-146 | loading then saving gives back any file that loads |
| Configuration.ConfigurationManager.constructor | model/data/configuration_manager.py:48-59 | camera and MFC get their standard settings |
| Configuration.ConfigurationManager.CreateStandardSettings | model/data/configuration_manager.py:61-68 | only entries that are still unset get their standard settings |
| Configuration.ConfigurationManager.GetConfiguration | model/data/configuration_manager.py:79-80 | a device's settings, or None for a device not in the map |
| Configuration.ConfigurationManager.ChangeConfiguration | model/data/configuration_manager.py:93-106 | an existing setting of a known device changes to a number (bool included) and a save is recorded; anything else only warns and changes nothing |
| Configuration.ConfigurationManager.LoadConfiguration | model/data/configuration_manager.py:131-154 | loaded devices replace the current ones and the others stay; a missing file or a key that does not parse changes nothing |
| Configuration.ConfigurationRegistry.Get | model/data/configuration_manager.py:32-59 | the first construction builds camera and MFC standard settings; later ones return the same manager with its settings and saves unchanged |
| Dispatch.StateClassOf | controller/algorithms/algorithm_manager_class/algorithm_manager.py:14-28 | a state class exactly for a member of the States enum |
| Dispatch.StateClassOfInjective | controller/algorithms/algorithm_manager_class/algorithm_manager.py:14-28 | different kinds start different state classes |
| Dispatch.StartedCount | controller/algorithms/algorithm_manager_class/abc_class/state_machine_template.py:71-83 | at most one state per task, and exactly one per task of a known kind |
| Dispatch.StartedConcat | controller/algorithms/algorithm_manager_class/abc_class/state_machine_template.py:71-83 | dispatching two queues in turn starts the states of both, in order |
| Dispatch.StepThenRest | controller/algorithms/algorithm_manager_class/abc_class/state_machine_template.py:71-83 | dispatching task by task starts exactly the states of the whole queue, in FIFO order |
| Dispatch.UnseenFacts | controller/algorithms/algorithm_manager_class/states/state_baseclass.py:53-57 | the new paths are exactly the unseen ones, each once, in order |
| Dispatch.StackStaysDistinct | controller/algorithms/algorithm_manager_class/states/state_baseclass.py:53-57 | the image stack stays free of duplicates |
| Dispatch.StackPaths | controller/algorithms/algorithm_manager_class/states/state_baseclass.py:53-57 | the loop pushes exactly the unseen paths and records them as seen |
| Dispatch.AlgorithmState.constructor | controller/algorithms/algorithm_manager_class/states/state_baseclass.py:13-28 | empty stack and sets, deadline at creation plus runtime, not terminated |
| Dispatch.AlgorithmState.Run | controller/algorithms/algorithm_manager_class/states/state_baseclass.py:30-37 | one more run completes; a raising logic is only counted, never propagated |
| Dispatch.AlgorithmState.GetResources | controller/algorithms/algorithm_manager_class/states/state_baseclass.py:49-60 | the space's paths not yet stacked are appended in registry order; an unknown space changes nothing |
| Dispatch.AlgorithmState.Terminate | controller/algorithms/algorithm_manager_class/states/state_baseclass.py:62-63 | only the termination flag is set |
| Dispatch.AlgorithmManager.constructor | controller/algorithms/algorithm_manager_class/algorithm_manager.py:37-45 | empty queue, no current state, one open executor and one worker started |
| Dispatch.AlgorithmManager.Reinit | controller/algorithms/algorithm_manager_class/abc_class/state_machine_template.py:18-35 | everything is rebuilt and another worker is started |
| Dispatch.AlgorithmManager.AddTask | controller/algorithms/algorithm_manager_class/abc_class/state_machine_template.py:89-91 | the task is appended to the FIFO; every other field is unchanged |
| Dispatch.AlgorithmManager.DispatchStep | controller/algorithms/algorithm_manager_class/abc_class/state_machine_template.py:69-83 | after shutdown nothing happens; otherwise the oldest task leaves, and a known mode becomes the current state and is submitted |
| Dispatch.AlgorithmManager.Stop | controller/algorithms/algorithm_manager_class/abc_class/state_machine_template.py:93-106 | the current state is terminated, the queue is emptied and a fresh executor is installed; the current state stays with only its termination flag changed (stack, stacked and processed sets, run and failure counts kept); the workers, their cap and the flags stay |
| Dispatch.AlgorithmManager.Shutdown | controller/algorithms/algorithm_manager_class/abc_class/state_machine_template.py:40-64 | stop, drain, raise the shutdown flag and close the executor; the current state is terminated with its stack, sets and counts kept; the workers, their cap and the measurement flag are unchanged |
| Dispatch.AlgorithmManager.CurrentStateType | controller/algorithms/algorithm_manager_class/abc_class/state_machine_template.py:112-115 | the current state's class, or None before any dispatch |
| Dispatch.AlgorithmManagerRegistry.Get | controller/algorithms/algorithm_manager_class/algorithm_manager.py:30-33 | one shared manager, re-initialised on every construction |
| Dispatch.AlgorithmManagerRegistry.GetInstance | controller/algorithms/algorithm_manager_class/algorithm_manager.py:49-51 | the shared manager, or None before the first construction |
| DeviceStates.HealthSplit | controller/device_handler/device_handler_class/states/all_states.py:16-27 | every device is either listed as connected or re-checked, never both, in order |
| DeviceStates.HealthLoop | controller/device_handler/device_handler_class/states/all_states.py:16-27 | the loop computes the split of connected and re-checked devices |
| DeviceStates.HealthTasks | controller/device_handler/device_handler_class/states/all_states.py:24-25 | one health-check task with runtime 0 per device, in order |
| DeviceStates.HandlerState.RunHealthCheck | controller/device_handler/device_handler_class/states/all_states.py:12-30 | during a measurement nothing is checked; otherwise the connected devices are written and every other device gets one task; the handler's state is reset |
| DeviceStates.HandlerState.constructor | controller/device_handler/device_handler_class/states/state_baseclass.py:11-18 | bound to the handler, deadline at creation plus runtime, not terminated |
| DeviceStates.HandlerState.Run | controller/device_handler/device_handler_class/states/state_baseclass.py:20-27 | a raising logic is only logged; the handler's current state is always cleared |
| DeviceStates.HandlerState.Terminate | controller/device_handler/device_handler_class/states/state_baseclass.py:33-34 | only the termination flag is set |
| DeviceStates.CameraState.constructor | controller/device_handler/devices/camera_device/states/abc_state_baseclass.py:13-23 | bound to the camera, deadline at creation plus runtime, not terminated |
| DeviceStates.CameraState.Run | controller/device_handler/devices/camera_device/states/abc_state_baseclass.py:25-32 | a raising logic is only logged; the device is always freed |
| DeviceStates.CameraState.Terminate | controller/device_handler/devices/camera_device/states/abc_state_baseclass.py:38-39 | only the termination flag is set |
| DeviceStates.PumpState.constructor | controller/device_handler/devices/pump_device/states/abc_state_baseclass.py:13-20 | bound to the pump, deadline at creation plus runtime, not terminated |
| DeviceStates.PumpState.Run | controller/device_handler/devices/pump_device/states/abc_state_baseclass.py:22-29 | a raising logic is only logged; the device is always freed |
| DeviceStates.PumpState.Terminate | controller/device_handler/devices/pump_device/states/abc_state_baseclass.py:35-36 | only the termination flag is set |
| DeviceStates.ArduinoState.constructor | controller/device_handler/devices/arduino_device/states/abc_state_baseclass.py:14-30 | live recording and valve off, deadline at creation plus runtime, not terminated |
| DeviceStates.ArduinoState.Run | controller/device_handler/devices/arduino_device/states/abc_state_baseclass.py:32-39 | a raising logic is only logged; the device is always freed |
| DeviceStates.ArduinoState.Terminate | controller/device_handler/devices/arduino_device/states/abc_state_baseclass.py:74-75 | only the termination flag is set |
| DeviceStates.MatchResponse | controller/device_handler/devices/arduino_device/states/abc_state_baseclass.py:61-72 | without an expected value only "Y" matches; with one the line is converted to its type and compared, and a failed conversion is its error |
| DeviceStates.EchoMatches | controller/device_handler/devices/arduino_device/states/abc_state_baseclass.py:61-68 | the Arduino echoing the expected integer is a match |
| DeviceStates.OtherIntDoesNotMatch | controller/device_handler/devices/arduino_device/states/abc_state_baseclass.py:61-68 | the echo of one integer never matches another |
| DeviceStates.SilenceAsText | controller/device_handler/devices/arduino_device/states/abc_state_baseclass.py:61-72 | with no line, an expected text matches only if it is "None" |
| Runner.SettingsLoop | operator_mod/measurements/measurement_runner/measurement_runner.py:222-261 | the loop over a slot's settings computes the settings specification, stopping at the first raise |
| Runner.ApplySettingsErrSticks | operator_mod/measurements/measurement_runner/measurement_runner.py:222-253 | once a setting raises, later settings do not matter |
| Runner.MfcSettingRaises | operator_mod/measurements/measurement_runner/measurement_runner.py:293-297 | any slot with an MFC setting makes the setup raise |
| Runner.StepFlags | operator_mod/measurements/measurement_runner/measurement_runner.py:222-258 | one setting sets the camera or algorithm flag for its own parameter and queues a bubble-sizer task only for BUBBLE_SIZE |
| Runner.SettingsFlags | operator_mod/measurements/measurement_runner/measurement_runner.py:299-310 | after a setup that does not raise, each flag is set exactly when a setting of its parameter exists, and one bubble-sizer task with the slot's runtime is queued per BUBBLE_SIZE setting |
| Runner.TemperatureRule | operator_mod/measurements/measurement_runner/measurement_runner.py:225-234 | the temperature is pushed with live recording on for a temperature condition, off when no condition flag is set, not at all otherwise; a leftover condition flag without a condition raises |
| Runner.FolderWritesAll | operator_mod/measurements/measurement_runner/measurement_runner.py:197-208 | all folder keys are written exactly when every name is registered, then in order with their paths |
| Runner.SlotFoldersAll | operator_mod/measurements/measurement_runner/measurement_runner.py:197-208 | a slot's five folders are written exactly when its space lists its own name and the four subfolders |
| Runner.ConditionNeverReached | operator_mod/measurements/measurement_runner/measurement_runner.py:266-279 | the checker never reports the condition reached: a set-up only binds, a check raises NameError |
| Runner.MeasurementRunner.constructor | operator_mod/measurements/measurement_runner/measurement_runner.py:54-70 | a copy of the routine's slots, every flag off, the stop cleared |
| Runner.MeasurementRunner.PollStop | operator_mod/measurements/measurement_runner/measurement_runner.py:82 | the stop reads as set once the outside stop lands; the `True` replacement raises AttributeError |
| Runner.MeasurementRunner.PrepareSlot | operator_mod/measurements/measurement_runner/measurement_runner.py:211-264 | the slot's settings are applied as specified, and the deadline is one second past the runtime |
| Runner.MeasurementRunner.SetupSlotScenario | operator_mod/measurements/measurement_runner/measurement_runner.py:181-264 | with no slot left the stop is set; otherwise the first slot is popped and, for a non-empty name, a positive runtime and a new space, gets a progress space with its runtime as target, score 0 and one stamp (the logger is unchanged otherwise), before its folders are looked up |
| Runner.MeasurementRunner.ApplyFolders | operator_mod/measurements/measurement_runner/measurement_runner.py:199-264 | no folders replace the stop with `True`, a missing folder raises KeyError, all folders lead to the slot's preparation |
| Runner.MeasurementRunner.StartEndpoints | operator_mod/measurements/measurement_runner/measurement_runner.py:94-106 | each flagged endpoint gets its timed task and its start gate, then the slot is announced |
| Runner.MeasurementRunner.Ticks | operator_mod/measurements/measurement_runner/measurement_runner.py:109-123 | ticks run until the deadline or a stop; with a condition flag the first tick raises NameError |
| Runner.MeasurementRunner.Tick | operator_mod/measurements/measurement_runner/measurement_runner.py:117-123 | the slot's progress is set to the seconds elapsed since setup, then one second passes |
| Runner.MeasurementRunner.StopAndWait | operator_mod/measurements/measurement_runner/measurement_runner.py:135-141 | the runner announces the wait and polls once per second until the go-ahead or a stop; with neither it hangs |
| Runner.MeasurementRunner.ResetFlagsAndDevices | operator_mod/measurements/measurement_runner/measurement_runner.py:160-179 | the three endpoint flags and gates go off, light switching is written False, and the endpoints are stopped in order |
| Runner.MeasurementRunner.FinishSlot | operator_mod/measurements/measurement_runner/measurement_runner.py:146-147 | the slot's space is forced to its target; without a space the unpacking raises |
| Runner.MeasurementRunner.EndMeasurement | operator_mod/measurements/measurement_runner/measurement_runner.py:151-157 | reset, purge every progress space, then one MS_ENDED; with no slot ever set up it raises first |
| Runner.MeasurementRunner.RunSlot | operator_mod/measurements/measurement_runner/measurement_runner.py:82-149 | one pass sets up, runs and finishes a slot, or finds the stop set, or ends the thread |
| Runner.MeasurementRunner.EnterSlot | operator_mod/measurements/measurement_runner/measurement_runner.py:87-147 | after the setup, a replaced stop raises, a set stop resets and ends the run, and a cleared one plays the slot; the slot list is untouched |
| Runner.MeasurementRunner.PlaySlot | operator_mod/measurements/measurement_runner/measurement_runner.py:94-147 | start the endpoints, tick, then close the slot |
| Runner.MeasurementRunner.WaitIfFlagged | operator_mod/measurements/measurement_runner/measurement_runner.py:135-141 | only a stop-and-wait slot triggers MS_STOPPED_FOR_WAITING and waits; it hangs exactly when neither the acknowledgement nor the stop ever comes |
| Runner.MeasurementRunner.CloseSlot | operator_mod/measurements/measurement_runner/measurement_runner.py:125-147 | the condition flag is cleared, a stop ends the pass, a stop-and-wait slot waits, the endpoints are reset and the slot's space completed |
| Runner.MeasurementRunner.Run | operator_mod/measurements/measurement_runner/measurement_runner.py:80-157 | slot after slot until the stop; an ended run reports MS_ENDED once and, without an outside stop, has consumed every slot |
| Creators.SlotSpaceRegistered | model/measurements/measurement_creator.py:76-97 | afterwards the slot's space has the five entries, the folder entry being the slot folder unless a resource shares its name |
| Creators.RegisterSlot | model/measurements/measurement_creator.py:76-97 | five registrations in the slot's space; no other space changes |
| Creators.RegisterFive | model/measurements/measurement_creator.py:76-97 | the five registrations in order |
| Creators.RegisteredSlotFound | model/measurements/measurement_creator.py:61-97 | a registered slot is what the runner looks for: all five folder paths are found |
| Creators.RegisteredSlotFolderPath | model/measurements/measurement_creator.py:61-97 | the runner makes the registered slot folder its current slot folder |
| Creators.SlotDirNamesFresh | model/measurements/measurement_creator.py:61-73 | the slot folders are new and pairwise distinct, one per non-empty slot name |
| Creators.SlotNameLookup | model/measurements/measurement_creator.py:62-76 | the runner finds the slot under its own name exactly when sanitising left it unchanged and no number was added |
| Creators.SpacedSlotNameNotFound | model/measurements/measurement_creator.py:62-76 | a slot called "a b" is registered as "a_b", not the space the runner asks for |
| Creators.CreateSlotDir | model/measurements/measurement_creator.py:62-97 | one named slot gets a fresh sanitised folder registered as its own space |
| Creators.SlotDirStep | model/measurements/measurement_creator.py:48-97 | one slot name: an empty one adds nothing, any other gets the next free folder, registered, with every other space kept |
| Creators.CreateSlotDirs | model/measurements/measurement_creator.py:48-97 | every named slot gets a fresh folder registered as its own space; no other space changes |
| Creators.MakeMeasurementFolders | model/measurements/measurement_creator.py:29-42 | a non-empty name is sanitised and de-duplicated and stored as the measurement folder; an empty picked name is the existing measurement directory and raises FileExistsError with nothing registered, otherwise the slot folders are made inside the new folder |
| Creators.CreateDir | model/measurements/measurement_creator.py:22-46 | as written the call never returns normally: FileExistsError for the empty picked name, otherwise AttributeError for `Keys.MEASUREMENT_REGISTRY_SQL` after the slot folders are registered, which stay |
| Creators.RegistryFacts | model/measurements/measurement_creator.py:107-119 | the corrected register step writes nothing exactly when the register file is missing, else CREATE and INSERT with the name and start time as literals |
| Creators.CreateDirIntended | model/measurements/measurement_creator.py:22-46 | the corrected call: the same folders, then the register statements, and a normal return whenever the folder could be made |
| Creators.CreateFileStructures | model/measurements/mixing_time_creator.py:20-58 | the mixing-time folder and then its subfolders are bound in order; an empty picked name is the existing measurement directory, so FileExistsError is raised after the first binding |
| Creators.BindSubfolders | model/measurements/mixing_time_creator.py:48-58 | each key is bound to its subfolder inside the folder, in table order |
| Creators.MixingTimeWritesFacts | model/measurements/mixing_time_creator.py:27-58 | the folder is new and starts with "MT_" for a non-empty name; Calibration, Images and Data are bound inside it, except for an empty name with nothing to number, which stops after the folder |
| Creators.NewProjectFolders | model/projects/new_project.py:46-93 | nothing for a cancelled or empty input, else the project folder, then its three subfolders unless the sanitised name leaves the existing projects folder, whose makedirs error is caught |
| Creators.ProjectWritesFacts | model/projects/new_project.py:53-93 | the project path is bound exactly for a confirmed non-empty input; its name is valid and new, and Measurement, Config and UserData are bound inside it unless sanitising emptied the name and nothing is numbered |
| Naming.ReplaceFacts | model/measurements/measurement_creator.py:159-166 | the length and every valid character are kept, and no invalid character but '_' remains |
| Naming.ReplaceIdempotent | model/measurements/measurement_creator.py:159-166 | sanitising twice changes nothing more |
| Naming.UnderscoreIsInvalid | model/measurements/measurement_creator.py:159-166 | the '_' written in place is itself punctuation |
| Naming.MaxSuffixIsMax | model/measurements/measurement_creator.py:127-147 | no existing match has a larger suffix, and a positive one is attained |
| Naming.NumberedSuffix | model/measurements/measurement_creator.py:127-147 | "name (n)ext" reads back as suffix n |
| Naming.NextNameFresh | model/measurements/measurement_creator.py:127-147 | the name chosen is none of the existing names; an existing bare name forces a number of at least 2 |
| Naming.MaxSuffixLoop | model/measurements/measurement_creator.py:127-147 | the loop computes the largest suffix |
| Naming.GetNextDirectoryName | model/measurements/measurement_creator.py:127-147 | the base path, or the base path followed by " (m+1)", and never an existing name |
| Naming.DeleteFacts | model/projects/new_project.py:160-167 | no invalid character remains, the name never grows, and exactly the valid characters are kept |
| Naming.DeleteKeepsValid | model/projects/new_project.py:160-167 | a name with nothing invalid is left as it is |
| Naming.DeleteIdempotent | model/projects/new_project.py:160-167 | sanitising twice changes nothing more |
| Naming.DeleteShrinks | model/projects/new_project.py:160-167 | the name gets shorter exactly when it holds an invalid character |
| Naming.SplitExt | model/projects/profile_manager.py:85-87 | stem and extension concatenate to the name; the extension is empty or starts at the last '.' |
| Naming.LastDot | model/projects/profile_manager.py:85-87 | the position of the last '.', if there is one |
| Naming.SplitOffExt | model/projects/profile_manager.py:85-87 | a name with a character other than '.' splits off the extension given to it |
| Naming.GetNextFilename | model/projects/profile_manager.py:80-109 | the stem is numbered as "stem (m+1)ext" in the folder, and never an existing name |
| Naming.ListProfilesFacts | model/projects/profile_manager.py:43-52 | the listing is exactly the extension-split names of the ".pkl" files |
| Naming.ListProfilesAppend | model/projects/profile_manager.py:43-52 | the listing follows the files in order: concatenation distributes, and one file gives its stem exactly when it is a ".pkl" file, so each ".pkl" file gives one name in listing order |
| Naming.SavedNameListed | model/projects/profile_manager.py:43-52 | a profile whose name has a character other than '.' is listed under that name |
| Naming.LoadProfile | model/projects/profile_manager.py:54-66 | the empty list exactly when the profile's file is missing |
| Naming.DeleteProfile | model/projects/profile_manager.py:68-78 | the file is gone afterwards and every other file is kept |
| Naming.EmptyNameListedUnloadable | model/projects/profile_manager.py:58-62 | a profile saved under the empty name is listed as ".pkl" and that listed name loads nothing |
| Naming.StrippedNamesLoad | model/projects/profile_manager.py:44-51 | every name of the listing with ".pkl" cut off loads, the empty name included |
| Naming.SaveNeverOverwrites | model/projects/profile_manager.py:33-41 | saving adds a new file, never overwrites one, and keeps every other file |
| Naming.SaveThenLoad | model/projects/profile_manager.py:33-41 | a new name with no numbered copies loads back what was saved |
| Writer.FillCells | controller/algorithms/data_writer/data_writer.py:42-47 | the loop gives nine "Faulty Data" cells for a falsy entry, the first nine values otherwise, and raises for fewer |
| Writer.Zip | controller/algorithms/data_writer/data_writer.py:43-47 | the columns with their cells, in order |
| Writer.CollectFacts | controller/algorithms/data_writer/data_writer.py:40-52 | without a raise, one statement pair per entry, in order |
| Writer.EntryPairs | controller/algorithms/data_writer/data_writer.py:40-52 | one optional statement pair per entry |
| Writer.BubbleSizeWriter | controller/algorithms/data_writer/data_writer.py:32-55 | the pairs sent before the first raise, and a warning exactly when an entry raised |
| Writer.SendEntry | controller/algorithms/data_writer/data_writer.py:40-52 | one entry's pass: a raise fixes the writer's result as the pairs sent before it, otherwise the entry's pair is appended |
| Writer.WriteEntry | controller/algorithms/data_writer/data_writer.py:40-52 | one entry's statement pair, or none where it raises |
| Writer.BubbleWritesFacts | controller/algorithms/data_writer/data_writer.py:35-52 | without a warning, one pair per entry from "Image" plus its nine columns; a falsy entry holds "Faulty Data" throughout |
| Writer.BubbleRowShape | controller/algorithms/data_writer/data_writer.py:35-47 | a bubble row has "Image" then the nine columns in order |
| Writer.ShortEntryWarns | controller/algorithms/data_writer/data_writer.py:46-55 | an entry with fewer than nine values ends the writer with a warning |
| Writer.BlocksCellsCount | controller/algorithms/data_writer/data_writer.py:94-96 | three columns per block when every block has all three colours |
| Writer.MixingRowShape | controller/algorithms/data_writer/data_writer.py:73-96 | a mixing row starts with Image and Time, then one column per metadata element and three per block |
| Writer.LongMetadataWarns | controller/algorithms/data_writer/data_writer.py:91-104 | a fifth metadata element ends the writer with a warning |
| Writer.ArduinoRow | controller/algorithms/data_writer/data_writer.py:116-122 | a row exactly when there are three or more lines and `float()` accepts each of the first three, with the columns CurrentTemperature, TargetTemperature and Fanspeed in that order |
| Writer.ArduinoWritesFacts | controller/algorithms/data_writer/data_writer.py:106-130 | the writer warns exactly for fewer than three lines or a first-three line that is not a float; otherwise the INSERT into EnvironmentData names the three columns with the temperature, the target and the fan percentage as literals |
| Writer.ArduinoBadLineWarns | controller/algorithms/data_writer/data_writer.py:116-130 | a non-numeric line among the first three makes `float()` raise, which is only logged |
| Writer.FanspeedPercent | controller/algorithms/data_writer/data_writer.py:116 | a PWM value in [0, 255] gives a fan speed in [0, 100], full PWM exactly 100 |
| Writer.MfcRow | controller/algorithms/data_writer/data_writer.py:132-150 | the first item as Massflow exactly for a non-empty indexable reading; a plain number (TypeError) or an empty sequence (IndexError) is only logged |
| Sql.InferSqlType | model/utils/SQL/sql_manager.py:120-135 | a TypeError exactly for a value of an unsupported type |
| Sql.NoBooleanColumn | model/utils/SQL/sql_manager.py:122-127 | booleans get INT columns: the BOOLEAN branch is unreachable |
| Sql.SqlLiteral | model/utils/SQL/sql_manager.py:158 | strings in single quotes, None as NULL, anything else its text |
| Sql.QuoteIsNotEscaped | model/utils/SQL/sql_manager.py:158 | a quote inside a string is not escaped: the literal holds more than its two enclosing quotes |
| Sql.ColumnDefsFacts | model/utils/SQL/sql_manager.py:150-153 | definitions exist exactly when every value is supported, one "name TYPE" per column in order |
| Sql.ColumnDefinitions | model/utils/SQL/sql_manager.py:150-153 | the loop computes the column definitions |
| Sql.ColumnDefsErrSticks | model/utils/SQL/sql_manager.py:151-153 | once a value is unsupported, later columns do not matter |
| Sql.Literals | model/utils/SQL/sql_manager.py:158 | one literal per value, in order |
| Sql.GenerateSqlStatements | model/utils/SQL/sql_manager.py:137-161 | the method computes the statement pair or the first TypeError |
| Sql.GenerateFacts | model/utils/SQL/sql_manager.py:147-161 | statements exist exactly when every value has a type; CREATE and INSERT name the same columns in the same order, with one literal per column |
| TimeCalc.Trunc | operator_mod/measurements/measurement_handler.py:95 | for a non-negative value, the largest whole number not above it |
| TimeCalc.FactorTable | operator_mod/measurements/measurement_handler.py:86-90 | exactly the six pairs of distinct units, each factor 60 to the rank difference, the factor back its inverse |
| TimeCalc.ConvertFacts | operator_mod/measurements/measurement_handler.py:79-95 | an error exactly for unknown distinct units and a positive time; otherwise a non-negative whole number within one unit below the exact time |
| TimeCalc.ConvertMonotone | operator_mod/measurements/measurement_handler.py:82-95 | a longer time never converts to fewer target units |
| TimeCalc.ConvertRoundTrip | operator_mod/measurements/measurement_handler.py:86-95 | a whole number of a larger unit converted down and back is unchanged |
| TimeCalc.ConvertBackLoses | operator_mod/measurements/measurement_handler.py:86-95 | converting down and back up never gives more than the time converted |
| PumpDevice.PollFacts | controller/device_handler/devices/pump_device/pump.py:242-248 | a wait succeeds exactly at the first poll that finds its target, fails only past the limit or on the stop flag, and never polls past the limit |
| PumpDevice.PollCount | controller/device_handler/devices/pump_device/pump.py:222-226 | at most twice the limit plus one polls run |
| PumpDevice.LoadVolumeFacts | controller/device_handler/devices/pump_device/pump.py:130-134 | the volume loaded is the least of the request, the syringe volume and the space left |
| PumpDevice.UnloadArgsFacts | controller/device_handler/devices/pump_device/pump.py:143-147 | dispensing never exceeds the syringe's content or the maximum flow; an admissible request passes unchanged |
| PumpDevice.DispenseTarget | controller/device_handler/devices/pump_device/pump.py:263 | the level before less the volume, never below zero |
| PumpDevice.Pump.PollLoop | controller/device_handler/devices/pump_device/pump.py:242-250 | the loop returns the wait specification's answer and caches the last level read |
| PumpDevice.Pump.WaitLoadFluid | controller/device_handler/devices/pump_device/pump.py:232-256 | for a truthy volume and flow, polls until the level is within 5 of the target for at most volume/flow + 1 seconds, then clears the stop flag; otherwise None |
| PumpDevice.Pump.WaitDispenseFluid | controller/device_handler/devices/pump_device/pump.py:258-282 | as the load wait, towards the dispense target |
| PumpDevice.Pump.WaitCalibrationFinished | controller/device_handler/devices/pump_device/pump.py:215-230 | polls for at most 30 seconds and clears the stop flag on exit |
| PumpDevice.Pump.LoadFluid | controller/device_handler/devices/pump_device/pump.py:125-137 | the clamped volume is aspirated at the maximum flow and the load wait runs: polls and a cleared stop flag for a truthy volume and flow, else one warning with flag and level kept; nothing is returned |
| PumpDevice.Pump.UnloadFluid | controller/device_handler/devices/pump_device/pump.py:139-150 | the clamped flow and volume are dispensed and the dispense wait runs: polls and a cleared stop flag for a truthy volume and flow, else one warning with flag and level kept; nothing is returned |
| PumpDevice.Pump.StopPump | controller/device_handler/devices/pump_device/pump.py:160-167 | the stop flag is set even when the SDK call fails |
| PumpDevice.Pump.StartCalibration | controller/device_handler/devices/pump_device/pump.py:152-158 | `Calibrate` is issued; when the SDK raises, one error is logged and the stop flag and fill level are kept; otherwise the 30-second calibration wait runs, clearing the flag and caching the last polled level; the answer is discarded |
| BubbleProcessor.ScanShape | controller/algorithms/bubble_sizer/steps/processor.py:63-83 | the lists hold contour indices in increasing order; the marked ones are exactly the holes of isolated contours |
| BubbleProcessor.ScanKinds | controller/algorithms/bubble_sizer/steps/processor.py:63-83 | each contour of more than 15 points lands in the list of its kind unless it was marked |
| BubbleProcessor.ScanKindAt | controller/algorithms/bubble_sizer/steps/processor.py:63-83 | the same for one contour: its own turn decides its list and later turns leave that alone |
| BubbleProcessor.ScanDisjoint | controller/algorithms/bubble_sizer/steps/processor.py:63-85 | no contour is in two lists, and every listed contour has more than 15 points |
| BubbleProcessor.IsolatedHoleSkipped | controller/algorithms/bubble_sizer/steps/processor.py:64-75 | the hole of an isolated bubble is never listed |
| BubbleProcessor.FindContours | controller/algorithms/bubble_sizer/steps/processor.py:44-85 | a frame without contours has no hierarchy and raises TypeError; otherwise the loop computes the three lists of the scan |
| BubbleProcessor.KeptEllipsesFacts | controller/algorithms/bubble_sizer/steps/processor.py:238-245 | the kept ellipses are exactly the fits that pass the axis and ratio filter |
| BubbleProcessor.KeptEllipsesAppend | controller/algorithms/bubble_sizer/steps/processor.py:238-245 | the filter works fit by fit in order: concatenation distributes, and one fit is kept exactly when it passes |
| BubbleProcessor.NoCentersRaises | controller/algorithms/bubble_sizer/steps/processor.py:201-210 | an empty or ragged list of center points raises, and so do well-shaped centers with no outer contour to stack |
| BubbleProcessor.CircleFitterM2 | controller/algorithms/bubble_sizer/steps/processor.py:201-245 | a ValueError unless the centers are (N, 2), a ValueError from stacking when there is no outer contour, otherwise the filtered fits |
| BubbleProcessor.TrustedRebuiltFacts | controller/algorithms/bubble_sizer/steps/processor.py:316-321 | the trusted reconstructions come from the input, each trusted, missing none |
| BubbleProcessor.TrustedRebuiltAppend | controller/algorithms/bubble_sizer/steps/processor.py:316-321 | the score filter works in order: concatenation distributes, and one reconstruction stays exactly when its score is trusted |
| BubbleProcessor.EvaluateFacts | controller/algorithms/bubble_sizer/steps/processor.py:280-321 | one circle and one metadata entry per isolated bubble; ellipses and their metadata from the trusted reconstructions, index by index |
| BubbleProcessor.Evaluater | controller/algorithms/bubble_sizer/steps/processor.py:270-324 | the loops compute the evaluation |
| PelletProcessing.KeepIndicesFacts | controller/algorithms/pellet_sizer/steps/processing.py:36-59 | the kept positions are increasing and are exactly those whose element passes |
| PelletProcessing.KeepFacts | controller/algorithms/pellet_sizer/steps/processing.py:36-59 | the kept elements are an in-order subsequence holding every element that passes |
| PelletProcessing.NoChildFacts | controller/algorithms/pellet_sizer/steps/processing.py:28 | exactly the childless contours are kept, in order |
| PelletProcessing.FilterFacts | controller/algorithms/pellet_sizer/steps/processing.py:41-57 | the filter fails exactly at a large contour with a flat box; otherwise it keeps exactly the passing contours |
| PelletProcessing.FilterKeeps | controller/algorithms/pellet_sizer/steps/processing.py:41-57 | a kept contour has more than 50 points, area at least 1000, aspect at most 2 and extent at least 0.2 |
| PelletProcessing.FilterLoop | controller/algorithms/pellet_sizer/steps/processing.py:32-61 | the loop computes the filter |
| PelletProcessing.FilterErrSticks | controller/algorithms/pellet_sizer/steps/processing.py:49 | once the filter raised, later contours do not matter |
| PelletProcessing.Process | controller/algorithms/pellet_sizer/steps/processing.py:11-19 | the childless contours, filtered |
| PelletProcessing.ParentContourDropped | controller/algorithms/pellet_sizer/steps/processing.py:11-28 | a contour with a child never comes out, however well it passes |
| MixingGrid.BlockSize | controller/algorithms/mixing_time/steps/imageprocessor.py:36-39 | at least 1 |
| MixingGrid.BlockSizeBounds | controller/algorithms/mixing_time/steps/imageprocessor.py:36-39 | for a granularity in (0, 1] no block is larger than the shorter side |
| MixingGrid.BlocksCeil | controller/algorithms/mixing_time/steps/imageprocessor.py:42-43 | the block count is the ceiling of side over size |
| MixingGrid.GridRow | controller/algorithms/mixing_time/steps/imageprocessor.py:51-61 | one block per column, left to right |
| MixingGrid.GridRowsLen | controller/algorithms/mixing_time/steps/imageprocessor.py:51-61 | `rows` grid rows hold `rows`·nx blocks |
| MixingGrid.GridRowsAt | controller/algorithms/mixing_time/steps/imageprocessor.py:51-61 | row-major order: block y·nx + x is the one in row y, column x |
| MixingGrid.GridAt | controller/algorithms/mixing_time/steps/imageprocessor.py:51-61 | block k is the one in row k / nx and column k % nx |
| MixingGrid.GridInside | controller/algorithms/mixing_time/steps/imageprocessor.py:51-61 | every block lies inside the image and is not empty; there are nx·ny of them |
| MixingGrid.GridCell | controller/algorithms/mixing_time/steps/imageprocessor.py:51-61 | the block in row y and column x is block y·nx + x |
| MixingGrid.GridCovers | controller/algorithms/mixing_time/steps/imageprocessor.py:51-61 | every pixel lies in exactly one block |
| MixingGrid.PixelBlock | controller/algorithms/mixing_time/steps/imageprocessor.py:51-61 | a pixel lies in the block of its row and column cell and in no other |
| MixingGrid.RowCol | controller/algorithms/mixing_time/steps/imageprocessor.py:51-61 | index k of an nx by ny grid sits in row k / nx and column k % nx |
| MixingGrid.ImageProcessor.constructor | controller/algorithms/mixing_time/steps/imageprocessor.py:6-10 | the image's size and data type, with empty results |
| MixingGrid.ImageProcessor.MakeRow | controller/algorithms/mixing_time/steps/imageprocessor.py:52-61 | the loop builds one grid row |
| MixingGrid.ImageProcessor.ImageGrid | controller/algorithms/mixing_time/steps/imageprocessor.py:28-61 | the metadata entry, then the blocks row by row |
| MixingGrid.ImageProcessor.CalculateHists | controller/algorithms/mixing_time/steps/imageprocessor.py:63-82 | a ValueError for an unsupported data type, else three histograms per block under its index |
| MixingGrid.ImageProcessor.Process | controller/algorithms/mixing_time/steps/imageprocessor.py:12-26 | on a supported image the result holds the metadata and one histogram triple per block |
| MixingData.FreshAddGlobalRaises | model/measurements/mixing_time_datastruct.py:16-22 | on a fresh record the call raises KeyError for "entropy", leaving only the image's empty entry |
| MixingData.AddGlobalFacts | model/measurements/mixing_time_datastruct.py:16-22 | the call succeeds exactly when both named dicts exist; other keys are unchanged |
| MixingData.RecordGlobalFacts | model/measurements/mixing_time_datastruct.py:16-22 | the corrected call never fails: the image's dict holds the two values and other images are unchanged |
| MixingData.TileAtAfterReplace | model/measurements/mixing_time_datastruct.py:33-49 | after a replace, the image reads only the new tiles and other images read as before |
| MixingData.DataMixingTime.constructor | model/measurements/mixing_time_datastruct.py:7-14 | empty dicts, tile size, rows and columns None |
| MixingData.NoEntropyStaysMissing | model/measurements/mixing_time_datastruct.py:16-22 | without an "entropy" dict every call raises KeyError for it and creates none |
| MixingData.DataMixingTime.AddGlobalResults | model/measurements/mixing_time_datastruct.py:16-22 | the global dict becomes what the as-written call leaves, KeyError included; a record from the constructor never gains an "entropy" dict, so every call raises |
| MixingData.DataMixingTime.AddTile | model/measurements/mixing_time_datastruct.py:33-36 | the image's whole entry becomes the new value |
| MixingData.DataMixingTime.AddLocalMetadata | model/measurements/mixing_time_datastruct.py:51-55 | exactly the three metadata fields change |

## Left out

- Threads, events, locks and thread pools: each worker pass and each locked method is one atomic step, so interleavings are not modelled.
- `get_data_by_tag` in the in-memory store: it takes the store's non-reentrant lock and then calls `get_data`, which takes it again, so it deadlocks.
- Deep copies in the in-memory store: Dafny values are immutable, so a copy equals its source. Numpy arrays and self-referencing values are not among the modelled values.
- `list_namespaces`, `generate_enums_file` and `_remove_uid_from_tags` of the store: listing and file generation only, or unused.
- `get_metadata()` without a name: it returns the whole stamp dict, which is the logger's field itself.
- The resource manager's `_close` and `get_resource_spaces`: persistence to disk, and a plain read of the register's keys.
- `trigger_event` and `_shutdown` of the event manager: they call listeners on an executor or the GUI thread.
- Files, JSON, pickle and SQL execution: file contents are inputs, and writes are recorded as the values or statements produced.
- The mixing-time runner and the view code: not part of the modelled core.
- The Arduino's serial protocol and the pump's vendor SDK: readings are inputs and commands are recorded; the timeout loop of `_wait_for_response` is modelled by its first line read.
- Image numerics (contour finding, ellipse fitting, histogram counting): their results are inputs, and a histogram is named by its block, channel and bin count.
- TimeCalc.ConvertFacts: times are exact reals, so binary floating-point rounding of the factors is not modelled.
- TimeCalc.ConvertRoundTrip: holds for exact reals; with binary floats a converted time may not come back exactly.
- ValuesEqualReflexive: a stored float is an exact real, so NaN, which Python does not find equal to itself, is not modelled; a NaN added twice is stored twice by the code, once by the model.
- RebindAllFacts: proved for the corrected rebinding pass that frees the old value; the code as written keeps it as an orphan (Findings).
- RebindStep: steps the corrected pass, not the code of lines 275-283, which never frees.
- RebindKeys: computes the corrected rebinding; the as-written pass is `RebindOne`, with `RebindLeaksOldValue`.
- AddToSpaceFacts: states the add built on the corrected pass; with the code as written the rebound key's old value stays stored with count 0.
- AddToSpaceFrame: "no orphan" holds only for the corrected add; the code as written leaves the old value orphaned.
- AddKeepsStateOk: the invariant (no orphan included) is proved for the corrected add; the code as written breaks its no-orphan part.
- AddData: the store class uses the corrected add, so `get_data` by the old uid of a rebound key gives None where the code still returns the old value.
- `create_configs` of the new-project dialog: it writes a JSON file and the register database (file contents), and its last line reads the missing `Keys.MEASUREMENT_REGISTRY_SQL`; `new_project` catches that AttributeError.
- `_create_files` of the measurement creator: the per-slot metadata database is file content.
- CreateDirIntended: the register path is read from the store under a key that does not exist, so whether the register file exists is an input.
- Runner.MeasurementRunner.Run: wall-clock seconds are simulated ticks, and the outside stop and the operator's go-ahead are given as the tick at which they arrive.
- `float()` on the Arduino's reply lines is an input to the writer (`parse`), and `str()` of a float is an input too (`floatText`).
- Routines.Slot: a slot's runtime is a whole number of seconds where `create_slot` takes a float, so a fractional runtime (a progress target of 2.5, a deadline 3.5 s after setup) is not modelled; the runner's clock ticks in whole seconds for the same reason.
- CreateSlot: returns the new slot as a value; the source returns the list element itself, so a caller's later edit of the returned object would change the routine. The model changes slots only through the uid-based operations.
- MatchResponse: `int()` is modelled for optional sign and ASCII digits; Python also accepts `_` separators ("1_0") and other Unicode digits, which the model reports as no match.
- ParseSetting: the name is looked up among the members only; `hasattr`/`getattr` on the Enum class also resolves other attributes such as "name" or "mro", which the model rejects.
- PumpDevice.Pump.UnloadFluid: `get_fill_level()` is called twice, for the test and for the clamp; the model takes one reading for both, so a level that changes between the two calls is not modelled.
- Naming.SuffixOf: the pattern's `$` in Python also matches just before a final newline, and `\d` matches other Unicode digits; the model matches only names that end exactly with the extension and ASCII digits.
- Wall-clock stamps are opaque texts; uuid4 is a counter, so fresh uids are the next number.

## Findings

| source | as written | input that shows it | evidently intended | confidence | as-written member | corrected member |
|---|---|---|---|---|---|---|
| operator_mod/in_mem_storage/in_memory_data.py:276-281 | the old uid's free check runs while the key still points at it, so it never frees | space {a→u0 = 1, b→u1 = 2}, then `add_data(["a"], 2)` | the old value is freed once no key refers to it | high, not executed | InMemoryStore.RebindLeaksOldValue | InMemoryStore.RebindOneFreeingFacts |
| model/measurements/mixing_time_datastruct.py:16-22 | writes into `global_data["entropy"]` and `["variance"]`, which nothing creates | a fresh record, `add_global_results(0, 1.0, 2.0)` | the two values recorded under the image's own entry | high, not executed | MixingData.FreshAddGlobalRaises | MixingData.RecordGlobalFacts |
| model/measurements/measurement_creator.py:107-110 | `_create_registry` reads `Keys.MEASUREMENT_REGISTRY_SQL`, which the key enum does not define | any slot folders with a valid name, e.g. `create_dir("run", routines)` | the measurement entered in the project's register, and a normal return | high, not executed | Creators.CreateDir | Creators.CreateDirIntended |
| model/projects/profile_manager.py:51 | `splitext(".pkl")` sees no extension, so the profile saved under the empty name is listed as ".pkl" | save a profile named "", then load the listed name | listed names load back | medium, not executed | Naming.EmptyNameListedUnloadable | Naming.StrippedNamesLoad |
