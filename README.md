# hass-momentary in Dafny

A model of the core of the hass-momentary Home Assistant integration. The
integration provides momentary switches: commanded into a timed state, a
switch goes back to its idle state after a fixed time. The model covers five
parts of the integration.

- **The blended configuration** (`cfg.py`):
  - `BlendedCfg.async_load` reconciles the user's switch list with the identity
    document. That document is the shared JSON file that maps each
    user-chosen device and switch name to the ids Home Assistant knows it by.
    Known names keep their ids; new names get a freshly drawn uuid. Unclaimed
    devices become orphans. The document is rewritten only when something
    changed.
  - `UpgradeCfg` imports the original platform-style switches, keeping every
    switch's unique id and entity id.
  - The naming helpers implement the `!` / `+` sigil rules.
  - `_fix_value` turns durations into numbers of seconds.
  - `_save_meta_data` and `_delete_meta_data` replace or remove one group's
    slice of the identity document.
- **The older database** (`db.py`): `Db.load` does the same reconciliation
  over a single file with an orphan list, `Db.import_switch` imports one
  original switch, and the dirty flag follows the `save_meta_data` rule.
- **The switch entity** (`switch.py`): `MomentarySwitch` covers naming,
  polarity from the mode, the initial state, and the timed and cancelling
  transitions.
- **The duration helpers** (`helpers.py`): `timdelta_to_duration` and
  `duration_to_timedelta`.
- **The platform switch de-duplication** at the start of `async_process_yaml`
  (`helpers.py`).

Modules and files:

| file | module | models |
|---|---|---|
| values.dfy | Values | Python values: dictionaries, `timedelta`, the shared constants |
| naming.dfy | Naming | the naming helpers of `cfg.py` and `db.py`, and the entity naming of `switch.py` |
| metastore.dfy | MetaStore | the JSON/YAML files and the group slices of the identity document |
| blended.dfy | Blended | `BlendedCfg`: the reconciliation as functions, and a class whose methods are proved to follow them |
| blended_properties.dfy | BlendedProperties | what `async_load` guarantees |
| upgrade.dfy | Upgrade | `_fix_value` and `UpgradeCfg` |
| db.dfy | Database | `Db`: the reconciliation as functions and as a class |
| db_properties.dfy | DatabaseProperties | what `Db.load` guarantees |
| switch.dfy | Momentary | `MomentarySwitch` |
| duration.dfy | Durations | the two duration helpers |
| platform_switches.dfy | PlatformSwitches | the de-duplication loop of `async_process_yaml` |

The code that does things step by step is modelled imperatively:

- `BlendedCfg`, `UpgradeCfg`, `Db` and `MomentarySwitch` are classes whose
  methods update their fields.
- The reconciliation loops are `while` loops. Each is proved to end in the
  state a pure fold (`EntriesFold`, `DbFold`) computes, and the properties are
  proved about the fold.
- Files are objects (`JsonFile`): their contents are None when the file is
  missing or unreadable, and a write can fail.
- `slugify`, `uuid.uuid4()` (the n-th draw), Home Assistant's `DB_SCHEMA`,
  `cv.time_period` and `float()` on text are passed in as functions.
- Home Assistant's clock and `track_point_in_time` become an integer clock and
  a list of pending deadlines.

What the code does where a reader might expect otherwise (the model follows the code):

- Pressing a momentary switch again while it is timed schedules a second
  revert and cancels nothing.
- The switch entity does not restore its state on restart, and it never
  sets the `toggle_until` attribute that const.py names.
- `delete_group` raises when the group is absent; it is not idempotent.
- The settings keys of the switch entity are `on_for` and `allow_off`. Its
  `toggle_for` and `cancellable` keys are accepted but not read.

## Model

| member | source | states |
|---|---|---|
| Naming.SwitchEntityNaming | custom_components/momentary/switch.py:68-74 | a name with a leading `!` is shown without it and gets entity id `switch.<slug>`; any other name is shown as written and gets `switch.momentary_<slug>`; the unique id is the slug of the shown name |
| Naming.MigrationKeepsEntityId | custom_components/momentary/cfg.py:168-204 | for a name that is not `!+…`, the blended entity id of the rewritten name equals the original entity id, so migration keeps entity ids |
| Naming.MigrationDeviceIdIsOriginalUniqueId | custom_components/momentary/cfg.py:161-208 | the device id of a rewritten name is the switch's original unique id |
| Naming.MigrationDisplayName | custom_components/momentary/cfg.py:175-194 | after rewriting, the shown name is the configured name without `!`; the older importer's name differs only by the `momentary ` prefix |
| Naming.ImportMatchesPlatformEntity | custom_components/momentary/cfg.py:161-172 | the original unique id and entity id the importers compute are those the platform-era entity gave itself |
| Naming.BlendedSigil | custom_components/momentary/cfg.py:191-204 | a `+` name is shown without its sigil and gets a namespaced entity id; any other name is shown as written with a plain `platform.<slug>` id |
| MetaStore.JsonFile.Write | custom_components/momentary/cfg.py:50-57 | a write replaces the whole document or, when it fails, changes nothing |
| MetaStore.SavedDoc | custom_components/momentary/cfg.py:95-121 | the saved document carries version 1, the group's new slices, every other group's slices unchanged, and the same group keys plus this group |
| MetaStore.DeletedDoc | custom_components/momentary/cfg.py:124-146 | deletion succeeds exactly when the group is in both partitions; then the group is gone from both, the group keys of both partitions lose exactly this group, and every other group is untouched |
| MetaStore.LoadMetaData | custom_components/momentary/cfg.py:83-92 | yields the group's slice of both partitions, empty when absent or the file is unreadable |
| MetaStore.SaveMetaData | custom_components/momentary/cfg.py:95-121 | re-reads the file and writes `SavedDoc` when the file is writable |
| MetaStore.DeleteMetaData | custom_components/momentary/cfg.py:124-146 | fails (KeyError) exactly when `DeletedDoc` does; writes it otherwise |
| MetaStore.ValuesInOrder | custom_components/momentary/cfg.py:154-158 | the user list holds the switches' values in insertion order, one per key |
| MetaStore.UserList | custom_components/momentary/cfg.py:154-158 | `list(switches.values())`, used by both `UpgradeCfg` and `Db`: every stored switch exactly once, in insertion order |
| Blended.ClaimDevice | custom_components/momentary/cfg.py:241-258 | a known device keeps its id; an unknown one gets `<uuid>.momentary` and marks the load changed; the device is put in use under that id with its shown name |
| Blended.ClaimSwitch | custom_components/momentary/cfg.py:266-275 | a switch with a persisted unique id keeps its entry; otherwise it gets a new uuid-based unique id and an entity id derived from its name, and the load is marked changed |
| Blended.BlendedCfg.constructor | custom_components/momentary/cfg.py:223-236 | a new configuration object has every table empty and the dirty flag clear |
| Blended.BlendedCfg.ClaimDeviceOf | custom_components/momentary/cfg.py:241-258 | the method leaves the object in the state `ClaimDevice` computes |
| Blended.BlendedCfg.ParseSwitchOf | custom_components/momentary/cfg.py:261-297 | one switch: the new state is `SwitchStep`'s, and raising matches its error case |
| Blended.BlendedCfg.ParseSwitchesOf | custom_components/momentary/cfg.py:238-297 | `_parse_switches` ends in the state `ParseSwitches` computes, and raises exactly when that fails |
| Blended.BlendedCfg.ParseEntriesOf | custom_components/momentary/cfg.py:326-336 | the loop over the user's list ends in `EntriesFold`'s state, and raises exactly when that fails |
| Blended.BlendedCfg.CollectOrphans | custom_components/momentary/cfg.py:338-348 | raises exactly when an unclaimed device has no id; otherwise the orphans are exactly the unclaimed devices, keyed by id, and the load is marked changed when there is one |
| Blended.BlendedCfg.AsyncLoad | custom_components/momentary/cfg.py:299-363 | an exception empties every published table and keeps the dirty flag; a completed load publishes the fold's tables and orphans, clears the flag, and writes the group's slice exactly when a uuid was drawn, a device was left unclaimed, or the flag was still set by an earlier failed load (the flag is never reset when a load starts) |
| Blended.BlendedCfg.DeleteGroup | custom_components/momentary/cfg.py:381-383 | `delete_group` is `_delete_meta_data` |
| BlendedProperties.SwitchesFoldOk | custom_components/momentary/cfg.py:261-297 | one device's switches go through exactly when every switch has a textual name |
| BlendedProperties.RaiseKeepsEarlierDraws | custom_components/momentary/cfg.py:261-275 | when a device's loop raises at an element without a name (a non-mapping element included), the uuids drawn and the flag set by the switches before it are kept |
| BlendedProperties.NewSwitchThenNonMapping | custom_components/momentary/cfg.py:261-275 | a new switch followed by a non-mapping element raises with one uuid drawn and the dirty flag set |
| BlendedProperties.LoadRaisesIffIllFormed | custom_components/momentary/cfg.py:238-336 | a load gets through the list exactly when every switch and device has a textual name and every device key holds a list |
| BlendedProperties.SwitchStepFrame | custom_components/momentary/cfg.py:261-297 | one switch leaves the device tables alone and sets the dirty flag exactly when it draws a uuid |
| BlendedProperties.SwitchStepTables | custom_components/momentary/cfg.py:261-297 | one switch keeps the entries in use complete and, without half-filled entries, puts its name in use |
| BlendedProperties.SwitchesFrame | custom_components/momentary/cfg.py:261-297 | one device's switches leave the device tables alone, set the flag exactly when a uuid is drawn, and move only the entries of their names |
| BlendedProperties.SwitchesTables | custom_components/momentary/cfg.py:261-297 | one device's switches keep the entries in use complete and, without half-filled entries, put exactly their names in use |
| BlendedProperties.EntryOkParts | custom_components/momentary/cfg.py:326-336 | an entry that goes through claims its device, then its switches; a malformed entry changes nothing |
| BlendedProperties.EntryFrame | custom_components/momentary/cfg.py:238-336 | one entry sets the flag exactly when it draws a uuid and leaves other names' switch entries alone |
| BlendedProperties.EntryDevices | custom_components/momentary/cfg.py:241-258 | one entry keeps every known device's entry, touches no other device, and puts exactly its own device in use |
| BlendedProperties.EntryTables | custom_components/momentary/cfg.py:261-297 | one entry keeps the entries in use complete and puts its switch names in use |
| BlendedProperties.EntriesFrame | custom_components/momentary/cfg.py:241-275 | over the list, the flag ends up set exactly when it was set or a uuid was drawn, and names not in the list keep their switch entries |
| BlendedProperties.EntriesDevices | custom_components/momentary/cfg.py:241-258 | devices with a persisted id keep it, exactly the list's devices end up in use, and devices in use agree with the working copy |
| BlendedProperties.EntriesTables | custom_components/momentary/cfg.py:261-297 | entries in use stay complete and, without half-filled entries, exactly the list's switch names end up in use |
| BlendedProperties.SwitchStepResolves | custom_components/momentary/cfg.py:266-297 | a new switch is published under the complete entry it now has in use, or skipped |
| BlendedProperties.SwitchesUseFinalIds | custom_components/momentary/cfg.py:261-297 | a device's published switches are the reference resolution from the final id tables |
| BlendedProperties.EntriesUseFinalIds | custom_components/momentary/cfg.py:318-336 | with no repeated switch name, the published devices and switches are the reference resolution of the list from the saved id tables |
| BlendedProperties.KnownSwitchStep | custom_components/momentary/cfg.py:266-297 | a switch with a complete persisted entry draws no uuid and moves its entry into use unchanged |
| BlendedProperties.KnownSwitchesMintNothing | custom_components/momentary/cfg.py:266-297 | switches whose names all have complete entries draw no uuid, leave the flag alone and move their entries into use unchanged |
| BlendedProperties.KnownEntryStep | custom_components/momentary/cfg.py:241-297 | an entry whose device and switches are all known draws no uuid |
| BlendedProperties.KnownEntriesMintNothing | custom_components/momentary/cfg.py:238-336 | a list whose devices and switches all have complete entries draws no uuid and leaves the flag alone |
| BlendedProperties.ReloadFromTables | custom_components/momentary/cfg.py:318-336 | a load started from the tables a previous load of the same list ended with reproduces its results without drawing a uuid |
| BlendedProperties.ReloadIsIdempotent | custom_components/momentary/cfg.py:318-352 | loading the same list again from the saved document draws no uuid, finds no orphan, writes nothing and publishes the same devices, switches and id tables |
| BlendedProperties.DeviceIdSettled | custom_components/momentary/cfg.py:241-258 | a listed device with a persisted id is in use under it; one without is in use under a uuid drawn during this load, and the load is marked changed |
| BlendedProperties.SwitchStepSettles | custom_components/momentary/cfg.py:266-297 | one switch: complete entries are kept, half-filled ones skipped, unknown names get a drawn uuid |
| BlendedProperties.SwitchesSettle | custom_components/momentary/cfg.py:266-297 | the same as SwitchIdSettled, over one device's switches |
| BlendedProperties.SwitchIdSettled | custom_components/momentary/cfg.py:266-297 | a listed switch with both ids is in use under them; one with a unique id but no entity id is skipped and stays unclaimed; one without a unique id gets a drawn uuid and the entity id from its name |
| Upgrade.FixValue | custom_components/momentary/cfg.py:29-34 | as written: other values pass unchanged; a timedelta becomes a number of seconds in [1, 86400) |
| Upgrade.FixValueWhole | custom_components/momentary/cfg.py:29-34 | as intended: other values pass unchanged; a timedelta becomes its whole number of seconds, at least 1 |
| Upgrade.FixValueDropsDays | custom_components/momentary/cfg.py:29-34 | a one-day timedelta is stored as 1 as written and as 86400 as intended |
| Upgrade.FixValueWholeKeepsDuration | custom_components/momentary/cfg.py:29-34 | the intended conversion keeps a duration of at least a second to the second, and agrees with the code as written below one day |
| Upgrade.ImportedSwitch | custom_components/momentary/cfg.py:415-429 | the entry `import_switch` stores, as written: the original's keys without `platform`, the rewritten name, every other non-duration value kept, and every duration a whole number of seconds in [1, 86400), equal to the whole seconds when the duration is shorter than a day |
| Upgrade.ImportedSwitchWhole | custom_components/momentary/cfg.py:415-429 | the import as intended: the same keys, name and other values, and every duration of at least a second stored as its whole seconds |
| Upgrade.ImportDropsDays | custom_components/momentary/cfg.py:427-429 | a setting of one day is imported as 1 second as written and as 86400 seconds as intended |
| Upgrade.ImportsAgreeBelowADay | custom_components/momentary/cfg.py:427-429 | an original switch whose durations are all shorter than a day is imported the same as written and as intended |
| Upgrade.UpgradeCfg.constructor | custom_components/momentary/cfg.py:395-405 | a new importer holds nothing |
| Upgrade.UpgradeCfg.SwitchKeys | custom_components/momentary/cfg.py:443-445 | the keys are exactly the imported unique ids |
| Upgrade.UpgradeCfg.ImportSwitch | custom_components/momentary/cfg.py:407-441 | succeeds exactly when the name is text; the switch is stored as `ImportedSwitch` makes it (durations by `_fix_value` as written) under its original unique id, with the original entity id and the original unique id as device id recorded under the rewritten name |
| Upgrade.UpgradeCfg.AsyncSave | custom_components/momentary/cfg.py:447-451 | writes the group's slices into the identity document and the list of switches, version 1, into the user file |
| Upgrade.ImportedSwitchKeepsIdentity | custom_components/momentary/cfg.py:407-441 | loading an imported switch from the importer's tables draws no uuid and gives it its original unique id and entity id, its shown name and its original unique id as device id |
| Database.Db.constructor | custom_components/momentary/db.py:56-57 | a new database holds nothing and is clean |
| Database.Db.SaveMetaData | custom_components/momentary/db.py:82-91 | writes the claimed meta, version 1; the dirty flag is cleared only when the write succeeds |
| Database.Db.SaveUserData | custom_components/momentary/db.py:93-100 | writes the list of switches; a failed write changes nothing |
| Database.Db.LoadOne | custom_components/momentary/db.py:130-158 | one entry: the new state is `DbStep`'s and raising matches a schema rejection |
| Database.Db.LoadAll | custom_components/momentary/db.py:130-158 | the loop over the list ends in the state `DbFold` computes |
| Database.Db.CollectOrphans | custom_components/momentary/db.py:160-165 | raises exactly when a leftover entry has no unique id; otherwise the orphans are exactly the leftovers, keyed by unique id, and the load is marked changed when there is one |
| Database.Db.Load | custom_components/momentary/db.py:102-177 | an unreadable user file, a rejected entry or an orphan without an id empties every result and keeps the dirty flag; otherwise the fold's switches, claimed meta and orphans are published and the meta is written exactly when something changed |
| Database.Db.ImportSwitch | custom_components/momentary/db.py:185-210 | removes `platform` from the caller's dictionary even on error; succeeds exactly when the name is text; stores the switch under its original unique id with the original entity id recorded under the rewritten name, and saves both files |
| Database.DbFoldListed | custom_components/momentary/db.py:130-158 | the insertion order lists every switch exactly once |
| DatabaseProperties.DbLoadRaisesIffRejected | custom_components/momentary/db.py:133 | a load gets through the list exactly when the schema accepts every entry |
| DatabaseProperties.DbStepFrame | custom_components/momentary/db.py:137-158 | one entry sets the flag exactly when it draws a uuid |
| DatabaseProperties.DbStepTables | custom_components/momentary/db.py:137-158 | one entry keeps claimed and leftover meta apart, every claimed entry complete |
| DatabaseProperties.DbFrame | custom_components/momentary/db.py:137-146 | over the list, the flag ends up set exactly when it was set or a uuid was drawn, and unmentioned names keep their entries |
| DatabaseProperties.DbTables | custom_components/momentary/db.py:150-165 | claimed and leftover meta stay apart, cover every persisted and listed name, and only listed names are claimed, each complete |
| DatabaseProperties.DbStepSettles | custom_components/momentary/db.py:137-158 | one entry: complete entries are kept, half-filled ones skipped, unknown names get a drawn uuid |
| DatabaseProperties.DbNameSettled | custom_components/momentary/db.py:137-158 | a listed name with both ids keeps them; one with only a unique id is skipped and left over; one without gets a drawn uuid and `switch.<slug>` |
| DatabaseProperties.DbStepResolves | custom_components/momentary/db.py:150-158 | a new name is published under its claimed ids, or skipped |
| DatabaseProperties.DbUsesFinalIds | custom_components/momentary/db.py:150-158 | with no repeated name, the published switches are the reference resolution of the list from the claimed meta |
| DatabaseProperties.OrphansApartFromKept | custom_components/momentary/db.py:150-165 | claimed and orphaned entries account for every persisted and listed name, and no orphan carries a claimed name |
| Momentary.Lower | custom_components/momentary/switch.py:82-87 | lower-cases exactly the ASCII capitals |
| Momentary.Polarity | custom_components/momentary/switch.py:81-90 | the idle state is off exactly for the modes "old" and "off" in any case; idle and timed states always differ |
| Momentary.MomentarySwitch.constructor | custom_components/momentary/switch.py:62-106 | naming as SwitchEntityNaming, settings from `mode`, `on_for` and `allow_off`, polarity from the mode, the switch starts idle with no timer, and the attributes report both states |
| Momentary.MomentarySwitch.StartActivity | custom_components/momentary/switch.py:113-129 | a command to the timed state enters it and adds a revert one period from now; a command to the idle state is obeyed only when cancellable; the switch is never timed without a pending revert |
| Momentary.MomentarySwitch.TurnOn | custom_components/momentary/switch.py:131-132 | `turn_on` is the command to the on state |
| Momentary.MomentarySwitch.TurnOff | custom_components/momentary/switch.py:134-135 | `turn_off` is the command to the off state |
| Momentary.MomentarySwitch.StopActivity | custom_components/momentary/switch.py:108-111 | the revert callback puts the switch back in its idle state |
| Momentary.MomentarySwitch.FireTimer | custom_components/momentary/switch.py:120 | the earliest scheduled revert fires at its deadline and the switch goes idle |
| Momentary.Retrigger | custom_components/momentary/switch.py:113-129 | a second press does not extend the timed period: the switch goes idle one period after the first press, and the second revert stays pending |
| Durations.Decompose | custom_components/momentary/helpers.py:114-117 | the five parts rebuild the millisecond count, each part below a day is within its unit, and a non-negative count has non-negative days |
| Durations.NonZero | custom_components/momentary/helpers.py:74-77 | the result keeps exactly the non-zero entries, or is `{"seconds": 0}` when none is left; it is never empty |
| Durations.DurationRoundTrip | custom_components/momentary/helpers.py:111-128 | the duration dictionary stands for the count it was built from, has only non-zero duration parts (or is `{"seconds": 0}`), and carries no days below one day |
| Durations.RoundHalfEven | custom_components/momentary/helpers.py:112 | the rounded quotient is within half a divisor of the exact value |
| Durations.Split | custom_components/momentary/helpers.py:92 | splitting gives at least one piece, none containing the separator |
| Durations.SplitJoin | custom_components/momentary/helpers.py:92 | joining the pieces gives the string back |
| Durations.ParseAll | custom_components/momentary/helpers.py:92 | every piece parses to the matching number, or some piece does not parse |
| Durations.ParseFallback | custom_components/momentary/helpers.py:92-105 | raises exactly when a piece does not parse, even with too many pieces; more than three pieces otherwise give up |
| Durations.FallbackReadsClock | custom_components/momentary/helpers.py:92-105 | "h:m:s", "h:m" and "s" are read as the duration they spell |
| Durations.ToDuration | custom_components/momentary/helpers.py:71-128 | None and unsupported types give the default; a dictionary loses only its zero entries; a string raises ValueError only when `cv.time_period` raises a caught exception and the colon fallback fails to parse, and escapes with `cv.time_period`'s own rejection exactly when that rejection is of another type; every other result is canonical |
| Durations.ToTimedelta | custom_components/momentary/helpers.py:153-159 | None gives the default, a timedelta is returned unchanged, a number counts seconds, and any other value gives exactly what `cv.time_period` returns, raising whenever it raises |
| Durations.HelpersAgree | custom_components/momentary/helpers.py:131-159 | for a number, a timedelta of whole milliseconds, or a string `cv.time_period` reads as whole milliseconds, the two helpers describe the same length of time |
| PlatformSwitches.UniqueIdOf | custom_components/momentary/helpers.py:193-195 | an explicit truthy unique id is used as it is; without one, a truthy name gives `momentary_<slug>`; otherwise no id |
| PlatformSwitches.CollectPlatformSwitches | custom_components/momentary/helpers.py:190-199 | the loop builds the dictionary the reference `Collect` describes |
| PlatformSwitches.CollectShape | custom_components/momentary/helpers.py:190-199 | every key is listed once in insertion order, is a truthy id, and its entry has lost `platform` |
| PlatformSwitches.OnlyClaimed | custom_components/momentary/helpers.py:190-199 | every stored id is claimed by some momentary entry |
| PlatformSwitches.FirstOccurrenceWins | custom_components/momentary/helpers.py:194-199 | the first momentary entry with an id is the one stored under it, minus `platform` |
| PlatformSwitches.FirstClaim | custom_components/momentary/helpers.py:190-199 | an id that some momentary entry claims is stored |
| PlatformSwitches.CollectedIds | custom_components/momentary/helpers.py:190-199 | the stored ids are exactly the ids momentary entries claim |

## Left out

- File I/O, the `_meta_lock` lock, logging and `dump` are not modelled. A file is a value that is either readable or not, and a write either succeeds or changes nothing.
- Home Assistant's state updates (`async_schedule_update_ha_state`) and the debug-only extra attributes of the switch entity are not modelled.
- `slugify`, `uuid.uuid4()`, `DB_SCHEMA`, `cv.time_period` and `float()` on text are parameters. The model draws uuids by counting and does not rely on them being distinct.
- The user's list reaches `BlendedCfg` already classified (`UserEntry`): a `name:` entry, a device key with its value, or something else. How Python's `in` and `list(keys())[0]` classify arbitrary YAML is not modelled.
- The order in which orphans are collected is not modelled. When two unclaimed names share a device id, only one survives, so the orphans are stated relationally.
- `Db` keeps its tables in class-level dictionaries shared by every instance (db.py:50-54). The model gives each instance its own tables.
- Database.Db.ImportSwitch: the source stores the caller's own dictionary object, so later changes by the caller show in the database. The model stores a copy of its value.
- Durations.ToDuration: counts in whole milliseconds and whole input numbers. Float parsing, `total_seconds()` rounding error and fractional parts of the fallback pieces are not modelled. Counts are unbounded, so the OverflowError `timedelta(seconds=…)` raises beyond 999999999 days is not modelled; the helper always returns there.
- Null ids in the identity document: `DeviceMeta` and `SwitchMeta` use None both for a missing id key and for a JSON `null` id. For an unclaimed device or leftover name with `null` as its id, the source files an orphan under `None` and marks the load changed (cfg.py:346, db.py:164); the model raises instead (`OrphanWithoutId`, `LeftoverWithoutId`). Only hand-edited files can hold such an entry.
- Durations.ToTimedelta: the float seconds of a number input are whole numbers here.
- `MS_PER_SECOND`, `MS_PER_MINUTE`, `MS_PER_HOUR`, `MS_PER_DAY`, `DOMAIN` and `CONF_UNIQUE_ID` are imported by helpers.py:17-33 and db.py:25 from a `const.py` that does not define them in the files this model covers. The model takes them as 1000, 60000, 3600000, 86400000, `"momentary"` (the value of `COMPONENT_DOMAIN`) and `"unique_id"`.
- Momentary.Lower: `str.lower()` is modelled on ASCII letters only.
- `async_process_yaml` beyond the de-duplication loop is not modelled: config-entry creation, update and reload are Home Assistant plumbing.
- The setup code (`__init__.py`), the config flow and the device registry are not part of this model.
- Momentary.MomentarySwitch.Advance only models time passing. It needs the clock to stay at or before the next deadline, so timers fire in order.

## Findings

| source | as written | input that shows it | evidently intended | confidence | as-written member | corrected member |
|---|---|---|---|---|---|---|
| custom_components/momentary/cfg.py:29-34 | `_fix_value` stores a timedelta as its `seconds` attribute, which counts only the seconds within the last day | `timedelta(days=1)` is stored as 1 (the `max(…, 1)` floor turns 0 into 1) | the whole duration in seconds, 86400 | not executed | Upgrade.FixValue, shown by Upgrade.FixValueDropsDays | Upgrade.FixValueWhole, with Upgrade.FixValueWholeKeepsDuration; the import built on it is Upgrade.ImportedSwitchWhole, shown to differ from the import as written by Upgrade.ImportDropsDays and to agree with it below a day by Upgrade.ImportsAgreeBelowADay |
