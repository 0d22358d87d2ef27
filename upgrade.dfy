/** UpgradeCfg of cfg.py: imports the switches of the original platform
    configuration into the blended files, keeping every switch's unique id and
    entity id so that its history carries over. */
module Upgrade {
  import opened Values
  import opened Naming
  import opened MetaStore
  import opened Blended

  // ---------------------------------------------------------------------
  // `_fix_value`

  /** cfg.py:29-34 as written: a timedelta is stored as its `seconds`
      attribute, at least 1; anything else is kept. `seconds` is only the part
      within the last day, so whole days are lost. */
  function FixValue(v: Value): (r: Value)
    ensures !v.VDelta? ==> r == v
    ensures v.VDelta? ==> r.VInt? && 1 <= r.i < 86400
  {
    if v.VDelta? then VInt(if v.td.Seconds() < 1 then 1 else v.td.Seconds()) else v
  }

  /** `_fix_value` as intended: a timedelta is stored as its whole number of
      seconds, at least 1. */
  function FixValueWhole(v: Value): (r: Value)
    ensures !v.VDelta? ==> r == v
    ensures v.VDelta? ==> r.VInt? && r.i >= 1
  {
    if v.VDelta? then VInt(if v.td.us / 1_000_000 < 1 then 1 else v.td.us / 1_000_000) else v
  }

  /** A duration of one day is stored as one second by the code as written,
      and as 86400 seconds by the intended conversion. */
  lemma FixValueDropsDays()
    ensures FixValue(VDelta(Timedelta(US_PER_DAY))) == VInt(1)
    ensures FixValueWhole(VDelta(Timedelta(US_PER_DAY))) == VInt(86400)
  {
  }

  /** The intended conversion keeps a duration of at least one second to the
      whole second, and the code as written agrees with it on every duration
      shorter than a day. */
  lemma FixValueWholeKeepsDuration(td: Timedelta)
    ensures var r := FixValueWhole(VDelta(td));
      td.us >= 1_000_000 ==> r.i * 1_000_000 <= td.us < (r.i + 1) * 1_000_000
    ensures 0 <= td.us < US_PER_DAY ==> FixValue(VDelta(td)) == FixValueWhole(VDelta(td))
  {
    var q := td.us / 1_000_000;
    assert td.us == q * 1_000_000 + td.us % 1_000_000;
    if 0 <= td.us < 86_400_000_000 {
      assert td.us % 86_400_000_000 == td.us;
    }
  }

  // ---------------------------------------------------------------------
  // The imported switch

  /** cfg.py:415-429 as written: the entry an original switch becomes: a copy
      without `platform`, its name rewritten to the blended convention, and
      every duration stored by `_fix_value`, so as its seconds within the
      last day. */
  function ImportedSwitch(sw: Dict, name: string): (r: Dict)
    requires ATTR_NAME in sw && sw[ATTR_NAME] == VStr(name)
    ensures r.Keys == sw.Keys - {CONF_PLATFORM}
    ensures r[ATTR_NAME] == VStr(MapConfigName(name))
    ensures forall k :: k in r ==> !r[k].VDelta?
    ensures forall k :: k in r && k != ATTR_NAME && !sw[k].VDelta? ==> r[k] == sw[k]
    ensures forall k :: k in r && k != ATTR_NAME && sw[k].VDelta? ==>
      r[k].VInt? && 1 <= r[k].i < 86400
      && (0 <= sw[k].td.us < US_PER_DAY ==> r[k] == FixValueWhole(sw[k]))
  {
    map k | k in sw && k != CONF_PLATFORM ::
      if k == ATTR_NAME then VStr(MapConfigName(name)) else FixValue(sw[k])
  }

  /** The import as intended: the same entry, with every duration stored as
      its whole number of seconds (at least 1). */
  function ImportedSwitchWhole(sw: Dict, name: string): (r: Dict)
    requires ATTR_NAME in sw && sw[ATTR_NAME] == VStr(name)
    ensures r.Keys == sw.Keys - {CONF_PLATFORM}
    ensures r[ATTR_NAME] == VStr(MapConfigName(name))
    ensures forall k :: k in r ==> !r[k].VDelta?
    ensures forall k :: k in r && k != ATTR_NAME && !sw[k].VDelta? ==> r[k] == sw[k]
    ensures forall k :: k in r && k != ATTR_NAME && sw[k].VDelta? && sw[k].td.us >= US_PER_SECOND ==>
      r[k].VInt? && r[k].i * US_PER_SECOND <= sw[k].td.us < (r[k].i + 1) * US_PER_SECOND
  {
    map k | k in sw && k != CONF_PLATFORM ::
      if k == ATTR_NAME then VStr(MapConfigName(name)) else FixValueWhole(sw[k])
  }

  /** The two imports differ exactly on durations of a day or more: an
      original switch whose durations are all shorter than a day is imported
      the same by both, and a setting of one day is stored as 1 second as
      written and as 86400 seconds as intended. */
  lemma ImportDropsDays(sw: Dict, name: string, k: string)
    requires ATTR_NAME in sw && sw[ATTR_NAME] == VStr(name)
    requires k in sw && k != ATTR_NAME && k != CONF_PLATFORM && sw[k] == VDelta(Timedelta(US_PER_DAY))
    ensures ImportedSwitch(sw, name)[k] == VInt(1)
    ensures ImportedSwitchWhole(sw, name)[k] == VInt(86400)
  {
    FixValueDropsDays();
  }

  /** Below a day, the import as written and as intended agree. */
  lemma ImportsAgreeBelowADay(sw: Dict, name: string)
    requires ATTR_NAME in sw && sw[ATTR_NAME] == VStr(name)
    requires forall k :: k in sw && sw[k].VDelta? ==> 0 <= sw[k].td.us < US_PER_DAY
    ensures ImportedSwitch(sw, name) == ImportedSwitchWhole(sw, name)
  {
    var a := ImportedSwitch(sw, name);
    var b := ImportedSwitchWhole(sw, name);
    forall k | k in a
      ensures a[k] == b[k]
    {
      if k != ATTR_NAME && sw[k].VDelta? {
        FixValueWholeKeepsDuration(sw[k].td);
      }
    }
  }

  /** The object of cfg.py's UpgradeCfg. `order` is the insertion order of
      `_switches`, which the saved list follows. */
  class UpgradeCfg {
    const slug: Slugify
    const group: string
    const metaFile: JsonFile<MetaDoc>
    const userFile: JsonFile<UserDoc>

    var dmeta: DeviceMetaGroup
    var switches: map<string, Dict>
    var order: seq<string>
    var smeta: SwitchMetaGroup

    /** `order` lists each unique id of `_switches` once. */
    ghost predicate Valid()
      reads this
    {
      Listed(order, switches)
    }

    constructor (slug: Slugify, group: string, metaFile: JsonFile<MetaDoc>, userFile: JsonFile<UserDoc>)
      ensures Valid()
      ensures this.slug == slug && this.group == group && this.metaFile == metaFile && this.userFile == userFile
      ensures dmeta == map[] && switches == map[] && order == [] && smeta == map[]
    {
      this.slug := slug;
      this.group := group;
      this.metaFile := metaFile;
      this.userFile := userFile;
      dmeta, switches, order, smeta := map[], map[], [], map[];
    }

    /** `switch_keys`: the unique ids imported so far, in insertion order. */
    function SwitchKeys(): (keys: seq<string>)
      reads this
      requires Valid()
      ensures forall k :: k in keys <==> k in switches
    {
      order
    }


    /** cfg.py:407-441: import one original switch. The switch is stored
        under the unique id the platform-era entity had; its meta entries,
        keyed by the rewritten name, keep that unique id and the original
        entity id and give the device the id slugified from the displayed
        name. A switch without a textual name raises before anything is
        stored (`ok` false). */
    method ImportSwitch(sw: Dict) returns (ok: bool)
      requires Valid()
      modifies this`dmeta, this`switches, this`order, this`smeta
      ensures Valid()
      ensures ok <==> ATTR_NAME in sw && sw[ATTR_NAME].VStr?
      ensures !ok ==> dmeta == old(dmeta) && switches == old(switches) && order == old(order) && smeta == old(smeta)
      ensures ok ==>
        var name := sw[ATTR_NAME].s;
        var uid := MakeOriginalUniqueId(slug, name);
        var mapped := MapConfigName(name);
        && switches == old(switches)[uid := ImportedSwitch(sw, name)]
        && order == (if uid in old(switches) then old(order) else old(order) + [uid])
        && smeta == old(smeta)[mapped := SwitchMeta(Some(uid), Some(MakeOriginalEntityId(slug, SWITCH_PLATFORM, name)))]
        && dmeta == old(dmeta)[mapped := DeviceMeta(Some(MakeDeviceId(slug, mapped)))]
    {
      if ATTR_NAME !in sw || !sw[ATTR_NAME].VStr? {
        return false;
      }
      var name := sw[ATTR_NAME].s;
      var uniqueId := MakeOriginalUniqueId(slug, name);
      var entityId := MakeOriginalEntityId(slug, SWITCH_PLATFORM, name);
      var mapped := MapConfigName(name);
      var deviceId := MakeDeviceId(slug, mapped);
      if uniqueId !in switches {
        order := order + [uniqueId];
      }
      switches := switches[uniqueId := ImportedSwitch(sw, name)];
      smeta := smeta[mapped := SwitchMeta(Some(uniqueId), Some(entityId))];
      dmeta := dmeta[mapped := DeviceMeta(Some(deviceId))];
      ok := true;
    }

    /** cfg.py:447-451: write the group's ids into the identity document and
        the imported switches, in import order, into the user file. A failed
        write leaves that file as it was. */
    method AsyncSave()
      requires Valid()
      modifies metaFile, userFile
      ensures metaFile.contents ==
        if old(metaFile.writable) then Some(SavedDoc(ReadDoc(old(metaFile.contents)), group, dmeta, smeta))
        else old(metaFile.contents)
      ensures userFile.contents ==
        if old(userFile.writable) then Some(UserDoc(USER_VERSION, UserList(order, switches)))
        else old(userFile.contents)
    {
      SaveMetaData(metaFile, group, dmeta, smeta);
      var _ := userFile.Write(UserDoc(USER_VERSION, UserList(order, switches)));
    }
  }

  /** cfg.py:407-441 followed by cfg.py:241-297: a switch imported from the
      original configuration and then loaded by the blended code from the
      tables the import saved draws no uuid and keeps the identity of its
      platform-era entity: the same unique id and entity id, the same shown
      name, and a device whose id is that entity's unique id. The entity id is
      also the one the blended code would derive from the rewritten name. */
  lemma ImportedSwitchKeepsIdentity(env: Env, sw: Dict, name: string, issued: nat)
    requires ATTR_NAME in sw && sw[ATTR_NAME] == VStr(name) && Migratable(name)
    ensures
      var mapped := MapConfigName(name);
      var original := SwitchEntityNaming(env.slug, name);
      var st := LoadState(
        map[mapped := DeviceMeta(Some(MakeDeviceId(env.slug, mapped)))],
        map[mapped := SwitchMeta(Some(MakeOriginalUniqueId(env.slug, name)),
                                 Some(MakeOriginalEntityId(env.slug, SWITCH_PLATFORM, name)))],
        map[], map[], map[], map[], false, issued);
      var o := EntriesFold(env, st, [Single(ImportedSwitch(sw, name))]);
      && o.Ok? && o.st.issued == issued && !o.st.changed
      && o.st.switches.Keys == {original.uniqueId}
      && var loaded := o.st.switches[original.uniqueId];
      && ATTR_ENTITY_ID in loaded && loaded[ATTR_ENTITY_ID] == VStr(original.entityId)
      && original.entityId == MakeEntityId(env.slug, SWITCH_PLATFORM, mapped)
      && ATTR_NAME in loaded && loaded[ATTR_NAME] == VStr(original.displayName)
      && ATTR_DEVICE_ID in loaded && loaded[ATTR_DEVICE_ID] == VStr(original.uniqueId)
      && o.st.devices == map[original.uniqueId := original.displayName]
  {
    var mapped := MapConfigName(name);
    var original := SwitchEntityNaming(env.slug, name);
    ImportMatchesPlatformEntity(env.slug, name);
    MigrationKeepsEntityId(env.slug, SWITCH_PLATFORM, name);
    MigrationDeviceIdIsOriginalUniqueId(env.slug, name);
    MigrationDisplayName(name);
    assert original.displayName == StripBang(name);
    var imported := ImportedSwitch(sw, name);
    assert imported[ATTR_NAME] == VStr(mapped);
    var uid := MakeOriginalUniqueId(env.slug, name);
    var eid := MakeOriginalEntityId(env.slug, SWITCH_PLATFORM, name);
    var deviceId := MakeDeviceId(env.slug, mapped);
    var st := LoadState(map[mapped := DeviceMeta(Some(deviceId))], map[mapped := SwitchMeta(Some(uid), Some(eid))],
                        map[], map[], map[], map[], false, issued);
    var s0 := ClaimDevice(env, st, mapped);
    assert s0.dIn == st.dIn && s0.issued == issued && !s0.changed;
    assert s0.devices == map[deviceId := MakeName(mapped)];
    var s1 := s0.(switches := map[uid := Finalize(imported, deviceId, eid, mapped)],
                  smeta := map[mapped := SwitchMeta(Some(uid), Some(eid))], sIn := map[]);
    assert SwitchStep(env, s0, deviceId, imported) == Ok(s1);
    assert SwitchesFold(env, s0, deviceId, [imported]) == Ok(s1) by {
      assert [imported][1..] == [];
    }
    assert EntryStep(env, st, Single(imported)) == Ok(s1);
    assert EntriesFold(env, st, [Single(imported)]) == Ok(s1) by {
      assert [Single(imported)][1..] == [];
    }
  }
}
