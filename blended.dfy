/** BlendedCfg of cfg.py: reconciles the user's switch list with the persisted
    identity document of one group.

    The reconciliation is specified by pure functions over `LoadState` (the
    object's working dictionaries, the dirty flag and the number of uuids drawn
    so far), one per step of the source; the class `BlendedCfg` implements the
    same steps on its own fields and is proved to produce the state these
    functions describe. The lemmas at the end state what the reconciliation
    guarantees: the outcome does not depend on anything but the names, known
    names keep their ids, and a reload after a save changes nothing. */
module Blended {
  import opened Values
  import opened Naming
  import opened MetaStore

  /** What the host provides: Home Assistant's slugify, and the text of the
      n-th uuid4() drawn. */
  datatype Env = Env(slug: Slugify, draw: nat -> string)

  /** One item of the user's switch list, already classified the way
      `async_load` tells them apart:
      - `Single`: a mapping with a `name` key, one device holding one switch;
      - `Device`: a mapping whose first key names a device; `switches` is the
        sequence a `for` loop draws from the value under that key (the items
        of a list, the characters of a text, the keys of a mapping), where an
        element that is not a mapping stands as an empty mapping (indexing it
        raises, as a missing `name` does, with the same state); `None` only
        when the value cannot be iterated at all;
      - `Malformed`: anything else that is not a mapping (logged and skipped);
      - `Broken`: a shape on which the source raises before any switch is
        looked at (an empty mapping, a number, a list or text containing
        "name"). */
  datatype UserEntry =
    | Single(sw: Dict)
    | Device(deviceName: Value, switches: Option<seq<Dict>>)
    | Malformed
    | Broken

  /** The object's working state during `async_load`. */
  datatype LoadState = LoadState(
    dIn: DeviceMetaGroup,        // _dmeta_data_in: persisted device ids, plus new ones
    sIn: SwitchMetaGroup,        // _smeta_data_in: persisted switch ids not yet claimed
    devices: map<string, string>,// _devices: device_id -> display name
    dmeta: DeviceMetaGroup,      // _dmeta_data: device ids in use
    switches: map<string, Dict>, // _switches: unique_id -> resolved switch
    smeta: SwitchMetaGroup,      // _smeta_data: switch ids in use
    changed: bool,               // _changed
    issued: nat)                 // how many uuid4() values have been drawn

  /** A step either completes or raises; a raise keeps only the dirty flag and
      the uuid count, as every other field is reset or reloaded afterwards. */
  datatype Outcome = Ok(st: LoadState) | Raised(changed: bool, issued: nat)

  predicate DeviceKnown(dm: DeviceMetaGroup, name: string)
  {
    name in dm && dm[name].deviceId.Some?
  }

  predicate SwitchKnown(sm: SwitchMetaGroup, name: string)
  {
    name in sm && sm[name].uniqueId.Some?
  }

  /** A persisted switch entry with both ids. */
  predicate Complete(m: SwitchMeta)
  {
    m.uniqueId.Some? && m.entityId.Some?
  }

  /** cfg.py:241-258: look up (or mint) the device's id, record the device and
      mark its meta entry as in use. A known device keeps its id and draws no
      uuid; an unknown one gets the next uuid and sets the dirty flag. */
  function ClaimDevice(env: Env, st: LoadState, name: string): (r: LoadState)
    ensures DeviceKnown(r.dIn, name)
    ensures DeviceKnown(st.dIn, name) ==>
      r.dIn == st.dIn && r.issued == st.issued && r.changed == st.changed
    ensures !DeviceKnown(st.dIn, name) ==>
      r.dIn == st.dIn[name := DeviceMeta(Some(MakeUniqueId(env.draw(st.issued))))]
      && r.issued == st.issued + 1 && r.changed
    ensures r.devices == st.devices[r.dIn[name].deviceId.value := MakeName(name)]
    ensures r.dmeta == st.dmeta[name := r.dIn[name]]
    ensures r.sIn == st.sIn && r.switches == st.switches && r.smeta == st.smeta
  {
    var s1 :=
      if DeviceKnown(st.dIn, name) then st
      else st.(dIn := st.dIn[name := DeviceMeta(Some(MakeUniqueId(env.draw(st.issued))))],
               changed := true, issued := st.issued + 1);
    var deviceId := s1.dIn[name].deviceId.value;
    s1.(devices := s1.devices[deviceId := MakeName(name)], dmeta := s1.dmeta[name := s1.dIn[name]])
  }

  /** cfg.py:266-275: look up (or mint) the switch's ids. A known switch keeps
      them and draws no uuid; an unknown one gets the next uuid, the entity id
      `_make_entity_id` derives from its name, and sets the dirty flag. */
  function ClaimSwitch(env: Env, st: LoadState, name: string): (r: LoadState)
    ensures SwitchKnown(r.sIn, name)
    ensures SwitchKnown(st.sIn, name) ==> r == st
    ensures !SwitchKnown(st.sIn, name) ==>
      && r.sIn == st.sIn[name := SwitchMeta(Some(MakeUniqueId(env.draw(st.issued))),
                                            Some(MakeEntityId(env.slug, SWITCH_PLATFORM, name)))]
      && r.issued == st.issued + 1 && r.changed
      && r.dIn == st.dIn && r.devices == st.devices && r.dmeta == st.dmeta
      && r.switches == st.switches && r.smeta == st.smeta
  {
    if SwitchKnown(st.sIn, name) then st
    else
      st.(sIn := st.sIn[name := SwitchMeta(Some(MakeUniqueId(env.draw(st.issued))),
                                           Some(MakeEntityId(env.slug, SWITCH_PLATFORM, name)))],
          changed := true, issued := st.issued + 1)
  }

  /** cfg.py:287-291: the user's switch with the fixed pieces added. */
  function Finalize(sw: Dict, deviceId: string, entityId: string, name: string): Dict
  {
    sw[ATTR_DEVICE_ID := VStr(deviceId)][ATTR_ENTITY_ID := VStr(entityId)][ATTR_NAME := VStr(MakeName(name))]
  }

  /** cfg.py:261-297, one switch of a device. A switch without a string name
      raises (KeyError, or the failing `startswith` after a uuid was drawn); a
      persisted entry without an entity id is skipped and stays unclaimed;
      otherwise the switch is resolved under its unique id and its meta entry
      moves from `sIn` to `smeta`. */
  function SwitchStep(env: Env, st: LoadState, deviceId: string, sw: Dict): Outcome
  {
    if ATTR_NAME !in sw then Raised(st.changed, st.issued)
    else if !sw[ATTR_NAME].VStr? then Raised(st.changed, st.issued + 1)
    else
      var name := sw[ATTR_NAME].s;
      var s1 := ClaimSwitch(env, st, name);
      var m := s1.sIn[name];
      if m.entityId.None? then Ok(s1)
      else
        Ok(s1.(switches := s1.switches[m.uniqueId.value := Finalize(sw, deviceId, m.entityId.value, name)],
               smeta := s1.smeta[name := m],
               sIn := s1.sIn - {name}))
  }

  /** The loop of `_parse_switches` over a device's switches. */
  function SwitchesFold(env: Env, st: LoadState, deviceId: string, sws: seq<Dict>): Outcome
    decreases |sws|
  {
    if sws == [] then Ok(st)
    else
      match SwitchStep(env, st, deviceId, sws[0])
      case Raised(c, k) => Raised(c, k)
      case Ok(s1) => SwitchesFold(env, s1, deviceId, sws[1..])
  }

  /** `_parse_switches`: claim the device, then each of its switches. A device
      name that is not text raises in `_make_name`, after a uuid was drawn and
      the dirty flag set; a device whose value is not a list raises once the
      device itself has been claimed. */
  function ParseSwitches(env: Env, st: LoadState, deviceName: Value, sws: Option<seq<Dict>>): Outcome
  {
    if !deviceName.VStr? then Raised(true, st.issued + 1)
    else
      var s1 := ClaimDevice(env, st, deviceName.s);
      if sws.None? then Raised(s1.changed, s1.issued)
      else SwitchesFold(env, s1, s1.dIn[deviceName.s].deviceId.value, sws.value)
  }

  /** cfg.py:326-336, one entry of the user's list. */
  function EntryStep(env: Env, st: LoadState, e: UserEntry): Outcome
  {
    match e
    case Single(sw) =>
      if ATTR_NAME in sw then ParseSwitches(env, st, sw[ATTR_NAME], Some([sw]))
      else Raised(st.changed, st.issued)
    case Device(d, sws) => ParseSwitches(env, st, d, sws)
    case Malformed => Ok(st)
    case Broken => Raised(st.changed, st.issued)
  }

  /** The loop of `async_load` over the user's list. */
  function EntriesFold(env: Env, st: LoadState, entries: seq<UserEntry>): Outcome
    decreases |entries|
  {
    if entries == [] then Ok(st)
    else
      match EntryStep(env, st, entries[0])
      case Raised(c, k) => Raised(c, k)
      case Ok(s1) => EntriesFold(env, s1, entries[1..])
  }

  /** The state `async_load` starts from: the group's slice of the document, no
      output yet, and the dirty flag and uuid count left by earlier loads. */
  function StartState(doc: MetaDoc, group: string, changed: bool, issued: nat): LoadState
  {
    LoadState(GroupSlice(doc, group).0, GroupSlice(doc, group).1, map[], map[], map[], map[], changed, issued)
  }

  /** Persisted device names no entry claimed. */
  function Unclaimed(r: LoadState): set<string>
  {
    r.dIn.Keys - r.dmeta.Keys
  }

  /** An unclaimed device entry without an id makes the orphan loop raise. */
  predicate OrphanWithoutId(r: LoadState)
  {
    exists n :: n in r.dIn && n !in r.dmeta && r.dIn[n].deviceId.None?
  }

  /** cfg.py:340-348: the orphaned devices, keyed device_id -> name, are
      exactly the unclaimed device entries. */
  ghost predicate OrphansOf(r: LoadState, orphans: map<string, string>)
  {
    && (forall id :: id in orphans <==>
          exists n :: n in r.dIn && n !in r.dmeta && r.dIn[n].deviceId == Some(id))
    && (forall id :: id in orphans ==>
          orphans[id] in r.dIn && orphans[id] !in r.dmeta && r.dIn[orphans[id]].deviceId == Some(id))
  }

  /** The object of cfg.py's BlendedCfg. */
  class BlendedCfg {
    const env: Env
    const group: string
    const metaFile: JsonFile<MetaDoc>

    var changed: bool
    var issued: nat
    var devices: map<string, string>
    var dmeta: DeviceMetaGroup
    var dmetaIn: DeviceMetaGroup
    var orphanedDevices: map<string, string>
    var switches: map<string, Dict>
    var smeta: SwitchMetaGroup
    var smetaIn: SwitchMetaGroup

    function State(): LoadState
      reads this
    {
      LoadState(dmetaIn, smetaIn, devices, dmeta, switches, smeta, changed, issued)
    }

    /** Every result `async_load` publishes is empty. */
    predicate NoOutputs()
      reads this
    {
      devices == map[] && dmeta == map[] && orphanedDevices == map[] && switches == map[] && smeta == map[]
    }

    constructor (env: Env, group: string, metaFile: JsonFile<MetaDoc>)
      ensures this.env == env && this.group == group && this.metaFile == metaFile
      ensures !changed && issued == 0 && NoOutputs() && dmetaIn == map[] && smetaIn == map[]
    {
      this.env := env;
      this.group := group;
      this.metaFile := metaFile;
      changed := false;
      issued := 0;
      devices, dmeta, dmetaIn, orphanedDevices := map[], map[], map[], map[];
      switches, smeta, smetaIn := map[], map[], map[];
    }

    /** cfg.py:241-258 on the object's fields. */
    method ClaimDeviceOf(name: string) returns (deviceId: string)
      modifies this
      ensures orphanedDevices == old(orphanedDevices)
      ensures State() == ClaimDevice(env, old(State()), name)
      ensures deviceId == dmetaIn[name].deviceId.value
    {
      if name in dmetaIn && dmetaIn[name].deviceId.Some? {
        deviceId := dmetaIn[name].deviceId.value;
      } else {
        deviceId := MakeUniqueId(env.draw(issued));
        issued := issued + 1;
        dmetaIn := dmetaIn[name := DeviceMeta(Some(deviceId))];
        changed := true;
      }
      devices := devices[deviceId := MakeName(name)];
      dmeta := dmeta[name := dmetaIn[name]];
    }

    /** cfg.py:261-297, one switch, on the object's fields. */
    method ParseSwitchOf(deviceId: string, sw: Dict) returns (raised: bool)
      modifies this
      ensures orphanedDevices == old(orphanedDevices)
      ensures match SwitchStep(env, old(State()), deviceId, sw)
              case Ok(r) => !raised && State() == r
              case Raised(c, k) => raised && changed == c && issued == k
    {
      if ATTR_NAME !in sw {
        return true;
      }
      if !sw[ATTR_NAME].VStr? {
        // the uuid is drawn, then `_make_entity_id` raises
        issued := issued + 1;
        return true;
      }
      var name := sw[ATTR_NAME].s;
      var uniqueId: string;
      if name in smetaIn && smetaIn[name].uniqueId.Some? {
        uniqueId := smetaIn[name].uniqueId.value;
      } else {
        uniqueId := MakeUniqueId(env.draw(issued));
        issued := issued + 1;
        smetaIn := smetaIn[name := SwitchMeta(Some(uniqueId), Some(MakeEntityId(env.slug, SWITCH_PLATFORM, name)))];
        changed := true;
      }
      assert State() == ClaimSwitch(env, old(State()), name);
      var entityId := smetaIn[name].entityId;
      if entityId.Some? {
        switches := switches[uniqueId := Finalize(sw, deviceId, entityId.value, name)];
        smeta := smeta[name := smetaIn[name]];
        smetaIn := smetaIn - {name};
      }
      raised := false;
    }

    /** `_parse_switches` on the object's fields. */
    method ParseSwitchesOf(deviceName: Value, sws: Option<seq<Dict>>) returns (raised: bool)
      modifies this
      ensures orphanedDevices == old(orphanedDevices)
      ensures match ParseSwitches(env, old(State()), deviceName, sws)
              case Ok(r) => !raised && State() == r
              case Raised(c, k) => raised && changed == c && issued == k
    {
      if !deviceName.VStr? {
        // a uuid is minted and the flag set before `_make_name` raises
        issued := issued + 1;
        changed := true;
        return true;
      }
      var deviceId := ClaimDeviceOf(deviceName.s);
      if sws.None? {
        return true;
      }
      var list := sws.value;
      var i := 0;
      while i < |list|
        invariant 0 <= i <= |list|
        invariant orphanedDevices == old(orphanedDevices)
        invariant SwitchesFold(env, State(), deviceId, list[i..]) == ParseSwitches(env, old(State()), deviceName, sws)
      {
        assert list[i..][0] == list[i] && list[i..][1..] == list[i + 1..];
        raised := ParseSwitchOf(deviceId, list[i]);
        if raised {
          return;
        }
        i := i + 1;
      }
      raised := false;
    }

    /** The loop of `async_load` over the user's list, on the object's fields. */
    method ParseEntriesOf(entries: seq<UserEntry>) returns (raised: bool)
      modifies this
      ensures orphanedDevices == old(orphanedDevices)
      ensures match EntriesFold(env, old(State()), entries)
              case Ok(r) => !raised && State() == r
              case Raised(c, k) => raised && changed == c && issued == k
    {
      var i := 0;
      while i < |entries|
        invariant 0 <= i <= |entries|
        invariant orphanedDevices == old(orphanedDevices)
        invariant EntriesFold(env, State(), entries[i..]) == EntriesFold(env, old(State()), entries)
      {
        assert entries[i..][0] == entries[i] && entries[i..][1..] == entries[i + 1..];
        match entries[i] {
          case Single(sw) =>
            if ATTR_NAME in sw {
              raised := ParseSwitchesOf(sw[ATTR_NAME], Some([sw]));
            } else {
              raised := true;
            }
          case Device(d, sws) =>
            raised := ParseSwitchesOf(d, sws);
          case Malformed =>
            raised := false;
          case Broken =>
            raised := true;
        }
        if raised {
          return;
        }
        i := i + 1;
      }
      raised := false;
    }

    /** cfg.py:340-348: every unclaimed device entry becomes an orphan and sets
        the dirty flag; one without a device id raises (KeyError). The source
        walks the entries in insertion order, this walks them in any order. */
    method CollectOrphans() returns (raised: bool)
      requires orphanedDevices == map[]
      modifies this`orphanedDevices, this`changed
      ensures raised <==> OrphanWithoutId(old(State()))
      ensures !raised ==>
        OrphansOf(old(State()), orphanedDevices) && changed == (old(changed) || Unclaimed(old(State())) != {})
      ensures raised ==>
        (old(changed) ==> changed) && (changed ==> old(changed) || Unclaimed(old(State())) != {})
    {
      var din, dm := dmetaIn, dmeta;
      ghost var unclaimed := Unclaimed(State());
      assert unclaimed == Unclaimed(old(State())) == din.Keys - dm.Keys;
      var orphans: map<string, string> := map[];
      var todo := din.Keys;
      while todo != {}
        invariant todo <= din.Keys
        invariant old(changed) ==> changed
        invariant changed ==> old(changed) || unclaimed != {}
        invariant forall n :: n in din && n !in todo && n !in dm ==>
                    din[n].deviceId.Some? && din[n].deviceId.value in orphans
        invariant forall id :: id in orphans ==>
                    orphans[id] in din && orphans[id] !in todo && orphans[id] !in dm && din[orphans[id]].deviceId == Some(id)
        invariant (exists n :: n in din && n !in todo && n !in dm) ==> changed
        decreases todo
      {
        var name :| name in todo;
        if name !in dm {
          var id := din[name].deviceId;
          if id.None? {
            orphanedDevices := orphans;
            return true;
          }
          assert name in unclaimed;
          orphans := orphans[id.value := name];
          changed := true;
        }
        todo := todo - {name};
      }
      orphanedDevices := orphans;
      raised := false;
    }

    /** `async_load`: reconcile the user's list with the group's persisted ids,
        list the orphaned devices, and save the ids in use when anything
        changed. Any exception empties every published result but keeps the
        dirty flag, which only a completed load clears. */
    method AsyncLoad(entries: seq<UserEntry>)
      modifies this, metaFile
      ensures metaFile.writable == old(metaFile.writable)
      ensures
        var start := StartState(ReadDoc(old(metaFile.contents)), group, old(changed), old(issued));
        match EntriesFold(env, start, entries)
        case Raised(c, k) =>
          NoOutputs() && changed == c && issued == k && metaFile.contents == old(metaFile.contents)
        case Ok(r) =>
          if OrphanWithoutId(r) then
            && NoOutputs() && issued == r.issued && metaFile.contents == old(metaFile.contents)
            && (r.changed ==> changed) && (changed ==> r.changed || Unclaimed(r) != {})
          else
            && devices == r.devices && dmeta == r.dmeta && switches == r.switches && smeta == r.smeta
            && OrphansOf(r, orphanedDevices) && issued == r.issued && !changed
            && metaFile.contents ==
               if (r.changed || Unclaimed(r) != {}) && old(metaFile.writable)
               then Some(SavedDoc(ReadDoc(old(metaFile.contents)), group, r.dmeta, r.smeta))
               else old(metaFile.contents)
    {
      devices, dmeta, orphanedDevices, switches, smeta := map[], map[], map[], map[], map[];
      dmetaIn, smetaIn := LoadMetaData(metaFile, group);
      assert State() == StartState(ReadDoc(old(metaFile.contents)), group, old(changed), old(issued));
      var raised := ParseEntriesOf(entries);
      if !raised {
        raised := CollectOrphans();
      }
      if raised {
        devices, dmeta, orphanedDevices, switches, smeta := map[], map[], map[], map[], map[];
        return;
      }
      if changed {
        SaveMetaData(metaFile, group, dmeta, smeta);
        changed := false;
      }
    }

    /** `delete_group`: removes the group's slice from both partitions; `ok`
        is false where the source raises because the group is absent. */
    static method DeleteGroup(metaFile: JsonFile<MetaDoc>, group: string) returns (ok: bool)
      modifies metaFile
      ensures ok <==> DeletedDoc(ReadDoc(old(metaFile.contents)), group).Some?
      ensures metaFile.contents ==
        if ok && old(metaFile.writable) then DeletedDoc(ReadDoc(old(metaFile.contents)), group)
        else old(metaFile.contents)
    {
      ok := DeleteMetaData(metaFile, group);
    }
  }
}
