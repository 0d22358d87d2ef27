/** The files the integration keeps, and the shared identity document of cfg.py
    (`_load_meta_data`, `_save_meta_data`, `_delete_meta_data`).

    A file is an object whose contents the host may have lost or corrupted
    (`None`: every read then falls back to an empty document, as the loaders
    catch every exception) and which may refuse writes (`writable`: the savers
    swallow the failure and leave the old contents). */
module MetaStore {
  import opened Values

  class JsonFile<T> {
    var contents: Option<T>
    var writable: bool

    constructor (contents: Option<T>, writable: bool)
      ensures this.contents == contents && this.writable == writable
    {
      this.contents := contents;
      this.writable := writable;
    }

    /** Writes the whole document; a failed write changes nothing. */
    method Write(doc: T) returns (ok: bool)
      modifies this
      ensures ok == old(writable) && writable == old(writable)
      ensures contents == if ok then Some(doc) else old(contents)
    {
      ok := writable;
      if ok {
        contents := Some(doc);
      }
    }
  }

  /** The persisted identity of one device (`{device_id: ...}`); a hand-edited
      file may lack the id. */
  datatype DeviceMeta = DeviceMeta(deviceId: Option<string>)

  /** The persisted identity of one switch (`{unique_id: ..., entity_id: ...}`). */
  datatype SwitchMeta = SwitchMeta(uniqueId: Option<string>, entityId: Option<string>)

  /** One group's slice of either partition, keyed by the user-chosen name. */
  type DeviceMetaGroup = map<string, DeviceMeta>
  type SwitchMetaGroup = map<string, SwitchMeta>

  /** The identity document: a version tag and two partitions keyed by group. */
  datatype MetaDoc = MetaDoc(
    version: Option<int>,
    devices: map<string, DeviceMetaGroup>,
    switches: map<string, SwitchMetaGroup>)

  const META_VERSION: int := 1

  /** What `_async_load_json` yields: the document, or `{}` when it cannot be read. */
  function ReadDoc(contents: Option<MetaDoc>): MetaDoc
  {
    if contents.Some? then contents.value else MetaDoc(None, map[], map[])
  }

  /** `_load_meta_data`: the group's slice of both partitions, empty when absent. */
  function GroupSlice(doc: MetaDoc, group: string): (DeviceMetaGroup, SwitchMetaGroup)
  {
    (if group in doc.devices then doc.devices[group] else map[],
     if group in doc.switches then doc.switches[group] else map[])
  }

  /** The document `_save_meta_data` writes: the group's slice of both partitions
      replaced, every other group kept, the version tag set. */
  function SavedDoc(doc: MetaDoc, group: string, dm: DeviceMetaGroup, sm: SwitchMetaGroup): (r: MetaDoc)
    ensures r.version == Some(META_VERSION)
    ensures GroupSlice(r, group) == (dm, sm)
    ensures forall other :: other != group ==> GroupSlice(r, other) == GroupSlice(doc, other)
    ensures r.devices.Keys == doc.devices.Keys + {group} && r.switches.Keys == doc.switches.Keys + {group}
  {
    MetaDoc(Some(META_VERSION), doc.devices[group := dm], doc.switches[group := sm])
  }

  /** The document `_delete_meta_data` writes, or `None` when `dict.pop` raises
      because one of the partitions has no such group. */
  function DeletedDoc(doc: MetaDoc, group: string): (r: Option<MetaDoc>)
    ensures r.Some? <==> group in doc.devices && group in doc.switches
    ensures r.Some? ==> group !in r.value.devices && group !in r.value.switches
    ensures r.Some? ==> GroupSlice(r.value, group) == (map[], map[])
    ensures r.Some? ==> forall other :: other != group ==> GroupSlice(r.value, other) == GroupSlice(doc, other)
    ensures r.Some? ==> r.value.devices.Keys == doc.devices.Keys - {group}
    ensures r.Some? ==> r.value.switches.Keys == doc.switches.Keys - {group}
  {
    if group in doc.devices && group in doc.switches then
      Some(MetaDoc(Some(META_VERSION), doc.devices - {group}, doc.switches - {group}))
    else
      None
  }

  /** `_load_meta_data`. */
  method LoadMetaData(file: JsonFile<MetaDoc>, group: string) returns (dm: DeviceMetaGroup, sm: SwitchMetaGroup)
    ensures (dm, sm) == GroupSlice(ReadDoc(file.contents), group)
  {
    var doc := ReadDoc(file.contents);
    dm := if group in doc.devices then doc.devices[group] else map[];
    sm := if group in doc.switches then doc.switches[group] else map[];
  }

  /** `_save_meta_data`: re-reads the file, replaces the group's slice, writes it back. */
  method SaveMetaData(file: JsonFile<MetaDoc>, group: string, dm: DeviceMetaGroup, sm: SwitchMetaGroup)
    modifies file
    ensures file.writable == old(file.writable)
    ensures file.contents ==
      if old(file.writable) then Some(SavedDoc(ReadDoc(old(file.contents)), group, dm, sm)) else old(file.contents)
  {
    var doc := ReadDoc(file.contents);
    var devices := doc.devices[group := dm];
    var switches := doc.switches[group := sm];
    var _ := file.Write(MetaDoc(Some(META_VERSION), devices, switches));
  }

  /** `_delete_meta_data`: `ok` is false where the source raises KeyError, in
      which case nothing is written. */
  method DeleteMetaData(file: JsonFile<MetaDoc>, group: string) returns (ok: bool)
    modifies file
    ensures ok <==> DeletedDoc(ReadDoc(old(file.contents)), group).Some?
    ensures file.writable == old(file.writable)
    ensures file.contents ==
      if ok && old(file.writable) then DeletedDoc(ReadDoc(old(file.contents)), group) else old(file.contents)
  {
    var doc := ReadDoc(file.contents);
    if group !in doc.devices {
      return false;
    }
    var devices := doc.devices - {group};
    if group !in doc.switches {
      return false;
    }
    var switches := doc.switches - {group};
    var _ := file.Write(MetaDoc(Some(META_VERSION), devices, switches));
    ok := true;
  }

  // ---------------------------------------------------------------------
  // The user file

  /** A sequence without repeats listing a set has the set's size. */
  lemma DistinctCard(s: seq<string>, keys: set<string>)
    requires forall i, j :: 0 <= i < j < |s| ==> s[i] != s[j]
    requires forall k :: k in keys <==> k in s
    ensures |s| == |keys|
    decreases |s|
  {
    if s != [] {
      var rest := s[1..];
      forall k | k in keys - {s[0]} ensures k in rest {
        var i :| 0 <= i < |s| && s[i] == k;
        assert i != 0;
        assert rest[i - 1] == k;
      }
      forall i, j | 0 <= i < j < |rest| ensures rest[i] != rest[j] {
        assert rest[i] == s[i + 1] && rest[j] == s[j + 1];
      }
      DistinctCard(rest, keys - {s[0]});
    }
  }

  /** `order` lists each key of `m` exactly once: the insertion order of a
      Python dict. */
  ghost predicate Listed<V>(order: seq<string>, m: map<string, V>)
  {
    (forall i, j :: 0 <= i < j < |order| ==> order[i] != order[j])
    && (forall k :: k in m <==> k in order)
  }

  /** The values of `m` under `keys`, in that order. */
  function ValuesInOrder(keys: seq<string>, m: map<string, Dict>): (vs: seq<Dict>)
    requires forall k :: k in keys ==> k in m
    ensures |vs| == |keys|
    ensures forall i :: 0 <= i < |keys| ==> vs[i] == m[keys[i]]
  {
    if keys == [] then [] else [m[keys[0]]] + ValuesInOrder(keys[1..], m)
  }

  /** `list(switches.values())` for a dictionary whose insertion order is
      `order`: every stored switch once, in insertion order. */
  function UserList(order: seq<string>, switches: map<string, Dict>): (list: seq<Dict>)
    requires Listed(order, switches)
    ensures |list| == |order| == |switches|
    ensures forall i :: 0 <= i < |list| ==> order[i] in switches && list[i] == switches[order[i]]
  {
    DistinctCard(order, switches.Keys);
    ValuesInOrder(order, switches)
  }

  /** What the user file holds: a version tag and the list of switches. */
  datatype UserDoc = UserDoc(version: int, switches: seq<Dict>)

  const USER_VERSION: int := 1
}
