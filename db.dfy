/** Db of db.py, the older single-file switch database: reconciles the user's
    switch list with a persisted name -> ids map, lists the orphaned entries
    and imports original platform switches.

    As in module Blended, the load is specified by pure functions over
    `DbState`, and the class `Db` is proved to produce the state they
    describe. */
module Database {
  import opened Values
  import opened Naming
  import opened MetaStore

  /** What DB_SCHEMA makes of one user entry: its (textual) name and the entry
      with the defaults filled in; `None` where the schema raises. */
  datatype Checked = Checked(name: string, fields: Dict)

  /** What the host provides: slugify, the n-th uuid4() text, and DB_SCHEMA. */
  datatype DbEnv = DbEnv(slug: Slugify, draw: nat -> string, schema: Dict -> Option<Checked>)

  /** The meta file of db.py: a version tag and the name -> ids map. */
  datatype DbMetaDoc = DbMetaDoc(version: int, switches: SwitchMetaGroup)

  const DB_META_VERSION: int := 1

  /** The entry DB_SCHEMA hands back, name included. */
  function Validated(c: Checked): Dict
  {
    c.fields[ATTR_NAME := VStr(c.name)]
  }

  /** The working state of `load`: the local `meta_data` (entries not yet
      claimed), the published switches (with their insertion order), the
      claimed meta, the dirty flag and the number of uuids drawn. */
  datatype DbState = DbState(
    meta: SwitchMetaGroup,
    switches: map<string, Dict>,
    order: seq<string>,
    kept: SwitchMetaGroup,
    changed: bool,
    issued: nat)

  datatype DbOutcome = Loaded(st: DbState) | Failed(changed: bool, issued: nat)

  /** db.py:130-158, one user entry. An entry the schema rejects raises. A name
      without a persisted unique id gets a fresh one and the entity id
      "switch." + slug(name), and sets the dirty flag. An entry whose meta has
      no entity id is skipped and its meta stays unclaimed; otherwise the
      switch is published under its unique id with the meta entity id, and its
      meta moves to the claimed map. */
  function DbStep(env: DbEnv, st: DbState, sw: Dict): DbOutcome
  {
    match env.schema(sw)
    case None => Failed(st.changed, st.issued)
    case Some(c) =>
      var name := c.name;
      var s1 :=
        if name in st.meta && st.meta[name].uniqueId.Some? then st
        else st.(meta := st.meta[name := SwitchMeta(Some(MakeUniqueId(env.draw(st.issued))),
                                                    Some(MakeDbEntityId(env.slug, SWITCH_PLATFORM, name)))],
                 changed := true, issued := st.issued + 1);
      var m := s1.meta[name];
      if m.entityId.None? then Loaded(s1)
      else
        var uid := m.uniqueId.value;
        Loaded(s1.(switches := s1.switches[uid := Validated(c)[ATTR_ENTITY_ID := VStr(m.entityId.value)]],
                   order := if uid in s1.switches then s1.order else s1.order + [uid],
                   kept := s1.kept[name := m],
                   meta := s1.meta - {name}))
  }

  /** The loop of `load` over the user's list. */
  function DbFold(env: DbEnv, st: DbState, list: seq<Dict>): DbOutcome
    decreases |list|
  {
    if list == [] then Loaded(st)
    else
      match DbStep(env, st, list[0])
      case Failed(c, k) => Failed(c, k)
      case Loaded(s1) => DbFold(env, s1, list[1..])
  }

  /** What `load` reads from the meta file: its map, or `{}` when unreadable. */
  function ReadDbMeta(contents: Option<DbMetaDoc>): SwitchMetaGroup
  {
    if contents.Some? then contents.value.switches else map[]
  }

  /** The state `load` starts from. */
  function DbStart(meta: SwitchMetaGroup, changed: bool, issued: nat): DbState
  {
    DbState(meta, map[], [], map[], changed, issued)
  }

  /** An orphaned meta entry: the persisted ids with the name added. */
  datatype Orphan = Orphan(name: string, uniqueId: string, entityId: Option<string>)

  /** A leftover entry without a unique id makes the orphan loop raise. */
  predicate LeftoverWithoutId(meta: SwitchMetaGroup)
  {
    exists n :: n in meta && meta[n].uniqueId.None?
  }

  /** db.py:162-165: the orphans, keyed by unique id, are exactly the
      leftover entries, each with its name. */
  ghost predicate OrphansOf(meta: SwitchMetaGroup, orphans: map<string, Orphan>)
  {
    && (forall uid :: uid in orphans <==> exists n :: n in meta && meta[n].uniqueId == Some(uid))
    && (forall uid :: uid in orphans ==>
          var o := orphans[uid];
          o.name in meta && o.uniqueId == uid && meta[o.name] == SwitchMeta(Some(uid), o.entityId))
  }

  /** The caller's dictionary, which `import_switch` changes in place. */
  class SwitchDict {
    var fields: Dict

    constructor (fields: Dict)
      ensures this.fields == fields
    {
      this.fields := fields;
    }
  }

  /** The object of db.py's Db. */
  class Db {
    const env: DbEnv
    const metaFile: JsonFile<DbMetaDoc>
    const userFile: JsonFile<UserDoc>

    var switches: map<string, Dict>
    var order: seq<string>
    var metaData: SwitchMetaGroup
    var orphaned: map<string, Orphan>
    var changed: bool
    var issued: nat

    /** `order` lists each unique id of `_switches` once. */
    ghost predicate Valid()
      reads this
    {
      Listed(order, switches)
    }

    predicate Empty()
      reads this
    {
      switches == map[] && order == [] && metaData == map[] && orphaned == map[]
    }

    constructor (env: DbEnv, metaFile: JsonFile<DbMetaDoc>, userFile: JsonFile<UserDoc>)
      ensures Valid() && Empty() && !changed && issued == 0
      ensures this.env == env && this.metaFile == metaFile && this.userFile == userFile
    {
      this.env := env;
      this.metaFile := metaFile;
      this.userFile := userFile;
      switches, order, metaData, orphaned := map[], [], map[], map[];
      changed, issued := false, 0;
    }

    /** db.py:82-91: write the claimed meta; the dirty flag is cleared only
        when the write succeeds. */
    method SaveMetaData()
      modifies metaFile, this`changed
      ensures metaFile.writable == old(metaFile.writable)
      ensures metaFile.contents ==
        if old(metaFile.writable) then Some(DbMetaDoc(DB_META_VERSION, metaData)) else old(metaFile.contents)
      ensures changed == (old(changed) && !old(metaFile.writable))
    {
      var ok := metaFile.Write(DbMetaDoc(DB_META_VERSION, metaData));
      if ok {
        changed := false;
      }
    }


    /** db.py:93-100: write the switches; a failed write changes nothing. */
    method SaveUserData()
      requires Valid()
      modifies userFile
      ensures userFile.writable == old(userFile.writable)
      ensures userFile.contents ==
        if old(userFile.writable) then Some(UserDoc(USER_VERSION, UserList(order, switches))) else old(userFile.contents)
    {
      var _ := userFile.Write(UserDoc(USER_VERSION, UserList(order, switches)));
    }
  
    /** The working state of `load`, given its local `meta_data`. */
    function StateWith(meta: SwitchMetaGroup): DbState
      reads this
    {
      DbState(meta, switches, order, metaData, changed, issued)
    }

    /** db.py:130-158, one entry, on the object's fields. */
    method LoadOne(meta: SwitchMetaGroup, sw: Dict) returns (raised: bool, meta': SwitchMetaGroup)
      modifies this`switches, this`order, this`metaData, this`changed, this`issued
      ensures match DbStep(env, old(StateWith(meta)), sw)
              case Loaded(r) => !raised && StateWith(meta') == r
              case Failed(c, k) => raised && changed == c && issued == k
    {
      meta' := meta;
      var checked := env.schema(sw);
      if checked.None? {
        return true, meta';
      }
      var c := checked.value;
      var name := c.name;
      var uniqueId: string;
      if name in meta' && meta'[name].uniqueId.Some? {
        uniqueId := meta'[name].uniqueId.value;
      } else {
        uniqueId := MakeUniqueId(env.draw(issued));
        issued := issued + 1;
        meta' := meta'[name := SwitchMeta(Some(uniqueId), Some(MakeDbEntityId(env.slug, SWITCH_PLATFORM, name)))];
        changed := true;
      }
      var entityId := meta'[name].entityId;
      if entityId.None? {
        return false, meta';
      }
      if uniqueId !in switches {
        order := order + [uniqueId];
      }
      switches := switches[uniqueId := Validated(c)[ATTR_ENTITY_ID := VStr(entityId.value)]];
      metaData := metaData[name := meta'[name]];
      meta' := meta' - {name};
      raised := false;
    }

    /** The loop of `load` over the user's list, on the object's fields. */
    method LoadAll(meta: SwitchMetaGroup, list: seq<Dict>) returns (raised: bool, meta': SwitchMetaGroup)
      modifies this`switches, this`order, this`metaData, this`changed, this`issued
      ensures match DbFold(env, old(StateWith(meta)), list)
              case Loaded(r) => !raised && StateWith(meta') == r
              case Failed(c, k) => raised && changed == c && issued == k
    {
      meta' := meta;
      var i := 0;
      while i < |list|
        invariant 0 <= i <= |list|
        invariant DbFold(env, StateWith(meta'), list[i..]) == DbFold(env, old(StateWith(meta)), list)
      {
        assert list[i..][0] == list[i] && list[i..][1..] == list[i + 1..];
        raised, meta' := LoadOne(meta', list[i]);
        if raised {
          return;
        }
        i := i + 1;
      }
      raised := false;
    }

    /** db.py:162-165: every leftover entry becomes an orphan, keyed by its
        unique id, and sets the dirty flag; one without a unique id raises
        (KeyError). The source walks the entries in insertion order, this
        walks them in any order. */
    method CollectOrphans(meta: SwitchMetaGroup) returns (raised: bool)
      requires orphaned == map[]
      modifies this`orphaned, this`changed
      ensures raised <==> LeftoverWithoutId(meta)
      ensures !raised ==> OrphansOf(meta, orphaned) && changed == (old(changed) || meta != map[])
      ensures raised ==> (old(changed) ==> changed) && (changed ==> old(changed) || meta != map[])
    {
      var orphans: map<string, Orphan> := map[];
      var todo := meta.Keys;
      while todo != {}
        invariant todo <= meta.Keys
        invariant old(changed) ==> changed
        invariant changed ==> old(changed) || meta != map[]
        invariant forall n :: n in meta && n !in todo ==>
                    meta[n].uniqueId.Some? && meta[n].uniqueId.value in orphans
        invariant forall uid :: uid in orphans ==>
                    var o := orphans[uid];
                    o.name in meta && o.name !in todo && o.uniqueId == uid && meta[o.name] == SwitchMeta(Some(uid), o.entityId)
        invariant todo != meta.Keys ==> changed
        decreases todo
      {
        var name :| name in todo;
        var values := meta[name];
        if values.uniqueId.None? {
          orphaned := orphans;
          return true;
        }
        orphans := orphans[values.uniqueId.value := Orphan(name, values.uniqueId.value, values.entityId)];
        changed := true;
        todo := todo - {name};
      }
      orphaned := orphans;
      raised := false;
    }
  
    /** db.py:102-177 `load`: reconcile the user's list with the persisted
        ids, list the orphans, and save the claimed meta when anything
        changed. Any exception (an unreadable user file, an entry the schema
        rejects, a leftover entry without a unique id) empties every result
        but keeps the dirty flag. */
    method Load()
      modifies this, metaFile
      ensures Valid()
      ensures metaFile.writable == old(metaFile.writable)
      ensures match old(userFile.contents)
        case None =>
          Empty() && changed == old(changed) && issued == old(issued) && metaFile.contents == old(metaFile.contents)
        case Some(doc) =>
          match DbFold(env, DbStart(ReadDbMeta(old(metaFile.contents)), old(changed), old(issued)), doc.switches)
          case Failed(c, k) =>
            Empty() && changed == c && issued == k && metaFile.contents == old(metaFile.contents)
          case Loaded(r) =>
            if LeftoverWithoutId(r.meta) then
              && Empty() && issued == r.issued && metaFile.contents == old(metaFile.contents)
              && (r.changed ==> changed) && (changed ==> r.changed || r.meta != map[])
            else
              && switches == r.switches && order == r.order && metaData == r.kept
              && OrphansOf(r.meta, orphaned) && issued == r.issued
              && var needed := r.changed || r.meta != map[];
                 && metaFile.contents ==
                    (if needed && old(metaFile.writable) then Some(DbMetaDoc(DB_META_VERSION, r.kept))
                     else old(metaFile.contents))
                 && changed == (needed && !old(metaFile.writable))
    {
      switches, order, metaData, orphaned := map[], [], map[], map[];
      var meta := ReadDbMeta(metaFile.contents);
      if userFile.contents.None? {
        return;
      }
      var list := userFile.contents.value.switches;
      ghost var start := StateWith(meta);
      var raised, leftover := LoadAll(meta, list);
      if !raised {
        DbFoldListed(env, start, list, DbFold(env, start, list).st);
        raised := CollectOrphans(leftover);
      }
      if raised {
        switches, order, metaData, orphaned := map[], [], map[], map[];
        return;
      }
      if changed {
        SaveMetaData();
      }
    }

    /** db.py:185-210 `import_switch`: removes `platform` from the caller's
        dictionary and rewrites its name there (`!x` becomes `x`, anything
        else gets "momentary " in front), stores it under the unique id the
        platform-era entity had, records that id and the original entity id
        under the rewritten name, and saves both files. A name that is missing
        or not text raises once `platform` is gone (`ok` false). */
    method ImportSwitch(entry: SwitchDict) returns (ok: bool)
      requires Valid()
      modifies this, entry, metaFile, userFile
      ensures Valid()
      ensures ok <==> ATTR_NAME in old(entry.fields) && old(entry.fields)[ATTR_NAME].VStr?
      ensures orphaned == old(orphaned) && issued == old(issued)
      ensures metaFile.writable == old(metaFile.writable) && userFile.writable == old(userFile.writable)
      ensures !ok ==>
        && entry.fields == old(entry.fields) - {CONF_PLATFORM}
        && switches == old(switches) && order == old(order) && metaData == old(metaData) && changed == old(changed)
        && metaFile.contents == old(metaFile.contents) && userFile.contents == old(userFile.contents)
      ensures ok ==>
        var name := old(entry.fields)[ATTR_NAME].s;
        var uid := MakeOriginalUniqueId(env.slug, name);
        && entry.fields == (old(entry.fields) - {CONF_PLATFORM})[ATTR_NAME := VStr(MakeOriginalName(name))]
        && switches == old(switches)[uid := entry.fields]
        && order == (if uid in old(switches) then old(order) else old(order) + [uid])
        && metaData == old(metaData)[MakeOriginalName(name) :=
             SwitchMeta(Some(uid), Some(MakeOriginalEntityId(env.slug, SWITCH_PLATFORM, name)))]
        && metaFile.contents ==
           (if old(metaFile.writable) then Some(DbMetaDoc(DB_META_VERSION, metaData)) else old(metaFile.contents))
        && changed == (old(changed) && !old(metaFile.writable))
        && userFile.contents ==
           (if old(userFile.writable) then Some(UserDoc(USER_VERSION, UserList(order, switches))) else old(userFile.contents))
    {
      entry.fields := entry.fields - {CONF_PLATFORM};
      if ATTR_NAME !in entry.fields || !entry.fields[ATTR_NAME].VStr? {
        return false;
      }
      var name := entry.fields[ATTR_NAME].s;
      var uniqueId := MakeOriginalUniqueId(env.slug, name);
      var entityId := MakeOriginalEntityId(env.slug, SWITCH_PLATFORM, name);
      entry.fields := entry.fields[ATTR_NAME := VStr(MakeOriginalName(name))];
      if uniqueId !in switches {
        order := order + [uniqueId];
      }
      switches := switches[uniqueId := entry.fields];
      metaData := metaData[MakeOriginalName(name) := SwitchMeta(Some(uniqueId), Some(entityId))];
      SaveMetaData();
      SaveUserData();
      ok := true;
    }
  }

  /** Loading keeps the insertion order of the published switches in step
      with their keys. */
  lemma {:induction false} DbFoldListed(env: DbEnv, st: DbState, list: seq<Dict>, r: DbState)
    requires DbFold(env, st, list) == Loaded(r)
    requires Listed(st.order, st.switches)
    ensures Listed(r.order, r.switches)
    decreases |list|
  {
    if list != [] {
      var s1 := DbStep(env, st, list[0]).st;
      DbFoldListed(env, s1, list[1..], r);
    }
  }
}
