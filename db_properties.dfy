/** What the reconciliation of db.py's `load` guarantees, proved about the
    functions of module Database (and so, through its contract, about
    Db.Load). */
module DatabaseProperties {
  import opened Values
  import opened Naming
  import opened MetaStore
  import opened Database

  predicate SameAt<V(==)>(a: map<string, V>, b: map<string, V>, k: string)
  {
    (k in a <==> k in b) && (k in a ==> a[k] == b[k])
  }

  /** The names DB_SCHEMA gives the entries it accepts. */
  function Names(env: DbEnv, list: seq<Dict>): set<string>
    decreases |list|
  {
    if list == [] then {}
    else (if env.schema(list[0]).Some? then {env.schema(list[0]).value.name} else {}) + Names(env, list[1..])
  }

  /** No two entries share a name. */
  predicate DistinctNames(env: DbEnv, list: seq<Dict>)
    decreases |list|
  {
    list == [] ||
    (DistinctNames(env, list[1..])
     && (env.schema(list[0]).Some? ==> env.schema(list[0]).value.name !in Names(env, list[1..])))
  }

  predicate AllAccepted(env: DbEnv, list: seq<Dict>)
  {
    forall i :: 0 <= i < |list| ==> env.schema(list[i]).Some?
  }

  predicate Complete(m: SwitchMeta)
  {
    m.uniqueId.Some? && m.entityId.Some?
  }

  /** No persisted entry has a unique id but no entity id. */
  predicate NoHalfEntries(meta: SwitchMetaGroup)
  {
    forall n :: n in meta && meta[n].uniqueId.Some? ==> meta[n].entityId.Some?
  }

  /** Claimed and unclaimed meta never share a name, and every claimed entry
      has both ids. */
  predicate Partitioned(st: DbState)
  {
    st.kept.Keys !! st.meta.Keys && forall n :: n in st.kept ==> Complete(st.kept[n])
  }

  // ---------------------------------------------------------------------
  // When `load` raises

  /** db.py:133: `load` gets through the list exactly when the schema accepts
      every entry. */
  lemma {:induction false} DbLoadRaisesIffRejected(env: DbEnv, st: DbState, list: seq<Dict>)
    ensures DbFold(env, st, list).Loaded? <==> AllAccepted(env, list)
    decreases |list|
  {
    if list != [] {
      match DbStep(env, st, list[0]) {
        case Failed(_, _) =>
        case Loaded(s1) => DbLoadRaisesIffRejected(env, s1, list[1..]);
      }
      assert AllAccepted(env, list) <==> env.schema(list[0]).Some? && AllAccepted(env, list[1..]) by {
        if env.schema(list[0]).Some? && AllAccepted(env, list[1..]) {
          forall i | 0 <= i < |list| ensures env.schema(list[i]).Some? {
            if i > 0 { assert list[i] == list[1..][i - 1]; }
          }
        }
      }
    }
  }

  // ---------------------------------------------------------------------
  // What a load leaves alone, and the invariants it keeps

  lemma DbStepFrame(env: DbEnv, st: DbState, sw: Dict, r: DbState)
    requires DbStep(env, st, sw) == Loaded(r)
    ensures env.schema(sw).Some?
    ensures st.issued <= r.issued && r.changed == (st.changed || r.issued > st.issued)
    ensures forall n :: n != env.schema(sw).value.name ==> SameAt(st.meta, r.meta, n) && SameAt(st.kept, r.kept, n)
  {
  }

  lemma DbStepTables(env: DbEnv, st: DbState, sw: Dict, r: DbState)
    requires DbStep(env, st, sw) == Loaded(r)
    ensures env.schema(sw).Some?
    ensures Partitioned(st) ==> Partitioned(r)
    ensures r.kept.Keys + r.meta.Keys == st.kept.Keys + st.meta.Keys + {env.schema(sw).value.name}
    ensures r.kept.Keys <= st.kept.Keys + {env.schema(sw).value.name}
    ensures NoHalfEntries(st.meta) ==> NoHalfEntries(r.meta) && env.schema(sw).value.name in r.kept
  {
  }

  /** db.py:137-146: over the whole list the dirty flag ends up set exactly
      when it was set before or a uuid was drawn, and the entries of names the
      list does not mention are left as they were. */
  lemma {:induction false} DbFrame(env: DbEnv, st: DbState, list: seq<Dict>, r: DbState)
    requires DbFold(env, st, list) == Loaded(r)
    ensures st.issued <= r.issued && r.changed == (st.changed || r.issued > st.issued)
    ensures forall n :: n !in Names(env, list) ==> SameAt(st.meta, r.meta, n) && SameAt(st.kept, r.kept, n)
    decreases |list|
  {
    if list != [] {
      var s1 := DbStep(env, st, list[0]).st;
      DbStepFrame(env, st, list[0], s1);
      DbFrame(env, s1, list[1..], r);
    }
  }

  /** db.py:150-165: claimed and leftover meta stay apart and together cover
      every persisted name and every name of the list; only names of the list
      are claimed, each with both ids; when no persisted entry lacks its
      entity id, every name of the list is claimed. */
  lemma {:induction false} DbTables(env: DbEnv, st: DbState, list: seq<Dict>, r: DbState)
    requires DbFold(env, st, list) == Loaded(r)
    ensures Partitioned(st) ==> Partitioned(r)
    ensures r.kept.Keys + r.meta.Keys == st.kept.Keys + st.meta.Keys + Names(env, list)
    ensures r.kept.Keys <= st.kept.Keys + Names(env, list)
    ensures NoHalfEntries(st.meta) ==> NoHalfEntries(r.meta) && r.kept.Keys == st.kept.Keys + Names(env, list)
    decreases |list|
  {
    if list != [] {
      var s1 := DbStep(env, st, list[0]).st;
      DbStepTables(env, st, list[0], s1);
      DbTables(env, s1, list[1..], r);
    }
  }

  // ---------------------------------------------------------------------
  // Each name's ids: kept when persisted, drawn now when not

  lemma DbStepSettles(env: DbEnv, st: DbState, sw: Dict, r: DbState)
    requires DbStep(env, st, sw) == Loaded(r)
    requires env.schema(sw).Some? && env.schema(sw).value.name !in st.kept
    ensures var n := env.schema(sw).value.name;
      && (n in st.meta && Complete(st.meta[n]) ==> n in r.kept && r.kept[n] == st.meta[n] && n !in r.meta)
      && (n in st.meta && st.meta[n].uniqueId.Some? && st.meta[n].entityId.None? ==>
            n !in r.kept && SameAt(st.meta, r.meta, n))
      && (!(n in st.meta && st.meta[n].uniqueId.Some?) ==>
            && r.changed && n in r.kept && n !in r.meta && r.issued == st.issued + 1
            && r.kept[n] == SwitchMeta(Some(MakeUniqueId(env.draw(st.issued))),
                                       Some(MakeDbEntityId(env.slug, SWITCH_PLATFORM, n))))
  {
  }

  /** db.py:137-158: a name of the list whose persisted entry has both ids is
      claimed with them; one whose entry has a unique id but no entity id is
      skipped and left over; one without a unique id is claimed under a uuid
      drawn during this load and the entity id "switch." + slug(name), and the
      load is marked changed. */
  lemma {:induction false} DbNameSettled(env: DbEnv, st: DbState, list: seq<Dict>, r: DbState, n: string)
    requires DbFold(env, st, list) == Loaded(r)
    requires n in Names(env, list) && n !in st.kept && DistinctNames(env, list)
    ensures n in st.meta && Complete(st.meta[n]) ==> n in r.kept && r.kept[n] == st.meta[n] && n !in r.meta
    ensures n in st.meta && st.meta[n].uniqueId.Some? && st.meta[n].entityId.None? ==>
      n !in r.kept && SameAt(st.meta, r.meta, n)
    ensures !(n in st.meta && st.meta[n].uniqueId.Some?) ==>
      && r.changed && n in r.kept
      && r.kept[n].entityId == Some(MakeDbEntityId(env.slug, SWITCH_PLATFORM, n))
      && exists k :: st.issued <= k < r.issued && r.kept[n].uniqueId == Some(MakeUniqueId(env.draw(k)))
    decreases |list|
  {
    var s1 := DbStep(env, st, list[0]).st;
    DbStepFrame(env, st, list[0], s1);
    DbFrame(env, s1, list[1..], r);
    var c := env.schema(list[0]).value;
    assert Names(env, list) == {c.name} + Names(env, list[1..]);
    if c.name == n {
      DbStepSettles(env, st, list[0], s1);
      assert n !in Names(env, list[1..]);
      assert SameAt(s1.kept, r.kept, n) && SameAt(s1.meta, r.meta, n);
      if !(n in st.meta && st.meta[n].uniqueId.Some?) {
        assert r.kept[n].uniqueId == Some(MakeUniqueId(env.draw(st.issued)));
      }
    } else {
      assert SameAt(st.meta, s1.meta, n) && SameAt(st.kept, s1.kept, n);
      DbNameSettled(env, s1, list[1..], r, n);
    }
  }

  // ---------------------------------------------------------------------
  // A reference reading: every switch resolved from fixed ids

  /** The switches map a list yields when each switch's ids are read from
      `kept`; a switch without both ids is left out. */
  function ResolveDb(env: DbEnv, list: seq<Dict>, kept: SwitchMetaGroup, acc: map<string, Dict>): map<string, Dict>
    decreases |list|
  {
    if list == [] then acc
    else
      var c := env.schema(list[0]);
      ResolveDb(env, list[1..], kept,
        if c.Some? && c.value.name in kept && Complete(kept[c.value.name])
        then acc[kept[c.value.name].uniqueId.value :=
                   Validated(c.value)[ATTR_ENTITY_ID := VStr(kept[c.value.name].entityId.value)]]
        else acc)
  }

  lemma DbStepResolves(env: DbEnv, st: DbState, sw: Dict, r: DbState)
    requires DbStep(env, st, sw) == Loaded(r)
    requires env.schema(sw).Some? && env.schema(sw).value.name !in st.kept
    ensures var c := env.schema(sw).value;
      if c.name in r.kept
      then Complete(r.kept[c.name]) &&
           r.switches == st.switches[r.kept[c.name].uniqueId.value :=
                                     Validated(c)[ATTR_ENTITY_ID := VStr(r.kept[c.name].entityId.value)]]
      else r.switches == st.switches
  {
  }

  /** db.py:150-158: when no name repeats, the published switches are the
      reference resolution of the list from the claimed meta `load` finishes
      with: each switch sits under its claimed unique id and carries its
      claimed entity id. */
  lemma {:induction false} DbUsesFinalIds(env: DbEnv, st: DbState, list: seq<Dict>, r: DbState)
    requires DbFold(env, st, list) == Loaded(r)
    requires DistinctNames(env, list) && Names(env, list) !! st.kept.Keys
    ensures r.switches == ResolveDb(env, list, r.kept, st.switches)
    decreases |list|
  {
    if list != [] {
      var s1 := DbStep(env, st, list[0]).st;
      var c := env.schema(list[0]).value;
      DbStepFrame(env, st, list[0], s1);
      DbStepResolves(env, st, list[0], s1);
      DbFrame(env, s1, list[1..], r);
      assert Names(env, list) == {c.name} + Names(env, list[1..]);
      assert SameAt(s1.kept, r.kept, c.name);
      assert Names(env, list[1..]) !! s1.kept.Keys by {
        forall x | x in Names(env, list[1..]) ensures x !in s1.kept {
          assert x != c.name && SameAt(st.kept, s1.kept, x);
        }
      }
      DbUsesFinalIds(env, s1, list[1..], r);
    }
  }

  /** db.py:150-165: after a load from the persisted map, the claimed and the
      orphaned entries between them account for every persisted name and
      every name of the list, and no orphan carries a claimed name. */
  lemma OrphansApartFromKept(env: DbEnv, meta: SwitchMetaGroup, changed: bool, issued: nat, list: seq<Dict>,
                             r: DbState, orphans: map<string, Orphan>)
    requires DbFold(env, DbStart(meta, changed, issued), list) == Loaded(r)
    requires OrphansOf(r.meta, orphans)
    ensures forall uid :: uid in orphans ==> orphans[uid].name !in r.kept
    ensures r.kept.Keys + r.meta.Keys == meta.Keys + Names(env, list)
  {
    DbTables(env, DbStart(meta, changed, issued), list, r);
  }
}
