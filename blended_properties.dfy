/** What the blended reconciliation of cfg.py guarantees, proved about the
    functions of module Blended (and so, through its methods' contracts, about
    BlendedCfg.AsyncLoad). */
module BlendedProperties {
  import opened Values
  import opened Naming
  import opened MetaStore
  import opened Blended

  // ---------------------------------------------------------------------
  // Names in a user list

  /** The name of a switch, when it has a textual one. */
  function NameOf(sw: Dict): Option<string>
  {
    GetString(sw, ATTR_NAME)
  }

  function NameSet(sws: seq<Dict>): set<string>
    decreases |sws|
  {
    if sws == [] then {}
    else (if NameOf(sws[0]).Some? then {NameOf(sws[0]).value} else {}) + NameSet(sws[1..])
  }

  /** No two switches of a device share a name. */
  predicate DistinctSwitches(sws: seq<Dict>)
    decreases |sws|
  {
    sws == [] ||
    (DistinctSwitches(sws[1..]) && (NameOf(sws[0]).Some? ==> NameOf(sws[0]).value !in NameSet(sws[1..])))
  }

  /** The switches an entry holds. */
  function EntrySwitches(e: UserEntry): seq<Dict>
  {
    match e
    case Single(sw) => [sw]
    case Device(_, sws) => if sws.Some? then sws.value else []
    case _ => []
  }

  /** The device an entry names. */
  function EntryDevice(e: UserEntry): Option<string>
  {
    match e
    case Single(sw) => NameOf(sw)
    case Device(d, _) => if d.VStr? then Some(d.s) else None
    case _ => None
  }

  function SwitchNames(entries: seq<UserEntry>): set<string>
    decreases |entries|
  {
    if entries == [] then {} else NameSet(EntrySwitches(entries[0])) + SwitchNames(entries[1..])
  }

  function DeviceNames(entries: seq<UserEntry>): set<string>
    decreases |entries|
  {
    if entries == [] then {}
    else (if EntryDevice(entries[0]).Some? then {EntryDevice(entries[0]).value} else {}) + DeviceNames(entries[1..])
  }

  /** No two switches of the whole list share a name. */
  predicate DistinctEntries(entries: seq<UserEntry>)
    decreases |entries|
  {
    entries == [] ||
    (DistinctEntries(entries[1..]) && DistinctSwitches(EntrySwitches(entries[0]))
     && NameSet(EntrySwitches(entries[0])) !! SwitchNames(entries[1..]))
  }

  predicate SwitchesWellFormed(sws: seq<Dict>)
  {
    forall i :: 0 <= i < |sws| ==> NameOf(sws[i]).Some?
  }

  /** An entry the source can process without raising. */
  predicate EntryWellFormed(e: UserEntry)
  {
    match e
    case Single(sw) => NameOf(sw).Some?
    case Device(d, sws) => d.VStr? && sws.Some? && SwitchesWellFormed(sws.value)
    case Malformed => true
    case Broken => false
  }

  predicate WellFormed(entries: seq<UserEntry>)
  {
    forall i :: 0 <= i < |entries| ==> EntryWellFormed(entries[i])
  }

  // ---------------------------------------------------------------------
  // Invariants of the working state

  predicate SameAt<K, V(==)>(a: map<K, V>, b: map<K, V>, k: K)
  {
    (k in a <==> k in b) && (k in a ==> a[k] == b[k])
  }

  /** Every device marked in use has an id and agrees with the working copy. */
  predicate Synced(st: LoadState)
  {
    forall n :: n in st.dmeta ==> n in st.dIn && st.dIn[n] == st.dmeta[n] && st.dmeta[n].deviceId.Some?
  }

  /** Every switch entry marked in use has both ids. */
  predicate InUseComplete(st: LoadState)
  {
    forall n :: n in st.smeta ==> Complete(st.smeta[n])
  }

  /** No persisted switch entry has a unique id without an entity id (the only
      kind of entry the source skips). */
  predicate NoHalfEntries(sm: SwitchMetaGroup)
  {
    forall n :: n in sm && sm[n].uniqueId.Some? ==> sm[n].entityId.Some?
  }

  function Restrict<V>(m: map<string, V>, keys: set<string>): map<string, V>
  {
    map k | k in keys && k in m :: m[k]
  }

  // ---------------------------------------------------------------------
  // A load raises exactly on the entries the source cannot take apart

  lemma {:induction false} SwitchesFoldOk(env: Env, st: LoadState, id: string, sws: seq<Dict>)
    ensures SwitchesFold(env, st, id, sws).Ok? <==> SwitchesWellFormed(sws)
    decreases |sws|
  {
    if sws != [] {
      match SwitchStep(env, st, id, sws[0]) {
        case Raised(_, _) =>
        case Ok(s1) =>
          SwitchesFoldOk(env, s1, id, sws[1..]);
          assert SwitchesWellFormed(sws) <==> SwitchesWellFormed(sws[1..]) by {
            if SwitchesWellFormed(sws[1..]) {
              forall i | 0 <= i < |sws| ensures NameOf(sws[i]).Some? {
                if i > 0 { assert sws[i] == sws[1..][i - 1]; }
              }
            }
          }
      }
    }
  }

  /** A device's loop that raises at a switch without a name keeps what the
      switches before it did: their uuid draws and the dirty flag they set
      survive the raise (and so reach the next completed load's save). */
  lemma {:induction false} RaiseKeepsEarlierDraws(env: Env, st: LoadState, id: string, pre: seq<Dict>, bad: Dict, post: seq<Dict>)
    requires SwitchesFold(env, st, id, pre).Ok?
    requires ATTR_NAME !in bad
    ensures var done := SwitchesFold(env, st, id, pre).st;
      SwitchesFold(env, st, id, pre + [bad] + post) == Raised(done.changed, done.issued)
    decreases |pre|
  {
    if pre == [] {
      assert pre + [bad] + post == [bad] + post;
    } else {
      var s1 := SwitchStep(env, st, id, pre[0]).st;
      assert (pre + [bad] + post)[0] == pre[0];
      assert (pre + [bad] + post)[1..] == pre[1..] + [bad] + post;
      RaiseKeepsEarlierDraws(env, s1, id, pre[1..], bad, post);
    }
  }

  /** A new switch followed by an element that is not a mapping (for example
      `[{name: c}, "x"]`): the raise comes after the new switch drew its uuid
      and set the dirty flag. */
  lemma NewSwitchThenNonMapping(env: Env, st: LoadState, id: string, c: string)
    requires !SwitchKnown(st.sIn, c)
    ensures SwitchesFold(env, st, id, [map[ATTR_NAME := VStr(c)], map[]]) == Raised(true, st.issued + 1)
  {
    var sw: Dict := map[ATTR_NAME := VStr(c)];
    assert SwitchesFold(env, st, id, [sw]) == Ok(SwitchStep(env, st, id, sw).st) by {
      assert [sw][1..] == [];
    }
    RaiseKeepsEarlierDraws(env, st, id, [sw], map[], []);
    assert [sw] + [map[]] + [] == [sw, map[]];
  }

  /** `async_load` gets through the user's list exactly when every entry has
      the shape the source expects: a textual name on every switch and device,
      and a list under every device key. */
  lemma {:induction false} LoadRaisesIffIllFormed(env: Env, st: LoadState, entries: seq<UserEntry>)
    ensures EntriesFold(env, st, entries).Ok? <==> WellFormed(entries)
    decreases |entries|
  {
    if entries != [] {
      var e := entries[0];
      var o := EntryStep(env, st, e);
      assert o.Ok? <==> EntryWellFormed(e) by {
        match e {
          case Single(sw) =>
            if ATTR_NAME in sw && sw[ATTR_NAME].VStr? {
              var s1 := ClaimDevice(env, st, sw[ATTR_NAME].s);
              SwitchesFoldOk(env, s1, s1.dIn[sw[ATTR_NAME].s].deviceId.value, [sw]);
            }
          case Device(d, sws) =>
            if d.VStr? && sws.Some? {
              var s1 := ClaimDevice(env, st, d.s);
              SwitchesFoldOk(env, s1, s1.dIn[d.s].deviceId.value, sws.value);
            }
          case Malformed =>
          case Broken =>
        }
      }
      if o.Ok? {
        LoadRaisesIffIllFormed(env, o.st, entries[1..]);
      }
      assert WellFormed(entries) <==> EntryWellFormed(e) && WellFormed(entries[1..]) by {
        if EntryWellFormed(e) && WellFormed(entries[1..]) {
          forall i | 0 <= i < |entries| ensures EntryWellFormed(entries[i]) {
            if i > 0 { assert entries[i] == entries[1..][i - 1]; }
          }
        }
      }
    }
  }

  // ---------------------------------------------------------------------
  // What a load leaves alone, and the invariants it keeps

  /** One switch: as SwitchesFrame below. */
  lemma SwitchStepFrame(env: Env, st: LoadState, id: string, sw: Dict, r: LoadState)
    requires SwitchStep(env, st, id, sw) == Ok(r)
    ensures NameOf(sw).Some?
    ensures r.dIn == st.dIn && r.dmeta == st.dmeta && r.devices == st.devices
    ensures st.issued <= r.issued && r.changed == (st.changed || r.issued > st.issued)
    ensures forall n :: n != NameOf(sw).value ==> SameAt(st.sIn, r.sIn, n) && SameAt(st.smeta, r.smeta, n)
  {
  }

  /** One switch: the invariants on the meta tables. */
  lemma SwitchStepTables(env: Env, st: LoadState, id: string, sw: Dict, r: LoadState)
    requires SwitchStep(env, st, id, sw) == Ok(r)
    ensures NameOf(sw).Some?
    ensures InUseComplete(st) ==> InUseComplete(r)
    ensures NoHalfEntries(st.sIn) ==> NoHalfEntries(r.sIn) && r.smeta.Keys == st.smeta.Keys + {NameOf(sw).value}
  {
    SwitchStepComplete(env, st, id, sw, r);
    if NoHalfEntries(st.sIn) {
      SwitchStepNoHalf(env, st, id, sw, r);
    }
  }

  /** One switch: an entry moves into use only with both ids. */
  lemma SwitchStepComplete(env: Env, st: LoadState, id: string, sw: Dict, r: LoadState)
    requires SwitchStep(env, st, id, sw) == Ok(r)
    ensures InUseComplete(st) ==> InUseComplete(r)
  {
    var name := NameOf(sw).value;
    var m := ClaimSwitch(env, st, name).sIn[name];
    if m.entityId.Some? {
      assert r.smeta == st.smeta[name := m];
    }
  }

  /** One switch, when no persisted entry is half-filled: none becomes so,
      and the switch's name moves into use. */
  lemma SwitchStepNoHalf(env: Env, st: LoadState, id: string, sw: Dict, r: LoadState)
    requires SwitchStep(env, st, id, sw) == Ok(r)
    requires NoHalfEntries(st.sIn)
    ensures NoHalfEntries(r.sIn) && r.smeta.Keys == st.smeta.Keys + {NameOf(sw).value}
  {
    var name := NameOf(sw).value;
    var s1 := ClaimSwitch(env, st, name);
    assert s1.sIn[name].entityId.Some?;
    assert r.sIn == s1.sIn - {name};
  }

  /** Over one device's switches: devices are untouched, the dirty flag is set
      exactly when a uuid is drawn, and only the entries of the names in the
      list move. */
  lemma {:induction false} SwitchesFrame(env: Env, st: LoadState, id: string, sws: seq<Dict>, r: LoadState)
    requires SwitchesFold(env, st, id, sws) == Ok(r)
    ensures r.dIn == st.dIn && r.dmeta == st.dmeta && r.devices == st.devices
    ensures st.issued <= r.issued && r.changed == (st.changed || r.issued > st.issued)
    ensures forall n :: n !in NameSet(sws) ==> SameAt(st.sIn, r.sIn, n) && SameAt(st.smeta, r.smeta, n)
    decreases |sws|
  {
    if sws != [] {
      var s1 := SwitchStep(env, st, id, sws[0]).st;
      SwitchStepFrame(env, st, id, sws[0], s1);
      SwitchesFrame(env, s1, id, sws[1..], r);
    }
  }

  /** Over one device's switches: entries in use stay complete, and when no
      persisted entry is half-filled every name of the list ends up in use. */
  lemma {:induction false} SwitchesTables(env: Env, st: LoadState, id: string, sws: seq<Dict>, r: LoadState)
    requires SwitchesFold(env, st, id, sws) == Ok(r)
    ensures InUseComplete(st) ==> InUseComplete(r)
    ensures NoHalfEntries(st.sIn) ==> NoHalfEntries(r.sIn) && r.smeta.Keys == st.smeta.Keys + NameSet(sws)
    decreases |sws|
  {
    if sws != [] {
      var s1 := SwitchStep(env, st, id, sws[0]).st;
      SwitchStepTables(env, st, id, sws[0], s1);
      SwitchesTables(env, s1, id, sws[1..], r);
    }
  }

  /** What an entry that goes through amounts to: the device is claimed, then
      its switches. */
  lemma EntryOkParts(env: Env, st: LoadState, e: UserEntry, s1: LoadState)
    requires EntryStep(env, st, e) == Ok(s1)
    ensures e.Malformed? ==> s1 == st
    ensures !e.Malformed? ==>
      && EntryDevice(e).Some?
      && var d := EntryDevice(e).value;
         var s0 := ClaimDevice(env, st, d);
         SwitchesFold(env, s0, s0.dIn[d].deviceId.value, EntrySwitches(e)) == Ok(s1)
  {
  }

  /** One entry of the list: as SwitchesFrame, plus the device bookkeeping. */
  lemma EntryFrame(env: Env, st: LoadState, e: UserEntry, r: LoadState)
    requires EntryStep(env, st, e) == Ok(r)
    ensures st.issued <= r.issued && r.changed == (st.changed || r.issued > st.issued)
    ensures forall n :: n !in NameSet(EntrySwitches(e)) ==> SameAt(st.sIn, r.sIn, n) && SameAt(st.smeta, r.smeta, n)
  {
    EntryOkParts(env, st, e, r);
    if !e.Malformed? {
      var d := EntryDevice(e).value;
      var s0 := ClaimDevice(env, st, d);
      SwitchesFrame(env, s0, s0.dIn[d].deviceId.value, EntrySwitches(e), r);
    }
  }

  /** One entry of the list: the device tables. */
  lemma EntryDevices(env: Env, st: LoadState, e: UserEntry, r: LoadState)
    requires EntryStep(env, st, e) == Ok(r)
    ensures forall d :: DeviceKnown(st.dIn, d) ==> SameAt(st.dIn, r.dIn, d)
    ensures forall d :: (EntryDevice(e).Some? ==> d != EntryDevice(e).value) ==> SameAt(st.dIn, r.dIn, d)
    ensures r.dmeta.Keys == st.dmeta.Keys + (if EntryDevice(e).Some? then {EntryDevice(e).value} else {})
    ensures Synced(st) ==> Synced(r) && forall d :: d in st.dmeta ==> SameAt(st.dmeta, r.dmeta, d)
  {
    EntryOkParts(env, st, e, r);
    if !e.Malformed? {
      var d := EntryDevice(e).value;
      var s0 := ClaimDevice(env, st, d);
      SwitchesFrame(env, s0, s0.dIn[d].deviceId.value, EntrySwitches(e), r);
    }
  }

  /** One entry of the list: the switch tables. */
  lemma EntryTables(env: Env, st: LoadState, e: UserEntry, r: LoadState)
    requires EntryStep(env, st, e) == Ok(r)
    ensures InUseComplete(st) ==> InUseComplete(r)
    ensures NoHalfEntries(st.sIn) ==> NoHalfEntries(r.sIn) && r.smeta.Keys == st.smeta.Keys + NameSet(EntrySwitches(e))
  {
    EntryOkParts(env, st, e, r);
    if !e.Malformed? {
      var d := EntryDevice(e).value;
      var s0 := ClaimDevice(env, st, d);
      SwitchesTables(env, s0, s0.dIn[d].deviceId.value, EntrySwitches(e), r);
    }
  }

  /** cfg.py:241-275: over a whole list, the dirty flag ends up set exactly
      when it was set before or a uuid was drawn, and the switch entries of
      names the list does not mention are left as they were. */
  lemma {:induction false} EntriesFrame(env: Env, st: LoadState, entries: seq<UserEntry>, r: LoadState)
    requires EntriesFold(env, st, entries) == Ok(r)
    ensures st.issued <= r.issued && r.changed == (st.changed || r.issued > st.issued)
    ensures forall n :: n !in SwitchNames(entries) ==> SameAt(st.sIn, r.sIn, n) && SameAt(st.smeta, r.smeta, n)
    decreases |entries|
  {
    if entries != [] {
      var s1 := EntryStep(env, st, entries[0]).st;
      EntryFrame(env, st, entries[0], s1);
      EntriesFrame(env, s1, entries[1..], r);
    }
  }

  /** cfg.py:241-258 over a whole list: a device with a persisted id keeps
      it, exactly the devices of the list end up in use, and devices in use
      keep the entry they had. */
  lemma {:induction false} EntriesDevices(env: Env, st: LoadState, entries: seq<UserEntry>, r: LoadState)
    requires EntriesFold(env, st, entries) == Ok(r)
    ensures forall d :: DeviceKnown(st.dIn, d) ==> SameAt(st.dIn, r.dIn, d)
    ensures r.dmeta.Keys == st.dmeta.Keys + DeviceNames(entries)
    ensures Synced(st) ==> Synced(r) && forall d :: d in st.dmeta ==> SameAt(st.dmeta, r.dmeta, d)
    decreases |entries|
  {
    if entries != [] {
      var s1 := EntryStep(env, st, entries[0]).st;
      EntryDevices(env, st, entries[0], s1);
      EntriesDevices(env, s1, entries[1..], r);
      forall d | DeviceKnown(st.dIn, d) ensures SameAt(st.dIn, r.dIn, d) {
        assert DeviceKnown(s1.dIn, d);
      }
    }
  }

  /** cfg.py:261-297 over a whole list: entries in use stay complete, and
      when no persisted switch entry is half-filled every switch of the list
      ends up in use. */
  lemma {:induction false} EntriesTables(env: Env, st: LoadState, entries: seq<UserEntry>, r: LoadState)
    requires EntriesFold(env, st, entries) == Ok(r)
    ensures InUseComplete(st) ==> InUseComplete(r)
    ensures NoHalfEntries(st.sIn) ==> NoHalfEntries(r.sIn) && r.smeta.Keys == st.smeta.Keys + SwitchNames(entries)
    decreases |entries|
  {
    if entries != [] {
      var s1 := EntryStep(env, st, entries[0]).st;
      EntryTables(env, st, entries[0], s1);
      EntriesTables(env, s1, entries[1..], r);
    }
  }

  // ---------------------------------------------------------------------
  // A reference reading of the load: every device and switch resolved from
  // fixed id tables, with nothing minted

  /** The devices map a list yields when each device's id is read from `dm`. */
  function ResolveDevices(entries: seq<UserEntry>, dm: DeviceMetaGroup, acc: map<string, string>): map<string, string>
    decreases |entries|
  {
    if entries == [] then acc
    else
      var d := EntryDevice(entries[0]);
      ResolveDevices(entries[1..], dm,
        if d.Some? && DeviceKnown(dm, d.value) then acc[dm[d.value].deviceId.value := MakeName(d.value)] else acc)
  }

  /** The switches map a device's list yields when each switch's ids are read
      from `sm`; a switch without both ids is left out. */
  function ResolveSwitches(sws: seq<Dict>, deviceId: string, sm: SwitchMetaGroup, acc: map<string, Dict>): map<string, Dict>
    decreases |sws|
  {
    if sws == [] then acc
    else
      var n := NameOf(sws[0]);
      ResolveSwitches(sws[1..], deviceId, sm,
        if n.Some? && n.value in sm && Complete(sm[n.value])
        then acc[sm[n.value].uniqueId.value := Finalize(sws[0], deviceId, sm[n.value].entityId.value, n.value)]
        else acc)
  }

  /** The switches map a whole list yields from the tables `dm` and `sm`. */
  function ResolveEntries(entries: seq<UserEntry>, dm: DeviceMetaGroup, sm: SwitchMetaGroup, acc: map<string, Dict>): map<string, Dict>
    decreases |entries|
  {
    if entries == [] then acc
    else
      var d := EntryDevice(entries[0]);
      ResolveEntries(entries[1..], dm, sm,
        if d.Some? && DeviceKnown(dm, d.value)
        then ResolveSwitches(EntrySwitches(entries[0]), dm[d.value].deviceId.value, sm, acc)
        else acc)
  }

  /** One switch whose name is not yet in use: either it is resolved under
      the complete entry it now has in use, or it is skipped. */
  lemma SwitchStepResolves(env: Env, st: LoadState, id: string, sw: Dict, r: LoadState)
    requires SwitchStep(env, st, id, sw) == Ok(r)
    requires NameOf(sw).Some? && NameOf(sw).value !in st.smeta
    ensures var n := NameOf(sw).value;
      if n in r.smeta
      then Complete(r.smeta[n]) && r.switches == st.switches[r.smeta[n].uniqueId.value := Finalize(sw, id, r.smeta[n].entityId.value, n)]
      else r.switches == st.switches
  {
  }

  /** A device's switches end up exactly as the reference resolution from
      the tables the load finishes with. */
  lemma {:induction false} SwitchesUseFinalIds(env: Env, st: LoadState, id: string, sws: seq<Dict>, r: LoadState, sm: SwitchMetaGroup)
    requires SwitchesFold(env, st, id, sws) == Ok(r)
    requires DistinctSwitches(sws) && NameSet(sws) !! st.smeta.Keys
    requires forall n :: n in NameSet(sws) ==> SameAt(r.smeta, sm, n)
    ensures r.switches == ResolveSwitches(sws, id, sm, st.switches)
    decreases |sws|
  {
    if sws != [] {
      var s1 := SwitchStep(env, st, id, sws[0]).st;
      var n := NameOf(sws[0]).value;
      SwitchStepFrame(env, st, id, sws[0], s1);
      SwitchStepResolves(env, st, id, sws[0], s1);
      SwitchesFrame(env, s1, id, sws[1..], r);
      assert NameSet(sws) == {n} + NameSet(sws[1..]);
      assert SameAt(s1.smeta, r.smeta, n);
      assert NameSet(sws[1..]) !! s1.smeta.Keys by {
        forall x | x in NameSet(sws[1..]) ensures x !in s1.smeta {
          assert x != n && SameAt(st.smeta, s1.smeta, x);
        }
      }
      SwitchesUseFinalIds(env, s1, id, sws[1..], r, sm);
    }
  }

  /** cfg.py:318-336: when no switch name repeats, what a load publishes
      (`_devices` and `_switches`) is the reference resolution of the list
      from the id tables it finishes with (`_dmeta_data` and `_smeta_data`):
      each device and switch appears under the id that is saved for it. */
  lemma {:induction false} EntriesUseFinalIds(env: Env, st: LoadState, entries: seq<UserEntry>, r: LoadState)
    requires EntriesFold(env, st, entries) == Ok(r)
    requires Synced(st)
    requires DistinctEntries(entries) && SwitchNames(entries) !! st.smeta.Keys
    ensures r.devices == ResolveDevices(entries, r.dmeta, st.devices)
    ensures r.switches == ResolveEntries(entries, r.dmeta, r.smeta, st.switches)
    decreases |entries|
  {
    if entries != [] {
      var e := entries[0];
      var s1 := EntryStep(env, st, e).st;
      EntryOkParts(env, st, e, s1);
      EntryFrame(env, st, e, s1);
      EntryDevices(env, st, e, s1);
      EntriesFrame(env, s1, entries[1..], r);
      EntriesDevices(env, s1, entries[1..], r);
      assert SwitchNames(entries) == NameSet(EntrySwitches(e)) + SwitchNames(entries[1..]);
      assert SwitchNames(entries[1..]) !! s1.smeta.Keys by {
        forall x | x in SwitchNames(entries[1..]) ensures x !in s1.smeta {
          assert x !in NameSet(EntrySwitches(e)) && SameAt(st.smeta, s1.smeta, x);
        }
      }
      EntriesUseFinalIds(env, s1, entries[1..], r);
      if !e.Malformed? {
        var d := EntryDevice(e).value;
        var s0 := ClaimDevice(env, st, d);
        var id := s0.dIn[d].deviceId.value;
        SwitchesFrame(env, s0, id, EntrySwitches(e), s1);
        assert d in s1.dmeta && s1.dmeta[d] == s0.dIn[d];
        assert DeviceKnown(r.dmeta, d) && r.dmeta[d].deviceId.value == id;
        forall n | n in NameSet(EntrySwitches(e)) ensures SameAt(s1.smeta, r.smeta, n) {
          assert n !in SwitchNames(entries[1..]);
        }
        SwitchesUseFinalIds(env, s0, id, EntrySwitches(e), s1, r.smeta);
      }
    }
  }

  // ---------------------------------------------------------------------
  // Known names draw no uuid

  lemma WellFormedTail(entries: seq<UserEntry>)
    requires entries != [] && WellFormed(entries)
    ensures EntryWellFormed(entries[0]) && WellFormed(entries[1..])
  {
    forall i | 0 <= i < |entries[1..]| ensures EntryWellFormed(entries[1..][i]) {
      assert entries[1..][i] == entries[i + 1];
    }
  }

  /** Adding one key in front of a restriction. */
  lemma RestrictCons<V>(a: map<string, V>, b: map<string, V>, c: map<string, V>, k: string, keys: set<string>)
    requires k in b
    requires forall x :: x in keys ==> SameAt(b, c, x)
    ensures a[k := b[k]] + Restrict(c, keys) == a + Restrict(b, {k} + keys)
  {
    var lhs := a[k := b[k]] + Restrict(c, keys);
    var rhs := a + Restrict(b, {k} + keys);
    assert lhs.Keys == rhs.Keys;
    forall x | x in lhs ensures lhs[x] == rhs[x] {
      if x in keys { assert SameAt(b, c, x); }
    }
  }

  /** One switch with a complete persisted entry: no uuid, the entry moves
      into use. */
  lemma KnownSwitchStep(env: Env, st: LoadState, id: string, sw: Dict)
    requires NameOf(sw).Some? && NameOf(sw).value in st.sIn && Complete(st.sIn[NameOf(sw).value])
    ensures var o := SwitchStep(env, st, id, sw); var n := NameOf(sw).value;
      && o.Ok? && o.st.issued == st.issued && o.st.changed == st.changed
      && o.st.smeta == st.smeta[n := st.sIn[n]] && o.st.sIn == st.sIn - {n}
  {
  }

  /** A device's switches whose names all have complete persisted entries
      draw no uuid and leave the dirty flag alone; each entry moves into use
      unchanged. */
  lemma {:induction false} KnownSwitchesMintNothing(env: Env, st: LoadState, id: string, sws: seq<Dict>)
    requires SwitchesWellFormed(sws) && DistinctSwitches(sws)
    requires forall n :: n in NameSet(sws) ==> n in st.sIn && Complete(st.sIn[n])
    ensures var o := SwitchesFold(env, st, id, sws);
      && o.Ok? && o.st.issued == st.issued && o.st.changed == st.changed
      && o.st.smeta == st.smeta + Restrict(st.sIn, NameSet(sws))
    decreases |sws|
  {
    if sws != [] {
      var n := NameOf(sws[0]).value;
      var rest := sws[1..];
      assert NameSet(sws) == {n} + NameSet(rest);
      assert SwitchesWellFormed(rest) by {
        forall i | 0 <= i < |rest| ensures NameOf(rest[i]).Some? {
          assert rest[i] == sws[i + 1];
        }
      }
      KnownSwitchStep(env, st, id, sws[0]);
      var s1 := SwitchStep(env, st, id, sws[0]).st;
      forall x | x in NameSet(rest) ensures SameAt(st.sIn, s1.sIn, x) {
        assert x != n;
      }
      KnownSwitchesMintNothing(env, s1, id, rest);
      RestrictCons(st.smeta, st.sIn, s1.sIn, n, NameSet(rest));
    }
  }

  /** Two restrictions in a row. */
  lemma RestrictUnion<V>(a: map<string, V>, b: map<string, V>, c: map<string, V>, keysA: set<string>, keysB: set<string>)
    requires forall x :: x in keysB ==> SameAt(b, c, x)
    ensures (a + Restrict(b, keysA)) + Restrict(c, keysB) == a + Restrict(b, keysA + keysB)
  {
    var lhs := (a + Restrict(b, keysA)) + Restrict(c, keysB);
    var rhs := a + Restrict(b, keysA + keysB);
    assert lhs.Keys == rhs.Keys;
    forall x | x in lhs ensures lhs[x] == rhs[x] {
      if x in keysB { assert SameAt(b, c, x); }
    }
  }

  /** One entry whose device and switches all have complete persisted
      entries. */
  lemma KnownEntryStep(env: Env, st: LoadState, e: UserEntry) returns (s1: LoadState)
    requires EntryWellFormed(e) && DistinctSwitches(EntrySwitches(e))
    requires EntryDevice(e).Some? ==> DeviceKnown(st.dIn, EntryDevice(e).value)
    requires forall n :: n in NameSet(EntrySwitches(e)) ==> n in st.sIn && Complete(st.sIn[n])
    ensures EntryStep(env, st, e) == Ok(s1)
    ensures s1.issued == st.issued && s1.changed == st.changed && s1.dIn == st.dIn
    ensures s1.dmeta ==
      if EntryDevice(e).Some? then st.dmeta[EntryDevice(e).value := st.dIn[EntryDevice(e).value]] else st.dmeta
    ensures s1.smeta == st.smeta + Restrict(st.sIn, NameSet(EntrySwitches(e)))
    ensures forall n :: n !in NameSet(EntrySwitches(e)) ==> SameAt(st.sIn, s1.sIn, n)
  {
    if e.Malformed? {
      s1 := st;
      assert NameSet(EntrySwitches(e)) == {};
    } else {
      var d := EntryDevice(e).value;
      var s0 := ClaimDevice(env, st, d);
      var id := s0.dIn[d].deviceId.value;
      assert SwitchesWellFormed(EntrySwitches(e));
      KnownSwitchesMintNothing(env, s0, id, EntrySwitches(e));
      s1 := SwitchesFold(env, s0, id, EntrySwitches(e)).st;
      SwitchesFrame(env, s0, id, EntrySwitches(e), s1);
    }
  }

  /** A list whose devices and switches all have complete persisted entries
      draws no uuid and leaves the dirty flag alone: every id in use is the
      persisted one. */
  lemma {:induction false} KnownEntriesMintNothing(env: Env, st: LoadState, entries: seq<UserEntry>)
    requires WellFormed(entries) && DistinctEntries(entries)
    requires forall d :: d in DeviceNames(entries) ==> DeviceKnown(st.dIn, d)
    requires forall n :: n in SwitchNames(entries) ==> n in st.sIn && Complete(st.sIn[n])
    ensures var o := EntriesFold(env, st, entries);
      && o.Ok? && o.st.issued == st.issued && o.st.changed == st.changed && o.st.dIn == st.dIn
      && o.st.dmeta == st.dmeta + Restrict(st.dIn, DeviceNames(entries))
      && o.st.smeta == st.smeta + Restrict(st.sIn, SwitchNames(entries))
    decreases |entries|
  {
    if entries != [] {
      var e := entries[0];
      var rest := entries[1..];
      WellFormedTail(entries);
      assert SwitchNames(entries) == NameSet(EntrySwitches(e)) + SwitchNames(rest);
      var s1 := KnownEntryStep(env, st, e);
      forall n | n in SwitchNames(rest) ensures n in s1.sIn && s1.sIn[n] == st.sIn[n] {
        assert n !in NameSet(EntrySwitches(e));
      }
      KnownEntriesMintNothing(env, s1, rest);
      if e.Malformed? {
        assert DeviceNames(entries) == DeviceNames(rest);
      } else {
        var d := EntryDevice(e).value;
        assert DeviceNames(entries) == {d} + DeviceNames(rest);
        RestrictCons(st.dmeta, st.dIn, st.dIn, d, DeviceNames(rest));
      }
      RestrictUnion(st.smeta, st.sIn, s1.sIn, NameSet(EntrySwitches(e)), SwitchNames(rest));
    }
  }

  // ---------------------------------------------------------------------
  // Loading again after a load changes nothing

  /** cfg.py:350-352: a completed load writes the document when it drew a
      uuid (or found the flag already set) or left a device unclaimed. */
  predicate SaveNeeded(r: LoadState)
  {
    r.changed || Unclaimed(r) != {}
  }

  /** The document a completed load leaves behind when its write succeeds. */
  function DocAfterLoad(doc: MetaDoc, group: string, r: LoadState): MetaDoc
  {
    if SaveNeeded(r) then SavedDoc(doc, group, r.dmeta, r.smeta) else doc
  }

  /** A load started from the id tables another load of the same list
      finished with draws no uuid and reproduces that load's results. */
  lemma ReloadFromTables(env: Env, st: LoadState, entries: seq<UserEntry>, r: LoadState)
    requires EntriesFold(env, st, entries) == Ok(r)
    requires st.devices == map[] && st.dmeta == map[] && st.switches == map[] && st.smeta == map[]
    requires DistinctEntries(entries) && NoHalfEntries(st.sIn)
    ensures
      var o := EntriesFold(env, LoadState(r.dmeta, r.smeta, map[], map[], map[], map[], false, r.issued), entries);
      && o.Ok? && o.st.issued == r.issued && !o.st.changed && o.st.dIn == r.dmeta
      && o.st.devices == r.devices && o.st.switches == r.switches
      && o.st.dmeta == r.dmeta && o.st.smeta == r.smeta
  {
    var st2 := LoadState(r.dmeta, r.smeta, map[], map[], map[], map[], false, r.issued);
    assert WellFormed(entries) by { LoadRaisesIffIllFormed(env, st, entries); }
    assert r.dmeta.Keys == DeviceNames(entries) && Synced(r) by { EntriesDevices(env, st, entries, r); }
    assert r.smeta.Keys == SwitchNames(entries) && InUseComplete(r) by { EntriesTables(env, st, entries, r); }
    KnownEntriesMintNothing(env, st2, entries);
    var r2 := EntriesFold(env, st2, entries).st;
    RestrictAll(r.dmeta, DeviceNames(entries));
    RestrictAll(r.smeta, SwitchNames(entries));
    EntriesUseFinalIds(env, st, entries, r);
    EntriesUseFinalIds(env, st2, entries, r2);
  }

  lemma RestrictAll<V>(m: map<string, V>, keys: set<string>)
    requires m.Keys == keys
    ensures map[] + Restrict(m, keys) == m
  {
  }

  /** cfg.py:318-352: once a load has completed and saved, loading the same
      list again from the saved document draws no uuid, finds no orphan,
      leaves the dirty flag clear (so writes nothing) and publishes the same
      devices, switches and id tables. Requires what makes the first load
      keep every switch: no repeated switch name and no persisted switch entry
      with a unique id but no entity id. */
  lemma ReloadIsIdempotent(env: Env, doc: MetaDoc, group: string, changed: bool, issued: nat, entries: seq<UserEntry>)
    requires DistinctEntries(entries) && NoHalfEntries(GroupSlice(doc, group).1)
    requires EntriesFold(env, StartState(doc, group, changed, issued), entries).Ok?
    requires !OrphanWithoutId(EntriesFold(env, StartState(doc, group, changed, issued), entries).st)
    ensures
      var r := EntriesFold(env, StartState(doc, group, changed, issued), entries).st;
      var o := EntriesFold(env, StartState(DocAfterLoad(doc, group, r), group, false, r.issued), entries);
      && o.Ok? && o.st.issued == r.issued && !o.st.changed
      && Unclaimed(o.st) == {} && !SaveNeeded(o.st) && !OrphanWithoutId(o.st)
      && o.st.devices == r.devices && o.st.switches == r.switches
      && o.st.dmeta == r.dmeta && o.st.smeta == r.smeta
  {
    var start := StartState(doc, group, changed, issued);
    var r := EntriesFold(env, start, entries).st;
    EntriesFrame(env, start, entries, r);
    var start2 := StartState(DocAfterLoad(doc, group, r), group, false, r.issued);
    if !SaveNeeded(r) {
      assert start2 == start;
    } else {
      assert GroupSlice(DocAfterLoad(doc, group, r), group) == (r.dmeta, r.smeta);
      assert start2 == LoadState(r.dmeta, r.smeta, map[], map[], map[], map[], false, r.issued);
      ReloadFromTables(env, start, entries, r);
    }
  }

  // ---------------------------------------------------------------------
  // Each name's ids: kept when persisted, drawn now when not

  /** cfg.py:241-258: a device of the list that has a persisted id is in use
      under that id; one that has none is in use under a uuid drawn during
      this load, and the load is marked changed. */
  lemma {:induction false} DeviceIdSettled(env: Env, st: LoadState, entries: seq<UserEntry>, r: LoadState, d: string)
    requires EntriesFold(env, st, entries) == Ok(r)
    requires Synced(st) && d in DeviceNames(entries)
    ensures d in r.dmeta
    ensures DeviceKnown(st.dIn, d) ==> r.dmeta[d] == st.dIn[d]
    ensures !DeviceKnown(st.dIn, d) ==>
      && r.changed
      && exists k :: st.issued <= k < r.issued && r.dmeta[d].deviceId == Some(MakeUniqueId(env.draw(k)))
    decreases |entries|
  {
    EntriesDevices(env, st, entries, r);
    var e := entries[0];
    var s1 := EntryStep(env, st, e).st;
    EntryOkParts(env, st, e, s1);
    EntryFrame(env, st, e, s1);
    EntryDevices(env, st, e, s1);
    EntriesFrame(env, s1, entries[1..], r);
    EntriesDevices(env, s1, entries[1..], r);
    if !DeviceKnown(st.dIn, d) {
      if EntryDevice(e) == Some(d) {
        var s0 := ClaimDevice(env, st, d);
        SwitchesFrame(env, s0, s0.dIn[d].deviceId.value, EntrySwitches(e), s1);
        assert DeviceKnown(s1.dIn, d) && SameAt(s1.dIn, r.dIn, d);
        assert r.dmeta[d].deviceId == Some(MakeUniqueId(env.draw(st.issued)));
      } else {
        assert d in DeviceNames(entries[1..]);
        assert SameAt(st.dIn, s1.dIn, d);
        DeviceIdSettled(env, s1, entries[1..], r, d);
      }
    }
  }

  /** One switch whose name is not yet in use: as SwitchIdSettled. */
  lemma SwitchStepSettles(env: Env, st: LoadState, id: string, sw: Dict, r: LoadState)
    requires SwitchStep(env, st, id, sw) == Ok(r)
    requires NameOf(sw).Some? && NameOf(sw).value !in st.smeta
    ensures var n := NameOf(sw).value;
      && (SwitchKnown(st.sIn, n) && Complete(st.sIn[n]) ==> n in r.smeta && r.smeta[n] == st.sIn[n])
      && (SwitchKnown(st.sIn, n) && !Complete(st.sIn[n]) ==> n !in r.smeta && SameAt(st.sIn, r.sIn, n))
      && (!SwitchKnown(st.sIn, n) ==>
            && r.changed && n in r.smeta && r.issued == st.issued + 1
            && r.smeta[n] == SwitchMeta(Some(MakeUniqueId(env.draw(st.issued))),
                                        Some(MakeEntityId(env.slug, SWITCH_PLATFORM, n))))
  {
  }

  /** cfg.py:266-297 over one device's switches: as SwitchIdSettled. */
  lemma {:induction false} SwitchesSettle(env: Env, st: LoadState, id: string, sws: seq<Dict>, r: LoadState, n: string)
    requires SwitchesFold(env, st, id, sws) == Ok(r)
    requires n in NameSet(sws) && n !in st.smeta && DistinctSwitches(sws)
    ensures SwitchKnown(st.sIn, n) && Complete(st.sIn[n]) ==> n in r.smeta && r.smeta[n] == st.sIn[n]
    ensures SwitchKnown(st.sIn, n) && !Complete(st.sIn[n]) ==> n !in r.smeta && SameAt(st.sIn, r.sIn, n)
    ensures !SwitchKnown(st.sIn, n) ==>
      && r.changed && n in r.smeta
      && r.smeta[n].entityId == Some(MakeEntityId(env.slug, SWITCH_PLATFORM, n))
      && exists k :: st.issued <= k < r.issued && r.smeta[n].uniqueId == Some(MakeUniqueId(env.draw(k)))
    decreases |sws|
  {
    var s1 := SwitchStep(env, st, id, sws[0]).st;
    SwitchStepFrame(env, st, id, sws[0], s1);
    SwitchesFrame(env, s1, id, sws[1..], r);
    assert NameSet(sws) == {NameOf(sws[0]).value} + NameSet(sws[1..]);
    if NameOf(sws[0]) == Some(n) {
      SwitchStepSettles(env, st, id, sws[0], s1);
      assert n !in NameSet(sws[1..]);
      assert SameAt(s1.smeta, r.smeta, n) && SameAt(s1.sIn, r.sIn, n);
      if !SwitchKnown(st.sIn, n) {
        assert r.smeta[n].uniqueId == Some(MakeUniqueId(env.draw(st.issued)));
      }
    } else {
      assert SameAt(st.sIn, s1.sIn, n) && SameAt(st.smeta, s1.smeta, n);
      SwitchesSettle(env, s1, id, sws[1..], r, n);
    }
  }

  /** cfg.py:266-297: a switch of the list whose persisted entry has both ids
      is in use under them; one whose entry has a unique id but no entity id
      is skipped and its entry stays unclaimed; one with no unique id is in
      use under a uuid drawn during this load and the entity id derived from
      its name, and the load is marked changed. */
  lemma {:induction false} SwitchIdSettled(env: Env, st: LoadState, entries: seq<UserEntry>, r: LoadState, n: string)
    requires EntriesFold(env, st, entries) == Ok(r)
    requires n in SwitchNames(entries) && n !in st.smeta && DistinctEntries(entries)
    ensures SwitchKnown(st.sIn, n) && Complete(st.sIn[n]) ==> n in r.smeta && r.smeta[n] == st.sIn[n]
    ensures SwitchKnown(st.sIn, n) && !Complete(st.sIn[n]) ==> n !in r.smeta && SameAt(st.sIn, r.sIn, n)
    ensures !SwitchKnown(st.sIn, n) ==>
      && r.changed && n in r.smeta
      && r.smeta[n].entityId == Some(MakeEntityId(env.slug, SWITCH_PLATFORM, n))
      && exists k :: st.issued <= k < r.issued && r.smeta[n].uniqueId == Some(MakeUniqueId(env.draw(k)))
    decreases |entries|
  {
    var e := entries[0];
    var s1 := EntryStep(env, st, e).st;
    EntryOkParts(env, st, e, s1);
    EntryFrame(env, st, e, s1);
    EntriesFrame(env, s1, entries[1..], r);
    assert SwitchNames(entries) == NameSet(EntrySwitches(e)) + SwitchNames(entries[1..]);
    if n in NameSet(EntrySwitches(e)) {
      var d := EntryDevice(e).value;
      var s0 := ClaimDevice(env, st, d);
      SwitchesSettle(env, s0, s0.dIn[d].deviceId.value, EntrySwitches(e), s1, n);
      assert n !in SwitchNames(entries[1..]);
    } else {
      SwitchIdSettled(env, s1, entries[1..], r, n);
    }
  }
}
