/** The first step of `async_process_yaml` (helpers.py:190-199): the entries
    of the `switch:` list of the YAML configuration that belong to this
    integration are gathered into a dictionary keyed by unique id, the first
    entry for an id winning. */
module PlatformSwitches {
  import opened Values

  const CONF_UNIQUE_ID: string := "unique_id"

  /** `slugify` applied to whatever value the `name` key holds. */
  type NameSlug = Value -> string

  /** Python truthiness of a configuration value. */
  predicate Truthy(v: Value)
  {
    match v
    case VNone => false
    case VBool(b) => b
    case VInt(i) => i != 0
    case VStr(s) => s != []
    case VDelta(td) => td.us != 0
  }

  /** `d.get(k)`. */
  function Get(d: Dict, k: string): Value
  {
    if k in d then d[k] else VNone
  }

  /** helpers.py:193-195: the unique id an entry is filed under, if any. An
      explicit `unique_id` is used as it is; without one, an entry with a
      name gets "momentary_" followed by the name's slug. None when the id
      is missing or falsy. */
  function UniqueIdOf(slug: NameSlug, sw: Dict): (r: Option<Value>)
    ensures r.Some? ==> Truthy(r.value)
    ensures CONF_UNIQUE_ID in sw ==> (r.Some? <==> Truthy(sw[CONF_UNIQUE_ID]))
    ensures CONF_UNIQUE_ID in sw && r.Some? ==> r.value == sw[CONF_UNIQUE_ID]
    ensures CONF_UNIQUE_ID !in sw ==> (r.Some? <==> Truthy(Get(sw, ATTR_NAME)))
    ensures CONF_UNIQUE_ID !in sw && r.Some? ==>
      r.value == VStr("momentary_" + slug(Get(sw, ATTR_NAME)))
  {
    var name := Get(sw, ATTR_NAME);
    var fallback := if Truthy(name) then VStr("momentary_" + slug(name)) else VNone;
    var uid := if CONF_UNIQUE_ID in sw then sw[CONF_UNIQUE_ID] else fallback;
    if Truthy(uid) then Some(uid) else None
  }

  /** Entry `sw` is one of this integration's and is filed under `u`. */
  predicate Claims(slug: NameSlug, sw: Dict, u: Value)
  {
    Get(sw, CONF_PLATFORM) == VStr(COMPONENT_DOMAIN) && UniqueIdOf(slug, sw) == Some(u)
  }

  /** The dictionary under construction, with its keys in insertion order. */
  datatype Collected = Collected(switches: map<Value, Dict>, order: seq<Value>)

  /** helpers.py:192-199, one entry: a copy without `platform` is stored
      under a new unique id; a repeated id, a foreign platform or a missing id
      leaves the dictionary as it is. */
  function Step(slug: NameSlug, c: Collected, sw: Dict): Collected
  {
    if Get(sw, CONF_PLATFORM) == VStr(COMPONENT_DOMAIN) then
      match UniqueIdOf(slug, sw)
      case Some(u) =>
        if u !in c.switches then Collected(c.switches[u := sw - {CONF_PLATFORM}], c.order + [u]) else c
      case None => c
    else c
  }

  /** The dictionary after the first |config| entries. */
  function Collect(slug: NameSlug, config: seq<Dict>): Collected
  {
    if config == [] then Collected(map[], [])
    else Step(slug, Collect(slug, config[..|config| - 1]), config[|config| - 1])
  }

  /** helpers.py:190-199. */
  method CollectPlatformSwitches(slug: NameSlug, config: seq<Dict>) returns (switches: map<Value, Dict>, order: seq<Value>)
    ensures Collected(switches, order) == Collect(slug, config)
  {
    switches := map[];
    order := [];
    var i := 0;
    while i < |config|
      invariant 0 <= i <= |config|
      invariant Collected(switches, order) == Collect(slug, config[..i])
    {
      var sw := config[i];
      assert config[..i + 1][..i] == config[..i];
      if Get(sw, CONF_PLATFORM) == VStr(COMPONENT_DOMAIN) {
        var uid := UniqueIdOf(slug, sw);
        if uid.Some? {
          var copy := sw - {CONF_PLATFORM};
          if uid.value !in switches {
            switches := switches[uid.value := copy];
            order := order + [uid.value];
          }
        }
      }
      i := i + 1;
    }
    assert config[..|config|] == config;
  }

  /** The insertion order lists every key once, every stored copy has lost its
      `platform` key, and every key is a truthy id. */
  lemma {:induction false} CollectShape(slug: NameSlug, config: seq<Dict>)
    ensures var c := Collect(slug, config);
      && (forall i, j :: 0 <= i < j < |c.order| ==> c.order[i] != c.order[j])
      && (forall u :: u in c.order <==> u in c.switches)
      && (forall u :: u in c.switches ==> CONF_PLATFORM !in c.switches[u] && Truthy(u))
  {
    if config != [] {
      var pre := config[..|config| - 1];
      var sw := config[|config| - 1];
      CollectShape(slug, pre);
      var c := Collect(slug, pre);
      if Get(sw, CONF_PLATFORM) == VStr(COMPONENT_DOMAIN) && UniqueIdOf(slug, sw).Some? {
        var x := UniqueIdOf(slug, sw).value;
        assert forall u :: u in c.order + [x] <==> u in c.order || u == x;
      }
    }
  }

  /** Every stored id was claimed by some entry of the configuration. */
  lemma {:induction false} OnlyClaimed(slug: NameSlug, config: seq<Dict>, u: Value)
    requires u in Collect(slug, config).switches
    ensures exists i :: 0 <= i < |config| && Claims(slug, config[i], u)
  {
    var n := |config| - 1;
    var pre := config[..n];
    if u in Collect(slug, pre).switches {
      OnlyClaimed(slug, pre, u);
      var i :| 0 <= i < |pre| && Claims(slug, pre[i], u);
      assert config[i] == pre[i];
    } else {
      assert Claims(slug, config[n], u);
    }
  }

  /** The first entry that claims an id is the one stored under it, stripped
      of its `platform` key; later entries with the same id change nothing. */
  lemma {:induction false} FirstOccurrenceWins(slug: NameSlug, config: seq<Dict>, i: int, u: Value)
    requires 0 <= i < |config| && Claims(slug, config[i], u)
    requires forall j :: 0 <= j < i ==> !Claims(slug, config[j], u)
    ensures u in Collect(slug, config).switches
    ensures Collect(slug, config).switches[u] == config[i] - {CONF_PLATFORM}
  {
    var n := |config| - 1;
    var pre := config[..n];
    if i == n {
      if u in Collect(slug, pre).switches {
        OnlyClaimed(slug, pre, u);
        assert false;
      }
    } else {
      assert pre[i] == config[i];
      forall j | 0 <= j < i ensures !Claims(slug, pre[j], u) {
        assert pre[j] == config[j];
      }
      FirstOccurrenceWins(slug, pre, i, u);
    }
  }

  /** The dictionary holds exactly the ids some entry of this integration
      claims. */
  lemma CollectedIds(slug: NameSlug, config: seq<Dict>, u: Value)
    ensures u in Collect(slug, config).switches <==> exists i :: 0 <= i < |config| && Claims(slug, config[i], u)
  {
    if u in Collect(slug, config).switches {
      OnlyClaimed(slug, config, u);
    } else if exists i :: 0 <= i < |config| && Claims(slug, config[i], u) {
      var i :| 0 <= i < |config| && Claims(slug, config[i], u);
      FirstClaim(slug, config, i, u);
    }
  }

  /** Among the entries claiming `u` there is a first one. */
  lemma {:induction false} FirstClaim(slug: NameSlug, config: seq<Dict>, i: int, u: Value)
    requires 0 <= i < |config| && Claims(slug, config[i], u)
    ensures u in Collect(slug, config).switches
    decreases i
  {
    if exists j :: 0 <= j < i && Claims(slug, config[j], u) {
      var j :| 0 <= j < i && Claims(slug, config[j], u);
      FirstClaim(slug, config, j, u);
    } else {
      FirstOccurrenceWins(slug, config, i, u);
    }
  }
}
