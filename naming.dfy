/** The identity and naming helpers of cfg.py and db.py, and the naming rule of
    the platform-era switch entity (switch.py).

    Two sigils are in play. In the original platform configuration a leading `!`
    meant "do not put `momentary_` in front of the entity id". The blended
    configuration writes `+` where the original had no `!`, and drops the `!`,
    so that the entity ids minted from the new names equal the old ones.

    `slugify` is Home Assistant's and is not modelled: every helper takes it as
    the parameter `slug`. */
module Naming {
  import opened Values

  type Slugify = string -> string

  /** Drops one leading `!`, if there is one. */
  function StripBang(name: string): string
  {
    if StartsWith(name, '!') then name[1..] else name
  }

  /** cfg.py/db.py `_make_original_unique_id`: the id the platform-era entity had. */
  function MakeOriginalUniqueId(slug: Slugify, name: string): string
  {
    if StartsWith(name, '!') then slug(name[1..]) else slug(name)
  }

  /** cfg.py/db.py `_make_original_entity_id`. */
  function MakeOriginalEntityId(slug: Slugify, platform: string, name: string): string
  {
    if StartsWith(name, '!') then platform + "." + slug(name[1..])
    else platform + "." + COMPONENT_DOMAIN + "_" + slug(name)
  }

  /** cfg.py/db.py `_make_original_name`: the display name an imported switch gets. */
  function MakeOriginalName(name: string): string
  {
    if StartsWith(name, '!') then name[1..] else COMPONENT_DOMAIN + " " + name
  }

  /** cfg.py `_map_config_name`: rewrites an original name into the blended
      convention (`!x` becomes `x`, anything else `y` becomes `+y`). */
  function MapConfigName(name: string): string
  {
    if StartsWith(name, '!') then name[1..] else "+" + name
  }

  /** cfg.py `_make_name`: the display name of a blended name (one `+` dropped). */
  function MakeName(name: string): string
  {
    if StartsWith(name, '+') then name[1..] else name
  }

  /** cfg.py `_make_unique_id` / db.py `Db._make_unique_id`: a uuid4 text with the
      domain appended; `uuid` is the text the random generator produced. */
  function MakeUniqueId(uuid: string): string
  {
    uuid + "." + COMPONENT_DOMAIN
  }

  /** cfg.py `_make_entity_id`: the blended convention (`+` means namespaced). */
  function MakeEntityId(slug: Slugify, platform: string, name: string): string
  {
    if StartsWith(name, '+') then platform + "." + COMPONENT_DOMAIN + "_" + slug(name[1..])
    else platform + "." + slug(name)
  }

  /** cfg.py `_make_device_id`. */
  function MakeDeviceId(slug: Slugify, name: string): string
  {
    slug(MakeName(name))
  }

  /** db.py `Db._make_entity_id`: no sigil handling at all. */
  function MakeDbEntityId(slug: Slugify, platform: string, name: string): string
  {
    platform + "." + slug(name)
  }

  /** The names, entity id and unique id a platform-era MomentarySwitch gives
      itself from its configured name (switch.py). */
  datatype EntityNaming = EntityNaming(displayName: string, entityId: string, uniqueId: string)

  function SwitchEntityNaming(slug: Slugify, configName: string): (r: EntityNaming)
    ensures !StartsWith(configName, '!') ==> r.displayName == configName
    ensures StartsWith(configName, '!') ==> configName == "!" + r.displayName
    ensures r.uniqueId == slug(r.displayName)
    ensures r.entityId == (if StartsWith(configName, '!') then SWITCH_PLATFORM + "." + slug(r.displayName)
                           else SWITCH_PLATFORM + "." + COMPONENT_DOMAIN + "_" + slug(r.displayName))
  {
    if StartsWith(configName, '!') then
      var shown := configName[1..];
      EntityNaming(shown, SWITCH_PLATFORM + "." + slug(shown), slug(shown))
    else
      EntityNaming(configName, SWITCH_PLATFORM + "." + COMPONENT_DOMAIN + "_" + slug(configName), slug(configName))
  }

  /** The names this migration cannot carry over: a `!` followed by a `+`. */
  predicate Migratable(name: string)
  {
    !StartsWith(StripBang(name), '+') || !StartsWith(name, '!')
  }

  /** Migrating a name to the blended convention keeps its entity id: the id the
      blended code derives from the rewritten name is the one the platform code
      derived from the original name. */
  lemma MigrationKeepsEntityId(slug: Slugify, platform: string, name: string)
    requires Migratable(name)
    ensures MakeEntityId(slug, platform, MapConfigName(name)) == MakeOriginalEntityId(slug, platform, name)
  {
    if StartsWith(name, '!') {
      assert !StartsWith(name[1..], '+');
    } else {
      var mapped := "+" + name;
      assert mapped[1..] == name;
    }
  }

  /** The device id of a migrated switch is its original unique id. */
  lemma MigrationDeviceIdIsOriginalUniqueId(slug: Slugify, name: string)
    requires Migratable(name)
    ensures MakeDeviceId(slug, MapConfigName(name)) == MakeOriginalUniqueId(slug, name)
  {
    if !StartsWith(name, '!') {
      var mapped := "+" + name;
      assert mapped[1..] == name;
    }
  }

  /** After migration the display name is the configured name without its sigil;
      the name the older importer gave differs only by the `momentary ` prefix on
      names without `!`. */
  lemma MigrationDisplayName(name: string)
    requires Migratable(name)
    ensures MakeName(MapConfigName(name)) == StripBang(name)
    ensures MakeOriginalName(name) ==
            (if StartsWith(name, '!') then StripBang(name) else COMPONENT_DOMAIN + " " + StripBang(name))
  {
    if !StartsWith(name, '!') {
      var mapped := "+" + name;
      assert mapped[1..] == name;
    }
  }

  /** The ids the importers compute for an original name are the ids the
      platform-era entity of that name had, so its history carries over. */
  lemma ImportMatchesPlatformEntity(slug: Slugify, name: string)
    ensures MakeOriginalUniqueId(slug, name) == SwitchEntityNaming(slug, name).uniqueId
    ensures MakeOriginalEntityId(slug, SWITCH_PLATFORM, name) == SwitchEntityNaming(slug, name).entityId
  {
  }

  /** A `+` name is shown without its sigil and gets a namespaced entity id;
      any other name is shown as written and its entity id is not namespaced. */
  lemma BlendedSigil(slug: Slugify, platform: string, name: string)
    ensures StartsWith(name, '+') ==> "+" + MakeName(name) == name
    ensures StartsWith(name, '+') ==>
      MakeEntityId(slug, platform, name) == platform + "." + COMPONENT_DOMAIN + "_" + slug(MakeName(name))
    ensures !StartsWith(name, '+') ==>
      MakeName(name) == name && MakeEntityId(slug, platform, name) == MakeDbEntityId(slug, platform, name)
  {
  }
}
