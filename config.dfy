/**
 * The configuration store: one JSON object kept in a single storage slot,
 * read back merged over the built-in defaults. The merge is shallow: a
 * stored top-level key replaces the default value of that key wholesale.
 * `JSON.parse` and `JSON.stringify` are not modelled; they are the
 * functions `parse` and `serialize` the store is built with, `parse`
 * giving the own properties of the parsed value or `None` where it throws.
 */
module Config {
  import opened Base
  import opened Json

  /** A top-level configuration object: key to JSON value. */
  type Config = map<string, Json>

  const DefaultSettings: map<string, Json> := map[
    "sound" := JBool(true),
    "music" := JBool(true),
    "difficulty" := JStr("normal"),
    "skin" := JStr("classic"),
    "volume" := JNum(70),
    "maxLives" := JNum(3),
    "locale" := JStr("en"),
    "invertControls" := JBool(false),
    "showFPS" := JBool(false),
    "controlScheme" := JStr("wasd"),
    "colorBlindMode" := JStr("none"),
    "highContrast" := JBool(false),
    "onlineLeaderboard" := JBool(false),
    "keyboardNavigation" := JBool(true),
    "mouseNavigation" := JBool(true),
    "mouseSensitivity" := JNum(50)
  ]

  const DefaultAssets: Json := JObj(map[
    "iconsPath" := JStr("/assets/icons"),
    "spritesPath" := JStr("/assets/sprites"),
    "imagesPath" := JStr("/assets/images"),
    "audioSfxPath" := JStr("/assets/audio/sfx"),
    "audioMusicPath" := JStr("/assets/audio/music")
  ])

  /** Stands for the non-empty webhook URL hard-coded in the defaults. */
  const DefaultWebhook: string := "https://discord.com/api/webhooks/ID/TOKEN"

  const DefaultConfig: Config := map[
    "assets" := DefaultAssets,
    "settings" := JObj(DefaultSettings),
    "discordWebhook" := JStr(DefaultWebhook),
    "gameDataPath" := JStr("/game-data.json")
  ]

  /** What `localStorage.getItem` gave: it threw, or the slot's text if any. */
  datatype StorageRead = ReadThrows | Stored(raw: Option<string>)

  /** `loadConfig`, given the read of the slot. */
  function LoadFrom(read: StorageRead, parse: string -> Option<Config>): (c: Config)
    // nothing stored (no text, or the empty string), or the read threw
    ensures read.ReadThrows? || read.raw.None? || read.raw == Some("") ==> c == DefaultConfig
    // the stored text does not parse
    ensures read.Stored? && read.raw.Some? && parse(read.raw.value).None? ==> c == DefaultConfig
    // every default key is present
    ensures DefaultConfig.Keys <= c.Keys
    // a parsed object: stored keys win, other keys keep their defaults
    ensures read.Stored? && read.raw.Some? && read.raw.value != "" && parse(read.raw.value).Some? ==>
      var p := parse(read.raw.value).value;
      && c.Keys == DefaultConfig.Keys + p.Keys
      && (forall k :: k in p ==> c[k] == p[k])
      && (forall k :: k in DefaultConfig && k !in p ==> c[k] == DefaultConfig[k])
  {
    if read.Stored? && read.raw.Some? && read.raw.value != "" && parse(read.raw.value).Some? then
      DefaultConfig + parse(read.raw.value).value
    else
      DefaultConfig
  }

  /**
   * The merge is shallow: a stored `settings` object replaces the default
   * one as a whole, so a default setting the stored object lacks is gone.
   */
  lemma ShallowSettingsMerge(raw: string, parse: string -> Option<Config>, stored: map<string, Json>, key: string)
    requires raw != "" && parse(raw).Some? && parse(raw).value["settings" := JObj(stored)] == parse(raw).value
    requires key in DefaultSettings && key !in stored
    ensures LoadFrom(Stored(Some(raw)), parse)["settings"] == JObj(stored)
    ensures Setting(LoadFrom(Stored(Some(raw)), parse), key).None?
  {
    assert "settings" in parse(raw).value;
  }

  /** Any config obtained by loading already holds every default key. */
  lemma DefaultsAbsorbed(m: Config)
    requires DefaultConfig.Keys <= m.Keys
    ensures DefaultConfig + m == m
  {
  }

  /**
   * Round trip: if the slot then holds the serialisation of what `saveConfig`
   * merged, and parsing gives that object back, `loadConfig` returns it.
   */
  lemma SaveThenLoad(read: StorageRead, cfg: Config,
                     parse: string -> Option<Config>, serialize: Config -> string)
    requires var merged := LoadFrom(read, parse) + cfg;
      serialize(merged) != "" && parse(serialize(merged)) == Some(merged)
    ensures LoadFrom(Stored(Some(serialize(LoadFrom(read, parse) + cfg))), parse)
         == LoadFrom(read, parse) + cfg
  {
    var merged := LoadFrom(read, parse) + cfg;
    DefaultsAbsorbed(merged);
  }

  /** `cfg.settings?.key`. */
  function Setting(cfg: Config, key: string): (r: Option<Json>)
    ensures r.Some? <==> "settings" in cfg && cfg["settings"].JObj? && key in cfg["settings"].fields
  {
    Member(if "settings" in cfg then Some(cfg["settings"]) else None, key)
  }

  /** `cfg.settings?.keyboardNavigation !== false`. */
  predicate KeyboardNavigationOn(cfg: Config)
  {
    Setting(cfg, "keyboardNavigation") != Some(JBool(false))
  }

  /** `cfg.settings?.mouseNavigation !== false`. */
  predicate MouseNavigationOn(cfg: Config)
  {
    Setting(cfg, "mouseNavigation") != Some(JBool(false))
  }

  /**
   * `(cfg.settings?.controlScheme || 'arrow')`, then compared with `'wasd'`
   * by the key handlers.
   */
  function ControlSchemeOf(cfg: Config): (s: Scheme)
    ensures s == Wasd <==> Setting(cfg, "controlScheme") == Some(JStr("wasd"))
  {
    var v := Setting(cfg, "controlScheme");
    var effective := if TruthyOpt(v) then v.value else JStr("arrow");
    if effective == JStr("wasd") then Wasd else Arrow
  }

  /** Out of the box: keyboard and mouse navigation on, WASD layout. */
  lemma DefaultFlags()
    ensures KeyboardNavigationOn(DefaultConfig) && MouseNavigationOn(DefaultConfig)
    ensures ControlSchemeOf(DefaultConfig) == Wasd
  {
    assert Setting(DefaultConfig, "controlScheme") == Some(JStr("wasd"));
  }

  /**
   * `getDiscordWebhook`, given the environment variable and the loaded
   * config: a non-blank environment value (trimmed), else a truthy stored
   * value, else the default, else nothing.
   */
  function WebhookFrom(env: Option<string>, cfg: Config): (r: Option<string>)
    ensures env.Some? && Trim(env.value) != "" ==> r == Some(Trim(env.value))
    ensures !(env.Some? && Trim(env.value) != "") && "discordWebhook" in cfg && Truthy(cfg["discordWebhook"]) ==>
      r == Some(ToStr(cfg["discordWebhook"]))
    ensures !(env.Some? && Trim(env.value) != "") && !("discordWebhook" in cfg && Truthy(cfg["discordWebhook"])) ==>
      r == Some(DefaultWebhook)
  {
    if env.Some? && env.value != "" && Trim(env.value) != "" then Some(Trim(env.value))
    else if "discordWebhook" in cfg && Truthy(cfg["discordWebhook"]) then Some(ToStr(cfg["discordWebhook"]))
    else if Truthy(DefaultConfig["discordWebhook"]) then Some(ToStr(DefaultConfig["discordWebhook"]))
    else None
  }

  /** Some webhook is always found, since the default one is non-empty. */
  lemma WebhookAlwaysFound(env: Option<string>, cfg: Config)
    ensures WebhookFrom(env, cfg).Some?
    ensures env.Some? && (forall i :: 0 <= i < |env.value| ==> IsJsSpace(env.value[i])) ==>
      WebhookFrom(env, cfg) == WebhookFrom(None, cfg)
  {
    if env.Some? { TrimSpec(env.value); }
  }

  /**
   * The single storage slot with its failure modes, the codec, and the
   * change notifications sent so far (the `detail` of each event).
   */
  class ConfigStore {
    var slot: Option<string>
    var getThrows: bool
    var setThrows: bool
    var notifications: seq<Config>
    const parse: string -> Option<Config>
    const serialize: Config -> string

    constructor (parse: string -> Option<Config>, serialize: Config -> string, slot: Option<string>)
      ensures this.parse == parse && this.serialize == serialize && this.slot == slot
      ensures !getThrows && !setThrows && notifications == []
    {
      this.parse := parse;
      this.serialize := serialize;
      this.slot := slot;
      getThrows, setThrows := false, false;
      notifications := [];
    }

    function Read(): StorageRead
      reads this
    {
      if getThrows then ReadThrows else Stored(slot)
    }

    /** `loadConfig()`. */
    function LoadConfig(): (c: Config)
      reads this
      ensures DefaultConfig.Keys <= c.Keys
      ensures slot.None? ==> c == DefaultConfig
    {
      LoadFrom(Read(), parse)
    }

    /** `getDiscordWebhook()`, given the environment variable. */
    function DiscordWebhook(env: Option<string>): (r: Option<string>)
      reads this
      ensures r.Some?
    {
      WebhookFrom(env, LoadConfig())
    }

    /** The codec gives `c` back from its text, and the text is not empty. */
    predicate RoundTrips(c: Config)
    {
      serialize(c) != "" && parse(serialize(c)) == Some(c)
    }

    /**
     * `saveConfig(cfg)`: merge `cfg` over what loads now, store and announce
     * it; when writing throws, change nothing and return what loads.
     */
    method SaveConfig(cfg: Config) returns (r: Config)
      modifies this
      ensures getThrows == old(getThrows) && setThrows == old(setThrows)
      ensures !setThrows ==>
        && r == old(LoadConfig()) + cfg
        && slot == Some(serialize(r))
        && notifications == old(notifications) + [r]
      ensures setThrows ==> slot == old(slot) && notifications == old(notifications) && r == LoadConfig()
      ensures !setThrows && !getThrows && RoundTrips(r) ==> LoadConfig() == r
    {
      var existing := LoadConfig();
      var merged := existing + cfg;
      if setThrows {
        r := LoadConfig();
      } else {
        slot := Some(serialize(merged));
        notifications := notifications + [merged];
        r := merged;
        if !getThrows && RoundTrips(r) {
          DefaultsAbsorbed(merged);
        }
      }
    }
  }
}
