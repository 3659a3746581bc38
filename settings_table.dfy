/**
 * The settings metadata and the default-settings keys of the repository,
 * transcribed as data, with what the consistency check makes of them.
 */
module SettingsTable {
  import opened Base
  import opened Seqs
  import opened Config
  import opened SettingsPage
  import opened CheckDefaults

  /** The settings metadata: the initial list followed by the proposed additions. */
  const Settings: seq<SettingMeta> := [
    SettingMeta("sound", Some("audio"), Toggle, Some(true), None),
    SettingMeta("music", Some("audio"), Toggle, Some(true), None),
    SettingMeta("difficulty", Some("gameplay"), Select, Some(true), Some(["easy", "normal", "hard"])),
    SettingMeta("skin", Some("gameplay"), Select, Some(true), Some(["classic", "neon", "ghost"])),
    SettingMeta("volume", Some("audio"), Range, Some(true), None),
    SettingMeta("maxLives", Some("gameplay"), Number, Some(true), None),
    SettingMeta("invertControls", Some("controls"), Toggle, Some(false), None),
    SettingMeta("showFPS", Some("gameplay"), Toggle, Some(false), None),
    SettingMeta("controlScheme", Some("controls"), Select, Some(true), Some(["arrow", "wasd"])),
    SettingMeta("colorBlindMode", Some("accessibility"), Select, Some(false), Some(["none", "protanopia", "deuteranopia"])),
    SettingMeta("keyboardNavigation", Some("controls"), Toggle, Some(true), None),
    SettingMeta("mouseNavigation", Some("controls"), Toggle, Some(false), None),
    SettingMeta("mouseSensitivity", Some("controls"), Range, Some(false), None),
    SettingMeta("highContrast", Some("accessibility"), Toggle, Some(false), None),
    SettingMeta("onlineLeaderboard", Some("online"), Toggle, Some(false), None),
    SettingMeta("locale", Some("general"), Select, Some(true), Some(["en", "es", "pl"])),
    SettingMeta("retroFilter", Some("display"), Toggle, Some(false), None),
    SettingMeta("particleEffects", Some("display"), Toggle, Some(false), None),
    SettingMeta("controllerRumble", Some("controls"), Toggle, Some(false), None),
    SettingMeta("cloudSaves", Some("online"), Toggle, Some(false), None),
    SettingMeta("autoPause", Some("gameplay"), Toggle, Some(false), None),
    SettingMeta("advancedGraphics", Some("display"), Toggle, Some(false), None),
    SettingMeta("vsync", Some("display"), Toggle, Some(false), None),
    SettingMeta("resolution", Some("display"), Select, Some(false), Some(["800x600", "1024x768", "1280x720", "1920x1080"])),
    SettingMeta("fpsCap", Some("display"), Number, Some(false), None),
    SettingMeta("textureQuality", Some("display"), Select, Some(false), Some(["low", "medium", "high"])),
    SettingMeta("shadowQuality", Some("display"), Select, Some(false), Some(["off", "low", "high"])),
    SettingMeta("bloom", Some("display"), Toggle, Some(false), None),
    SettingMeta("particleDensity", Some("display"), Range, Some(false), None),
    SettingMeta("showHitboxes", Some("developer"), Toggle, Some(false), None),
    SettingMeta("autoRestart", Some("gameplay"), Toggle, Some(false), None),
    SettingMeta("autoSave", Some("general"), Toggle, Some(false), None),
    SettingMeta("saveInterval", Some("general"), Number, Some(false), None),
    SettingMeta("notifications", Some("general"), Toggle, Some(false), None),
    SettingMeta("voiceChat", Some("online"), Toggle, Some(false), None),
    SettingMeta("networkMode", Some("online"), Select, Some(false), Some(["offline", "online"])),
    SettingMeta("matchmakingRegion", Some("online"), Select, Some(false), Some(["auto", "eu", "na", "asia"])),
    SettingMeta("subtitles", Some("accessibility"), Toggle, Some(false), None),
    SettingMeta("uiAnimations", Some("general"), Toggle, Some(false), None),
    SettingMeta("logLevel", Some("developer"), Select, Some(false), Some(["info", "warn", "error", "debug"])),
    SettingMeta("developerMode", Some("developer"), Toggle, Some(false), None),
    SettingMeta("experimentalFeatures", Some("general"), Toggle, Some(false), None),
    SettingMeta("physicsAccuracy", Some("gameplay"), Select, Some(false), Some(["low", "normal", "high"])),
    SettingMeta("adaptiveDifficulty", Some("gameplay"), Toggle, Some(false), None),
    SettingMeta("assistMode", Some("accessibility"), Select, Some(false), Some(["off", "partial", "full"])),
    SettingMeta("tutorialHints", Some("general"), Toggle, Some(false), None),
    SettingMeta("controllerLayout", Some("controls"), Select, Some(false), Some(["auto", "xbox", "ps", "nintendo"])),
    SettingMeta("touchControls", Some("controls"), Toggle, Some(false), None),
    SettingMeta("vibrationIntensity", Some("controls"), Range, Some(false), None),
    SettingMeta("brightness", Some("display"), Range, Some(false), None),
    SettingMeta("contrast", Some("display"), Range, Some(false), None),
    SettingMeta("gamma", Some("display"), Range, Some(false), None)
  ]

  /** The keys of the default `settings` block, in the order they are written. */
  const DefaultKeys: seq<string> := [
    "sound", "music", "difficulty", "skin", "volume", "maxLives", "locale", "invertControls",
    "showFPS", "controlScheme", "colorBlindMode", "highContrast", "onlineLeaderboard",
    "keyboardNavigation", "mouseNavigation", "mouseSensitivity"
  ]

  /** The transcribed keys are exactly those of the default settings. */
  lemma DefaultKeysMatchDefaults()
    ensures forall k :: k in DefaultKeys <==> k in DefaultSettings
  {
  }

  /**
   * `retroFilter` has no default, so whenever the key scan finds the
   * default keys the check reports it and exits with 1.
   */
  lemma RepositoryCheckFails(defaultsSrc: string, keysOf: string -> seq<string>)
    requires DefaultsBody(defaultsSrc).Some? && keysOf(DefaultsBody(defaultsSrc).value) == DefaultKeys
    ensures "retroFilter" in Check(Ids(Settings), defaultsSrc, keysOf).missing
    ensures Check(Ids(Settings), defaultsSrc, keysOf).exitCode == 1
  {
    assert Ids(Settings)[16] == "retroFilter";
    ExitOneIffSomeIdLacksKey(Ids(Settings), defaultsSrc, keysOf);
  }
}
