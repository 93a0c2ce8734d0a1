/** The seven persisted settings: the record `saveSettings` writes under the
    storage key `tm_settings`, and the per-field coercion `boot` applies when it
    reads the record back. The JSON text itself is not modelled: the stored
    record is the object `JSON.parse` returns, with each field present or not. */
module SettingsStore {
  import opened Wrappers

  /** The settings fields of `STATE`; `bgInterval` is in whole seconds. */
  datatype Settings = Settings(
    repeatOne: bool,
    shuffle: bool,
    bgEnabled: bool,
    bgRating: string,
    bgTag: string,
    bgFit: string,
    bgInterval: int)

  /** The initial values of `STATE`. */
  const Defaults: Settings := Settings(false, true, true, "safe", "", "cover", 0)

  /** A JSON value as it can appear in a boolean field of the stored record. */
  datatype JsonValue = JNull | JBool(b: bool) | JNumber(n: int) | JString(s: string) | JArray | JObject

  /** `!!v`, where None is a field the record does not have (`undefined`). */
  predicate Truthy(v: Option<JsonValue>)
  {
    match v
    case None => false
    case Some(JNull) => false
    case Some(JBool(b)) => b
    case Some(JNumber(n)) => n != 0
    case Some(JString(s)) => s != ""
    case Some(JArray) => true
    case Some(JObject) => true
  }

  /** The parsed object. A string or number field is None when it is absent
      or `null`, the two cases `??` treats alike. */
  datatype StoredSettings = StoredSettings(
    repeatOne: Option<JsonValue>,
    shuffle: Option<JsonValue>,
    bgEnabled: Option<JsonValue>,
    bgRating: Option<string>,
    bgTag: Option<string>,
    bgFit: Option<string>,
    bgInterval: Option<int>)

  /** What reading `tm_settings` yields: no entry (or an empty one), text that
      `JSON.parse` rejects, the JSON `null` (whose fields cannot be read), or a
      parsed value. A parsed non-object reads every field as absent. */
  datatype StoredRecord = Missing | Unparsable | ParsedNull | Parsed(record: StoredSettings)

  /** `saveSettings`: the seven fields, each written as it is. */
  function Save(s: Settings): (r: StoredSettings)
    ensures Truthy(r.repeatOne) == s.repeatOne && Truthy(r.shuffle) == s.shuffle && Truthy(r.bgEnabled) == s.bgEnabled
    ensures r.bgRating.Some? && r.bgTag.Some? && r.bgFit.Some? && r.bgInterval.Some?
  {
    StoredSettings(Some(JBool(s.repeatOne)), Some(JBool(s.shuffle)), Some(JBool(s.bgEnabled)),
                   Some(s.bgRating), Some(s.bgTag), Some(s.bgFit), Some(s.bgInterval))
  }

  /** The restore step of `boot`: a missing, unparsable or `null` record leaves
      the settings as they are; otherwise all seven fields are replaced, the
      flags by their truthiness and the others by their value or default. */
  function Restore(raw: StoredRecord, current: Settings): (r: Settings)
    ensures !raw.Parsed? ==> r == current
    ensures raw.Parsed? ==>
              && r.repeatOne == Truthy(raw.record.repeatOne)
              && r.shuffle == Truthy(raw.record.shuffle)
              && r.bgEnabled == Truthy(raw.record.bgEnabled)
    ensures raw.Parsed? ==> r.bgRating == (if raw.record.bgRating.Some? then raw.record.bgRating.value else "safe")
    ensures raw.Parsed? ==> r.bgTag == (if raw.record.bgTag.Some? then raw.record.bgTag.value else "")
    ensures raw.Parsed? ==> r.bgFit == (if raw.record.bgFit.Some? then raw.record.bgFit.value else "cover")
    ensures raw.Parsed? ==> r.bgInterval == (if raw.record.bgInterval.Some? then raw.record.bgInterval.value else 0)
  {
    match raw
    case Parsed(cfg) =>
      Settings(
        Truthy(cfg.repeatOne),
        Truthy(cfg.shuffle),
        Truthy(cfg.bgEnabled),
        if cfg.bgRating.Some? then cfg.bgRating.value else "safe",
        if cfg.bgTag.Some? then cfg.bgTag.value else "",
        if cfg.bgFit.Some? then cfg.bgFit.value else "cover",
        if cfg.bgInterval.Some? then cfg.bgInterval.value else 0)
    case _ => current
  }

  /** Restoring what `saveSettings` wrote gives back the same seven values,
      whatever the settings were before. */
  lemma RestoreSaved(s: Settings, current: Settings)
    ensures Restore(Parsed(Save(s)), current) == s
  {
  }

  /** A record without any field restores the flags to false (not to the
      initial values: shuffle and the background start on) and the other
      fields to their defaults. */
  lemma RestoreEmptyRecord(current: Settings)
    ensures var r := Restore(Parsed(StoredSettings(None, None, None, None, None, None, None)), current);
            r == Settings(false, false, false, Defaults.bgRating, Defaults.bgTag, Defaults.bgFit, Defaults.bgInterval)
            && r.shuffle != Defaults.shuffle
  {
  }

  /** A parsed record decides every field alone: the settings in force before
      the restore do not matter. */
  lemma RestoreIgnoresCurrent(cfg: StoredSettings, a: Settings, b: Settings)
    ensures Restore(Parsed(cfg), a) == Restore(Parsed(cfg), b)
  {
  }
}
