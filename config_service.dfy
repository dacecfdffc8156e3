/**
 * `ConfigService`: the eight application settings, `populate` (copy the
 * settings a JSON object defines) and `toJSON` (write all eight onto an object).
 */
module Config {

  /** A JSON value as the settings hold it. */
  datatype Json = JNull | JBool(b: bool) | JNumber(n: int) | JString(s: string)

  /** A JSON object whose properties are set in place; an absent key is `undefined`. */
  class JsonObject {
    var entries: map<string, Json>

    constructor (entries: map<string, Json>)
      ensures this.entries == entries
    {
      this.entries := entries;
    }
  }

  /** The wire names of the settings, in field order. */
  const DefaultProjectKey: string := "default_project"
  const DefaultDatasetKey: string := "default_dataset"
  const DefaultTableKey: string := "default_table"
  const AnalyticsKeyKey: string := "analytics_key"
  const CacheDurationKey: string := "cache_duration"
  const RestrictViewKey: string := "restrict_view_to_admin"
  const RestrictSaveKey: string := "restrict_save_to_admin"
  const RestrictQueryKey: string := "restrict_query_to_admin"

  const ConfigKeys: seq<string> := [DefaultProjectKey, DefaultDatasetKey, DefaultTableKey, AnalyticsKeyKey,
                                    CacheDurationKey, RestrictViewKey, RestrictSaveKey, RestrictQueryKey]

  /** The values of the eight settings. */
  datatype ConfigFields = ConfigFields(
    defaultProject: Json,
    defaultDataset: Json,
    defaultTable: Json,
    analyticsKey: Json,
    cacheDuration: Json,
    restrictViewToAdmin: Json,
    restrictSaveToAdmin: Json,
    restrictQueryToAdmin: Json)

  /** The setting a wire name stands for. */
  function FieldOf(f: ConfigFields, key: string): Json
    requires key in ConfigKeys
  {
    if key == DefaultProjectKey then f.defaultProject
    else if key == DefaultDatasetKey then f.defaultDataset
    else if key == DefaultTableKey then f.defaultTable
    else if key == AnalyticsKeyKey then f.analyticsKey
    else if key == CacheDurationKey then f.cacheDuration
    else if key == RestrictViewKey then f.restrictViewToAdmin
    else if key == RestrictSaveKey then f.restrictSaveToAdmin
    else f.restrictQueryToAdmin
  }

  /** Two settings records are equal when every wire name reads the same value. */
  lemma FieldsExtensional(f: ConfigFields, g: ConfigFields)
    requires forall key :: key in ConfigKeys ==> FieldOf(f, key) == FieldOf(g, key)
    ensures f == g
  {
    assert FieldOf(f, DefaultProjectKey) == FieldOf(g, DefaultProjectKey);
    assert FieldOf(f, DefaultDatasetKey) == FieldOf(g, DefaultDatasetKey);
    assert FieldOf(f, DefaultTableKey) == FieldOf(g, DefaultTableKey);
    assert FieldOf(f, AnalyticsKeyKey) == FieldOf(g, AnalyticsKeyKey);
    assert FieldOf(f, CacheDurationKey) == FieldOf(g, CacheDurationKey);
    assert FieldOf(f, RestrictViewKey) == FieldOf(g, RestrictViewKey);
    assert FieldOf(f, RestrictSaveKey) == FieldOf(g, RestrictSaveKey);
    assert FieldOf(f, RestrictQueryKey) == FieldOf(g, RestrictQueryKey);
  }

  /** The value `data` defines for `key`, or `current` when `key` is undefined. */
  function Pick(data: map<string, Json>, key: string, current: Json): Json
  {
    if key in data then data[key] else current
  }

  /** `populate`: each setting whose key `data` defines takes that value, `null` included. */
  function Populated(f: ConfigFields, data: map<string, Json>): ConfigFields
  {
    ConfigFields(
      Pick(data, DefaultProjectKey, f.defaultProject),
      Pick(data, DefaultDatasetKey, f.defaultDataset),
      Pick(data, DefaultTableKey, f.defaultTable),
      Pick(data, AnalyticsKeyKey, f.analyticsKey),
      Pick(data, CacheDurationKey, f.cacheDuration),
      Pick(data, RestrictViewKey, f.restrictViewToAdmin),
      Pick(data, RestrictSaveKey, f.restrictSaveToAdmin),
      Pick(data, RestrictQueryKey, f.restrictQueryToAdmin))
  }

  /** `toJSON`: `base` with the eight settings written over it. */
  function Exported(f: ConfigFields, base: map<string, Json>): (r: map<string, Json>)
    ensures r.Keys == base.Keys + set key | key in ConfigKeys
    ensures forall key :: key in ConfigKeys ==> r[key] == FieldOf(f, key)
    ensures forall key :: key in base && key !in ConfigKeys ==> r[key] == base[key]
  {
    base[DefaultProjectKey := f.defaultProject]
        [DefaultDatasetKey := f.defaultDataset]
        [DefaultTableKey := f.defaultTable]
        [AnalyticsKeyKey := f.analyticsKey]
        [CacheDurationKey := f.cacheDuration]
        [RestrictViewKey := f.restrictViewToAdmin]
        [RestrictSaveKey := f.restrictSaveToAdmin]
        [RestrictQueryKey := f.restrictQueryToAdmin]
  }

  /** After `populate`, a setting holds the value `data` defines for its key, and keeps its old value otherwise. */
  lemma PopulatedField(f: ConfigFields, data: map<string, Json>, key: string)
    requires key in ConfigKeys
    ensures FieldOf(Populated(f, data), key) == if key in data then data[key] else FieldOf(f, key)
  {
  }

  /** Populating from an exported object restores the exported settings, whatever they were before. */
  lemma {:induction false} PopulateExported(f: ConfigFields, g: ConfigFields, base: map<string, Json>)
    ensures Populated(g, Exported(f, base)) == f
  {
    FieldsExtensional(Populated(g, Exported(f, base)), f);
  }

  /** An object that defines none of the keys changes nothing. */
  lemma {:induction false} PopulateNoKeys(f: ConfigFields, data: map<string, Json>)
    requires forall key :: key in ConfigKeys ==> key !in data
    ensures Populated(f, data) == f
  {
    FieldsExtensional(Populated(f, data), f);
  }

  /** Populating twice from the same object is populating once. */
  lemma {:induction false} PopulateIdempotent(f: ConfigFields, data: map<string, Json>)
    ensures Populated(Populated(f, data), data) == Populated(f, data)
  {
    FieldsExtensional(Populated(Populated(f, data), data), Populated(f, data));
  }

  /** Keys other than the eight settings never influence `populate`. */
  lemma {:induction false} PopulateIgnoresOtherKeys(f: ConfigFields, data: map<string, Json>, key: string, v: Json)
    requires key !in ConfigKeys
    ensures Populated(f, data[key := v]) == Populated(f, data)
  {
    FieldsExtensional(Populated(f, data[key := v]), Populated(f, data));
  }

  /** An object that defines all eight keys fixes the settings, whatever they were before. */
  lemma {:induction false} PopulateComplete(f: ConfigFields, g: ConfigFields, data: map<string, Json>)
    requires forall key :: key in ConfigKeys ==> key in data
    ensures Populated(f, data) == Populated(g, data)
  {
    FieldsExtensional(Populated(f, data), Populated(g, data));
  }

  /** The configuration of the Explorer application. */
  class ConfigService {
    var defaultProject: Json
    var defaultDataset: Json
    var defaultTable: Json
    var analyticsKey: Json
    var cacheDuration: Json
    var restrictViewToAdmin: Json
    var restrictSaveToAdmin: Json
    var restrictQueryToAdmin: Json

    /** The settings start from the values the page was rendered with. */
    constructor (initial: ConfigFields)
      ensures Fields() == initial
    {
      defaultProject := initial.defaultProject;
      defaultDataset := initial.defaultDataset;
      defaultTable := initial.defaultTable;
      analyticsKey := initial.analyticsKey;
      cacheDuration := initial.cacheDuration;
      restrictViewToAdmin := initial.restrictViewToAdmin;
      restrictSaveToAdmin := initial.restrictSaveToAdmin;
      restrictQueryToAdmin := initial.restrictQueryToAdmin;
    }

    ghost function Fields(): ConfigFields
      reads this
    {
      ConfigFields(defaultProject, defaultDataset, defaultTable, analyticsKey, cacheDuration,
                   restrictViewToAdmin, restrictSaveToAdmin, restrictQueryToAdmin)
    }

    /**
     * `populate`: copies every setting `data` defines (`goog.isDef`) and keeps
     * the others; a setting `data` does not define is written back unchanged.
     */
    method Populate(data: JsonObject)
      modifies this
      ensures Fields() == Populated(old(Fields()), data.entries)
    {
      var d := data.entries;
      defaultProject := Pick(d, DefaultProjectKey, defaultProject);
      defaultDataset := Pick(d, DefaultDatasetKey, defaultDataset);
      defaultTable := Pick(d, DefaultTableKey, defaultTable);
      analyticsKey := Pick(d, AnalyticsKeyKey, analyticsKey);
      cacheDuration := Pick(d, CacheDurationKey, cacheDuration);
      restrictViewToAdmin := Pick(d, RestrictViewKey, restrictViewToAdmin);
      restrictSaveToAdmin := Pick(d, RestrictSaveKey, restrictSaveToAdmin);
      restrictQueryToAdmin := Pick(d, RestrictQueryKey, restrictQueryToAdmin);
    }

    /**
     * `toJSON`: writes the eight settings onto `data`, or onto a new object
     * when there is none, and returns that object; the settings are unchanged.
     */
    method ToJson(data: JsonObject?) returns (result: JsonObject)
      modifies data
      ensures data != null ==> result == data
      ensures data == null ==> fresh(result)
      ensures result.entries == Exported(Fields(), if data != null then old(data.entries) else map[])
      ensures unchanged(this)
    {
      if data != null {
        result := data;
      } else {
        result := new JsonObject(map[]);
      }
      result.entries := result.entries[DefaultProjectKey := defaultProject];
      result.entries := result.entries[DefaultDatasetKey := defaultDataset];
      result.entries := result.entries[DefaultTableKey := defaultTable];
      result.entries := result.entries[AnalyticsKeyKey := analyticsKey];
      result.entries := result.entries[CacheDurationKey := cacheDuration];
      result.entries := result.entries[RestrictViewKey := restrictViewToAdmin];
      result.entries := result.entries[RestrictSaveKey := restrictSaveToAdmin];
      result.entries := result.entries[RestrictQueryKey := restrictQueryToAdmin];
    }
  }
}
