/** The administrator's Lidarr settings endpoint: read the settings with the API key masked,
    save them field by field, and test the connection. */
module SettingsRoute {
  import opened Wrappers
  import opened Js
  import opened Api
  import opened Lidarr

  /** Eight bullets: what the GET shows in place of all but the key's last four characters. */
  const MaskPrefix := "\U{2022}\U{2022}\U{2022}\U{2022}\U{2022}\U{2022}\U{2022}\U{2022}"

  /** Four bullets: an API key starting with these is taken to be the masked one and not saved. */
  const MaskMarker := "\U{2022}\U{2022}\U{2022}\U{2022}"

  const SettingsPrefix := "lidarr_"

  const SaveFailed := ApiError(500, "Failed to save settings")

  // ---------------------------------------------------------------- GET

  /** `"••••••••" + value.slice(-4)`: the last four characters, or the whole value when shorter. */
  function Mask(value: string): (m: string)
    ensures |m| == |MaskPrefix| + (if |value| < 4 then |value| else 4)
    ensures StartsWith(m, MaskPrefix) && StartsWith(m, MaskMarker)
    ensures m[|MaskPrefix|..] == value[|value| - (|m| - |MaskPrefix|)..]
  {
    MaskPrefix + (if |value| < 4 then value else value[|value| - 4..])
  }

  /** What the GET shows for one stored setting: a non-empty API key masked, anything else as stored. */
  function Shown(key: string, value: string): string {
    if key == ApiKeyKey && value != "" then Mask(value) else value
  }

  /** The GET reply: every `lidarr_` setting, the non-empty API key masked. */
  function MaskedSettings(settings: Settings): (shown: map<string, string>)
    ensures shown.Keys == set k | k in settings && StartsWith(k, SettingsPrefix)
    ensures forall k :: k in shown && k != ApiKeyKey ==> shown[k] == settings[k]
    ensures ApiKeyKey in shown ==> (shown[ApiKeyKey] == "" <==> settings[ApiKeyKey] == "")
    ensures ApiKeyKey in shown && settings[ApiKeyKey] != "" ==> StartsWith(shown[ApiKeyKey], MaskPrefix)
    ensures ApiKeyKey in shown && settings[ApiKeyKey] != "" ==> shown[ApiKeyKey] == Mask(settings[ApiKeyKey])
  {
    map k | k in settings && StartsWith(k, SettingsPrefix) :: Shown(k, settings[k])
  }

  /** `GET`: 401 unless an administrator; otherwise the stored rows, one at a time, into the reply. */
  method GetSettings(session: Option<Session>, settings: Settings) returns (r: Result<map<string, string>, ApiError>)
    ensures !IsAdmin(session) ==> r == Err(Unauthorized)
    ensures IsAdmin(session) ==> r == Ok(MaskedSettings(settings))
  {
    if !IsAdmin(session) {
      return Err(Unauthorized);
    }
    var rows := set k | k in settings && StartsWith(k, SettingsPrefix);
    ghost var all := rows;
    var settingsMap: map<string, string> := map[];
    while rows != {}
      invariant rows <= all
      invariant settingsMap.Keys == all - rows
      invariant forall k :: k in settingsMap ==> k in settings && settingsMap[k] == Shown(k, settings[k])
      decreases |rows|
    {
      var key :| key in rows;
      settingsMap := settingsMap[key := Shown(key, settings[key])];
      rows := rows - {key};
    }
    MaskedSettingsOfRows(settings, settingsMap);
    return Ok(settingsMap);
  }

  /** A map holding the shown value of exactly the `lidarr_` settings is the GET reply. */
  lemma MaskedSettingsOfRows(settings: Settings, shown: map<string, string>)
    requires shown.Keys == set k | k in settings && StartsWith(k, SettingsPrefix)
    requires forall k :: k in shown ==> k in settings && shown[k] == Shown(k, settings[k])
    ensures shown == MaskedSettings(settings)
  {
    var masked := MaskedSettings(settings);
    assert shown.Keys == masked.Keys;
    assert forall k :: k in shown ==> shown[k] == masked[k];
  }

  /** The key shown by the GET never reveals more than the last four characters of the stored key. */
  lemma MaskRevealsAtMostFour(settings: Settings)
    requires ApiKeyKey in settings && settings[ApiKeyKey] != ""
    ensures var shown := MaskedSettings(settings)[ApiKeyKey];
            var key := settings[ApiKeyKey];
            && |shown| - |MaskPrefix| <= 4
            && shown[|MaskPrefix|..] == key[|key| - (|shown| - |MaskPrefix|)..]
  {
  }

  // ---------------------------------------------------------------- POST

  /** A JSON value of the request body (arrays are not modelled). */
  datatype Json = JString(s: string) | JNumber(n: int) | JBool(b: bool) | JNull | JObject

  /** The fields of the POST body; `None` is a missing field (`undefined`). */
  datatype SettingsForm = SettingsForm(
    url: Option<Json>, apiKey: Option<Json>, rootFolder: Option<Json>,
    qualityProfile: Option<Json>, metadataProfile: Option<Json>)

  /** `value.toString()`; `None` when it throws (on `null`). */
  function ToString(value: Json): (s: Option<string>)
    ensures s.None? <==> value.JNull?
    ensures value.JString? ==> s == Some(value.s)
  {
    match value
    case JString(s) => Some(s)
    case JNumber(n) => Some(IntToString(n))
    case JBool(b) => Some(if b then "true" else "false")
    case JNull => None
    case JObject => Some("[object Object]")
  }

  /** A conditional upsert of a text setting: nothing when the field is missing, the value when
      it is a string, and a failure (`None`) otherwise, as the store accepts only strings. */
  function SaveText(rows: Settings, key: string, field: Option<Json>): Option<Settings> {
    match field
    case None => Some(rows)
    case Some(JString(s)) => Some(rows[key := s])
    case Some(_) => None
  }

  /** The API key's upsert: skipped when the key starts with the mask's bullets; a non-string
      key fails, having no `startsWith`. */
  function SaveApiKey(rows: Settings, field: Option<Json>): Option<Settings> {
    match field
    case None => Some(rows)
    case Some(JString(s)) => if StartsWith(s, MaskMarker) then Some(rows) else Some(rows[ApiKeyKey := s])
    case Some(_) => None
  }

  /** A profile's upsert: the value's `toString()`. */
  function SaveProfile(rows: Settings, key: string, field: Option<Json>): Option<Settings> {
    match field
    case None => Some(rows)
    case Some(v) => if ToString(v).None? then None else Some(rows[key := ToString(v).value])
  }

  /** The store after a POST and whether it succeeded. The upserts run one after another
      without a transaction, so a failing one leaves the earlier ones in place. */
  datatype SaveResult = SaveResult(rows: Settings, ok: bool)

  function SaveSpec(rows: Settings, form: SettingsForm): SaveResult {
    match SaveText(rows, UrlKey, form.url)
    case None => SaveResult(rows, false)
    case Some(r1) =>
      match SaveApiKey(r1, form.apiKey)
      case None => SaveResult(r1, false)
      case Some(r2) =>
        match SaveText(r2, RootFolderKey, form.rootFolder)
        case None => SaveResult(r2, false)
        case Some(r3) =>
          match SaveProfile(r3, QualityProfileKey, form.qualityProfile)
          case None => SaveResult(r3, false)
          case Some(r4) =>
            match SaveProfile(r4, MetadataProfileKey, form.metadataProfile)
            case None => SaveResult(r4, false)
            case Some(r5) => SaveResult(r5, true)
  }

  /** The settings table, updated row by row. */
  class SettingsStore {
    var rows: Settings

    constructor(initial: Settings)
      ensures rows == initial
    {
      rows := initial;
    }

    /** `prisma.settings.upsert`: create or overwrite one row. */
    method Upsert(key: string, value: string)
      modifies this
      ensures rows == old(rows)[key := value]
    {
      rows := rows[key := value];
    }
  }

  /** `POST`: `None` is the `{ success: true }` reply. A body that is not JSON, or is `null`,
      fails before anything is saved. */
  method SaveSettings(session: Option<Session>, body: Option<SettingsForm>, store: SettingsStore) returns (r: Option<ApiError>)
    modifies store
    ensures !IsAdmin(session) ==> r == Some(Unauthorized) && store.rows == old(store.rows)
    ensures IsAdmin(session) && body.None? ==> r == Some(SaveFailed) && store.rows == old(store.rows)
    ensures IsAdmin(session) && body.Some? ==>
              && store.rows == SaveSpec(old(store.rows), body.value).rows
              && r == (if SaveSpec(old(store.rows), body.value).ok then None else Some(SaveFailed))
  {
    if !IsAdmin(session) {
      return Some(Unauthorized);
    }
    if body.None? {
      return Some(SaveFailed);
    }
    var form := body.value;

    if form.url.Some? {
      if !form.url.value.JString? {
        return Some(SaveFailed);
      }
      store.Upsert(UrlKey, form.url.value.s);
    }

    if form.apiKey.Some? {
      if !form.apiKey.value.JString? {
        return Some(SaveFailed);
      }
      if !StartsWith(form.apiKey.value.s, MaskMarker) {
        store.Upsert(ApiKeyKey, form.apiKey.value.s);
      }
    }

    if form.rootFolder.Some? {
      if !form.rootFolder.value.JString? {
        return Some(SaveFailed);
      }
      store.Upsert(RootFolderKey, form.rootFolder.value.s);
    }

    if form.qualityProfile.Some? {
      var value := ToString(form.qualityProfile.value);
      if value.None? {
        return Some(SaveFailed);
      }
      store.Upsert(QualityProfileKey, value.value);
    }

    if form.metadataProfile.Some? {
      var value := ToString(form.metadataProfile.value);
      if value.None? {
        return Some(SaveFailed);
      }
      store.Upsert(MetadataProfileKey, value.value);
    }

    return None;
  }

  /** The five setting keys a POST may write. */
  predicate IsFormKey(key: string) {
    key == UrlKey || key == ApiKeyKey || key == RootFolderKey || key == QualityProfileKey || key == MetadataProfileKey
  }

  /** The row for `key` is present in both stores or in neither, with the same value. */
  predicate SameRow(before: Settings, after: Settings, key: string) {
    (key in after <==> key in before) && (key in before ==> after[key] == before[key])
  }

  /** A POST writes no row other than the five settings, whether or not it succeeds. */
  lemma SaveTouchesOnlyFormKeys(rows: Settings, form: SettingsForm, key: string)
    requires !IsFormKey(key)
    ensures SameRow(rows, SaveSpec(rows, form).rows, key)
  {
  }

  /** The POST body writes `key`: its field is present and, for the API key, does not start
      with the mask marker. */
  predicate Writes(form: SettingsForm, key: string) {
    || (key == UrlKey && form.url.Some?)
    || (key == ApiKeyKey && form.apiKey.Some? && !(form.apiKey.value.JString? && StartsWith(form.apiKey.value.s, MaskMarker)))
    || (key == RootFolderKey && form.rootFolder.Some?)
    || (key == QualityProfileKey && form.qualityProfile.Some?)
    || (key == MetadataProfileKey && form.metadataProfile.Some?)
  }

  /** A row the body does not write keeps its presence and value, whether or not the POST
      succeeds. */
  lemma SaveKeepsUnwritten(rows: Settings, form: SettingsForm, key: string)
    requires !Writes(form, key)
    ensures SameRow(rows, SaveSpec(rows, form).rows, key)
  {
    match SaveText(rows, UrlKey, form.url)
    case None =>
    case Some(r1) =>
      assert SameRow(rows, r1, key);
      match SaveApiKey(r1, form.apiKey)
      case None =>
      case Some(r2) =>
        assert SameRow(rows, r2, key);
        match SaveText(r2, RootFolderKey, form.rootFolder)
        case None =>
        case Some(r3) =>
          assert SameRow(rows, r3, key);
          match SaveProfile(r3, QualityProfileKey, form.qualityProfile)
          case None =>
          case Some(r4) =>
            assert SameRow(rows, r4, key);
            match SaveProfile(r4, MetadataProfileKey, form.metadataProfile)
            case None =>
            case Some(r5) =>
              assert SameRow(rows, r5, key);
  }

  /** A field missing from the body leaves its row as it was, whether or not the POST
      succeeds. */
  lemma AbsentFieldsUntouched(rows: Settings, form: SettingsForm)
    ensures var after := SaveSpec(rows, form).rows;
            && (form.url.None? ==> SameRow(rows, after, UrlKey))
            && (form.apiKey.None? ==> SameRow(rows, after, ApiKeyKey))
            && (form.rootFolder.None? ==> SameRow(rows, after, RootFolderKey))
            && (form.qualityProfile.None? ==> SameRow(rows, after, QualityProfileKey))
            && (form.metadataProfile.None? ==> SameRow(rows, after, MetadataProfileKey))
  {
    if form.url.None? { SaveKeepsUnwritten(rows, form, UrlKey); }
    if form.apiKey.None? { SaveKeepsUnwritten(rows, form, ApiKeyKey); }
    if form.rootFolder.None? { SaveKeepsUnwritten(rows, form, RootFolderKey); }
    if form.qualityProfile.None? { SaveKeepsUnwritten(rows, form, QualityProfileKey); }
    if form.metadataProfile.None? { SaveKeepsUnwritten(rows, form, MetadataProfileKey); }
  }

  /** An API key that starts with the mask marker is never stored: the stored key, or its
      absence, is kept. */
  lemma MaskPrefixSkipped(rows: Settings, form: SettingsForm, s: string)
    requires form.apiKey == Some(JString(s)) && StartsWith(s, MaskMarker)
    ensures SameRow(rows, SaveSpec(rows, form).rows, ApiKeyKey)
  {
    SaveKeepsUnwritten(rows, form, ApiKeyKey);
  }

  /** A successful POST stores every string field it carries, and the `toString()` of every
      profile field. */
  lemma SavedFieldsAreStored(rows: Settings, form: SettingsForm)
    requires SaveSpec(rows, form).ok
    ensures var after := SaveSpec(rows, form).rows;
            && (form.url.Some? ==> form.url.value.JString? && after[UrlKey] == form.url.value.s)
            && (form.rootFolder.Some? ==> form.rootFolder.value.JString? && after[RootFolderKey] == form.rootFolder.value.s)
            && (form.qualityProfile.Some? ==> ToString(form.qualityProfile.value) == Some(after[QualityProfileKey]))
            && (form.metadataProfile.Some? ==> ToString(form.metadataProfile.value) == Some(after[MetadataProfileKey]))
            && (form.apiKey.Some? && form.apiKey.value.JString? && !StartsWith(form.apiKey.value.s, MaskMarker) ==>
                  after[ApiKeyKey] == form.apiKey.value.s)
  {
  }

  /** A POST fails exactly when some field present is of a type its upsert rejects. */
  lemma SaveFailsOnBadField(rows: Settings, form: SettingsForm)
    ensures !SaveSpec(rows, form).ok <==>
              || (form.url.Some? && !form.url.value.JString?)
              || (form.apiKey.Some? && !form.apiKey.value.JString?)
              || (form.rootFolder.Some? && !form.rootFolder.value.JString?)
              || (form.qualityProfile.Some? && form.qualityProfile.value.JNull?)
              || (form.metadataProfile.Some? && form.metadataProfile.value.JNull?)
  {
  }

  /** The upserts are not undone: a URL saved before a failing API key stays saved. */
  lemma FailureKeepsEarlierWrites(rows: Settings, form: SettingsForm)
    requires form.url.Some? && form.url.value.JString?
    requires form.apiKey == Some(JNull)
    ensures SaveSpec(rows, form) == SaveResult(rows[UrlKey := form.url.value.s], false)
  {
  }

  /** Sending back the API key as the GET showed it leaves the stored key as it was. */
  lemma MaskedApiKeyRoundTrip(settings: Settings, form: SettingsForm)
    requires ApiKeyKey in settings
    requires form.apiKey == Some(JString(MaskedSettings(settings)[ApiKeyKey]))
    ensures var after := SaveSpec(settings, form).rows;
            ApiKeyKey in after && after[ApiKeyKey] == settings[ApiKeyKey]
  {
    var key := settings[ApiKeyKey];
    assert StartsWith(ApiKeyKey, SettingsPrefix);
    if key != "" {
      MaskPrefixSkipped(settings, form, Mask(key));
    }
  }

  /** A profile id saved as a number is read back by the Lidarr client as the same id. */
  lemma SavedProfileNumberReadBack(rows: Settings, form: SettingsForm, id: int)
    requires form.qualityProfile == Some(JNumber(id))
    requires SaveSpec(rows, form).ok
    ensures SavedProfileId(SaveSpec(rows, form).rows, QualityProfileKey) == Some(Num(id))
  {
    var after := SaveSpec(rows, form).rows;
    SavedFieldsAreStored(rows, form);
    StoredProfileIdReadBack(after, QualityProfileKey, id);
  }

  // ---------------------------------------------------------------- PUT

  /** The lists a successful connection test adds to its reply. */
  datatype ConnectionLists = ConnectionLists(rootFolders: seq<RootFolder>, qualityProfiles: seq<Profile>, metadataProfiles: seq<Profile>)

  /** The PUT reply: the connection test, with the lists when it succeeded. */
  datatype TestReply = TestReply(result: TestResult, lists: Option<ConnectionLists>)

  /** `getX().catch(() => [])` */
  function OrEmpty<T>(list: Result<seq<T>, string>): (r: seq<T>)
    ensures list.Ok? ==> r == list.value
    ensures list.Err? ==> r == []
  {
    if list.Ok? then list.value else []
  }

  /** `PUT`: 401 unless an administrator; otherwise the connection test, and when it
      succeeds the three lists, each empty when it cannot be read. */
  function TestConnection(session: Option<Session>, settings: Settings, server: Server): (r: Result<TestReply, ApiError>)
    ensures !IsAdmin(session) ==> r == Err(Unauthorized)
    ensures IsAdmin(session) ==> r.Ok? && r.value.result == TestLidarrConnection(settings, server)
    ensures r.Ok? ==> (r.value.lists.Some? <==> r.value.result.success)
    ensures r.Ok? && r.value.lists.Some? ==>
              && r.value.lists.value.rootFolders == OrEmpty(GetRootFolders(settings, server))
              && r.value.lists.value.qualityProfiles == OrEmpty(GetQualityProfiles(settings, server))
              && r.value.lists.value.metadataProfiles == OrEmpty(GetMetadataProfiles(settings, server))
  {
    if !IsAdmin(session) then Err(Unauthorized)
    else
      var result := TestLidarrConnection(settings, server);
      if result.success then
        Ok(TestReply(result, Some(ConnectionLists(
          OrEmpty(GetRootFolders(settings, server)),
          OrEmpty(GetQualityProfiles(settings, server)),
          OrEmpty(GetMetadataProfiles(settings, server))))))
      else Ok(TestReply(result, None))
  }

  /** A failed connection test is replied as it is, with no lists, and so is a missing configuration. */
  lemma FailedTestHasNoLists(session: Option<Session>, settings: Settings, server: Server)
    requires IsAdmin(session) && GetLidarrConfig(settings).None?
    ensures TestConnection(session, settings, server) == Ok(TestReply(TestResult(false, Some(NotConfiguredMessage), None), None))
  {
  }
}
