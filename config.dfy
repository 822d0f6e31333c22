/**
 * The Firebase configuration read from the environment, its required-field check and the
 * guard that refuses to initialise the app with an incomplete configuration.
 */
module FirebaseConfig {
  import opened Wrappers

  /** `FirebaseConfig`; an environment variable that is not set is None. */
  datatype Config = Config(
    apiKey: Option<string>,
    authDomain: Option<string>,
    databaseURL: Option<string>,
    projectId: Option<string>,
    storageBucket: Option<string>,
    messagingSenderId: Option<string>,
    appId: Option<string>)

  datatype Field = ApiKey | AuthDomain | DatabaseURL | ProjectId | StorageBucket | MessagingSenderId | AppId

  /** `config[field]`. */
  function FieldValue(c: Config, f: Field): Option<string> {
    match f
    case ApiKey => c.apiKey
    case AuthDomain => c.authDomain
    case DatabaseURL => c.databaseURL
    case ProjectId => c.projectId
    case StorageBucket => c.storageBucket
    case MessagingSenderId => c.messagingSenderId
    case AppId => c.appId
  }

  const RequiredFields: seq<Field> := [ApiKey, AuthDomain, DatabaseURL, ProjectId]

  /** `value && value !== 'undefined' && value !== ''`. */
  predicate HasValue(v: Option<string>) {
    v.Some? && v.value != "undefined" && v.value != ""
  }

  /** The verdict of the check and the fields it reports as missing or invalid. */
  datatype Validation = Validation(isValid: bool, reported: seq<Field>)

  /** `fields.every(...)`: stops at, and reports, the first field without a value. */
  function Every(c: Config, fields: seq<Field>): (v: Validation)
    ensures |v.reported| <= 1
    ensures v.isValid <==> v.reported == []
  {
    if fields == [] then Validation(true, [])
    else if !HasValue(FieldValue(c, fields[0])) then Validation(false, [fields[0]])
    else Every(c, fields[1..])
  }

  function ValidateConfig(c: Config): Validation {
    Every(c, RequiredFields)
  }

  /** The check passes exactly when every listed field has a value. */
  lemma {:induction false} EveryIff(c: Config, fields: seq<Field>)
    ensures Every(c, fields).isValid <==> forall i :: 0 <= i < |fields| ==> HasValue(FieldValue(c, fields[i]))
  {
    if fields != [] {
      EveryIff(c, fields[1..]);
      assert forall i :: 1 <= i < |fields| ==> fields[i] == fields[1..][i - 1];
    }
  }

  /** Only the first field without a value, in list order, is reported. */
  lemma {:induction false} EveryReportsFirst(c: Config, fields: seq<Field>)
    ensures !Every(c, fields).isValid ==>
      exists i :: (0 <= i < |fields|
        && Every(c, fields).reported == [fields[i]]
        && !HasValue(FieldValue(c, fields[i]))
        && forall j :: 0 <= j < i ==> HasValue(FieldValue(c, fields[j])))
  {
    if fields != [] && HasValue(FieldValue(c, fields[0])) {
      EveryReportsFirst(c, fields[1..]);
      if !Every(c, fields).isValid {
        var i :| 0 <= i < |fields[1..]| &&
          Every(c, fields[1..]).reported == [fields[1..][i]] &&
          !HasValue(FieldValue(c, fields[1..][i])) &&
          forall j :: 0 <= j < i ==> HasValue(FieldValue(c, fields[1..][j]));
        assert forall j :: 1 <= j < i + 1 ==> fields[j] == fields[1..][j - 1];
        assert fields[i + 1] == fields[1..][i];
      }
    }
  }

  /** Valid iff apiKey, authDomain, databaseURL and projectId all have values. */
  lemma ValidateConfigSpec(c: Config)
    ensures ValidateConfig(c).isValid <==>
      HasValue(c.apiKey) && HasValue(c.authDomain) && HasValue(c.databaseURL) && HasValue(c.projectId)
  {
    EveryIff(c, RequiredFields);
    assert HasValue(FieldValue(c, RequiredFields[0])) == HasValue(c.apiKey);
    assert HasValue(FieldValue(c, RequiredFields[1])) == HasValue(c.authDomain);
    assert HasValue(FieldValue(c, RequiredFields[2])) == HasValue(c.databaseURL);
    assert HasValue(FieldValue(c, RequiredFields[3])) == HasValue(c.projectId);
  }

  /** An unset variable, the empty string and the text "undefined" are all missing. */
  lemma MissingValues(s: string)
    ensures !HasValue(None) && !HasValue(Some("")) && !HasValue(Some("undefined"))
    ensures HasValue(Some(s)) <==> s != "" && s != "undefined"
  {
  }

  /** storageBucket, messagingSenderId and appId never affect the check. */
  lemma OptionalFieldsIgnored(c: Config, b: Option<string>, m: Option<string>, a: Option<string>)
    ensures ValidateConfig(c.(storageBucket := b, messagingSenderId := m, appId := a)) == ValidateConfig(c)
  {
    var d := c.(storageBucket := b, messagingSenderId := m, appId := a);
    assert forall f :: f in RequiredFields ==> FieldValue(d, f) == FieldValue(c, f);
    EveryAgrees(c, d, RequiredFields);
  }

  lemma {:induction false} EveryAgrees(c: Config, d: Config, fields: seq<Field>)
    requires forall f :: f in fields ==> FieldValue(d, f) == FieldValue(c, f)
    ensures Every(d, fields) == Every(c, fields)
  {
    if fields != [] {
      assert fields[0] in fields;
      EveryAgrees(c, d, fields[1..]);
    }
  }

  const ConfigError := "Firebase configuration error"

  /** The module-level guard: an invalid configuration throws before `initializeApp` runs. */
  function InitializeFirebase(c: Config): (r: Result<Config, string>)
    ensures r.Err? <==> !ValidateConfig(c).isValid
    ensures r.Err? ==> r.error == ConfigError
    ensures r.Ok? ==> r.value == c
  {
    if !ValidateConfig(c).isValid then Err(ConfigError) else Ok(c)
  }

  /** So the app starts exactly when the four required fields have values. */
  lemma InitializeFirebaseSpec(c: Config)
    ensures InitializeFirebase(c).Ok? <==>
      HasValue(c.apiKey) && HasValue(c.authDomain) && HasValue(c.databaseURL) && HasValue(c.projectId)
  {
    ValidateConfigSpec(c);
  }
}
