/**
  `ConfigLoader`: the application properties (key=value lines), the models
  configuration (a JSON document) and the credential lookup built on both
  and on the process environment.

  The properties are read by the module's own fallback
  `PropertiesConfigurator`, whose lookups consult the environment first.
  A properties file that is missing or cannot be read leaves no
  properties.  A models configuration that is missing or cannot be parsed
  is replaced by a default naming the mock provider and model.  Files and
  the environment are parameters: a file's state is what opening and
  parsing it produces.
 */
module ConfigLoader {

  import opened Base
  import opened Dict
  import opened Text
  import opened Json

  /** What reading a configuration file produces. */
  datatype FileState<T> = Missing | Garbled | Parsed(content: T)

  /** The two files in the configuration directory: the properties file as
      its lines, the models configuration as the JSON value it holds. */
  datatype Files = Files(properties: FileState<seq<string>>, models: FileState<Json>)

  /** A loaded `ConfigLoader`: the parsed properties and models configuration. */
  datatype Loader = Loader(properties: Dict<string>, models: Json)

  // ---------------------------------------------------------------------
  // Properties.

  /** One line of a properties file: stripped, then a key and a value
      split at the first `=` and stripped in turn; blank lines, `#`
      comments and lines without `=` carry nothing. */
  function ParseLine(line: string): Option<(string, string)> {
    ParseStripped(Strip(line))
  }

  /** `ParseLine` once the line is stripped. */
  function ParseStripped(l: string): Option<(string, string)> {
    if |l| == 0 || l[0] == '#' then None
    else match Find(l, '=')
      case None => None
      case Some(i) => Some(Halves(l, i))
  }

  /** The stripped text before and after position `i`. */
  function Halves(l: string, i: nat): (string, string)
    requires i < |l|
  {
    (Strip(l[..i]), Strip(l[i + 1..]))
  }

  /** What each line assigns, if anything. */
  function Assignments(lines: seq<string>): (es: seq<Option<(string, string)>>)
    ensures |es| == |lines|
  {
    seq(|lines|, i requires 0 <= i < |lines| => ParseLine(lines[i]))
  }

  /** Whether an assignment is to key `k`. */
  predicate Assigns(e: Option<(string, string)>, k: string) {
    e.Some? && e.value.0 == k
  }

  /** The loop of `load_properties`: every assignment in order, a later one
      to the same key overwriting an earlier one. */
  function Assign(es: seq<Option<(string, string)>>): (r: Dict<string>)
    ensures forall k :: (forall i :: 0 <= i < |es| ==> !Assigns(es[i], k)) ==> Get(r, k) == None
    ensures forall k, i :: 0 <= i < |es| && Assigns(es[i], k)
                           && (forall j :: i < j < |es| ==> !Assigns(es[j], k))
                           ==> Get(r, k) == Some(es[i].value.1)
    decreases |es|
  {
    if |es| == 0 then []
    else
      var init := es[..|es| - 1];
      var last := es[|es| - 1];
      assert es == init + [last];
      var d := Assign(init);
      forall k | forall i :: 0 <= i < |es| ==> !Assigns(es[i], k)
        ensures Get(Step(d, last), k) == None
      {
        StepUnassigned(init, last, d, k);
      }
      forall k, i | 0 <= i < |es| && Assigns(es[i], k) && (forall j :: i < j < |es| ==> !Assigns(es[j], k))
        ensures Get(Step(d, last), k) == Some(es[i].value.1)
      {
        StepLatest(init, last, d, k, i);
      }
      Step(d, last)
  }

  /** One iteration of that loop: assign `e`, if it is an assignment. */
  function Step(d: Dict<string>, e: Option<(string, string)>): (r: Dict<string>)
    ensures forall k :: Get(r, k) == if Assigns(e, k) then Some(e.value.1) else Get(d, k)
  {
    if e.Some? then
      var r := Set(d, e.value.0, e.value.1);
      forall k ensures Get(r, k) == if Assigns(e, k) then Some(e.value.1) else Get(d, k) {
        GetSet(d, e.value.0, e.value.1, k);
      }
      r
    else d
  }

  /** A key no line assigns stays unset after one more line. */
  lemma StepUnassigned(init: seq<Option<(string, string)>>, e: Option<(string, string)>, d: Dict<string>, k: string)
    requires (forall i :: 0 <= i < |init| ==> !Assigns(init[i], k)) ==> Get(d, k) == None
    requires forall i :: 0 <= i < |init + [e]| ==> !Assigns((init + [e])[i], k)
    ensures Get(Step(d, e), k) == None
  {
    assert !Assigns((init + [e])[|init|], k);
    forall i | 0 <= i < |init| ensures !Assigns(init[i], k) {
      assert (init + [e])[i] == init[i];
    }
  }

  /** After one more line a key holds the value of its latest assignment. */
  lemma StepLatest(init: seq<Option<(string, string)>>, e: Option<(string, string)>, d: Dict<string>, k: string, i: int)
    requires forall i' :: 0 <= i' < |init| && Assigns(init[i'], k)
                          && (forall j :: i' < j < |init| ==> !Assigns(init[j], k))
                          ==> Get(d, k) == Some(init[i'].value.1)
    requires 0 <= i < |init + [e]| && Assigns((init + [e])[i], k)
    requires forall j :: i < j < |init + [e]| ==> !Assigns((init + [e])[j], k)
    ensures Get(Step(d, e), k) == Some((init + [e])[i].value.1)
  {
    if i < |init| {
      assert !Assigns((init + [e])[|init|], k);
      assert (init + [e])[i] == init[i];
      forall j | i < j < |init| ensures !Assigns(init[j], k) {
        assert (init + [e])[j] == init[j];
      }
    }
  }

  /** `load_properties(path)` on the file's lines. */
  function LoadLines(lines: seq<string>): Dict<string> {
    Assign(Assignments(lines))
  }

  /** `_load_properties`: nothing unless the file could be read. */
  function LoadProperties(file: FileState<seq<string>>): Dict<string> {
    match file
    case Parsed(lines) => LoadLines(lines)
    case _ => []
  }

  /** The fallback configurator's `get(key, default)`:
      `os.environ.get(key, properties.get(key, default))`. */
  function Property(l: Loader, env: Dict<string>, key: string, default: Option<string>): (r: Option<string>)
    ensures HasKey(env, key) ==> r == Get(env, key)
    ensures !HasKey(env, key) && HasKey(l.properties, key) ==> r == Get(l.properties, key)
    ensures !HasKey(env, key) && !HasKey(l.properties, key) ==> r == default
  {
    if HasKey(env, key) then Get(env, key)
    else if HasKey(l.properties, key) then Get(l.properties, key)
    else default
  }

  predicate IsDigit(c: char) {
    '0' <= c <= '9'
  }

  /** The value of a string of decimal digits. */
  function DigitsValue(ds: string): nat
    decreases |ds|
  {
    if |ds| == 0 then 0
    else DigitsValue(ds[..|ds| - 1]) * 10 + (if IsDigit(ds[|ds| - 1]) then ds[|ds| - 1] as int - '0' as int else 0)
  }

  /** A non-empty run of decimal digits. */
  predicate AllDigits(ds: string) {
    |ds| > 0 && forall i :: 0 <= i < |ds| ==> IsDigit(ds[i])
  }

  /** Whether a literal carries a sign. */
  predicate Signed(t: string) {
    |t| > 0 && (t[0] == '+' || t[0] == '-')
  }

  /** An integer literal without surrounding whitespace: an optional sign
      and at least one decimal digit. */
  function ParseLiteral(t: string): (r: Option<int>)
    ensures r.Some? ==> |t| > 0 && (IsDigit(t[0]) || Signed(t))
  {
    var digits := if Signed(t) then t[1..] else t;
    if AllDigits(digits) then
      var n: int := DigitsValue(digits);
      Some(if t[0] == '-' then -n else n)
    else None
  }

  /** Python's `int(s)` on a string: an integer literal inside optional
      whitespace. */
  function ParseInt(s: string): Option<int> {
    ParseLiteral(Strip(s))
  }

  /** `get_int_property(key, default)`: the default for an unset or empty
      value, otherwise `int(value)`, which raises on anything but an
      integer literal. */
  function GetIntProperty(l: Loader, env: Dict<string>, key: string, default: int): (r: Result<int, PyFault>)
    ensures var v := Property(l, env, key, None);
            && (v.None? || v.value == "" ==> r == Ok(default))
            && (v.Some? && v.value != "" ==>
                  (r.Ok? <==> ParseInt(v.value).Some?) && (r.Ok? ==> r.value == ParseInt(v.value).value))
  {
    match Property(l, env, key, None)
    case None => Ok(default)
    case Some(v) =>
      if v == "" then Ok(default)
      else match ParseInt(v)
        case Some(n) => Ok(n)
        case None => Err(ValueError("invalid literal for int() with base 10: '" + v + "'"))
  }

  /** The spellings `get_bool` reads as true, after lower-casing. */
  const TrueSpellings: seq<string> := ["true", "yes", "1"]

  /** `get_bool_property(key, default)`: the default for an unset or empty
      value, otherwise whether its lower-cased form is a true spelling. */
  function GetBoolProperty(l: Loader, env: Dict<string>, key: string, default: bool): (r: bool)
    ensures var v := Property(l, env, key, None);
            && (v.None? || v.value == "" ==> r == default)
            && (v.Some? && v.value != "" ==> (r <==> Lower(v.value) in TrueSpellings))
  {
    match Property(l, env, key, None)
    case None => default
    case Some(v) => if v == "" then default else Lower(v) in TrueSpellings
  }

  // ---------------------------------------------------------------------
  // The models configuration.

  /** The configuration used when the file is missing or unreadable. */
  const DefaultModels: Json :=
    JObj([("defaults", JObj([("provider", JStr("mock")), ("model", JStr("mock-model"))])),
          ("providers", JObj([])),
          ("models", JObj([]))])

  /** `_load_models_config`: whatever value the file holds, or the default. */
  function LoadModels(file: FileState<Json>): (r: Json)
    ensures file.Parsed? ==> r == file.content
    ensures !file.Parsed? ==> r == DefaultModels
  {
    match file
    case Parsed(v) => v
    case _ => DefaultModels
  }

  /** `ConfigLoader(config_dir)`: both files read. */
  function Load(files: Files): (l: Loader)
    ensures l.properties == LoadProperties(files.properties)
    ensures l.models == LoadModels(files.models)
  {
    Loader(LoadProperties(files.properties), LoadModels(files.models))
  }

  /** `reload()`: both files read afresh; nothing of the old state stays. */
  function Reload(l: Loader, files: Files): Loader {
    Load(files)
  }

  /** `get_provider_config(name)`: `models.get('providers', {}).get(name)`. */
  function ProviderConfig(l: Loader, name: string): (r: Result<Json, PyFault>)
    ensures l.models.JObj? && !HasKey(l.models.fields, "providers") ==> r == Ok(JNull)
    ensures r.Ok? ==> l.models.JObj? && GetOr(l.models.fields, "providers", JObj([])).JObj?
    ensures r.Ok? ==> r.value == GetOr(GetOr(l.models.fields, "providers", JObj([])).fields, name, JNull)
  {
    var providers :- PyGet(l.models, "providers", JObj([]));
    PyGet(providers, name, JNull)
  }

  /** `get_model_config(name)`: `models.get('models', {}).get(name)`. */
  function ModelConfig(l: Loader, name: string): (r: Result<Json, PyFault>)
    ensures l.models.JObj? && !HasKey(l.models.fields, "models") ==> r == Ok(JNull)
    ensures r.Ok? ==> l.models.JObj? && GetOr(l.models.fields, "models", JObj([])).JObj?
    ensures r.Ok? ==> r.value == GetOr(GetOr(l.models.fields, "models", JObj([])).fields, name, JNull)
  {
    var models :- PyGet(l.models, "models", JObj([]));
    PyGet(models, name, JNull)
  }

  /** `get_default_provider()`: `defaults.provider`, `"mock"` when absent. */
  function DefaultProvider(l: Loader): (r: Result<Json, PyFault>)
    ensures r.Ok? <==> l.models.JObj? && GetOr(l.models.fields, "defaults", JObj([])).JObj?
    ensures r.Ok? ==> r.value == GetOr(GetOr(l.models.fields, "defaults", JObj([])).fields, "provider", JStr("mock"))
  {
    var defaults :- PyGet(l.models, "defaults", JObj([]));
    PyGet(defaults, "provider", JStr("mock"))
  }

  /** `get_default_model()`: `defaults.model`, `"mock-model"` when absent. */
  function DefaultModel(l: Loader): (r: Result<Json, PyFault>)
    ensures r.Ok? <==> l.models.JObj? && GetOr(l.models.fields, "defaults", JObj([])).JObj?
    ensures r.Ok? ==> r.value == GetOr(GetOr(l.models.fields, "defaults", JObj([])).fields, "model", JStr("mock-model"))
  {
    var defaults :- PyGet(l.models, "defaults", JObj([]));
    PyGet(defaults, "model", JStr("mock-model"))
  }

  /** `list_available_providers()`: the keys of `providers`. */
  function AvailableProviders(l: Loader): (r: Result<seq<string>, PyFault>)
    ensures r.Ok? <==> l.models.JObj? && GetOr(l.models.fields, "providers", JObj([])).JObj?
    ensures r.Ok? ==> forall k :: k in r.value <==> HasKey(GetOr(l.models.fields, "providers", JObj([])).fields, k)
  {
    var providers :- PyGet(l.models, "providers", JObj([]));
    match providers
    case JObj(fields) =>
      forall k ensures k in Keys(fields) <==> HasKey(fields, k) {
        KeysMembership(fields, k);
      }
      Ok(Keys(fields))
    case _ => Err(AttributeError("keys"))
  }

  /** `list_provider_models(name)`: the provider entry's `models`, `[]` for
      a provider without a (non-empty) entry. */
  function ProviderModels(l: Loader, name: string): (r: Result<Json, PyFault>)
    ensures ProviderConfig(l, name).Err? ==> r == Err(ProviderConfig(l, name).error)
    ensures ProviderConfig(l, name).Ok? && !Truthy(ProviderConfig(l, name).value) ==> r == Ok(JArr([]))
    ensures ProviderConfig(l, name).Ok? && ProviderConfig(l, name).value.JObj? ==>
              r == Ok(GetOr(ProviderConfig(l, name).value.fields, "models", JArr([])))
  {
    var config :- ProviderConfig(l, name);
    if Truthy(config) then PyGet(config, "models", JArr([])) else Ok(JArr([]))
  }

  /** `get_all_models()`: the `models` table. */
  function AllModels(l: Loader): (r: Result<Json, PyFault>)
    ensures r.Ok? <==> l.models.JObj?
    ensures r.Ok? ==> r.value == GetOr(l.models.fields, "models", JObj([]))
  {
    PyGet(l.models, "models", JObj([]))
  }

  // ---------------------------------------------------------------------
  // Credentials.

  /** The variable a provider's credential is looked up under. */
  function KeyVariable(name: string): string {
    Upper(name) + "_API_KEY"
  }

  /** `os.environ.get(v)` for a value read from the configuration: only a
      string names a variable. */
  function EnvironmentValue(env: Dict<string>, v: Json): Result<Option<string>, PyFault> {
    match v
    case JStr(s) => Ok(Get(env, s))
    case _ => Err(TypeError("str expected"))
  }

  /** The third source: the variable the provider's entry names under
      `api_key_env`, when it is set and non-empty. */
  function ConfiguredVariable(l: Loader, env: Dict<string>, name: string): (r: Result<Option<string>, PyFault>)
    ensures r.Ok? && r.value.Some? ==> r.value.value != ""
  {
    var config :- ProviderConfig(l, name);
    var named :- if Truthy(config) then PyIn("api_key_env", config) else Ok(false);
    if !named then Ok(None)
    else
      var variable :- PyItem(config, "api_key_env");
      var value :- EnvironmentValue(env, variable);
      if value.Some? && value.value != "" then Ok(value) else Ok(None)
  }

  /** A present, non-empty string. */
  predicate NonEmpty(v: Option<string>) {
    v.Some? && v.value != ""
  }

  /** `get_api_key(name)` as written.  The second step reads the key through
      the configurator's `get`, which consults the environment again first:
      a variable set to the empty string hides the properties file's key. */
  function GetApiKey(l: Loader, env: Dict<string>, name: string): (r: Result<Option<string>, PyFault>)
    ensures NonEmpty(Get(env, KeyVariable(name))) ==> r == Ok(Get(env, KeyVariable(name)))
    ensures r.Ok? && r.value.Some? ==> r.value.value != ""
    ensures !NonEmpty(Get(env, KeyVariable(name))) && NonEmpty(Property(l, env, KeyVariable(name), None))
            ==> r == Ok(Property(l, env, KeyVariable(name), None))
    ensures !NonEmpty(Get(env, KeyVariable(name))) && !NonEmpty(Property(l, env, KeyVariable(name), None))
            ==> r == ConfiguredVariable(l, env, name)
  {
    var variable := KeyVariable(name);
    var fromEnv := Get(env, variable);
    if NonEmpty(fromEnv) then Ok(fromEnv)
    else
      var fromProperties := Property(l, env, variable, None);
      if NonEmpty(fromProperties) then Ok(fromProperties)
      else ConfiguredVariable(l, env, name)
  }

  /** `get_api_key(name)` as documented: the environment variable, then the
      properties file's entry, then the variable the provider's entry
      names; the first non-empty one wins. */
  function GetApiKeyFixed(l: Loader, env: Dict<string>, name: string): (r: Result<Option<string>, PyFault>)
    ensures NonEmpty(Get(env, KeyVariable(name))) ==> r == Ok(Get(env, KeyVariable(name)))
    ensures r.Ok? && r.value.Some? ==> r.value.value != ""
    ensures !NonEmpty(Get(env, KeyVariable(name))) && NonEmpty(Get(l.properties, KeyVariable(name)))
            ==> r == Ok(Get(l.properties, KeyVariable(name)))
    ensures !NonEmpty(Get(env, KeyVariable(name))) && !NonEmpty(Get(l.properties, KeyVariable(name)))
            ==> r == ConfiguredVariable(l, env, name)
  {
    var variable := KeyVariable(name);
    var fromEnv := Get(env, variable);
    if NonEmpty(fromEnv) then Ok(fromEnv)
    else
      var fromProperties := Get(l.properties, variable);
      if NonEmpty(fromProperties) then Ok(fromProperties)
      else ConfiguredVariable(l, env, name)
  }

  // ---------------------------------------------------------------------
  // Lemmas.

  /** A string without surrounding whitespace is its own strip. */
  lemma StripTrimmed(s: string)
    requires |s| > 0 ==> !IsSpace(s[0]) && !IsSpace(s[|s| - 1])
    ensures Strip(s) == s
  {
  }

  /** A line written as `key=value` reads back as that key and value, even
      when the value itself holds `=`. */
  lemma PropertyLine(key: string, value: string)
    requires |key| > 0 && !IsSpace(key[0]) && !IsSpace(key[|key| - 1]) && key[0] != '#'
    requires forall i :: 0 <= i < |key| ==> key[i] != '='
    requires |value| > 0 ==> !IsSpace(value[0]) && !IsSpace(value[|value| - 1])
    ensures ParseLine(key + "=" + value) == Some((key, value))
  {
    var line := key + "=" + value;
    TrimmedLine(key, value);
    FirstEquals(key, value);
    SplitLine(line, |key|);
    LinePieces(key, value);
    StripTrimmed(key);
    StripTrimmed(value);
  }

  /** `key=value` has no surrounding whitespace and does not start a
      comment. */
  lemma TrimmedLine(key: string, value: string)
    requires |key| > 0 && !IsSpace(key[0]) && key[0] != '#'
    requires |value| > 0 ==> !IsSpace(value[|value| - 1])
    ensures var line := key + "=" + value;
            Strip(line) == line && |line| > 0 && line[0] != '#'
  {
    var line := key + "=" + value;
    assert line[0] == key[0];
    var last := line[|line| - 1];
    assert last == if |value| > 0 then value[|value| - 1] else '=';
    assert !IsSpace(last);
    StripTrimmed(line);
  }

  /** The two sides of the first `=` of `key=value`. */
  lemma LinePieces(key: string, value: string)
    ensures (key + "=" + value)[..|key|] == key
    ensures (key + "=" + value)[|key| + 1..] == value
  {
  }

  /** A trimmed, uncommented line splits at its first `=`. */
  lemma SplitLine(line: string, i: nat)
    requires Strip(line) == line && |line| > 0 && line[0] != '#'
    requires Find(line, '=') == Some(i)
    ensures i < |line|
    ensures ParseLine(line) == Some(Halves(line, i))
  {
    SplitStripped(line, i);
    assert ParseLine(line) == ParseStripped(line);
  }

  /** An uncommented line splits at its first `=`. */
  lemma SplitStripped(l: string, i: nat)
    requires |l| > 0 && l[0] != '#'
    requires Find(l, '=') == Some(i)
    ensures ParseStripped(l) == Some(Halves(l, i))
  {
  }

  /** The first `=` of `key=value` is the one after a key without `=`. */
  lemma FirstEquals(key: string, value: string)
    requires forall i :: 0 <= i < |key| ==> key[i] != '='
    ensures Find(key + "=" + value, '=') == Some(|key|)
  {
    var line := key + "=" + value;
    assert line[|key|] == '=';
    assert forall j :: 0 <= j < |key| ==> line[j] == key[j];
  }

  /** Reading one more line adds that line's assignment, if any, on top. */
  lemma LoadLinesSnoc(lines: seq<string>, line: string)
    ensures LoadLines(lines + [line])
            == match ParseLine(line)
               case Some((k, v)) => Set(LoadLines(lines), k, v)
               case None => LoadLines(lines)
  {
    var es := Assignments(lines + [line]);
    assert es[..|es| - 1] == Assignments(lines);
    assert es[|es| - 1] == ParseLine(line);
  }

  /** A later assignment to the same key overwrites an earlier one, and an
      assignment to another key leaves it alone. */
  lemma LaterLineWins(lines: seq<string>, key: string, value: string, other: string)
    requires |key| > 0 && !IsSpace(key[0]) && !IsSpace(key[|key| - 1]) && key[0] != '#'
    requires forall i :: 0 <= i < |key| ==> key[i] != '='
    requires |value| > 0 ==> !IsSpace(value[0]) && !IsSpace(value[|value| - 1])
    ensures Get(LoadLines(lines + [key + "=" + value]), key) == Some(value)
    ensures other != key ==> Get(LoadLines(lines + [key + "=" + value]), other) == Get(LoadLines(lines), other)
  {
    PropertyLine(key, value);
    LoadLinesSnoc(lines, key + "=" + value);
    GetSet(LoadLines(lines), key, value, key);
    GetSet(LoadLines(lines), key, value, other);
  }

  /** The environment takes precedence over the properties file, which
      takes precedence over the caller's default. */
  lemma EnvironmentFirst(l: Loader, env: Dict<string>, key: string, value: string, default: Option<string>)
    requires Get(env, key) == Some(value)
    ensures Property(l, env, key, default) == Some(value)
    ensures GetBoolProperty(l, env, key, true) == (value == "" || Lower(value) in TrueSpellings)
  {
  }

  /** Boolean spellings are read case-insensitively; any other non-empty
      value is false even when the default is true. */
  lemma BoolSpellings(l: Loader, env: Dict<string>, key: string, default: bool)
    ensures Get(env, key) == Some("YES") ==> GetBoolProperty(l, env, key, default)
    ensures Get(env, key) == Some("True") ==> GetBoolProperty(l, env, key, default)
    ensures Get(env, key) == Some("on") ==> !GetBoolProperty(l, env, key, default)
  {
    assert Lower("YES") == "yes";
    assert Lower("True") == "true";
    assert Lower("on") == "on";
  }

  /** The decimal digits of a non-negative number read back as it. */
  lemma {:induction false} DigitsRoundTrip(n: nat)
    ensures AllDigits(IntToString(n))
    ensures DigitsValue(IntToString(n)) == n
    decreases n
  {
    if n >= 10 {
      DigitsRoundTrip(n / 10);
      var s := IntToString(n);
      assert s[..|s| - 1] == IntToString(n / 10);
    }
  }

  /** A run of digits carries no sign. */
  lemma DigitsUnsigned(ds: string)
    requires AllDigits(ds)
    ensures !Signed(ds)
  {
    assert IsDigit(ds[0]);
  }

  /** Decimal digits parse as their value. */
  lemma ParseUnsigned(ds: string)
    requires AllDigits(ds)
    ensures ParseLiteral(ds) == Some(DigitsValue(ds) as int)
  {
    DigitsUnsigned(ds);
  }

  /** A minus sign followed by decimal digits parses as the negated value. */
  lemma ParseNegative(ds: string)
    requires AllDigits(ds)
    ensures ParseLiteral("-" + ds) == Some(-(DigitsValue(ds) as int))
  {
    var s := "-" + ds;
    assert Signed(s) && s[1..] == ds && s[0] == '-';
  }

  /** An optional minus sign and decimal digits, as `str` renders an
      integer, parse back as the signed value of the digits. */
  lemma ParseRendered(negative: bool, ds: string, v: nat)
    requires AllDigits(ds) && DigitsValue(ds) == v
    ensures ParseInt((if negative then "-" else "") + ds) == Some(if negative then -(v as int) else v as int)
  {
    var s := (if negative then "-" else "") + ds;
    assert IsDigit(ds[0]) && IsDigit(ds[|ds| - 1]);
    assert s[|s| - 1] == ds[|ds| - 1];
    StripTrimmed(s);
    if negative {
      ParseNegative(ds);
    } else {
      assert s == ds;
      ParseUnsigned(ds);
    }
  }

  /** `str(n)`: a minus sign for a negative number, then the digits of its
      magnitude. */
  lemma Rendering(n: int)
    ensures var m: nat := if n < 0 then -n else n;
            && IntToString(n) == (if n < 0 then "-" else "") + IntToString(m)
            && AllDigits(IntToString(m)) && DigitsValue(IntToString(m)) == m
  {
    DigitsRoundTrip(if n < 0 then -n else n);
  }

  /** `int(str(n)) == n`: an integer property written by `str` reads back. */
  lemma IntRoundTrip(n: int)
    ensures ParseInt(IntToString(n)) == Some(n)
  {
    var m: nat := if n < 0 then -n else n;
    Rendering(n);
    ParseRendered(n < 0, IntToString(m), m);
  }

  /** An integer property set in the environment is read as that integer. */
  lemma IntProperty(l: Loader, env: Dict<string>, key: string, n: int, default: int)
    requires Get(env, key) == Some(IntToString(n))
    ensures GetIntProperty(l, env, key, default) == Ok(n)
  {
    IntRoundTrip(n);
    Rendering(n);
  }

  /** Without a models file the defaults name the mock provider and model,
      and there are no providers or models. */
  lemma MissingModelsFile(properties: FileState<seq<string>>, name: string)
    ensures var l := Load(Files(properties, Missing));
            && DefaultProvider(l) == Ok(JStr("mock"))
            && DefaultModel(l) == Ok(JStr("mock-model"))
            && AvailableProviders(l) == Ok([])
            && AllModels(l) == Ok(JObj([]))
            && ProviderModels(l, name) == Ok(JArr([]))
  {
    var top := DefaultModels.fields;
    LiteralReads(top);
    assert top[0].0 == "defaults" && top[1].0 == "providers" && top[2].0 == "models";
    var d := [("provider", JStr("mock")), ("model", JStr("mock-model"))];
    LiteralReads(d);
    assert d[0].0 == "provider" && d[1].0 == "model";
  }

  /** Reloading reads both files afresh: two loaders reloaded from the same
      files are the same loader, and the one a fresh load gives. */
  lemma ReloadForgets(l1: Loader, l2: Loader, files: Files)
    ensures Reload(l1, files) == Reload(l2, files) == Load(files)
  {
  }

  /** The two credential lookups differ only when the variable is set to
      the empty string: otherwise the second step reads the properties
      file's entry either way. */
  lemma ApiKeyAgrees(l: Loader, env: Dict<string>, name: string)
    requires Get(env, KeyVariable(name)) != Some("")
    ensures GetApiKey(l, env, name) == GetApiKeyFixed(l, env, name)
  {
  }

  /** As written, a credential variable set to the empty string hides the
      properties file's key: the lookup goes on to the provider entry's
      variable, where the documented lookup returns the file's key. */
  lemma EmptyVariableHides(l: Loader, env: Dict<string>, name: string)
    requires Get(env, KeyVariable(name)) == Some("")
    requires NonEmpty(Get(l.properties, KeyVariable(name)))
    ensures GetApiKey(l, env, name) == ConfiguredVariable(l, env, name)
    ensures GetApiKeyFixed(l, env, name) == Ok(Get(l.properties, KeyVariable(name)))
  {
  }

  /** A provider's credential variable assigned in a properties line reads
      back, for a provider named in lower-case letters. */
  lemma VariableLine(name: string, secret: string)
    requires |name| > 0 && forall i :: 0 <= i < |name| ==> 'a' <= name[i] <= 'z'
    requires |secret| > 0 ==> !IsSpace(secret[0]) && !IsSpace(secret[|secret| - 1])
    ensures ParseLine(KeyVariable(name) + "=" + secret) == Some((KeyVariable(name), secret))
  {
    var key := KeyVariable(name);
    assert 'A' <= key[0] <= 'Z';
    assert key[|key| - 1] == 'Y';
    assert forall i :: 0 <= i < |key| ==> key[i] != '=' by {
      assert forall i :: 0 <= i < |name| ==> key[i] == UpperChar(name[i]);
      assert key[|name|..] == "_API_KEY";
    }
    PropertyLine(key, secret);
  }

  /** A file of one assigning line holds that assignment. */
  lemma SingleLine(line: string, key: string, value: string)
    requires ParseLine(line) == Some((key, value))
    ensures Get(LoadLines([line]), key) == Some(value)
  {
    assert Assignments([line])[0] == Some((key, value));
  }

  /** The default models configuration configures no provider. */
  lemma NoProviderConfigured(l: Loader, name: string)
    requires l.models == DefaultModels
    ensures ProviderConfig(l, name) == Ok(JNull)
  {
    var top := DefaultModels.fields;
    LiteralReads(top);
    assert top[1].0 == "providers";
  }

  /** The concrete case, for instance the provider `grok` with
      `GROK_API_KEY` set to the empty string and the properties file
      assigning it `k`, without a models file.  As written there is no key;
      the documented lookup finds the file's. */
  lemma EmptyVariableHidesProperty(name: string, secret: string)
    requires |name| > 0 && forall i :: 0 <= i < |name| ==> 'a' <= name[i] <= 'z'
    requires |secret| > 0 && !IsSpace(secret[0]) && !IsSpace(secret[|secret| - 1])
    ensures var l := Load(Files(Parsed([KeyVariable(name) + "=" + secret]), Missing));
            var env := [(KeyVariable(name), "")];
            && GetApiKey(l, env, name) == Ok(None)
            && GetApiKeyFixed(l, env, name) == Ok(Some(secret))
  {
    var key := KeyVariable(name);
    var line := key + "=" + secret;
    var l := Load(Files(Parsed([line]), Missing));
    var env := [(key, "")];
    assert l.properties == LoadLines([line]) && l.models == DefaultModels;
    VariableLine(name, secret);
    SingleLine(line, key, secret);
    assert Get(env, key) == Some("");
    NoConfiguredVariable(l, env, name);
    EmptyVariableHides(l, env, name);
  }

  /** Without a models file no provider entry names a credential variable. */
  lemma NoConfiguredVariable(l: Loader, env: Dict<string>, name: string)
    requires l.models == DefaultModels
    ensures ConfiguredVariable(l, env, name) == Ok(None)
  {
    NoProviderConfigured(l, name);
  }
}
