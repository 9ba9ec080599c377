/** Environment configuration (src/config/environment.ts): typed lookups with
    defaults over the build-time environment, the configuration record the
    HTTP client reads, and the start-up check for required variables. The
    environment is passed explicitly as a map from variable name to value; a
    name absent from the map is an `undefined` variable. */
module Environment {
  import opened Wrappers
  import opened Text

  type Env = map<string, string>

  /** `getEnvVar(key, defaultValue)`: `env[key] || defaultValue`, so a variable
      set to the empty string falls back to the default too. */
  function GetEnvVar(env: Env, key: string, default: string): (r: string)
    ensures key in env && env[key] != "" ==> r == env[key]
    ensures key !in env || env[key] == "" ==> r == default
    ensures r == "" ==> default == ""
  {
    if key in env && env[key] != "" then env[key] else default
  }

  /** `getBooleanEnvVar(key, defaultValue)`: the default only when the
      variable is undefined; otherwise true exactly for the text `true`. */
  function GetBooleanEnvVar(env: Env, key: string, default: bool): (r: bool)
    ensures key !in env ==> r == default
    ensures key in env ==> (r <==> env[key] == "true")
  {
    if key !in env then default else env[key] == "true"
  }

  /** `parseInt(s, 10)`: skip leading white space, take an optional sign,
      then the longest run of decimal digits; no digits at all is `NaN`,
      written `None`. */
  function ParseInt(s: string): (r: Option<int>)
    ensures AllWhiteSpace(s) ==> r.None?
    ensures |s| > 0 && IsDigit(s[0]) ==> r.Some? && r.value >= 0
    ensures |s| > 0 && !IsWhiteSpace(s[0]) && !IsDigit(s[0]) && s[0] != '-' && s[0] != '+' ==> r.None?
  {
    ParseSigned(TrimStart(s))
  }

  /** An optional sign followed by digits. */
  function ParseSigned(t: string): (r: Option<int>)
    ensures var u := if |t| > 0 && (t[0] == '-' || t[0] == '+') then t[1..] else t;
            r.None? <==> (u == [] || !IsDigit(u[0]))
    ensures r.Some? && r.value < 0 ==> t[0] == '-'
    ensures r.Some? && |t| > 0 && t[0] == '-' ==> r.value <= 0
  {
    if |t| > 0 && t[0] == '-' then
      match ParseDigits(t[1..])
      case None => None
      case Some(v) => Some(-v)
    else if |t| > 0 && t[0] == '+' then ParseDigits(t[1..])
    else ParseDigits(t)
  }

  /** The value of the leading digits of `u`, if there are any. */
  function ParseDigits(u: string): (r: Option<int>)
    ensures r.Some? ==> r.value >= 0
  {
    var digits := DigitPrefix(u);
    if digits == [] then None else Some(DigitsValue(digits))
  }

  /** The longest prefix of `s` made of decimal digits. */
  function DigitPrefix(s: string): (r: string)
    ensures r <= s && AllDigits(r)
    ensures |r| == |s| || !IsDigit(s[|r|])
  {
    if |s| > 0 && IsDigit(s[0]) then [s[0]] + DigitPrefix(s[1..]) else []
  }

  /** The digit prefix stops exactly where the digits stop. */
  lemma {:induction false} DigitPrefixOfDigitsThenRest(ds: string, rest: string)
    requires AllDigits(ds)
    requires rest == [] || !IsDigit(rest[0])
    ensures DigitPrefix(ds + rest) == ds
  {
    if ds != [] {
      assert (ds + rest)[1..] == ds[1..] + rest;
      DigitPrefixOfDigitsThenRest(ds[1..], rest);
    }
  }

  /** `parseInt` reads back a rendered integer, and ignores whatever follows
      it that does not begin with a digit (as in `"5000ms"`). */
  lemma ParseIntOfIntToStringThenRest(n: int, rest: string)
    requires rest == [] || !IsDigit(rest[0])
    ensures ParseInt(IntToString(n) + rest) == Some(n)
  {
    if n < 0 {
      ParseIntOfNegative(n, rest);
    } else {
      ParseIntOfNonNegative(n, rest);
    }
  }

  lemma ParseIntOfNegative(n: int, rest: string)
    requires n < 0
    requires rest == [] || !IsDigit(rest[0])
    ensures ParseInt(IntToString(n) + rest) == Some(n)
  {
    var digits := NatToString(-n);
    var t := digits + rest;
    var s := "-" + t;
    assert IntToString(n) + rest == s;
    assert s[0] == '-' && s[1..] == t;
    assert !IsWhiteSpace('-');
    assert TrimStart(s) == s;
    DigitPrefixOfDigitsThenRest(digits, rest);
    DigitsValueOfNatToString(-n);
    assert ParseDigits(t) == Some(-n);
    assert ParseSigned(s) == Some(n);
  }

  lemma ParseIntOfNonNegative(n: int, rest: string)
    requires n >= 0
    requires rest == [] || !IsDigit(rest[0])
    ensures ParseInt(IntToString(n) + rest) == Some(n)
  {
    var digits := NatToString(n);
    var s := digits + rest;
    assert IntToString(n) + rest == s;
    assert IsDigit(s[0]) && !IsWhiteSpace(s[0]);
    assert TrimStart(s) == s;
    DigitPrefixOfDigitsThenRest(digits, rest);
    DigitsValueOfNatToString(n);
    assert ParseDigits(s) == Some(n);
  }

  lemma ParseIntOfIntToString(n: int)
    ensures ParseInt(IntToString(n)) == Some(n)
  {
    assert IntToString(n) + [] == IntToString(n);
    ParseIntOfIntToStringThenRest(n, []);
  }

  lemma {:induction false} TrimStartSkipsWhiteSpace(ws: string, s: string)
    requires AllWhiteSpace(ws)
    ensures TrimStart(ws + s) == TrimStart(s)
  {
    if ws == [] {
      assert ws + s == s;
    } else {
      assert (ws + s)[1..] == ws[1..] + s;
      TrimStartSkipsWhiteSpace(ws[1..], s);
    }
  }

  /** Leading white space does not change what `parseInt` reads. */
  lemma ParseIntSkipsWhiteSpace(ws: string, s: string)
    requires AllWhiteSpace(ws)
    ensures ParseInt(ws + s) == ParseInt(s)
  {
    TrimStartSkipsWhiteSpace(ws, s);
  }

  /** `parseInt` is `NaN` exactly when no digit follows the white space and
      the optional sign. */
  lemma ParseIntNaNIff(s: string)
    ensures var t := TrimStart(s);
            var u := if |t| > 0 && (t[0] == '-' || t[0] == '+') then t[1..] else t;
            ParseInt(s).None? <==> (u == [] || !IsDigit(u[0]))
  {
  }

  /** `getNumberEnvVar(key, defaultValue)`: the default when the variable is
      undefined or does not start with a number; otherwise its leading
      integer. */
  function GetNumberEnvVar(env: Env, key: string, default: int): (r: int)
    ensures key !in env || ParseInt(env[key]).None? ==> r == default
    ensures key in env && ParseInt(env[key]).Some? ==> r == ParseInt(env[key]).value
  {
    if key !in env then default
    else match ParseInt(env[key])
      case None => default
      case Some(n) => n
  }

  datatype ApiSettings = ApiSettings(baseUrl: string, timeout: int)
  datatype AppSettings = AppSettings(name: string, version: string, debugMode: bool)

  /** `EnvironmentConfig`: the settings read once at start-up. */
  datatype EnvironmentConfig = EnvironmentConfig(api: ApiSettings, app: AppSettings)

  const DefaultBaseUrl: string := "https://jsonplaceholder.typicode.com"
  const DefaultTimeout: int := 10000
  const DefaultAppName: string := "React Technical Challenge"
  const DefaultAppVersion: string := "1.0.0"

  /** The `environment` object built from `env`. */
  function LoadEnvironment(env: Env): (config: EnvironmentConfig)
    ensures config.api.baseUrl != ""
    ensures config.app.name != "" && config.app.version != ""
  {
    EnvironmentConfig(
      ApiSettings(
        GetEnvVar(env, "VITE_API_BASE_URL", DefaultBaseUrl),
        GetNumberEnvVar(env, "VITE_API_TIMEOUT", DefaultTimeout)),
      AppSettings(
        GetEnvVar(env, "VITE_APP_NAME", DefaultAppName),
        GetEnvVar(env, "VITE_APP_VERSION", DefaultAppVersion),
        GetBooleanEnvVar(env, "VITE_DEBUG_MODE", false)))
  }

  /** With nothing set, every setting takes its default. */
  lemma LoadEnvironmentDefaults()
    ensures LoadEnvironment(map[]) == EnvironmentConfig(
      ApiSettings("https://jsonplaceholder.typicode.com", 10000),
      AppSettings("React Technical Challenge", "1.0.0", false))
  {
  }

  /** A timeout written as an integer, possibly followed by a unit suffix,
      is the configured timeout. */
  lemma LoadEnvironmentTimeout(env: Env, n: int, suffix: string)
    requires suffix == [] || !IsDigit(suffix[0])
    ensures LoadEnvironment(env["VITE_API_TIMEOUT" := IntToString(n) + suffix]).api.timeout == n
  {
    ParseIntOfIntToStringThenRest(n, suffix);
  }

  /** A timeout that does not start with a number falls back to 10000. */
  lemma LoadEnvironmentTimeoutNotANumber(env: Env)
    ensures LoadEnvironment(env["VITE_API_TIMEOUT" := "ten"]).api.timeout == 10000
    ensures LoadEnvironment(env["VITE_API_TIMEOUT" := ""]).api.timeout == 10000
  {
    assert TrimStart("ten") == "ten";
    assert DigitPrefix("ten") == [];
  }

  const RequiredVars: seq<string> := ["VITE_API_BASE_URL"]

  /** `requiredVars.filter(varName => !getEnvVar(varName))`, in order. */
  function MissingVars(env: Env, names: seq<string>): (r: seq<string>)
    ensures |r| <= |names|
    ensures forall x :: x in r <==> x in names && (x !in env || env[x] == "")
  {
    if names == [] then []
    else if GetEnvVar(env, names[0], "") == "" then [names[0]] + MissingVars(env, names[1..])
    else MissingVars(env, names[1..])
  }

  /** The start of the message `validateEnvironment` throws. */
  const MissingVarsMessage: string := "Missing required environment variables: "

  /** `validateEnvironment()`: fails, with the list of missing names, when a
      required variable is undefined or empty. */
  function ValidateEnvironment(env: Env): (r: Outcome<string>)
    ensures r.Fail? <==> exists name :: name in RequiredVars && (name !in env || env[name] == "")
    ensures r.Fail? ==> MissingVarsMessage <= r.error
  {
    var missing := MissingVars(env, RequiredVars);
    if |missing| > 0 then
      Fail(MissingVarsMessage + Join(missing, ", "))
    else Pass
  }

  /** The failure message names every required variable that is undefined
      or empty. */
  lemma ValidateEnvironmentNamesEveryMissing(env: Env, name: string)
    requires name in RequiredVars && (name !in env || env[name] == "")
    ensures ValidateEnvironment(env).Fail? && Contains(ValidateEnvironment(env).error, name)
  {
    var missing := MissingVars(env, RequiredVars);
    PrefixedJoinContainsEveryPart(MissingVarsMessage, missing, ", ");
  }

  /** Validation fails exactly when the API base URL is undefined or empty,
      and then says so by name. */
  lemma ValidateEnvironmentFailsIff(env: Env)
    ensures ValidateEnvironment(env).Fail? <==>
            ("VITE_API_BASE_URL" !in env || env["VITE_API_BASE_URL"] == "")
    ensures ValidateEnvironment(env).Fail? ==>
            ValidateEnvironment(env).error ==
            MissingVarsMessage + "VITE_API_BASE_URL"
  {
    var name := "VITE_API_BASE_URL";
    assert RequiredVars == [name] && RequiredVars[1..] == [];
    if name !in env || env[name] == "" {
      assert MissingVars(env, RequiredVars) == [name];
      assert Join([name], ", ") == name;
    } else {
      assert MissingVars(env, RequiredVars) == [];
    }
  }

  /** The start-up check and the configuration disagree on purpose: a
      missing base URL fails validation while the client still receives the
      public default. */
  lemma MissingBaseUrlStillConfigured(env: Env)
    requires "VITE_API_BASE_URL" !in env
    ensures ValidateEnvironment(env).Fail?
    ensures LoadEnvironment(env).api.baseUrl == DefaultBaseUrl
  {
    ValidateEnvironmentFailsIff(env);
  }
}
