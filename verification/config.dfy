/**
 * TestConfiguration: credential resolution and the run constants. System.getProperty and
 * System.getenv are given as two maps; a key that is absent reads as null.
 */
module Configuration {
  import opened Wrappers
  import opened Strings

  const USERNAME_KEY := "LT_USERNAME"
  const ACCESS_KEY_KEY := "LT_ACCESS_KEY"

  /** The grid endpoint that follows the embedded credentials. */
  const GRID_HOST := "@hub.lambdatest.com/wd/hub"

  const ECOMMERCE_BASE_URL := "https://ecommerce-playground.lambdatest.io/"

  const CHROME := "chrome"
  const WINDOWS_10 := "Windows 10"
  const LATEST := "latest"

  const PAGE_LOAD_TIMEOUT := 60
  const IMPLICIT_WAIT := 10
  const PROJECT_NAME := "ATDD Guide Project"
  const RESOLUTION := "1920x1080"

  const PASSED := "passed"
  const FAILED := "failed"

  /** The two places a setting can come from: override properties, then the environment. */
  datatype Sources = Sources(properties: map<string, string>, environment: map<string, string>)

  /** The resolved credentials; None is a null String. */
  datatype Settings = Settings(username: Option<string>, accessKey: Option<string>)

  /** Why getGridUrl raised (IllegalStateException). */
  datatype ConfigError = CredentialsNotConfigured

  function Lookup(m: map<string, string>, key: string): Option<string>
  {
    if key in m then Some(m[key]) else None
  }

  /**
   * getConfigValue: an override holding at least one char above U+0020 wins and is returned
   * untrimmed; otherwise the environment value is returned as it is, null and "" included.
   */
  function GetConfigValue(src: Sources, key: string): (r: Option<string>)
    ensures (key in src.properties && exists i :: 0 <= i < |src.properties[key]| && src.properties[key][i] > ' ')
      ==> r == Some(src.properties[key])
    ensures !(key in src.properties && exists i :: 0 <= i < |src.properties[key]| && src.properties[key][i] > ' ')
      ==> r == Lookup(src.environment, key)
  {
    var value := Lookup(src.properties, key);
    if value.Some? && !IsBlank(value.value) then value else Lookup(src.environment, key)
  }

  /** The USERNAME and ACCESS_KEY constants: both resolved by the same rule. */
  function Resolve(src: Sources): (s: Settings)
    ensures s.username == GetConfigValue(src, USERNAME_KEY)
    ensures s.accessKey == GetConfigValue(src, ACCESS_KEY_KEY)
  {
    Settings(GetConfigValue(src, USERNAME_KEY), GetConfigValue(src, ACCESS_KEY_KEY))
  }

  /** isConfigurationInValid: a credential that is null or empty; nothing is trimmed here. */
  function IsConfigurationInvalid(s: Settings): (invalid: bool)
    ensures !invalid <==> s.username.Some? && |s.username.value| > 0 && s.accessKey.Some? && |s.accessKey.value| > 0
  {
    s.username == None || s.username == Some("") || s.accessKey == None || s.accessKey == Some("")
  }

  /** Java string concatenation renders a null reference as "null". */
  function Show(v: Option<string>): string
  {
    match v
    case Some(x) => x
    case None => "null"
  }

  /** The GRID_URL constant, computed eagerly whether or not the credentials are set. */
  function GridUrlConstant(s: Settings): (url: string)
    ensures |url| >= 8 + |GRID_HOST| && url[..8] == "https://" && url[|url| - |GRID_HOST|..] == GRID_HOST
    ensures s.username == None ==> url[8..12] == "null"
  {
    "https://" + Show(s.username) + ":" + Show(s.accessKey) + GRID_HOST
  }

  /** getGridUrl: raises exactly when the configuration is invalid, else the URL with both credentials embedded. */
  function GetGridUrl(s: Settings): (r: Result<string, ConfigError>)
    ensures r.Failure? <==> IsConfigurationInvalid(s)
    ensures r.Success? ==>
      r.value == "https://" + s.username.value + ":" + s.accessKey.value + "@hub.lambdatest.com/wd/hub"
  {
    if IsConfigurationInvalid(s) then Failure(CredentialsNotConfigured) else Success(GridUrlConstant(s))
  }

  /** A blank override (absent, empty or whitespace only) falls through to the environment. */
  lemma BlankOverrideFallsThrough(src: Sources, key: string)
    requires key in src.properties ==> IsBlank(src.properties[key])
    ensures GetConfigValue(src, key) == Lookup(src.environment, key)
  {
  }

  /** With neither an override nor an environment value, getGridUrl fails closed. */
  lemma UnsetCredentialsFailClosed(src: Sources)
    requires USERNAME_KEY !in src.properties && USERNAME_KEY !in src.environment
    ensures GetConfigValue(src, USERNAME_KEY) == None
    ensures GetGridUrl(Resolve(src)).Failure?
  {
  }

  /**
   * A whitespace-only environment credential is not blank to isConfigurationInValid (no trim there),
   * so the configuration counts as valid although the same text as an override would be ignored.
   */
  lemma WhitespaceCredentialCountsAsConfigured(src: Sources, u: string, k: string)
    requires USERNAME_KEY !in src.properties && ACCESS_KEY_KEY !in src.properties
    requires Lookup(src.environment, USERNAME_KEY) == Some(u) && |u| > 0 && IsBlank(u)
    requires Lookup(src.environment, ACCESS_KEY_KEY) == Some(k) && |k| > 0 && IsBlank(k)
    ensures !IsConfigurationInvalid(Resolve(src))
    ensures GetGridUrl(Resolve(src)) == Success("https://" + u + ":" + k + GRID_HOST)
  {
    assert Resolve(src) == Settings(Some(u), Some(k));
  }

  /** The grid URL starts with the scheme and the username and ends with the access key and the host. */
  lemma GridUrlEmbedsCredentials(s: Settings)
    requires GetGridUrl(s).Success?
    ensures var url := GetGridUrl(s).value;
      var head := "https://" + s.username.value + ":";
      var tail := s.accessKey.value + GRID_HOST;
      |url| == |head| + |tail| && url[..|head|] == head && url[|head|..] == tail
  {
    var url := GetGridUrl(s).value;
    var head := "https://" + s.username.value + ":";
    var tail := s.accessKey.value + GRID_HOST;
    assert url == head + tail;
  }
}
