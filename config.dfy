/** The job's configuration (config/config.go): three URLs and the length
    of the fetch window, read from the environment, which is a map here.
    Loading a .env file is not part of this model. */
module Configuration {
  import opened Wrappers
  import opened Errors
  import opened Strconv

  /** time.Hour, in nanoseconds. */
  const Hour: int := 3_600_000_000_000

  const FetchHoursKey: string := "FETCH_DATA_SINCE_HOURS"

  /** `Config`; fetchDataSince is a time.Duration in nanoseconds. */
  datatype Config = Config(vestroBaseUrl: string, grailsAppUrl: string,
                           agriwinUsersUrl: string, fetchDataSince: int)

  /** Two's-complement wrap-around of a 64-bit signed integer. */
  function Wrap64(x: int): (r: int)
    ensures Int64Min <= r <= Int64Max
    ensures (x - r) % 0x1_0000_0000_0000_0000 == 0
  {
    (x - Int64Min) % 0x1_0000_0000_0000_0000 + Int64Min
  }

  /** `getEnv`: the variable's value when it is set, even to the empty
      string, and the fallback when it is not. */
  function GetEnv(env: map<string, string>, key: string, fallback: string): (v: string)
    ensures key in env ==> v == env[key]
    ensures key !in env ==> v == fallback
  {
    if key in env then env[key] else fallback
  }

  /** The hours of the fetch window: the parsed variable ("24" when unset),
      or 24 when it does not parse. */
  function FetchHours(env: map<string, string>): (h: int)
    ensures Int64Min <= h <= Int64Max
  {
    match Atoi(GetEnv(env, FetchHoursKey, "24"))
    case Success(n) => n
    case Failure(_) => 24
  }

  /** `Load`: never fails; the window is `time.Duration(fetchHours) *
      time.Hour`, a 64-bit product that wraps around. */
  function Load(env: map<string, string>): (r: Result<Config, Error>)
    ensures r.Success?
    ensures Int64Min <= r.value.fetchDataSince <= Int64Max
  {
    Success(Config(GetEnv(env, "VESTRO_API_URL", ""),
                   GetEnv(env, "GRAILS_APP_URL", ""),
                   GetEnv(env, "AGRIWIN_USERS_URL", ""),
                   Wrap64(FetchHours(env) * Hour)))
  }

  /** Wrap64 leaves every int64 value as it is. */
  lemma Wrap64InRange(x: int)
    requires Int64Min <= x <= Int64Max
    ensures Wrap64(x) == x
  {
  }

  lemma AtoiOf24()
    ensures Atoi("24") == Success(24)
  {
    assert AllDigits("24");
    assert "24"[..1] == "2" && "2"[..0] == "";
  }

  /** With the variable unset, the window is 24 hours. */
  lemma UnsetMeans24Hours(env: map<string, string>)
    requires FetchHoursKey !in env
    ensures Load(env).value.fetchDataSince == 24 * Hour
  {
    AtoiOf24();
  }

  /** With the variable set to something Atoi refuses, the empty string
      among them, the window is 24 hours too. */
  lemma UnparsableMeans24Hours(env: map<string, string>)
    requires FetchHoursKey in env && Atoi(env[FetchHoursKey]).Failure?
    ensures Load(env).value.fetchDataSince == 24 * Hour
  {
  }

  lemma EmptyMeans24Hours(env: map<string, string>)
    requires FetchHoursKey in env && env[FetchHoursKey] == ""
    ensures Load(env).value.fetchDataSince == 24 * Hour
  {
    assert Atoi(env[FetchHoursKey]) == Failure(SyntaxError(""));
  }

  /** A parsed value n gives n hours, wrapped to 64 bits; there is no range
      check, so zero and negative windows are accepted as they are, and the
      product is exact for |n| up to 2562047 hours. */
  lemma ParsedHours(env: map<string, string>, n: int)
    requires FetchHoursKey in env && Atoi(env[FetchHoursKey]) == Success(n)
    ensures Load(env).value.fetchDataSince == Wrap64(n * Hour)
    ensures -2562047 <= n <= 2562047 ==> Load(env).value.fetchDataSince == n * Hour
  {
    if -2562047 <= n <= 2562047 {
      Wrap64InRange(n * Hour);
    }
  }

  /** "-3" is accepted as a window of minus three hours. */
  lemma NegativeHoursAccepted(env: map<string, string>)
    requires FetchHoursKey in env && env[FetchHoursKey] == "-3"
    ensures Load(env).value.fetchDataSince == -3 * Hour
  {
    var s := env[FetchHoursKey];
    assert s[1..] == "3" && "3"[..0] == "";
    assert Atoi(s) == Success(-3);
    Wrap64InRange(-3 * Hour);
  }

  /** One hour more than fits wraps the window around to a negative duration. */
  lemma OverflowWraps(env: map<string, string>)
    requires FetchHoursKey in env && Atoi(env[FetchHoursKey]) == Success(2562048)
    ensures Load(env).value.fetchDataSince == 2562048 * Hour - 0x1_0000_0000_0000_0000
    ensures Load(env).value.fetchDataSince < 0
  {
  }

  /** 2^50 hours is 2^63 times an odd number of nanoseconds, so the window
      wraps to the minimum duration. */
  lemma WindowWrapsToMinimum(env: map<string, string>)
    requires FetchHoursKey in env && Atoi(env[FetchHoursKey]) == Success(0x4_0000_0000_0000)
    ensures Load(env).value.fetchDataSince == Int64Min
  {
  }

  /** Each URL field is its variable's value when set, even when empty, and
      the empty string otherwise. */
  lemma UrlFields(env: map<string, string>)
    ensures Load(env).value.vestroBaseUrl == if "VESTRO_API_URL" in env then env["VESTRO_API_URL"] else ""
    ensures Load(env).value.grailsAppUrl == if "GRAILS_APP_URL" in env then env["GRAILS_APP_URL"] else ""
    ensures Load(env).value.agriwinUsersUrl == if "AGRIWIN_USERS_URL" in env then env["AGRIWIN_USERS_URL"] else ""
  {
  }
}
