/** The bot's configuration: values taken from the environment when the program starts,
    and typed getters over them. The environment is a map parameter. */
module Config {

  import opened Wrappers
  import opened Bits
  import opened Text

  const KEY_AUTH_TOKEN: string := "YTB_AUTH_TOKEN"
  const KEY_FFMPEG_LOCATION: string := "YTB_FFMPEG_LOCATION"

  /** The message `loadKey` ends the process with. */
  function MissingMessage(key: string): string
  {
    "missing environment variable `" + key + "`"
  }

  /** `strings.ToLower(v) == "true"`. */
  predicate IsTrue(v: string)
  {
    ToLower(v) == "true"
  }

  /** Only four-letter values read as true, and every casing of "true" does. */
  lemma IsTrueShape(v: string)
    ensures IsTrue(v) ==> |v| == 4
    ensures |v| == 4 && v[0] in "tT" && v[1] in "rR" && v[2] in "uU" && v[3] in "eE" ==> IsTrue(v)
  {
    if |v| == 4 && v[0] in "tT" && v[1] in "rR" && v[2] in "uU" && v[3] in "eE" {
      assert ToLower(v) == [LowerChar(v[0]), LowerChar(v[1]), LowerChar(v[2]), LowerChar(v[3])];
    }
  }

  class Configuration {
    /** `configValues`. */
    var values: map<string, string>

    /** The package's `init`: no values yet. */
    constructor ()
      ensures values == map[]
    {
      values := map[];
    }

    /** `loadKey`: a variable present in the environment is stored as it is, even when
        empty; an absent one falls back to a non-empty default; an absent one without a
        default ends the process and stores nothing. */
    method LoadKey(key: string, defaultValue: string, env: map<string, string>) returns (outcome: Outcome)
      modifies this`values
      ensures key in env ==> outcome.Continue? && values == old(values)[key := env[key]]
      ensures key !in env && defaultValue != "" ==> outcome.Continue? && values == old(values)[key := defaultValue]
      ensures key !in env && defaultValue == "" ==> outcome == Crash(MissingMessage(key)) && values == old(values)
    {
      var value := "";
      if key in env {
        value := env[key];
      } else if defaultValue != "" {
        value := defaultValue;
      } else {
        return Crash(MissingMessage(key));
      }
      values := values[key := value];
      outcome := Continue;
    }

    /** The keys file's `init`: both keys are loaded without a default, so the process
        carries on only when both are set, and then holds exactly their values. */
    method LoadKeys(env: map<string, string>) returns (outcome: Outcome)
      modifies this`values
      ensures outcome.Continue? <==> KEY_AUTH_TOKEN in env && KEY_FFMPEG_LOCATION in env
      ensures outcome.Continue? ==>
                values == old(values)[KEY_AUTH_TOKEN := env[KEY_AUTH_TOKEN]][KEY_FFMPEG_LOCATION := env[KEY_FFMPEG_LOCATION]]
      ensures outcome.Continue? ==> GetString(KEY_AUTH_TOKEN) == env[KEY_AUTH_TOKEN]
                                    && GetString(KEY_FFMPEG_LOCATION) == env[KEY_FFMPEG_LOCATION]
    {
      outcome := LoadKey(KEY_AUTH_TOKEN, "", env);
      if outcome.Crash? {
        return;
      }
      outcome := LoadKey(KEY_FFMPEG_LOCATION, "", env);
    }

    /** `GetString`: the stored value, or "" for a key never loaded. */
    function GetString(key: string): (v: string)
      reads this
      ensures key !in values ==> v == ""
      ensures key in values ==> v == values[key]
    {
      if key in values then values[key] else ""
    }

    /** `GetBool`: whether the value is "true" in any casing. */
    function GetBool(key: string): (b: bool)
      reads this
      ensures b ==> key in values && |values[key]| == 4
    {
      IsTrueShape(GetString(key));
      IsTrue(GetString(key))
    }

    /** `GetInt`: the value as a decimal int64; a value `Atoi` rejects ends the process. */
    function GetInt(key: string): (r: Result<int>)
      reads this
      ensures r.Ok? ==> IsInteger(GetString(key)) && INT64_MIN <= r.value <= INT64_MAX
      ensures !IsInteger(GetString(key)) ==> r.Err?
    {
      var (n, ok) := Atoi(GetString(key));
      if ok then
        AtoiOkIsInteger(GetString(key));
        AtoiBounds(GetString(key));
        Ok(n)
      else Err("failed to read int property `" + key + "`")
    }

    /** `GetMilliseconds`: the integer value as that many milliseconds, in nanoseconds with
        int64 wrap-around. */
    function GetMilliseconds(key: string): (r: Result<int>)
      reads this
      ensures GetInt(key).Err? <==> r.Err?
      ensures r.Ok? ==> r.value == Milliseconds(GetInt(key).value)
    {
      match GetInt(key)
      case Err(e) => Err(e)
      case Ok(n) => Ok(Milliseconds(n))
    }

    /** A value written by `Itoa` reads back as the same integer. */
    lemma GetIntOfItoa(key: string, n: int)
      requires INT64_MIN <= n <= INT64_MAX && key in values && values[key] == Itoa(n)
      ensures GetInt(key) == Ok(n)
    {
      AtoiItoa(n);
    }
  }
}
