/** Configuration: the record derived from the process environment, with
    `parseInt(…, 10)` for the two ports, and its validation, which either
    accepts (possibly warning that no platform is enabled) or rejects with
    one of two messages. */
module Config {
  import opened Types

  /** The process environment: variable name to value. */
  type Env = map<string, string>

  /** `process.env[name]`: undefined when the variable is not set. */
  function Get(env: Env, name: string): Option<string>
  {
    if name in env then Some(env[name]) else None
  }

  /** `value || fallback` on an optional string. */
  function OrElse(value: Option<string>, fallback: string): string
  {
    if Truthy(value) then value.value else fallback
  }

  // ---------------------------------------------------------------------
  // parseInt(s, 10)
  // ---------------------------------------------------------------------

  /** The characters `parseInt` skips before the number: the white space
      and line terminators of section 12.2 and 12.3 of ECMA-262 (tab,
      vertical tab, form feed, the Zs space separators, the byte order
      mark, line feed, carriage return, line and paragraph separators). */
  predicate IsSpace(c: char)
  {
    var n := c as int;
    n == 0x09 || n == 0x0B || n == 0x0C || n == 0xFEFF ||
    n == 0x20 || n == 0xA0 || n == 0x1680 || 0x2000 <= n <= 0x200A ||
    n == 0x202F || n == 0x205F || n == 0x3000 ||
    n == 0x0A || n == 0x0D || n == 0x2028 || n == 0x2029
  }

  predicate IsDigit(c: char)
  {
    '0' <= c <= '9'
  }

  predicate AllDigits(s: string)
  {
    forall i :: 0 <= i < |s| ==> IsDigit(s[i])
  }

  /** `s` without its leading white space. */
  function TrimStart(s: string): (t: string)
    ensures |t| <= |s| && t == s[|s| - |t|..]
    ensures t != [] ==> !IsSpace(t[0])
    ensures forall i :: 0 <= i < |s| - |t| ==> IsSpace(s[i])
    decreases |s|
  {
    if s != [] && IsSpace(s[0]) then TrimStart(s[1..]) else s
  }

  /** The longest prefix of `s` made of decimal digits. */
  function DigitPrefix(s: string): (d: string)
    ensures AllDigits(d) && d <= s
    ensures |d| < |s| ==> !IsDigit(s[|d|])
    decreases |s|
  {
    if s != [] && IsDigit(s[0]) then [s[0]] + DigitPrefix(s[1..]) else ""
  }

  /** The value of a string of decimal digits. */
  function DigitsValue(d: string): nat
    requires AllDigits(d)
    decreases |d|
  {
    if d == [] then 0
    else DigitsValue(d[..|d| - 1]) * 10 + (d[|d| - 1] as int - '0' as int)
  }

  /** `parseInt(s, 10)`: skip leading white space, read an optional sign,
      then the longest run of decimal digits; NaN when there is none. */
  function ParseInt(s: string): Number
  {
    ParseTrimmed(TrimStart(s))
  }

  /** `parseInt` on text that starts after the white space. */
  function ParseTrimmed(t: string): Number
  {
    var negative := t != [] && t[0] == '-';
    var u := if t != [] && (t[0] == '-' || t[0] == '+') then t[1..] else t;
    var digits := DigitPrefix(u);
    var magnitude: int := if digits == [] then 0 else DigitsValue(digits);
    if digits == [] then NaN
    else if negative then Finite(-magnitude)
    else Finite(magnitude)
  }

  /** The decimal numeral of `n`, without sign or leading zeros. */
  function Decimal(n: nat): string
    decreases n
  {
    if n < 10 then [('0' as int + n) as char]
    else Decimal(n / 10) + [('0' as int + n % 10) as char]
  }

  lemma {:induction false} DecimalDigits(n: nat)
    ensures Decimal(n) != [] && AllDigits(Decimal(n))
    decreases n
  {
    if n >= 10 {
      DecimalDigits(n / 10);
    }
  }

  lemma {:induction false} DecimalValue(n: nat)
    ensures AllDigits(Decimal(n)) && DigitsValue(Decimal(n)) == n
    decreases n
  {
    DecimalDigits(n);
    if n >= 10 {
      DecimalValue(n / 10);
      var d := Decimal(n);
      assert d[..|d| - 1] == Decimal(n / 10);
    }
  }

  /** The digit prefix of digits followed by a non-digit is those digits. */
  lemma {:induction false} DigitPrefixOf(d: string, rest: string)
    requires AllDigits(d)
    requires rest != [] ==> !IsDigit(rest[0])
    ensures DigitPrefix(d + rest) == d
    decreases |d|
  {
    if d == [] {
      assert d + rest == rest;
    } else {
      assert (d + rest)[1..] == d[1..] + rest;
      DigitPrefixOf(d[1..], rest);
    }
  }

  /** Reading back a numeral, followed by anything that does not continue
      it, gives its value. */
  lemma ParseDecimal(n: nat, rest: string)
    requires rest != [] ==> !IsDigit(rest[0])
    ensures ParseInt(Decimal(n) + rest) == Finite(n)
  {
    DecimalValue(n);
    var d := Decimal(n);
    assert (d + rest)[0] == d[0];
    assert !IsSpace(d[0]) && d[0] != '-' && d[0] != '+';
    DigitPrefixOf(d, rest);
  }

  /** A minus sign before a numeral negates it. */
  lemma ParseNegative(n: nat)
    ensures ParseInt("-" + Decimal(n)) == Finite(-(n as int))
  {
    DecimalValue(n);
    var d := Decimal(n);
    var s := "-" + d;
    assert s[0] == '-' && !IsSpace('-');
    assert TrimStart(s) == s;
    assert s[1..] == d + "";
    DigitPrefixOf(d, "");
    assert DigitPrefix(s[1..]) == d;
  }

  lemma {:induction false} TrimStartSkips(ws: string, s: string)
    requires forall i :: 0 <= i < |ws| ==> IsSpace(ws[i])
    ensures TrimStart(ws + s) == TrimStart(s)
    decreases |ws|
  {
    if ws == [] {
      assert ws + s == s;
    } else {
      var w := ws[1..];
      assert (ws + s)[0] == ws[0];
      assert (ws + s)[1..] == w + s;
      TrimStartSkips(w, s);
    }
  }

  /** Leading white space does not change the result. */
  lemma ParseSkipsSpace(ws: string, s: string)
    requires forall i :: 0 <= i < |ws| ==> IsSpace(ws[i])
    ensures ParseInt(ws + s) == ParseInt(s)
  {
    TrimStartSkips(ws, s);
  }

  /** Text that, after white space and a sign, does not start with a digit
      is not a number. */
  lemma ParseNaN(s: string)
    requires var t := TrimStart(s);
      var u := if t != [] && (t[0] == '-' || t[0] == '+') then t[1..] else t;
      u == [] || !IsDigit(u[0])
    ensures ParseInt(s) == NaN
  {
  }

  lemma DefaultPortsParse()
    ensures ParseInt("3000") == Finite(3000) && ParseInt("3001") == Finite(3001)
  {
    assert Decimal(3000) == "3000";
    assert Decimal(3001) == "3001";
    ParseDecimal(3000, "");
    ParseDecimal(3001, "");
    assert "3000" + "" == "3000" && "3001" + "" == "3001";
  }

  // ---------------------------------------------------------------------
  // loadConfig and validateConfig
  // ---------------------------------------------------------------------

  /** `loadConfig` as a function of the environment. */
  function LoadConfig(env: Env): Config
  {
    var channel := Get(env, "TWITCH_CHANNEL");
    var token := Get(env, "TWITCH_TOKEN");
    var channelId := Get(env, "YOUTUBE_CHANNEL_ID");
    var handle := Get(env, "YOUTUBE_HANDLE");
    Config(
      TwitchConfig(Truthy(channel) && Truthy(token), channel, token, Get(env, "SEVENTV_USER_ID")),
      YouTubeConfig(Truthy(channelId) || Truthy(handle), channelId, handle),
      ServerConfig(ParseInt(OrElse(Get(env, "HTTP_PORT"), "3000")),
                   ParseInt(OrElse(Get(env, "WS_PORT"), "3001"))))
  }

  const TwitchRequired := "TWITCH_CHANNEL and TWITCH_TOKEN required"
  const YouTubeRequired := "YOUTUBE_CHANNEL_ID or YOUTUBE_HANDLE required"

  /** The outcome of `validateConfig`: whether it warns that no platform
      is enabled, and the message it throws, if any. */
  datatype Validation = Validation(noPlatformWarning: bool, error: Option<string>)

  /** `validateConfig`: the warning is issued first; then the Twitch check,
      then the YouTube check, the first failing one throwing. */
  function ValidateConfig(c: Config): Validation
  {
    var warn := !c.twitch.enabled && !c.youtube.enabled;
    if c.twitch.enabled && (!Truthy(c.twitch.channel) || !Truthy(c.twitch.token)) then
      Validation(warn, Some(TwitchRequired))
    else if c.youtube.enabled && !Truthy(c.youtube.channelId) && !Truthy(c.youtube.handle) then
      Validation(warn, Some(YouTubeRequired))
    else
      Validation(warn, None)
  }

  /** Twitch is enabled exactly when both its channel and token are set and
      non-empty; YouTube exactly when its channel ID or handle is. */
  lemma EnabledFlags(env: Env)
    ensures LoadConfig(env).twitch.enabled <==>
      "TWITCH_CHANNEL" in env && env["TWITCH_CHANNEL"] != "" &&
      "TWITCH_TOKEN" in env && env["TWITCH_TOKEN"] != ""
    ensures LoadConfig(env).youtube.enabled <==>
      ("YOUTUBE_CHANNEL_ID" in env && env["YOUTUBE_CHANNEL_ID"] != "") ||
      ("YOUTUBE_HANDLE" in env && env["YOUTUBE_HANDLE"] != "")
  {
  }

  /** The string fields are the environment's values, unchanged. */
  lemma FieldsVerbatim(env: Env)
    ensures var c := LoadConfig(env);
      && c.twitch.channel == Get(env, "TWITCH_CHANNEL")
      && c.twitch.token == Get(env, "TWITCH_TOKEN")
      && c.twitch.sevenTvUserId == Get(env, "SEVENTV_USER_ID")
      && c.youtube.channelId == Get(env, "YOUTUBE_CHANNEL_ID")
      && c.youtube.handle == Get(env, "YOUTUBE_HANDLE")
  {
  }

  /** A port variable holding the numeral of `n` gives `n`. */
  lemma PortValue(value: Option<string>, fallback: string, n: nat)
    requires value == Some(Decimal(n))
    ensures ParseInt(OrElse(value, fallback)) == Finite(n)
  {
    DecimalDigits(n);
    assert Decimal(n) + "" == Decimal(n);
    ParseDecimal(n, "");
  }

  /** An unset or empty port variable gives the default port; a numeral
      gives its value. */
  lemma Ports(env: Env, n: nat)
    ensures !Truthy(Get(env, "HTTP_PORT")) ==> LoadConfig(env).server.httpPort == Finite(3000)
    ensures !Truthy(Get(env, "WS_PORT")) ==> LoadConfig(env).server.wsPort == Finite(3001)
    ensures Get(env, "HTTP_PORT") == Some(Decimal(n)) ==> LoadConfig(env).server.httpPort == Finite(n)
    ensures Get(env, "WS_PORT") == Some(Decimal(n)) ==> LoadConfig(env).server.wsPort == Finite(n)
  {
    DefaultPortsParse();
    if Get(env, "HTTP_PORT") == Some(Decimal(n)) {
      PortValue(Get(env, "HTTP_PORT"), "3000", n);
    }
    if Get(env, "WS_PORT") == Some(Decimal(n)) {
      PortValue(Get(env, "WS_PORT"), "3001", n);
    }
  }

  /** Validation throws exactly when Twitch is enabled without a channel or
      a token, or YouTube is enabled with neither a channel ID nor a handle;
      the Twitch message takes precedence. */
  lemma ValidateRejects(c: Config)
    ensures ValidateConfig(c).error.Some? <==>
      (c.twitch.enabled && (!Truthy(c.twitch.channel) || !Truthy(c.twitch.token))) ||
      (c.youtube.enabled && !Truthy(c.youtube.channelId) && !Truthy(c.youtube.handle))
    ensures ValidateConfig(c).error == Some(YouTubeRequired) ==>
      !(c.twitch.enabled && (!Truthy(c.twitch.channel) || !Truthy(c.twitch.token)))
    ensures ValidateConfig(c).noPlatformWarning <==> !c.twitch.enabled && !c.youtube.enabled
  {
  }

  /** Having no platform enabled only warns. */
  lemma NoPlatformOnlyWarns(c: Config)
    requires !c.twitch.enabled && !c.youtube.enabled
    ensures ValidateConfig(c) == Validation(true, None)
  {
  }

  /** A configuration loaded from any environment passes validation: both
      throwing branches are unreachable after `loadConfig`. */
  lemma LoadedConfigValidates(env: Env)
    ensures ValidateConfig(LoadConfig(env)).error == None
  {
  }
}
