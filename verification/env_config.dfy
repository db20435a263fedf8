/** The configuration record of the out-of-office bot and the block of
    app.js that overwrites its fields from environment variables.

    Every override in the source has the shape `parse(env) || current`, so it
    follows JavaScript truthiness: the parsed environment value wins only when
    it is truthy. `undefined`, `NaN`, `0`, `""` and `false` all keep the
    configured value. */
module EnvConfig {
  import opened Wrappers

  datatype Respond = Respond(dm: bool, channel: bool)

  /** Epoch milliseconds; 0 means "not set". */
  datatype TimeboxConfig = TimeboxConfig(start: int, end: int)

  datatype AppSection = AppSection(message: string, reminder: int, respond: Respond, timebox: TimeboxConfig)

  datatype SlackSection = SlackSection(token: string, autoReconnect: bool, autoMark: bool)

  datatype Config = Config(app: AppSection, slack: SlackSection)

  /** The process environment: variable name to value. */
  type Env = map<string, string>

  /** `process.env[name]`: `undefined` when the variable is not set. */
  function Lookup(env: Env, name: string): Option<string>
  {
    if name in env then Some(env[name]) else None
  }

  // ---------------------------------------------------------------------
  // parseBool: /^(true|1)$/i.test(string) for strings, identity otherwise
  // ---------------------------------------------------------------------

  /** Case folding of the `i` regex flag restricted to ASCII letters. For the
      letters of "true" no other character folds onto them. */
  function FoldCase(c: char): char
  {
    if 'A' <= c <= 'Z' then (c as int - 'A' as int + 'a' as int) as char else c
  }

  /** The anchored, case-insensitive test of `/^(true|1)$/i`. */
  predicate MatchesTrue(s: string)
  {
    s == "1" || (|s| == 4 && forall k :: 0 <= k < 4 ==> FoldCase(s[k]) == "true"[k])
  }

  /** The seventeen strings the regex accepts, listed independently of it. */
  ghost function TrueSpellings(): set<string>
  {
    {"1"} + set a, b, c, d | a in "tT" && b in "rR" && c in "uU" && d in "eE" :: [a, b, c, d]
  }

  /** `parseBool` applied to an environment value: a string is tested against
      the regex; `undefined` (not a string) is handed back unchanged. */
  function ParseBool(v: Option<string>): (r: Option<bool>)
    ensures v.None? <==> r.None?
    ensures v.Some? ==> (r.value <==> v.value in TrueSpellings())
  {
    match v
    case None => None
    case Some(s) =>
      MatchesTrueIffSpelling(s);
      Some(MatchesTrue(s))
  }

  lemma MatchesTrueIffSpelling(s: string)
    ensures MatchesTrue(s) <==> s in TrueSpellings()
  {
    if s in TrueSpellings() && s != "1" {
      var a, b, c, d :| a in "tT" && b in "rR" && c in "uU" && d in "eE" && s == [a, b, c, d];
      assert MatchesTrue(s);
    }
    if MatchesTrue(s) && s != "1" {
      assert FoldCase(s[0]) == 't' && FoldCase(s[1]) == 'r' && FoldCase(s[2]) == 'u' && FoldCase(s[3]) == 'e';
      assert s[0] in "tT" && s[1] in "rR" && s[2] in "uU" && s[3] in "eE";
      assert s == [s[0], s[1], s[2], s[3]];
    }
  }

  // ---------------------------------------------------------------------
  // parseInt(string, 10), reduced to reading a prefix of decimal digits
  // ---------------------------------------------------------------------

  predicate IsDigit(c: char)
  {
    '0' <= c <= '9'
  }

  predicate AllDigits(s: string)
  {
    forall k :: 0 <= k < |s| ==> IsDigit(s[k])
  }

  function DigitValue(c: char): (d: nat)
    requires IsDigit(c)
    ensures d < 10
  {
    c as int - '0' as int
  }

  function DigitChar(d: nat): (c: char)
    requires d < 10
    ensures IsDigit(c) && DigitValue(c) == d
  {
    ('0' as int + d) as char
  }

  /** The longest prefix of `s` made of decimal digits. */
  function DigitPrefix(s: string): (p: string)
    ensures p <= s && AllDigits(p)
    ensures |p| < |s| ==> !IsDigit(s[|p|])
  {
    if s == [] || !IsDigit(s[0]) then [] else [s[0]] + DigitPrefix(s[1..])
  }

  /** The number a string of decimal digits denotes. */
  function DigitsValue(ds: string): nat
    requires AllDigits(ds)
  {
    if ds == [] then 0 else DigitsValue(ds[..|ds| - 1]) * 10 + DigitValue(ds[|ds| - 1])
  }

  /** `parseInt(s, 10)`: the value of the leading digits, or `NaN` (None) when
      `s` does not start with a digit. */
  function ParseIntText(s: string): (r: Option<int>)
    ensures r.None? <==> (s == [] || !IsDigit(s[0]))
    ensures r.Some? ==> r.value >= 0
  {
    var p := DigitPrefix(s);
    if p == [] then None else Some(DigitsValue(p))
  }

  /** `parseInt(process.env.X, 10)`: an unset variable reads as the string
      "undefined", which holds no digits, so the result is `NaN`. */
  function ParseInt(v: Option<string>): (r: Option<int>)
    ensures v.None? ==> r.None?
    ensures v.Some? ==> (r.None? <==> (v.value == [] || !IsDigit(v.value[0])))
  {
    match v
    case None => None
    case Some(s) => ParseIntText(s)
  }

  /** The decimal rendering of a natural number, without leading zeros. */
  function Decimal(n: nat): (s: string)
    ensures |s| > 0 && AllDigits(s)
  {
    if n < 10 then [DigitChar(n)] else Decimal(n / 10) + [DigitChar(n % 10)]
  }

  lemma {:induction false} DigitPrefixOfDigits(ds: string, rest: string)
    requires AllDigits(ds)
    requires rest == [] || !IsDigit(rest[0])
    ensures DigitPrefix(ds + rest) == ds
  {
    if ds != [] {
      assert (ds + rest)[1..] == ds[1..] + rest;
      DigitPrefixOfDigits(ds[1..], rest);
    }
  }

  lemma {:induction false} DecimalValue(n: nat)
    ensures DigitsValue(Decimal(n)) == n
  {
    if n >= 10 {
      var s := Decimal(n);
      assert s[..|s| - 1] == Decimal(n / 10);
      DecimalValue(n / 10);
    }
  }

  /** Round trip: parsing the decimal rendering of `n`, followed by anything
      that does not start with a digit, gives back `n`. */
  lemma ParseIntDecimal(n: nat, rest: string)
    requires rest == [] || !IsDigit(rest[0])
    ensures ParseIntText(Decimal(n) + rest) == Some(n)
  {
    DigitPrefixOfDigits(Decimal(n), rest);
    DecimalValue(n);
  }

  // ---------------------------------------------------------------------
  // The `parse(env) || current` overrides
  // ---------------------------------------------------------------------

  /** `process.env.X || current` for a string field. */
  function OverrideString(v: Option<string>, current: string): (r: string)
    ensures r != current ==> v == Some(r) && r != ""
    ensures (v.Some? && v.value != "") ==> r == v.value
  {
    if v.Some? && v.value != "" then v.value else current
  }

  /** `parseInt(process.env.X, 10) || current` for a number field. */
  function OverrideInt(v: Option<string>, current: int): (r: int)
    ensures r != current ==> ParseInt(v) == Some(r) && r != 0
    ensures (ParseInt(v).Some? && ParseInt(v).value != 0) ==> r == ParseInt(v).value
  {
    var p := ParseInt(v);
    if p.Some? && p.value != 0 then p.value else current
  }

  /** `parseBool(process.env.X) || current` for a flag. */
  function OverrideBool(v: Option<string>, current: bool): (r: bool)
    ensures r <==> current || (v.Some? && v.value in TrueSpellings())
  {
    var p := ParseBool(v);
    if p.Some? && p.value then true else current
  }

  /** Lines 40-49 of app.js applied to `cfg`, all nine fields at once. */
  function Merged(cfg: Config, env: Env): (m: Config)
    ensures m.app.message == cfg.app.message || (Lookup(env, "APP_MESSAGE") == Some(m.app.message) && m.app.message != "")
    ensures m.slack.token == cfg.slack.token || (Lookup(env, "SLACK_TOKEN") == Some(m.slack.token) && m.slack.token != "")
    ensures m.app.reminder == cfg.app.reminder ||
      (ParseInt(Lookup(env, "APP_REMINDER")) == Some(m.app.reminder) && m.app.reminder != 0)
    ensures m.app.respond.dm <==>
      (cfg.app.respond.dm || (Lookup(env, "APP_RESPOND_DM").Some? && Lookup(env, "APP_RESPOND_DM").value in TrueSpellings()))
  {
    Config(
      AppSection(
        OverrideString(Lookup(env, "APP_MESSAGE"), cfg.app.message),
        OverrideInt(Lookup(env, "APP_REMINDER"), cfg.app.reminder),
        Respond(
          OverrideBool(Lookup(env, "APP_RESPOND_DM"), cfg.app.respond.dm),
          OverrideBool(Lookup(env, "APP_RESPOND_CHANNEL"), cfg.app.respond.channel)),
        TimeboxConfig(
          OverrideInt(Lookup(env, "APP_TIMEBOX_START"), cfg.app.timebox.start),
          OverrideInt(Lookup(env, "APP_TIMEBOX_END"), cfg.app.timebox.end))),
      SlackSection(
        OverrideString(Lookup(env, "SLACK_TOKEN"), cfg.slack.token),
        OverrideBool(Lookup(env, "SLACK_AUTO_RECONNECT"), cfg.slack.autoReconnect),
        OverrideBool(Lookup(env, "SLACK_AUTO_MARK"), cfg.slack.autoMark)))
  }

  // ---------------------------------------------------------------------
  // What the overrides can and cannot do
  // ---------------------------------------------------------------------

  /** A numeric override takes effect for every non-zero decimal number. */
  lemma NumberOverrides(n: nat, current: int)
    requires n != 0
    ensures OverrideInt(Some(Decimal(n)), current) == n
  {
    ParseIntDecimal(n, []);
    assert Decimal(n) + [] == Decimal(n);
  }

  /** An unset variable, "", "0" (any run of zeros), or text that does not
      start with a digit leaves a number field as configured: a number can
      never be overridden to 0. */
  lemma {:induction false} FalsyNumbersKeep(s: string, current: int)
    requires s == [] || !IsDigit(s[0]) || forall k :: 0 <= k < |s| ==> s[k] == '0'
    ensures OverrideInt(None, current) == current
    ensures OverrideInt(Some(s), current) == current
  {
    if s != [] && IsDigit(s[0]) {
      ZerosValue(DigitPrefix(s));
    }
  }

  lemma {:induction false} ZerosValue(ds: string)
    requires forall k :: 0 <= k < |ds| ==> ds[k] == '0'
    ensures AllDigits(ds) && DigitsValue(ds) == 0
  {
    if ds != [] {
      ZerosValue(ds[..|ds| - 1]);
    }
  }

  /** A flag override can switch a flag on but never off: "false", "0", "no"
      and an unset variable all keep the configured value. */
  lemma FlagsOnlySwitchOn(v: Option<string>, current: bool)
    ensures current ==> OverrideBool(v, current)
    ensures OverrideBool(Some("false"), current) == current
    ensures OverrideBool(Some("0"), current) == current
    ensures OverrideBool(None, current) == current
  {
  }

  /** With no environment variables set the configuration is unchanged. */
  lemma EmptyEnvKeepsConfig(cfg: Config)
    ensures Merged(cfg, map[]) == cfg
  {
  }

  /** Field by field: each merged value is either the configured one or the
      truthy value parsed from its own variable; configured flags stay on. */
  lemma MergedFields(cfg: Config, env: Env)
    ensures var m := Merged(cfg, env);
      (m.app.timebox.start == cfg.app.timebox.start ||
         (ParseInt(Lookup(env, "APP_TIMEBOX_START")) == Some(m.app.timebox.start) && m.app.timebox.start != 0)) &&
      (m.app.timebox.end == cfg.app.timebox.end ||
         (ParseInt(Lookup(env, "APP_TIMEBOX_END")) == Some(m.app.timebox.end) && m.app.timebox.end != 0)) &&
      (cfg.app.respond.dm ==> m.app.respond.dm) &&
      (cfg.app.respond.channel ==> m.app.respond.channel) &&
      (cfg.slack.autoReconnect ==> m.slack.autoReconnect) &&
      (cfg.slack.autoMark ==> m.slack.autoMark)
  {
  }
}
