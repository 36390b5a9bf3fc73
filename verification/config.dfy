/** The phase gate of the configuration (backend/core/config.py): the boolean
    flag parsing and `validate`. Reading the environment is not modelled; a
    configuration is the record of values already read. */
module Config {
  import opened Payloads

  datatype Config = Config(environment: string, currentPhase: int, allowRealExchange: bool, allowRealTrading: bool)

  /** ASCII case folding of one character. */
  function LowerChar(c: char): char
  {
    if 'A' <= c <= 'Z' then (c as int + 32) as char else c
  }

  /** `str.lower()` restricted to ASCII letters. */
  function Lower(s: string): (r: string)
    ensures |r| == |s|
    ensures forall i :: 0 <= i < |s| ==> r[i] == LowerChar(s[i])
  {
    seq(|s|, i requires 0 <= i < |s| => LowerChar(s[i]))
  }

  /** A flag is set exactly when its text, lower-cased, is "true": that is, it spells
      t-r-u-e with each letter in either case. */
  function ParseFlag(s: string): (b: bool)
    ensures b <==> |s| == 4 && forall i :: 0 <= i < 4 ==> (s[i] == "true"[i] || s[i] == "TRUE"[i])
  {
    var lowered := Lower(s);
    assert lowered == "true" <==> |s| == 4 && forall i :: 0 <= i < 4 ==> lowered[i] == "true"[i];
    lowered == "true"
  }

  /** `os.getenv(name, default).lower() == "true"`: an unset variable reads as its default text. */
  function FlagFromEnvironment(value: Option<string>, default: string): (b: bool)
    ensures value.None? ==> b == ParseFlag(default)
    ensures value.Some? ==> b == ParseFlag(value.value)
  {
    match value
    case Some(text) => ParseFlag(text)
    case None => ParseFlag(default)
  }

  /** `validate`: in phase 2 or earlier, permission for a real exchange or for real trading
      makes the configuration invalid; after phase 2 every configuration is valid. */
  function Validate(c: Config): (ok: bool)
    ensures c.currentPhase > 2 ==> ok
    ensures c.currentPhase <= 2 ==> (ok <==> !c.allowRealExchange && !c.allowRealTrading)
  {
    if c.currentPhase <= 2 then
      if c.allowRealExchange then false
      else if c.allowRealTrading then false
      else true
    else true
  }

  /** The defaults of the source: development environment, phase 2, both permissions off.
      That configuration passes the gate, and so does any flag text other than "true". */
  lemma DefaultsAreValid(exchange: Option<string>, trading: Option<string>)
    requires exchange.None? || !ParseFlag(exchange.value)
    requires trading.None? || !ParseFlag(trading.value)
    ensures Validate(Config("development", 2, FlagFromEnvironment(exchange, "false"), FlagFromEnvironment(trading, "false")))
  {
  }
}
