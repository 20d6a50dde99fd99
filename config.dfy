/** The node's optional parameters and the defaults the code substitutes for
    them with JavaScript `||`. Durations are given in seconds and used in
    milliseconds. */
module Config {
  import opened Results
  import opened JsValues

  /** The scrape operation's "Additional Options" collection; an option the
      user did not add is `None`. */
  datatype ScrapeOptions = ScrapeOptions(
    maxWaitTime: Option<int>,
    pollInterval: Option<int>,
    country: Option<string>,
    forceFresh: Option<bool>)

  /** The agentic search operation's "Additional Options" collection. */
  datatype AgenticOptions = AgenticOptions(maxWaitTime: Option<int>, pollInterval: Option<int>)

  /** `value || fallback` for an option of a primitive type whose one falsy
      value is `falsy` (`0`, `''` or `false`): an absent or falsy option
      yields the fallback. */
  function OrDefault<T(==)>(o: Option<T>, falsy: T, fallback: T): (r: T)
    ensures o.Some? && o.value != falsy ==> r == o.value
    ensures o.None? || o.value == falsy ==> r == fallback
  {
    if o.Some? && o.value != falsy then o.value else fallback
  }

  /** The option as the JavaScript value the node reads: an option the user
      did not add reads as `undefined`. */
  function OptionValue<T>(o: Option<T>, lift: T -> Value): Value {
    if o.Some? then lift(o.value) else Undefined
  }

  /** For a number option, `OrDefault` is JavaScript's `option || fallback`. */
  lemma OrDefaultNumber(o: Option<int>, fallback: int)
    ensures Num(OrDefault(o, 0, fallback)) == OrChain([OptionValue(o, n => Num(n)), Num(fallback)])
  {
  }

  /** For a text option, `OrDefault` is JavaScript's `option || fallback`. */
  lemma OrDefaultText(o: Option<string>, fallback: string)
    ensures Str(OrDefault(o, "", fallback)) == OrChain([OptionValue(o, t => Str(t)), Str(fallback)])
  {
  }

  /** For a flag, `OrDefault` is JavaScript's `option || fallback`. */
  lemma OrDefaultFlag(o: Option<bool>, fallback: bool)
    ensures Bool(OrDefault(o, false, fallback)) == OrChain([OptionValue(o, b => Bool(b)), Bool(fallback)])
  {
  }

  /** The budget of a poll loop, in milliseconds. */
  datatype PollConfig = PollConfig(maxWaitMs: int, intervalMs: int)

  datatype ScrapeSettings = ScrapeSettings(poll: PollConfig, country: string, forceFresh: bool)

  /** Seconds to milliseconds. */
  function Millis(seconds: int): int {
    seconds * 1000
  }

  /** The scrape options after defaulting: wait 300 s, poll every 3 s,
      country `us`, no forced refresh. */
  function ScrapeSettingsOf(o: ScrapeOptions): (c: ScrapeSettings)
    ensures (o.maxWaitTime == None || o.maxWaitTime == Some(0)) ==> c.poll.maxWaitMs == 300_000
    ensures forall n :: o.maxWaitTime == Some(n) && n != 0 ==> c.poll.maxWaitMs == n * 1000
    ensures (o.pollInterval == None || o.pollInterval == Some(0)) ==> c.poll.intervalMs == 3_000
    ensures forall n :: o.pollInterval == Some(n) && n != 0 ==> c.poll.intervalMs == n * 1000
    ensures (o.country == None || o.country == Some("")) ==> c.country == "us"
    ensures forall s :: o.country == Some(s) && s != "" ==> c.country == s
    ensures c.forceFresh <==> o.forceFresh == Some(true)
  {
    ScrapeSettings(
      PollConfig(Millis(OrDefault(o.maxWaitTime, 0, 300)), Millis(OrDefault(o.pollInterval, 0, 3))),
      OrDefault(o.country, "", "us"),
      OrDefault(o.forceFresh, false, false))
  }

  /** The agentic search options after defaulting: wait 600 s, poll every 5 s. */
  function AgenticPollOf(o: AgenticOptions): (c: PollConfig)
    ensures (o.maxWaitTime == None || o.maxWaitTime == Some(0)) ==> c.maxWaitMs == 600_000
    ensures forall n :: o.maxWaitTime == Some(n) && n != 0 ==> c.maxWaitMs == n * 1000
    ensures (o.pollInterval == None || o.pollInterval == Some(0)) ==> c.intervalMs == 5_000
    ensures forall n :: o.pollInterval == Some(n) && n != 0 ==> c.intervalMs == n * 1000
  {
    PollConfig(Millis(OrDefault(o.maxWaitTime, 0, 600)), Millis(OrDefault(o.pollInterval, 0, 5)))
  }

  /** The search result limit: the parameter's own default is 5, and a
      falsy limit also falls back to 5, so the limit sent is never 0. */
  function SearchLimitOf(limit: Option<int>): (r: int)
    ensures r != 0
    ensures limit == None || limit == Some(0) ==> r == 5
    ensures forall n :: limit == Some(n) && n != 0 ==> r == n
  {
    var parameter := if limit.Some? then limit.value else 5;
    OrDefault(Some(parameter), 0, 5)
  }

  /** The `useBrowser` flag: the parameter's default is `true` and no `||`
      is applied, so an explicit `false` is kept. */
  function UseBrowserOf(useBrowser: Option<bool>): (r: bool)
    ensures !r <==> useBrowser == Some(false)
  {
    match useBrowser
    case None => true
    case Some(b) => b
  }

  /** The maximum wait is a whole number of seconds, so the seconds the
      timeout messages report (`maxWaitTime / 1000`) are exactly the
      effective option value, negative values included. */
  lemma MillisRoundTrip(seconds: int)
    ensures Millis(seconds) % 1000 == 0
    ensures Millis(seconds) / 1000 == seconds
  {
  }
}
