/** One run of the bot: load and initialise the state object, fetch both
    prices, decide, notify, and record the alert only once it was delivered. */
module Tick {
  import opened Wrappers
  import opened Addresses
  import opened Pricing
  import opened Decision

  /** Free-form data kept under `meta`; nothing in a run reads or writes it. */
  type Meta = map<string, string>

  /** The state file as parsed: either top-level field may be missing. */
  datatype RawState = RawState(pairs: Option<map<string, PairRecord>>, meta: Option<Meta>)

  /** The state object once initialised. */
  datatype Snapshot = Snapshot(pairs: map<string, PairRecord>, meta: Meta)

  /** The deployment's configuration: the pool's address and both tokens. */
  datatype Config = Config(pairAddress: string, tokens: Tokens)

  function KeyOf(config: Config): string {
    StateKey(config.pairAddress)
  }

  /** What the outside world answered during one run: the pool and aggregator
      replies (the pool reply is `None` when the contract call failed), the
      clock when the decision is taken and when the send returned, whether
      `tgSend` resolved (a message that reached the chat while the request
      still failed, a timeout say, counts as not delivered), and what writing
      the state file did. */
  datatype TickInput = TickInput(
    pool: Option<PoolReading>,
    odos: OdosReply,
    decideAt: int,
    sentAt: int,
    delivered: bool,
    write: WriteResult)

  /** The effect of `writeState`. It truncates the file before writing, so a
      write that fails part-way can leave an empty or cut-off file, which the
      next `readState` cannot parse. */
  datatype WriteResult = Written | FailedIntact | FailedTruncated

  datatype TickOutcome =
    | FetchFailed(error: PriceError)
    | Suppressed(reason: Reason, profitPct: real)
    | NotifyFailed(reason: Reason, profitPct: real)
    | PersistFailed(reason: Reason, profitPct: real)
    | Sent(reason: Reason, profitPct: real)
  {
    /** `tgSend` resolved. */
    predicate Delivered() {
      PersistFailed? || Sent?
    }
  }

  datatype StepResult = StepResult(outcome: TickOutcome, state: Snapshot)

  /** Reading the state file: an unreadable file is `{pairs: {}, meta: {}}`,
      missing top-level fields become empty, and the pair's record is created
      empty when absent. Everything already present is kept. */
  function Initialise(file: Option<RawState>, key: string): (s: Snapshot)
    ensures key in s.pairs
    ensures file.Some? && file.value.meta.Some? ==> s.meta == file.value.meta.value
    ensures file.None? || file.value.meta.None? ==> s.meta == map[]
    ensures file.Some? && file.value.pairs.Some? ==>
              s.pairs.Keys == file.value.pairs.value.Keys + {key}
              && forall k :: k in file.value.pairs.value ==> s.pairs[k] == file.value.pairs.value[k]
    ensures file.Some? && file.value.pairs.Some? && key !in file.value.pairs.value ==> s.pairs[key] == EMPTY_RECORD
    ensures file.None? || file.value.pairs.None? ==> s.pairs == map[key := EMPTY_RECORD]
  {
    var raw := file.GetOr(RawState(Some(map[]), Some(map[])));
    var pairs := raw.pairs.GetOr(map[]);
    var meta := raw.meta.GetOr(map[]);
    Snapshot(if key in pairs then pairs else pairs[key := EMPTY_RECORD], meta)
  }

  /** What `writeState` puts in the file. Reading it back and initialising it
      again gives the same state for any key the state already holds. */
  function Persist(s: Snapshot): (file: RawState)
    ensures forall key :: key in s.pairs ==> Initialise(Some(file), key) == s
  {
    RawState(Some(s.pairs), Some(s.meta))
  }

  /** The two prices of a run, the pool first; either failure ends the run. */
  function FetchPrices(tokens: Tokens, pool: Option<PoolReading>, odos: OdosReply): (r: Result<(real, real), PriceError>)
    ensures pool.None? ==> r == Err(PoolUnavailable)
    ensures r.Ok? ==> pool.Some? && r.value.0 > 0.0 && SushiPrice(tokens, pool.value) == Ok(r.value.0)
                      && OdosPrice(odos) == Ok(r.value.1)
    ensures pool.Some? && SushiPrice(tokens, pool.value).Ok? && OdosPrice(odos).Ok? ==> r.Ok?
  {
    match pool
    case None => Err(PoolUnavailable)
    case Some(reading) =>
      match SushiPrice(tokens, reading)
      case Err(e) => Err(e)
      case Ok(sushi) =>
        match OdosPrice(odos)
        case Err(e) => Err(e)
        case Ok(odosPrice) => Ok((sushi, odosPrice))
  }

  /** The record after a delivered alert: time, profit and both prices are
      overwritten, the object itself is kept. */
  function Recorded(rec: PairRecord, sentAt: int, profitPct: real, sushi: real, odos: real): (r: PairRecord)
    ensures LastSentAt(r) == sentAt && LastSentProfit(r) == profitPct
  {
    rec.(lastSentAt := Some(sentAt), lastSentProfit := Some(profitPct), lastSushi := Some(sushi), lastOdos := Some(odos))
  }

  /** One run on an initialised state: the outcome, and the state object as it
      stands at the end of the run. */
  function Step(s: Snapshot, config: Config, policy: Policy, input: TickInput): (r: StepResult)
    requires KeyOf(config) in s.pairs
    ensures r.state.meta == s.meta && r.state.pairs.Keys == s.pairs.Keys
  {
    var key := KeyOf(config);
    match FetchPrices(config.tokens, input.pool, input.odos)
    case Err(e) => StepResult(FetchFailed(e), s)
    case Ok(prices) =>
      var profit := ProfitPct(prices.1, prices.0);
      var verdict := ShouldSend(s.pairs[key], profit, input.decideAt, policy);
      if !verdict.ok then StepResult(Suppressed(verdict.reason, profit), s)
      else if !input.delivered then StepResult(NotifyFailed(verdict.reason, profit), s)
      else
        var s' := s.(pairs := s.pairs[key := Recorded(s.pairs[key], input.sentAt, profit, prices.0, prices.1)]);
        if input.write.Written? then StepResult(Sent(verdict.reason, profit), s') else StepResult(PersistFailed(verdict.reason, profit), s')
  }

  /** The outcome of a run follows from its inputs: a fetch failure ends it;
      otherwise the verdict of `ShouldSend` on the stored record decides
      between suppression and an attempt to send; that attempt counts as
      delivered exactly when `tgSend` resolved, and as sent and saved exactly
      when the write then succeeded. */
  lemma StepFollowsVerdict(s: Snapshot, config: Config, policy: Policy, input: TickInput)
    requires KeyOf(config) in s.pairs
    ensures var r := Step(s, config, policy, input);
      var prices := FetchPrices(config.tokens, input.pool, input.odos);
      && (prices.Err? <==> r.outcome.FetchFailed?)
      && (prices.Err? ==> r.outcome == FetchFailed(prices.error))
      && (prices.Ok? ==>
            var p := ProfitPct(prices.value.1, prices.value.0);
            var v := ShouldSend(s.pairs[KeyOf(config)], p, input.decideAt, policy);
            && r.outcome.reason == v.reason
            && r.outcome.profitPct == p
            && (r.outcome.Suppressed? <==> !v.ok)
            && (r.outcome.Delivered() <==> v.ok && input.delivered)
            && (r.outcome.Sent? <==> v.ok && input.delivered && input.write.Written?))
      && (r.outcome.Delivered() <==>
            && prices.Ok?
            && input.delivered
            && AlertDue(s.pairs[KeyOf(config)], ProfitPct(prices.value.1, prices.value.0), input.decideAt, policy))
  {
    var prices := FetchPrices(config.tokens, input.pool, input.odos);
    if prices.Ok? {
      ShouldSendIffAlertDue(s.pairs[KeyOf(config)], ProfitPct(prices.value.1, prices.value.0), input.decideAt, policy);
    }
  }

  /** A fetch error, a suppressing verdict or a `tgSend` that did not resolve
      leaves the state exactly as initialised. */
  lemma StateUnchangedUnlessDelivered(s: Snapshot, config: Config, policy: Policy, input: TickInput)
    requires KeyOf(config) in s.pairs
    ensures var prices := FetchPrices(config.tokens, input.pool, input.odos);
      || prices.Err?
      || !ShouldSend(s.pairs[KeyOf(config)], ProfitPct(prices.value.1, prices.value.0), input.decideAt, policy).ok
      || !input.delivered
      ==> Step(s, config, policy, input).state == s
  {
  }

  /** A delivered alert rewrites the pair's record with the send time, the
      profit and both prices, and touches no other pair and no `meta`. */
  lemma DeliveredAlertUpdatesOnlyThePair(s: Snapshot, config: Config, policy: Policy, input: TickInput)
    requires KeyOf(config) in s.pairs
    requires Step(s, config, policy, input).outcome.Delivered()
    ensures var r := Step(s, config, policy, input);
      var prices := FetchPrices(config.tokens, input.pool, input.odos);
      && prices.Ok?
      && r.outcome.profitPct == ProfitPct(prices.value.1, prices.value.0)
      && r.outcome.reason.Sends()
      && r.state.pairs[KeyOf(config)] == PairRecord(Some(input.sentAt), Some(r.outcome.profitPct),
                                                    Some(prices.value.0), Some(prices.value.1))
      && r.state.meta == s.meta
      && forall k :: k in s.pairs && k != KeyOf(config) ==> r.state.pairs[k] == s.pairs[k]
  {
  }

  /** A failed delivery leaves the state as it was, so running again with the
      same prices and clock reaches the same verdict. */
  lemma RetryAfterNotifyFailure(s: Snapshot, config: Config, policy: Policy, input: TickInput, retry: TickInput)
    requires KeyOf(config) in s.pairs
    requires Step(s, config, policy, input).outcome.NotifyFailed?
    requires retry.pool == input.pool && retry.odos == input.odos && retry.decideAt == input.decideAt
    ensures var first := Step(s, config, policy, input);
      var again := Step(first.state, config, policy, retry);
      && again.outcome.reason == first.outcome.reason
      && again.outcome.profitPct == first.outcome.profitPct
      && (again.outcome.NotifyFailed? || again.outcome.Delivered())
  {
  }

  /** The in-memory state object of a run. */
  class BotState {
    const config: Config
    var pairs: map<string, PairRecord>
    var meta: Meta

    ghost predicate Valid()
      reads this
    {
      KeyOf(config) in pairs
    }

    function View(): Snapshot
      reads this
    {
      Snapshot(pairs, meta)
    }

    /** `readState` followed by filling in `pairs`, `meta` and the pair's record. */
    constructor Load(config: Config, file: Option<RawState>)
      ensures Valid() && this.config == config
      ensures View() == Initialise(file, KeyOf(config))
    {
      this.config := config;
      var raw := if file.Some? then file.value else RawState(Some(map[]), Some(map[]));
      pairs := if raw.pairs.Some? then raw.pairs.value else map[];
      meta := if raw.meta.Some? then raw.meta.value else map[];
      new;
      var key := KeyOf(config);
      if key !in pairs {
        pairs := pairs[key := EMPTY_RECORD];
      }
    }

    /** Fetch, decide, notify; on delivery, overwrite the pair's record in place. */
    method Tick(policy: Policy, input: TickInput) returns (outcome: TickOutcome)
      requires Valid()
      modifies this
      ensures Valid() && meta == old(meta) && pairs.Keys == old(pairs.Keys)
      ensures !outcome.Delivered() ==> pairs == old(pairs)
      ensures outcome.Delivered() ==> forall k :: k in old(pairs) && k != KeyOf(config) ==> pairs[k] == old(pairs)[k]
      ensures StepResult(outcome, View()) == Step(old(View()), config, policy, input)
    {
      var key := KeyOf(config);
      var sushi: real, odos: real;
      match FetchPrices(config.tokens, input.pool, input.odos) {
        case Err(e) =>
          return FetchFailed(e);
        case Ok(prices) =>
          sushi, odos := prices.0, prices.1;
      }
      var profit := ProfitPct(odos, sushi);
      var verdict := ShouldSend(pairs[key], profit, input.decideAt, policy);
      if !verdict.ok {
        return Suppressed(verdict.reason, profit);
      }
      if !input.delivered {
        return NotifyFailed(verdict.reason, profit);
      }
      var entry := pairs[key];
      entry := entry.(lastSentAt := Some(input.sentAt));
      entry := entry.(lastSentProfit := Some(profit));
      entry := entry.(lastSushi := Some(sushi));
      entry := entry.(lastOdos := Some(odos));
      pairs := pairs[key := entry];
      if input.write.Written? {
        outcome := Sent(verdict.reason, profit);
      } else {
        outcome := PersistFailed(verdict.reason, profit);
      }
    }
  }

  /** The state file after one run: rewritten by a run that sent and saved,
      unreadable after a delivered alert whose write failed part-way, and
      otherwise as it was. */
  function NextFile(config: Config, policy: Policy, file: Option<RawState>, input: TickInput): (f: Option<RawState>)
    ensures var r := Step(Initialise(file, KeyOf(config)), config, policy, input);
      && (!r.outcome.Delivered() ==> f == file)
      && (r.outcome.Sent? ==> Initialise(f, KeyOf(config)) == r.state)
      && (r.outcome.PersistFailed? && input.write.FailedIntact? ==> f == file)
      && (r.outcome.PersistFailed? && input.write.FailedTruncated? ==> f.None?)
  {
    var r := Step(Initialise(file, KeyOf(config)), config, policy, input);
    if r.outcome.Sent? then Some(Persist(r.state))
    else if r.outcome.PersistFailed? && input.write.FailedTruncated? then None
    else file
  }

  /** A delivered alert whose write failed part-way resets the pair's record:
      the next run reads it as never alerted on. */
  lemma TruncatedWriteResetsRecord(config: Config, policy: Policy, file: Option<RawState>, input: TickInput)
    requires Step(Initialise(file, KeyOf(config)), config, policy, input).outcome.Delivered()
    requires input.write.FailedTruncated?
    ensures Initialise(NextFile(config, policy, file, input), KeyOf(config)).pairs[KeyOf(config)] == EMPTY_RECORD
  {
  }

  /** A whole run, from the state file before it to the state file after it. */
  method RunOnce(config: Config, policy: Policy, file: Option<RawState>, input: TickInput)
    returns (outcome: TickOutcome, fileAfter: Option<RawState>)
    ensures outcome == Step(Initialise(file, KeyOf(config)), config, policy, input).outcome
    ensures !outcome.Delivered() ==> fileAfter == file
    ensures fileAfter == NextFile(config, policy, file, input)
  {
    var state := new BotState.Load(config, file);
    outcome := state.Tick(policy, input);
    if outcome.Sent? {
      fileAfter := Some(Persist(state.View()));
    } else if outcome.PersistFailed? && input.write.FailedTruncated? {
      fileAfter := None;
    } else {
      fileAfter := file;
    }
  }
}
