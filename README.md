# LINK/USDC arbitrage alert bot — verified model of its decision core

The bot compares the LINK price in USDC on a SushiSwap V2 pool (from the pool's
reserves) with an Odos aggregator quote for one LINK. It computes a signed profit
percentage and decides, from a small per-pair record kept in `state.json`, whether
to send a Telegram alert. The record (last alert time and profit, last prices) is
overwritten only after the alert was delivered.

This project models that core in Dafny:

- `Addresses` (`addresses.dfy`): lower-casing of addresses and the state key
  `polygon:<pair address>:LINK/USDC`.
- `Pricing` (`pricing.dfy`): reserves and quote amounts scaled by their token
  decimals (USDC 6, LINK 18). The pool price accepts either token order and
  rejects any other token pair. The Odos price is the first output amount in
  whole USDC. The profit is `(odos - sushi) / sushi * 100`, in one fixed
  direction and signed.
- `Decision` (`decision.dfy`): `shouldSend` as `ShouldSend`. It checks the
  minimum, then the big-jump bypass, then the cooldown, then the profit step.
  A missing time defaults to 0 and a missing profit to -999. The current time
  and the four policy values are parameters.
- `Tick` (`tick.dfy`): one run of `main`. The class `BotState` is the in-memory
  state object. `Load` reads and initialises it. `Tick` fetches, decides,
  notifies and, on delivery, overwrites the pair's record in place. The pure
  function `Step` specifies `Tick`, and `RunOnce` composes the two into a whole
  run from one state file to the next. The pool reply, the Odos reply, the two
  clock readings, Telegram delivery and the file write are inputs.
- `Schedule` (`schedule.dfy`): successive scheduled runs, each starting from the
  file the previous run left behind, and the anti-spam guarantee over the
  alerts they record. All runs share one configuration and one policy: the
  environment read at each process start (bot.js:22-32) is assumed not to
  change between runs.

Prices and percentages are exact `real`s. Timestamps are `int` seconds.

What the code does that a reader might not expect:

- The profit has one fixed direction: buy on the pool, sell through the
  aggregator (bot.js:176). It is negative when the aggregator is cheaper, and
  then never reaches a positive minimum (`Decision.LossNeverSends`).
- Nothing in `getSushiPriceLinkInUsdc` checks for an empty pool
  (bot.js:87-99). The model takes reserves to be positive `uint112` values.
- A pair with no record is read as last alerted at time 0 with profit -999
  (bot.js:134-135). Its first qualifying profit therefore goes out as a big
  jump when `minProfitPct + 999 >= bigJumpBypass`
  (`Decision.FirstSignalIsBigJump`). Otherwise it goes out as a big jump if the
  profit itself is at least the bypass above -999, and otherwise once `now` is
  past the cooldown and the profit is at least one step above -999
  (`Decision.FirstSignalSendsIff`, `Decision.FirstSignalAfterCooldown`).
- `main` reads the clock twice. The decision uses the first reading
  (bot.js:132) and the record stores the second (bot.js:199). So `lastSentAt`
  is the time the send returned.
- The `try` around the send also covers `writeState` (bot.js:195-210). A
  delivered alert whose write fails is not recorded. If the write failed
  before truncating the file, the file is unchanged and a later run can alert
  on the same opportunity again. `writeFileSync` truncates before writing, so a
  write that fails part-way can also leave an empty or cut-off file. The next
  `readState` then falls back to `{pairs: {}, meta: {}}` (bot.js:44-48), and
  the record is reset (`Tick.TruncatedWriteResetsRecord`). Both kinds of failure
  are inputs of a run. The guarantees over successive runs therefore speak of
  recorded alerts, measured against the record each run actually read.

## Model

| member | source | states |
|---|---|---|
| `Addresses.Lower` | bot.js:82-83 | same length, every character lower-cased, no upper-case letter left |
| `Addresses.LowerIdempotent` | bot.js:26-27 | lower-casing an already lower-cased address changes nothing |
| `Addresses.StateKey` | bot.js:35 | the key is `polygon:` + lower-cased pair address + `:LINK/USDC`, each part recoverable by position |
| `Addresses.StateKeySharedIffSameAddress` | bot.js:22-35 | two pair addresses share a state record exactly when they are equal up to case |
| `Pricing.Pow10` | bot.js:91-92 | the scale factor is at least 1, so scaling never divides by zero |
| `Pricing.Amount` | bot.js:91-98 | a raw amount scaled by its decimals is non-negative and multiplies back to the raw amount |
| `Pricing.AmountOfWholeTokens` | bot.js:91-98 | a whole number of tokens in smallest units scales back to exactly that number |
| `Pricing.UsdcPerLink` | bot.js:91-99 | the price is positive and times the LINK amount gives the USDC amount |
| `Pricing.SushiPrice` | bot.js:90-103 | a price exactly when the tokens are USDC/LINK in either order (after lower-casing); then positive, USDC per LINK with the reserves of their own tokens; otherwise a mismatch error naming both tokens |
| `Pricing.SushiPriceIgnoresTokenOrder` | bot.js:90-100 | swapping tokens and reserves together keeps success or failure and, on success, the same price, when USDC and LINK differ (a mismatch error names the tokens in pool order) |
| `Pricing.SushiPriceIgnoresCase` | bot.js:82-83 | the result does not depend on the capitalisation of the pool's token addresses |
| `Pricing.SushiPriceExample` | bot.js:90-99 | 3,000,000 USDC against 2,000 LINK gives 1,500 in both token orders |
| `Pricing.OneLinkIsOneToken` | bot.js:108 | the quoted input amount is exactly one LINK |
| `Pricing.OdosPrice` | bot.js:122-128 | failed request and missing output amount are errors; otherwise the first output amount in whole USDC, which is the price of the one LINK quoted |
| `Pricing.ProfitPct` | bot.js:176 | positive, zero, negative exactly when the Odos price is above, equal to, below the pool price; Odos price = pool price × (1 + profit/100) |
| `Pricing.ProfitPctInverse` | bot.js:176 | the profit of the price rebuilt from a profit is that profit |
| `Pricing.ProfitPctMonotonic` | bot.js:176 | a higher Odos price never gives a lower profit |
| `Decision.LastSentAt` | bot.js:134 | a missing last-alert time reads as 0; a stored one is used as is |
| `Decision.LastSentProfit` | bot.js:135 | a missing last-alert profit reads as -999; a stored one, including 0, is used as is |
| `Decision.ShouldSend` | bot.js:131-150 | `ok` exactly for `big_jump`/`growth`; `below_min` exactly when the profit is under the minimum |
| `Decision.ShouldSendIffAlertDue` | bot.js:137-149 | sends exactly when profit ≥ minimum and (growth ≥ bypass, or cooldown over and growth ≥ step) |
| `Decision.BelowMinimumNeverSends` | bot.js:137 | below the minimum the verdict is `below_min` for every record and time |
| `Decision.BigJumpBypassesCooldown` | bot.js:139-143 | at or above the minimum, growth ≥ bypass is `big_jump` even inside the cooldown |
| `Decision.CooldownThenStep` | bot.js:145-149 | without a big jump: `cooldown` inside the window, then `no_growth` below the step and `growth` at or above it |
| `Decision.FirstSignalIsBigJump` | bot.js:134-143 | with an empty record, profit ≥ minimum is `big_jump` when minimum + 999 ≥ bypass |
| `Decision.FirstSignalAfterCooldown` | bot.js:134-149 | with an empty record, profit ≥ minimum is sent once `now` ≥ cooldown and profit + 999 ≥ step |
| `Decision.FirstSignalSendsIff` | bot.js:134-149 | a pair never alerted on is sent to exactly when the profit reaches the minimum and either lies the bypass above -999 (then as `big_jump`, at any time) or `now` is past the cooldown and it lies the step above -999 |
| `Decision.DefaultPolicySendsFirstSignal` | bot.js:29-32 | with the default policy the first qualifying profit is sent as `big_jump` |
| `Decision.SendingIsMonotoneInProfit` | bot.js:137-149 | a higher profit never turns a send into a suppression |
| `Decision.SendingIsMonotoneInTime` | bot.js:145-149 | a later time never turns a send into a suppression |
| `Decision.BypassBelowStepAfterCooldown` | bot.js:143-147 | with bypass ≤ step and the cooldown over, sending depends only on growth ≥ bypass |
| `Decision.LossNeverSends` | bot.js:137 | with a positive minimum, a zero or negative profit is `below_min` |
| `Decision.LabelsDistinct` | bot.js:137-149 | the five reason strings are pairwise distinct |
| `Tick.Initialise` | bot.js:154-157 | unreadable file gives empty `pairs`/`meta`; present entries kept; the pair's record is the stored one if present and the empty record otherwise |
| `Tick.Persist` | bot.js:43-53 | the written file, read back and initialised for any key the state holds, gives the same state |
| `Tick.FetchPrices` | bot.js:165-174 | a pool failure is an error; success means both component prices succeeded and the pool price is positive |
| `Tick.Recorded` | bot.js:199-203 | the record's last time and last profit are the send time and the profit |
| `Tick.Step` | bot.js:165-210 | `meta` and the set of pairs never change |
| `Tick.StepFollowsVerdict` | bot.js:165-210 | the run fails to fetch exactly when the prices fail, with that error; otherwise its reason and profit are `ShouldSend`'s and `ProfitPct`'s, it is suppressed exactly when the verdict says no, reaches `tgSend` resolving exactly when the verdict says yes and delivery succeeds (equivalently, when prices succeed, delivery succeeds and `AlertDue` holds), and is sent and saved exactly when, in addition, the write succeeds |
| `Tick.StateUnchangedUnlessDelivered` | bot.js:170-210 | when the prices fail, `ShouldSend` says no for the fetched prices, or `tgSend` rejects, the state is exactly as initialised |
| `Tick.DeliveredAlertUpdatesOnlyThePair` | bot.js:195-203 | on delivery the pair's record is exactly (send time, profit, pool price, Odos price); other pairs and `meta` are untouched; the reason is a sending one |
| `Tick.RetryAfterNotifyFailure` | bot.js:195-210 | after a failed delivery, the same prices and decision time give the same verdict and profit again |
| `Tick.BotState.Load` | bot.js:154-157 | the state object equals `Initialise` of the file and holds the pair's record |
| `Tick.BotState.Tick` | bot.js:165-210 | `meta` unchanged; pairs unchanged unless delivered; other pairs never change; outcome and new state as `Step` |
| `Tick.TruncatedWriteResetsRecord` | bot.js:195-210 | a delivered alert whose write fails part-way leaves a file from which the pair's record reads as empty |
| `Tick.NextFile` | bot.js:195-210 | the file left by a run is unchanged unless the alert was delivered; after a saved alert, reading it back gives the new state; after a write that failed before truncating, it is unchanged; after a write that failed part-way, it is unreadable, so every pair and `meta` are lost (`Tick.TruncatedWriteResetsRecord`, `Schedule.UnsentRunKeepsFile`) |
| `Tick.RunOnce` | bot.js:152-211 | the outcome is `Step` on the initialised file; the file is unchanged unless the alert was delivered, and then it is the saved state, an unreadable file or unchanged, by the write's result |
| `Schedule.SentRunIsSpaced` | bot.js:137-205 | a run that sends and saves alerts at ≥ minimum, spaced from the record it read by the bypass or by cooldown-and-step, and leaves a file holding that alert |
| `Schedule.UnsentRunKeepsFile` | bot.js:170-210 | a run that does not send and save leaves the file as it was, unless it delivered its alert and its write then failed part-way |
| `Schedule.TruncatedRunsDeliveredThenFailed` | bot.js:195-210 | the runs `Replay` lists as having truncated the file are exactly the runs that, started from the file the earlier runs left, delivered an alert and then failed part-way through the write |
| `Schedule.RunKeepsInvariant` | bot.js:152-211 | one more run keeps the four properties of the recorded alerts listed for `RecordedAlertsRespectPolicy` |
| `Schedule.RecordedAlertsRespectPolicy` | bot.js:131-203 | over any sequence of runs every recorded alert is ≥ minimum and spaced, by the bypass or by cooldown-and-step, from the record its run read; that record is the previous alert's (or the initial file's), and the file holds the last alert, unless a run in between delivered an alert and then failed part-way through the write |
| `Schedule.CooldownHoldsBetweenAlerts` | bot.js:139-146 | two consecutive recorded alerts inside the cooldown, with no run between them that delivered and then failed part-way through its write, differ in profit by at least the bypass |
| `Schedule.DefaultPolicyScenario` | bot.js:29-149 | default policy: 1.2% at t=0 is `big_jump`; then 1.3% at t=300 is `cooldown` and 2.5% at t=300 is `big_jump` |

## Left out

- Reading and writing `state.json` and JSON parsing (bot.js:43-53): the file is an `Option<RawState>` input, with `None` for an unreadable or unparsable file. Stored fields of the wrong JSON type and extra fields in a pair's record are not modelled. A file that parses to something other than an object is not modelled either: `main` then throws outside any `try`, at bot.js:155 for `null` and at bot.js:157 for a number, string or boolean (the assignments at bot.js:155-156 are silently ignored outside strict mode), so every run exits before fetching until the file is repaired. A file holding a top-level array is not modelled: it works in memory, but `JSON.stringify` drops its `pairs` and `meta` properties, so no alert is ever persisted and every qualifying run is treated as a first signal.
- `Tick.Persist`: writes back only `pairs` and `meta`. `writeState` writes every top-level field of the parsed file, and top-level fields other than these two are not modelled.
- The Telegram HTTP call (bot.js:55-62), the Odos HTTP request (bot.js:106-125) and the contract calls (bot.js:79-83) are foreign calls. Their results are inputs to a run.
- Environment parsing and startup checks (bot.js:10-32) are not modelled; the policy and the addresses are parameters.
- The manual-run "started" message (bot.js:159-163) is not modelled. If it fails, the run ends before fetching and the state is unchanged.
- A message that reaches the chat while `tgSend` still rejects (the 15-second timeout at bot.js:61 firing after delivery, say) counts as not delivered: the alert is not recorded and a later run may send it again. The model cannot tell this case apart from a failed delivery.
- A `writeFileSync` that writes the whole file and then fails (on close, say) is not modelled: `WriteResult` has no such case. The file would hold the new state while the run counts as `PersistFailed`, so `Schedule.Replay` would miss an alert the file records.
- Process exit handling (bot.js:213-217) and logging are not modelled.
- IEEE-754 behaviour is not modelled: precision loss in `Number(r0.toString())`, Infinity or NaN from a zero reserve, NaN from a non-numeric quote, and `toFixed` in `fmt` (bot.js:64-67). Reserves are positive by type.
- `Pricing.OdosPrice`: output amounts are given as naturals. String-to-number conversion, and an empty-string amount counting as missing, are not modelled.
- `Addresses.Lower`: lower-cases ASCII letters only, because addresses are ASCII hex. JavaScript `toLowerCase` covers all of Unicode.
- `Decision.LastSentAt`: a missing time becomes 0. JavaScript's `||` also turns other falsy values into 0; for integers the only such value is 0 itself.
- The link builders and message text (bot.js:69-76, 184-193) are cosmetic and not modelled.
- Overlapping runs writing the same file concurrently are not modelled; runs are sequential in `Schedule.Replay`.
