/** Successive scheduled runs, each starting from the state file the previous
    one left behind, and what they guarantee about the alerts recorded. */
module Schedule {
  import opened Wrappers
  import opened Pricing
  import opened Decision
  import opened Tick

  /** An alert that was delivered and saved by run number `run`. `basisAt` and
      `basisProfit` are the last time and profit that run read from the state
      file, the values its decision was measured against. */
  datatype Alert = Alert(run: nat, decidedAt: int, sentAt: int, profitPct: real, basisAt: int, basisProfit: real)

  /** What a sequence of runs left behind: the state file, the alerts recorded
      in order, and the numbers of the runs that delivered an alert and then
      failed part-way through writing the state file. */
  datatype History = History(file: Option<RawState>, alerts: seq<Alert>, truncated: set<nat>)

  /** The record the state file holds for the pair, once read and initialised. */
  function RecordIn(config: Config, file: Option<RawState>): PairRecord {
    Initialise(file, KeyOf(config)).pairs[KeyOf(config)]
  }

  /** The alert recorded by run number `run` when it sent and saved. */
  function AlertOf(config: Config, policy: Policy, file: Option<RawState>, input: TickInput, run: nat): Alert
    requires Step(Initialise(file, KeyOf(config)), config, policy, input).outcome.Sent?
  {
    var r := Step(Initialise(file, KeyOf(config)), config, policy, input);
    var rec := RecordIn(config, file);
    Alert(run, input.decideAt, input.sentAt, r.outcome.profitPct, LastSentAt(rec), LastSentProfit(rec))
  }

  /** The run delivered its alert and then failed part-way through writing the
      state file. */
  predicate Truncates(config: Config, policy: Policy, file: Option<RawState>, input: TickInput) {
    Step(Initialise(file, KeyOf(config)), config, policy, input).outcome.PersistFailed? && input.write.FailedTruncated?
  }

  /** Runs the inputs in order from the state file `file0`. Every run uses the
      same `config` and `policy`: the model assumes the environment the
      process reads at start-up does not change between scheduled runs. */
  function Replay(config: Config, policy: Policy, file0: Option<RawState>, inputs: seq<TickInput>): History
    decreases |inputs|
  {
    if inputs == [] then History(file0, [], {})
    else
      var n := |inputs| - 1;
      var h := Replay(config, policy, file0, inputs[..n]);
      var input := inputs[n];
      var r := Step(Initialise(h.file, KeyOf(config)), config, policy, input);
      var file := NextFile(config, policy, h.file, input);
      var truncated := if Truncates(config, policy, h.file, input) then h.truncated + {n} else h.truncated;
      if r.outcome.Sent? then History(file, h.alerts + [AlertOf(config, policy, h.file, input, n)], truncated)
      else History(file, h.alerts, truncated)
  }

  /** Run number `j` of `inputs`, started from the file the runs before it left
      behind, delivered its alert and then failed part-way through writing the
      state file. */
  predicate TruncatingRun(config: Config, policy: Policy, file0: Option<RawState>, inputs: seq<TickInput>, j: int) {
    0 <= j < |inputs| && Truncates(config, policy, Replay(config, policy, file0, inputs[..j]).file, inputs[j])
  }

  /** The runs `Replay` lists as truncating are exactly the runs that delivered
      an alert and then failed part-way through the write. */
  lemma {:induction false} TruncatedRunsDeliveredThenFailed(config: Config, policy: Policy, file0: Option<RawState>,
                                                           inputs: seq<TickInput>, j: nat)
    ensures j in Replay(config, policy, file0, inputs).truncated <==> TruncatingRun(config, policy, file0, inputs, j)
  {
    if inputs != [] {
      var n := |inputs| - 1;
      TruncatedRunsDeliveredThenFailed(config, policy, file0, inputs[..n], j);
      if j < n {
        assert inputs[..n][..j] == inputs[..j];
        assert inputs[..n][j] == inputs[j];
      } else if j == n {
        assert inputs[..j] == inputs[..n];
      }
    }
  }

  /** The alert `a` was allowed after a previous one sent at `prevAt` with
      profit `prevProfit`: it grew by the bypass, or it came after the cooldown
      and grew by the step. */
  predicate Spaced(prevAt: int, prevProfit: real, a: Alert, policy: Policy) {
    || a.profitPct - prevProfit >= policy.bigJumpBypass
    || ((a.decidedAt - prevAt) as real >= policy.cooldownSec && a.profitPct - prevProfit >= policy.profitStepPct)
  }

  /** The file holds `at` and `profit` as the pair's last alert. */
  predicate Holds(config: Config, file: Option<RawState>, at: int, profit: real) {
    LastSentAt(RecordIn(config, file)) == at && LastSentProfit(RecordIn(config, file)) == profit
  }

  /** Some run numbered from `lo` up to, not including, `hi` is in `truncated`. */
  predicate TruncationBetween(truncated: set<nat>, lo: int, hi: int) {
    exists j :: j in truncated && lo <= j < hi
  }

  /** Each alert was recorded by one of the runs, reached the minimum, and is
      spaced from the record its run read. */
  predicate EachSpaced(alerts: seq<Alert>, runs: nat, policy: Policy) {
    forall i :: 0 <= i < |alerts| ==>
      && alerts[i].run < runs
      && alerts[i].profitPct >= policy.minProfitPct
      && Spaced(alerts[i].basisAt, alerts[i].basisProfit, alerts[i], policy)
  }

  /** Each alert after the first was measured against the alert before it,
      unless a run in between truncated the file. */
  predicate Chained(alerts: seq<Alert>, truncated: set<nat>) {
    forall i :: 0 < i < |alerts| ==>
      && alerts[i - 1].run < alerts[i].run
      && (|| (alerts[i].basisAt, alerts[i].basisProfit) == (alerts[i - 1].sentAt, alerts[i - 1].profitPct)
          || TruncationBetween(truncated, alerts[i - 1].run + 1, alerts[i].run))
  }

  /** The first alert was measured against the record `first` of the initial
      file, unless an earlier run truncated the file. */
  predicate StartsFrom(alerts: seq<Alert>, first: PairRecord, truncated: set<nat>) {
    |alerts| > 0 ==>
      || (alerts[0].basisAt, alerts[0].basisProfit) == (LastSentAt(first), LastSentProfit(first))
      || TruncationBetween(truncated, 0, alerts[0].run)
  }

  /** The file is the initial one while nothing was recorded, and holds the last
      alert afterwards, unless a later run among the first `runs` truncated it. */
  predicate FileTracks(config: Config, h: History, file0: Option<RawState>, runs: nat) {
    && (h.alerts == [] ==> h.file == file0 || TruncationBetween(h.truncated, 0, runs))
    && (h.alerts != [] ==>
          var last := h.alerts[|h.alerts| - 1];
          Holds(config, h.file, last.sentAt, last.profitPct) || TruncationBetween(h.truncated, last.run + 1, runs))
  }

  /** A run that sent and saved: its alert reached the minimum, is spaced from
      the record it read, and the file it leaves holds it. */
  lemma SentRunIsSpaced(config: Config, policy: Policy, file: Option<RawState>, input: TickInput, run: nat)
    requires Step(Initialise(file, KeyOf(config)), config, policy, input).outcome.Sent?
    ensures var a := AlertOf(config, policy, file, input, run);
      && a.profitPct >= policy.minProfitPct
      && Spaced(a.basisAt, a.basisProfit, a, policy)
      && Holds(config, NextFile(config, policy, file, input), a.sentAt, a.profitPct)
  {
    var key := KeyOf(config);
    var s := Initialise(file, key);
    var r := Step(s, config, policy, input);
    DeliveredAlertUpdatesOnlyThePair(s, config, policy, input);
    ShouldSendIffAlertDue(s.pairs[key], r.outcome.profitPct, input.decideAt, policy);
  }

  /** A run that did not send and save leaves the file alone, unless it
      delivered and then failed part-way through its write. */
  lemma UnsentRunKeepsFile(config: Config, policy: Policy, file: Option<RawState>, input: TickInput)
    requires !Step(Initialise(file, KeyOf(config)), config, policy, input).outcome.Sent?
    ensures NextFile(config, policy, file, input) == file || Truncates(config, policy, file, input)
  {
  }

  /** The four properties survive a run that recorded alert `a`. */
  lemma SentKeepsInvariant(config: Config, policy: Policy, file0: Option<RawState>, runs: nat,
                           h: History, a: Alert, file': Option<RawState>)
    requires a.run == runs
    requires EachSpaced(h.alerts, runs, policy)
    requires Chained(h.alerts, h.truncated)
    requires StartsFrom(h.alerts, RecordIn(config, file0), h.truncated)
    requires FileTracks(config, h, file0, runs)
    requires a.profitPct >= policy.minProfitPct && Spaced(a.basisAt, a.basisProfit, a, policy)
    requires a.basisAt == LastSentAt(RecordIn(config, h.file)) && a.basisProfit == LastSentProfit(RecordIn(config, h.file))
    requires Holds(config, file', a.sentAt, a.profitPct)
    ensures var h' := History(file', h.alerts + [a], h.truncated);
      && EachSpaced(h'.alerts, runs + 1, policy)
      && Chained(h'.alerts, h'.truncated)
      && StartsFrom(h'.alerts, RecordIn(config, file0), h'.truncated)
      && FileTracks(config, h', file0, runs + 1)
  {
    var alerts := h.alerts + [a];
    if h.alerts != [] {
      assert alerts[|alerts| - 2] == h.alerts[|h.alerts| - 1];
      assert alerts[0] == h.alerts[0];
    }
  }

  /** The four properties survive a run that recorded nothing; `cut` says
      whether it truncated the file. */
  lemma UnsentKeepsInvariant(config: Config, policy: Policy, file0: Option<RawState>, runs: nat,
                             h: History, file': Option<RawState>, cut: bool)
    requires EachSpaced(h.alerts, runs, policy)
    requires Chained(h.alerts, h.truncated)
    requires StartsFrom(h.alerts, RecordIn(config, file0), h.truncated)
    requires FileTracks(config, h, file0, runs)
    requires file' == h.file || cut
    ensures var h' := History(file', h.alerts, if cut then h.truncated + {runs} else h.truncated);
      && EachSpaced(h'.alerts, runs + 1, policy)
      && Chained(h'.alerts, h'.truncated)
      && StartsFrom(h'.alerts, RecordIn(config, file0), h'.truncated)
      && FileTracks(config, h', file0, runs + 1)
  {
    var t' := if cut then h.truncated + {runs} else h.truncated;
    if cut {
      assert runs in t';
    }
  }

  /** Whatever held after `inputs` minus its last run still holds after it. */
  lemma RunKeepsInvariant(config: Config, policy: Policy, file0: Option<RawState>, inputs: seq<TickInput>)
    requires inputs != []
    requires var n := |inputs| - 1;
      var h := Replay(config, policy, file0, inputs[..n]);
      && EachSpaced(h.alerts, n, policy)
      && Chained(h.alerts, h.truncated)
      && StartsFrom(h.alerts, RecordIn(config, file0), h.truncated)
      && FileTracks(config, h, file0, n)
    ensures var h := Replay(config, policy, file0, inputs);
      && EachSpaced(h.alerts, |inputs|, policy)
      && Chained(h.alerts, h.truncated)
      && StartsFrom(h.alerts, RecordIn(config, file0), h.truncated)
      && FileTracks(config, h, file0, |inputs|)
  {
    var n := |inputs| - 1;
    var input := inputs[n];
    var h := Replay(config, policy, file0, inputs[..n]);
    var file' := NextFile(config, policy, h.file, input);
    if Step(Initialise(h.file, KeyOf(config)), config, policy, input).outcome.Sent? {
      SentRunIsSpaced(config, policy, h.file, input, n);
      SentKeepsInvariant(config, policy, file0, n, h, AlertOf(config, policy, h.file, input, n), file');
    } else {
      UnsentRunKeepsFile(config, policy, h.file, input);
      UnsentKeepsInvariant(config, policy, file0, n, h, file', Truncates(config, policy, h.file, input));
    }
  }

  /** What holds of the alerts recorded by any sequence of runs, starting from
      any state file: each reached the minimum and is spaced from the record its
      run read; that record is the previous alert (or, for the first, the
      initial file's record) unless a run in between truncated the file; and
      the file holds the last alert with the same exception. */
  lemma {:induction false} RecordedAlertsRespectPolicy(config: Config, policy: Policy, file0: Option<RawState>, inputs: seq<TickInput>)
    ensures var h := Replay(config, policy, file0, inputs);
      && EachSpaced(h.alerts, |inputs|, policy)
      && Chained(h.alerts, h.truncated)
      && StartsFrom(h.alerts, RecordIn(config, file0), h.truncated)
      && FileTracks(config, h, file0, |inputs|)
  {
    if inputs != [] {
      RecordedAlertsRespectPolicy(config, policy, file0, inputs[..|inputs| - 1]);
      RunKeepsInvariant(config, policy, file0, inputs);
    }
  }

  /** Two consecutive recorded alerts closer together than the cooldown, with
      no run in between that delivered and then failed part-way through its
      write, are separated by a profit jump of at least the bypass. */
  lemma CooldownHoldsBetweenAlerts(config: Config, policy: Policy, file0: Option<RawState>, inputs: seq<TickInput>, i: nat)
    requires 0 < i < |Replay(config, policy, file0, inputs).alerts|
    ensures var alerts := Replay(config, policy, file0, inputs).alerts;
      (forall j :: alerts[i - 1].run < j < alerts[i].run ==> !TruncatingRun(config, policy, file0, inputs, j))
      && (alerts[i].decidedAt - alerts[i - 1].sentAt) as real < policy.cooldownSec ==>
        alerts[i].profitPct - alerts[i - 1].profitPct >= policy.bigJumpBypass
  {
    var h := Replay(config, policy, file0, inputs);
    RecordedAlertsRespectPolicy(config, policy, file0, inputs);
    if TruncationBetween(h.truncated, h.alerts[i - 1].run + 1, h.alerts[i].run) {
      var j :| j in h.truncated && h.alerts[i - 1].run + 1 <= j < h.alerts[i].run;
      TruncatedRunsDeliveredThenFailed(config, policy, file0, inputs, j);
    }
  }

  /** A worked example for the default policy: an alert at 1.2% at t = 0 is a
      big jump; 1.3% at t = 300 is held back by the cooldown; 2.5% at t = 300 is
      a big jump again. */
  lemma DefaultPolicyScenario(sushi: real, odos: real)
    ensures ShouldSend(EMPTY_RECORD, 1.2, 0, DEFAULT_POLICY) == Verdict(true, BigJump)
    ensures var rec := Recorded(EMPTY_RECORD, 0, 1.2, sushi, odos);
      && ShouldSend(rec, 1.3, 300, DEFAULT_POLICY) == Verdict(false, Cooldown)
      && ShouldSend(rec, 2.5, 300, DEFAULT_POLICY) == Verdict(true, BigJump)
  {
  }
}
