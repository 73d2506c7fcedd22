/** The firewall reconciler (`check`): for each account, validate it, compute
    the usage, observe the allow-all ingress rule, revoke or authorize it across
    the 95% line, notify on a change, and record one log entry. The remote
    services are oracles, collected per account in `AccountRemote`; the rule
    itself is a flag per account held by `CheckRun`. */
module Check {
  import opened Wrappers
  import opened Text
  import opened Usage
  import opened SecurityGroup
  import opened Notify
  import opened Accounts

  /** What the remote services answer for one account during one run. */
  datatype AccountRemote = AccountRemote(
    instances: Result<Option<Option<seq<Instance>>>>,         // DescribeInstances (validation)
    traffic: Result<Option<seq<TrafficItem>>>,                // ListCdtInternetTraffic
    details: Result<Option<Option<seq<InstanceDetail>>>>,     // DescribeInstances for one instance
    group: Result<GroupAttribute>,                            // DescribeSecurityGroupAttribute
    mutationApplied: bool,                                    // whether a revoke / authorize takes effect
    transport: Transport)                                     // the notification transports

  datatype Action = NoAction | Revoke | Authorize

  /** The reconciler: at 95% or more an enabled rule is revoked, below 95% a
      disabled rule is authorized, and otherwise nothing is done. */
  function Decide(usage: nat, observedEnabled: bool): (action: Action)
    ensures action == Revoke <==> usage >= Threshold && observedEnabled
    ensures action == Authorize <==> usage < Threshold && !observedEnabled
    ensures action == NoAction <==> observedEnabled == (usage < Threshold)
  {
    if usage >= Threshold then
      if observedEnabled then Revoke else NoAction
    else
      if !observedEnabled then Authorize else NoAction
  }

  /** The rule state after the action: a revoke or authorize that takes effect
      sets it; one that fails is swallowed and leaves it as it was. */
  function After(action: Action, enabled: bool, applied: bool): bool {
    match action
    case NoAction => enabled
    case Revoke => if applied then false else enabled
    case Authorize => if applied then true else enabled
  }

  /** Reconciling is idempotent: once a mutation has taken effect the rule is
      enabled exactly below 95%, and deciding again from that state does nothing. */
  lemma DecideIdempotent(usage: nat, observedEnabled: bool)
    ensures After(Decide(usage, observedEnabled), observedEnabled, true) == (usage < Threshold)
    ensures Decide(usage, After(Decide(usage, observedEnabled), observedEnabled, true)) == NoAction
  {
  }

  const Revoked: string := "已禁用 0.0.0.0/0 访问规则"
  const AlreadyDisabled: string := "规则已禁用，无需操作"
  const Restored: string := "已恢复 0.0.0.0 访问规则"
  const AlreadyEnabled: string := "规则已启用，无需操作"

  /** `安全组状态`: which of the four branches ran. */
  function GroupStatus(usage: nat, observedEnabled: bool): (status: string)
    ensures status == Revoked <==> Decide(usage, observedEnabled) == Revoke
    ensures status == Restored <==> Decide(usage, observedEnabled) == Authorize
    ensures status == AlreadyDisabled <==> usage >= Threshold && !observedEnabled
    ensures status == AlreadyEnabled <==> usage < Threshold && observedEnabled
  {
    if usage >= Threshold then
      if observedEnabled then Revoked else AlreadyDisabled
    else
      if !observedEnabled then Restored else AlreadyEnabled
  }

  /** `使用率达到95%`. */
  function Reached95(usage: nat): (mark: string)
    ensures mark == "是" <==> usage >= Threshold
    ensures mark == "否" <==> usage < Threshold
  {
    if usage >= Threshold then "是" else "否"
  }

  /** `通知发送`: 不需要 without a change; after a notification, 成功 when it
      returned `True`, otherwise 失败 followed by the failure it returned. */
  datatype NotifyStatus = NotNeeded | Succeeded | FailedWith(results: seq<Attempt>)

  /** One entry of `logs`. */
  datatype LogRecord = LogRecord(report: UsageReport, notification: NotifyStatus)

  /** The log dictionary as first built, before `安全组状态` is filled in: the
      percentage, the quota and the traffic used read back as the numbers they
      print, 是 marks a usage of 95% or more, 未知地区 marks an unlisted region,
      and the name, the expiry and the IP are carried over. */
  function BaseReport(a: Account, reading: TrafficReading, usage: nat, details: Details): (report: UsageReport)
    ensures ShowsHundredths(report.usagePercent, usage, "%")
    ensures ShowsWhole(report.totalTraffic, a.maxTraffic, "GB")
    ensures reading.FetchFailed? ==> ShowsWhole(report.usedTraffic, 0, "GB")
    ensures reading.Measured? ==> ShowsHundredths(report.usedTraffic, RoundHalfEven(reading.bytes * 100, GiB), "GB")
    ensures report.reached95 == "是" <==> usage >= Threshold
    ensures report.region == RegionName(a.regionId)
    ensures report.region == UnknownRegion <==> !Listed(RegionTable, a.regionId)
    ensures report.server == DisplayName(a) && report.expiry == details.expiry && report.publicIp == details.publicIp
    ensures report.instanceId == a.instanceId && report.groupStatus == ""
  {
    var percent := FormatHundredths(usage) + "%";
    var total := NatToString(a.maxTraffic) + "GB";
    var used := TrafficText(reading) + "GB";
    HundredthsWithUnit(usage, "%");
    NatWithUnit(a.maxTraffic, "GB");
    var b := if reading.Measured? then reading.bytes else 0;
    NatWithUnit(0, "GB");
    HundredthsWithUnit(RoundHalfEven(b * 100, GiB), "GB");
    RegionNameUnknownIff(a.regionId);
    UsageReport(
      instanceId := a.instanceId,
      server := DisplayName(a),
      totalTraffic := total,
      usedTraffic := used,
      usagePercent := percent,
      region := RegionName(a.regionId),
      expiry := details.expiry,
      publicIp := details.publicIp,
      reached95 := Reached95(usage),
      groupStatus := "")
  }

  /** What processing one account produces. */
  datatype StepOutcome = StepOutcome(
    log: Option<LogRecord>,             // the entry appended to `logs`, if any
    notice: Option<seq<Attempt>>,       // the notification sent, if any
    action: Action,                     // the mutating call issued
    ruleAfter: bool)                    // the rule state afterwards

  /** An account that does not reach the decision: an error notification, and
      nothing else. */
  function Rejected(err: ErrorReport, r: AccountRemote, config: NotificationConfig, enabled: bool): StepOutcome {
    StepOutcome(None, Some(Notification(ErrorNotice(err), config, r.transport)), NoAction, enabled)
  }

  /** The decision branch of the loop body, for an account whose usage is known
      and whose log dictionary `base` is built. */
  function Reconciled(base: UsageReport, usage: nat, r: AccountRemote, config: NotificationConfig,
                      enabled: bool): StepOutcome {
    var observed := RuleListed(r.group);
    var action := Decide(usage, observed);
    var report := base.(groupStatus := GroupStatus(usage, observed));
    if action == NoAction then
      StepOutcome(Some(LogRecord(report, NotNeeded)), None, NoAction, enabled)
    else
      var attempts := Notification(UsageNotice(report), config, r.transport);
      var status := if AllSent(attempts) then Succeeded else FailedWith(attempts);
      StepOutcome(Some(LogRecord(report, status)), Some(attempts), action, After(action, enabled, r.mutationApplied))
  }

  /** The specification of one iteration of the loop in `check`, given the rule
      state before it. */
  function Step(a: Account, r: AccountRemote, config: NotificationConfig, enabled: bool): (s: StepOutcome)
    ensures s.ruleAfter != enabled ==> s.action != NoAction && s.notice.Some?
    ensures s.notice.None? ==> s.log.Some? && s.log.value.notification == NotNeeded
  {
    match Validate(a, r.instances)
    case Some(err) => Rejected(err, r, config, enabled)
    case None =>
      var reading := GetTraffic(r.traffic);
      match UsageHundredths(Bytes(reading), a.maxTraffic)
      case None => Rejected(ErrorReport(DisplayName(a), a.instanceId, ZeroQuotaMessage(reading)), r, config, enabled)
      case Some(usage) => Reconciled(BaseReport(a, reading, usage, InstanceDetails(r.details)), usage, r, config, enabled)
  }

  /** The account passes validation and has a non-zero quota: the loop body
      reaches the decision. */
  predicate Decides(a: Account, r: AccountRemote) {
    Validate(a, r.instances).None? && a.maxTraffic > 0
  }

  function UsageOf(a: Account, r: AccountRemote): nat
    requires a.maxTraffic > 0
  {
    UsageHundredths(Bytes(GetTraffic(r.traffic)), a.maxTraffic).value
  }

  /** The four branches of the decision, with their labels and effects. */
  lemma StepDecision(a: Account, r: AccountRemote, config: NotificationConfig, enabled: bool)
    requires Decides(a, r)
    ensures var s := Step(a, r, config, enabled);
      var usage, observed := UsageOf(a, r), RuleListed(r.group);
      && s.log.Some?
      && s.log.value.report.reached95 == (if usage >= Threshold then "是" else "否")
      && (usage >= Threshold && observed ==>
            s.action == Revoke && s.log.value.report.groupStatus == "已禁用 0.0.0.0/0 访问规则"
            && s.notice.Some? && s.ruleAfter == (enabled && !r.mutationApplied))
      && (usage >= Threshold && !observed ==>
            s.action == NoAction && s.log.value.report.groupStatus == "规则已禁用，无需操作"
            && s.log.value.notification == NotNeeded && s.notice.None? && s.ruleAfter == enabled)
      && (usage < Threshold && !observed ==>
            s.action == Authorize && s.log.value.report.groupStatus == "已恢复 0.0.0.0 访问规则"
            && s.notice.Some? && s.ruleAfter == (enabled || r.mutationApplied))
      && (usage < Threshold && observed ==>
            s.action == NoAction && s.log.value.report.groupStatus == "规则已启用，无需操作"
            && s.log.value.notification == NotNeeded && s.notice.None? && s.ruleAfter == enabled)
  {
  }

  /** A notification is sent exactly when a mutating call is issued, and the
      log's `通知发送` says whether every channel took it. */
  lemma StepNotifiesIffMutates(a: Account, r: AccountRemote, config: NotificationConfig, enabled: bool)
    requires Decides(a, r)
    ensures var s := Step(a, r, config, enabled);
      && (s.notice.Some? <==> s.action != NoAction)
      && (s.notice.Some? ==> (s.log.value.notification == Succeeded <==> AllSent(s.notice.value)))
      && (s.notice.Some? ==> s.notice.value == Notification(UsageNotice(s.log.value.report), config, r.transport))
  {
  }

  /** An account that fails validation is skipped: one error notification, no
      log entry, no mutating call, the rule untouched. */
  lemma StepInvalidSkipped(a: Account, r: AccountRemote, config: NotificationConfig, enabled: bool)
    requires Validate(a, r.instances).Some?
    ensures var s := Step(a, r, config, enabled);
      && s.log.None? && s.action == NoAction && s.ruleAfter == enabled
      && s.notice == Some(Notification(ErrorNotice(Validate(a, r.instances).value), config, r.transport))
  {
  }

  /** A zero quota raises inside the `try`: the handler sends an error
      notification naming the division, and no log entry is appended. */
  lemma StepZeroQuota(a: Account, r: AccountRemote, config: NotificationConfig, enabled: bool)
    requires Validate(a, r.instances).None? && a.maxTraffic == 0
    ensures var s := Step(a, r, config, enabled);
      && s.log.None? && s.action == NoAction && s.ruleAfter == enabled
      && s.notice == Some(Notification(ErrorNotice(
           ErrorReport(DisplayName(a), a.instanceId,
             if r.traffic.Err? then "division by zero" else "float division by zero")), config, r.transport))
  {
  }

  /** Idempotence of the check: when the query shows the true rule state and the
      mutation takes effect, afterwards the rule is enabled exactly below 95%,
      and a second run with the same traffic issues no mutating call and sends
      no notification. */
  lemma StepIdempotent(a: Account, r1: AccountRemote, r2: AccountRemote, config: NotificationConfig, enabled: bool)
    requires Decides(a, r1) && Decides(a, r2)
    requires Bytes(GetTraffic(r1.traffic)) == Bytes(GetTraffic(r2.traffic))
    requires RuleListed(r1.group) == enabled && r1.mutationApplied
    requires RuleListed(r2.group) == Step(a, r1, config, enabled).ruleAfter
    ensures Step(a, r1, config, enabled).ruleAfter == (UsageOf(a, r1) < Threshold)
    ensures var s2 := Step(a, r2, config, Step(a, r1, config, enabled).ruleAfter);
      s2.action == NoAction && s2.notice.None? && s2.ruleAfter == Step(a, r1, config, enabled).ruleAfter
  {
    DecideIdempotent(UsageOf(a, r1), enabled);
  }

  function LogOf(s: StepOutcome): seq<LogRecord> {
    match s.log
    case None => []
    case Some(l) => [l]
  }

  function NoticeOf(s: StepOutcome): seq<seq<Attempt>> {
    match s.notice
    case None => []
    case Some(n) => [n]
  }

  /** A mutating call, with the index of the account it was issued for. */
  datatype Mutation = Mutation(account: nat, action: Action)

  function MutationOf(k: nat, s: StepOutcome): seq<Mutation> {
    if s.action == NoAction then [] else [Mutation(k, s.action)]
  }

  function Logs(steps: seq<StepOutcome>): seq<LogRecord> {
    if steps == [] then [] else Logs(steps[..|steps| - 1]) + LogOf(steps[|steps| - 1])
  }

  function Notices(steps: seq<StepOutcome>): seq<seq<Attempt>> {
    if steps == [] then [] else Notices(steps[..|steps| - 1]) + NoticeOf(steps[|steps| - 1])
  }

  function Mutations(steps: seq<StepOutcome>): seq<Mutation> {
    if steps == [] then [] else Mutations(steps[..|steps| - 1]) + MutationOf(|steps| - 1, steps[|steps| - 1])
  }

  /** The rule state each account is left in. */
  function RulesAfter(steps: seq<StepOutcome>): seq<bool> {
    seq(|steps|, k requires 0 <= k < |steps| => steps[k].ruleAfter)
  }

  /** Running account `|steps|` sets its rule and leaves the later ones alone. */
  lemma RulesAfterSnoc(steps: seq<StepOutcome>, s: StepOutcome, rules: seq<bool>)
    requires |steps| < |rules|
    ensures (RulesAfter(steps) + rules[|steps|..])[|steps| := s.ruleAfter]
         == RulesAfter(steps + [s]) + rules[|steps| + 1..]
  {
  }

  /** A step appends a log entry exactly when the account reaches the decision. */
  lemma StepLogged(a: Account, r: AccountRemote, config: NotificationConfig, enabled: bool)
    ensures Step(a, r, config, enabled).log.Some? <==> Decides(a, r)
  {
  }

  /** Running one more account appends that account's records. */
  lemma RecordsSnoc(prev: seq<StepOutcome>, s: StepOutcome)
    ensures Logs(prev + [s]) == Logs(prev) + LogOf(s)
    ensures Notices(prev + [s]) == Notices(prev) + NoticeOf(s)
    ensures Mutations(prev + [s]) == Mutations(prev) + MutationOf(|prev|, s)
  {
    assert (prev + [s])[..|prev|] == prev;
  }

  /** `steps` are the outcomes of the first accounts, in order, each from its
      rule's state before the run. */
  predicate RunOf(steps: seq<StepOutcome>, accounts: seq<Account>, remotes: seq<AccountRemote>,
                  config: NotificationConfig, rules: seq<bool>)
  {
    && |steps| <= |accounts| == |remotes| == |rules|
    && forall k {:trigger Step(accounts[k], remotes[k], config, rules[k])} :: 0 <= k < |steps| ==>
         steps[k] == Step(accounts[k], remotes[k], config, rules[k])
  }

  /** Every run has a complete sequence of outcomes. */
  lemma RunExists(accounts: seq<Account>, remotes: seq<AccountRemote>, config: NotificationConfig, rules: seq<bool>)
    requires |accounts| == |remotes| == |rules|
    ensures exists steps :: |steps| == |accounts| && RunOf(steps, accounts, remotes, config, rules)
  {
    var steps := seq(|accounts|, k requires 0 <= k < |accounts| => Step(accounts[k], remotes[k], config, rules[k]));
    assert RunOf(steps, accounts, remotes, config, rules);
  }

  /** A prefix of a run is a run. */
  lemma RunOfPrefix(steps: seq<StepOutcome>, accounts: seq<Account>, remotes: seq<AccountRemote>,
                    config: NotificationConfig, rules: seq<bool>, m: nat)
    requires RunOf(steps, accounts, remotes, config, rules) && m <= |steps|
    ensures RunOf(steps[..m], accounts, remotes, config, rules)
  {
    forall k | 0 <= k < m ensures steps[..m][k] == Step(accounts[k], remotes[k], config, rules[k]) {
      assert steps[..m][k] == steps[k];
    }
  }

  /** A prefix one longer is the prefix followed by the next element. */
  lemma PrefixSnoc<T>(xs: seq<T>, i: nat)
    requires i < |xs|
    ensures xs[..i + 1] == xs[..i] + [xs[i]]
  {
  }

  /** How many of the first `n` accounts reach the decision. */
  function Deciding(accounts: seq<Account>, remotes: seq<AccountRemote>, n: nat): nat
    requires n <= |accounts| == |remotes|
  {
    if n == 0 then 0
    else Deciding(accounts, remotes, n - 1) + (if Decides(accounts[n - 1], remotes[n - 1]) then 1 else 0)
  }

  /** One log entry per account that reaches the decision, none for the others. */
  lemma {:induction false} LogsCount(steps: seq<StepOutcome>, accounts: seq<Account>, remotes: seq<AccountRemote>,
                                     config: NotificationConfig, rules: seq<bool>)
    requires RunOf(steps, accounts, remotes, config, rules)
    ensures |Logs(steps)| == Deciding(accounts, remotes, |steps|)
  {
    if steps != [] {
      var n := |steps| - 1;
      RunOfPrefix(steps, accounts, remotes, config, rules, n);
      LogsCount(steps[..n], accounts, remotes, config, rules);
      PrefixSnoc(steps, n);
      RecordsSnoc(steps[..n], steps[n]);
      StepLogged(accounts[n], remotes[n], config, rules[n]);
    }
  }

  /** The state of one run of `check`: the rule flag of each account's security
      group (which outlives the run) and what the run records: `logs`, the
      notifications it sent and the mutating calls it issued. Each account has
      its own flag, by position; two accounts sharing one security group are
      not modelled. */
  class CheckRun {
    var ruleEnabled: seq<bool>
    var logs: seq<LogRecord>
    var notices: seq<seq<Attempt>>
    var mutations: seq<Mutation>

    constructor (rules: seq<bool>)
      ensures ruleEnabled == rules && logs == [] && notices == [] && mutations == []
    {
      ruleEnabled := rules;
      logs, notices, mutations := [], [], [];
    }

    /** One iteration of the loop in `check`, for the account at index `k`. */
    method CheckAccount(k: nat, a: Account, r: AccountRemote, config: NotificationConfig)
      requires k < |ruleEnabled|
      modifies this
      ensures var s := Step(a, r, config, old(ruleEnabled[k]));
        && ruleEnabled == old(ruleEnabled)[k := s.ruleAfter]
        && logs == old(logs) + LogOf(s)
        && notices == old(notices) + NoticeOf(s)
        && mutations == old(mutations) + MutationOf(k, s)
    {
      var err := Validate(a, r.instances);
      if err.Some? {
        var attempts, _ := SendNotification(ErrorNotice(err.value), config, r.transport);
        notices := notices + [attempts];
        return;
      }
      var traffic := GetTraffic(r.traffic);
      var accountName := DisplayName(a);
      var usage := UsageHundredths(Bytes(traffic), a.maxTraffic);
      if usage.None? {
        // the ZeroDivisionError is caught by the handler around the loop body
        var errorLog := ErrorReport(accountName, a.instanceId, ZeroQuotaMessage(traffic));
        var attempts, _ := SendNotification(ErrorNotice(errorLog), config, r.transport);
        notices := notices + [attempts];
        return;
      }
      var details := InstanceDetails(r.details);
      Reconcile(k, BaseReport(a, traffic, usage.value, details), usage.value, r, config);
    }

    /** The decision branch: observe the rule, revoke or authorize it across the
        95% line, notify on a change, and append the log entry. */
    method Reconcile(k: nat, base: UsageReport, usagePercentage: nat, r: AccountRemote, config: NotificationConfig)
      requires k < |ruleEnabled|
      modifies this
      ensures var s := Reconciled(base, usagePercentage, r, config, old(ruleEnabled[k]));
        && ruleEnabled == old(ruleEnabled)[k := s.ruleAfter]
        && logs == old(logs) + LogOf(s)
        && notices == old(notices) + NoticeOf(s)
        && mutations == old(mutations) + MutationOf(k, s)
    {
      var report := base;
      var isEnabled := IsRuleEnabled(r.group);
      var status: NotifyStatus;
      if usagePercentage >= Threshold {
        if isEnabled {
          report := report.(groupStatus := Revoked);
          status := Toggle(k, Revoke, r, config, report);
        } else {
          report := report.(groupStatus := AlreadyDisabled);
          status := NotNeeded;
        }
      } else {
        if !isEnabled {
          report := report.(groupStatus := Restored);
          status := Toggle(k, Authorize, r, config, report);
        } else {
          report := report.(groupStatus := AlreadyEnabled);
          status := NotNeeded;
        }
      }
      logs := logs + [LogRecord(report, status)];
    }

    /** A revoke or authorize call on account `k`'s rule (it takes effect when
        `r.mutationApplied`, and a failure is swallowed), then the notification
        of the finished report; the result is the `通知发送` status. */
    method Toggle(k: nat, action: Action, r: AccountRemote, config: NotificationConfig, report: UsageReport)
      returns (status: NotifyStatus)
      requires k < |ruleEnabled| && action != NoAction
      modifies this
      ensures var attempts := Notification(UsageNotice(report), config, r.transport);
        && status == (if AllSent(attempts) then Succeeded else FailedWith(attempts))
        && ruleEnabled == old(ruleEnabled)[k := After(action, old(ruleEnabled[k]), r.mutationApplied)]
        && logs == old(logs)
        && notices == old(notices) + [attempts]
        && mutations == old(mutations) + [Mutation(k, action)]
    {
      mutations := mutations + [Mutation(k, action)];
      if r.mutationApplied {
        ruleEnabled := ruleEnabled[k := action == Authorize];
      }
      var attempts, outcome := SendNotification(UsageNotice(report), config, r.transport);
      notices := notices + [attempts];
      status := if outcome == Delivered then Succeeded else FailedWith(attempts);
    }

    /** The loop body of `check` for account `i`, with the outcomes of the
        accounts before it in `steps`: afterwards `steps` covers account `i`
        too, and only account `i`'s rule may have changed. */
    method Advance(i: nat, accounts: seq<Account>, remotes: seq<AccountRemote>, config: NotificationConfig,
                   ghost rules: seq<bool>, ghost run: seq<StepOutcome>, ghost steps: seq<StepOutcome>)
      returns (ghost next: seq<StepOutcome>)
      requires i < |run| == |accounts| && RunOf(run, accounts, remotes, config, rules)
      requires |rules| == |accounts| && ruleEnabled == RulesAfter(steps) + rules[i..]
      requires steps == run[..i] && logs == Logs(steps) && notices == Notices(steps) && mutations == Mutations(steps)
      modifies this
      ensures next == run[..i + 1] && ruleEnabled == RulesAfter(next) + rules[i + 1..]
      ensures logs == Logs(next) && notices == Notices(next) && mutations == Mutations(next)
    {
      CheckAccount(i, accounts[i], remotes[i], config);
      PrefixSnoc(run, i);
      RecordsSnoc(steps, run[i]);
      RulesAfterSnoc(steps, run[i], rules);
      next := steps + [run[i]];
    }

    /** `check`: process every account in order, starting from an empty `logs`.
        `steps` are the accounts' outcomes: each account's rule is as its step
        left it, and the records are those of the steps, in account order. */
    method Check(accounts: seq<Account>, remotes: seq<AccountRemote>, config: NotificationConfig)
      returns (ghost steps: seq<StepOutcome>)
      requires |accounts| == |remotes| == |ruleEnabled|
      modifies this
      ensures |steps| == |accounts| && RunOf(steps, accounts, remotes, config, old(ruleEnabled))
      ensures ruleEnabled == RulesAfter(steps)
      ensures logs == Logs(steps) && notices == Notices(steps) && mutations == Mutations(steps)
    {
      logs, notices, mutations := [], [], [];
      ghost var rules := ruleEnabled;
      RunExists(accounts, remotes, config, rules);
      ghost var run: seq<StepOutcome> :| |run| == |accounts| && RunOf(run, accounts, remotes, config, rules);
      steps := [];
      var i := 0;
      while i < |accounts|
        invariant 0 <= i <= |accounts| == |ruleEnabled| == |rules| == |run|
        invariant steps == run[..i]
        invariant ruleEnabled == RulesAfter(steps) + rules[i..]
        invariant logs == Logs(steps) && notices == Notices(steps) && mutations == Mutations(steps)
      {
        steps := Advance(i, accounts, remotes, config, rules, run, steps);
        i := i + 1;
      }
      assert steps == run;
    }
  }
}
