/** The daily digest (`send_daily_notification`): for every account whose
    notifications are on and whose rule is currently enabled, a message with a
    20-cell progress bar, sent with the traffic in the chat title. */
module Daily {
  import opened Wrappers
  import opened Text
  import opened Usage
  import opened SecurityGroup
  import opened Notify
  import opened Accounts

  const ProgressCells: nat := 20
  const FilledCell: char := '■'
  const EmptyCell: char := '□'

  /** `progress_val = round(usage_percentage)`, for a usage of `u` hundredths of a percent. */
  function ProgressValue(u: nat): nat {
    RoundHalfEven(u, 100)
  }

  /** `progress_do_num`: the filled cells for a usage of `u` hundredths of a
      percent. Below 1% but above 0 one cell; a rounded 0 none; a rounded value
      above 95 short of 100% one cell short of full; otherwise
      `min(20, round(0.5 + 20 * progress_val / 100))`. */
  function ProgressFilled(u: nat): (filled: nat)
    ensures filled <= ProgressCells
  {
    var pv := ProgressValue(u);
    if 0 < u < 100 then 1
    else if pv == 0 then 0
    else if pv > 95 && u < 10000 then ProgressCells - 1
    else
      var scaled := RoundHalfEven(50 + ProgressCells * pv, 100);
      if scaled < ProgressCells then scaled else ProgressCells
  }

  /** The bar is empty exactly at zero usage: any usage at all fills a cell. */
  lemma ProgressEmptyIff(u: nat)
    ensures ProgressFilled(u) == 0 <==> u == 0
  {
    if u >= 100 {
      RoundHalfEvenMonotone(100, u, 100);
      assert ProgressValue(u) >= 1;
      RoundHalfEvenMonotone(70, 50 + ProgressCells * ProgressValue(u), 100);
    }
  }

  /** The fixed cases of the if/elif chain. */
  lemma ProgressFixedCases(u: nat)
    ensures 0 < u < 100 ==> ProgressFilled(u) == 1
    ensures ProgressValue(u) > 95 && u < 10000 ==> ProgressFilled(u) == ProgressCells - 1
    ensures u >= 10000 ==> ProgressFilled(u) == ProgressCells
  {
    if u >= 10000 {
      RoundHalfEvenMonotone(10000, u, 100);
      assert ProgressValue(u) >= 100;
      RoundHalfEvenMonotone(2050, 50 + ProgressCells * ProgressValue(u), 100);
    }
  }

  /** Between 1% and a rounded 95% the filled count is the integer nearest to
      `0.5 + 20 * progress_val / 100`, the even one on a tie. */
  lemma ProgressScaled(u: nat)
    requires 100 <= u && ProgressValue(u) <= 95
    ensures Nearest(50 + ProgressCells * ProgressValue(u), 100, ProgressFilled(u))
    ensures Tie(50 + ProgressCells * ProgressValue(u), 100, ProgressFilled(u)) ==> ProgressFilled(u) % 2 == 0
  {
    RoundHalfEvenMonotone(100, u, 100);
    var n := 50 + ProgressCells * ProgressValue(u);
    RoundHalfEvenSpec(n, 100);
    RoundHalfEvenMonotone(n, 1950, 100);
  }

  /** Worked values: 50% fills 10 cells, 10% fills 2, 15% fills 4; from 94.51%
      (which rounds to 95) to 95.49% the bar is full, as round(19.5) is 20, while
      94.50% (which rounds to 94) and 95.50% fill 19, so the count is not monotone. */
  lemma ProgressExamples()
    ensures ProgressFilled(5000) == 10 && ProgressFilled(1000) == 2 && ProgressFilled(1500) == 4
    ensures ProgressFilled(9450) == 19 && ProgressFilled(9451) == 20
    ensures ProgressFilled(9500) == 20 && ProgressFilled(9600) == 19
    ensures ProgressFilled(9549) == 20 && ProgressFilled(9550) == 19
  {
  }

  /** `progress_bar`: the filled cells, then the empty ones, 20 in all. */
  function ProgressBar(u: nat): (bar: string)
    ensures |bar| == ProgressCells
    ensures forall i :: 0 <= i < |bar| ==> bar[i] == (if i < ProgressFilled(u) then FilledCell else EmptyCell)
  {
    Repeat(FilledCell, ProgressFilled(u)) + Repeat(EmptyCell, ProgressCells - ProgressFilled(u))
  }

  /** What the daily job reads remotely for one account. `formatExpiry` stands for
      `datetime.fromisoformat(…).strftime(…)` on the expiry text, `None` where it
      raises ValueError or AttributeError. */
  datatype DailyRemote = DailyRemote(
    instances: Result<Option<Option<seq<Instance>>>>,
    traffic: Result<Option<seq<TrafficItem>>>,
    details: Result<Option<Option<seq<InstanceDetail>>>>,
    group: Result<GroupAttribute>,
    formatExpiry: string -> Option<string>,
    transport: Transport)

  /** The lines of the digest message; `region` is the region's display name. */
  function DigestLines(name: string, a: Account, details: Details, u: nat, reading: TrafficReading,
                       region: string, expiry: string): seq<string> {
    [name + "（" + details.publicIp + "）",
     ProgressBar(u) + " " + FormatHundredths(u) + "%",
     "已使用流量: " + TrafficText(reading) + "GB / " + NatToString(a.maxTraffic) + "GB",
     "实例地区: " + region,
     "到期时间: " + expiry,
     "实例ID: " + a.instanceId,
     "安全组状态: 启用"]
  }

  /** The message built line by line, each line followed by a newline. */
  function DigestMessage(name: string, a: Account, details: Details, u: nat, reading: TrafficReading,
                         region: string, expiry: string): string {
    JoinLines(DigestLines(name, a, details, u, reading, region, expiry))
  }

  /** The digest comes back as its seven lines, the second opening with the
      20-cell bar and closing with the percentage. */
  lemma DigestMessageLines(name: string, a: Account, details: Details, u: nat, reading: TrafficReading,
                           region: string, expiry: string)
    requires NoNewline(name) && NoNewline(details.publicIp) && NoNewline(region)
    requires NoNewline(expiry) && NoNewline(a.instanceId)
    ensures SplitLines(DigestMessage(name, a, details, u, reading, region, expiry)) ==
      [name + "（" + details.publicIp + "）",
       ProgressBar(u) + " " + FormatHundredths(u) + "%",
       "已使用流量: " + TrafficText(reading) + "GB / " + NatToString(a.maxTraffic) + "GB",
       "实例地区: " + region,
       "到期时间: " + expiry,
       "实例ID: " + a.instanceId,
       "安全组状态: 启用"]
  {
    var lines := DigestLines(name, a, details, u, reading, region, expiry);
    NoNewlineFixedParts(u, reading, a.maxTraffic);
    NoNewlineAppend(name, "（" + details.publicIp + "）");
    NoNewlineAppend(ProgressBar(u), " " + FormatHundredths(u) + "%");
    NoNewlineAppend("已使用流量: " + TrafficText(reading), "GB / " + NatToString(a.maxTraffic) + "GB");
    NoNewlineAppend("实例地区: ", region);
    NoNewlineAppend("到期时间: ", expiry);
    NoNewlineAppend("实例ID: ", a.instanceId);
    SplitJoinLines(lines);
  }

  /** The lines' parts that do not come from the configuration or a remote answer
      hold no newline. */
  lemma NoNewlineFixedParts(u: nat, reading: TrafficReading, maxTraffic: nat)
    ensures NoNewline(ProgressBar(u)) && NoNewline(FormatHundredths(u)) && NoNewline(TrafficText(reading))
    ensures NoNewline(NatToString(maxTraffic))
  {
  }

  /** `daily_title`: the chat title carries the traffic used. */
  function DailyTitle(traffic: string, config: NotificationConfig): string {
    "已使用" + traffic + " - " + Title(config)
  }

  /** The attempts `send_daily_notification_message` makes: the enabled channels
      in order, mail with the plain title, the webhook and WeCom with the daily one. */
  function DailyAttempts(message: string, traffic: string, config: NotificationConfig, transport: Transport): seq<Attempt> {
    Attempts(config, message, Title(config), DailyTitle(traffic, config), transport)
  }

  /** Which title each channel is handed. */
  lemma DailyTitles(message: string, traffic: string, config: NotificationConfig, transport: Transport)
    ensures forall i :: 0 <= i < |DailyAttempts(message, traffic, config, transport)| ==>
      var d := DailyAttempts(message, traffic, config, transport)[i].delivery;
      && d.body == message
      && (d.channel == Email ==> d.title == Some(Title(config)))
      && (d.channel in {Webhook, Qywx} ==> d.title == Some("已使用" + traffic + " - " + Title(config)))
      && (d.channel in {Bark, Telegram} ==> d.title == None)
  {
    AttemptsOverAt(EnabledChannels(config), message, Title(config), DailyTitle(traffic, config), transport);
  }

  /** `send_daily_notification_message`: attempt every enabled channel, then
      `True` only if every answer was exactly `True`. */
  method SendDailyMessage(message: string, traffic: string, config: NotificationConfig, transport: Transport)
    returns (attempts: seq<Attempt>, ok: bool)
    ensures attempts == DailyAttempts(message, traffic, config, transport)
    ensures ok <==> AllSent(attempts)
  {
    var title := Title(config);
    attempts := Fanout(config, message, title, DailyTitle(traffic, config), transport);
    ok := AllDelivered(attempts);
  }

  /** What the loop body does with one account. `Aborted`: a skipped account has
      no `accountName`, and the KeyError raised by the skip message, outside the
      `try`, ends the whole job. `Raised`: an exception inside the `try`,
      printed and swallowed. */
  datatype DigestOutcome =
    | Aborted
    | Skipped
    | Invalid(notice: seq<Attempt>)
    | Raised(error: string)
    | Suppressed
    | Digest(attempts: seq<Attempt>)

  /** The digest is switched off for the account: `enableNotification` (default
      on) is off, or `onlyNotifyOnToggle` (default off) is on. */
  predicate OptedOut(a: Account) {
    !a.enableNotification.GetOr(true) || a.onlyNotifyOnToggle.GetOr(false)
  }

  /** The specification of one iteration of the loop in `send_daily_notification`. */
  function DigestStep(a: Account, r: DailyRemote, config: NotificationConfig): (o: DigestOutcome)
    ensures OptedOut(a) <==> o == Aborted || o == Skipped
    ensures o.Digest? ==> RuleListed(r.group) && a.maxTraffic > 0
  {
    if OptedOut(a) then
      if a.accountName.None? then Aborted else Skipped
    else match Validate(a, r.instances)
      case Some(err) => Invalid(Notification(ErrorNotice(err), config, r.transport))
      case None =>
        var reading := GetTraffic(r.traffic);
        match UsageHundredths(Bytes(reading), a.maxTraffic)
        case None => Raised(ZeroQuotaMessage(reading))
        case Some(u) =>
          if !RuleListed(r.group) then Suppressed
          else match a.accountName
            case None => Raised("'accountName'")
            case Some(name) =>
              var details := InstanceDetails(r.details);
              var expiry := r.formatExpiry(details.expiry).GetOr(details.expiry);
              var message := DigestMessage(name, a, details, u, reading, RegionName(a.regionId), expiry);
              Digest(DailyAttempts(message, TrafficText(reading) + "GB", config, r.transport))
  }

  /** An account gets its digest exactly when it has not opted out, passes
      validation, has a non-zero quota, its rule is currently enabled and it has
      an `accountName`; the job aborts exactly on an opted-out account without one. */
  lemma DigestGate(a: Account, r: DailyRemote, config: NotificationConfig)
    ensures DigestStep(a, r, config).Digest? <==>
      && !OptedOut(a)
      && Validate(a, r.instances).None?
      && a.maxTraffic > 0
      && RuleListed(r.group)
      && a.accountName.Some?
    ensures DigestStep(a, r, config) == Aborted <==> OptedOut(a) && a.accountName.None?
    ensures DigestStep(a, r, config).Invalid? <==> !OptedOut(a) && Validate(a, r.instances).Some?
    ensures DigestStep(a, r, config).Invalid? ==>
      DigestStep(a, r, config).notice == Notification(ErrorNotice(Validate(a, r.instances).value), config, r.transport)
    ensures DigestStep(a, r, config) == Suppressed <==>
      !OptedOut(a) && Validate(a, r.instances).None? && a.maxTraffic > 0 && !RuleListed(r.group)
  {
  }

  /** The digest's attempts, spelled out from the loop body. */
  lemma DigestAttempts(a: Account, r: DailyRemote, config: NotificationConfig)
    requires DigestStep(a, r, config).Digest?
    ensures var reading := GetTraffic(r.traffic);
      var u := UsageHundredths(Bytes(reading), a.maxTraffic).value;
      var details := InstanceDetails(r.details);
      var expiry := r.formatExpiry(details.expiry).GetOr(details.expiry);
      DigestStep(a, r, config).attempts ==
        DailyAttempts(DigestMessage(a.accountName.value, a, details, u, reading, RegionName(a.regionId), expiry),
                      TrafficText(reading) + "GB", config, r.transport)
  {
  }

  /** What a digest says and where it goes: the enabled channels in order, each
      handed a message that reads, line by line, the account's name with the
      public IP, the 20-cell bar with the usage rounded to hundredths of a
      percent, the traffic used against the quota, the region's display name,
      the expiry, the instance id and the rule's state; mail is titled with the
      plain title, the webhook and WeCom with the traffic used. The lines read
      back as written when the texts the account and the remote supply hold no
      line break. */
  lemma DigestContent(a: Account, r: DailyRemote, config: NotificationConfig)
    requires !OptedOut(a) && Validate(a, r.instances).None? && a.maxTraffic > 0
    requires RuleListed(r.group) && a.accountName.Some?
    requires NoNewline(a.accountName.value) && NoNewline(a.instanceId)
    requires NoNewline(InstanceDetails(r.details).publicIp)
    requires NoNewline(r.formatExpiry(InstanceDetails(r.details).expiry).GetOr(InstanceDetails(r.details).expiry))
    ensures ChannelsOf(DigestStep(a, r, config).attempts) == EnabledChannels(config)
    ensures var reading := GetTraffic(r.traffic);
      var u := UsageHundredths(Bytes(reading), a.maxTraffic).value;
      Nearest(Bytes(reading) * 10000, a.maxTraffic * GiB, u)
    ensures var reading := GetTraffic(r.traffic);
      var u := UsageHundredths(Bytes(reading), a.maxTraffic).value;
      var details := InstanceDetails(r.details);
      var attempts := DigestStep(a, r, config).attempts;
      forall i :: 0 <= i < |attempts| ==>
        var d := attempts[i].delivery;
        && SplitLines(d.body) ==
           [a.accountName.value + "（" + details.publicIp + "）",
            ProgressBar(u) + " " + FormatHundredths(u) + "%",
            "已使用流量: " + TrafficText(reading) + "GB / " + NatToString(a.maxTraffic) + "GB",
            "实例地区: " + RegionName(a.regionId),
            "到期时间: " + r.formatExpiry(details.expiry).GetOr(details.expiry),
            "实例ID: " + a.instanceId,
            "安全组状态: 启用"]
        && (d.channel == Email ==> d.title == Some(Title(config)))
        && (d.channel in {Webhook, Qywx} ==> d.title == Some("已使用" + TrafficText(reading) + "GB - " + Title(config)))
        && (d.channel in {Bark, Telegram} ==> d.title == None)
  {
    var reading := GetTraffic(r.traffic);
    var u := UsageHundredths(Bytes(reading), a.maxTraffic).value;
    var details := InstanceDetails(r.details);
    var expiry := r.formatExpiry(details.expiry).GetOr(details.expiry);
    var lines := DigestLines(a.accountName.value, a, details, u, reading, RegionName(a.regionId), expiry);
    var message := DigestMessage(a.accountName.value, a, details, u, reading, RegionName(a.regionId), expiry);
    DigestGate(a, r, config);
    DigestAttempts(a, r, config);
    RegionNameNoNewline(a.regionId);
    DigestMessageLines(a.accountName.value, a, details, u, reading, RegionName(a.regionId), expiry);
    DigestDeliveries(message, lines, TrafficText(reading), config, r.transport);
  }

  /** Every attempt of a daily send carries the message, and the title its channel takes. */
  lemma DigestDeliveries(message: string, lines: seq<string>, traffic: string, config: NotificationConfig, transport: Transport)
    requires SplitLines(message) == lines
    ensures ChannelsOf(DailyAttempts(message, traffic + "GB", config, transport)) == EnabledChannels(config)
    ensures forall i :: 0 <= i < |DailyAttempts(message, traffic + "GB", config, transport)| ==>
      var d := DailyAttempts(message, traffic + "GB", config, transport)[i].delivery;
      && SplitLines(d.body) == lines
      && (d.channel == Email ==> d.title == Some(Title(config)))
      && (d.channel in {Webhook, Qywx} ==> d.title == Some("已使用" + traffic + "GB - " + Title(config)))
      && (d.channel in {Bark, Telegram} ==> d.title == None)
  {
    DailyTitles(message, traffic + "GB", config, transport);
    AttemptedChannels(config, message, Title(config), DailyTitle(traffic + "GB", config), transport);
    assert "已使用" + (traffic + "GB") + " - " + Title(config) == "已使用" + traffic + "GB - " + Title(config);
  }

  /** The outcomes up to and including the first abort. */
  function UpToAbort(outcomes: seq<DigestOutcome>): seq<DigestOutcome> {
    if outcomes == [] then []
    else if outcomes[0] == Aborted then [Aborted]
    else [outcomes[0]] + UpToAbort(outcomes[1..])
  }

  /** A prefix of the outcomes is kept; an abort can only be its last element,
      and only an abort cuts the outcomes short. */
  lemma {:induction false} UpToAbortPrefix(outcomes: seq<DigestOutcome>)
    ensures var kept := UpToAbort(outcomes);
      && |kept| <= |outcomes|
      && kept == outcomes[..|kept|]
      && (forall k :: 0 <= k < |kept| - 1 ==> kept[k] != Aborted)
      && (|kept| < |outcomes| ==> kept != [] && kept[|kept| - 1] == Aborted)
  {
    if outcomes != [] && outcomes[0] != Aborted {
      var rest := UpToAbort(outcomes[1..]);
      UpToAbortPrefix(outcomes[1..]);
      assert UpToAbort(outcomes) == [outcomes[0]] + rest;
      assert outcomes[1..][..|rest|] == outcomes[1..|rest| + 1];
    }
  }

  /** Each account's own step, in order. */
  function DigestSteps(accounts: seq<Account>, remotes: seq<DailyRemote>, config: NotificationConfig): seq<DigestOutcome>
    requires |accounts| == |remotes|
  {
    seq(|accounts|, k requires 0 <= k < |accounts| => DigestStep(accounts[k], remotes[k], config))
  }

  /** The outcomes of the accounts in order, up to and including the first abort. */
  function DigestRun(accounts: seq<Account>, remotes: seq<DailyRemote>, config: NotificationConfig): seq<DigestOutcome>
    requires |accounts| == |remotes|
  {
    UpToAbort(DigestSteps(accounts, remotes, config))
  }

  /** The run covers the accounts in order, each by its own step. */
  lemma DigestRunSteps(accounts: seq<Account>, remotes: seq<DailyRemote>, config: NotificationConfig)
    requires |accounts| == |remotes|
    ensures var run := DigestRun(accounts, remotes, config);
      && |run| <= |accounts|
      && (forall k :: 0 <= k < |run| ==> run[k] == DigestStep(accounts[k], remotes[k], config))
  {
    var steps := DigestSteps(accounts, remotes, config);
    UpToAbortPrefix(steps);
    var run := UpToAbort(steps);
    forall k | 0 <= k < |run| ensures run[k] == DigestStep(accounts[k], remotes[k], config) {
      assert run[k] == steps[..|run|][k] == steps[k];
    }
  }

  /** Only an abort stops the run, and only its last outcome can be one. */
  lemma DigestRunStops(accounts: seq<Account>, remotes: seq<DailyRemote>, config: NotificationConfig)
    requires |accounts| == |remotes|
    ensures var run := DigestRun(accounts, remotes, config);
      && (forall k :: 0 <= k < |run| - 1 ==> run[k] != Aborted)
      && (|run| < |accounts| ==> run != [] && run[|run| - 1] == Aborted)
  {
    UpToAbortPrefix(DigestSteps(accounts, remotes, config));
  }

  /** An exception inside the `try` does not stop the job: every account before
      which no account aborted is processed. */
  lemma DigestRunReaches(accounts: seq<Account>, remotes: seq<DailyRemote>, config: NotificationConfig, k: nat)
    requires |accounts| == |remotes| && k < |accounts|
    requires forall j :: 0 <= j < k ==> DigestStep(accounts[j], remotes[j], config) != Aborted
    ensures k < |DigestRun(accounts, remotes, config)|
    ensures DigestRun(accounts, remotes, config)[k] == DigestStep(accounts[k], remotes[k], config)
  {
    DigestRunSteps(accounts, remotes, config);
    DigestRunStops(accounts, remotes, config);
  }

  /** The loop body for one account; `continue` is an early return. */
  method DigestAccount(a: Account, r: DailyRemote, config: NotificationConfig) returns (outcome: DigestOutcome)
    ensures outcome == DigestStep(a, r, config)
  {
    if !a.enableNotification.GetOr(true) {
      outcome := if a.accountName.None? then Aborted else Skipped;
      return;
    }
    if a.onlyNotifyOnToggle.GetOr(false) {
      outcome := if a.accountName.None? then Aborted else Skipped;
      return;
    }
    var err := Validate(a, r.instances);
    if err.Some? {
      var attempts, _ := SendNotification(ErrorNotice(err.value), config, r.transport);
      return Invalid(attempts);
    }
    var traffic := GetTraffic(r.traffic);
    var usage := UsageHundredths(Bytes(traffic), a.maxTraffic);
    if usage.None? {
      return Raised(ZeroQuotaMessage(traffic));
    }
    var details := InstanceDetails(r.details);
    var isEnabled := IsRuleEnabled(r.group);
    if !isEnabled {
      return Suppressed;
    }
    var expiry := r.formatExpiry(details.expiry).GetOr(details.expiry);
    if a.accountName.None? {
      return Raised("'accountName'");
    }
    var message := DigestMessage(a.accountName.value, a, details, usage.value, traffic, RegionName(a.regionId), expiry);
    var attempts, _ := SendDailyMessage(message, TrafficText(traffic) + "GB", config, r.transport);
    outcome := Digest(attempts);
  }

  /** `send_daily_notification`: the accounts in order, stopping only on an abort. */
  method SendDailyNotification(accounts: seq<Account>, remotes: seq<DailyRemote>, config: NotificationConfig)
    returns (outcomes: seq<DigestOutcome>)
    requires |accounts| == |remotes|
    ensures outcomes == DigestRun(accounts, remotes, config)
  {
    outcomes := [];
    var i := 0;
    while i < |accounts|
      invariant 0 <= i <= |accounts|
      invariant DigestRun(accounts, remotes, config) == outcomes + UpToAbort(DigestSteps(accounts, remotes, config)[i..])
    {
      var outcome := DigestAccount(accounts[i], remotes[i], config);
      ghost var steps := DigestSteps(accounts, remotes, config);
      assert steps[i..][0] == outcome;
      assert steps[i..][1..] == steps[i + 1..];
      outcomes := outcomes + [outcome];
      if outcome == Aborted {
        return;
      }
      i := i + 1;
    }
    assert DigestSteps(accounts, remotes, config)[i..] == [];
  }
}
