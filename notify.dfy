/** Notification fanout (`send_notification`) and the message templates. Each
    transport (SMTP mail, Bark, Telegram, the generic webhook, WeCom) is an
    oracle: given what is sent to it, it answers `True`, `False` or the text of
    the exception it caught. */
module Notify {
  import opened Wrappers
  import opened Text

  datatype Channel = Email | Bark | Telegram | Webhook | Qywx

  /** The `Notification` section of the configuration, as far as the fanout reads it. */
  datatype NotificationConfig = NotificationConfig(
    enableEmail: bool,
    enableBark: bool,
    enableTG: bool,
    enableWebhook: bool,
    enableQywx: bool,
    title: Option<string>)

  const DefaultTitle: string := "CDT流量统计"

  /** `notification_config.get('title', 'CDT流量统计')`. */
  function Title(config: NotificationConfig): string {
    config.title.GetOr(DefaultTitle)
  }

  predicate Enabled(config: NotificationConfig, c: Channel) {
    match c
    case Email => config.enableEmail
    case Bark => config.enableBark
    case Telegram => config.enableTG
    case Webhook => config.enableWebhook
    case Qywx => config.enableQywx
  }

  /** Position of a channel in the fixed dispatch order. */
  function Rank(c: Channel): nat {
    match c
    case Email => 0
    case Bark => 1
    case Telegram => 2
    case Webhook => 3
    case Qywx => 4
  }

  /** The dispatch order of `send_notification`. */
  const ChannelOrder: seq<Channel> := [Email, Bark, Telegram, Webhook, Qywx]

  /** The enabled channels among `cs`, in the order of `cs`. */
  function EnabledAmong(cs: seq<Channel>, config: NotificationConfig): seq<Channel> {
    if cs == [] then []
    else EnabledAmong(cs[..|cs| - 1], config) + (if Enabled(config, cs[|cs| - 1]) then [cs[|cs| - 1]] else [])
  }

  /** The channels the fanout attempts: the enabled ones, in dispatch order. */
  function EnabledChannels(config: NotificationConfig): seq<Channel> {
    EnabledAmong(ChannelOrder, config)
  }

  predicate RankIncreasing(cs: seq<Channel>) {
    forall i, j :: 0 <= i < j < |cs| ==> Rank(cs[i]) < Rank(cs[j])
  }

  lemma {:induction false} EnabledAmongSpec(cs: seq<Channel>, config: NotificationConfig)
    requires RankIncreasing(cs)
    ensures forall c :: c in EnabledAmong(cs, config) <==> c in cs && Enabled(config, c)
    ensures RankIncreasing(EnabledAmong(cs, config))
    ensures forall c :: c in EnabledAmong(cs, config) ==> Rank(c) <= Rank(cs[|cs| - 1])
  {
    if cs != [] {
      var init, last := cs[..|cs| - 1], cs[|cs| - 1];
      EnabledAmongSpec(init, config);
      assert forall c :: c in init ==> Rank(c) < Rank(last);
      assert cs == init + [last];
    }
  }

  /** Exactly the enabled channels are attempted, each once, in the fixed order. */
  lemma EnabledChannelsSpec(config: NotificationConfig)
    ensures forall c :: c in EnabledChannels(config) <==> Enabled(config, c)
    ensures forall i, j :: 0 <= i < j < |EnabledChannels(config)| ==>
      Rank(EnabledChannels(config)[i]) < Rank(EnabledChannels(config)[j])
  {
    EnabledAmongSpec(ChannelOrder, config);
  }

  /** What one transport is handed: its channel, the title it is handed (Bark
      and Telegram are handed none; Bark puts its own fixed title in the URL)
      and the message body. */
  datatype Delivery = Delivery(channel: Channel, title: Option<string>, body: string)

  /** A transport's return value: `True`, `False`, or `str(e)` of a caught exception. */
  datatype ChannelResult = Sent | NotSent | Failed(error: string)

  datatype Attempt = Attempt(delivery: Delivery, result: ChannelResult)

  type Transport = Delivery -> ChannelResult

  /** The title each transport receives: mail gets `plain`, the webhook and WeCom
      get `chat` (the daily digest prefixes the traffic there). */
  function TitleFor(c: Channel, plain: string, chat: string): Option<string> {
    match c
    case Email => Some(plain)
    case Bark => None
    case Telegram => None
    case Webhook => Some(chat)
    case Qywx => Some(chat)
  }

  function AttemptOn(c: Channel, body: string, plain: string, chat: string, transport: Transport): Attempt {
    var d := Delivery(c, TitleFor(c, plain, chat), body);
    Attempt(d, transport(d))
  }

  /** One attempt per channel of `cs`, in the order of `cs`. */
  function AttemptsOver(cs: seq<Channel>, body: string, plain: string, chat: string, transport: Transport): seq<Attempt> {
    if cs == [] then []
    else AttemptsOver(cs[..|cs| - 1], body, plain, chat, transport) + [AttemptOn(cs[|cs| - 1], body, plain, chat, transport)]
  }

  lemma {:induction false} AttemptsOverAt(cs: seq<Channel>, body: string, plain: string, chat: string, transport: Transport)
    ensures |AttemptsOver(cs, body, plain, chat, transport)| == |cs|
    ensures forall i :: 0 <= i < |cs| ==>
      AttemptsOver(cs, body, plain, chat, transport)[i] == AttemptOn(cs[i], body, plain, chat, transport)
  {
    if cs != [] {
      AttemptsOverAt(cs[..|cs| - 1], body, plain, chat, transport);
    }
  }

  /** The specification of the fanout: one attempt per enabled channel, in order. */
  function Attempts(config: NotificationConfig, body: string, plain: string, chat: string, transport: Transport): seq<Attempt> {
    AttemptsOver(EnabledChannels(config), body, plain, chat, transport)
  }

  /** Channel of each attempt, as the keys of the `results` dictionary. */
  function ChannelsOf(attempts: seq<Attempt>): seq<Channel> {
    seq(|attempts|, i requires 0 <= i < |attempts| => attempts[i].delivery.channel)
  }

  /** Which channels are attempted does not depend on what any transport answers:
      the keys of `results` are the enabled channels in order, so a failing
      channel never keeps a later one from being tried. */
  lemma AttemptedChannels(config: NotificationConfig, body: string, plain: string, chat: string, transport: Transport)
    ensures ChannelsOf(Attempts(config, body, plain, chat, transport)) == EnabledChannels(config)
    ensures forall i :: 0 <= i < |Attempts(config, body, plain, chat, transport)| ==>
      var a := Attempts(config, body, plain, chat, transport)[i];
      a.delivery.body == body && a.result == transport(a.delivery)
  {
    AttemptsOverAt(EnabledChannels(config), body, plain, chat, transport);
  }

  lemma AttemptsOverSnoc(cs: seq<Channel>, c: Channel, body: string, plain: string, chat: string, transport: Transport)
    ensures AttemptsOver(cs + [c], body, plain, chat, transport)
         == AttemptsOver(cs, body, plain, chat, transport) + [AttemptOn(c, body, plain, chat, transport)]
  {
    assert (cs + [c])[..|cs|] == cs;
  }

  /** The five `if notification_config.get('enable…')` blocks that fill `results`. */
  method Fanout(config: NotificationConfig, body: string, plain: string, chat: string, transport: Transport)
    returns (attempts: seq<Attempt>)
    ensures attempts == Attempts(config, body, plain, chat, transport)
  {
    ghost var tried: seq<Channel> := [];
    attempts := [];
    assert ChannelOrder[..0] == [];
    attempts, tried := Offer(0, config, body, plain, chat, transport, attempts, tried);
    attempts, tried := Offer(1, config, body, plain, chat, transport, attempts, tried);
    attempts, tried := Offer(2, config, body, plain, chat, transport, attempts, tried);
    attempts, tried := Offer(3, config, body, plain, chat, transport, attempts, tried);
    attempts, tried := Offer(4, config, body, plain, chat, transport, attempts, tried);
    assert ChannelOrder[..5] == ChannelOrder;
  }

  /** One of those blocks, for the channel at position `i` of the dispatch order:
      when it is enabled its transport is tried and its answer recorded. */
  method Offer(i: nat, config: NotificationConfig, body: string, plain: string, chat: string, transport: Transport,
               attempts: seq<Attempt>, ghost tried: seq<Channel>)
    returns (attempts': seq<Attempt>, ghost tried': seq<Channel>)
    requires i < |ChannelOrder|
    requires tried == EnabledAmong(ChannelOrder[..i], config)
    requires attempts == AttemptsOver(tried, body, plain, chat, transport)
    ensures tried' == EnabledAmong(ChannelOrder[..i + 1], config)
    ensures attempts' == AttemptsOver(tried', body, plain, chat, transport)
  {
    var c := ChannelOrder[i];
    assert ChannelOrder[..i + 1][..i] == ChannelOrder[..i];
    attempts', tried' := attempts, tried;
    if Enabled(config, c) {
      AttemptsOverSnoc(tried, c, body, plain, chat, transport);
      attempts' := attempts + [AttemptOn(c, body, plain, chat, transport)];
      tried' := tried + [c];
    }
  }

  /** Every attempt answered exactly `True`. */
  predicate AllSent(attempts: seq<Attempt>) {
    forall i :: 0 <= i < |attempts| ==> attempts[i].result == Sent
  }

  /** The final loop over `results.items()`: stop at the first answer that `is not True`. */
  method AllDelivered(attempts: seq<Attempt>) returns (ok: bool)
    ensures ok <==> AllSent(attempts)
  {
    var i := 0;
    while i < |attempts|
      invariant 0 <= i <= |attempts|
      invariant forall j :: 0 <= j < i ==> attempts[j].result == Sent
    {
      if attempts[i].result != Sent {
        return false;
      }
      i := i + 1;
    }
    return true;
  }

  /** With no channel enabled nothing is attempted and the aggregate is vacuously a
      success; otherwise it is a success exactly when no enabled channel failed. */
  lemma AggregateSpec(config: NotificationConfig, body: string, plain: string, chat: string, transport: Transport)
    ensures EnabledChannels(config) == [] ==> AllSent(Attempts(config, body, plain, chat, transport))
    ensures AllSent(Attempts(config, body, plain, chat, transport)) <==>
      forall c :: c in EnabledChannels(config) ==> transport(Delivery(c, TitleFor(c, plain, chat), body)) == Sent
  {
    var cs := EnabledChannels(config);
    var a := Attempts(config, body, plain, chat, transport);
    AttemptsOverAt(cs, body, plain, chat, transport);
    if AllSent(a) {
      forall c | c in cs
        ensures transport(Delivery(c, TitleFor(c, plain, chat), body)) == Sent
      {
        var i :| 0 <= i < |cs| && cs[i] == c;
        assert a[i].result == Sent;
      }
    }
  }

  /** The error record: `服务器`, `实例ID` and `错误信息`. */
  datatype ErrorReport = ErrorReport(server: string, instanceId: string, error: string)

  /** The per-account log record as it stands when the notification is built
      (everything but `通知发送`). */
  datatype UsageReport = UsageReport(
    instanceId: string,
    server: string,
    totalTraffic: string,
    usedTraffic: string,
    usagePercent: string,
    region: string,
    expiry: string,
    publicIp: string,
    reached95: string,
    groupStatus: string)

  datatype Report = ErrorNotice(err: ErrorReport) | UsageNotice(usage: UsageReport)

  /** The lines of the error template. Both callers always put `实例ID` in the
      record, so its line is always present. */
  function ErrorLines(e: ErrorReport): seq<string> {
    ["⚠️ 错误通知", "服务器: " + e.server, "错误信息: " + e.error, "实例ID: " + e.instanceId]
  }

  /** The lines of the state-change template. */
  function UsageLines(u: UsageReport): seq<string> {
    ["服务器: " + u.server, "实例ID: " + u.instanceId, "实例IP: " + u.publicIp, "到期时间: " + u.expiry,
     "CDT总流量: " + u.totalTraffic, "已使用流量: " + u.usedTraffic, "使用百分比: " + u.usagePercent,
     "地区: " + u.region, "安全组状态: " + u.groupStatus]
  }

  /** The message `send_notification` assembles line by line: a record with an
      `错误信息` key gets the error template, any other the state-change one. */
  function ReportMessage(r: Report): (message: string)
    ensures r.ErrorNotice? <==> "⚠️ 错误通知\n" <= message
    ensures r.UsageNotice? ==> "服务器: " + r.usage.server + "\n" <= message
  {
    match r
    case ErrorNotice(e) =>
      var lines := ErrorLines(e);
      assert JoinLines(lines) == lines[0] + "\n" + JoinLines(lines[1..]);
      JoinLines(lines)
    case UsageNotice(u) =>
      var lines := UsageLines(u);
      var first := lines[0] + "\n";
      assert JoinLines(lines) == first + JoinLines(lines[1..]);
      assert JoinLines(lines)[0] == '服' != "⚠️ 错误通知\n"[0];
      JoinLines(lines)
  }

  /** Each field of an error record comes back on its own labelled line. */
  lemma ErrorMessageLines(e: ErrorReport)
    requires NoNewline(e.server) && NoNewline(e.error) && NoNewline(e.instanceId)
    ensures SplitLines(ReportMessage(ErrorNotice(e))) ==
      ["⚠️ 错误通知", "服务器: " + e.server, "错误信息: " + e.error, "实例ID: " + e.instanceId]
  {
    NoNewlineAppend("服务器: ", e.server);
    NoNewlineAppend("错误信息: ", e.error);
    NoNewlineAppend("实例ID: ", e.instanceId);
    SplitJoinLines(ErrorLines(e));
  }

  /** Each field of a state-change record comes back on its own labelled line,
      the security-group status last. */
  lemma UsageMessageLines(u: UsageReport)
    requires NoNewline(u.server) && NoNewline(u.instanceId) && NoNewline(u.publicIp) && NoNewline(u.expiry)
    requires NoNewline(u.totalTraffic) && NoNewline(u.usedTraffic) && NoNewline(u.usagePercent)
    requires NoNewline(u.region) && NoNewline(u.groupStatus)
    ensures SplitLines(ReportMessage(UsageNotice(u))) ==
      ["服务器: " + u.server, "实例ID: " + u.instanceId, "实例IP: " + u.publicIp, "到期时间: " + u.expiry,
       "CDT总流量: " + u.totalTraffic, "已使用流量: " + u.usedTraffic, "使用百分比: " + u.usagePercent,
       "地区: " + u.region, "安全组状态: " + u.groupStatus]
  {
    var lines := UsageLines(u);
    assert forall j :: 0 <= j < |lines| ==> NoNewline(lines[j]) by {
      forall j | 0 <= j < |lines| ensures NoNewline(lines[j]) {
        assert NoNewline("服务器: ") && NoNewline("安全组状态: ");
      }
    }
    SplitJoinLines(lines);
  }

  /** `send_notification`'s return value: `True`, or the failure string that embeds
      the `results` dictionary (kept here as the attempts themselves). */
  datatype FanoutResult = Delivered | DeliveryFailed(results: seq<Attempt>)

  /** The attempts `send_notification` makes for a record. */
  function Notification(r: Report, config: NotificationConfig, transport: Transport): seq<Attempt> {
    Attempts(config, ReportMessage(r), Title(config), Title(config), transport)
  }

  /** `send_notification`: build the message, attempt every enabled channel with
      the configured title, and report success only if every channel said `True`. */
  method SendNotification(r: Report, config: NotificationConfig, transport: Transport)
    returns (attempts: seq<Attempt>, outcome: FanoutResult)
    ensures attempts == Notification(r, config, transport)
    ensures outcome == if AllSent(attempts) then Delivered else DeliveryFailed(attempts)
  {
    var message := ReportMessage(r);
    var title := Title(config);
    attempts := Fanout(config, message, title, title, transport);
    var ok := AllDelivered(attempts);
    outcome := if ok then Delivered else DeliveryFailed(attempts);
  }
}
