# aliyun-cdt-check in Dafny

A model of the two jobs of aliyun-cdt-check. Both watch the CDT (Cloud Data Transfer) traffic of Alibaba Cloud ECS accounts.

- `check` (app/aliyun_cdt_check.py): for every configured account it validates the credentials and the instance. It computes the total traffic that `ListCdtInternetTraffic` reports as a percentage of the quota. It then reconciles one security-group rule, the allow-all ingress rule from 0.0.0.0/0: the rule is revoked at 95% or more and authorized again below 95%. A notification goes out on every change. One log entry is written for each account that passes validation and has a non-zero quota; an account that fails either gets an error notification instead.
- `send_daily_notification` (app/dailyjob.py): sends a daily digest for every account that has not opted out, passes validation, has a non-zero quota and an `accountName`, and whose rule is still enabled. An account that fails validation gets the error notification instead; a zero quota or a missing `accountName` raises inside the `try` and the job only prints it. The digest carries a 20-cell progress bar.

Every Alibaba Cloud API call is an oracle. It is a `Result` value given with the account: the answer body, or the text of the exception. Every notification transport (mail, Bark, Telegram, webhook, WeCom) is a function from what it is handed to `True`, `False` or an exception text. Percentages are whole hundredths of a percent (`9612` is 96.12%). Python's `round` becomes round-half-to-even on an exact fraction.

Modules, one file each:

- `Wrappers`: `Option` and `Result`.
- `Text`: Python's `str` of integers and of two-decimal floats, ASCII `upper`, and messages made of lines.
- `Usage`: `get_traffic`, the usage formula, `round`, and `get_region_name`.
- `SecurityGroup`: `is_security_group_rule_enabled`.
- `Accounts`: the account record, `validate_credentials_and_instance` and `get_instance_details`.
- `Notify`: `send_notification`, covering the templates, the ordered fanout and the aggregate result.
- `Check`:
  - the decision and the per-account step specification;
  - class `CheckRun`, which holds each account's rule flag, `logs`, the notifications sent and the mutating calls issued;
  - `CheckRun.Check`, the loop of `check`.
- `Daily`: the progress bar, the digest template, the daily fanout with its titles, the gates, and the loop of `send_daily_notification`.

Three behaviours of the code are easy to misread; the model follows the code in each:

- A zero `maxTraffic` is not rejected up front. `traffic / account['maxTraffic']` raises ZeroDivisionError inside the `try`.
  - In `check`, the handler sends an error notification and appends no log entry. The text is "division by zero" after a failed traffic fetch, because the fetch returns the integer 0. Otherwise it is "float division by zero".
  - In the daily job the exception is only printed.
- The 19-cell cap on the progress bar tests the rounded percentage (`int(progress_val) > 95`), not the usage itself. A usage from 94.51% to 95.49% rounds to 95 and gets `round(0.5 + 19) = 20` cells, so the bar is full before 100%. A usage of 95.50% rounds to 96 and gets 19 cells, and one of 94.50% rounds to 94 and gets 19 as well.
- Not every error spares the rest of the run. In the daily job, an account skipped by `enableNotification` or `onlyNotifyOnToggle` that has no `accountName` raises a KeyError from the skip message, which is outside the `try`. That ends the whole job, and the model's `Aborted` outcome stands for it.

## Model

| member | source | states |
|---|---|---|
| `Text.NatToString` | app/aliyun_cdt_check.py:397 | `str(n)` of a quota is non-empty decimal digits with no leading zero, one digit exactly below 10 |
| `Text.NatToStringRoundTrip` | app/aliyun_cdt_check.py:397 | reading the quota text back gives the quota |
| `Text.NatToStringInjective` | app/aliyun_cdt_check.py:397 | different quotas print differently |
| `Text.FormatHundredthsRoundTrip` | app/aliyun_cdt_check.py:399 | the `使用百分比` text of a two-decimal float (`96.0`, `0.05`) parses back to the same hundredths |
| `Text.UpperIsAll` | app/aliyun_cdt_check.py:140 | `.upper() == 'ALL'` holds exactly for the eight letter-case spellings of "all" |
| `Text.Repeat` | app/dailyjob.py:117 | `c * n` has length `n` and every character is `c` |
| `Text.SplitJoinLines` | app/aliyun_cdt_check.py:233-247 | a message assembled from newline-terminated lines splits back into those lines when none holds a newline |
| `Usage.RoundHalfEvenSpec` | app/aliyun_cdt_check.py:385 | Python's `round` of `n / d` is a nearest integer, and an even one on a tie |
| `Usage.RoundHalfEvenUnique` | app/aliyun_cdt_check.py:385 | no other integer is nearest and even on a tie, so those two facts define `round` |
| `Usage.RoundHalfEvenMonotone` | app/aliyun_cdt_check.py:385 | `round` never decreases as the fraction grows |
| `Usage.SumTrafficAppend` | app/aliyun_cdt_check.py:109 | the traffic sum over two concatenated lists is the sum of their sums |
| `Usage.SumTrafficCounts` | app/aliyun_cdt_check.py:109 | each present `Traffic` value is part of the total and an absent one adds 0 |
| `Usage.GetTraffic` | app/aliyun_cdt_check.py:103-113 | a failed query reads as a failure (the integer 0), a missing `TrafficDetails` as 0 bytes, otherwise the byte sum |
| `Usage.UsageHundredths` | app/aliyun_cdt_check.py:385 | the usage is undefined (ZeroDivisionError) exactly for a zero quota; otherwise it is the hundredths nearest to bytes·100 / (quota·1024³), the even one on a tie |
| `Usage.UsageEndpoints` | app/aliyun_cdt_check.py:385 | no traffic is 0.00% and traffic equal to the quota is 100.00% |
| `Usage.UsageMonotone` | app/aliyun_cdt_check.py:385 | more traffic never shows a smaller percentage |
| `Usage.UsageReachesThreshold` | app/aliyun_cdt_check.py:403-409 | the rounded usage reaches 95% exactly when the traffic is at least 94.995% of the quota |
| `Usage.TrafficText` | app/aliyun_cdt_check.py:398 | `round(traffic, 2)` prints as `0` after a failed fetch, otherwise as a text that parses back to the GB value rounded to hundredths |
| `Usage.LookupFirst` | app/aliyun_cdt_check.py:61 | `dict.get` with a default answers with the entry for the key |
| `Usage.LookupMissing` | app/aliyun_cdt_check.py:61 | `dict.get` answers with the default when no entry has the key |
| `Usage.RegionIdsDistinct` | app/aliyun_cdt_check.py:18-49 | the 29 region ids of `REGION_NAMES` are distinct, so the table is a dictionary |
| `Usage.RegionNamesOneLine` | app/aliyun_cdt_check.py:18-49 | no display name in the table holds a line break |
| `Usage.RegionNamesNotUnknown` | app/aliyun_cdt_check.py:18-49 | no display name in the table reads 未知地区 |
| `Usage.RegionNameKnown` | app/aliyun_cdt_check.py:19-61 | a listed region id shows its `REGION_NAMES` entry |
| `Usage.RegionNameUnknown` | app/aliyun_cdt_check.py:59-61 | any other id shows 未知地区 |
| `Usage.RegionNameUnknownIff` | app/aliyun_cdt_check.py:19-61 | 未知地区 is shown exactly for ids missing from the table |
| `Usage.RegionNameNoNewline` | app/aliyun_cdt_check.py:19-61 | a region name, known or not, fits on one line of a message |
| `SecurityGroup.FindOpenIngress` | app/aliyun_cdt_check.py:139-146 | the scan with early return answers true exactly when some permission is the open-ingress rule |
| `SecurityGroup.IsRuleEnabled` | app/aliyun_cdt_check.py:130-149 | enabled exactly when the query succeeds and lists the rule; a failed query or an empty list reads as disabled |
| `SecurityGroup.OpenIngressProtocol` | app/aliyun_cdt_check.py:140-144 | a permission matches exactly when its protocol is some letter case of "all" and source, policy, NIC type and direction are 0.0.0.0/0, Accept, intranet, ingress |
| `Accounts.DisplayName` | app/aliyun_cdt_check.py:384 | the account name when present, otherwise the first 7 characters of the AccessKeyId (`Prefix`) followed by `***`, and nothing else |
| `Accounts.Prefix` | app/aliyun_cdt_check.py:384 | `s[:n]` is the first `min(n, len(s))` characters |
| `Accounts.InstanceListed` | app/aliyun_cdt_check.py:192 | the only exception the `any(...)` raises is the KeyError `'InstanceId'` |
| `Accounts.InstanceListedSpec` | app/aliyun_cdt_check.py:192 | `any(...)` is true exactly when the id is listed with every earlier entry carrying an id; it raises exactly when an entry without `InstanceId` comes first |
| `Accounts.Validate` | app/aliyun_cdt_check.py:184-204 | validation passes exactly when the query succeeds and lists the instance; otherwise the error record names the account (or ''), the instance and the failure, with 指定的实例ID不存在 for an unlisted instance, the query's exception text for a failed query, and `'InstanceId'` for a listing that raises KeyError |
| `Accounts.InstanceDetails` | app/aliyun_cdt_check.py:207-227 | a failed query gives 查询失败 twice, an empty list the two defaults, otherwise the first instance's expiry and elastic IP (an absent or empty IP shows 无公网 IP 地址) |
| `Notify.EnabledAmongSpec` | app/aliyun_cdt_check.py:253-271 | the channels tried from a list are exactly its enabled ones, in the list's order |
| `Notify.EnabledChannelsSpec` | app/aliyun_cdt_check.py:253-271 | exactly the enabled channels are tried, each once, in the order email, bark, tg, webhook, qywx |
| `Notify.AttemptsOverAt` | app/aliyun_cdt_check.py:253-271 | the i-th result belongs to the i-th channel tried and is that transport's answer |
| `Notify.AttemptedChannels` | app/aliyun_cdt_check.py:253-271 | the keys of `results` are the enabled channels whatever any transport answers, and each result is that transport's answer to the message |
| `Notify.Fanout` | app/aliyun_cdt_check.py:253-271 | the five `if` blocks produce one attempt per enabled channel, in order |
| `Notify.Offer` | app/aliyun_cdt_check.py:253-254 | one `if` block tries its channel exactly when that channel is enabled and appends its answer |
| `Notify.AllDelivered` | app/aliyun_cdt_check.py:272-275 | the scan of `results` answers true exactly when every result is exactly `True` |
| `Notify.AggregateSpec` | app/aliyun_cdt_check.py:272-275 | the aggregate succeeds vacuously with no channel enabled, and otherwise exactly when every enabled transport answered `True` |
| `Notify.ReportMessage` | app/aliyun_cdt_check.py:233-248 | a record is sent with the error template (opening with the ⚠️ 错误通知 line) exactly when it is an error record; any other opens with its 服务器 line |
| `Notify.ErrorMessageLines` | app/aliyun_cdt_check.py:233-238 | the error message is the warning line, then 服务器, 错误信息 and 实例ID, each on its own line |
| `Notify.UsageMessageLines` | app/aliyun_cdt_check.py:240-248 | the state-change message is the nine labelled fields in template order, the 安全组状态 line last |
| `Notify.SendNotification` | app/aliyun_cdt_check.py:230-275 | the attempts are those of the enabled channels for the record's template and configured title, and the result is `True` exactly when all were `True` |
| `Check.Decide` | app/aliyun_cdt_check.py:409-428 | revoke exactly at 95% or more with the rule enabled, authorize exactly below 95% with it disabled, otherwise nothing |
| `Check.DecideIdempotent` | app/aliyun_cdt_check.py:409-428 | once a mutation takes effect the rule is enabled exactly below 95%, and deciding again from there does nothing |
| `Check.GroupStatus` | app/aliyun_cdt_check.py:413-427 | each of the four `安全组状态` labels is written exactly in its branch |
| `Check.Reached95` | app/aliyun_cdt_check.py:403 | `使用率达到95%` is 是 exactly at 95% or more and 否 exactly below |
| `Check.BaseReport` | app/aliyun_cdt_check.py:394-404 | the log's `使用百分比`, `总流量` and `已使用流量` read back as the usage, the quota and the GB used (0 after a failed fetch) with their units; 是 exactly at 95% or more; `地区` is `get_region_name` of the account's region, 未知地区 exactly for an unlisted one; name, instance, expiry and IP carried over |
| `Check.Step` | app/aliyun_cdt_check.py:379-438 | the rule state changes only together with a mutating call and a notification; an account that sends nothing is logged with 不需要 |
| `Check.StepDecision` | app/aliyun_cdt_check.py:394-430 | for a validated account with a quota: a log entry, its 是/否 mark, and for each of the four branches the call issued, the label, whether a notification goes out, and the rule state after it |
| `Check.StepNotifiesIffMutates` | app/aliyun_cdt_check.py:409-428 | a notification is sent exactly when a mutating call is issued; it carries the finished log record, and `通知发送` is 成功 exactly when every channel answered `True` |
| `Check.StepInvalidSkipped` | app/aliyun_cdt_check.py:379-380 | an account that fails validation gets the validation error notification and no log entry, no mutating call and no rule change |
| `Check.StepZeroQuota` | app/aliyun_cdt_check.py:431-438 | a zero quota sends an error notification naming the division (int or float) and appends no log entry |
| `Check.StepIdempotent` | app/aliyun_cdt_check.py:409-428 | with a truthful query and an effective mutation, the rule ends enabled exactly below 95%, and a second run at the same traffic calls nothing and notifies nothing |
| `Check.StepLogged` | app/aliyun_cdt_check.py:430 | an account appends a log entry exactly when it passes validation and has a non-zero quota |
| `Check.LogsCount` | app/aliyun_cdt_check.py:377-430 | `logs` holds exactly one entry per account that reaches the decision |
| `Check.CheckRun.constructor` | app/aliyun_cdt_check.py:375 | a run starts with empty records over the given rule states |
| `Check.CheckRun.CheckAccount` | app/aliyun_cdt_check.py:379-438 | one loop iteration leaves the account's rule, `logs`, the notifications and the calls as the step specification says, and changes no other account's rule |
| `Check.CheckRun.Reconcile` | app/aliyun_cdt_check.py:394-430 | the decision branch updates the rule, the records and the log entry as the decision specification says |
| `Check.CheckRun.Toggle` | app/aliyun_cdt_check.py:410-425 | a revoke or authorize records its call, sets the rule when it takes effect, sends the finished record, and reports 成功 exactly when every channel answered `True` |
| `Check.CheckRun.Advance` | app/aliyun_cdt_check.py:377-438 | after account `i` the records are those of the first `i + 1` steps, and the rules are those steps' results followed by the untouched later rules |
| `Check.CheckRun.Check` | app/aliyun_cdt_check.py:370-440 | every account is processed in order from the rule states before the run; each rule ends as its step left it, and `logs`, notifications and calls are those of the steps in account order |
| `Daily.ProgressFilled` | app/dailyjob.py:102-114 | the filled count never exceeds the 20 cells |
| `Daily.ProgressEmptyIff` | app/dailyjob.py:107-114 | the bar is empty exactly at zero usage, so any usage fills at least one cell |
| `Daily.ProgressFixedCases` | app/dailyjob.py:107-114 | above 0 and below 1% one cell; a rounded value above 95 short of 100% nineteen cells; 100% or more all twenty |
| `Daily.ProgressScaled` | app/dailyjob.py:114 | in the remaining range the count is the integer nearest to 0.5 + 20·round(usage)/100, the even one on a tie |
| `Daily.ProgressExamples` | app/dailyjob.py:102-114 | 50% fills 10, 10% fills 2, 15% fills 4, 94.51%, 95% and 95.49% fill 20, while 94.50%, 95.5% and 96% fill 19 |
| `Daily.ProgressBar` | app/dailyjob.py:116-117 | the bar has 20 cells: the filled count of ■ followed by □ |
| `Daily.DigestMessageLines` | app/dailyjob.py:125-131 | the digest is its seven lines in order (name and IP, bar and percentage, traffic over quota, region, expiry, instance, 安全组状态: 启用) |
| `Daily.DailyTitles` | app/dailyjob.py:29-50 | every channel gets the digest text; mail gets the configured title, the webhook and WeCom get 已使用{traffic} - {title}, and Bark and Telegram are handed none |
| `Daily.SendDailyMessage` | app/dailyjob.py:26-58 | the attempts are the enabled channels in order with those titles, and the result is `True` exactly when every answer was `True` |
| `Daily.DigestStep` | app/dailyjob.py:67-135 | the two opt-out flags skip (or abort) exactly the accounts they switch off, and a digest only goes out with a quota and the rule enabled |
| `Daily.DigestGate` | app/dailyjob.py:69-99 | a digest goes out exactly when the account has not opted out, passes validation, has a quota, its rule is enabled and it has an `accountName`; the job aborts exactly on an opted-out account without one; the validation error (carrying the error notification of the failed validation) and the suppression by a disabled rule happen exactly in their cases |
| `Daily.DigestContent` | app/dailyjob.py:119-135 | a digest goes to the enabled channels in order; its usage is the hundredths nearest to the traffic over the quota; every body reads back, line by line, name and IP, the bar with that usage, traffic over quota, region name, the reformatted (or raw) expiry, instance id and 安全组状态: 启用; mail carries the configured title, the webhook and WeCom 已使用{traffic}GB - {title}, Bark and Telegram are handed none |
| `Daily.UpToAbortPrefix` | app/dailyjob.py:67-76 | the job keeps a prefix of the accounts' outcomes; an abort can only be the last, and only an abort cuts the list short |
| `Daily.DigestRunSteps` | app/dailyjob.py:67-138 | the job's outcomes are the accounts' own steps, in order |
| `Daily.DigestRunStops` | app/dailyjob.py:67-76 | only an abort stops the job early, and it is always the last outcome |
| `Daily.DigestRunReaches` | app/dailyjob.py:82-138 | an exception inside the `try` does not stop the job: every account not preceded by an abort is processed |
| `Daily.DigestAccount` | app/dailyjob.py:68-138 | the loop body with its `continue` gates produces the account's specified outcome |
| `Daily.SendDailyNotification` | app/dailyjob.py:61-138 | the loop produces the job's outcomes, stopping only at an abort |

## Left out

- SDK client creation and `api_call` (app/aliyun_cdt_check.py:64-100) are calls into the Alibaba Cloud library. Each query's answer or exception is an input of the model instead.
- `get_security_group_id` is left out. Its result only flows into the rule query and the revoke and authorize calls, which are oracles here. It is also not modelled whether a revoke or authorize takes effect, which is the input `mutationApplied`, and their printed messages are left out.
- The bodies of the five transports (SMTP, HTTP, URL quoting) are not modelled. Each transport is a function from its channel, title and message to `True`, `False` or an exception text. The channel-specific configuration keys they read are left out too.
- `load_config`, `write_log`, the wall-clock timestamp and the JSON rendering of `logs` and of the `results` dictionary are file I/O and serialisation. The model keeps `logs` as records and a failed `通知发送` as the list of attempts.
- All `print` output is left out, except that the daily job's skip message can raise and end the job.
- `datetime.fromisoformat(...).strftime(...)` on the expiry is a library parse. Each daily account has a function that gives the reformatted text, or nothing where the parse raises.
- Floating point is not modelled bit for bit. Traffic and usage are exact fractions rounded half-to-even. Only the float `repr` of a value with at most two decimals is modelled, and exponent notation for very small or very large values is not.
- Quotas are natural numbers. A negative or fractional `maxTraffic` is not modelled.
- `Text.UpperIsAll`: `str.upper` is modelled on ASCII letters only. A non-ASCII protocol string that Python upper-cases to "ALL" is not considered.
- Accounts are kept apart by their position in the configuration: each has its own rule flag in `CheckRun.ruleEnabled`. The code assumes no two configured accounts share an instance or security group; if two did, they would share one remote rule while the model keeps two flags. The decisions are unaffected, because each comes from the account's own rule query; only the bookkeeping of the rule state after the run would differ.
- A missing configuration key (`AccessKeyId`, `instanceId`, `maxTraffic`, `regionId` or a transport's own keys) raises KeyError at places the model does not follow. That includes the handler in `check` reusing a stale or unbound `account_name`. The model takes those keys as present, except `accountName` in the daily job.
- `Daily.DigestContent`, `Notify.ErrorMessageLines`, `Notify.UsageMessageLines`: a message is read back line by line only when the texts the configuration and the remote answers supply (account name, instance id, IP, expiry, error text) hold no line break; with one, Python sends the same text, but its lines are not those of the template.
- The notifications the daily job sends for a validation failure are kept in its `Invalid` outcome. Whether the daily aggregate returned `True` is not kept, because the caller ignores it.
