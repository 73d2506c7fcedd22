/** Accounts and the per-account queries the checker runs before deciding
    anything: the validation gate (`validate_credentials_and_instance`) and the
    instance details (`get_instance_details`). */
module Accounts {
  import opened Wrappers
  import opened Notify

  /** One entry of `Accounts` in the configuration. `accountName` and the two
      notification switches may be absent; the other keys are taken as present. */
  datatype Account = Account(
    accountName: Option<string>,
    accessKeyId: string,
    regionId: string,
    instanceId: string,
    maxTraffic: nat,
    enableNotification: Option<bool>,
    onlyNotifyOnToggle: Option<bool>)

  /** `account.get('accountName', account['AccessKeyId'][:7] + '***')`. */
  function DisplayName(a: Account): (name: string)
    ensures a.accountName.Some? ==> name == a.accountName.value
    ensures a.accountName.None? ==> |name| == |Prefix(a.accessKeyId, 7)| + 3 && name[|name| - 3..] == "***"
    ensures a.accountName.None? ==> name[..|name| - 3] == Prefix(a.accessKeyId, 7)
  {
    match a.accountName
    case Some(n) => n
    case None => Prefix(a.accessKeyId, 7) + "***"
  }

  /** Python's `s[:n]`. */
  function Prefix(s: string, n: nat): (p: string)
    ensures |p| == if |s| < n then |s| else n
    ensures p == s[..|p|]
  {
    if |s| <= n then s else s[..n]
  }

  /** An entry of `Instances.Instance` in a `DescribeInstances` answer; `InstanceId` may be absent. */
  datatype Instance = Instance(instanceId: Option<string>)

  /** `result.get('Instances', {}).get('Instance', [])` for a body whose `Instances`
      key and whose `Instance` key may each be absent. */
  function InstanceList(body: Option<Option<seq<Instance>>>): seq<Instance> {
    match body
    case None => []
    case Some(inner) => inner.GetOr([])
  }

  /** `any(inst['InstanceId'] == id for inst in instances)`: it stops at the first
      match, and an entry without `InstanceId` reached before any match raises
      KeyError, whose text is `'InstanceId'`. */
  function InstanceListed(instances: seq<Instance>, id: string): (listed: Result<bool>)
    ensures listed.Err? ==> listed.message == "'InstanceId'"
  {
    if instances == [] then Ok(false)
    else match instances[0].instanceId
      case None => Err("'InstanceId'")
      case Some(x) => if x == id then Ok(true) else InstanceListed(instances[1..], id)
  }

  /** The entries before `k` all carry an `InstanceId` and none of them is `id`. */
  predicate ScannedPast(instances: seq<Instance>, id: string, k: nat)
    requires k <= |instances|
  {
    forall j :: 0 <= j < k ==> instances[j].instanceId.Some? && instances[j].instanceId.value != id
  }

  /** The search succeeds exactly when some entry is `id` and every entry before
      it has an id; it raises exactly when an entry without an id comes first. */
  lemma {:induction false} InstanceListedSpec(instances: seq<Instance>, id: string)
    ensures InstanceListed(instances, id) == Ok(true) <==>
      exists k :: 0 <= k < |instances| && ScannedPast(instances, id, k) && instances[k].instanceId == Some(id)
    ensures InstanceListed(instances, id) == Ok(false) <==> ScannedPast(instances, id, |instances|)
    ensures InstanceListed(instances, id).Err? <==>
      exists k :: 0 <= k < |instances| && ScannedPast(instances, id, k) && instances[k].instanceId.None?
  {
    if instances != [] {
      var rest := instances[1..];
      InstanceListedSpec(rest, id);
      // shifting an index of `rest` by one gives an index of `instances`
      forall k | 0 < k <= |instances|
        ensures ScannedPast(instances, id, k) <==>
          ScannedPast(instances, id, 1) && ScannedPast(rest, id, k - 1)
      {
        if ScannedPast(instances, id, 1) && ScannedPast(rest, id, k - 1) {
          forall j | 0 <= j < k
            ensures instances[j].instanceId.Some? && instances[j].instanceId.value != id
          {
            if j > 0 { assert instances[j] == rest[j - 1]; }
          }
        }
      }
      if InstanceListed(instances, id) == Ok(true) && instances[0].instanceId != Some(id) {
        var k :| 0 <= k < |rest| && ScannedPast(rest, id, k) && rest[k].instanceId == Some(id);
        assert ScannedPast(instances, id, k + 1) && instances[k + 1] == rest[k];
      }
      if InstanceListed(instances, id).Err? && instances[0].instanceId.Some? {
        var k :| 0 <= k < |rest| && ScannedPast(rest, id, k) && rest[k].instanceId.None?;
        assert ScannedPast(instances, id, k + 1) && instances[k + 1] == rest[k];
      }
      assert ScannedPast(instances, id, 0);
    }
  }

  /** `validate_credentials_and_instance`: `None` when the instance is listed for
      the account's credentials and region; otherwise the error record that is
      sent (`服务器` falls back to the empty string here). */
  function Validate(a: Account, response: Result<Option<Option<seq<Instance>>>>): (err: Option<ErrorReport>)
    ensures err.None? <==> response.Ok? && InstanceListed(InstanceList(response.value), a.instanceId) == Ok(true)
    ensures err.Some? ==> err.value.server == a.accountName.GetOr("") && err.value.instanceId == a.instanceId
    ensures response.Err? ==> err == Some(ErrorReport(a.accountName.GetOr(""), a.instanceId, response.message))
    ensures response.Ok? && InstanceListed(InstanceList(response.value), a.instanceId) == Ok(false) ==>
      err.Some? && err.value.error == "指定的实例ID不存在: " + a.instanceId
    ensures response.Ok? && InstanceListed(InstanceList(response.value), a.instanceId).Err? ==>
      err.Some? && err.value.error == "'InstanceId'"
  {
    var name := a.accountName.GetOr("");
    match response
    case Err(e) => Some(ErrorReport(name, a.instanceId, e))
    case Ok(body) =>
      match InstanceListed(InstanceList(body), a.instanceId)
      case Ok(true) => None
      case Ok(false) => Some(ErrorReport(name, a.instanceId, "指定的实例ID不存在: " + a.instanceId))
      case Err(e) => Some(ErrorReport(name, a.instanceId, e))
  }

  /** An entry of `Instances.Instance` in the details query: `ExpiredTime` and
      `EipAddress.IpAddress` may be absent. */
  datatype InstanceDetail = InstanceDetail(expiredTime: Option<string>, eipAddress: Option<string>)

  /** `到期时间` and `公网IP地址` as `get_instance_details` reports them. */
  datatype Details = Details(expiry: string, publicIp: string)

  const NoExpiry: string := "无到期时间"
  const NoPublicIp: string := "无公网 IP 地址"
  const QueryFailed: string := "查询失败"

  /** `get_instance_details`: only the first listed instance is read; an absent
      or empty elastic IP shows as 无公网 IP 地址; a failed query shows 查询失败 twice. */
  function InstanceDetails(response: Result<Option<Option<seq<InstanceDetail>>>>): (d: Details)
    ensures response.Err? ==> d == Details(QueryFailed, QueryFailed)
    ensures response.Ok? && |DetailList(response.value)| == 0 ==> d == Details(NoExpiry, NoPublicIp)
    ensures response.Ok? && |DetailList(response.value)| > 0 ==>
      var first := DetailList(response.value)[0];
      && d.expiry == first.expiredTime.GetOr(NoExpiry)
      && (d.publicIp == NoPublicIp <==> first.eipAddress.None? || first.eipAddress.value in {"", NoPublicIp})
      && (d.publicIp != NoPublicIp ==> Some(d.publicIp) == first.eipAddress)
  {
    match response
    case Err(_) => Details(QueryFailed, QueryFailed)
    case Ok(body) =>
      var instances := DetailList(body);
      if instances == [] then Details(NoExpiry, NoPublicIp)
      else
        var first := instances[0];
        var ip := if first.eipAddress.Some? && first.eipAddress.value != "" then first.eipAddress.value else NoPublicIp;
        Details(first.expiredTime.GetOr(NoExpiry), ip)
  }

  function DetailList(body: Option<Option<seq<InstanceDetail>>>): seq<InstanceDetail> {
    match body
    case None => []
    case Some(inner) => inner.GetOr([])
  }
}
