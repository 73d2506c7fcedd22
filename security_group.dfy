/** The rule matcher (`is_security_group_rule_enabled`): does the security
    group hold the allow-all ingress rule from 0.0.0.0/0 that the checker toggles? */
module SecurityGroup {
  import opened Wrappers
  import opened Text

  /** One entry of `Permissions.Permission` in the `DescribeSecurityGroupAttribute`
      response; each field may be absent. */
  datatype Permission = Permission(
    ipProtocol: Option<string>,
    sourceCidrIp: Option<string>,
    policy: Option<string>,
    nicType: Option<string>,
    direction: Option<string>)

  /** The `DescribeSecurityGroupAttribute` response body: `Permissions` may be
      absent, and so may its `Permission` list. */
  datatype GroupAttribute = GroupAttribute(permissions: Option<Option<seq<Permission>>>)

  /** The rule the checker revokes and authorizes: every protocol (in any letter
      case), source 0.0.0.0/0, policy Accept, intranet NIC, ingress. */
  predicate IsOpenIngress(p: Permission) {
    && Upper(p.ipProtocol.GetOr("")) == "ALL"
    && p.sourceCidrIp == Some("0.0.0.0/0")
    && p.policy == Some("Accept")
    && p.nicType == Some("intranet")
    && p.direction == Some("ingress")
  }

  /** `result.get('Permissions', {}).get('Permission', [])`. */
  function PermissionList(attribute: GroupAttribute): seq<Permission> {
    match attribute.permissions
    case None => []
    case Some(inner) => inner.GetOr([])
  }

  /** The specification of the matcher: the query succeeded and some listed
      permission is the open-ingress rule. */
  predicate RuleListed(query: Result<GroupAttribute>) {
    query.Ok? && exists i :: 0 <= i < |PermissionList(query.value)| && IsOpenIngress(PermissionList(query.value)[i])
  }

  /** The loop of `is_security_group_rule_enabled`: scan the permissions in order
      and stop at the first open-ingress rule. */
  method FindOpenIngress(permissions: seq<Permission>) returns (found: bool)
    ensures found <==> exists i :: 0 <= i < |permissions| && IsOpenIngress(permissions[i])
  {
    var i := 0;
    while i < |permissions|
      invariant 0 <= i <= |permissions|
      invariant forall j :: 0 <= j < i ==> !IsOpenIngress(permissions[j])
    {
      if IsOpenIngress(permissions[i]) {
        return true;
      }
      i := i + 1;
    }
    return false;
  }

  /** `is_security_group_rule_enabled`: a failed query reads as "disabled", and so
      does a missing or empty permission list. */
  method IsRuleEnabled(query: Result<GroupAttribute>) returns (enabled: bool)
    ensures enabled <==> RuleListed(query)
    ensures query.Err? ==> !enabled
    ensures query.Ok? && PermissionList(query.value) == [] ==> !enabled
  {
    match query {
      case Err(_) =>
        enabled := false;
      case Ok(attribute) =>
        enabled := FindOpenIngress(PermissionList(attribute));
    }
  }

  /** The protocol test accepts exactly the spellings "all", "ALL", "All", ...,
      and nothing else (for example "tcp" or "allx"). */
  lemma OpenIngressProtocol(p: Permission)
    ensures IsOpenIngress(p) <==>
      && p.ipProtocol.Some? && |p.ipProtocol.value| == 3
      && p.ipProtocol.value[0] in {'a', 'A'}
      && p.ipProtocol.value[1] in {'l', 'L'}
      && p.ipProtocol.value[2] in {'l', 'L'}
      && p.sourceCidrIp == Some("0.0.0.0/0") && p.policy == Some("Accept")
      && p.nicType == Some("intranet") && p.direction == Some("ingress")
  {
    UpperIsAll(p.ipProtocol.GetOr(""));
  }
}
