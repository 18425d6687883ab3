/** The resource list: its fetch state machine, the icon classifier over
    resource types, the status colours and the derived views. */
module ResourceList {
  import opened Common
  import opened Strings
  import opened Azure

  // ---------------------------------------------------------------------------
  // getResourceIcon

  datatype Icon = DatabaseIcon | NetworkIcon | HardDriveIcon | MessageSquareIcon | ShieldIcon | CloudIcon

  /** `getResourceIcon`: case-sensitive substring tests, tried in a fixed order. */
  function GetResourceIcon(resourceType: string): (icon: Icon)
    ensures Includes(resourceType, "Sql") || Includes(resourceType, "Database") ==> icon == DatabaseIcon
    ensures icon == CloudIcon <==> forall needle <- AllNeedles :: !Includes(resourceType, needle)
  {
    if Includes(resourceType, "Sql") || Includes(resourceType, "Database") then DatabaseIcon
    else if Includes(resourceType, "Network") || Includes(resourceType, "Gateway") then NetworkIcon
    else if Includes(resourceType, "Storage") then HardDriveIcon
    else if Includes(resourceType, "ServiceBus") then MessageSquareIcon
    else if Includes(resourceType, "Security") then ShieldIcon
    else CloudIcon
  }


  /** A classification rule: the icon for types containing any of the needles. */
  datatype Rule = Rule(needles: seq<string>, icon: Icon)

  /** Every substring the classifier looks for: the needles of all rules. */
  const AllNeedles: seq<string> :=
    IconRules[0].needles + IconRules[1].needles + IconRules[2].needles + IconRules[3].needles + IconRules[4].needles

  /** The rules as a table, highest priority first. */
  const IconRules: seq<Rule> := [
    Rule(["Sql", "Database"], DatabaseIcon),
    Rule(["Network", "Gateway"], NetworkIcon),
    Rule(["Storage"], HardDriveIcon),
    Rule(["ServiceBus"], MessageSquareIcon),
    Rule(["Security"], ShieldIcon)
  ]

  /** A rule applies when the type contains one of its needles. */
  predicate Applies(rule: Rule, resourceType: string)
  {
    IncludesAny(resourceType, rule.needles)
  }

  /** The type contains one of `needles`. */
  predicate IncludesAny(resourceType: string, needles: seq<string>)
  {
    needles != [] && (Includes(resourceType, needles[0]) || IncludesAny(resourceType, needles[1..]))
  }

  /** The icon of the first applicable rule in `rules`, or the cloud icon. */
  function FirstApplicable(rules: seq<Rule>, resourceType: string): (icon: Icon)
    ensures icon == CloudIcon || exists rule <- rules :: Applies(rule, resourceType) && rule.icon == icon
    ensures (forall rule <- rules :: !Applies(rule, resourceType)) ==> icon == CloudIcon
    ensures forall k :: 0 <= k < |rules| && Applies(rules[k], resourceType) ==>
      (exists j :: 0 <= j < k && Applies(rules[j], resourceType)) || icon == rules[k].icon
  {
    if rules == [] then CloudIcon
    else if Applies(rules[0], resourceType) then rules[0].icon
    else FirstApplicable(rules[1..], resourceType)
  }

  /** The classifier is the first applicable rule of the priority table: a type
      matching several rules gets the earliest rule's icon. */
  lemma {:induction false} IconFollowsRuleTable(resourceType: string)
    ensures GetResourceIcon(resourceType) == FirstApplicable(IconRules, resourceType)
  {
    var t := resourceType;
    var sql, net, storage, bus, security := IconRules[0], IconRules[1], IconRules[2], IconRules[3], IconRules[4];
    assert IconRules == [sql, net, storage, bus, security];
    IncludesAnyOfTwo(t, "Sql", "Database");
    IncludesAnyOfTwo(t, "Network", "Gateway");
    IncludesAnyOfOne(t, "Storage");
    IncludesAnyOfOne(t, "ServiceBus");
    IncludesAnyOfOne(t, "Security");
    FirstApplicableCons(security, [], t);
    FirstApplicableCons(bus, [security], t);
    FirstApplicableCons(storage, [bus, security], t);
    FirstApplicableCons(net, [storage, bus, security], t);
    FirstApplicableCons(sql, [net, storage, bus, security], t);
  }

  lemma FirstApplicableCons(rule: Rule, rest: seq<Rule>, t: string)
    ensures FirstApplicable([rule] + rest, t) == if Applies(rule, t) then rule.icon else FirstApplicable(rest, t)
  {
    assert ([rule] + rest)[1..] == rest;
  }

  lemma IncludesAnyOfOne(t: string, a: string)
    ensures IncludesAny(t, [a]) <==> Includes(t, a)
  {
    assert [a][1..] == [];
  }

  lemma IncludesAnyOfTwo(t: string, a: string, b: string)
    ensures IncludesAny(t, [a, b]) <==> Includes(t, a) || Includes(t, b)
  {
    assert [a, b][1..] == [b];
    IncludesAnyOfOne(t, b);
  }

  /** A type naming both a database and a network gets the database icon. */
  lemma SqlBeatsNetwork(resourceType: string)
    requires Includes(resourceType, "Sql") && Includes(resourceType, "Network")
    ensures GetResourceIcon(resourceType) == DatabaseIcon
  {
  }

  // ---------------------------------------------------------------------------
  // getStatusColor

  const HealthyClass := "text-green-600 bg-green-50"
  const WarningClass := "text-yellow-600 bg-yellow-50"
  const ErrorClass := "text-red-600 bg-red-50"
  const DefaultClass := "text-gray-600 bg-gray-50"

  /** `getStatusColor`: the three known statuses get their own class, every
      other string the gray default. */
  function GetStatusColor(status: string): (cls: string)
    ensures cls == DefaultClass <==> status !in {"healthy", "warning", "error"}
    ensures cls in {HealthyClass, WarningClass, ErrorClass, DefaultClass}
  {
    match status
    case "healthy" => HealthyClass
    case "warning" => WarningClass
    case "error" => ErrorClass
    case _ => DefaultClass
  }

  /** Distinct known statuses get distinct classes, and `unknown` gets the default. */
  lemma StatusColorsDistinct(a: Status, b: Status)
    requires a != Unknown && b != Unknown && a != b
    ensures GetStatusColor(StatusName(a)) != GetStatusColor(StatusName(b))
    ensures GetStatusColor(StatusName(Unknown)) == DefaultClass
  {
  }

  // ---------------------------------------------------------------------------
  // Derived views

  /** `resource.type.split('/').pop()`: the type shown under the resource's
      name, the text after the last '/', or the whole type when it has none. */
  function TypeSuffix(resourceType: string): (shown: string)
    ensures '/' !in shown
    ensures |shown| <= |resourceType| && shown == resourceType[|resourceType| - |shown|..]
    ensures |shown| < |resourceType| ==> resourceType[|resourceType| - |shown| - 1] == '/'
    ensures '/' !in resourceType ==> shown == resourceType
  {
    if resourceType == [] then []
    else
      var n := |resourceType| - 1;
      if resourceType[n] == '/' then []
      else
        assert '/' !in resourceType ==> '/' !in resourceType[..n];
        TypeSuffix(resourceType[..n]) + [resourceType[n]]
  }

  /** The status of each resource, position by position. */
  function Statuses(resources: seq<AzureResource>): (r: seq<Status>)
    ensures |r| == |resources| && forall i :: 0 <= i < |r| ==> r[i] == resources[i].status
  {
    if resources == [] then [] else [resources[0].status] + Statuses(resources[1..])
  }

  /** `resources.filter(r => r.status === 'healthy').length`: how many
      resources have the status `healthy`. */
  function HealthyCount(resources: seq<AzureResource>): (n: nat)
    ensures n <= |resources|
    ensures n == 0 <==> forall res <- resources :: res.status != Healthy
    ensures n == multiset(Statuses(resources))[Healthy]
  {
    if resources == [] then 0
    else (if resources[0].status == Healthy then 1 else 0) + HealthyCount(resources[1..])
  }

  /** Two of the three sample resources are healthy. */
  lemma MockHealthyCount()
    ensures HealthyCount(MockResources()) == 2
  {
    var r := MockResources();
    assert r[1..][1..][1..] == [];
  }

  // ---------------------------------------------------------------------------
  // The component's state

  const FetchFailedMessage := "Failed to fetch Azure resources"

  /** `AzureResourceList`: its `resources`, `loading` and `error` state. The
      selected subscription is a prop that may change while the list stays
      mounted, so each fetch is given the current one. */
  class AzureResourceList {
    var resources: seq<AzureResource>
    var loading: bool
    var error: Option<string>

    constructor ()
      ensures resources == [] && !loading && error == None
    {
      resources := [];
      loading := false;
      error := None;
    }

    /** The part of `fetchResources` before the await: nothing happens without a
        subscription; otherwise loading starts and the error is cleared, and the
        previous list stays shown. */
    method StartFetch(subscriptionId: Option<string>) returns (started: bool)
      modifies this
      ensures started == Truthy(subscriptionId)
      ensures resources == old(resources)
      ensures started ==> loading && error == None
      ensures !started ==> loading == old(loading) && error == old(error)
    {
      if !Truthy(subscriptionId) {
        return false;
      }
      loading := true;
      error := None;
      return true;
    }

    /** The part of `fetchResources` after the await: the try, catch and finally
        branches for the settled `outcome`. */
    method SettleFetch(outcome: Result<seq<AzureResource>, string>)
      modifies this
      ensures !loading
      ensures outcome.Success? ==> resources == outcome.value && error == old(error)
      ensures outcome.Failure? ==> resources == old(resources) && error == Some(FetchFailedMessage)
    {
      match outcome {
        case Success(list) =>
          resources := list;
        case Failure(_) =>
          error := Some(FetchFailedMessage);
      }
      loading := false;
    }

    /** `fetchResources` against the service for the current `subscriptionId`:
        with a subscription it replaces the list with what `getResources`
        returns from the service's client (created for this subscription only
        when the service has none yet), which never rejects, so the error
        stays cleared. */
    method FetchResources(subscriptionId: Option<string>, service: AzureService,
                          pager: Client -> Listing<SdkResource>, draws: nat -> Draw)
      modifies this, service
      ensures !Truthy(subscriptionId) ==>
        resources == old(resources) && loading == old(loading) && error == old(error)
        && service.resourceClient == old(service.resourceClient)
      ensures Truthy(subscriptionId) ==>
        service.resourceClient ==
          if old(service.resourceClient).Some? then old(service.resourceClient) else Some(Client(subscriptionId.value))
      ensures Truthy(subscriptionId) ==>
        !loading && error == None
        && service.resourceClient.Some?
        && resources == ListResources(pager(service.resourceClient.value), draws)
      ensures forall res <- resources :: res in old(resources) || WellFormed(res)
    {
      var started := StartFetch(subscriptionId);
      if started {
        var list := service.GetResources(subscriptionId.value, pager, draws);
        SettleFetch(Success(list));
      }
    }

    /** The "Healthy" figure, never above the "Total Resources" figure `|resources|`. */
    function HealthyResources(): (n: nat)
      reads this
      ensures n <= |resources|
      ensures n == multiset(Statuses(resources))[Healthy]
    {
      HealthyCount(resources)
    }
  }
}
