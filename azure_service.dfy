/** The Azure service: it turns the resource-management SDK's records into
    `AzureResource` values, parses the resource group out of a resource id,
    and falls back to fixed sample data when listing fails. */
module Azure {
  import opened Common
  import opened Strings

  datatype Status = Healthy | Warning | Error | Unknown

  /** The status as the string the UI receives. */
  function StatusName(s: Status): string
  {
    match s
    case Healthy => "healthy"
    case Warning => "warning"
    case Error => "error"
    case Unknown => "unknown"
  }

  /** One resource as the dashboard shows it. */
  datatype AzureResource = AzureResource(
    id: string,
    name: string,
    resourceType: string,
    location: string,
    resourceGroup: string,
    status: Status)

  /** A resource record as the SDK's pager yields it: every field may be missing. */
  datatype SdkResource = SdkResource(
    id: Option<string>,
    name: Option<string>,
    resourceType: Option<string>,
    location: Option<string>)

  /** A resource-group record as the SDK's pager yields it. */
  datatype SdkResourceGroup = SdkResourceGroup(name: Option<string>)

  /** What iterating a pager produced: the items it delivered, and whether the
      iteration then threw. */
  datatype Listing<T> = Listing(items: seq<T>, fails: bool)

  /** A resource-management client, bound to the subscription it was created for. */
  datatype Client = Client(subscriptionId: string)

  // ---------------------------------------------------------------------------
  // extractResourceGroup: the regular expression /\/resourceGroups\/([^\/]+)/

  const GroupMarker := "/resourceGroups/"

  /** The regular expression matches at index `p`: the marker starts there
      and is followed by at least one character other than '/'. */
  predicate GroupMatchAt(id: string, p: nat)
  {
    OccursAt(id, GroupMarker, p) && p + |GroupMarker| < |id| && id[p + |GroupMarker|] != '/'
  }

  /** The leftmost index at or after `from` where the expression matches. */
  function FirstGroupMatch(id: string, from: nat): (r: Option<nat>)
    ensures r.Some? ==> from <= r.value && GroupMatchAt(id, r.value)
    ensures r.Some? ==> forall q :: from <= q < r.value ==> !GroupMatchAt(id, q)
    ensures r.None? ==> forall q :: from <= q ==> !GroupMatchAt(id, q)
    decreases |id| - from
  {
    if from >= |id| then None
    else if GroupMatchAt(id, from) then Some(from)
    else FirstGroupMatch(id, from + 1)
  }

  /** The end of the run of non-'/' characters that starts at `q`. */
  function SegmentEnd(id: string, q: nat): (e: nat)
    requires q <= |id|
    ensures q <= e <= |id|
    ensures forall j :: q <= j < e ==> id[j] != '/'
    ensures e == |id| || id[e] == '/'
    decreases |id| - q
  {
    if q == |id| || id[q] == '/' then q else SegmentEnd(id, q + 1)
  }

  /** `r` is a whole '/'-free segment of `id` starting at `q`: it is followed
      by '/' or by the end of `id`. */
  predicate SegmentAt(id: string, q: nat, r: string)
  {
    q + |r| <= |id| && id[q..q + |r|] == r && '/' !in r && (q + |r| == |id| || id[q + |r|] == '/')
  }

  /** `extractResourceGroup`: the segment after the leftmost `/resourceGroups/`
      that is followed by a non-'/' character, or "Unknown" when there is none. */
  function ExtractResourceGroup(id: string): (r: string)
    ensures r != [] && '/' !in r
    ensures (forall p :: !GroupMatchAt(id, p)) ==> r == "Unknown"
    ensures forall p: nat ::
      GroupMatchAt(id, p) && (forall q :: 0 <= q < p ==> !GroupMatchAt(id, q)) ==> SegmentAt(id, p + |GroupMarker|, r)
  {
    match FirstGroupMatch(id, 0)
    case None => "Unknown"
    case Some(p) =>
      var start := p + |GroupMarker|;
      var r := id[start..SegmentEnd(id, start)];
      assert forall k :: 0 <= k < |r| ==> r[k] == id[start + k];
      r
  }

  /** Only one whole segment starts at a given index. */
  lemma SegmentUnique(id: string, q: nat, r1: string, r2: string)
    requires SegmentAt(id, q, r1) && SegmentAt(id, q, r2)
    ensures r1 == r2
  {
    assert r1 == id[q..q + |r1|];
  }

  /** The marker can only start where a '/' is followed by 'r'. */
  lemma MarkerNeedsSlashR(id: string, q: nat)
    requires q + 1 < |id| ==> id[q] != '/' || id[q + 1] != 'r'
    ensures !OccursAt(id, GroupMarker, q)
  {
    if q + |GroupMarker| <= |id| {
      var window := id[q..q + |GroupMarker|];
      assert window[0] == id[q] && window[1] == id[q + 1];
    }
  }

  /** An id made of a prefix without a "/r" pair, the marker, a group name and
      a '/' names that group. */
  lemma ExtractAfterPrefix(prefix: string, group: string, rest: string)
    requires forall q :: 0 <= q < |prefix| && prefix[q] == '/' ==> q + 1 < |prefix| && prefix[q + 1] != 'r'
    requires group != [] && '/' !in group
    ensures ExtractResourceGroup(prefix + GroupMarker + group + "/" + rest) == group
  {
    var id := prefix + GroupMarker + group + "/" + rest;
    var p := |prefix|;
    var start := p + |GroupMarker|;
    assert id[p..start] == GroupMarker;
    assert id[start] == group[0];
    assert GroupMatchAt(id, p);
    forall q: nat | q < p ensures !GroupMatchAt(id, q) {
      MarkerNeedsSlashR(id, q);
    }
    assert id[start..start + |group|] == group;
    assert SegmentAt(id, start, group);
    SegmentUnique(id, start, ExtractResourceGroup(id), group);
  }

  // ---------------------------------------------------------------------------
  // getRandomStatus

  /** `Math.floor(Math.random() * statuses.length)`: an index into the five-entry table. */
  type Draw = d: nat | d < 5

  /** `getRandomStatus`: the draw picks from healthy, healthy, healthy, warning, error. */
  function RandomStatus(d: Draw): (s: Status)
    ensures s != Unknown
  {
    [Healthy, Healthy, Healthy, Warning, Error][d]
  }

  // ---------------------------------------------------------------------------
  // getResources: record filtering and defaulting

  /** The pager record carries the three fields `getResources` requires. */
  predicate IsComplete(rec: SdkResource)
  {
    Truthy(rec.id) && Truthy(rec.name) && Truthy(rec.resourceType)
  }

  /** `resource.location || 'Unknown'`. */
  function LocationOrUnknown(location: Option<string>): (r: string)
    ensures r != ""
    ensures Truthy(location) ==> r == location.value
    ensures !Truthy(location) ==> r == "Unknown"
  {
    if Truthy(location) then location.value else "Unknown"
  }

  /** What the service guarantees of every resource it returns. */
  predicate WellFormed(res: AzureResource)
  {
    res.id != "" && res.name != "" && res.resourceType != "" && res.location != ""
    && res.resourceGroup == ExtractResourceGroup(res.id)
    && res.status != Unknown
  }

  /** The object `getResources` pushes for a complete record. */
  function ToResource(rec: SdkResource, d: Draw): (res: AzureResource)
    requires IsComplete(rec)
    ensures WellFormed(res)
  {
    AzureResource(
      rec.id.value, rec.name.value, rec.resourceType.value,
      LocationOrUnknown(rec.location),
      ExtractResourceGroup(rec.id.value),
      RandomStatus(d))
  }

  /** The array `getResources` builds from the pager's records, in pager order;
      the record at pager index `i` draws its status from `draws(i)`. */
  function NormalizeAll(recs: seq<SdkResource>, draws: nat -> Draw): (r: seq<AzureResource>)
    ensures |r| <= |recs|
    ensures forall res <- r :: WellFormed(res)
  {
    if recs == [] then []
    else
      var n := |recs| - 1;
      NormalizeAll(recs[..n], draws) + (if IsComplete(recs[n]) then [ToResource(recs[n], draws(n))] else [])
  }

  /** The complete records, in pager order. */
  function CompleteRecords(recs: seq<SdkResource>): (r: seq<SdkResource>)
  {
    if recs == [] then []
    else if IsComplete(recs[0]) then [recs[0]] + CompleteRecords(recs[1..])
    else CompleteRecords(recs[1..])
  }

  lemma {:induction false} CompleteRecordsAppend(recs: seq<SdkResource>, rec: SdkResource)
    ensures CompleteRecords(recs + [rec]) == CompleteRecords(recs) + (if IsComplete(rec) then [rec] else [])
  {
    if recs != [] {
      assert (recs + [rec])[1..] == recs[1..] + [rec];
      CompleteRecordsAppend(recs[1..], rec);
    }
  }

  /** The fields a kept record keeps: its id, name and type unchanged, its
      location or "Unknown". */
  predicate KeptFrom(res: AzureResource, rec: SdkResource)
  {
    Truthy(rec.id) && Truthy(rec.name) && Truthy(rec.resourceType)
    && res.id == rec.id.value && res.name == rec.name.value && res.resourceType == rec.resourceType.value
    && res.location == LocationOrUnknown(rec.location)
  }

  /** `getResources` keeps exactly the complete records, in pager order, each
      with its fields carried over. */
  lemma {:induction false} NormalizeKeepsCompleteRecords(recs: seq<SdkResource>, draws: nat -> Draw)
    ensures |NormalizeAll(recs, draws)| == |CompleteRecords(recs)|
    ensures forall i :: 0 <= i < |CompleteRecords(recs)| ==> KeptFrom(NormalizeAll(recs, draws)[i], CompleteRecords(recs)[i])
  {
    if recs != [] {
      var n := |recs| - 1;
      NormalizeKeepsCompleteRecords(recs[..n], draws);
      assert recs == recs[..n] + [recs[n]];
      CompleteRecordsAppend(recs[..n], recs[n]);
    }
  }

  /** The outcome of `getResources` once the pager has been iterated: the
      records it built, or the sample resources when iterating threw. */
  function ListResources(listing: Listing<SdkResource>, draws: nat -> Draw): (r: seq<AzureResource>)
    ensures listing.fails ==> r == MockResources()
    ensures !listing.fails ==> r == NormalizeAll(listing.items, draws) && |r| <= |listing.items|
    ensures forall res <- r :: WellFormed(res)
  {
    if listing.fails then MockResources() else NormalizeAll(listing.items, draws)
  }

  /** The start of every sample resource id. */
  const MockSubscription := "/subscriptions/mock"

  /** `getMockResources`: three resources of the group "production-rg". */
  function MockResources(): (r: seq<AzureResource>)
    ensures |r| == 3
    ensures forall res <- r :: WellFormed(res) && res.resourceGroup == "production-rg"
  {
    var group := "production-rg";
    var sql := "providers/Microsoft.Sql/servers/proddb";
    var gateway := "providers/Microsoft.Network/applicationGateways/prod-gateway";
    var cache := "providers/Microsoft.Cache/Redis/prod-cache";
    ExtractAfterPrefix(MockSubscription, group, sql);
    ExtractAfterPrefix(MockSubscription, group, gateway);
    ExtractAfterPrefix(MockSubscription, group, cache);
    [ AzureResource(
        MockSubscription + GroupMarker + group + "/" + sql,
        "Production Database", "Microsoft.Sql/servers", "East US", group, Healthy),
      AzureResource(
        MockSubscription + GroupMarker + group + "/" + gateway,
        "Production Gateway", "Microsoft.Network/applicationGateways", "East US", group, Healthy),
      AzureResource(
        MockSubscription + GroupMarker + group + "/" + cache,
        "Production Cache", "Microsoft.Cache/Redis", "East US", group, Warning) ]
  }

  // ---------------------------------------------------------------------------
  // getResourceGroups

  /** The names `getResourceGroups` pushes: those that are present and not empty, in order. */
  function GroupNames(groups: seq<SdkResourceGroup>): (r: seq<string>)
    ensures |r| <= |groups|
    ensures forall name <- r :: name != "" && SdkResourceGroup(Some(name)) in groups
    ensures forall g <- groups :: Truthy(g.name) ==> g.name.value in r
  {
    if groups == [] then []
    else
      var n := |groups| - 1;
      var last := groups[n];
      assert groups == groups[..n] + [last];
      GroupNames(groups[..n]) + (if Truthy(last.name) then [last.name.value] else [])
  }

  /** The groups that have a name, in pager order. */
  function NamedGroups(groups: seq<SdkResourceGroup>): (r: seq<SdkResourceGroup>)
    ensures forall g <- r :: g in groups && Truthy(g.name)
    ensures forall g <- groups :: Truthy(g.name) ==> g in r
  {
    if groups == [] then []
    else if Truthy(groups[0].name) then [groups[0]] + NamedGroups(groups[1..])
    else NamedGroups(groups[1..])
  }

  lemma {:induction false} NamedGroupsAppend(groups: seq<SdkResourceGroup>, g: SdkResourceGroup)
    ensures NamedGroups(groups + [g]) == NamedGroups(groups) + (if Truthy(g.name) then [g] else [])
  {
    if groups != [] {
      assert (groups + [g])[1..] == groups[1..] + [g];
      NamedGroupsAppend(groups[1..], g);
    }
  }

  /** `getResourceGroups` pushes the name of each named group, one per group,
      in pager order. */
  lemma {:induction false} GroupNamesFollowNamedGroups(groups: seq<SdkResourceGroup>)
    ensures |GroupNames(groups)| == |NamedGroups(groups)|
    ensures forall i :: 0 <= i < |NamedGroups(groups)| ==> GroupNames(groups)[i] == NamedGroups(groups)[i].name.value
  {
    if groups != [] {
      var n := |groups| - 1;
      GroupNamesFollowNamedGroups(groups[..n]);
      assert groups == groups[..n] + [groups[n]];
      NamedGroupsAppend(groups[..n], groups[n]);
    }
  }

  /** The groups `getResourceGroups` returns when iterating the pager throws. */
  const FallbackGroups: seq<string> := ["production-rg", "development-rg", "testing-rg"]

  /** The outcome of `getResourceGroups` once the pager has been iterated. */
  function ListResourceGroups(listing: Listing<SdkResourceGroup>): (r: seq<string>)
    ensures listing.fails ==> r == FallbackGroups
    ensures !listing.fails ==> r == GroupNames(listing.items)
    ensures !listing.fails ==> forall name <- r :: name != "" && SdkResourceGroup(Some(name)) in listing.items
    ensures !listing.fails ==> forall g <- listing.items :: Truthy(g.name) ==> g.name.value in r
  {
    if listing.fails then FallbackGroups else GroupNames(listing.items)
  }

  // ---------------------------------------------------------------------------
  // The service object

  /** `AzureService`: the credential is left out; the resource client is set once. */
  class AzureService {
    var resourceClient: Option<Client>

    constructor ()
      ensures resourceClient == None
    {
      resourceClient := None;
    }

    /** Creates the client for `subscriptionId` only when there is none yet:
        a later call with another subscription keeps the first client. */
    method InitializeResourceClient(subscriptionId: string)
      modifies this
      ensures old(resourceClient).Some? ==> resourceClient == old(resourceClient)
      ensures old(resourceClient).None? ==> resourceClient == Some(Client(subscriptionId))
    {
      if resourceClient.None? {
        resourceClient := Some(Client(subscriptionId));
      }
    }

    /** `getResourceGroups`: `pager` gives what the client's group pager yields. */
    method GetResourceGroups(subscriptionId: string, pager: Client -> Listing<SdkResourceGroup>)
      returns (groups: seq<string>)
      modifies this
      ensures old(resourceClient).Some? ==> resourceClient == old(resourceClient)
      ensures old(resourceClient).None? ==> resourceClient == Some(Client(subscriptionId))
      ensures groups == ListResourceGroups(pager(resourceClient.value))
    {
      InitializeResourceClient(subscriptionId);
      var listing := pager(resourceClient.value);
      var names: seq<string> := [];
      var i := 0;
      while i < |listing.items|
        invariant i <= |listing.items|
        invariant names == GroupNames(listing.items[..i])
      {
        var group := listing.items[i];
        if Truthy(group.name) {
          names := names + [group.name.value];
        }
        assert listing.items[..i + 1][..i] == listing.items[..i];
        i := i + 1;
      }
      assert listing.items[..i] == listing.items;
      if listing.fails {
        groups := FallbackGroups;
      } else {
        groups := names;
      }
    }

    /** `getResources`: `pager` gives what the client's resource pager yields
        and `draws` the random status draw for each pager index. */
    method GetResources(subscriptionId: string, pager: Client -> Listing<SdkResource>, draws: nat -> Draw)
      returns (resources: seq<AzureResource>)
      modifies this
      ensures old(resourceClient).Some? ==> resourceClient == old(resourceClient)
      ensures old(resourceClient).None? ==> resourceClient == Some(Client(subscriptionId))
      ensures resources == ListResources(pager(resourceClient.value), draws)
    {
      InitializeResourceClient(subscriptionId);
      var listing := pager(resourceClient.value);
      var built: seq<AzureResource> := [];
      var i := 0;
      while i < |listing.items|
        invariant i <= |listing.items|
        invariant built == NormalizeAll(listing.items[..i], draws)
      {
        var rec := listing.items[i];
        if IsComplete(rec) {
          built := built + [ToResource(rec, draws(i))];
        }
        assert listing.items[..i + 1][..i] == listing.items[..i];
        i := i + 1;
      }
      assert listing.items[..i] == listing.items;
      if listing.fails {
        resources := MockResources();
      } else {
        resources := built;
      }
    }
  }
}
