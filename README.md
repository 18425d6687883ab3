# TrafficMonitor dashboard: a Dafny model of its data logic

TrafficMonitor is a browser dashboard for Azure resources. Nearly all of it is
React presentation over mock data. This project models the part that has
behaviour worth proving:

- **The alert feed of `AlertsPanel`** (`alerts_panel.dfy`, module `Alerts`).
  Alert records carry a severity and a `resolved` flag. The Resolve button
  maps over the list and marks every alert with the clicked id as resolved.
  An all / unresolved filter chooses what is shown, and three counts are
  derived from the list: total, unresolved and critical-unresolved. The
  component's state is the class `AlertsPanel`, whose `alerts` and `filter`
  fields are replaced the way `setAlerts` and `setFilter` replace them.
- **The `AzureService` class** (`azure_service.dfy`, module `Azure`).
  - `extractResourceGroup` parses a resource id with the regular expression
    `/\/resourceGroups\/([^\/]+)/`.
  - `getResources` and `getResourceGroups` iterate the SDK pager. They keep
    the records whose required fields are truthy and default the location.
    When iterating throws, they fall back to fixed sample data.
  - `initializeResourceClient` sets the client once.
  - `getRandomStatus` picks from a five-entry table.
- **The `AzureResourceList` component** (`azure_resource_list.dfy`, module
  `ResourceList`).
  - `fetchResources` runs in two steps around its `await`: `StartFetch` and
    `SettleFetch`.
  - `getResourceIcon` is a priority-ordered, case-sensitive substring
    classifier.
  - `getStatusColor` maps a status to a CSS class.
  - The view shows each type's suffix after its last `/`, a total count and
    a healthy count.
- `common.dfy` holds `Option`, `Result` and JavaScript truthiness of an
  optional string. `strings.dfy` holds `includes` as a substring test.

Modelling choices:

- JavaScript truthiness is modelled exactly. An empty string counts as
  absent, so the following treat `""` like a missing value:
  - `if (subscriptionId)`;
  - `resource.id && resource.name && resource.type`;
  - `resource.location || 'Unknown'`;
  - `if (resourceGroup.name)`.
- The SDK pager is an input `Listing`: the items it delivered, and whether
  iterating then threw. A throw discards the partially built local array.
- The pager is a function of the `Client`, and the client stays bound to the
  first subscription it was created for. So a later call with another
  subscription still lists the first subscription's resources, as the source
  does.
- `Math.random()` is an input `draws: nat -> Draw`. `Draw` is an index
  `0..4` into the status table, and each pager position gets one draw.
- `Date.now()` is a parameter `now` for the mock alerts' timestamps.
- The sample resource ids are written as concatenations of their parts, for
  example `"/subscriptions/mock" + "/resourceGroups/" + "production-rg" +
  "/" + ...`. They are the same strings as the source's literals.

Behaviour of the code worth noting:

- Resolving an id that no alert carries is a silent no-op: the list is
  unchanged and nothing reports an error (`Alerts.ResolveUnknownId`).
- `fetchResources` has no request sequencing: a fetch that settles later
  overwrites the list whatever the order the fetches started in.
- `getResources` catches every error itself. So with the real service, the
  `catch` branch of `fetchResources` never runs. `SettleFetch` models both
  branches for any settled promise. `FetchResources`, wired to
  `AzureService.GetResources`, proves the error stays cleared.

## Model

| member | source | states |
|---|---|---|
| `Alerts.Resolve` | src/components/AlertsPanel.tsx:168-172 | same length; every alert with the id becomes resolved with all other fields unchanged; every other alert is unchanged, in the same position |
| `Alerts.Unresolved` | src/components/AlertsPanel.tsx:94 | holds exactly the unresolved alerts of the list (both directions of membership) and is no longer than it |
| `Alerts.CriticalUnresolved` | src/components/AlertsPanel.tsx:194 | holds exactly the alerts that are critical and unresolved (both directions of membership), in the list's order (a subsequence of it) |
| `Alerts.CriticalUnresolvedCounts` | src/components/AlertsPanel.tsx:194 | every critical unresolved alert occurs in the view exactly as often as in the list and no other alert occurs, which fixes the footer's count |
| `Alerts.Filtered` | src/components/AlertsPanel.tsx:90-92 | filter `all` gives the whole list; filter `unresolved` gives the unresolved view `Unresolved`, whose members are exactly the unresolved alerts; either way a subsequence of the list |
| `Alerts.UnresolvedCounts` | src/components/AlertsPanel.tsx:90-94 | every unresolved alert occurs in the unresolved view exactly as often as in the list and no other alert occurs, which fixes the "active" count |
| `Alerts.UnresolvedIsSubsequence` | src/components/AlertsPanel.tsx:90-92 | the unresolved view keeps the list's order |
| `Alerts.CountsBounded` | src/components/AlertsPanel.tsx:189-194 | critical-unresolved count <= unresolved count <= total |
| `Alerts.ResolveUnknownId` | src/components/AlertsPanel.tsx:168-172 | resolving an id no alert carries leaves the list unchanged, with no error |
| `Alerts.ResolveIdempotent` | src/components/AlertsPanel.tsx:170 | resolving twice with the same id equals resolving once |
| `Alerts.ResolveMonotonic` | src/components/AlertsPanel.tsx:170 | an alert that was resolved stays resolved |
| `Alerts.ResolveClearsIdFromView` | src/components/AlertsPanel.tsx:165-172 | after resolving an id, the unresolved view holds no alert with it and keeps every unresolved alert with another id |
| `Alerts.ResolveLowersUnresolvedCount` | src/components/AlertsPanel.tsx:168-172 | the unresolved count drops by exactly the number of unresolved alerts carrying the id |
| `Alerts.PendingWithUniqueId` | src/components/AlertsPanel.tsx:140 | with unique ids (the list's React keys), at most one unresolved alert carries an id |
| `Alerts.ResolveOneLowersCountByOne` | src/components/AlertsPanel.tsx:168-172 | with unique ids, resolving an unresolved alert lowers the unresolved count by exactly one |
| `Alerts.MockAlerts` | src/components/AlertsPanel.tsx:26-63 | the loaded feed has four alerts with unique ids |
| `Alerts.MockAlertsScenario` | src/components/AlertsPanel.tsx:26-64 | the loaded feed counts 4 total, 3 unresolved, 1 critical; after resolving alert "2" it counts 4, 2 and 0 |
| `Alerts.AlertsPanel.constructor` | src/components/AlertsPanel.tsx:20-21 | the panel starts with no alerts and the `unresolved` filter |
| `Alerts.AlertsPanel.LoadAlerts` | src/components/AlertsPanel.tsx:23-66 | a truthy subscription id replaces the alerts with the mock feed; otherwise nothing changes; the filter is kept |
| `Alerts.AlertsPanel.SetFilter` | src/components/AlertsPanel.tsx:120-122 | sets the filter and keeps the alerts |
| `Alerts.AlertsPanel.ResolveAlert` | src/components/AlertsPanel.tsx:166-173 | the new list is `Resolve` of the old one, the filter is kept, and the unresolved count does not grow |
| `Alerts.AlertsPanel.FilteredAlerts` | src/components/AlertsPanel.tsx:90-92 | the shown alerts are a subsequence of the list; under `all` the whole list; under `unresolved` each unresolved alert as often as the list holds it and no other alert |
| `Alerts.AlertsPanel.UnresolvedCount` | src/components/AlertsPanel.tsx:94 | equals the length of the unresolved view, is at most the total, and at least the number of times any unresolved alert occurs in the list |
| `Alerts.AlertsPanel.CriticalCount` | src/components/AlertsPanel.tsx:193-195 | is the length of the critical unresolved view, at most the unresolved count, and at least the number of times any critical unresolved alert occurs in the list |
| `Strings.Includes` | src/components/AzureResourceList.tsx:38 | true exactly when the needle occurs at some index (case-sensitive) |
| `Azure.FirstGroupMatch` | src/services/azureService.ts:107 | finds the leftmost index where `/resourceGroups/` is followed by a non-`/` character, or says there is none |
| `Azure.SegmentEnd` | src/services/azureService.ts:107 | ends the maximal run of non-`/` characters (`[^\/]+`) at a `/` or at the end |
| `Azure.ExtractResourceGroup` | src/services/azureService.ts:106-109 | never empty and never contains `/`; with no match it is "Unknown"; otherwise it is the whole segment after the leftmost match |
| `Azure.ExtractAfterPrefix` | src/services/azureService.ts:106-109 | an id whose prefix has no "/r" pair, followed by `/resourceGroups/`, a group name and `/`, yields that group name |
| `Azure.RandomStatus` | src/services/azureService.ts:111-114 | the status is never `unknown` |
| `Azure.LocationOrUnknown` | src/services/azureService.ts:79 | a truthy location is kept; an absent or empty one becomes "Unknown"; never empty |
| `Azure.ToResource` | src/services/azureService.ts:75-82 | the pushed object is well formed: non-empty fields, group extracted from the id, status not `unknown` |
| `Azure.NormalizeAll` | src/services/azureService.ts:72-85 | builds at most one resource per record, every one well formed |
| `Azure.NormalizeKeepsCompleteRecords` | src/services/azureService.ts:72-85 | keeps exactly the records with truthy id, name and type, in pager order; each keeps its id, name and type, with its location or "Unknown" |
| `Azure.ListResources` | src/services/azureService.ts:67-90 | when the pager throws, exactly the sample resources; otherwise the records normalized by `NormalizeAll`, no more than there are records; all well formed |
| `Azure.MockResources` | src/services/azureService.ts:116-143 | three resources, each well formed, and each one's stated group "production-rg" is what `extractResourceGroup` gives for its id |
| `Azure.GroupNames` | src/services/azureService.ts:54-60 | holds exactly the truthy group names (both directions of membership), no more than there are groups |
| `Azure.NamedGroups` | src/services/azureService.ts:54-60 | holds exactly the groups with a truthy name (both directions of membership) |
| `Azure.GroupNamesFollowNamedGroups` | src/services/azureService.ts:54-60 | the names pushed are, position by position, the names of the named groups in pager order, one per group |
| `Azure.ListResourceGroups` | src/services/azureService.ts:49-64 | when the pager throws, `['production-rg','development-rg','testing-rg']`; otherwise the `GroupNames` of the delivered groups: every truthy name delivered, and only those |
| `Azure.AzureService.constructor` | src/services/azureService.ts:22-26 | a new service has no resource client |
| `Azure.AzureService.InitializeResourceClient` | src/services/azureService.ts:28-32 | creates a client for the subscription only when none exists; an existing client is never replaced |
| `Azure.AzureService.GetResourceGroups` | src/services/azureService.ts:49-65 | binds the client once, then returns `ListResourceGroups` of what the client's pager yields |
| `Azure.AzureService.GetResources` | src/services/azureService.ts:67-90 | binds the client once, then returns `ListResources` of what the client's pager yields; the loop builds `NormalizeAll` of the records read so far |
| `ResourceList.GetResourceIcon` | src/components/AzureResourceList.tsx:37-50 | a type containing `Sql` or `Database` gets the database icon; the cloud icon exactly when the type contains none of the seven needles |
| `ResourceList.FirstApplicable` | src/components/AzureResourceList.tsx:37-50 | when some rule applies, the icon of the first rule that applies; the cloud icon when none applies |
| `ResourceList.IconFollowsRuleTable` | src/components/AzureResourceList.tsx:37-50 | the classifier equals the first applicable rule of the table Sql/Database, Network/Gateway, Storage, ServiceBus, Security |
| `ResourceList.SqlBeatsNetwork` | src/components/AzureResourceList.tsx:38-41 | a type containing both `Sql` and `Network` gets the database icon |
| `ResourceList.GetStatusColor` | src/components/AzureResourceList.tsx:52-63 | the default gray class exactly for strings other than healthy, warning, error; always one of the four classes |
| `ResourceList.StatusColorsDistinct` | src/components/AzureResourceList.tsx:52-63 | the three known statuses get pairwise distinct classes; `unknown` gets the default |
| `ResourceList.TypeSuffix` | src/components/AzureResourceList.tsx:123 | the longest `/`-free suffix of the type: no `/` in it, preceded by `/` unless it is the whole type |
| `ResourceList.HealthyCount` | src/components/AzureResourceList.tsx:159 | the number of `healthy` entries among the resources' statuses; at most the number of resources; zero exactly when none is healthy |
| `ResourceList.Statuses` | src/components/AzureResourceList.tsx:159 | the status of each resource, position by position |
| `ResourceList.MockHealthyCount` | src/services/azureService.ts:116-142 | two of the three sample resources are healthy |
| `ResourceList.AzureResourceList.constructor` | src/components/AzureResourceList.tsx:10-12 | starts with no resources, not loading and no error |
| `ResourceList.AzureResourceList.StartFetch` | src/components/AzureResourceList.tsx:20-24 | given the current subscription prop: with no truthy id, changes nothing; otherwise sets loading and clears the error; the previous list is kept |
| `ResourceList.AzureResourceList.SettleFetch` | src/components/AzureResourceList.tsx:26-34 | loading ends either way; success replaces the list wholesale; failure keeps the list and sets "Failed to fetch Azure resources" |
| `ResourceList.AzureResourceList.FetchResources` | src/components/AzureResourceList.tsx:14-35 | given the current subscription prop on the mounted list: without one nothing changes; with one, the service keeps its existing client or creates one for this subscription, loading ends, the error is cleared and the list is `ListResources` of that client's pager |
| `ResourceList.AzureResourceList.HealthyResources` | src/components/AzureResourceList.tsx:153-159 | the number of healthy resources in the list, at most the total `resources.length` |

## Left out

- Rendering is left out as presentation: the JSX, the severity icons and
  colours (`getSeverityIcon`, `getSeverityColor`), the lucide icon
  components and the loading skeleton. `GetResourceIcon` returns an `Icon`
  tag in place of a component.
- The Azure SDK is foreign code. `DefaultAzureCredential` is left out.
  `ResourceManagementClient` is a `Client` value bound to a subscription id,
  and its `for await` pagers are the `Listing` input.
- In the model, creating the client cannot fail, so the client always exists
  after `initializeResourceClient`. The `if (!this.resourceClient)` branches
  at azureService.ts lines 52 and 70 are therefore unreachable and are not
  modelled.
- `console.error` and `console.log` are left out as logging.
- Randomness: `getMockMetrics`, the dashboard's metric generation and
  `toFixed` are left out because they are random floats.
- `Azure.RandomStatus`: states only the range of `getRandomStatus` (never
  `unknown`). The 3:1:1 healthy:warning:error bias is a probability
  distribution, which this model does not express.
- `getSubscriptions` and `getMetrics` are left out: they only return
  constants or mock data and log.
- Wall-clock time: `Date.now()` is the parameter `now`. The `date-fns`
  timestamp formatting is left out.
- React effects and async interleaving are left out. `useEffect` triggers
  are modelled only as the calls `LoadAlerts` and `FetchResources`, each
  given the current subscription, on state that persists across changes
  from one selected subscription to another. The
  `await` in `fetchResources` splits it into `StartFetch` and `SettleFetch`.
  Nothing orders concurrent fetches, because the source has no such
  ordering.
- Clearing the selection is not modelled as such: with no subscription the
  dashboard unmounts `AlertsPanel` and `AzureResourceList`, and selecting one
  again mounts them afresh (no alerts, the `unresolved` filter, no
  resources, not loading, no error). The model expresses that only as new
  instances from the constructors; the `!Truthy` branches of `LoadAlerts`,
  `StartFetch` and `FetchResources` model only the components' own guards.
- TrafficChart, Sidebar, Header, App, Dashboard, ConnectionStatus and
  MetricCard are left out: they are layout, navigation and static fixtures.
