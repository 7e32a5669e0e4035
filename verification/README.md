# Verification of the NetBox IPAM provider

This Dafny project models the provider's reconcilers as a protocol over two stores and proves what holds in
every run of it. Kubernetes holds claims, `IPAddress` objects, pools and finalizers; NetBox holds prefixes and
the records that are stamped with a claim's UID. Each pass moves both stores forward one external call at a
time, and after any call the process may die or the response may be lost.

Check everything with `dafny verify dfyconfig.toml`.

## How it is built

- `Text`, `Cidr`, `Gateway`, `Prefixes`, `Paging`, `Slug`, `Annotations`, `AddressText`, `Owners`, `Index`: the
  algorithms that the passes rest on. Where the source loops, there is a method with the loop, proved equal to
  a function, and lemmas about that function.
- `Model`: the objects in both stores.
- `Protocol`: the claim worker as a step machine. `Step` takes one external call with its answer; `LegalReply`
  says which answers the stores may give, lost responses included. `PoolProtocol` is the same for a pool pass.
- `System`: runs. One claim worker, at most one pass per pool at a time, crashes between any two calls, and
  everybody else: users who create, edit, pause and delete claims and pools, other finalizers, NetBox operators
  who edit prefixes and foreign records.
- `Frames`: which parts of the stores a step of the claim worker leaves alone.
- `ClaimSafety`, `ReleaseSafety`, `OwnerSafety`, `TextSafety`, `Sharing`, `PoolSafety`, `PoolGuard`,
  `GatewaySafety`: an invariant each, kept by every event, and the theorems about all runs that follow from it.
- `Progress`, `Releasing`, `Allocation`: what passes without failures reach, for live and for deleted claims, and
  the order in which prefixes are asked.
- `GatewayWritten`, `Outcomes`: which gateway a pass stores, traced back to NetBox's rows and the pool's settings,
  and how passes end: what refuses a claim, what comes before what, and what the closing patches change.
- `Cluster`, `Reconciler`, `PoolReconciler`: the code of the passes in the form the source has it, with objects
  whose fields the methods change and with its loops and early returns. The external calls are methods of an
  object that holds the stores; each takes its answer from outside and shows its caller only what the client
  libraries show. Ghost state follows along with the machine, and the contract of a whole pass is that it was
  a run of it. A stop after any call is a prefix of such a run followed by a crash, because every call leaves the
  stores and the machine in step.
- `Lookups`: the record lookups, and that their answers are legal ones for the machine.
- `Witnesses`: concrete runs that break a promise once its hypothesis is dropped.

Some fields are history that the source does not have: the UIDs so far and how each registration ended, whether
an address was created under its pool's finalizer, which resolution a cache came from, and the prefix a record
was allocated from. No decision of a pass reads them.

## What is assumed

- A POST either commits before its response is lost or never commits. A 2xx answer with an empty list created
  nothing; it counts as "no available address", as in the source.
- Reads are current. The closing patch of a claim or pool may commit its metadata part, its status part, both or
  neither.
- Nobody else edits records with the ownership tag, `IPAddress` specs or the provider's finalizers, and an
  `IPAddress` carries no other finalizer. Others may delete an `IPAddress`, which marks it while it is protected.
- Claim UIDs are never reused and differ from `<nil>`, the rendering of an absent custom field.
- One ownership tag and one UID field are shared by all pools of a run. The tag is trimmed and not empty. For a
  lookup by tag to be answered at all the tag also has to be its own slug, because lookups filter by the name
  while tags are created with a separate slug; `Slug.FixedPointsAreSlugs` says which tags those are.
- A pool is not recreated while a pass for it is under way, and a fetched pool carries its kind.
- A paused or missing cluster ends a pass before it begins (the answer `Skip`).
- The Go library is a parameter where its text rules are not the point: address and prefix parsing (`Netip`), the
  JSON decoder of custom fields (`FieldParser`), and the Unicode tables (`Unicode`). The laws used are stated as
  predicates (`Gateway.Lawful`, `Slug.AgreesWithAscii`).
- The library setters for owner references are upserts on group, kind and name, and create-or-patch reads, runs
  its mutation once and writes only what differs.

- All pools share one NetBox, and its prefix table does not change within one resolution of a pool's references,
  which the source makes with one list call each.

Two promises need a hypothesis that the source does not enforce. Each has a witness run, and a lemma says that
the hypothesis is exactly what an event must meet to keep the invariant:

- `NoStopInGap`: no pass stops between deleting a claim's record and deleting its address. Otherwise the address
  stays without a record, and a retry looks it up by address (`ReleaseSafety.BackedUnlessStopped`).
- `NoExposure`: no address is created for a pool while a pass that has listed no users is letting the pool go. The
  source takes no lock there; passes that do not interleave meet it (`PoolGuard.GuardedUnlessExposed`).

The small algorithms have their exact conditions too: `Slug.StableIffNoMixedStretch` for idempotent slugs, and
`Owners.EnsuredIdempotentIff` for owner references, over lists as the API server accepts them (one controller at
most) and the setters keep them (one reference for each object).

Where code and documentation differ the model follows the code. The API comment says that a pool-wide gateway
applies only where the address family matches (`api/v1alpha1/common_types.go:129-130`); the code reports an error
instead (`internal/netbox/gateway.go:53-55`), and so does `Gateway.ResolveGateway`. The comment on the resolution
of prefixes speaks of the last successful reconcile (`internal/controller/pool_controller.go:77-78`); the code
compares with the last observed generation, successful or not, which `PoolSafety.FailedResolutionHidesItself`
makes visible.

## Model

| member | source | states |
|---|---|---|
| ClaimSafety.AtMostOneRecord | internal/controller/ipaddressclaim_controller.go:155-219 | Over every legal run, with any number of claims and a crash or a lost response after any call, at most one NetBox record with the ownership tag carries a given claim UID. |
| ClaimSafety.RecordHasItsClaim | pkg/ipamutil/reconciler.go:163-181 | In every reachable state a record's claim object still exists under its UID with the release finalizer, unless a delete pass that did not find the pool let the claim go. |
| ClaimSafety.ReleasedLeavesNothing | pkg/ipamutil/reconciler.go:340-374 | Once a delete pass that found its pool has dropped a claim's finalizer, no record carries the claim's UID, and after every legal continuation of the run none does either. |
| ClaimSafety.NoDropWithoutRecord | internal/controller/ipaddressclaim_controller.go:318-334 | While the address exists and no record can be located by UID or by its texts, a delete pass that found its pool leaves every record with the ownership tag and leaves the claim its finalizer, whatever calls fail, whoever acts in between and whether or not the process dies, until the next pass begins; somebody else may delete a protected address meanwhile. |
| ClaimSafety.RunKeeps | pkg/ipamutil/reconciler.go:126-374 | The invariant behind these four, kept by every event of the claim worker, the pool workers, crashes and everybody else. |
| ClaimSafety.AddRecordKeeps | internal/netbox/client.go:258-309 | A new record is its claim's first and only one: it is created while no record carries the UID and the claim is registered. |
| ClaimSafety.DropKeepsStore | pkg/ipamutil/reconciler.go:372-373 | Dropping a claim's finalizer leaves no record without a registered claim, except after a pass that did not find the pool. |
| ReleaseSafety.ReleaseDeletesOwnRecord | internal/controller/ipaddressclaim_controller.go:318-366 | In every run without a stop between deleting the record and deleting the address, a release only deletes the record with its own claim's UID, and the lookup by address is never reached; the loss of a response after which the address is gone is no such stop. |
| ReleaseSafety.EveryAddressIsBacked | internal/controller/ipaddressclaim_controller.go:129-219 | In the same runs every `IPAddress` has a text, its claim is registered, exactly one record carries the claim's UID, and the address and length are the ones of that record's text; only an address under deletion is exempt. |
| ReleaseSafety.BackedUnlessStopped | pkg/ipamutil/reconciler.go:345-371 | The exact condition: an event keeps every address backed by its claim's record if and only if it is not such a stop, that is, not a crash, a failed call or a lost response in the gap that leaves the address, and not a lost response to the record's deletion while the address exists. |
| ReleaseSafety.RecordGone | internal/netbox/client.go:362-380 | Deleting a claim's record takes the backing from that claim's own address only. |
| Witnesses.StopInGapTakesAnothersRecord | pkg/ipamutil/reconciler.go:345-363 | A run from the empty state: a stop in the gap, NetBox hands the same address to a second claim, and the first claim's retry is about to delete the second, live claim's record. |
| OwnerSafety.AddressIsOwned | pkg/ipamutil/address.go:51-83 | In every reachable state each `IPAddress` names its claim and, by group, kind and name, the claim's pool; its controller is its own claim, by UID, with both flags set; and its pool is an owner that only blocks deletion. |
| OwnerSafety.ListingIsExact | internal/controller/pool_controller.go:267-289 | In every reachable state the indexed listing of a pool holds exactly the addresses whose claims refer to that pool. |
| Progress.TwoPassesSuffice | pkg/ipamutil/reconciler.go:163-248 | From every reachable state, whatever failed or stopped before, two passes without failures make a live claim Ready whose pool is open and that has a record or a prefix with room, with its `IPAddress`; no UID is carried twice; and exactly one record agrees with the `IPAddress` if and only if the one it had before, if any, was that of its record. |
| Progress.FurtherPassesChangeNothing | pkg/ipamutil/reconciler.go:257-275 | From every reachable state a pass without failures over a settled claim leaves both stores exactly as they were. |
| Progress.PassExists | pkg/ipamutil/reconciler.go:126-168 | A pass without failures is never stuck: for every live claim with an open pool and a record or room, registered or not, one can be completed. |
| Progress.PassIsBounded | pkg/ipamutil/reconciler.go:126-168 | A pass without failures has at most eleven events and one more for each prefix of the pool. |
| Progress.NewPassRegisters | pkg/ipamutil/reconciler.go:163-165 | The first pass of a claim persists the finalizer and changes nothing else. |
| Progress.CalmCallsSettle | pkg/ipamutil/reconciler.go:170-312 | Every sequence of successful calls of a live pass gets closer to the end and ends with the claim settled. |
| Progress.FinishTwice | pkg/ipamutil/reconciler.go:262-274 | The mutation after the address (owners, label, protection) is idempotent, so a second pass has nothing to patch. |
| Progress.StepAgrees | internal/controller/ipaddressclaim_controller.go:155-219 | Each successful step of a live pass keeps the agreement of record and address, and the lack of it: a record found or granted is the one the address repeats. |
| Releasing.ReleasesIffLocatable | pkg/ipamutil/reconciler.go:340-374 | From every reachable state, a delete pass without failures over a registered claim with an open pool takes record, address and finalizer if and only if the claim has no address or its record can be located by UID or by the texts of the address. |
| Releasing.ReleasePassExists | pkg/ipamutil/reconciler.go:340-374 | Such a pass over a claim that can be released is never stuck: one can be completed. |
| GatewayWritten.PassWritesGateway | internal/controller/ipaddressclaim_controller.go:125-219 | From every reachable state, a pass without failures of a registered claim stores an `IPAddress` with this gateway: an address that was there keeps its own; for a record found again it is that of the first entry that has a gateway and whose block contains the address; after a grant it is that of the first entry of the first prefix with room; nothing where there is no such entry. The entries are the cached ones, or the live ones if none are cached. |
| GatewayWritten.GatewayComesFromRow | internal/controller/ipaddressclaim_controller.go:163-217 | What such a pass stores for a claim without an `IPAddress`, in terms of NetBox's rows and the pool's settings, as resolved for the cache or, with nothing cached, as they are now: after a grant, the gateway of the granting prefix's own row and reference (custom field, else prefix setting, else pool setting); for a record found again, that of a row whose block contains the address, or nothing; nothing where the settings do not resolve. |
| GatewayWritten.GrantWrites | internal/controller/ipaddressclaim_controller.go:203-218 | In any state, a grant from a prefix of a pool with cached entries goes on to write the granted address and length with the gateway of the first cached entry of that prefix. |
| GatewayWritten.ReuseWrites | internal/controller/ipaddressclaim_controller.go:163-171 | In any state, a record found by UID goes on to write its address and length with the gateway of the first cached entry that has one and whose block contains the address. |
| GatewayWritten.FailedLookupWritesNone | internal/controller/ipaddressclaim_controller.go:242-259 | A failed live lookup goes on to write the address without a gateway. |
| Outcomes.RefusedPassOnlyReports | pkg/ipamutil/reconciler.go:176-211 | A pass without failures over a claim whose pool has an unknown kind, is missing or is paused reports exactly that and changes nothing else in either store; the pool is the one of that kind and name, in the claim's namespace or without one. |
| Outcomes.RefusalIsTrue | pkg/ipamutil/reconciler.go:178-211 | A pool is reported missing or paused only when it is, and at the first read of the pass. |
| Outcomes.AsksOnlyAfterCheck | internal/controller/ipaddressclaim_controller.go:174-187 | Over every run: whenever the worker resolves prefixes or asks one for an address, it has found the custom field to exist earlier in the same pass. |
| Outcomes.MissingFieldFails | internal/controller/ipaddressclaim_controller.go:174-176 | If the custom field cannot be ensured, the claim is reported as failed, with nothing asked and nothing written. |
| Outcomes.ReadyMeansSeen | pkg/ipamutil/reconciler.go:288-312 | The claim only becomes Ready when its address has been read back, and then shows that address and refers to it by the claim's name. |
| Outcomes.AddressGoesLast | pkg/ipamutil/reconciler.go:345-363 | From every reachable state: the worker only removes the address of a deleted claim, and only once no record carries the claim's UID, unless the claim's pool was missing. |
| Outcomes.MissingPoolAbandons | pkg/ipamutil/reconciler.go:178-181 | A pass without failures over a deleted claim whose pool is missing removes its address and its finalizer and leaves every record where it is. |
| Outcomes.MarkStays | pkg/ipamutil/reconciler.go:257-275 | An address that somebody marked for deletion keeps the mark under every event until it is gone. |
| Outcomes.PatchTouchesItsParts | pkg/ipamutil/reconciler.go:153-161 | The closing patch changes the finalizer, the reference and the condition of its own claim only, each only if its part commits and the pass changed it; what others wrote since stays, and a claim only disappears if it is being deleted and nobody else holds it. |
| Outcomes.SettledAddress | pkg/ipamutil/reconciler.go:262-274 | The address of a settled claim is protected, has the claim's cluster label if there is one, and refers to the pool by its UID. |
| Sharing.NoSharedAddress | internal/controller/ipaddressclaim_controller.go:203-219 | If NetBox only grants addresses that no stamped record has, and no pass stops in the gap, no two `IPAddress` objects have the same address, an address under deletion aside. |
| Allocation.AllocatesInOrder | internal/controller/ipaddressclaim_controller.go:203-221 | Whatever others do between the questions: the prefixes are asked in list order until one does not answer that it is full; the only record with the ownership tag that is created is that one's; the claim is reported out of room if and only if every prefix of the list answered so, and then none was created. |
| Allocation.FirstWithRoom | internal/controller/ipaddressclaim_controller.go:203-221 | If exactly some prefixes have room, the record comes from the first of them in the list and none after it is asked; out of room if and only if none has. |
| Allocation.OnlyAllocationExhausts | pkg/ipamutil/reconciler.go:276-285 | No other step reports a claim out of room, except for a list without prefixes. |
| PoolSafety.CacheIsOneResolution | internal/controller/pool_controller.go:69-86 | In every reachable state a non-empty prefix cache is the complete result of one resolution of the spec of some generation up to the observed one, IDs and details aligned by index; it is of the observed generation if and only if no newer one was observed without being resolved. |
| PoolSafety.CacheIsCurrent | internal/controller/pool_controller.go:77-86 | If no new generation's resolution ever failed over a non-empty cache and the counts fit an int32, every non-empty cache is of the generation its pool reports as observed. |
| PoolSafety.FailedResolutionHidesItself | internal/controller/pool_controller.go:70-86 | What a failed resolution of a new generation leaves: it counts as observed, the older cache stays, and the next pass reports Ready without resolving. |
| Witnesses.StaleCacheIsReady | internal/controller/pool_controller.go:70-86 | A run from the empty state that ends with a pool Ready for its newest generation while its cache holds the prefix of the spec before. |
| Outcomes.PatchStoresPool | internal/controller/netboxippool_controller.go:69-88 | A pool that nobody else changed is stored as its pass leaves it, and is gone if it was being deleted and this was its last finalizer. |
| Outcomes.PoolPatchTouchesItsParts | internal/controller/netboxippool_controller.go:59-67 | The closing patch of a pool pass changes the finalizer and the label only if its metadata part commits and the pass changed them, the status as a whole if its status part commits, and nothing of other pools; a pool only disappears if it is being deleted and nobody else holds it. |
| PoolSafety.RunKeepsCache | internal/controller/pool_controller.go:55-109 | The invariant behind the cache theorems, over interleaved pool passes, edits and partial patches. |
| PoolGuard.GuardedPoolIsFound | internal/controller/pool_controller.go:93-108 | If no address is created for a pool while a pass that has listed no users is letting it go, the pool of an address created under its finalizer is still there with the finalizer, and an unpaused delete pass of the claim goes on to release through it. |
| PoolGuard.ListingIsScan | internal/index/index.go:42-60 | With kinds free of slashes the indexed listing is the scan by kind, name and, for a namespaced pool, namespace. |
| PoolGuard.GuardedUnlessExposed | internal/controller/pool_controller.go:64-108 | The exact condition: an event keeps the pools guarded if and only if it does not create an address of a pool that a pass under way, having listed no users, means to let go; passes over live pools are no matter. |
| Witnesses.RaceLosesThePool | internal/controller/pool_controller.go:64-108 | A run from the empty state in which an address is created between listing and patch of a deleted pool: its pool is gone although it held its finalizer at the creation. |
| Index.IndexKeyInjective | internal/index/index.go:58-60 | For kinds without a slash the index key is injective on kind and name. |
| Index.SlashInKindCollides | internal/index/index.go:58-60 | With a slash in a kind two different references share a key. |
| Index.CountIsExactOrTooLarge | internal/controller/pool_controller.go:298-305 | The count in the status is the exact number, or an error beyond int32. |
| Cidr.NestedOrDisjoint | internal/controller/ipaddressclaim_controller.go:271-286 | CIDR blocks are nested or disjoint. |
| Cidr.SeparateIffDisjoint | internal/controller/ipaddressclaim_controller.go:271-286 | Two blocks are disjoint if and only if neither written address lies in the other block. |
| Cidr.ContainsIsInterval | internal/controller/ipaddressclaim_controller.go:271-286 | Containment by leading bits is membership in the interval of 2^(width - bits) addresses from the block's first. |
| Gateway.ResolvedGatewayFits | internal/netbox/gateway.go:37-58 | The first source that is set decides, of custom field, prefix setting and pool setting: an error exactly if it names no address in the family of the prefix; empty exactly if no source is set; else that address, printed so that it parses back, with the in-range flag saying whether the prefix contains it. |
| Gateway.FirstServing | internal/controller/ipaddressclaim_controller.go:271-286 | The search by containment gives the gateway of the first entry that has one and whose block contains the address, or nothing if there is none. |
| Gateway.GatewayForPrefixIDIsFirst | internal/controller/ipaddressclaim_controller.go:262-269 | The search by prefix ID gives the gateway of the first entry of that ID. |
| Gateway.RecoveryAgrees | internal/controller/ipaddressclaim_controller.go:262-286 | For distinct IDs and disjoint blocks, recovery by containment gives what the lookup by prefix ID gave when the address was allocated from that prefix. |
| Gateway.EarlierBlockWins | internal/controller/ipaddressclaim_controller.go:271-286 | Without disjoint blocks an earlier block that contains the address wins, and the two lookups differ whenever the gateways do. |
| Prefixes.ResolvesExactly | internal/netbox/client.go:171-201 | References resolve to these IDs if and only if each one either names its ID or, by its CIDR, is matched by exactly one row of the table, the VRF counting if and only if the reference gives one, and that row has the ID. |
| Prefixes.ResolveIDs | internal/netbox/client.go:171-201 | The resolution is an error if and only if some reference has neither an ID nor a single matching row; else it is one ID per reference, in order. Which rows match is `Prefixes.ResolvesExactly`. |
| Prefixes.ResolvePrefixIDs | internal/netbox/client.go:171-201 | The loop, one list call for each reference by CIDR, gives exactly that list, and fails only if the resolution is an error or a list could not be read. |
| Prefixes.GetPrefixDetails | internal/netbox/client.go:206-241 | The loops give the details of the existing IDs in the order asked, whatever order NetBox lists them in; an error if and only if the list could not be read. |
| Prefixes.Build | internal/controller/pool_controller.go:199-229 | One entry per ID, in order, each with its own data and the choice for its own index; an error if and only if some choice is one. |
| Prefixes.EntryOfResolution | internal/controller/pool_controller.go:199-229 | The entry at each index of a resolution: its ID, the block of that ID's last row in the table, and the gateway that the row's value of the spec's custom field names or, if that is blank, the setting of the reference at the same index or, if that is blank too, the pool-wide one: an address of the block's family, or an error for the whole resolution. An ID without a row has neither block nor gateway. |
| Prefixes.InRangeIDs | internal/controller/pool_controller.go:212-228 | An ID is reported in range if and only if the choice at one of its indices says that the block contains the gateway. |
| Prefixes.BuildResolvedPrefixes | internal/controller/pool_controller.go:199-229 | The loop over maps and slices computes these entries and these IDs; which setting decides is `Prefixes.EntryOfResolution`. |
| Prefixes.CachedGateway | internal/controller/pool_controller.go:212-228 | The gateway read from the cache for an ID is the choice made from that prefix's own row and the spec entry at the ID's first index. |
| Prefixes.LiveAgreesWithCache | internal/controller/ipaddressclaim_controller.go:230-260 | On unchanged data and distinct IDs the live lookup, with and without known IDs, equals the cache, and for each reference both give the gateway of its own row and its own settings: the row's custom field, else the reference's gateway, else the pool's. |
| Prefixes.DetailsInOrder | internal/netbox/client.go:206-241 | The details of two lists of IDs one after the other are their details one after the other, and an ID has its row's details or none. |
| Prefixes.RowOfIsLast | internal/netbox/client.go:223-239 | The row of an ID is the last one of that ID in the table, and there is none if and only if no row has the ID. |
| Prefixes.DetailForDetailsOf | internal/netbox/client.go:223-239 | The data found for an ID after listing, mapping and searching is its row of the table. |
| GatewaySafety.LiveStepsGiveLiveEntries | internal/controller/ipaddressclaim_controller.go:230-260 | The live lookup of a pass, when its calls succeed, is that live lookup on the table of the moment. |
| GatewaySafety.GatewayHasAddressFamily | internal/controller/ipaddressclaim_controller.go:163-171 | Over every run, with NetBox keeping the family of a prefix ID and granting inside the prefix asked for, a non-empty gateway in an `IPAddress` parses and has the family of the address, on the fresh and on the reuse path, from cached and live details. |
| GatewaySafety.BuiltEntriesFit | internal/controller/pool_controller.go:199-229 | Every resolution writes only gateways in the family of their prefix. |
| GatewaySafety.GatewayFits | internal/controller/ipaddressclaim_controller.go:262-286 | Both ways of choosing an address's gateway fit the address. |
| Paging.ListAll | internal/netbox/client.go:521-539 | Following the next links terminates and gives the whole table in order and exactly once, if and only if every page answers and, past the first page, the base URL has no path. |
| Paging.FirstMatch | internal/netbox/client.go:327-333 | The find loop gives the first accepted row, or none if none is accepted. |
| Lookups.FindIPAddressByClaimUID | internal/netbox/client.go:311-335 | The lookup is the first match in the whole tag-filtered table, over all pages, with an absent field rendered as a nil value. |
| Lookups.FindIPAddressByAddress | internal/netbox/client.go:337-360 | The lookup is the first row of the filtered table whose text, or bare address, is the one asked for. |
| Lookups.FilteredInOrder | internal/netbox/client.go:311-360 | A filtered list keeps the order of the table. |
| Lookups.LookupByUIDIsLegal | internal/netbox/client.go:311-335 | These answers are the ones the protocol counts on: a record that carries the UID, or there is none. |
| Lookups.LookupByAddressIsLegal | internal/netbox/client.go:337-360 | The same for the lookup by address, provided the server's own filter lets through what the client accepts. |
| Lookups.NilIsNotAUID | internal/netbox/client.go:328-331 | A record without the field would answer for the UID that reads as a nil value, which is why UIDs must differ from it. |
| AddressText.CandidatesFindTheRecord | internal/controller/ipaddressclaim_controller.go:368-379 | For a canonical `addr/len` text, splitting it and rebuilding the candidates gives the text and the bare address, and these two are the only texts that the record answers. |
| AddressText.LengthOfText | internal/netbox/client.go:386-401 | A text without a slash is an address of length 0, and so is one whose length is no int32 number; else the length is that number. |
| Text.ParseInt32Exact | internal/netbox/annotations.go:115-121 | A text parses to a number if and only if it is an optional sign and decimal digits of that number's value, and the number fits an int32. |
| Text.TrimPadding | internal/netbox/annotations.go:105-109 | Trimming takes away any white space around a trimmed text and nothing else. |
| Text.ParseDecimal | internal/netbox/annotations.go:115-121 | Parsing a printed decimal gives the number back, if and only if it fits an int32. |
| Text.SplitJoin | internal/netbox/annotations.go:103-104 | Splitting at a separator undoes joining with it, for parts free of it. |
| Text.JoinSplit | internal/netbox/annotations.go:103-104 | Joining undoes splitting, for every text, and no part holds the separator. |
| Annotations.SplitCSV | internal/netbox/annotations.go:103-113 | The loop gives the trimmed non-blank parts in order. |
| Annotations.SplitCSVUndoesJoin | internal/netbox/annotations.go:103-113 | It undoes a comma join of trimmed, non-empty, comma-free items. |
| Annotations.SplitCSVIgnoresPadding | internal/netbox/annotations.go:103-113 | For items with any white space around them it gives the trimmed items that are not empty, in order; every text is such a list. |
| Annotations.AppendUnique | internal/netbox/client.go:403-418 | The loop with its set of names seen computes the trimmed names without blanks and repetitions. |
| Annotations.UniqueMembers | internal/netbox/client.go:403-418 | A name is in the result if and only if it is not empty and some value trims to it. |
| Annotations.UniqueHasNoDuplicates | internal/netbox/client.go:403-418 | No name occurs twice. |
| Annotations.UniqueInOrder | internal/netbox/client.go:403-418 | Names come in the order of their first occurrence. |
| Annotations.EffectivePoolMetadata | internal/netbox/annotations.go:50-101 | The stepwise overwriting computes the effective metadata; what each annotation does to it is stated by the next eight. |
| Annotations.DefaultsAlone | internal/netbox/annotations.go:50-101 | Without any of the five annotations the pool's defaults hold. |
| Annotations.EmptyIsAbsent | internal/netbox/annotations.go:72-101 | An empty annotation is as good as none, except for the DNS name. |
| Annotations.TenantAnnotation | internal/netbox/annotations.go:72-78 | A tenant annotation that parses sets the tenant and nothing else, whatever the others say; one that does not is an error. |
| Annotations.VRFAnnotation | internal/netbox/annotations.go:79-85 | The same for the VRF. |
| Annotations.NumberAnnotations | internal/netbox/annotations.go:72-85 | For every int32 number, its decimal print as an annotation sets exactly that annotation's own field to the number. |
| Annotations.DNSAnnotation | internal/netbox/annotations.go:86-88 | A DNS annotation, even an empty one, replaces the name and nothing else. |
| Annotations.TagsAnnotation | internal/netbox/annotations.go:89-91 | A tag annotation that is not empty replaces the tags by its trimmed non-empty items, and nothing else. |
| Annotations.FieldsAnnotation | internal/netbox/annotations.go:92-100 | A custom-field annotation puts its fields over the pool's and changes nothing else, or is an error if it does not decode. |
| Annotations.PayloadCarriesStamp | internal/netbox/client.go:258-282 | What is sent: the fields of the pool, each replaced by the claim's annotated one if there is one, and the UID in its field; the effective tenant, VRF and, if not empty, DNS name; the status and the description; and the trimmed, non-empty names of the effective tags and the ownership tag, each once. |
| Model.NewRecordCarries | internal/netbox/client.go:268-272 | A new record carries its claim's UID and no other. |
| Slug.SlugifyTag | internal/netbox/client.go:465-499 | The loop with its flag equals the three passes of the specification. |
| Slug.SlugKeepsLetters | internal/netbox/client.go:465-499 | For every name: the slug holds exactly the ASCII letters and digits of the lower-cased name, in order, or is `tag` if there are none. |
| Slug.SlugHasShape | internal/netbox/client.go:465-499 | The slug is never empty, is over `[a-z0-9_-]`, and starts and ends with a letter or digit. |
| Slug.AsciiSlug | internal/netbox/client.go:465-499 | If all letters and digits are ASCII, the slug has no two adjacent separators. |
| Slug.FixedPointsAreSlugs | internal/netbox/client.go:465-499 | Up to that condition, a text is its own slug if and only if it has the shape of one. |
| Slug.SlugIdempotent | internal/netbox/client.go:465-499 | Slugging is idempotent on texts whose letters and digits are ASCII. |
| Slug.StableIffNoMixedStretch | internal/netbox/client.go:465-499 | For every name: the slug is its own slug, and has no two adjacent separators, if and only if the normalised name has no stretch between two ASCII letters or digits, itself free of them, that holds both a letter or digit outside ASCII and a character that is neither. |
| Slug.ForeignLetterBreaksIdempotence | internal/netbox/client.go:493-494 | With a letter outside ASCII it is not: a concrete text and its two slugs. |
| Owners.EnsureOwnerReferences | pkg/ipamutil/address.go:51-83 | The two upserts, the scan and the overwriting of the flags compute the specified owner list. |
| Owners.EnsuredOwners | pkg/ipamutil/address.go:57-81 | The pool ends up as an owner that does not control but blocks deletion, and the claim as an owner unless somebody else controlled the address. |
| Owners.OtherOwnersStay | pkg/ipamutil/address.go:57-81 | Every owner that is neither this claim nor this pool stays and none is added, and the pool is referred to by its UID. |
| Owners.ControllerAfter | pkg/ipamutil/address.go:57-81 | For every well-formed owner list: the controller afterwards is the one before, or the claim if there was none, and nobody if it was the pool. |
| Owners.EnsuredIdempotentIff | pkg/ipamutil/address.go:51-83 | For every list with one reference for each object and one controller at most, doing it again changes nothing if and only if the pool did not control the address before. |
| Owners.PoolAsControllerIsNotStable | pkg/ipamutil/address.go:78-81 | A concrete owner list for which it does: with the pool as controller the second pass adds what the first did not. |
| Cluster.Stores.GetClaim | pkg/ipamutil/reconciler.go:129-152 | Reading the claim and its cluster is the machine's beginning of a pass. |
| Cluster.Stores.Allocate | internal/netbox/client.go:258-309 | The allocation is one step of the machine, and a lost response shows its caller the same as a refusal. |
| Cluster.Stores.FindByClaimUID | internal/controller/ipaddressclaim_controller.go:155-158 | The lookup shows the caller the record's ID and text, nothing, or an error, and is one step of the machine. |
| Cluster.Stores.ClosingPatch | pkg/ipamutil/reconciler.go:154-161 | The deferred patch is the last step of the machine; either part of it may fail. |
| Reconciler.ClaimReconciler.Reconcile | pkg/ipamutil/reconciler.go:126-168 | One whole pass, whatever its calls answer, is a run of the machine that begins with reading the claim and ends idle, so the stores keep the invariant of all runs. |
| Reconciler.ClaimReconciler.ReconcileClaimAddress | pkg/ipamutil/reconciler.go:170-248 | The branches over pool, pause and deletion bring the machine to its closing patch with the claim as changed here. |
| Reconciler.ClaimReconciler.EnsureIPAddress | pkg/ipamutil/reconciler.go:251-313 | Create-or-patch with its mutation, writing only what differs, then waiting: Ready with that address, or not ready for the machine's reason. |
| Reconciler.ClaimReconciler.WriteAndWait | pkg/ipamutil/reconciler.go:291-311 | Writes only what differs and waits; Ready with that address, or allocation failed. |
| Reconciler.ClaimReconciler.Mutate | pkg/ipamutil/reconciler.go:262-274 | The mutation after the address is the one the machine writes. |
| Reconciler.ClaimReconciler.ReconcileDelete | pkg/ipamutil/reconciler.go:340-374 | Record first, then address, then finalizer; any failure stops with the claim unchanged. |
| Reconciler.ClaimReconciler.RemoveIPAddress | pkg/ipamutil/reconciler.go:349-371 | Takes the protection away if there is any and deletes the address; a failure keeps the claim's finalizer. |
| Reconciler.ClaimHandler.FetchPool | internal/controller/ipaddressclaim_controller.go:101-123 | The pool field is set exactly when the pool was read, and the machine stands where the result says. |
| Reconciler.ClaimHandler.EnsureAddress | internal/controller/ipaddressclaim_controller.go:125-222 | Filling the address in place, from the record found or from the first prefix that grants, follows the machine to the write, to exhaustion or to failure; which gateway that writes is `GatewayWritten.PassWritesGateway`. |
| Reconciler.ClaimHandler.AllocateNew | internal/controller/ipaddressclaim_controller.go:176-222 | Field check, prefixes and metadata come before the first question, in that order, and each failure ends the pass. |
| Reconciler.ClaimHandler.AllocateFromFirst | internal/controller/ipaddressclaim_controller.go:203-221 | The loop over the prefixes asks what the machine asks, in its order; the grant's address and gateway are those of `GatewayWritten.GrantWrites`. |
| Reconciler.ClaimHandler.GatewayDetails | internal/controller/ipaddressclaim_controller.go:230-260 | Cached details, else live ones, else none, as the machine takes them. |
| Reconciler.ClaimHandler.LiveDetails | internal/controller/ipaddressclaim_controller.go:242-259 | The live lookup follows the machine; any failure in it means no details and not a failed allocation. |
| Reconciler.ClaimHandler.FindExisting | internal/controller/ipaddressclaim_controller.go:340-366 | By UID, else by the candidates in turn; each result leaves the machine at the matching step. |
| Reconciler.ClaimHandler.TryInTurn | internal/controller/ipaddressclaim_controller.go:357-365 | The candidates are looked up in order until one is found or a lookup fails. |
| Reconciler.ClaimHandler.ReleaseAddress | internal/controller/ipaddressclaim_controller.go:288-335 | Success means the machine goes on to the address with the record gone or never there; failure means it goes to the closing patch. |
| PoolReconciler.PoolStatusReconciler.Reconcile | internal/controller/netboxippool_controller.go:52-88 | One whole pool pass, whatever its calls answer, is a run of the pool machine, so the caches stay what runs keep them. |
| PoolReconciler.PoolStatusReconciler.ReconcilePoolStatus | internal/controller/pool_controller.go:55-109 | If the listing was answered and its count fits: the count and the generation are reported; the condition is DeletionBlocked if and only if the pool is being deleted and an address is listed, else PrefixResolutionFailed if and only if a resolution was needed (nothing cached, or a generation not observed) and did not succeed, else PoolReady; the cluster label follows the spec; a live pool holds the finalizer, and a deleted one loses it if and only if no address is listed; the cache is a complete resolution of the spec if one was needed and succeeded, and stays otherwise. A count that does not fit leaves all but the observed generation. |
| PoolReconciler.ConcludedIsReported | internal/controller/pool_controller.go:86-108 | The pool machine's conclusion reports the same condition, label and finalizer, for every pool, and leaves the cache. |
| PoolReconciler.PoolStatusReconciler.ResolvePoolPrefixes | internal/controller/pool_controller.go:114-149 | Both caches are written together, as the complete resolution of the spec, after everything has resolved; otherwise the pool is unchanged. |
| PoolReconciler.PoolStatusReconciler.Settle | internal/controller/pool_controller.go:86-108 | Condition, label and finalizer come out as the pool machine concludes; what that is, `PoolReconciler.ConcludedIsReported` says. |

## Left out

- HTTP transport, TLS, JSON encoding, authorization headers, timeouts and the loading of connection secrets: an
  error there is a failed call.
- Text parsing of IP addresses and prefixes, which belongs to the Go library: addresses start from family, value
  and zone.
- The creation of NetBox tags before a lookup or an allocation: its failure is a failed call. That a tag which is
  not its own slug makes lookups fail is an assumption here.
- The classification of error bodies as "no available address": the answer `NoRoom` stands for its outcome.
- Condition messages, event recording, logs, requeue delays and the sanitising of errors: only reasons are kept.
- Watches, predicates, manager start-up, cluster label indexes and the mapping from clusters to claims.
- Stale caches: a read that is older than the provider's own writes is not modelled, and the wait for the cache is
  one read that may fail.
- Finalizers of others on claims and pools are one flag each; which finalizers they are does not matter.
- Partial commits inside the creation of an `IPAddress`: it is one write.
- The in-range warnings of a pool pass: `Prefixes.BuildResolvedPrefixes` computes the IDs, nothing reports them.
- Integer width of IDs and prefix lengths: NetBox IDs are unbounded numbers; the two places where the source
  converts to int32 are modelled.
- Progress.TwoPassesSuffice: the two passes run without events of others between their calls, as do the passes of
  `Releasing`; what came before them is any run.
- GatewayWritten.PassWritesGateway: the pass runs without failures and without events of others between its calls;
  `GatewayWritten.GrantWrites` and `GatewayWritten.ReuseWrites` hold in any state.
- GatewaySafety.GatewayHasAddressFamily: speaks of families only, because a prefix may be edited to another block
  of its family after an address was handed out.
- Allocation.FirstWithRoom: which prefixes have room is fixed for one allocation; the order of questions in
  `Allocation.AllocatesInOrder` does not depend on that.
