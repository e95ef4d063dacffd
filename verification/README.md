# kube-combo: the control plane, modelled and proved in Dafny

kube-combo is a Kubernetes operator. Its controllers turn `VpnGw`, `KeepAlived`, `IpsecConn` and
`Debugger` objects into workloads, keep a status that mirrors each specification, hand out VRRP router
ids, and push IPsec connection lists into pods. Two programs run inside the pods it creates: a detection
runner and a pinger. This project models that logic and proves what it keeps over whole runs.

`dafny verify dfyconfig.toml` checks everything.

| file | what it models |
|---|---|
| `Api.dfy`, `GoStrings.dfy`, `GatewayTypes.dfy`, `DebuggerTypes.dfy` | replies and results, Go's string functions, the objects |
| `Keepalived.dfy` | the router id allocator, the KeepAlived reconciler, exhaustion |
| `VridSafety.dfy` | router ids and the workloads that print them, over every run of both reconcilers |
| `IpsecEncoding.dfy`, `ConnectionScript.dfy` | validation and printing of the connection list, reading it back, and the script in the pods that does |
| `LabelIndex.dfy` | the label that serves as index of connections, and the whole pipeline end to end |
| `Selectors.dfy` | the node selector parser |
| `Admission.dfy` | the VpnGw webhook against the reconciler's validator; write-once fields |
| `GatewayStatus.dfy` | the gateway's change test and status copy, and how far copying converges |
| `GatewayWorkload.dfy`, `GatewayController.dfy` | the gateway's workload builders and reconciler |
| `GatewayReading.dfy`, `GatewayRuns.dfy`, `GatewayConvergence.dfy`, `GatewayMisled.dfy`, `GatewaySamples.dfy` | what a gateway workload says, the runs of a gateway, when workload and status are right, and runs on which they are not |
| `DebuggerWorkload.dfy`, `DebuggerController.dfy`, `DebuggerConvergence.dfy` | the Debugger's builders, its reconciler, and its runs |
| `Detection.dfy`, `Pinger.dfy` | the detection runner and the pinger loop |

## How it is modelled

- The reply to each read is a parameter of the step that makes it, so a theorem over all replies covers
  whatever other actors do between two calls. Writes change a class (`ApiServer`, `ConnStore`, `Store`) or
  are recorded in order by one (`Client`, `Runner`).
- Each method that follows the source statement by statement is proved equal to a specification function;
  the results over runs are lemmas about those functions.
- `setRouterID` stores a status field through the main endpoint
  (internal/controller/keepalived_controller.go:154-155) and `UpdateVpnGW` changes a specification field but
  writes through the status endpoint (internal/controller/vpngw_controller.go:355, 377), although both kinds
  declare a status subresource (api/v1/keepalived_types.go:67, api/v1/vpngw_types.go:167). `Endpoints` is a
  parameter: `Merged` persists what the code intends, `Separate` is the subresource's behaviour. Results
  hold for both unless one of the two is named.
- A main-endpoint update carries a resource version and is refused when the stored one differs. There is one
  KeepAlived worker at a time. Its Get may return any version ever stored.
- A slice that the code compares with `reflect.DeepEqual` is an `Option` of a sequence: nil and empty differ.
  Users can store an empty list in a specification, while the JSON of the operator's Go client leaves out empty
  lists with `omitempty` (api/v1/vpngw_types.go:143-144, 158, api/v1/debugger_types.go:128-129): what the operator
  stores goes through `OnWire`, which turns empty into nil. What an affinity points to is abbreviated to a text and
  a flag that says whether it has such a list.
- A nil dereference is an outcome, `Panicked`, not a precondition. A nil workload handed to `Create` is an error of
  the client, handed to `Update` a nil dereference.
- A Go map that is ranged over is a map and an iteration order; every order is allowed, and two loops over
  the same map may use two orders.
- The first read of a reconcile of a Debugger or a gateway sees the stored object. Whatever somebody else does before
  the object is read again for the status write, an edit that a stale first read would miss included, is the
  `Window` of that reconcile. A Debugger's status goes through the status endpoint, which keeps the specification.

## What the proofs say about the code

- With the status subresource on, no KeepAlived ever gets a router id and no workload with a KeepAlived is
  ever written (`SeparateEndpointsNeverAssign`).
- On every run, an id never changes and a workload prints the id of its KeepAlived. Ids are unique exactly as long
  as every live id that a listing misses comes after one that is free in it (`WriteKeepsDistinctIff`); a cache
  that lags behind the worker's own last write can repeat an id (`StaleListingDuplicates`). The id of a deleted
  object is reused at once, while its workload may still print it (`DeletedIDIsReused`, `WriteSharesIff`).
- The connection list can be read back exactly when no printed field has a space or a colon
  (`DecodeEncodeIff`). Nothing in `validateIPSecConns` checks for them: an IPv6 address breaks an accepted list
  (`AddressBreaksTheList`), and two accepted lists can print alike (`DifferentListsPrintAlike`). A connection whose
  auth is neither `pubkey` nor `psk` is accepted and dropped. Nothing compares the authentication of a connection with
  the mode of its gateway either, and the script in the pods reads a list right exactly if they agree
  (`ScriptReadsIff`, `CertificatesStopTheScript`, `KeysAreMisread`). A connection of another namespace is sent like any
  other (`ForeignConnectionIsSent`).
- A StatefulSet gateway without a KeepAlived passes validation and panics the reconciler (`PanicsIff`,
  `StatefulSetWithoutKeepalivedPanics`). A KeepAlived with an IPv6 address alone is ready (`SucceedsIff`), and its
  container is told no address (`KeepalivedSays`).
- One round of `UpdateVpnGW` is not always enough, two are (`StoredFixpoint`, `OneRoundIff`). Under the
  status subresource it writes again on every reconcile of an IPsec gateway whose specification does not
  list its connections, and of a gateway with an empty selector or empty tolerations (`WritesStopIff`,
  `ConnectionsAreWrittenForEver`, `EmptySelectorIsWrittenForEver`). A gateway without SSL VPN that got the default
  protocol counts as changed for ever (`DefaultProtoStaysStale`).
- A reconcile of a gateway builds from the specification that it read first and records the one that it read last,
  several seconds later; the workload is right exactly if the first shows the last (`RoundIff`). On every run, with
  reconciles that fail anywhere, a gateway that counts as unchanged has a workload with its resources, rate,
  replicas, switches and scheduling, provided that no successful reconcile meets such an edit, no change of kind
  finds an old workload, and no edit makes the gateway look unchanged between a build whose reconcile failed and the
  next success, unless it asks for what was built. It has all its fields if besides every build of a successful
  reconcile leaves no residual (`UnchangedMeansPlaced`, `NoResidual`). It has the wrong workload for good after an
  edit in the window (`WindowEditMisleads`), after a change of kind and back (`ChangeOfKindMisleads`), after a change
  of image and back (`RevertIff`, `RevertedImageMisleads`), although every call succeeds, and after a change whose
  status write failed and back (`RevertAfterFailedBuildIff`, `FailedWriteMisleads`). Edits of secrets,
  authentication, keys or KeepAlived never reach it (`UnwatchedEditIsIgnored`). Switching a VPN on or off changes the
  labels that are the selector of the workload, so a store that refuses to change a selector refuses every reconcile
  from then on (`SwitchIsRefusedForGood`).
- A Debugger whose status agrees with its specification is never touched again (`UnchangedIsInert`), so a
  deleted workload stays deleted, which is not so for gateways (`DeletedWorkloadIsRecreated`). An edit between
  the first read and the status refetch is lost unless the workload shows it anyway (`WindowEditIff`,
  `WindowEditStrands`), and so is going back after a failed status write (`RevertAfterFailedWriteIff`). With empty
  tolerations it never comes to rest (`LossyNeverSettles`). The status never records the subnet, so the guard
  against changing it never fires (`SubnetGuardNeverFires`). A config map that disappears between the check and
  the build empties all volumes and the reconcile still succeeds (`OneReconcileSuffices`, `BuiltMountsIff`).
- The pinger's error flag is never cleared, and this is invisible: a loop that looks only at its latest check
  behaves alike (`StartPinger`). Outside server mode a failed check has no effect on the outcome.
- A report whose category is spelt `Timestamp` loses the name of its task (`ReportNamesIff`).

## Model

| member | source | states |
|---|---|---|
| Keepalived.FindNextAvailableID | internal/controller/keepalived_controller.go:163-174 | the result is the least positive id that is not in use, or none when 1..255 all are |
| Keepalived.NextIDIsLeast | internal/controller/keepalived_controller.go:163-174 | "least free id in 1..255, else none" characterises the allocator: no other answer meets it |
| Keepalived.ApiServer.UpdateKeepAlived | internal/controller/keepalived_controller.go:154-157 | an update is taken exactly when the call arrives, the object lives and its version is current; then the object gets a new version, and under separate endpoints keeps its stored id |
| Keepalived.SetRouterID | internal/controller/keepalived_controller.go:137-161 | the id written is the least one in 1..255 that no listed object has; the call succeeds if and only if the list arrived, there is such an id and the update is taken, and otherwise the store stays as it is |
| Keepalived.HandleAddOrUpdateKeepAlived | internal/controller/keepalived_controller.go:108-135 | the result and the new store for every reply: an object that has an id is never written, a missing object is success, a failed assignment is not retried |
| Keepalived.ExhaustedIff | internal/controller/keepalived_controller.go:143-149 | with ids unique, an up-to-date listing of a namespace leaves no id if and only if exactly 255 live objects hold one |
| VridSafety.IDsAreInRange | internal/controller/keepalived_controller.go:163-174 | on every run, however stale reads and listings, the id of a live object is 0 or in 1..255 |
| VridSafety.IDsAreUnique | internal/controller/keepalived_controller.go:108-174 | on every run of create, edit, delete, read, list, write and workload steps whose listings cover the live ids, non-zero ids of live objects in a namespace are pairwise distinct |
| VridSafety.IDNeverChanges | internal/controller/keepalived_controller.go:124-128 | on every run, with any Get and any listing, an id, once given, stays the object's id while that object lives |
| VridSafety.WorkloadCarriesPresentID | internal/controller/vpngw_controller.go:1289-1325 | on every run, with any Get and any listing, every installed workload whose KeepAlived lives prints that object's present id, a number in 1..255 |
| VridSafety.NoSharedRouterID | internal/controller/vpngw_controller.go:424-428 | on every run whose listings cover the live ids, two workloads built with different live KeepAliveds of one namespace never print the same virtual router id |
| VridSafety.FreshListingsSuffice | internal/controller/keepalived_controller.go:143-149 | on every run in which each listing is the one of its namespace at that time, in any order, ids are in range and distinct, and workloads built with different live KeepAliveds of one namespace print different ids |
| VridSafety.WriteKeepsDistinctIff | internal/controller/keepalived_controller.go:137-160 | one write keeps ids distinct if and only if every live id that its listing misses comes after an id that is free in the listing; a listing that covers the live ids has that property, and extra ids of deleted objects do no harm |
| VridSafety.NextKeepsInv | internal/controller/keepalived_controller.go:108-174 | every single step, of either reconciler or of a user, keeps: ids in range, an id held once is held for life, and installed workloads print an id that their source held |
| VridSafety.NextKeepsApart | internal/controller/keepalived_controller.go:137-160 | every single step whose listing covers the live ids keeps ids distinct |
| VridSafety.SeparateEndpointsNeverAssign | api/v1/keepalived_types.go:67 | with the status subresource on, on every run no object ever holds an id and no workload with a KeepAlived is installed |
| VridSafety.HandlerIsTwoSteps | internal/controller/keepalived_controller.go:108-161 | the reconciler's method does what its read step and its write step do one after the other |
| VridSafety.WriteSharesIff | internal/controller/keepalived_controller.go:149-157 | an accepted write gives its object the id that an installed workload prints if and only if that id is the least one free in its listing |
| VridSafety.StaleListingDuplicates | internal/controller/keepalived_controller.go:137-147 | a concrete run in which both listings are that of all objects just before the worker's first write ends with two workloads of different live KeepAliveds of one namespace that print the same id |
| VridSafety.DeletedIDIsReused | internal/controller/keepalived_controller.go:163-174 | a concrete run with up-to-date listings ends with two workloads of one namespace that print the same id, one of a KeepAlived that is gone and one of a live one |
| IpsecEncoding.CheckConnection | internal/controller/vpngw_controller.go:1162-1222 | a connection passes the chain of checks if and only if it meets every demand at once, and a complaint is true of the connection |
| IpsecEncoding.PrintPSK | internal/controller/vpngw_controller.go:1236-1256 | a psk record is printed with a space between fields and a colon at the end, with 11 fields, or 13 when both the local gateway and its interface are given; `RecordReadsBack` says what is where |
| IpsecEncoding.PrintConnections | internal/controller/vpngw_controller.go:1161-1258 | the loop prints the records of all connections in list order, or stops at the first connection that is not acceptable with a complaint that is true of it |
| IpsecEncoding.ValidateIPSecConns | internal/controller/vpngw_controller.go:1151-1265 | the fail-fast loop accepts if and only if the default PSK is set when needed, every connection is acceptable, and one of them is printed; then the text encodes the records |
| IpsecEncoding.RecordLengths | internal/controller/vpngw_controller.go:1225-1256 | every printed record has 10, 11 or 13 fields |
| IpsecEncoding.RecordsNonEmpty | internal/controller/vpngw_controller.go:1259-1263 | the list has a record exactly when some connection uses pubkey or psk |
| IpsecEncoding.DecodeEncodeIff | internal/controller/vpngw_controller.go:1224-1257 | splitting at ':' and then at ' ' gives back the records in order if and only if no field contains either |
| IpsecEncoding.EncodingInjective | internal/controller/vpngw_controller.go:1224-1257 | two lists with clean fields that print alike have the same records in the same order |
| IpsecEncoding.AddressBreaksTheList | internal/controller/vpngw_controller.go:1225-1235 | every gateway accepts a list, with an IPv6 remote address, whose text does not decode to its records |
| IpsecEncoding.DifferentListsPrintAlike | internal/controller/vpngw_controller.go:1225-1235 | every gateway accepts two lists with different records and the same text |
| ConnectionScript.RecordReadsBack | internal/controller/vpngw_controller.go:1225-1256 | read by the positions at which the script of the pods reads, a pubkey record is the name, settings, common names, addresses and networks of its connection, and a psk record its name, settings, VIP, addresses, networks, the default key, ESP proposals and, if both are given, local gateway and interface |
| ConnectionScript.ScriptReadsIff | dist/strongswan-setup/connection.sh:93-142 | of an accepted list with plain fields, the script in the mode of the gateway gets what each connection asks for, in list order, if and only if every printed connection authenticates the way the gateway does |
| ConnectionScript.CommandRuns | internal/controller/vpngw_controller.go:1349-1353 | the command that is executed starts the script in the mode of the gateway and hands it the printed list |
| ConnectionScript.CertificatesStopTheScript | dist/strongswan-setup/connection.sh:104-116 | every gateway with a pre-shared key accepts a connection with certificates, at which its script stops |
| ConnectionScript.KeysAreMisread | dist/strongswan-setup/connection.sh:52-62 | every gateway without one accepts a connection with a pre-shared key, of which its script takes the networks of the other side for its address |
| LabelIndex.ConnStore.Patch | internal/controller/ipsecconn_controller.go:138-146 | a merge patch changes exactly the labels in which what was read and what is wanted differ, on whatever object has the key then |
| LabelIndex.HandleAddOrUpdateIpsecConnection | internal/controller/ipsecconn_controller.go:113-148 | the result and the new store for every reply; a connection that does not validate is labelled all the same |
| LabelIndex.PatchedFromCurrent | internal/controller/ipsecconn_controller.go:107-111 | a patch made from the stored object leaves the gateway label and removes every other |
| LabelIndex.PatchLaws | internal/controller/ipsecconn_controller.go:138-146 | a patch sets what its reader saw wrong, removes what its reader saw and does not want, leaves the rest as stored, and from a current read yields what is wanted |
| LabelIndex.StalePatchIff | internal/controller/ipsecconn_controller.go:113-148 | after a patch from an old read the gateway label is right if and only if, when the read was labelled right, the stored object is, and otherwise the read names the gateway of the stored object |
| LabelIndex.RunKeepsInv | internal/controller/ipsecconn_controller.go:113-148 | on every run of edits, deletions, stale reads and patches, a connection patched from a current read is labelled with its own gateway until the next edit |
| LabelIndex.IndexAgrees | internal/controller/vpngw_controller.go:1436-1444 | after any run that leaves every connection settled, the label selects a connection if and only if its specification names the gateway |
| LabelIndex.QuiescenceIndexes | internal/controller/ipsecconn_controller.go:113-148 | from any state a run reaches, one undisturbed reconcile of every connection makes label and field agree for all of them |
| LabelIndex.OneRecordEach | internal/controller/vpngw_controller.go:1225-1257 | a listing without repetitions has as many records as printable connections |
| LabelIndex.EndToEnd | internal/controller/vpngw_controller.go:1327-1372 | with a settled index, plain fields and connections that authenticate the way the gateway does, a successful reconcile started the script on every listed pod of the gateway and on no other, with a list of which it reads what each printable connection asks for whose specification names the gateway, as many settings as there are such connections, and nothing else |
| LabelIndex.ListIsSent | internal/controller/vpngw_controller.go:1327-1372 | the same for clean fields and any authentication: the text decodes to the records of the listing in its order, one for each such connection and no other |
| LabelIndex.NamespaceIsIgnored | internal/controller/vpngw_controller.go:1436-1444 | listing, validation and record of a connection do not depend on its namespace |
| LabelIndex.ForeignConnectionIsSent | internal/controller/vpngw_controller.go:1171-1175 | every gateway accepts and prints a labelled connection of a namespace that is not its own |
| GoStrings.SplitJoin | internal/controller/vpngw_controller.go:1224-1257 | joining parts that are free of the separator and splitting gives the parts back |
| GoStrings.TrimSpaceIs | internal/controller/vpngw_controller.go:656-666 | trimming cuts white space and nothing else from both ends, and leaves none there |
| GoStrings.PortRoundTrip | internal/controller/vpngw_controller.go:1464-1480 | a printed integer is accepted back as a port exactly when it is in 1..65535 |
| GoStrings.ItoaInjective | internal/controller/vpngw_controller.go:424-428 | two integers print alike only if they are equal |
| Selectors.ParseSelectors | internal/controller/vpngw_controller.go:656-666 | the loop computes the fold over the entries that split into two parts |
| Selectors.FoldSelects | internal/controller/vpngw_controller.go:1027-1037 | a key is in the parsed map exactly when an entry names it, with the value of the last entry that does |
| Selectors.EntryIff | internal/controller/vpngw_controller.go:656-666 | an entry counts if and only if it has exactly one colon |
| Selectors.EntryOfPair | internal/controller/vpngw_controller.go:656-666 | an entry with one colon is the pair of what stands before and after it, each without the space around it |
| Selectors.SelectionIsUnique | internal/controller/debugger_controller.go:1242-1252 | the last-wins reading determines the map, so every copy of the parser that meets it agrees |
| Selectors.PrintParse | internal/controller/debugger_controller.go:1242-1252 | a map of trimmed, colon-free keys and values, printed as "key: value" entries in any order and any number of times, is parsed back as it was |
| Admission.FirstBroken | internal/controller/vpngw_controller.go:171-237 | the reconciler's validator names a rule that is broken, and none only if no rule is |
| Admission.ValidateSpec | api/v1/vpngw_webhook.go:123-191 | the webhook complains about exactly the fields that break a rule, and is silent if and only if no rule is broken |
| Admission.ValidatorsAgree | api/v1/vpngw_webhook.go:123-191 | the collecting validator and the fail-fast one accept the same specifications |
| Admission.ValidateUpdate | api/v1/vpngw_webhook.go:68-113 | an update is admitted if and only if the new specification breaks no rule and no guarded field that had a value changes |
| Admission.WriteOnce | api/v1/vpngw_webhook.go:80-106 | along any chain of admitted updates a guarded field that has a value keeps it |
| Admission.EmptyThenConstant | api/v1/vpngw_webhook.go:80-106 | along any such chain each of the six guarded fields is empty up to some point and one constant value from there on |
| GatewayStatus.CopyStatus | internal/controller/vpngw_controller.go:309-375 | the field-by-field copy yields the mirrored object, and notes a change exactly when the object differs |
| GatewayStatus.ResidualIff | internal/controller/vpngw_controller.go:239-292 | after one round the change test is still true if and only if an SSL field differs and SSL did not flip, or the IPsec image differs and IPsec did not flip, or the specification lists connections afterwards, or the status endpoint kept a specification with a list that the status cannot hold |
| GatewayStatus.StoredFixpoint | internal/controller/vpngw_controller.go:294-382 | with unchanged specification and connections, two rounds reach the fixpoint of the stored object from any object |
| GatewayStatus.OneRoundIff | internal/controller/vpngw_controller.go:353-359 | one round is enough if and only if it is not the round that turns IPsec on with connections to record |
| GatewayStatus.WritesStopIff | internal/controller/vpngw_controller.go:353-381 | after two rounds writes go on if and only if the status endpoint keeps the specification and an IPsec gateway does not list its connections, or a gateway that writes at all has an empty non-nil selector, tolerations or affinity list |
| GatewayStatus.ConnectionsAreWrittenForEver | internal/controller/vpngw_controller.go:353-359 | an admissible gateway that writes its status on every round for its connections |
| GatewayStatus.EmptySelectorIsWrittenForEver | api/v1/vpngw_types.go:143-144 | an admissible gateway that writes its status on every round for its empty selector |
| GatewayStatus.FaithfulRun | api/v1/vpngw_webhook.go:68-113 | on every run of admitted edits and rounds, KeepAlived, protocol and subnet of the status are those of the specification or still empty, and protocol and subnet are set while the status has SSL VPN on |
| GatewayStatus.AdmittedResidual | internal/controller/vpngw_controller.go:309-351 | on every admitted run from a new gateway, exactly when each field is behind after a round: the KeepAlived never; protocol and subnet only while SSL VPN is off and never recorded; SSL cipher and image if they differed and SSL did not flip; the IPsec image if it differed and IPsec did not flip |
| GatewayStatus.DefaultProtoStaysStale | api/v1/vpngw_types.go:91-95 | a new admissible gateway without SSL VPN and with the default protocol counts as changed after any number of rounds |
| GatewayWorkload.StatefulSetForVpnGw | internal/controller/vpngw_controller.go:384-684 | the StatefulSet that is built, ports included, or nil for a port that does not parse |
| GatewayWorkload.DaemonsetForVpnGw | internal/controller/vpngw_controller.go:686-1055 | the DaemonSet that is built, ports included, or nil for a port that does not parse |
| GatewayWorkload.WorkloadCarriesRouterID | internal/controller/vpngw_controller.go:982-985 | looking the virtual router id up in a built workload gives the id of the KeepAlived it was built with, and nothing if there was none |
| GatewayWorkload.MountsHaveVolumes | internal/controller/vpngw_controller.go:686-1055 | whatever a container of a built workload mounts is declared as a volume |
| GatewayWorkload.PortsAreLegal | internal/controller/vpngw_controller.go:452-457 | every port that a built workload declares is in 1..65535 |
| GatewayController.HandleAddOrUpdateVpnGw | internal/controller/vpngw_controller.go:1267-1388 | the outcome and the exact list of calls for every combination of replies |
| GatewayController.UpdateVpnGW | internal/controller/vpngw_controller.go:294-382 | the status is written exactly when the refetched object differs from its mirror, and with that mirror |
| GatewayController.HandleAddOrUpdateWorkload | internal/controller/vpngw_controller.go:1066-1149 | a missing workload is created and a changed one updated, nothing else is written; a nil KeepAlived panics, a workload that could not be built is refused by the create and panics the update |
| GatewayController.GetVpnGwPodNames | internal/controller/vpngw_controller.go:1390-1420 | exactly the names of the listed pods that carry the gateway's name and the "true" label of IPsec, or of SSL without IPsec, in list order, and an error exactly when the list failed, no such pod is there or one of them is not running |
| GatewayController.MatchingIff | internal/controller/vpngw_controller.go:1391-1396 | of the listed pods, those with the gateway's name and the label of its VPN match, each as often as it is listed, and no others |
| GatewayController.MatchingConcat | internal/controller/vpngw_controller.go:1396 | matching pods come in the order of the listing |
| GatewayController.OwnPodsMatchIff | internal/controller/vpngw_controller.go:1391-1396 | a gateway finds the pods of its own workload, and those of another gateway if and only if that has its name and the VPN it looks for |
| GatewayController.ExecOnPods | internal/controller/vpngw_controller.go:1355-1366 | the command is run on one pod after the other and stops at the first failure |
| GatewayController.SuccessMeansDone | internal/controller/vpngw_controller.go:1327-1388 | success for a live IPsec gateway means that all listed connections were acceptable, at least one pod matched, all ran, the full encoded list was executed once on each in list order, and the status write came after all of them |
| GatewayController.CommandsAreOwn | internal/controller/vpngw_controller.go:1171-1175 | every command ever executed encodes a listing in which each connection names this gateway, and was executed on a listed pod of this gateway, however stale the labels and however the reconcile ended |
| GatewayController.OnlyTheLastFails | internal/controller/vpngw_controller.go:1312-1384 | in every reconcile only the last call can fail, a workload is written first if at all, and a status last; after a success no call failed |
| GatewayController.SucceedsIff | internal/controller/vpngw_controller.go:1267-1388 | a reconcile succeeds if and only if the gateway is gone, or it and its KeepAlived are valid and the workload is current or can be built and is taken, the connections of an IPsec gateway are acceptable and each of its pods, at least one, runs and takes them, and the status needs no write or is taken |
| GatewayController.NotRetriedIff | internal/controller/vpngw_controller.go:1274-1305 | a reconcile is given up for good if and only if the gateway cannot be read, or it is not admissible, or the KeepAlived it names is there and has no image or no address |
| GatewayController.NamesAreRecorded | internal/controller/vpngw_controller.go:1378-1384 | a status write of a gateway that had IPsec on lists the names of the connections, in the order of the listing; any other leaves the recorded connections alone |
| GatewayController.WrittenKeepsAnnotations | internal/controller/vpngw_controller.go:686-710 | a workload is created when missing and replaced when the gateway changed; it has the logical switch of the KeepAlived, both rates of the gateway, and otherwise exactly the annotations of the replaced one |
| GatewayController.WrittenWorkloadCarriesID | internal/controller/vpngw_controller.go:1289-1325 | a written workload carries the id of the KeepAlived the gateway names, which is not 0, and none if it names none |
| GatewayController.PanicsIff | internal/controller/vpngw_controller.go:384-400 | a reconcile panics if and only if it has a workload to build and is a StatefulSet without KeepAlived, or has one to update and a port that does not parse |
| GatewayController.StatefulSetWithoutKeepalivedPanics | internal/controller/vpngw_controller.go:384-400 | an admissible gateway whose reconcile panics for all replies that report its StatefulSet missing |
| GatewayController.DeletedWorkloadIsRecreated | internal/controller/vpngw_controller.go:1066-1149 | the next reconcile that passes the gate creates a missing workload, changed or not, if and only if it can be built |
| GatewayReading.RecordsIff | internal/controller/vpngw_controller.go:294-382 | a round leaves a status with the nine always-copied fields of the specification, and with all fourteen if and only if cipher, protocol, subnet and SSL image agreed or SSL was switched, and the IPsec image agreed or IPsec was switched |
| GatewayReading.CarriesIff | internal/controller/vpngw_controller.go:384-1055 | reading resources, switches, rates, replicas, selector, tolerations, affinity, SSL settings and images off a stored workload gives a set of fields if and only if these ask for the same as the specification it was built from |
| GatewayReading.SslServerSays | internal/controller/vpngw_controller.go:715-847 | the SSL container listens on the port of its protocol, under the protocol's name, has each of its eight variables, and mounts exactly both SSL secrets and, on the host, manifests and cache; without SSL there is none |
| GatewayReading.IPSecServerSays | internal/controller/vpngw_controller.go:849-952 | the IPsec container listens on the isakmp and the nat port, has both variables, and mounts exactly the secret if keys are not pre-shared and, on the host, manifests and cache; without IPsec there is none |
| GatewayReading.KeepalivedSays | internal/controller/vpngw_controller.go:965-997 | the keepalived container has the image, address, id and interface of the KeepAlived and mounts nothing; without a KeepAlived there is none |
| GatewayReading.WorkloadSays | internal/controller/vpngw_controller.go:686-1055 | kind, name, host network, gateway label, logical switch and exactly the declared volumes of a built workload |
| GatewayRuns.StepIs | internal/controller/vpngw_controller.go:1267-1388 | the calls of a reconcile, applied to the store one by one with somebody else's interference before the status write, store the workload if it was built and accepted, and the status if the gateway was read again and the write accepted, and nothing else |
| GatewayConvergence.OnSuccess | internal/controller/vpngw_controller.go:1267-1388 | a successful reconcile leaves the gateway that it read again, after a round of copying, a workload built from the gateway that it read first if that had changed or had none, the old workload otherwise, and the other kind's untouched |
| GatewayConvergence.RoundIff | internal/controller/vpngw_controller.go:294-382 | after any successful reconcile and any edit on its way, the status has the fields that were read again, all of them if and only if no residual is left, and the workload of the kind that they ask for carries them if and only if, when rebuilt, the fields read first show them, and otherwise if it did before |
| GatewayConvergence.PlacedIff | internal/controller/vpngw_controller.go:1079-1106 | after an undisturbed successful reconcile, also one after a change of kind, the workload was built from the specification if and only if the gateway had changed, or had none of that kind, or had one built from these fields |
| GatewayConvergence.UnchangedMeansPlaced | internal/controller/vpngw_controller.go:239-292 | on every run of creation, edits, removal, lost workloads and reconciles with interference that may fail anywhere, builds included, an unchanged gateway's workload, unless lost, was built from its present nine always-copied fields and says so itself, provided that edits met by a successful reconcile leave the fields alone, that no edit finds an old workload of another kind, and that an edit between a failed build and the next success leaves the gateway changed or asks for what was built; the same for all fourteen fields if besides every build of a successful reconcile leaves no residual |
| GatewayConvergence.RunIsPresent | internal/controller/vpngw_controller.go:1066-1149 | on every run in which nobody deletes a workload and the kind stays, a gateway with a recorded status has its workload |
| GatewayConvergence.UnchangedKeepsWorkload | internal/controller/vpngw_controller.go:1092-1106 | an unchanged gateway's workload stays as it is, whatever a reconcile is told, a changed KeepAlived included |
| GatewayConvergence.UnchangedIsInert | internal/controller/vpngw_controller.go:239-292 | without IPsec, undisturbed reconciles of an unchanged gateway with a workload change nothing at all |
| GatewayConvergence.StaysUnchangedIff | internal/controller/vpngw_controller.go:239-292 | an edit keeps an unchanged gateway unchanged if and only if it touches none of fifteen watched fields and names no first KeepAlived |
| GatewayConvergence.UnwatchedEditIsIgnored | internal/controller/vpngw_controller.go:239-292 | edits of secrets, SSL authentication, key mode, default key or KeepAlived never reach the workload of an unchanged gateway |
| GatewayConvergence.RevertIff | internal/controller/vpngw_controller.go:328-351 | an edit of cipher, protocol, subnet or images of an unchanged gateway leaves a residual; after an undisturbed successful reconcile and an edit back the gateway is unchanged, and its workload, built in between, carries the fields if and only if it shows no difference |
| GatewayConvergence.RevertAfterFailedBuildIff | internal/controller/vpngw_controller.go:1312-1384 | after a build whose reconcile fails and an edit that makes the gateway look unchanged again, the workload carries the gateway's fields if and only if what was built shows them, or, after a change of kind, if and only if the one that was there already did; no later reconcile changes it |
| GatewayConvergence.SwitchIsRefusedForGood | internal/controller/vpngw_controller.go:1058-1064 | an edit of a gateway whose workload is in place asks for other labels, which are the workload's selector, if and only if it switches a VPN; on a store that refuses to change them no number of undisturbed reconciles then changes anything, and none succeeds |
| GatewayConvergence.OtherKindIsLeftBehind | internal/controller/vpngw_controller.go:1312-1325 | a reconcile never touches the workload of the other kind |
| GatewayMisled.WindowEditMisleads | internal/controller/vpngw_controller.go:1089-1101 | a concrete run of one successful reconcile with an edit of the CPU before the second read ends, whatever undisturbed reconciles follow, with an unchanged gateway whose workload has the old CPU |
| GatewayMisled.ChangeOfKindMisleads | internal/controller/vpngw_controller.go:1312-1325 | a concrete run from StatefulSet to static and back, every call of which succeeds, ends for good with an unchanged gateway and a StatefulSet with the old CPU |
| GatewayMisled.RevertedImageMisleads | internal/controller/vpngw_controller.go:328-343 | a concrete run with a change of the SSL image and back, every call of which succeeds, ends for good with an unchanged gateway whose workload runs the abandoned image |
| GatewayMisled.FailedWriteMisleads | internal/controller/vpngw_controller.go:377-381 | a concrete run in which the CPU is changed, the workload updated, the status write refused and the CPU changed back ends for good with an unchanged gateway whose workload has the abandoned CPU |
| DebuggerWorkload.GetVolumesMounts | internal/controller/debugger_controller.go:728-1032 | the volumes and mounts, with their read-only flags and mode, for every combination of options; a config map that cannot be read empties both |
| DebuggerWorkload.MountsAreVolumes | internal/controller/debugger_controller.go:728-1032 | mounts and volumes name the same things in the same order, and directories of the host are mounted at their own path |
| DebuggerWorkload.WritableMountsIff | internal/controller/debugger_controller.go:803-956 | a mount can be written if and only if it is the log directory of the operator or, with the system switch on, one of four directories |
| DebuggerWorkload.GetDebuggerPod | internal/controller/debugger_controller.go:1034-1093 | the pod that is built carries the mirrored fields of its specification |
| DebuggerWorkload.GetDebuggerDaemonset | internal/controller/debugger_controller.go:1163-1272 | the DaemonSet that is built carries the mirrored fields of its specification, the scheduling constraints that only it gets included |
| DebuggerWorkload.CarriesIff | internal/controller/debugger_controller.go:1034-1272 | reading kind, image, resources, both rates, host network, system switch, config keys, pinger container, node and constraints off a built workload gives a set of mirrored fields if and only if these ask for the same as the specification it was built from |
| DebuggerWorkload.MountsConfigIff | internal/controller/debugger_controller.go:958-1032 | volumes and mounts of a stored workload are exactly those that a set of mirrored fields asks for if and only if these ask for the config maps of the specification and all of them could be read at the build, or for none and one could not |
| DebuggerWorkload.BuiltMountsIff | internal/controller/debugger_controller.go:958-1032 | a stored workload declares and mounts the config maps of its specification if and only if all of them could be read at the build |
| DebuggerWorkload.ScriptsAreMounted | internal/controller/debugger_controller.go:975-1000 | the scripts volume is executable and holds exactly the keys of the config map that end in .sh |
| DebuggerWorkload.VariablesSay | internal/controller/debugger_controller.go:531-625 | looked up by name, the nine variables of every container, and five more with a Pinger, have the values of the specification: the DaemonSet name only for a DaemonSet, the subnet only off the host network |
| DebuggerWorkload.WorkloadSays | internal/controller/debugger_controller.go:1034-1272 | name and kind, containers with their images, the node name of a Pod only, and of a DaemonSet only the node selector, which selects what the last entries say |
| DebuggerWorkload.KeepsAnnotations | internal/controller/debugger_controller.go:1040-1051 | the annotations of a built workload are the subnet as logical switch, both rates, and otherwise exactly those that were kept |
| DebuggerController.ValidateDebugger | internal/controller/debugger_controller.go:341-406 | a Debugger passes the chain of checks if and only if it meets every demand at once |
| DebuggerController.ValidatePinger | internal/controller/debugger_controller.go:408-437 | a Pinger passes if and only if it is not used, is being deleted, or has an image and a target |
| DebuggerController.Admit | internal/controller/debugger_controller.go:155-196 | the first obstacle in the order of the checks, and for a Debugger without one a Pinger whenever its container is enabled, so that the builders never dereference nil |
| DebuggerController.GateIff | internal/controller/debugger_controller.go:155-196 | a Debugger passes if and only if it is valid, each config map that it asks for is there with data, and the Pinger that it names is there and will do |
| DebuggerController.GateTells | internal/controller/debugger_controller.go:155-196 | an invalid Debugger is not retried; otherwise a retry means that something is missing, and giving up that something that is there is without data or not valid |
| DebuggerController.SucceedsIff | internal/controller/debugger_controller.go:137-224 | a reconcile succeeds if and only if the Debugger is gone, or passes and is unchanged, or passes and the workload is stored and the status, unless the Debugger is gone or back by then, is too |
| DebuggerController.NotRetriedIff | internal/controller/debugger_controller.go:137-224 | a reconcile is given up for good if and only if the Debugger cannot be read or its gate gives it up |
| DebuggerController.BuiltSays | internal/controller/debugger_controller.go:155-224 | what a reconcile builds has the probes of the Pinger that the specification names in every container, and the annotations of the workload of its kind if there is one |
| DebuggerController.CopyStatus | internal/controller/debugger_controller.go:236-302 | the copy makes the mirrored fields of the status those of the specification, leaves the rest, and notes a change exactly when the change test was true |
| DebuggerController.Store.HandleAddOrUpdatePod | internal/controller/debugger_controller.go:439-480 | the pod is replaced exactly when it is missing or the Debugger changed and both calls succeed |
| DebuggerController.Store.HandleAddOrUpdateDaemonset | internal/controller/debugger_controller.go:482-523 | the same for the DaemonSet |
| DebuggerController.Store.UpdateDebugger | internal/controller/debugger_controller.go:226-310 | the refetched object's status takes over its specification, without empty lists; a failed read or write is an error, a missing object is not |
| DebuggerController.Store.HandleAddOrUpdateDebugger | internal/controller/debugger_controller.go:137-224 | the new store and the result for every combination of replies and for every interference before the status refetch |
| DebuggerConvergence.UpToDateMeansPlaced | internal/controller/debugger_controller.go:145-223 | on every run in which a reconcile that stores a workload also stores the status from the same mirrored fields, a valid Debugger that counts as unchanged has a workload of its present type built from exactly its mirrored fields |
| DebuggerConvergence.StepKeeps | internal/controller/debugger_controller.go:137-310 | each such reconcile keeps "the status is new, or the workload is what the status says" |
| DebuggerConvergence.OneReconcileSuffices | internal/controller/debugger_controller.go:137-310 | from any state, one undisturbed reconcile of a changed Debugger whose gate passes and whose calls all go through succeeds and its workload is right; the Debugger is up to date afterwards if and only if its specification has no list that the status cannot hold, and its config maps are mounted if and only if they could be read at the build |
| DebuggerConvergence.UnchangedIsInert | internal/controller/debugger_controller.go:198-202 | no sequence of reconciles changes anything for a Debugger that counts as unchanged, whatever became of its workload |
| DebuggerConvergence.UnmirroredEditIsIgnored | internal/controller/debugger_controller.go:1274-1301 | an edit of subnet or selector alone never reaches the workload |
| DebuggerConvergence.WindowEditIff | internal/controller/debugger_controller.go:219-237 | after an edit between the first read and the refetch the reconcile succeeds, the Debugger is unchanged and untouched for good unless the edit has a list that the status cannot hold, and the workload of the edited type carries the edit if and only if what was built before shows it, or, after a change of type, the workload that was there already does |
| DebuggerConvergence.WindowEditStrands | internal/controller/debugger_controller.go:219-237 | a concrete run from nothing with one such edit ends, whatever reconciles follow, with a valid unchanged Debugger whose workload runs the old image |
| DebuggerConvergence.RevertAfterFailedWriteIff | internal/controller/debugger_controller.go:303-309 | after a failed status write and an edit back to what the status shows, the Debugger is unchanged and untouched for good, and its workload carries the specification if and only if the abandoned one shows it too |
| DebuggerConvergence.OtherKindIsLeftBehind | internal/controller/debugger_controller.go:204-217 | a reconcile never touches the workload of the other kind, so after a change of type the old one stays |
| DebuggerConvergence.LossyNeverSettles | api/v1/debugger_types.go:128-130 | a Debugger with an empty non-nil list of tolerations or in its affinity counts as changed after any number of undisturbed reconciles, and every one that can stores a workload again |
| DebuggerConvergence.LossyIsChanged | api/v1/debugger_types.go:128-130 | after any run such a Debugger counts as changed |
| DebuggerConvergence.SubnetGuardNeverFires | internal/controller/debugger_controller.go:393-397 | after any run the status has no subnet, and a specification with one non-empty subnet is valid if and only if it is valid with any other |
| Detection.RunTask | internal/debugger/task.go:98-135 | a task passes only if it finished in time without error; code 100 is returned exactly for a timely exit with 100, 0 exactly for a pass |
| Detection.CountValidTasks | internal/debugger/task.go:146-161 | the count is the number of places of the task file, by category and position, at which a known name stands, for any iteration order |
| Detection.JobsKeepOrder | internal/debugger/debug.go:61-66 | the jobs of a category are its known names, none left out, in the order of its list |
| Detection.JobsCount | internal/debugger/task.go:146-161 | in any iteration order a job is met as often as its category lists its name, if the task map knows the name with this task, and never otherwise |
| Detection.ReportNamesIff | internal/debugger/task.go:210-225 | a report names its task unless the category is spelt Timestamp, and its node unless it is spelt NodeName |
| Detection.Runner.RunCategory | internal/debugger/debug.go:61-101 | the inner loop runs the known tasks of a category in order and adds their passes and failures |
| Detection.Runner.StartDebugger | internal/debugger/debug.go:11-118 | the exact trace and the figures of the closing line, with the number of places with a known name as their total, for any two iteration orders, any task outcomes and any replies |
| Detection.SameJobs | internal/debugger/task.go:146-161 | any two iteration orders of one map meet the same jobs, each as often |
| Detection.SessionIsMonitored | internal/debugger/debug.go:43-116 | a trace is empty, a lone refused Register, or Register, runs with each failure reported at once, and one Terminate; passes and reports add up to the registered count |
| Detection.SessionRuns | internal/debugger/debug.go:49-66 | exactly the known tasks run, in order, and none unless the Register succeeded |
| Detection.SessionRunsTheFile | internal/debugger/debug.go:34-66 | a runner registers the number of places with a known name, runs each known name as often as its category lists it, with the task of the map, and nothing else |
| Detection.RunnersAgree | internal/debugger/debug.go:34-66 | two runners of one task file that get the same answer to Register register the same count and run the same jobs equally often, whatever their iteration orders and outcomes |
| Pinger.Check | internal/pinger/ping.go:52-97 | a check returns the error of the enabled probe that runs last among those that fail, spelt out for the five probes, and none only if all enabled ones passed |
| Pinger.FailsIff | internal/pinger/ping.go:56-91 | a check fails if and only if the external probe fails with a ping target, or the port probe with a TCP or a UDP target, or the pod probe, or the node probe with its switch on, or the DNS probe with a name |
| Pinger.StartPinger | internal/pinger/ping.go:21-50 | outside server mode one check and no exit code; in server mode the loop with its sticky flag equals the loop that looks only at the latest check |
| Pinger.ServeEndsFirst | internal/pinger/ping.go:28-49 | a server ends at the first wake that is a stop or follows a failed check with an exit code set, and with the code exactly if that wake is the timer |
| Pinger.ExitsIff | internal/pinger/ping.go:40-46 | a server leaves with its exit code if and only if it has one and some check fails with only timer wakes up to the one after it |

## Left out

- VridSafety.NoSharedRouterID: needs listings that cover the live ids and KeepAliveds that still live, because without either it is false; `StaleListingDuplicates` and `DeletedIDIsReused` are the runs.
- DebuggerConvergence.UpToDateMeansPlaced: needs that nobody else changes the workload and that status writes complete, because without either it is false; `UnchangedIsInert`, `WindowEditIff` and `RevertAfterFailedWriteIff` say how.
- GatewayConvergence.UnchangedMeansPlaced: needs that no edit of the fields meets a successful reconcile, that no change of kind finds an old workload, that no edit after a failed build makes the gateway look unchanged before the next success without asking for what was built, and for cipher, protocol, subnet and images that no residual is left, because without each of these it is false; `RoundIff`, `PlacedIff`, `RevertAfterFailedBuildIff` and `RevertIff` say exactly when, and the four runs of `GatewayMisled` show it.
- GatewayConvergence.SwitchIsRefusedForGood: that API servers refuse to change a selector is a premise, since the model accepts or refuses an update freely.
- GatewayWorkload.StatefulSetForVpnGw: leaves out security contexts, pull policies, commands, mount paths and update strategies, which are copied literals, and the sources of volumes, of which only names are kept.
- GatewayWorkload.DaemonsetForVpnGw: leaves out the same.
- DebuggerWorkload.GetDebuggerPod: leaves out host PID, which is the host network flag again, service account, restart policy and security contexts, which are copied literals.
- DebuggerWorkload.GetDebuggerDaemonset: leaves out the same, and the update strategy.
- Pinger.StartPinger: follows the endless loop for a finite number of wakes of any kind; intervals and clock time are not modelled.
- Detection.Runner.StartDebugger: the environment of the scripts, the URLs and the JSON text of the posts are not modelled, only their fields; encoding them as JSON cannot fail.
- The Kubernetes client, informers, work queues, leader election and manager setup: replies and steps of any kind stand for them.
- Pod exec transport, HTTP posts, and the ICMP, TCP, UDP and DNS probes: each is an arbitrary outcome.
- LabelIndex.EndToEnd: needs plain fields, addresses that are not lists of networks, and connections that authenticate the way the gateway does, because without the last it is false; `ScriptReadsIff` says exactly when, `CertificatesStopTheScript` and `KeysAreMisread` show it.
- ConnectionScript.ScriptReadsIff: models how the script splits and reads the list; what the shell does to special characters of a command line, the decoding of the key and the templates that are filled in are not modelled.
- The openvpn scripts and the other strongswan scripts.
- The namespace of a connection listing: the code lists all namespaces, and so does the model.
- Resource quantities: `resource.MustParse` panics on malformed ones, which is not modelled; CPU and memory are strings.
- Owner references: setting one is taken to succeed, so a builder never returns nil for it; garbage collection is one step of a run.
- Status conditions, labels of workloads other than the gateway's, log lines, metrics and sleeps.
- Error texts, except for which rule a validator found broken.
- The Pinger reconciler, the Debugger, Pinger, IpsecConn and KeepAlived webhooks, deep copies: copies of fields or stubs.
- The KeepAlived webhook collects errors on an update and admits it all the same, so edits of a KeepAlived are arbitrary.
- Latency and loss arithmetic of the probes, and protocol detection of addresses.
