# A verified model of nginx-lb-operator

The operator gives every Kubernetes Service of type LoadBalancer an address from a pool, writes
an NGINX file for it on a remote server, and keeps two Keepalived files there in step with the
addresses in use. Its memory is outside the process: the Service objects, the `ip-allocations`
and `vrid-allocations` ConfigMaps, and the files on the server. `README.md:11` of the repository
promises that it "reconciles state on restarts". This project models that logic in Dafny and
proves what it keeps, what it recovers, and where it does neither.

`dafny verify dfyconfig.toml` checks everything.

## The parts

- `Protocol.dfy` is the reconcile and finalize protocol as a state machine. An action is one call
  of one pass, a user's change to a Service, a change of the pool or the VRIDs, a restart of the
  server, or a crash. A call succeeds (`Fine`), fails without effect (`LostBefore`), or takes
  effect and is reported as failed (`LostAfter`). Passes of different services interleave freely.
- `Safety.dfy` and `Reachable.dfy` prove the invariant of all reachable states and what it means.
- `Cover.dfy` says exactly which calls keep every NGINX address in Keepalived, and proves that one
  pass at a time, or a lock around part of a pass, is enough; `Overlap.dfy` has the runs that lose it.
- `Recovery.dfy` and `Finalization.dfy` compute what one undisturbed pass does to a live service
  and to one that is being deleted, and say from which states a deletion can still complete;
  `LivePasses.dfy` does both for every schedule of failures, and `Convergence.dfy` says when one
  pass for each of several services settles them all. `Idle.dfy` is about the passes that do nothing.
- `Serving.dfy` is about published addresses having their NGINX file, and services that share one.
- `Controller.dfy` is the operator's code in the source's own form: a class whose methods change
  the stores call by call. Its `Reconcile` is proved equal to `Protocol.Pass`, which is itself one
  of the paths of the state machine (`Recovery.PassIsRun`).
- `Vips.dfy` renders the two Keepalived files; `Names.dfy` builds identifiers and paths.
  `Rendered.dfy` follows the VRIDs from the shared file into the files of any two clusters.
- `Vrid.dfy` and `VridStartup.dfy` are the VRID pairs, their shared text file, and the startup
  procedure with failures around each of its two writes. `VridLines.dfy` says what the parser makes
  of the line of a cluster with any name, and `VridNames.dfy` which names are safe.
- `Ipv4.dfy` and `Pool.dfy` are address arithmetic and the two readers of the pool text;
  `PoolText.dfy` writes such texts from what they mean and proves that both readers give it back.
- `PortAllocator.dfy` is `pkg/ipam`, the allocator with an index by address and port, and what of
  its book survives a restart. The operator binary does not use this package.
- `Text.dfy` and `Faults.dfy` hold string primitives and the outcomes of a call.

## What came out false, and when it is true

- Deletion need not complete. From any state, as long as some address is unowned, a Service that is
  being deleted keeps its finalizer through every further run exactly if it owns no address, no pass
  of it is about to allocate, and none is past the release with the object unchanged since it was
  read (`Finalization.StuckExactly`).
  That is where a finalization ends up that crashes, fails or meets a conflicting change once the
  address is released (`Finalization.EndAfterReleaseSticks`); for every schedule of failures,
  `Finalization.ScheduleExactly` says whether the pass completes and whether the object is stuck
  after it. Without failures the finalizer goes exactly when the Service is still of type
  LoadBalancer, has an address to release, and the VRIDs are known; a Service whose type was
  changed is passed over without an error and stays (`Finalization.FinalizationExactly`).
- Keepalived covers NGINX when passes do not overlap (`Cover.AlwaysCovered`), which is the default
  of the work queue. When they overlap it need not. Two kinds of call lose coverage, and no others:
  a Keepalived file that takes effect without an address NGINX serves, and an NGINX file that takes
  effect with an address some Keepalived configuration lacks (`Cover.CallCoversExactly`,
  `Cover.CoveredThroughoutExactly`). Both happen, for any two services and any pool of two
  addresses (`Overlap.OverlapUncovers`). A lock held from the reading of the ConfigMap for
  Keepalived to the writing of the NGINX file rules them out (`Cover.LockedCovered`).
- A published address need not be served. The path of an NGINX file joins namespace and name with
  `-`, so two Services share it exactly if one's namespace and the other's name overlap in a
  common middle part (`Names.SharedPathExactly`). With no failure and no overlap, a pass of one then
  takes the file over from the other, or its deletion removes it, and the other goes on publishing
  an address that nothing serves (`Serving.TakeoverLoses`, `Serving.FinalizationLoses`). What is
  published is served in every reachable state exactly if no two of the Services that are ever
  created share a path (`Serving.PublishedServedExactly`).
- The range loop in `utils/ipam.go` ends exactly when the start is IPv4 and the end is not
  255.255.255.255 (`Ipv4.RangeEndsExactly`), the one in `pkg/ipam` exactly when both ends are IPv4
  or they are the same (`Pool.WrappingEndsExactly`). On text that both pool readers finish, they
  agree exactly when it is rejected, or no range runs downwards and every single address is written
  as it is printed (`Pool.PoolsAgreeExactly`). The second part fails for some IPv6 text only:
  `::ffff:10.0.0.1` is `10.0.0.1` to one reader and stays as it is for the other.
- The cluster name in paths (`README.md:8` of the repository: "to avoid conflicts") does not rule
  conflicts out. Services of two clusters on one server share a path exactly if the name of the one
  cluster and what follows the name of the other overlap in a middle part
  (`Names.ClustersSharePathExactly`), and for every cluster there are such
  (`Names.ClustersCanSharePath`). Upstream names do tell clusters apart (`Names.UpstreamNamesCluster`).
- Recovery is not unconditional either. When each of some live services gets one pass without
  failures, in any order, after any run, all are settled at the end exactly if the VRIDs are known,
  there are as many unowned pool addresses as services without one, and no two of them share a path
  (`Convergence.ConvergenceExactly`).
- The VRID file gives a map back exactly when all its names and values avoid what the format
  cannot carry: colons, line breaks, blanks at the ends, and a `#` in front of a name
  (`Vrid.FileRoundTripExactly`). On any server, a new cluster finds its pair again exactly when its
  name does (`VridNames.RememberedExactly`).
- "A written pair never changes" and "no two clusters share a VRID" hold for some cluster names only;
  the code checks none. A name the file cannot carry is either dropped with its whole line, like
  `#a` or `a:b`, or read as entries for other clusters: the line of ` a`, with a blank in front, is
  read as an entry for `a` and may replace the one that is there, and a name with a line break
  brings in lines of its own (`VridLines.EntriesExactly`). At one startup all old entries are kept, in
  whatever order they are printed, exactly if what is read from the new line does not contradict them
  (`VridNames.KeptExactly`). Over all runs in which clusters with carried names start, and others
  from a given set: written pairs never change, and clusters with carried names never share a VRID,
  exactly if each name of the set is carried or dropped (`VridNames.HarmlessExactly`); no two
  clusters at all ever share one exactly if each is carried (`VridNames.CarriedExactly`). The
  smallest failing run: `a` starts, then ` a`, then `c`, and `a` and `c` both have 1,2
  (`VridNames.BlankNamesCollide`).
- An allocation of `pkg/ipam` that is returned need not survive a restart. A restart brings back
  exactly the book as it was after the last operation that stored it
  (`PortAllocator.RestartBringsBack`). So nothing is forgotten as long as no save is lost before its
  effect (`PortAllocator.NothingForgotten`); but when one is, later calls return the allocation
  without saving it, and a restart forgets it (`PortAllocator.LostSaveIsNotRetried`).
- A startup panics exactly when it comes to updating the ConfigMap and either the read fails for a
  reason other than absence, or the ConfigMap has no data (`VridStartup.StartupExactly`).
- The comment at `utils/vrid.go:79` speaks of VRIDs 1-255; the loop below it hands out 1..254.

## Assumptions

- At most one pass is in flight per service. `Cover.AlwaysCovered` assumes one pass in all, and
  `Cover.LockedCovered` the lock it describes, which the code does not have.
- Reads of Services and ConfigMaps are fresh, and an Update is accepted only for the version that
  was read. A call that takes effect does so before it is reported, and a crash leaves no call
  behind that takes effect later.
- Only the operator touches its finalizer, the status address, `ip-allocations` and the files.
- One operator process per cluster; startups of different clusters do not overlap, and a cluster
  is known by its name.
- Namespaces and names are Kubernetes labels: lower-case letters, digits and `-`.
- Any text can be the key of a ConfigMap entry. The API server admits only letters, digits, `-`, `_`
  and `.`; a write that it refuses is one that is lost before its effect, which is all that
  `VridNames.HarmlessExactly` and `VridNames.BlankNamesCollide` need of the cluster with the bad name.

## Model

| member | source | states |
|---|---|---|
| Reachable.RunKeeps | controllers/service_controller.go:82-266 | Whatever users, passes of any number of services, failed calls, server restarts and crashes do in any interleaving, the invariant of stores and passes in flight is kept |
| Reachable.OneAddressEach | utils/ipam.go:38-46 | In every reachable state a service owns at most one address although AllocateIP never looks for one; so every order of scanning the map finds the same address, and deleting that one leaves the service with none |
| Reachable.FilesNeverShareAddress | utils/nginx.go:31-41 | In every reachable state each NGINX file, written or loaded, serves an address the ConfigMap gives to the service it was rendered for, and no two files listen on the same address, also when two services share a path |
| Reachable.NoLeakedAddress | controllers/service_controller.go:97-127 | Every allocated address belongs to a Service that still exists and carries the finalizer, also after a change of type, a crash or a failed finalization |
| Reachable.PublicationExclusive | controllers/service_controller.go:203-216 | A service that is not being deleted publishes only an address it owns, and no two publish the same |
| Reachable.PublicationSticky | controllers/service_controller.go:151-170 | Over any run an object that is not being deleted keeps the address it once published, across passes, failures and restarts |
| Reachable.CallTouchesOnlySo | controllers/service_controller.go:97-127 | A call touches its own Service only, and there keeps type, deletion mark and the finalizers of others; an object goes only when it is being deleted and the operator's finalizer was the last |
| Idle.IdlePass | controllers/service_controller.go:97-126 | For every state and every schedule: a pass over a service that is gone, not of type LoadBalancer, or being deleted without the operator's finalizer changes nothing, and fails only if the Service cannot be read |
| Idle.IdleExactly | controllers/service_controller.go:82-126 | A pass ends with the reading of the Service iff that fails or the service is such a one |
| Idle.OthersLeftAlone | controllers/service_controller.go:97-111 | Over all runs a service that users never make a LoadBalancer never has the finalizer, an address, a file or a published address |
| Safety.CallKeeps | controllers/service_controller.go:139-266 | Each single call of a pass, with any outcome, keeps the invariant, meets what its pass relies on next, and leaves alone what other services rely on |
| Protocol.RankFalls | controllers/service_controller.go:82-266 | Every call brings a pass closer to its end, so a pass makes at most a dozen calls after reading the Service |
| Protocol.FirstFree | utils/ipam.go:38-49 | The address is the earliest of the pool that is unowned; there is none exactly when the whole pool is owned |
| Names.IdentifierInjective | utils/ipam.go:35 | Two services never share the owner text recorded in the ConfigMap |
| Names.IdentifierParts | utils/ipam.go:35 | The owner text tells namespace and name, in this order |
| Names.UpstreamInjective | utils/nginx.go:56 | Two services never share an upstream name, so a file tells whom it was rendered for |
| Names.UpstreamParts | utils/nginx.go:56 | The upstream name tells cluster, namespace and name, in this order |
| Names.PathParts | utils/nginx.go:31-32 | The file lies in the directory whose files NGINX loads |
| Names.UpstreamNamesCluster | utils/nginx.go:56 | Nor do services of different clusters: an upstream name tells cluster and service |
| Names.ClustersSharePathExactly | utils/nginx.go:31-32 | Services of two different clusters share a path iff the name of one cluster is the other's, `-` and a middle part, and namespace and name of the other's service, joined, are that middle part, `-` and those of the first one's |
| Names.ClustersCanSharePath | utils/nginx.go:31-32 | For every cluster there is another and a service of each for which that is so |
| Names.SharedPathExactly | utils/nginx.go:31-32 | Two different services share the path of their NGINX file iff the namespace of one is the other's, `-` and a middle part, and the name of the other is that middle part, `-` and the first one's name |
| Names.PathNotInjective | utils/nginx.go:31-32 | There are such services |
| Serving.PublishedServedExactly | controllers/service_controller.go:196-216 | Over all runs that create only services of a given set, every published address has its service's file written and loaded in every reachable state iff no two services of the set share a path |
| Serving.OwnCallServes | controllers/service_controller.go:139-266 | Each call of a pass, with any outcome, keeps its own service's published address served, and has its file in place by the time it publishes |
| Serving.TakeoverLoses | utils/nginx.go:20-43 | When two services share a path, a successful pass of one leaves the other publishing an address whose file is gone, with no failure and no overlap |
| Serving.FinalizationLoses | utils/nginx.go:81-94 | When two services share a path, the deletion of one leaves the other publishing an address whose file is gone |
| Cover.AlwaysCovered | controllers/service_controller.go:181-194 | With one pass at a time, through all partial failures of allocation, writes, restart and finalization, every address in an NGINX file is in both Keepalived files and in the running Keepalived |
| Cover.LockedCovered | utils/keepalived.go:34-71 | Likewise with overlapping passes, when a lock lets one pass at a time be between reading the ConfigMap for Keepalived and writing its NGINX file |
| Cover.CallCoversExactly | controllers/service_controller.go:181-200 | For every call and every outcome: coverage lasts iff a Keepalived file that takes effect has every served address, and an NGINX file that takes effect has its address in both files and the running Keepalived |
| Cover.CoveredThroughoutExactly | utils/keepalived.go:34-71 | Over every run with overlapping passes, coverage holds all along iff no step is such an unsafe call |
| Overlap.OverlapUncovers | utils/keepalived.go:34-71 | For any two services and any pool with two different addresses, a run with two overlapping passes loses coverage by a stale primary file, and another one by the NGINX file itself |
| Recovery.PassRecovers | controllers/service_controller.go:139-225 | From every reachable state a pass without failures of a live service succeeds iff VRIDs exist and it owns or can get an address; then published, owned and served address agree, NGINX has loaded its files, Keepalived has exactly the allocated addresses, an owned address is kept and no other allocation changes |
| LivePasses.LiveScheduleExactly | controllers/service_controller.go:103-225 | For every schedule of failures: whether a pass of a live service puts the finalizer on the object, allocates, writes and loads each Keepalived and NGINX file and with which content, publishes, and succeeds |
| LivePasses.LeavingScheduleExactly | controllers/service_controller.go:113-126 | For every schedule of failures: whether a pass of a service that is being deleted removes its file, unloads it, releases the address, writes and loads each Keepalived file and with which content, drops the finalizer, and succeeds |
| Convergence.ConvergenceExactly | controllers/service_controller.go:139-225 | After any run, one pass without failures for each of some live services, in any order, leaves them all settled at once iff VRIDs exist, there are at least as many unowned pool addresses as services without one, and no two share a path |
| Convergence.PassesAreRun | controllers/service_controller.go:82-136 | Those passes are one of the paths of the state machine |
| Recovery.PassIdempotent | controllers/service_controller.go:139-225 | A pass without failures over a settled service changes nothing at all |
| Recovery.PassIsRun | controllers/service_controller.go:82-136 | An undisturbed pass with any failures is one of the paths of the state machine, whatever else is in flight |
| Finalization.FinalizationExactly | controllers/service_controller.go:97-126 | A pass without failures over a deleting service removes the finalizer iff the service is of type LoadBalancer, has an address to release and VRIDs exist; then file and address are gone too, Keepalived carries the rest and other allocations are untouched; with another type it returns no error and changes nothing |
| Finalization.ScheduleExactly | controllers/service_controller.go:113-126 | For every schedule of failures: whether the pass removes the finalizer, whether it releases the address, and whether it leaves the object stuck |
| Finalization.StuckExactly | controllers/service_controller.go:113-126 | In every state that keeps the invariant, as long as some address is unowned: a deleting service keeps its finalizer through every further run iff it is stuck, that is, owns no address, with no pass about to allocate or past the release on an unchanged object |
| Finalization.StuckForever | controllers/service_controller.go:113-126 | Being stuck lasts through every further run |
| Finalization.NothingToReleaseFails | utils/ipam.go:197-199 | A pass over a deleting service that owns no address fails under every schedule of failures and changes neither the object nor an allocation |
| Finalization.EndAfterReleaseSticks | controllers/service_controller.go:242-261 | However a finalization ends, by a crash, a failed call or a conflict: if the address was released and the finalizer is still there, it is there in every later state |
| Finalization.CrashAfterReleaseSticks | controllers/service_controller.go:242-261 | In particular after a crash between the release and the removal of the finalizer |
| Controller.ServiceReconciler.Reconcile | controllers/service_controller.go:82-136 | The method leaves exactly the stores and result of Protocol.Pass for every schedule of failures, and keeps the invariant |
| Controller.ServiceReconciler.ReconcileService | controllers/service_controller.go:139-225 | The method ends as the protocol does from its first check on |
| Controller.ServiceReconciler.FinalizeService | controllers/service_controller.go:228-266 | The method ends as the protocol does up to the removal of the finalizer |
| Controller.ServiceReconciler.AddFinalizer | controllers/service_controller.go:107-112 | The finalizer is stored if the object is unchanged since it was read, and the pass goes on as the protocol does |
| Controller.ServiceReconciler.DropFinalizer | controllers/service_controller.go:120-124 | The finalizer is gone if the object is unchanged since it was read; else the pass fails |
| Controller.ServiceReconciler.ObtainIP | controllers/service_controller.go:144-170 | Check, then allocate or look up: as the protocol does, whatever address the scan meets first |
| Controller.ServiceReconciler.PublishIP | controllers/service_controller.go:203-220 | Refetch, then status update: as the protocol does |
| Controller.ServiceReconciler.AllocateIP | utils/ipam.go:21-50 | The first unowned pool address is recorded for the service and returned, unless loading or saving fails or there is none |
| Controller.ServiceReconciler.ReleaseIP | utils/ipam.go:177-206 | One owned address is deleted, the one the scan meets; an error if there is none |
| Controller.ServiceReconciler.IsIPAllocatedToService | utils/ipam.go:209-222 | True exactly if some address is owned |
| Controller.ServiceReconciler.GetAllocatedIPForService | utils/ipam.go:225-238 | An owned address, or an error exactly if there is none |
| Controller.ServiceReconciler.SaveAllocatedIPs | utils/ipam.go:157-174 | Update or create: the map is stored unless the call is lost before its effect |
| Controller.ServiceReconciler.ConfigureKeepalived | utils/keepalived.go:26-84 | Which files are written and loaded for every combination of failures |
| Controller.DriveKeepalived | utils/keepalived.go:26-84 | The method's result is that of the protocol's four Keepalived calls |
| Controller.ServiceReconciler.ConfigureNGINX | utils/nginx.go:20-43 | The service's file is written and NGINX reloaded, or the pass stops as the protocol does |
| Controller.ServiceReconciler.RemoveNGINXConfig | utils/nginx.go:81-94 | The service's file is removed and NGINX reloaded, or the pass stops as the protocol does |
| Vips.ListingUnique | utils/keepalived.go:40-46 | A set of addresses has only one sorted listing, so the order of map iteration is forgotten |
| Vips.LeqMeaning | utils/keepalived.go:46 | Texts sort by the first character in which they differ, and a text comes before those it begins |
| Vips.DistributeIPsIntoGroups | utils/keepalived.go:88-100 | Elements at even positions go to the first group, the others to the second |
| Vips.DealingIsFair | utils/keepalived.go:88-100 | The groups interleave back to the list and differ in length by at most one, the first being the longer |
| Vips.GroupsDisjoint | utils/keepalived.go:88-100 | Of a list without repetition every address is in one group and in one only |
| Vips.GenerateBoth | utils/keepalived.go:34-62 | Both files depend on nothing but the settings, the VRIDs and the set of allocated addresses |
| Vips.ConfAddresses | utils/keepalived.go:103-142 | Each file carries exactly the allocated addresses |
| Vips.ConfMeaning | utils/templates/keepalived_secondary.conf.tmpl:3-41 | In both files group 1 has the first VRID and group 2 the second, the settings are in both groups, the groups are dealt from the sorted addresses, and the primary file is MASTER for group 1, the secondary for group 2, with the higher priority there |
| Rendered.InstancesNeverShare | utils/keepalived.go:34-62 | Over all startups of clusters with carried or dropped names: the four VRRP instances in the files of any two clusters with carried names have four different VRIDs within 1..254 |
| Vips.OneMasterEach | utils/templates/keepalived_primary.conf.tmpl:3-27 | Every address has MASTER on exactly one of the two servers, under the same VRID on both, and that server has the higher priority (section 5.2.4 of RFC 5798) |
| Vrid.PairRoundTrip | utils/vrid.go:63-75 | Parsing inverts the "%d,%d" format for all 64-bit integers |
| Vrid.FindUnusedVRIDPair | utils/vrid.go:78-86 | The counting loop returns what the first-free search gives |
| Vrid.FirstFreeMeaning | utils/vrid.go:78-86 | The search gives the smallest free pair i,i+1 with i odd and at most 253, or 0,0 exactly when no such pair is free |
| Vrid.ParseAllocatedVRIDs | utils/vrid.go:253-263 | The numbers of all entries that are pairs, and no others |
| Vrid.ExactCapacity | utils/vrid.go:78-86 | At most 127 clusters fit, and the search fails iff 127 are registered |
| Vrid.GoodDataDisjoint | utils/vrid.go:136-146 | Two entries of a good file have four distinct VRIDs within 1..254 (legal by section 6.1 of RFC 5798) |
| Vrid.EmptyBranchAgrees | utils/vrid.go:115-120 | The pair 1,2 of the empty-file branch is the one the search would find |
| Vrid.CreateVRIDFileContent | utils/vrid.go:220-226 | The content is the printed map in some order of its keys |
| Vrid.PairText | utils/vrid.go:146 | A value is both numbers in decimal with a comma between them |
| Vrid.LineText | utils/vrid.go:223 | A line is the name, a colon, and the value after a blank |
| Vrid.PlainNameOk | utils/vrid.go:235-249 | Every name of letters, digits, `-`, `_` and `.` is one the file carries |
| Text.TrimBetween | utils/vrid.go:237-245 | White space around a text is trimmed away, and nothing else |
| Text.SpaceMeaning | utils/vrid.go:237-245 | Blanks, tabs and line ends are white space, visible ASCII characters are not |
| Text.AtoiMeaning | utils/vrid.go:63-75 | Decimal digits with an optional sign are read as their value, leading zeros or not, within 64 bits |
| Text.AtoiOnly | utils/vrid.go:63-75 | No other text is read as a number |
| Vrid.ParseFile | utils/vrid.go:235-249 | The parsing loop refines the line-by-line parse in which later lines win |
| Vrid.FileRoundTripExactly | utils/vrid.go:219-250 | Printing in any order, the newline of echo, and parsing give the map back iff all names and values are trimmed and free of colons and newlines and no name starts with '#' |
| VridLines.LineParsesExactly | utils/vrid.go:236-249 | The line written for a name without line breaks is read as an entry for the trimmed name, or, if the name has a colon or starts like a comment, as nothing |
| VridLines.EntriesExactly | utils/vrid.go:219-250 | What is read from the line of a cluster with any name: the entries of the name's own lines, and then possibly one with the pair |
| VridLines.PrintedIsReadBack | utils/vrid.go:219-250 | The printed map, with the newline of echo, is read as the entries of its lines one after the other, later ones winning |
| VridStartup.StartupMeaning | utils/vrid.go:102-165 | Whatever fails in a startup of a cluster whose name is carried or dropped: the file stays good, no entry is lost or changed, and success means that file and ConfigMap agree, if the name is carried; without failures success means registered or room for one more |
| VridStartup.StartupExactly | utils/vrid.go:102-192 | For every state, cluster and schedule of failures: whether a startup panics, whether it succeeds, and what file and ConfigMaps are after it |
| VridStartup.PairsNeverChange | utils/vrid.go:102-165 | Over any startups, failed or not, of clusters whose names are carried or dropped, written pairs never change |
| VridStartup.PairsAlwaysDisjoint | utils/vrid.go:102-165 | From an empty server on, after any startups of such clusters, at most 127 are registered and any two have four distinct VRIDs within 1..254 |
| VridStartup.CrashRecovery | utils/vrid.go:136-162 | After any failures and crashes of such startups, the next one that succeeds alters no written pair; the cluster is then in the file iff its name is carried, and GetOrAllocateVRIDs returns exactly the pair there |
| VridStartup.ConfigMapMirrorsFile | utils/vrid.go:22-48 | A cluster with a ConfigMap gets a pair from it; it is in the file iff its name is carried, and then the pair is the file's |
| VridStartup.FaultlessStartupExactly | utils/vrid.go:102-165 | After any startups of such clusters, one without failures, of a cluster of any name, succeeds iff the cluster is registered or fewer than 127 are |
| VridNames.RememberedExactly | utils/vrid.go:115-165 | In every state, a cluster that starts without an entry and succeeds finds its entry again iff its name is one the file can carry |
| VridNames.KeptExactly | utils/vrid.go:136-165 | In every state, when a new cluster of any name writes the file, all old entries are kept in every printing order iff what is read from its line does not contradict them |
| VridNames.HarmlessExactly | utils/vrid.go:102-165 | Over all runs, with failures, of clusters with carried names and of others from a given set: written pairs never change, and no two clusters with carried names share a VRID, each iff every name of the set is carried or its line is dropped whole |
| VridNames.CarriedExactly | utils/vrid.go:102-165 | Over the same runs, no two clusters at all ever share a VRID iff every name of the set is carried |
| VridNames.NeverSharesExactly | utils/vrid.go:219-250 | Among clusters with carried names, a new cluster never comes to share a VRID with another one, whatever startups of such clusters follow, iff its own name is carried |
| VridNames.BlankNamesCollide | utils/vrid.go:236-249 | A cluster starts, then one whose name is the first one's with blanks around it, then a third: the first and the third are given the same pair 1,2, although both their names are carried |
| VridNames.ColonNamesCollide | utils/vrid.go:242-247 | After a cluster whose name has a colon starts on an empty server, any other cluster is given the same pair 1,2 |
| VridStartup.Server.GetOrAllocateVRIDsOnStartup | utils/vrid.go:102-165 | The method leaves exactly the file, ConfigMaps and result of the startup function for every schedule of failures |
| VridStartup.Server.UpdateConfigMapWithClusterVRID | utils/vrid.go:168-192 | Create or update the one entry; a failed read or a ConfigMap without data panics, as StartupExactly says of whole startups |
| Ipv4.NextIP | utils/ipam.go:126-135 | The in-place byte-carry loop adds one modulo 2^32 to the big-endian value |
| Ipv4.AfterIsModular | utils/ipam.go:126-135 | n increments add n modulo 2^32 |
| Ipv4.BytesCompare | utils/ipam.go:116-123 | The comparison loop on byte strings of any lengths |
| Ipv4.CompareIsNumeric | utils/ipam.go:111-123 | On addresses its sign is that of the numeric order |
| Ipv4.RangeEndsExactly | utils/ipam.go:104-106 | The ascending loop reaches its end iff the start is IPv4 and the end is not 255.255.255.255 |
| Ipv4.AscendingLoop | utils/ipam.go:103-107 | The loop ends with the ascending list, although it overwrites the bytes it iterates on; with nothing if the end is not IPv4 |
| Ipv4.AscendingIsInterval | utils/ipam.go:92-108 | The list holds exactly the addresses from start to end, no text twice |
| Ipv4.GenerateIPRange | pkg/ipam/ipam.go:129-136 | The loop ends for every IPv4 pair, going up and around to the end |
| Ipv4.LoopsAgreeExactly | pkg/ipam/ipam.go:129-136 | The two loops list the same addresses iff the range does not run downwards |
| Ipv4.DottedRoundTrip | utils/ipam.go:82-86 | Parsing an address's dotted-quad text gives the address back |
| Ipv4.DottedParts | utils/ipam.go:82-86 | The four parts of the text are the bytes in decimal, the most significant first |
| Ipv4.ParsedTextIsDotted | pkg/ipam/ipam.go:107-110 | A text that parses is the printed form of its address |
| Pool.ParseIPRange | utils/ipam.go:93-108 | An error iff the line has not two addresses, else the ascending list, which is empty if the end is not IPv4 |
| Pool.LoadIPPool | utils/ipam.go:65-89 | The line loop returns the lines' addresses as they are printed, in order, or an error at the first bad line |
| Pool.WrappingEndsExactly | pkg/ipam/ipam.go:129-136 | The second range loop meets its end iff both addresses are IPv4 or they are the same |
| Pool.ExpandIPRange | pkg/ipam/ipam.go:116-127 | An error iff the line has not two addresses, else the list up and around |
| Pool.ParseIPPool | pkg/ipam/ipam.go:92-114 | The line loop of the second reader, which keeps single addresses as they are written |
| Pool.LoadedPoolMembers | utils/ipam.go:65-89 | A pool that loads holds exactly the addresses, IPv4 or not, written on its lines or within their ranges |
| Pool.PoolsAgreeExactly | pkg/ipam/ipam.go:92-114 | On every text that both readers finish, they agree iff it is rejected, or no range runs downwards and every single address is written as it is printed |
| PoolText.WrittenIsLoaded | utils/ipam.go:65-108 | A text written from comments, blank lines, single addresses and ranges from a to b, with any blanks around the parts, loads as the addresses meant, in order |
| PoolText.WrittenIsParsed | pkg/ipam/ipam.go:92-137 | The other reader gives the same when no range runs downwards |
| PoolText.BothReadWhatIsWritten | utils/ipam.go:65-108 | Likewise from the whole text, lines joined by line breaks |
| PoolText.AcceptedExactly | utils/ipam.go:65-108 | Lines without a colon load iff they are written from such items |
| PoolText.ShippedPool | config/ip-pool-config.yaml:7-9 | The pool in the repository loads as 20 addresses, from 10.1.1.200 to 10.1.1.219 |
| PortAllocator.IndexIsInverse | pkg/ipam/ipam.go:29-31 | In a consistent book the index answers k for an address and port iff k's allocation has both, so no pair has two owners |
| PortAllocator.PlaceMeaning | pkg/ipam/ipam.go:245-267 | The pool loop takes the earliest address with all ports free, fails iff every address has a clash, and changes the owner of exactly the requested ports there |
| PortAllocator.AllocateMeaning | pkg/ipam/ipam.go:235-284 | Allocation is idempotent per key, first-fit and complete, keeps the index inverse, and on failure changes nothing but empty inner maps |
| PortAllocator.AllocateIsOwn | pkg/ipam/ipam.go:239-284 | A service is answered with an allocation of its own, an existing one iff it has one, never with that of a service of the same name elsewhere |
| PortAllocator.KeyParts | pkg/ipam/ipam.go:239 | The key tells namespace and service, in this order |
| PortAllocator.ReleaseMeaning | pkg/ipam/ipam.go:286-308 | Release removes the key's allocation and exactly the index entries that name it |
| PortAllocator.ReleaseUndoesAllocate | pkg/ipam/ipam.go:235-308 | A fresh allocation followed by its release restores the book up to empty inner maps |
| PortAllocator.SaveLoadRoundTrip | pkg/ipam/ipam.go:168-182 | Reloading a saved list in any enumeration order gives the same allocations and the same index up to empty inner maps |
| PortAllocator.StepStores | pkg/ipam/ipam.go:188-225 | After an operation whose save takes effect, the stored list names every allocation once and loads as the book; any other operation leaves it alone |
| PortAllocator.RestartBringsBack | pkg/ipam/ipam.go:41-65 | After any operations and failures a restart brings back the book as it was after the last operation that stored it, or what was stored at first |
| PortAllocator.NothingForgotten | pkg/ipam/ipam.go:235-308 | After any operations of which no save is lost before its effect, what is stored loads as the book there is |
| PortAllocator.LostSaveIsNotRetried | pkg/ipam/ipam.go:239-242 | When the save of a fresh allocation is lost, the next call returns it without saving, and a restart gives the book stored before |
| PortAllocator.LoadConsistentExactly | pkg/ipam/ipam.go:173-182 | A list with distinct keys loads into a consistent book iff no two entries claim the same port of the same address |
| PortAllocator.AlwaysConsistent | pkg/ipam/ipam.go:235-308 | Through any allocations, releases, failed saves and restarts the index stays the exact inverse, and so does what would be read back |
| PortAllocator.NeverTwoOwners | pkg/ipam/ipam.go:235-308 | From an empty ConfigMap on, no address and port is ever in two allocations |
| PortAllocator.HasConflict | pkg/ipam/ipam.go:252-258 | The flag is set iff a requested port is in use |
| PortAllocator.Ipam.constructor | pkg/ipam/ipam.go:41-65 | A fresh process holds what the stored list loads into |
| PortAllocator.Ipam.LoadAllocations | pkg/ipam/ipam.go:173-182 | The loading loop refines the fold of LoadOne |
| PortAllocator.Ipam.AllocationsToList | pkg/ipam/ipam.go:227-233 | The list names every allocation once |
| PortAllocator.Ipam.SaveAllocations | pkg/ipam/ipam.go:188-225 | The list is stored unless the call is lost before its effect; StepStores says what that is for |
| PortAllocator.Ipam.PlaceOnPool | pkg/ipam/ipam.go:245-267 | The pool loop over the mutable index refines Place |
| PortAllocator.Ipam.AllocateIPAndPorts | pkg/ipam/ipam.go:235-284 | The whole new state is that of the allocation step, and the result is the existing, the placed or no allocation |
| PortAllocator.Ipam.ReleaseAllocation | pkg/ipam/ipam.go:286-308 | The whole new state is that of the release step |
| PortAllocator.Ipam.GetAllocatedIPs | pkg/ipam/ipam.go:310-319 | The addresses of all allocations |

## Left out

- Eventual completion of deletion, stale caches and startups of different clusters that overlap: the code does not guarantee the first and nothing guards against the others.
- The recursion of `allocationMutex`: AllocateIPAndPorts and ReleaseAllocation call saveAllocations with the mutex held, and it locks it again; the model takes saveAllocations as its body with the lock held.
- Aliasing in pkg/ipam: allocations and port lists are values, so a caller that changes a returned pointer or its own slice is not modelled.
- Pool.ParseIP: net.ParseIP on text with a colon is a parameter, of which only this is used: what it returns is an IPv4 address, or another with a printed form of its own that has a colon.
- Pool text on which a range loop never ends: the two `Exactly` lemmas say which that is.
- Endpoint and node lookups, ports and the rest of the NGINX template: a lookup that fails is `CopyNginx` lost before its effect.
- The existence check before a file is removed, partial writes, and the shell: a remote file is written or removed at once or not at all, and arrives as sent with the newline of `echo`.
- sort.Strings is taken by its contract (sorted, same strings), by an insertion sort on values rather than in place.
- Events, logging, sleeps, metrics, watches, credentials, RBAC and deployment manifests.
- `pkg/nginx/nginx_client.go`, `getAllocatedVRIDs` and `createOrUpdateVRIDConfigMap`: nothing beyond the parts above, or unused.
- Protocol.Call: retries within one call and requests that take effect after a crash are not modelled.
