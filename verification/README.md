# Verified model of the knr-ops lifecycle tooling

This project models the parts of the repository that carry protocol or algorithm content and
proves properties of them: the AWS orphan sweep, the pivot of the Cluster API inventory from the
kind bootstrap cluster to the management cluster, the teardown in its Rust and its shell form, and
the string and arithmetic kernels beside them. `dafny verify dfyconfig.toml` checks all of it.

## What is modelled

**The orphan sweep** (`AwsWorld`, `SweepScope`, `Aws`, `SecurityGroups`, `SweepVpc`, `Sweep`,
`SweepIam`, `SweepRun`, `SweepLimits`, `SweepReach`). An AWS account is a set of live resources, the edges that
make AWS refuse a deletion (something lives in or uses the resource, a security-group rule names
it, two things are attached), the asynchronous deletions under way, and the object versions that S3
refuses to delete. `Aws.Account` is the account behind the `aws` CLI. Unless it is `reliable`, any
probe may answer anything, any listing may miss anything, any delete may fail to arrive or finish
at once, any wait may time out. Every cleanup unit is a
method over it, in the order of the source. Two results hold for each run: whatever fails, the
world shrinks only by what the configuration names (`Bound`), and when nothing fails everything in
reach is disposed of (`CleanRun`). `SweepReach` says both in both directions with the fields of the
configuration themselves: only what it names goes, and all that it names goes.

- *Scope.* A resource is the sweep's business (`Scoped`) by EKS or RDS name, by ownership tag, by
  bucket name, by role-name prefix, or by a global list.
- *Out of reach* (`Stuck`). A lasting obstacle leads from something the sweep does not delete to
  the resource. Completeness is stated up to that, and unconditionally where nothing foreign is in
  the way (`CleanRunLeavesNothing`).
- *Premises.* `Valid`: edges obey AWS's dependency rules, nothing exists outside its parent. Beyond
  that each kind of resource has the premises it needs and no others (`Covered`), and they follow the
  order in which the targets are swept. An address: whoever shares a VPC with an earlier target has
  no address that the other lacks (`SharersShareAddresses`), and a swept NAT gateway belongs to a
  target that owns its address too or comes no later than the address's owners (`NatsGoInTime`). A
  group or a VPC: a rule that crosses between swept VPCs is stripped before it is in the way
  (`RulesGoInTime`). An IAM role found by prefix, and an instance profile: at most a thousand roles,
  where the listing is cut off (`FewRoles`). Everything else: none. That nothing out of reach is touched, and with it
  convergence, needs one more: no default group of a swept VPC names a group of another
  (`DefaultsStayHome`). `SweepLimits` has an account for each of the five on which a run without
  faults goes wrong for want of that one alone.
- *Termination.* The S3 purge loop lists until a listing is empty. Each such loop is watched for
  `patience` listings; `ended` says whether it came to its end by then. A sweep is sure to end if
  and only if no swept bucket holds a locked version.
- *Convergence is false in general, and its exact condition is proved.* Faulty runs followed by
  one fault-free run end where a single fault-free run ends plus exactly what the faulty runs
  `Stranded`: an address whose cluster has lost its last tagged VPC, a gateway that was detached but
  not deleted, an instance profile likewise. Witnesses, with the calls that lead there, are
  `LateAddressIsStranded` and `DetachedIsStranded`.

**The pivot** (`PivotSite`, `Pivot`, `PivotRun`, `PivotLimits`). Two inventories with pause flags,
Flux and the controllers acting on them between any two commands, and `clusterctl move` as pause,
create, then delete, which may stop anywhere. A command that fails may have had its effect. Every
state is logged in a ghost history in which each state follows from the one before by an event; the
invariants hold of the whole history, over any number of runs. The steps of a bootstrap are numbered,
each is taken only in its turn, and every outcome comes with the number of steps that succeeded. A bootstrap may create kind: that is
safe exactly while the target has not taken over and every object that is known is on it
(`Creatable`, so on the first run), and the history is safe up to the first creation, or deletion
under `--recreate`, without that licence.

**The teardown** (`Waiting`, `Teardown`, `LocalTeardown`, `ShellTrap`). Each Rust branch produces a
trace that equals a function of what the outside answers; the ordering theorems are about that
trace. The `...InFull` lemmas write it out action by action, and the `...Iff` lemmas say of each action
exactly when it is taken. In the aws branch that function has no force parameter. The shell script is modelled with
its flag, its EXIT trap and its counted seconds.

**Kernels** (`Template`, `Leftover`, `DigestGate`, `Polling`, `Duration`, `Naming`).

## Where the code and its documentation disagree

- `FORCE_KIND_DELETE` has no effect in the Rust aws teardown: a timed-out wait returns an error
  before the guard, and otherwise the clusters count as gone. `docs/bootstrap-cli.md:163`
  says that it removes the host even without confirmation.
- "Rerun the same command" after a failed pivot (`docs/bootstrap-cli.md:149-150`) works exactly
  while the management Cluster and its kubeconfig secret are still on kind. After the move has
  emptied kind, later runs stop at Phase 0; after kind was deleted, a rerun creates a new kind
  cluster that reconciles the same Clusters a second time.
- The local-talos manifests define no `addonprovider/helm`, which Phase 3 waits for in every
  environment, so that pivot stops there.
- The local-host teardown suspends the workload's Kustomization only when the management cluster
  is reached through its own kubeconfig, not while kind is there (`docs/bootstrap-cli.md:182`).
- The local-talos teardown reports success when its wait times out, although it prints that it
  aborts.
- `teardown.sh` sets its flag without evidence in three cases: an AWS-only run, an API server that
  does not answer (taken for one without CAPI), a failed first listing. In an AWS-only run a
  failing sweep command then makes the trap delete kind.
- `substitute-components.sh` calls itself idempotent. It is on success; on failure the file has
  been rewritten and a further run changes it again.
- `substitute-components.sh` ends with an error if a placeholder remains. A default that nests one is
  reported that way, except where the feature-gate override takes what is left for a flag's value:
  `--feature-gates=${X:=${Y:=true}}` becomes the overriding gates, and the run succeeds.
- The S3 purge loop reads only the exit status of `delete-objects`. If single entries are refused
  inside a successful reply, the loop does not end, although the sweep is described as best effort.

## Model

| member | source | states |
|---|---|---|
| AwsWorld.DeleteStaysValid | bootstrap-rs/src/teardown.rs:507-508 | A delete call, accepted or refused, keeps the account consistent: nothing is left outside its parent and no pending deletion becomes blocked |
| AwsWorld.GoneStaysValid | bootstrap-rs/src/teardown.rs:1012-1014 | Removing an unblocked resource, with what goes along with it, keeps the account consistent |
| Aws.DeleteEach | bootstrap-rs/src/teardown.rs:495-504 | A best-effort delete loop stays within the bound, removes only listed things, and without faults leaves a listed thing only if it was blocked, is being deleted or cannot be deleted |
| Aws.WaitEach | bootstrap-rs/src/teardown.rs:559-576 | A best-effort wait loop stays within the bound and without faults ends every listed deletion that was under way |
| SweepScope.BoundTransitive | bootstrap-rs/src/teardown.rs:1894-1985 | Runs and parts of runs compose: only resources in scope disappear, and nothing out of reach does |
| SweepScope.StuckStays | bootstrap-rs/src/teardown.rs:1894-1985 | Unless a default group of one swept VPC names a group of another (`DefaultsStayHome`), what is out of reach survives every run, with any faults, and stays out of reach |
| SweepScope.StuckIsOld | bootstrap-rs/src/teardown.rs:1894-1985 | No run puts anything out of reach that was not so before |
| SweepScope.DeleteExtends | bootstrap-rs/src/teardown.rs:375-376 | A delete of anything in scope keeps the run within its bound, whether AWS refuses, accepts or finishes it |
| SweepScope.DetachExtends | bootstrap-rs/src/teardown.rs:1175-1201 | Detaching a gateway or profile in scope keeps the run within its bound and never lets go of one that is out of reach |
| SweepScope.BuiltInsGoWithTheirVpc | bootstrap-rs/src/teardown.rs:1203-1273 | A main route table or default group disappears only along with its tagged VPC |
| SweepScope.CleanOutcome | bootstrap-rs/src/teardown.rs:1894-1985 | A resource whose premises hold stands after a fault-free run if and only if it stood before and the sweep does not clear it |
| SweepScope.FaultsOnlyStrand | bootstrap-rs/src/teardown.rs:1894-1985 | A resource whose premises hold stands after a faulty run and a fault-free one if and only if it stands after a fault-free run from the start or was stranded, and never both |
| SweepReach.LostNetworkIsTagged | bootstrap-rs/src/teardown.rs:1012-1040 | Whatever fails, a VPC, NAT gateway, subnet, route table or group that a run removes or starts to delete belongs to a VPC in a target's region whose ownership tags contain that target's cluster; a main table or default group goes only along with its VPC |
| SweepReach.LostLooseEndIsNamed | bootstrap-rs/src/teardown.rs:1092-1202 | A gateway goes only if attached to such a VPC, an address only if it carries a target's tag in its region and a VPC with the same tag is there, an instance profile only if a configured role, or a role with a target's prefix other than None, is in it |
| SweepReach.LostRegionalIsNamed | bootstrap-rs/src/teardown.rs:467-691 | EKS clusters, nodegroups and associations go only by a target's region and cluster name, databases by region and instance name, stacks by the configured name in a target's region |
| SweepReach.LostGlobalIsNamed | bootstrap-rs/src/teardown.rs:693-975 | Buckets and versions go only by the pattern with account and cluster filled in, and not without an account; roles by the list or a target's prefix other than None; users by the list; what no cleanup unit knows never goes |
| SweepReach.CutIsNamed | bootstrap-rs/src/teardown.rs:1257-1339 | Rules go only from non-default groups of tagged VPCs, attachments only from tagged VPCs and named roles, and nothing that lives in or uses another resource is let go of |
| SweepReach.UntaggedNetworkIsKept | bootstrap-rs/src/teardown.rs:1012-1040 | Whatever fails, a VPC that no target owns by region and tag, the untagged default VPC above all, stays with everything in it and every rule of its groups |
| SweepReach.UntaggedAddressIsKept | bootstrap-rs/src/teardown.rs:1092-1123 | Whatever fails, an address that no target owns by region and tag stays |
| SweepReach.StrandedLostItsWay | bootstrap-rs/src/teardown.rs:1015-1040 | What faulty runs put out of reach is an address with no VPC of its tag left, a gateway detached from the tagged VPC it hung on, or a profile that lost the named role it carried |
| SweepReach.LockedVersionIsNamed | bootstrap-rs/src/teardown.rs:710-752 | What keeps a purge from ending is exactly a locked version in the bucket that the pattern gives for some target |
| SweepReach.TaggedNetworkIsGone | bootstrap-rs/src/teardown.rs:1015-1365 | With nothing unnamed in the way and no faults, no VPC in the target's region with the target's tag is left, nor any NAT gateway, subnet, route table or group of one |
| SweepReach.LooseEndsAreGone | bootstrap-rs/src/teardown.rs:1092-1202 | Nor any gateway that was attached to such a VPC, nor any address with the target's tag in its region if there was such a VPC |
| SweepReach.NamedClusterIsGone | bootstrap-rs/src/teardown.rs:1916-1938 | Nor the target's EKS cluster, its nodegroups and associations; its database is at least being deleted. This and the two before hold of a run that does not end, too |
| SweepReach.NamedStackIsGoing | bootstrap-rs/src/teardown.rs:1977-1983 | And in a run that ends, the configured stack is at least being deleted in the target's region |
| SweepReach.NamedBucketIsGone | bootstrap-rs/src/teardown.rs:1943-1966 | Nor the bucket that the pattern gives for the target, nor any version in it |
| SweepReach.NamedRoleIsGone | bootstrap-rs/src/teardown.rs:1967-1973 | Nor any configured role, or role with the target's prefix other than None, nor any policy of one |
| SweepReach.NamedUserIsGone | bootstrap-rs/src/teardown.rs:1974-1976 | Nor any configured user, nor anything that belonged to one |
| SweepReach.NamedProfileIsGone | bootstrap-rs/src/teardown.rs:809-840 | Nor any instance profile that held such a role |
| SweepReach.UnblockedIsGone | bootstrap-rs/src/teardown.rs:1916-1983 | Whatever obstructs other resources, a resource in scope with nothing live in its own way is gone after a fault-free run, or is a database or stack being deleted |
| SweepReach.LoneTargetIsUnhindered | bootstrap-rs/src/teardown.rs:1916-1983 | The premises of these results hold of one target with at most a thousand roles, no rule across VPCs, and nothing in the way but what the sweep deletes |
| SecurityGroups.TwoPassesAreExact | bootstrap-rs/src/teardown.rs:1257-1355 | After the strip loop and the delete loop a listed group is left if and only if something outside the list obstructs it; references among the listed groups, cycles included, do not matter |
| SecurityGroups.TwoPassesClear | bootstrap-rs/src/teardown.rs:1257-1355 | With nothing in the way from outside, every delete of the second loop is accepted, in any order |
| SecurityGroups.OnePassKeepsKnots | bootstrap-rs/src/teardown.rs:1257-1258 | Deleting without stripping never removes a group of a reference cycle, whatever the order and however often |
| SecurityGroups.DeleteSecurityGroups | bootstrap-rs/src/teardown.rs:1257-1355 | Lists the non-default groups of the VPC and, without faults, has the effect of strip-all followed by delete-all on exactly them |
| SecurityGroups.StripRules | bootstrap-rs/src/teardown.rs:1276-1339 | One side of a group's rules is revoked, or nothing changes and the account was not reliable |
| SweepVpc.CleanupNats | bootstrap-rs/src/teardown.rs:1043-1091 | Without faults no NAT gateway of the VPC is left, pending deletions included |
| SweepVpc.ReleaseAddresses | bootstrap-rs/src/teardown.rs:1092-1123 | Without faults a tagged address is left only if something used it when its release was requested |
| SweepVpc.DeleteSubnets | bootstrap-rs/src/teardown.rs:1124-1155 | Without faults and with the NAT gateways gone, only subnets out of reach are left |
| SweepVpc.DetachAndDelete | bootstrap-rs/src/teardown.rs:1175-1201 | Loses the gateway or profile and its attachments at most; without faults it is left only if out of reach |
| SweepVpc.DeleteGateways | bootstrap-rs/src/teardown.rs:1156-1202 | Without faults only gateways out of reach stay attached to the VPC |
| SweepVpc.DeleteRouteTables | bootstrap-rs/src/teardown.rs:1203-1256 | Without faults and with the subnets dealt with, only route tables out of reach and the main one are left |
| SweepVpc.DeleteGroupsOf | bootstrap-rs/src/teardown.rs:1257-1355 | Without faults no rule of the VPC's own groups is left, and unless another VPC's strippable rule still names one of them, only groups out of reach and the default one are left |
| SweepVpc.DeleteVpc | bootstrap-rs/src/teardown.rs:1356-1364 | With its contents dealt with and without faults, the VPC is left only if out of reach; no other VPC and no NAT gateway elsewhere is touched |
| SweepVpc.CleanupVpc | bootstrap-rs/src/teardown.rs:1042-1365 | Without faults, once the rules that cross into it are stripped, the VPC and all its contents are dealt with; a tagged address is left only if something other than this VPC's NAT gateways uses it; no other VPC or NAT gateway is lost |
| SweepVpc.CleanupVpcResources | bootstrap-rs/src/teardown.rs:1015-1040 | Once the rules that cross into them are stripped, every VPC with the target's tag is dealt with, and only the target's VPCs and NAT gateways disappear; each of its addresses is released, or out of reach, or in use by a NAT gateway whose cleanup is still to come |
| SweepVpc.UsedBeyondIsHeld | bootstrap-rs/src/teardown.rs:1092-1123 | An address in use by anything but the NAT gateways of its own cluster is out of reach, or in use by a NAT gateway that another target's cleanup deletes |
| Sweep.CleanupPodIdentityAssociations | bootstrap-rs/src/teardown.rs:467-505 | Without faults no pod identity association of the cluster is left |
| Sweep.CleanupNodegroups | bootstrap-rs/src/teardown.rs:507-541 | Without faults every nodegroup left is being deleted |
| Sweep.WaitNodegroupsDeleted | bootstrap-rs/src/teardown.rs:544-577 | Without faults every nodegroup deletion under way is over |
| Sweep.CleanupEksCluster | bootstrap-rs/src/teardown.rs:580-606 | Without faults the cluster is left only if something blocked it or it is being deleted |
| Sweep.WaitEksClusterDeleted | bootstrap-rs/src/teardown.rs:609-632 | Without faults a cluster that was being deleted is gone |
| Sweep.CleanupRdsInstance | bootstrap-rs/src/teardown.rs:634-691 | Without faults the instance is gone or being deleted; one already in deletion is left alone |
| Sweep.ListVersions | bootstrap-rs/src/teardown.rs:711-727 | A page holds at most 500 distinct versions, and all of them if it is not full |
| Sweep.DeleteObjects | bootstrap-rs/src/teardown.rs:731-747 | A successful batch removes exactly the versions of the page that are not locked; a failed one may have removed some of them |
| Sweep.PurgeVersions | bootstrap-rs/src/teardown.rs:710-752 | With nothing locked in the bucket the loop ends after at most n+1 listings under any faults, and without faults after exactly ceil(n/500)+1 with no version left; with something locked a fault-free loop does not end, however long it is watched |
| Sweep.PurgeStallsIff | bootstrap-rs/src/teardown.rs:731-751 | Successful batches over a bucket can keep the loop going for more rounds than there are versions if and only if some version is locked, and exactly then for every number of rounds |
| Sweep.CleanupS3Bucket | bootstrap-rs/src/teardown.rs:693-770 | Ends under any faults when nothing in the bucket is locked and never without faults when something is; a fault-free run that ends leaves no version, and the bucket only if something foreign holds it |
| SweepIam.CleanupIamRole | bootstrap-rs/src/teardown.rs:772-880 | Without faults the role's policies are gone, its instance profiles and the role are left only if out of reach |
| SweepIam.EmptyIamRole | bootstrap-rs/src/teardown.rs:779-866 | Managed policies, then profiles, then inline policies: without faults none of them is left in reach |
| SweepIam.DeleteProfiles | bootstrap-rs/src/teardown.rs:809-840 | Without faults every profile of the role is left only if out of reach |
| SweepIam.ListRoles | bootstrap-rs/src/teardown.rs:886-901 | Lists at most a thousand names, only names with the prefix, and all of them when there are at most a thousand roles |
| SweepIam.CleanupCapaIamRoles | bootstrap-rs/src/teardown.rs:881-906 | Without faults every role with the cluster-name prefix is dealt with, except one called None |
| SweepIam.CleanupIamUser | bootstrap-rs/src/teardown.rs:908-975 | Without faults nothing that belongs to the user is left, and the user only if something foreign holds it |
| SweepRun.SweepNodegroups | bootstrap-rs/src/teardown.rs:1916-1927 | 4a and 4b: without faults no association and no nodegroup of any target is left |
| SweepRun.SweepEksClusters | bootstrap-rs/src/teardown.rs:1928-1934 | 4c: once the nodegroups are gone and without faults, a target's cluster is left only if something foreign holds it |
| SweepRun.SweepDatabases | bootstrap-rs/src/teardown.rs:1935-1938 | 4d: without faults every target's database is gone or being deleted |
| SweepRun.SweepNetworks | bootstrap-rs/src/teardown.rs:1939-1942 | 4e: without faults every target's network is dealt with: subnets, gateways and tables always, groups, VPCs and addresses as far as their own premises hold, also when targets share VPCs or addresses |
| SweepRun.TurnComes | bootstrap-rs/src/teardown.rs:1257-1355 | When a target's turn comes, every rule that crosses into its VPCs in time has been stripped by an earlier target's cleanup |
| SweepRun.AddressStaysSeen | bootstrap-rs/src/teardown.rs:1043-1123 | From one target to the next an address that was seen to stays out of reach or in use by a swept NAT gateway: the gateway goes only in the cleanup of a target that releases the address, although an earlier release failed |
| SweepRun.SweepBuckets | bootstrap-rs/src/teardown.rs:1943-1966 | 4f: sure to end if and only if nothing in a swept bucket is locked; without faults every bucket is then purged and deleted, and without an account id nothing is touched |
| SweepRun.SweepRoles | bootstrap-rs/src/teardown.rs:1967-1973 | 4g: without faults every role listed by name is dealt with, and every role in scope by prefix when there are at most a thousand |
| SweepRun.SweepUsers | bootstrap-rs/src/teardown.rs:1974-1976 | 4g: without faults every listed user is dealt with |
| SweepRun.CleanupCfnStack | bootstrap-rs/src/teardown.rs:977-1010 | Without faults the stack's deletion is under way; nothing waits for it |
| SweepRun.SweepStacks | bootstrap-rs/src/teardown.rs:1977-1983 | 4h: without faults the stack is gone or being deleted in every region |
| SweepRun.RunSweep | bootstrap-rs/src/teardown.rs:1894-1985 | Under any faults the sweep stays within its bound; it ends under any faults if no swept bucket holds a locked version and does not end without faults if one does; a fault-free run has disposed of everything in the scope and reach of 4a to 4e even if it does not end or there are more than a thousand roles, and of everything if it ends, each resource under its own premises only |
| SweepRun.CleanRunLeavesNothing | bootstrap-rs/src/teardown.rs:1916-1983 | With nothing foreign in the way a fault-free run leaves no resource of any target whose own premises hold, only database and stack deletions under way |
| SweepRun.SweepConverges | bootstrap-rs/src/teardown.rs:1894-1985 | Any number of faulty runs and then a fault-free one: on the resources whose premises hold, the outcome of one fault-free run plus what was stranded, hence the same exactly when nothing was stranded; on all resources when all premises hold |
| SweepLimits.LateAddressIsStranded | bootstrap-rs/src/teardown.rs:1015-1040 | Convergence fails: the release of an address is lost, the deletion of its last tagged VPC succeeds, and every later fault-free run leaves the address |
| SweepLimits.DetachedIsStranded | bootstrap-rs/src/teardown.rs:1175-1201 | Convergence fails: a gateway or profile is detached, its deletion is lost, and no later run deletes it |
| SweepLimits.SharersShareAddressesIsNeeded | bootstrap-rs/src/teardown.rs:1015-1040 | A VPC with two owners: the first owner's cleanup deletes it, and an address that only the second owner has, and nothing holds, is never looked for |
| SweepLimits.RulesGoInTimeIsNeeded | bootstrap-rs/src/teardown.rs:1257-1364 | A rule of the later of two swept VPCs names a group of the earlier: that group and its VPC are refused and left, although nothing lasting holds them |
| SweepLimits.DefaultsStayHomeIsNeeded | bootstrap-rs/src/teardown.rs:1257-1364 | A default group of the earlier of two swept VPCs names a group of the later: that group is out of reach while the default group is there, but goes once the earlier VPC has taken the default group along |
| SweepLimits.NatsGoInTimeIsNeeded | bootstrap-rs/src/teardown.rs:1043-1123 | A NAT gateway of the later cluster on an address of the earlier: the address is refused, then set free, and left |
| SweepLimits.FewRolesIsNeeded | bootstrap-rs/src/teardown.rs:881-906 | With more than a thousand unobstructed roles of a cluster, every listing of at most a thousand leaves one of them to stay |
| Naming.TwoStepsAreOne | bootstrap-rs/src/teardown.rs:367-373 | For every pattern and non-empty all-digit account, replacing the account and then the cluster equals one simultaneous substitution |
| Naming.EachSlotOnce | bootstrap-rs/src/teardown.rs:367-373 | For the shape of the shipped pattern, one account slot and then one cluster slot between plain pieces, the name is the pieces with account and cluster in their places |
| Naming.NamesAreInjective | bootstrap-rs/src/teardown.rs:367-373 | If the pattern mentions the cluster anywhere, two clusters never share a bucket name |
| Naming.EmptyAccountForgesASlot | bootstrap-rs/src/teardown.rs:1958-1966 | The guard against an empty account is needed: with it, the second step fills a slot the pattern does not contain |
| PivotSite.StepKeepsInv | bootstrap-rs/src/main.rs:1547-1548 | Every event keeps the pivot's invariant; unpausing, restoring, seeding and deleting kind do so once kind is emptied and Flux suspended |
| PivotSite.CreationIsSafeIff | bootstrap-rs/src/main.rs:819-914 | Creating a kind cluster on which Flux will be at work keeps the invariant if and only if the target has not taken over and holds every object there ever was |
| Pivot.SafeThroughout | bootstrap-rs/src/main.rs:2218-2269 | In a safe history every state has a single owner per Cluster and loses nothing, each state follows from the one before by an event, and kind is deleted only when it is empty and the target holds the whole inventory |
| Pivot.SafeInFull | bootstrap-rs/src/main.rs:2218-2269 | The same field by field: no managed Cluster is unpaused on both sides, every object is on a side unless it went with kind from another namespace, and kind goes only with no Kustomization running, no managed object in it and every managed object on the target |
| Pivot.NothingIsEverLost | bootstrap-rs/src/main.rs:2218-2269 | Through any safe history a managed object that is on kind or on the target at some time is on one of them at every later time |
| Pivot.Clusters.Interfere | bootstrap-rs/src/main.rs:1949-1954 | What happens between two commands never removes anything, and leaves a suspended and paused inventory on kind alone |
| Pivot.Preflight | bootstrap-rs/src/main.rs:1575-1609 | Phase 0 passes only with the management Cluster on kind, and does so unless a command fails |
| Pivot.AwaitSecret | bootstrap-rs/src/main.rs:1611-1661 | Phase 1 passes only with the kubeconfig secret on kind, and does so if it is there and no command fails |
| Pivot.ExportKubeconfig | bootstrap-rs/src/main.rs:1663-1752 | Phase 2 passes if the secret is on kind and no command fails |
| Pivot.InstallProviders | bootstrap-rs/src/main.rs:1756-1940 | Phase 3 passes only if every provider waited for is defined, and then unless a command fails |
| PivotRun.SuspendFlux | bootstrap-rs/src/main.rs:1955-1972 | With a faithful listing no Kustomization is left running on kind |
| PivotRun.Move | bootstrap-rs/src/main.rs:1973-1996 | A successful move puts every managed object on the target, and with Flux suspended empties kind; it may stop anywhere |
| PivotRun.UnpauseClusters | bootstrap-rs/src/main.rs:1998-2038 | Without faults every Cluster on the target is unpaused afterwards; under any faults kind stays emptied and as it is, and the target loses nothing |
| PivotRun.RestoreFallbacks | bootstrap-rs/src/main.rs:2040-2073 | Success means that every fallback is on the target, and without faults nothing is applied if all are there; kind stays emptied and as it is, and the target loses nothing |
| PivotRun.SeedTarget | bootstrap-rs/src/main.rs:2078-2133 | Success means that Flux is at work on the target; kind stays emptied and as it is, and the target loses nothing |
| PivotRun.DeleteBootstrapCluster | bootstrap-rs/src/main.rs:2135-2193 | Phase 6 keeps kind when the deletion is to be skipped; otherwise it deletes kind only with a Cluster on the target, and does so unless a command fails |
| PivotRun.HandOver | bootstrap-rs/src/main.rs:1955-2193 | Phases 4 to 6: a completed run has every managed object of kind and every fallback on the target, Flux at work there and, without faults, every Cluster it moved unpaused; kind is there if and only if its deletion is skipped |
| PivotRun.RunPivot | bootstrap-rs/src/main.rs:2218-2269 | Every stop leaves a safe history, in the phase that the number of successful steps gives; a completed run has every managed object of kind and every fallback on the target, Flux at work there and, without faults, every Cluster it moved unpaused; it keeps kind if its deletion is to be skipped and has deleted it otherwise, never without a Cluster on the target; from a quiet kind a fault-free run passes Phases 0 and 1 if and only if Cluster and secret are on kind, and completes if all providers are defined; with a provider undefined it stops by Phase 3; from an emptied kind every run stops at Phase 0 and keeps it |
| PivotRun.EnsureKindCluster | bootstrap-rs/src/main.rs:819-914 | Without --recreate an existing kind cluster is never touched, even if its listing fails, and a creation that is licensed keeps the history safe; with --recreate kind is replaced by an empty one; without faults it succeeds |
| PivotRun.RunBootstrap | bootstrap-rs/src/main.rs:2342-2426 | No pivot starts unless it is wanted, and then only after all five steps before it; a bootstrap without pivot or --recreate keeps an existing kind and all in it, and one that skips the deletion keeps kind; without --recreate any step may fail and the history stays safe if kind exists or may be created, the first run on an empty site included; from an emptied kind it does not get past Phase 0 and kind stays as emptied as it was; fault-free from a kind that still holds Cluster and secret it completes |
| PivotRun.RerunBootstraps | bootstrap-rs/src/main.rs:2342-2426 | Over any number of runs, those that create kind included, every state has a single owner per Cluster, loses no managed object, and kind is deleted only when it is empty and the target holds the whole inventory, up to the first creation of kind over a target that had taken over or lacked an object |
| PivotRun.KindGoneMeansSelfManaged | bootstrap-rs/src/main.rs:2138-2193 | Once kind is gone the target holds every managed object there ever was |
| PivotLimits.FailedListingSplitsOwnership | bootstrap-rs/src/main.rs:498-508 | Without a faithful listing both sides can reconcile the same Cluster |
| PivotLimits.RerunAfterCompletionSplitsOwnership | bootstrap-rs/src/main.rs:2342-2426 | A bootstrap after a completed pivot can make both sides reconcile the same Cluster |
| PivotLimits.OtherNamespaceSplitsOwnership | bootstrap-rs/src/main.rs:1974-1985 | A Cluster outside the moved namespace can be reconciled by both sides |
| PivotLimits.DeletionLosesOtherNamespaces | bootstrap-rs/src/main.rs:1974-1985 | Deleting an emptied kind loses an object if and only if it is outside the moved namespace and not on the target |
| PivotLimits.NonEmptyTargetIsNotEnough | bootstrap-rs/src/main.rs:2148-2168 | The check that the target has a Cluster would by itself let a deletion of kind lose objects |
| PivotLimits.TalosLacksAnAddonProvider | bootstrap-rs/src/main.rs:1865-1929 | With the local-talos manifests, on a target without the addon provider, not every provider that Phase 3 waits for is defined |
| PivotLimits.TalosStopsInPhase3 | bootstrap-rs/src/main.rs:1865-1929 | So every local-talos pivot stops by Phase 3 |
| PivotLimits.AwsAndLocalHostAreComplete | bootstrap-rs/src/main.rs:1865-1929 | The aws and local-host manifests define every provider waited for, on any target |
| Polling.AwaitSecret | bootstrap-rs/src/main.rs:1618-1661 | Finds the secret if and only if a probe within the budget does, stops at the first probe that finds it, and sleeps at most max(timeout, interval) seconds |
| Polling.AwaitSecretInScript | pivot.sh:107-130 | The script's loop finds it if and only if one of its fewer probes does |
| Polling.BinaryRefinesScript | bootstrap-rs/src/main.rs:1628-1644 | Run against the same cluster, the binary succeeds whenever the script does, and it alone succeeds exactly when the first probe to find the secret is the one at the end of the budget |
| Polling.StayingSecretIsFoundIff | bootstrap-rs/src/main.rs:1628-1644 | A secret that appears and stays is found if and only if it appears within max(floor(timeout/interval), 1) intervals |
| Duration.ParseInvertsRenderIff | bootstrap-rs/src/main.rs:372-392 | Parsing a printed number with h, m, s or no unit and surrounding blanks returns 3600, 60 or 1 times the number if and only if that is below 2^64 |
| Duration.HoursReadAs | bootstrap-rs/src/main.rs:372-392 | A printed number of hours reads as 3600 times the number modulo 2^64, and is rejected if the number does not fit into 64 bits |
| Duration.MinutesReadAs | bootstrap-rs/src/main.rs:372-392 | A printed number of minutes reads as 60 times the number modulo 2^64, or is rejected likewise |
| Duration.SecondsReadAs | bootstrap-rs/src/main.rs:372-392 | A printed number of seconds reads as itself or is rejected likewise |
| Duration.BareReadsAs | bootstrap-rs/src/main.rs:372-392 | So does a printed number without a unit |
| Duration.ReadsDecimal | bootstrap-rs/src/main.rs:372-392 | One more digit multiplies what was read by ten and adds the digit, up to 2^64 |
| Duration.AcceptedIff | bootstrap-rs/src/main.rs:372-392 | Exactly Unicode white space, digits below 2^64, an optional h, m or s, and white space are accepted |
| Duration.TrimmedIff | bootstrap-rs/src/main.rs:372-392 | The characters that may surround a duration are exactly those with Unicode's White_Space property, listed by code point |
| Waiting.ConfirmedIff | bootstrap-rs/src/teardown.rs:319-359 | A wait confirms if and only if some look finds everything gone before a round that reads the deadline; a look at the deadline still counts |
| Waiting.RoundsBounded | bootstrap-rs/src/teardown.rs:319-359 | A wait ends within timeout divided by pause rounds, and one more |
| Teardown.WaitForClusters | bootstrap-rs/src/teardown.rs:319-359 | Lists, compares and sleeps exactly as often as the clock and the listings make it |
| Teardown.DeleteAwsWorkloadClusters | bootstrap-rs/src/teardown.rs:284-360 | Reports the workload Clusters gone if and only if none was listed at first or the wait confirmed |
| Teardown.RunAwsTeardown | bootstrap-rs/src/teardown.rs:1854-2036 | The trace is a function of the outside that does not depend on the force flag; the guard never refuses; the run fails exactly on missing tools, or on a reachable host with workload Clusters of which no listing in time shows none |
| Teardown.AwsRunInFull | bootstrap-rs/src/teardown.rs:1872-2024 | On a reachable host: suspend Flux, list, delete exactly the Clusters listed beside the management Cluster, list every 30 seconds up to the first listing without them or the deadline; once they are gone, the orphan sweep if aws is there, the providers, the chart, and kind if it is the host |
| Teardown.UnreachableRunInFull | bootstrap-rs/src/teardown.rs:1854-1900 | Without a reachable host, or with AWS_ONLY, the run is the orphan sweep if aws is there and nothing else |
| Teardown.AwsActionsIff | bootstrap-rs/src/teardown.rs:1872-2024 | Exactly when each action is taken: the suspension on a reachable host; the deletion of exactly the listed workload Clusters; the sweep whenever aws is there, after the Clusters are gone if a host is reachable; providers and chart on a reachable host once they are gone; kind if it is that host |
| Teardown.DestructionIsDominated | bootstrap-rs/src/teardown.rs:1872-2024 | With faithful listings, on a reachable host no sweep, provider, helm or kind deletion comes before a listing without workload Clusters |
| Teardown.KindDeletedIff | bootstrap-rs/src/teardown.rs:1993-2024 | Kind is deleted exactly when it is the host, the tools are there and the workload Clusters count as gone |
| Teardown.AbortedRunIsHarmless | bootstrap-rs/src/teardown.rs:1883-1888 | A run whose wait times out does no sweep and deletes no provider, release or host |
| Teardown.FailedListingDeletesKind | bootstrap-rs/src/teardown.rs:293-309 | Without faithful listings kind can be deleted with workload Clusters alive and none of its listings right |
| Teardown.RunTalosTeardown | bootstrap-rs/src/teardown.rs:1742-1852 | The trace of the local-talos teardown, empty if tools are missing or AWS_ONLY is set; a timeout is not reported as a failure |
| Teardown.TalosRunInFull | bootstrap-rs/src/teardown.rs:1766-1846 | On a reachable host: suspend Flux, list, delete every listed Cluster, list every 30 seconds up to the first empty listing or the deadline, and delete kind once none is left, if it is the host |
| Teardown.TalosActionsIff | bootstrap-rs/src/teardown.rs:1766-1846 | Exactly when each action is taken: every listed Cluster is deleted, the management Cluster included; kind exactly once no Cluster is left; no sweep, no provider deletion |
| Teardown.TalosDeletionIsDominated | bootstrap-rs/src/teardown.rs:1834-1846 | With faithful listings kind is deleted only after a listing without any Cluster |
| LocalTeardown.DeleteCapiWorkload | bootstrap-rs/src/teardown.rs:234-280 | Reports a workload gone exactly when it was not found or was deleted and seen to go in time |
| LocalTeardown.WorkloadInFull | bootstrap-rs/src/teardown.rs:234-280 | One workload: look; if it is found, ask for its deletion; if that is accepted, look every 10 seconds up to the first look that does not find it or 300 seconds; it counts as gone if it was not found, or was accepted and a look in time did not find it |
| LocalTeardown.DeleteCapiWorkloads | bootstrap-rs/src/teardown.rs:226-282 | Goes through the workloads in order and stops at the first that does not go |
| LocalTeardown.RunLocalTeardown | bootstrap-rs/src/teardown.rs:1597-1740 | The trace of the local-host teardown; it fails exactly when a tool is missing, AWS_ONLY is set, a toolbox cannot join kind, or a host was reachable and a workload did not go, and in the first three cases nothing has been touched |
| LocalTeardown.LocalRunInFull | bootstrap-rs/src/teardown.rs:1597-1740 | A run that is not refused: the suspension where only the kubeconfig leads to the host, one block per workload in their order up to the first that does not go, and if none stayed kind, or the containers if there is no kind, and then the registry |
| LocalTeardown.DeletionAskedIff | bootstrap-rs/src/teardown.rs:226-261 | A workload's deletion is asked for if and only if it is found after all before it have gone, in a run that is not refused and reaches a host |
| LocalTeardown.HostRemovedIff | bootstrap-rs/src/teardown.rs:1696-1735 | Kind, the containers and the registry are removed exactly when every workload has gone or no host was reachable, each where it is there |
| LocalTeardown.LocalOrdering | bootstrap-rs/src/teardown.rs:1673-1735 | With faithful looks the host is removed only after every workload was seen to be absent or no host was reachable, and the registry goes last |
| LocalTeardown.KindIsNotSuspended | bootstrap-rs/src/teardown.rs:1673-1695 | Past the preflight the workload's Kustomization is suspended exactly when kind is absent and the kubeconfig exists |
| ShellTrap.WaitForClusters | teardown.sh:747-775 | Confirms, breaks or times out exactly as the listings say; a timeout takes ceil(timeout/30) sleeps and one more listing |
| ShellTrap.DeleteClusters | teardown.sh:729-786 | Sets the flag exactly when there is a reason, and names the reason |
| ShellTrap.RunScript | teardown.sh:171-974 | On every way out kind is attempted at most once, and exactly when the force switch or the flag is set and the run was neither refused, nor stopped in the removal, nor an AWS-only run that went well; the flag is set exactly when the run got past the wait |
| ShellTrap.EndOfFullRun | teardown.sh:698-974 | Where a full run ends, step by step in the script's order: refused without tools, at a step that fails, at the wait unless CAPI does not answer, the first listing fails or shows nothing, or a listing within the timeout comes back empty after listings that did not; at the sweep only if aws is there |
| ShellTrap.EndOfAwsOnlyRun | teardown.sh:698-974 | Where an AWS-only run ends: refused without aws, at the sweep, at the removal, or regularly |
| ShellTrap.UnforcedDeletionIff | teardown.sh:171-974 | Without the force switch kind is attempted if and only if the Clusters count as gone, for one of four reasons, and the run then ends with a failure before the trap is disarmed or, outside an AWS-only run, in step 9 |
| ShellTrap.TimedOutLeavesKind | teardown.sh:747-775 | If no listing of the wait comes back empty, kind is left alone unless forced |
| ShellTrap.UnreachableClusterLosesKind | teardown.sh:731-782 | An API server that does not answer counts as one without CAPI, and kind is deleted |
| ShellTrap.AwsOnlyDeletesKindIff | teardown.sh:783-786 | An AWS-only run deletes kind exactly when its sweep stops early |
| Template.MatchIsComplete | airgap/scripts/substitute-components.sh:35 | The scanner finds every placeholder that starts at its position and reads it to its first closing brace |
| Template.MatchIsSound | airgap/scripts/substitute-components.sh:35 | What the scanner matches is a placeholder with a name and a default without closing brace |
| Template.PlaceholderBecomesDefault | airgap/scripts/substitute-components.sh:35-45 | A text that begins with a dollar, a brace, a name, := and a default up to the first closing brace becomes the default followed by the rewritten rest |
| Template.OtherTextIsCopied | airgap/scripts/substitute-components.sh:35-45 | A character at which no such text begins is copied |
| Template.LeftoverIff | airgap/scripts/substitute-components.sh:47-51 | The leftover check reports a text if and only if such a placeholder is written somewhere in it |
| Template.FlagGetsItsValue | airgap/scripts/substitute-components.sh:36-46 | The feature-gate flag with whatever follows up to a newline or a quote becomes the flag with ClusterTopology=true, and the rest is rewritten in turn |
| Template.RestOfFileStays | airgap/scripts/substitute-components.sh:36-46 | Where the flag does not begin, the override copies a character |
| Template.FeatureGatesIdempotent | airgap/scripts/substitute-components.sh:36 | The feature-gate override changes nothing where it has been applied |
| Template.SecondPassIsIdleIff | airgap/scripts/substitute-components.sh:35-51 | A second run changes nothing if and only if the first left no placeholder |
| Leftover.NestedDefaultIsCaughtIff | airgap/scripts/substitute-components.sh:35-51 | Wherever it stands in a text, a default that is itself a placeholder is reported by a run without the override, and by one with it if and only if what substitution leaves is not hidden by a feature-gate flag |
| Leftover.NestedLeavesPlaceholder | airgap/scripts/substitute-components.sh:35 | Substitution leaves a placeholder in every text that nests one, whatever stands before and after it |
| Leftover.OverrideReportsIff | airgap/scripts/substitute-components.sh:36-51 | After the override a placeholder is found if and only if an opening and a later closing brace are outside the reach of every feature-gate flag |
| Leftover.NestedDefaultInFlagVanishes | airgap/scripts/substitute-components.sh:36-51 | As the value of the feature-gate flag every nested default vanishes unreported |
| Template.RepeatedRunsSettle | airgap/scripts/substitute-components.sh:38-51 | Repeated runs over a file end without placeholders |
| Template.SubstituteAll | airgap/scripts/substitute-components.sh:38-51 | Files are rewritten in order up to and including the first with a leftover; the rest stays as it was |
| DigestGate.ZarfLines | airgap/tests/test-airgap-image-digests.py:53-68 | Yields exactly the list items inside images blocks, in order |
| DigestGate.CountsIff | airgap/tests/test-airgap-image-digests.py:53-68 | A line of the Zarf package counts if and only if it begins with six blanks, a dash and a blank, and some line before it is the images header with nothing in between that is indented by four or less and begins neither with a number sign nor is a header |
| DigestGate.Gate.CheckFile | airgap/tests/test-airgap-image-digests.py:189-222 | Records every reference of the file the gate demands something of, and adds exactly the complaints about the file: one without tag, one without digest, an inventory without any |
| DigestGate.Audit | airgap/tests/test-airgap-image-digests.py:186-239 | Reports exactly what is wrong: a digest without a tag, a tag without a digest, an inventory without references, a name and tag with two digests in whatever files; and passes if and only if nothing is |
| DigestGate.PassesIff | airgap/tests/test-airgap-image-digests.py:12-22 | Passing, written out: every reference other than 127.0.0.1:31999 and localhost:5001/knr-ops-airgap:latest has a tag and a digest, equal names and tags have equal digests, and every inventory holds something other than the first of the two |

## Left out

- The container registry bootstrap and its retry loop, engine and toolbox detection, kubeconfig and
  temporary files, HTTP probes and printing: replaced by commands that succeed or fail.
- Command-line, TOML and environment parsing: the settings are parameters. A poll interval of zero
  is rejected there, which is why the loops assume a positive one.
- The internals of clusterctl, kubectl, helm, Flux and AWS: only the move order, the refusal rules
  and the waits. A Kustomization created between its listing and its parent's suspension, and
  objects created between the move's discovery and its pausing, are not modelled.
- A reinstallation of Flux by a rerun is taken to keep Kustomizations suspended, and the first
  installation is part of the creation of kind: Flux may act on a new kind cluster from the start.
- SweepScope.CleanOutcome: without `DefaultsStayHome` nothing is said about what a run spares.
- AWS resources of kinds the sweep does not know appear as `Foreign` blockers; other clients that
  create resources during a sweep are not modelled. An RDS instance inside a tagged VPC counts as a
  foreign blocker.
- Sweep.DeleteObjects: whether S3 refuses a version does not change during a sweep.
- Teardown.RunAwsTeardown: the suspension of Flux, the provider deletion with its wait, the helm
  uninstallations and the whole sweep are one action each in the trace.
- ShellTrap.RunScript: the commands of each step of the script are one command that survives or
  stops it; the AWS units of the script are the ones modelled for the Rust sweep.
- Duration.ParseInvertsRenderIff: the product wraps as in a release build; a debug build would
  panic instead.
- DigestGate.Audit: which references a line contains is given, the comment rules for the image list
  and the scripts are not modelled (the scanner for the Zarf package is), and the selection of changed files
  in the mode for pull requests is not modelled.
- The local-host branch of `teardown.sh`, `bootstrap.sh` and the mise files around them: simpler copies
  of what is modelled here.
