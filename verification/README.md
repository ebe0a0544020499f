# OpenStack load balancer operator: a model of its reconcile protocol

The operator watches Kubernetes services of type LoadBalancer and, for each one whose class it
serves, keeps an OpenStack port and (if asked) a floating IP. It works between two stores that
fail and change independently: a Kubernetes API server holding services and `OpenStackLoadBalancer`
objects, and OpenStack Neutron holding ports and floating IPs. This project models that protocol in
Dafny and proves what it keeps over whole runs.

`dafny verify dfyconfig.toml` checks everything.

## How the model is built

**The surroundings** are one value, `World` (`World.dfy`): the two Kubernetes stores (`Kube.dfy`, with
resource versions, unique ids, finalizers, deletion marks and every past version of each object), the
cloud (`Cloud.dfy`), and a *script*. The script has one turn for each call the operator makes. A turn
says what everybody else does just before the call (edit or delete services and load balancers, delete
cloud resources, add their own, rebind floating IPs, change subnets), whether the call succeeds, fails,
or takes effect although its reply is lost, whether tags can be read, and how stale a cached read is. A
theorem about every script is a theorem about every run, every pattern of failures and every
interference. The empty script is the *calm* world: every call succeeds and nobody interferes. `Rules`
says what the others leave alone (our finalizer, our two annotations, the load balancer status) and
whether they attach floating IPs; each theorem names the rules it needs. `Log` is history that the
operator never reads: which service object each resource was made for, how many calls went wrong, what
was deleted without the ownership tag, which port each floating IP was made on, which ports are not on record,
which credentials were tried and what was deleted, in order.

**The operator** is written twice. `Calls.dfy`, `Retry.dfy` and `Operator.dfy` are functions from a world
to a world; the theorems are about them. `Client.dfy`, `Helpers.dfy`, `CleanupHandler.dfy`,
`ServiceHandler.dfy` and `Controller.dfy` follow the Go files in their own form: a `Cluster` object whose
world the methods change, a `Draft` of the load balancer edited in memory, retry loops, deletion loops
that gather flags, the service loops. Each method is proved to leave exactly the world its function
gives, up to `Controller.Work`, the single worker that takes requests one after the other.

**The relation `Evolution.Evolves`** says what a step within a given scope leaves true; `Passes.dfy` proves
it for every function of the operator under every script, and most run theorems start from it.

`Instances.dfy` gives worlds that meet the hypotheses of the theorems that ask for more.

Reading order for the results: `Runs`, `Convergence`, `Isolation`, `Amid`, `RoundTrip`, `Dismantling`, `Deletion`,
`Ledger`, `Finalization`, `Handler`, `Readiness` and `Conditions`, `Truthful`, `Refinement`, `Attempts` and `Snapshots`,
`Overlap` and `Ownership`, `Adoption`, `Triggers` and `Meanings`, `Status`, `Lagging`, `Exits`, `Order`, `Network`.

## Assumptions about what is not modelled inside

- A Kubernetes `Update` or status update succeeds only if version and unique id are those of the stored
  object; it takes finalizers, annotations and spec from the caller (or the status only) and nothing
  else. Writing back an identical object does not change its version. A Kubernetes write that reports
  failure had no effect; for OpenStack, creations and deletions whose reply is lost are modelled.
- A terminating object disappears when its finalizer list becomes empty. The merge patch
  `finalizers: null` empties the whole list, carries no version and so cannot conflict.
- `ExponentialBackoff` calls its body at most five times; the retry around the patch counts as one call.
- OpenStack ids are not empty and never handed out twice. Deleting a port leaves its floating IPs as they
  are, where Neutron unbinds them; the others may unbind any floating IP at any time.
- A full update of a terminating object may carry a finalizer that the stored object lacks, where the API
  server refuses that; the operator adds finalizers only to copies that are not terminating.
- Nobody else changes the tags of a resource once it is there, so none changes between the tag read and the
  delete; `Runs.RunSparesForeign` uses that.
- The text of an error that the finalizer removal looks into for "conflict" comes with the turn.
- Passes are serial: the controller is built without worker options
  (`internal/controller/openstackloadbalancer_controller.go:611-619`).

Where comments and code disagree the model follows the code: `forceFinalizerRemoval` speaks of one
finalizer but empties the list, and `shouldForceCleanup` speaks of repeated failures and missing resources
but looks only at the deletion mark, the finalizer and the annotations.

## Model

| member | source | states |
|---|---|---|
| `Runs.RunOrphans` | internal/controller/openstackloadbalancer_controller.go:183-215 | over every run in which nobody else strips the service finalizer, however old the reads: a live port or floating IP whose service object is gone or let go was one at the start, or became one in a pass that had no credentials or had an OpenStack call fail or be refused, or in a pass that made it because its service listing showed that service as held although it was not |
| `Orphans.PassOrphans` | internal/controller/utils.go:415-476 | the same for one pass of any kind |
| `Lagging.StaleListingOrphans` | internal/controller/openstackloadbalancer_controller.go:93-131 | the last exception is needed: every pass in which all calls succeed and nobody interferes, but whose listing still shows, as eligible, with the finalizer and without a port on record, a service that is gone, makes an orphan, and no call has gone wrong |
| `Orphans.CurrentListing` | internal/controller/openstackloadbalancer_controller.go:93-98 | a current listing misleads no pass, so with current reads only trouble makes orphans |
| `Instances.OrphanMade` | internal/controller/openstackloadbalancer_controller.go:93-131 | a world with such a pass: its orphan is explained by the listing and by nothing else |
| `Convergence.Converges` | internal/controller/openstackloadbalancer_controller.go:71-165 | in a calm world, with every service address in a known subnet and a floating IP network if one is needed: after five passes or more, whatever the number of services, every eligible service is served, and a further pass succeeds and changes no service, no load balancer and nothing in the cloud |
| `Isolation.EachConverges` | internal/controller/openstackloadbalancer_controller.go:107-142 | one service does not hold up another: in a calm world every eligible service whose address has a subnet is served after four passes over a load balancer that carries the finalizer, whatever the others are like; they may fail in every pass |
| `Isolation.LoopBringsForward` | internal/controller/openstackloadbalancer_controller.go:107-142 | the loop goes on after a failure: each service that can be provisioned ends with its rank lowered, whatever happened to those before and after it |
| `Amid.ConvergesAmid` | internal/controller/openstackloadbalancer_controller.go:44-166 | the same when the passes come in any order among handler passes and passes over other load balancers, once five of the requests were for this one; asked for in addition: nothing is being deleted, and every load balancer names its credentials in full |
| `Amid.ProcessNoWorse` | internal/controller/openstackloadbalancer_controller.go:189-217 | provisioning a service for one load balancer never sets it back with respect to another |
| `Amid.AdoptGentle` | internal/controller/service_handler.go:84-120 | a handler pass over a service that is not terminating sets no service back |
| `Convergence.CalmPass` | internal/controller/openstackloadbalancer_controller.go:103-152 | a calm pass lowers every service's rank by one, loses no service, reports no error and writes a steady status |
| `Convergence.FixedPass` | internal/controller/openstackloadbalancer_controller.go:138-165 | with every rank zero and a steady status a pass is the identity on both stores and the cloud |
| `Convergence.ProcessCalm` | internal/controller/openstackloadbalancer_controller.go:189-217 | one service in a calm pass: its rank falls, at rank at most one the verdict is clean, at rank zero nothing is written |
| `Convergence.SetConditionIdempotent` | internal/controller/utils.go:325-351 | setting the same condition again, at any later time, changes nothing |
| `Helpers.SetConditionExact` | internal/controller/utils.go:325-351 | only the first condition of the kind (or a new one at the end) is concerned: it says what was asked for, keeps its time iff it said so before, and every other condition stays |
| `Convergence.ReadyTooEarly` | internal/controller/openstackloadbalancer_controller.go:150-153 | Ready=True alone does not mean served: for every calm pass with a service that had no finalizer yet, the load balancer becomes ready while that service has no port on record |
| `Readiness.LivePassSays` | internal/controller/openstackloadbalancer_controller.go:87-165 | under every script: the only readiness a pass stores, in its last write at one moment, is Ready=True and `ready` set if there was a client, an eligible service was listed and none reported an error; Ready=False with OpenStackClientError, NoMatchingService (naming the class) or ProcessingError and `ready` as it was exactly in the other cases. It reports an error if the listing or that write fails; otherwise it asks for another pass iff some service did |
| `Readiness.StoredReadiness` | internal/controller/openstackloadbalancer_controller.go:144-165 | so, with current reads: after a pass without an error the stored status is that one |
| `Readiness.LoopReports` | internal/controller/openstackloadbalancer_controller.go:103-142 | the three flags of the loop say whether any service was eligible, whether any reported an error and whether any asked for another pass, and the loop leaves `ready` alone |
| `Readiness.OneReportEach` | internal/controller/openstackloadbalancer_controller.go:107-123 | there is one report for each eligible service of the listing, so none iff none is eligible |
| `Conditions.DetectSays` | internal/controller/openstackloadbalancer_controller.go:282-299 | detection announces the ids it stores, or reports DetectionFailed and keeps the ids; no other condition changes, and once both ids are known none does |
| `Conditions.PortSays` | internal/controller/openstackloadbalancer_controller.go:333-369 | a port made and recorded is announced with its id and address, one that could not be made is reported; no other condition changes |
| `Conditions.FloatingIPSays` | internal/controller/openstackloadbalancer_controller.go:426-499 | a floating IP is announced as found or as created, whichever it was; a missing network and a failed creation are reported; no other condition changes |
| `Truthful.CleanPassServes` | internal/controller/openstackloadbalancer_controller.go:107-165 | undisturbed, whichever calls fail: a pass that had a client and ends without error and without asking for another leaves every eligible service with a live port on record and, if enabled, a live floating IP on record whose address is among the external IPs |
| `Truthful.ErrorsRequeue` | internal/controller/openstackloadbalancer_controller.go:221-499 | every error of the five provisioning steps also asks for another pass |
| `Truthful.LoopServes` | internal/controller/openstackloadbalancer_controller.go:107-136 | if the service loop never asked for another pass, every eligible service it went through is served at its end |
| `Dismantling.DeletionConverges` | internal/controller/openstackloadbalancer_controller.go:534-583 | in a calm world, two deletion passes or more take the finalizer off the load balancer, if records name live resources, selected resources are owned, and no selection reaches what another service records |
| `Isolation.DeletionTakesAll` | internal/controller/openstackloadbalancer_controller.go:534-570 | one calm deletion pass takes, for every service it cleans up for, all that is selected and carries the tag, even when something else is refused or a record cannot be honoured; it adds and alters nothing |
| `Order.FloatingIPsFirst` | internal/controller/resource_cleanup.go:64-103 | under every script a cleanup deletes floating IPs, then ports, then nothing more |
| `Dismantling.CalmCleanup` | internal/controller/resource_cleanup.go:64-128 | a calm cleanup, whatever is selected: it takes exactly what is selected and carries the ownership tag, blanks exactly the records of what it took, and asks for another pass iff the copy it was given has a record or something selected was refused |
| `Dismantling.CalmFinalize` | internal/controller/utils.go:415-476 | a calm finalization of a terminating service lets go of it, except iff it is held, records nothing and something selected for it lacks the ownership tag: then it stays as it is and another pass is asked for |
| `Deletion.TrapHolds` | internal/controller/resource_cleanup.go:80-125 | the hypothesis on records is needed: once a service that is not terminating records a resource which is gone, no number of deletion passes with a client blanks the record or takes the load balancer's finalizer off, whichever other calls succeed |
| `Deletion.CleanupDangles` | internal/controller/resource_cleanup.go:109-125 | a cleanup keeps a record whose resource is gone, and asks for another pass because of it |
| `Deletion.DeletionSound` | internal/controller/openstackloadbalancer_controller.go:534-580 | under every pattern of failures: if a deletion with a client ended cleanly, every service of the load balancer that is not terminating was listed without records, nothing that was there when the loop began is live and selected for it at the end, and with current reads what is stored has no records either |
| `Deletion.SweptStep` | internal/controller/resource_cleanup.go:72-128 | later turns of the deletion loop undo nothing that earlier ones achieved |
| `Exits.DeletionWithoutClient` | internal/controller/openstackloadbalancer_controller.go:506-518 | undisturbed, a deletion pass whose client call fails takes exactly our finalizer off the load balancer, which goes if that was the last; no service and no resource changes, and the pass reports nothing; if the write fails it reports that and nothing changes |
| `Exits.DeletionWithoutListing` | internal/controller/openstackloadbalancer_controller.go:523-528 | a deletion pass whose listing fails reports the error and stores nothing |
| `Exits.DeletionReports` | internal/controller/openstackloadbalancer_controller.go:534-587 | undisturbed, with a client and a listing: if the cleanup of some involved service is not done the pass asks for another without an error and leaves the load balancer as it is; otherwise it takes exactly our finalizer off, or reports that it could not |
| `Exits.AsksOwnCredentials` | internal/controller/utils.go:55-68 | under every script, a pass asks for a client with the credentials its load balancer names, before any others |
| `Teardown.CleanupFacts` | internal/controller/resource_cleanup.go:32-129 | a cleanup asks for another pass exactly when a cloud call went wrong or the copy it was given has a record; with no call gone wrong nothing selected is left |
| `Teardown.DeleteResourceFacts` | pkg/openstack/common.go:28-61 | a deletion reports success exactly when no call went wrong and the owner check passed, and then the resource is gone |
| `Order.DeletionExact` | pkg/openstack/common.go:17-62 | undisturbed, whichever calls fail: a resource that is there goes iff it is found, is not seen to lack the ownership tag (one whose tags cannot be read is not), and the delete call takes effect; success is reported iff it was not there, or it goes and the reply arrives |
| `Teardown.ClearedStays` | internal/controller/openstackloadbalancer_controller.go:534-570 | once nothing selected is left of the resources there were, no step of anybody brings any back |
| `Finalization.DropMeansClean` | internal/controller/utils.go:429-476 | if a finalization drops the finalizer, either no selected resource is left, or the service recorded one and an OpenStack call failed or was refused during that very call |
| `Finalization.RetentionIff` | internal/controller/service_handler.go:46-81 | after a handler pass over a terminating service that is held, however old the copy it worked from: our finalizer is still on iff the pass asks to be repeated or its removal was shown no object; it asks to be repeated iff a forced patch failed, or a client was there, no resource was on record and the cleanup did not finish; with a client and a record, success removes the object with all its finalizers |
| `Finalization.CurrentPassMissesNothing` | internal/controller/service_handler.go:46-81 | with current reads no removal is shown no object, so the finalizer is on iff the pass asks to be repeated |
| `Finalization.FinalizeReleases` | internal/controller/utils.go:374-476 | the same for the finalization alone |
| `Order.FinalizeErrs` | internal/controller/utils.go:428-476 | for a terminating service that is held: the finalization is done or asks for another pass, and reports an error iff a forced patch failed, or the floating IPs or ports could not be listed for a service without a record |
| `Order.LiveFinalization` | internal/controller/utils.go:458-475 | for a service that is not being deleted: when it is not done the finalizer stays; when the cleanup is done and the finalizer stays all the same, because the write failed, it reports that it is done iff the error text speaks of a conflict. Calm, it is done iff nothing is on record and everything selected is owned |
| `Handler.ClientSearch` | internal/controller/service_handler.go:226-281 | under every script: a service that names credentials gets a client iff that call succeeds, and no other is tried; otherwise the candidates (the listed load balancers of its class, then the first one listed) are tried in order until one gives a client, so there is none iff the listing fails, shows no load balancer, or every call fails |
| `Handler.OfClassExact` | internal/controller/service_handler.go:259-268 | the candidates of the class are the credentials of exactly the load balancers of the class |
| `Handler.CalmClient` | internal/controller/service_handler.go:226-281 | calm: there is a client iff the service names credentials in full or some load balancer is stored, and only the first candidate is asked |
| `Handler.HandlerTearsDown` | internal/controller/service_handler.go:46-81 | a calm handler pass over a terminating service that is held: if it names credentials or some load balancer is stored, what is selected and carries the tag is gone, and it is let go unless something was refused with nothing on record; otherwise the cloud is as it was and our finalizer goes |
| `Snapshots.OrdinaryRemovalKeepsOthers` | internal/controller/utils.go:454-476 | the ordinary removal leaves the object with exactly its other finalizers, and the object goes iff there are none |
| `Meanings.RemovalKeepsOrder` | internal/controller/utils.go:458-461 | removing a finalizer takes out its occurrences and keeps the others in their order |
| `Ledger.RunPorts` | internal/controller/openstackloadbalancer_controller.go:312-369 | over every run in which nobody else edits the records and the copies of services that passes work from (the copy a handler pass reads, the listed services that a pass provisions or cleans up for) show the port record of what is stored: the live ports made for a living service object number at most one plus its failed port creations and its port records that were not written |
| `Ledger.PassBooks` | internal/controller/resource_cleanup.go:91-113 | every such pass keeps the books: each live port made for a living object is on record with it or among its strays, and strays never outnumber mishaps |
| `Ledger.CurrentRunSees` | internal/controller/openstackloadbalancer_controller.go:93-98 | with current reads every pass of every run works from such copies |
| `Ledger.CurrentEditShows` | internal/controller/utils.go:99-208 | with current reads a record reported as written is on the service, so that only failed writes are mishaps |
| `Lagging.StaleRecordSecondPort` | internal/controller/openstackloadbalancer_controller.go:333-359 | the condition on the copies is needed: a pass in which all calls succeed, but whose listing shows a held service without the port it has, leaves it with two live ports and no mishap |
| `Instances.SecondPortMade` | internal/controller/openstackloadbalancer_controller.go:333-359 | a world with such a pass |
| `Ledger.MakePortBooks` | internal/controller/openstackloadbalancer_controller.go:333-369 | making and recording a port keeps the books whichever of its calls fails, including a creation whose reply is lost |
| `Accounting.WriteTame` | internal/controller/utils.go:281-321 | writing back a whole snapshot loses no live port record, because the snapshot still shows it |
| `Runs.RunKeeps` | internal/controller/openstackloadbalancer_controller.go:443-489 | over every run in which the others attach no floating IPs, no two floating IPs made by the operator are ever bound to the same port, whatever creations and annotation writes failed or were lost |
| `Runs.RunFloatingIPs` | internal/controller/openstackloadbalancer_controller.go:443-489 | over every such run, the floating IPs ever made on a port number at most one more than those of them that were deleted or unbound since |
| `Adoption.MadeWhenNoneBound` | internal/controller/openstackloadbalancer_controller.go:443-478 | under every script: a floating IP is made only if none was bound to the port at the lookup |
| `Adoption.AdoptsExisting` | internal/controller/openstackloadbalancer_controller.go:450-466 | a floating IP bound to the port is adopted: none is made, and success puts one bound to that port on record |
| `Adoption.MakesWhenNoneBound` | pkg/openstack/floatingip.go:85-111 | in a calm world exactly one is made whenever none is bound, also after an earlier one was deleted or unbound |
| `Adoption.FindsFirst` | pkg/openstack/floatingip.go:85-111 | under every script a lookup that succeeds finds the first floating IP listed that is bound to the port, and none iff none is bound |
| `RoundTrip.TeardownUndoesProvisioning` | internal/controller/utils.go:415-476 | provisioning and teardown are inverse in a calm world: after a service that nothing was selected for is provisioned, deleted and finalized, the cloud holds exactly the ports and floating IPs it held before, and the service is let go |
| `RoundTrip.FreshService` | internal/controller/openstackloadbalancer_controller.go:189-217 | what is provisioned is right: the one new port has the service's address on the network and subnet detected for it, its name, description and tags, the one new floating IP is bound to that port, both are on record, and nothing else in the cloud changes |
| `RoundTrip.CalmPortMade` | pkg/openstack/port.go:38-74 | a calm creation adds exactly the port asked for, tagged |
| `RoundTrip.CalmFloatingIPMade` | pkg/openstack/floatingip.go:38-69 | a calm creation adds exactly the floating IP asked for, bound to the port and tagged |
| `RoundTrip.DetectedContains` | internal/controller/openstackloadbalancer_controller.go:286-299 | detection stores network and subnet id of a listed subnet that contains the address |
| `RoundTrip.CredentialsLeadBack` | internal/controller/openstackloadbalancer_controller.go:259-269 | the credentials read back from the service are the load balancer's |
| `RoundTrip.PicksWhatWasAdded` | internal/controller/resource_cleanup.go:212-325 | the teardown selects exactly what provisioning added, and all of it carries the ownership tag |
| `Runs.RunSparesForeign` | pkg/openstack/common.go:28-61 | over every run in which tags can be read nothing without the ownership tag is deleted; and if nobody else acts, everything of others is exactly as it was |
| `Instances.StartedRuns` | internal/controller/openstackloadbalancer_controller.go:611-619 | every run from empty stores, under every script and all rules, goes through well-formed worlds, which is all that most theorems ask of a world |
| `Evolution.DeleteResourceEvolves` | pkg/openstack/common.go:17-62 | under every script a deletion stays within its scope and spares foreign resources when tags can be read |
| `Refinement.EditAnnotationsAtomic` | internal/controller/utils.go:86-209 | with stale reads and any interleaved writers, a success changed only the given annotations of the object stored at one moment, or (with current reads) there was no object; a failure changed nothing |
| `Refinement.AddExternalIPAtomic` | internal/controller/utils.go:479-539 | the same for the external IPs: one address appended at one moment, or it was there, or there was no object |
| `Refinement.WriteStatusAtomic` | internal/controller/utils.go:212-267 | the same for the status of a load balancer |
| `Refinement.WriteServiceAtomic` | internal/controller/utils.go:270-322 | the whole-object helper writes the caller's copy over the object stored at one moment, which has the copy's unique id; or it wrote nothing because a read showed no object; a failure changed nothing |
| `Refinement.WriteLBAtomic` | internal/controller/utils.go:270-322 | the same for a load balancer |
| `Attempts.FiveAttempts` | internal/controller/utils.go:44-208 | the three service helpers succeed iff one of five attempts does after attempts that failed to read or ran into a conflict |
| `Attempts.FiveLBAttempts` | internal/controller/utils.go:212-322 | the same for the two load balancer helpers |
| `Attempts.FailureReasons` | internal/controller/utils.go:99-146 | when none of n attempts succeeds, the server refused an update, or each of them failed to read or ran into a conflict |
| `Attempts.FailureReasonsLB` | internal/controller/utils.go:219-321 | the same for load balancers |
| `Attempts.PeaceIsEnough` | internal/controller/utils.go:491-538 | if one of the first five attempts is left in peace and none before it was refused, the helper succeeds |
| `Attempts.PeaceIsEnoughLB` | internal/controller/utils.go:219-321 | the same for load balancers |
| `Attempts.FourConflicts` | internal/controller/utils.go:45-52 | a script in which the others write the service in four attempts running: the helper succeeds, and with four attempts it would not |
| `Snapshots.WriteIsFinalizerEditIff` | internal/controller/utils.go:281-321 | a write that was not shown a missing object is a finalizer-only edit of what is stored iff annotations and spec are still those of the snapshot and the finalizer lists come to the same (or the object goes away either way); one that was shown a missing object writes nothing |
| `Snapshots.StaleWriteLoses` | internal/controller/utils.go:298-301 | otherwise every annotation written since the snapshot was taken is back to what the snapshot shows |
| `Overlap.SelectionExact` | internal/controller/resource_cleanup.go:281-322 | in every reachable world, of the resources the operator made a cleanup selects those made for the service and those it confuses with them, and no others |
| `Overlap.PortSelectedIff` | internal/controller/resource_cleanup.go:281-322 | a port made for T is selected for S iff its id is S's record, the port names coincide, or T's description mentions S's name |
| `Overlap.FloatingIPSelectedIff` | internal/controller/resource_cleanup.go:224-264 | a floating IP made for T is selected for S iff its id is S's record, it is bound to S's port, or T's description mentions S's name |
| `Overlap.PortSelectedByNameIff` | internal/controller/openstackloadbalancer_controller.go:333-336 | for a name without space or slash the last case means: S's name is part of T's name, of T's namespace, or of the fixed text |
| `Overlap.FloatingIPSelectedByNameIff` | internal/controller/openstackloadbalancer_controller.go:468-470 | the same for floating IPs |
| `Overlap.SampleOverlap` | config/samples/service.yaml:5-21 | a cleanup for the sample service nginx takes the port of nginx2, in any namespaces |
| `Overlap.PortNamesApart` | internal/controller/openstackloadbalancer_controller.go:334-334 | port names tell services apart if no namespace has a dash |
| `Overlap.PortNamesClash` | internal/controller/resource_cleanup.go:291-295 | and otherwise two services share one wherever a dash can move |
| `Orphans.OwnTextSelects` | internal/controller/resource_cleanup.go:298-312 | the descriptions the operator writes select the resource for the service it was made for |
| `Selection.IdentifyPortsToDelete` | internal/controller/resource_cleanup.go:270-325 | the loop returns the selected ports of the listing, in its order |
| `Selection.IdentifyFloatingIPsToDelete` | internal/controller/resource_cleanup.go:212-267 | the loop returns the selected floating IPs of the listing, in its order |
| `Selection.PortsForExact` | internal/controller/resource_cleanup.go:281-322 | a port is returned iff it is listed and one of the four cases holds |
| `Selection.FloatingIPsForExact` | internal/controller/resource_cleanup.go:224-264 | a floating IP is returned iff it is listed and one of the four cases holds |
| `Meanings.SelectionMeans` | internal/controller/resource_cleanup.go:224-322 | the cases, whoever made the resource: its id is on record, it has the port name or is bound to the recorded port, its description reads "... namespace/name ...", or it mentions both the operator and the name |
| `Ownership.TagsIdentify` | pkg/openstack/common.go:65-93 | tags built for any namespace, name and optional cluster, in any order, are recognised as owned, and as being for a service iff it is the one they were built for |
| `Ownership.TagListRenders` | pkg/openstack/port.go:24-35 | what is put on a new resource renders the tag table |
| `Tags.ConvertMapToTags` | pkg/openstack/common.go:96-104 | in whatever order the entries are visited, the tags are those entries, one for each, in that order |
| `Tags.IsResourceOwnedByOperator` | pkg/openstack/common.go:65-73 | true iff the ownership tag is among the tags |
| `Tags.IsResourceForService` | pkg/openstack/common.go:76-93 | true iff both the namespace tag and the name tag are |
| `Ownership.GetManagedResources` | pkg/openstack/common.go:107-152 | the loop returns the managed resources of the listing, or nothing if the listing failed |
| `Ownership.ManagedExact` | pkg/openstack/common.go:132-147 | they are exactly the subsequence of the listing whose tags could be read and match |
| `Ownership.ManagedPortSelected` | internal/controller/resource_cleanup.go:298-312 | a port of the operator's making is managed for S iff it was made for S, and then a cleanup for S selects it |
| `Ownership.ManagedFloatingIPSelected` | internal/controller/resource_cleanup.go:242-255 | the same for floating IPs |
| `Requests.DecodeIff` | internal/controller/service_handler.go:25-31 | splitting at the marker gives the encoded name back iff the name does not contain the marker |
| `Triggers.TriggersComplete` | internal/controller/openstackloadbalancer_controller.go:595-609 | every service that a load balancer would provision or the handler has something to do for passes the watch predicate and maps to the request needed; the handler's request leads back to the service iff its name does not contain the marker, and the load balancer's request is taken for its own iff its name does not start with it |
| `Triggers.RequestsExact` | internal/controller/service_handler.go:142-180 | a request is issued iff it is for a load balancer of the service's class, or for the handler of a managed service |
| `Triggers.FindLoadBalancersForService` | internal/controller/service_handler.go:127-181 | the loop returns those requests, in order |
| `Triggers.IdleHandler` | internal/controller/service_handler.go:84-120 | where the handler has nothing to do, its pass changes nothing, so the condition used above is exact |
| `Handler.HandlerAdopts` | internal/controller/service_handler.go:84-123 | undisturbed, whichever calls fail after the opening read: a handler pass over a service that is not terminating changes at most that service; where it has something to do and reports that it is done, our finalizer is added to the others, the credentials are those of the first load balancer listed of its class if there is one (otherwise the annotations stay), and nothing else is changed; where it has nothing to do it is done iff the load balancers were not needed or could be listed; calm, it is always done |
| `Handler.NothingHeld` | internal/controller/service_handler.go:46-81 | a handler pass over a terminating service without our finalizer stores nothing, and fails iff it finds no client |
| `Meanings.RequestsMean` | internal/controller/service_handler.go:142-180 | in terms of the fields: an event leads to a request for each listed load balancer whose class is the one in the spec or in the annotation, and to one for the handler iff the service carries the finalizer, has a nonempty record, or names such a class |
| `Meanings.TestsMean` | internal/controller/openstackloadbalancer_controller.go:107-123 | eligible, involved in a deletion, watched and handled, each in terms of type, deletion mark, addresses, finalizer, classes named and records |
| `Meanings.ClassMeans` | internal/controller/utils.go:71-83 | a service is of the classes it names, in its spec and in its annotation |
| `Meanings.RecordsMean` | internal/controller/openstackloadbalancer_controller.go:538-540 | a service has resources iff one of the two annotations is there and not empty |
| `Meanings.UnrelatedService` | internal/controller/service_handler.go:144-181 | a service that names no class, records nothing and lacks the finalizer leads to no request, even if a class is the empty text |
| `Meanings.SampleNames` | internal/controller/service_handler.go:172-176 | the port name and the handler request of a service, spelled out |
| `Meanings.PortDescriptionMeans` | internal/controller/openstackloadbalancer_controller.go:334-335 | the description of a port, spelled out |
| `Meanings.FloatingIPDescriptionMeans` | internal/controller/openstackloadbalancer_controller.go:468-470 | the description of a floating IP, spelled out |
| `Meanings.SampleTags` | pkg/openstack/constants.go:5-21 | the tags of a port, spelled out |
| `Exits.OpeningRead` | internal/controller/openstackloadbalancer_controller.go:53-63 | a pass whose opening read fails reports the error and does nothing, one whose object is not there does nothing and reports nothing, and a request that cannot be decoded makes no call |
| `Exits.FinalizerFirst` | internal/controller/openstackloadbalancer_controller.go:70-79 | undisturbed, the first pass over a load balancer adds our finalizer and does nothing else; it reports an error iff the write failed, and then nothing changed |
| `Exits.SilentRequeue` | internal/controller/openstackloadbalancer_controller.go:189-217 | undisturbed, provisioning asks for another pass without an error only after it improved the stored service: the finalizer went on, or a record of a port or floating IP that is gone was blanked |
| `Network.NestedOrDisjoint` | pkg/openstack/network.go:35-46 | two CIDR blocks are nested or disjoint (section 3.1 of RFC 4632) |
| `Network.ContainsIff` | pkg/openstack/network.go:35-46 | a block contains an address iff they have the same width and the same quotient by two to the number of free bits |
| `Network.ContainsRange` | pkg/openstack/network.go:35-46 | written with its first address, a block is the range of that length that starts there |
| `Network.SampleBlock` | pkg/openstack/network.go:42-45 | 10.0.0.0/24 contains 10.0.0.5 and not 10.0.1.5 |
| `Network.UniqueContainer` | pkg/openstack/network.go:35-48 | among subnets none of which lies within another, a subnet contains the address iff it is the first match |
| `Network.OrderIrrelevant` | pkg/openstack/network.go:35-48 | so the answer does not depend on the order of the listing |
| `Network.OrderMatters` | pkg/openstack/network.go:42-45 | with nested subnets it does |
| `Network.DetectSubnet` | pkg/openstack/network.go:35-48 | the loop returns the first subnet whose block parses and contains the address, in the sense of `Network.ContainsIff` |
| `Status.RunSettled` | internal/controller/openstackloadbalancer_controller.go:282-299 | over every run in which nobody else edits the status, however old the reads: a load balancer object with both network ids has the same ones at the end, unless some pass over it began with a read that showed other ids |
| `Status.PassSettled` | internal/controller/utils.go:238-241 | the same for one pass |
| `Lagging.StaleReadReplacesIds` | internal/controller/openstackloadbalancer_controller.go:282-299 | the exception is needed: every pass in which all calls succeed, but whose opening read shows the load balancer without ids, replaces the stored ids by those of the subnet its services are in now |
| `Status.CurrentRead` | internal/controller/openstackloadbalancer_controller.go:53-61 | a current read shows the ids that are stored, so with current reads no run changes them |
| `Instances.IdsReplaced` | internal/controller/openstackloadbalancer_controller.go:282-299 | a world with such a pass, and the ids before and after |
| `Client.CreatePortForService` | pkg/openstack/port.go:16-75 | creates, then tags as best it can; leaves exactly the world and reply of `Calls.CreatePort`, which the run theorems on orphans and ports are about |
| `Client.CreateFloatingIPForService` | pkg/openstack/floatingip.go:16-70 | the same against `Calls.CreateFloatingIP`, including a creation whose reply is lost |
| `Client.OwnershipTags` | pkg/openstack/port.go:24-35 | the table's entries, in whatever order they are written out, mark the resource as the operator's and as being for this service and no other |
| `Client.TagSlice` | pkg/openstack/port.go:60-64 | the tags set on a new resource are the rendered entries of that table |
| `Client.DeleteOwnedResource` | pkg/openstack/common.go:17-62 | refines `Calls.DeleteResource`: exists, owned as far as tags can be read, delete; a refusal counts as a failure |
| `Helpers.UpdateServiceAnnotations` | internal/controller/utils.go:99-208 | the retry loop refines `Retry.EditAnnotations`: one atomic edit (`Refinement.EditAnnotationsAtomic`) in at most five attempts (`Attempts.FiveAttempts`) |
| `Helpers.UpdateServiceExternalIPs` | internal/controller/utils.go:491-538 | the retry loop with its search for the address refines `Retry.AddExternalIP`: one atomic edit (`Refinement.AddExternalIPAtomic`) in at most five attempts (`Attempts.FiveAttempts`) |
| `Helpers.UpdateServiceWithRetry` | internal/controller/utils.go:281-321 | the retry loop that writes the caller's copy refines `Retry.WriteService`, see `Snapshots.WriteIsFinalizerEditIff` and `Attempts.FiveAttempts` |
| `Helpers.UpdateLBWithRetry` | internal/controller/utils.go:281-321 | the same for a load balancer, against `Retry.WriteLB`, see `Attempts.FiveLBAttempts` |
| `Helpers.UpdateStatusWithRetry` | internal/controller/utils.go:219-266 | the retry loop for the status refines `Retry.WriteStatus`: one atomic write (`Refinement.WriteStatusAtomic`) in at most five attempts (`Attempts.FiveLBAttempts`) |
| `Helpers.SetConditionOn` | internal/controller/utils.go:325-351 | on the draft: the first condition of the kind is replaced in place iff it differs, one is appended iff there is none, and nothing else of the load balancer changes |
| `CleanupHandler.DeleteSelected` | internal/controller/resource_cleanup.go:64-103 | floating IPs before ports; a failure anywhere is reported, and the records to blank are those whose resource was deleted |
| `CleanupHandler.CleanupResourcesForService` | internal/controller/resource_cleanup.go:32-129 | refines `Operator.Cleanup`, judged at the end by the caller's stale copy; what it achieves is `Teardown.CleanupFacts` |
| `CleanupHandler.ForceFinalizerRemoval` | internal/controller/utils.go:374-401 | refines `Operator.ForceRemoval`: patches terminating services only |
| `CleanupHandler.HandleServiceFinalizationWithForce` | internal/controller/utils.go:415-476 | refines `Operator.Finalize` for every service, terminating or not; the subject of `Finalization.DropMeansClean` and `Finalization.FinalizeReleases` |
| `ServiceHandler.GetOpenStackClientFromService` | internal/controller/service_handler.go:226-281 | credentials of the service, or of the load balancers of its class in turn, or of the first one; refines `Operator.ClientOfService`, the subject of `Handler.ClientSearch` and `Handler.CalmClient` |
| `ServiceHandler.ReconcileTerminatingService` | internal/controller/service_handler.go:46-81 | refines `Operator.FinalizeService`: finalization with a client, removal of the finalizer without one; the subject of `Handler.HandlerTearsDown` |
| `ServiceHandler.ReconcileLiveService` | internal/controller/service_handler.go:84-123 | refines `Operator.AdoptService`: finalizer and credentials iff the service is of a known class or has records, and lacks the finalizer; the subject of `Handler.HandlerAdopts` |
| `ServiceHandler.ReconcileServiceRequest` | internal/controller/service_handler.go:21-124 | the handler pass refines `Operator.ReconcileService`, the subject of `Finalization.RetentionIff` and `Triggers.IdleHandler` |
| `Controller.EnsureServiceHasFinalizer` | internal/controller/openstackloadbalancer_controller.go:221-243 | step 1 refines `Operator.EnsureFinalizer`: a write always ends the series and asks for another pass |
| `Controller.EnsureServiceHasCredentials` | internal/controller/openstackloadbalancer_controller.go:246-270 | step 2 refines `Operator.EnsureCredentials`: both annotations are written unless both are there |
| `Controller.DetectNetworkForLB` | internal/controller/openstackloadbalancer_controller.go:273-300 | step 3 refines `Operator.DetectNetwork` on the draft's status: nothing is asked once both ids are known |
| `Controller.EnsurePortExists` | internal/controller/openstackloadbalancer_controller.go:303-369 | step 4 refines `Operator.EnsurePort`: check the recorded port, or make and record one; the subject of `Ledger.RunPorts` |
| `Controller.CreateOrFindFloatingIP` | internal/controller/openstackloadbalancer_controller.go:426-499 | refines `Operator.CreateOrFind`: adopt a bound floating IP or make one, and record it; the subject of the `Adoption` lemmas |
| `Controller.HandleServiceFloatingIP` | internal/controller/openstackloadbalancer_controller.go:372-423 | step 5 refines `Operator.HandleFloatingIP`: the floating IP and the external address |
| `Controller.ProcessOneService` | internal/controller/openstackloadbalancer_controller.go:169-218 | the five steps refine `Operator.ProcessService`, the subject of `Convergence.ProcessCalm` and `Truthful.ErrorsRequeue` |
| `Controller.ProcessServices` | internal/controller/openstackloadbalancer_controller.go:103-136 | the service loop and its three flags refine `Operator.ProvisionAll`, the subject of `Truthful.LoopServes`, `Readiness.LoopReports` and `Isolation.LoopBringsForward` |
| `Controller.ReconcileLiveLB` | internal/controller/openstackloadbalancer_controller.go:87-165 | client, listing, loop, verdict and status refine `Operator.ReconcileLive`, the subject of `Readiness.LivePassSays` |
| `Controller.CleanServices` | internal/controller/openstackloadbalancer_controller.go:534-570 | the deletion loop refines `Operator.CleanAll`: it asks for another pass iff some turn failed or asked for one |
| `Controller.HandleLBDeletion` | internal/controller/openstackloadbalancer_controller.go:502-587 | refines `Operator.HandleDeletion`; the subject of `Deletion.DeletionSound` and `Isolation.DeletionTakesAll`, and of `Exits.DeletionWithoutClient` when there is no client |
| `Controller.ReconcileRequest` | internal/controller/openstackloadbalancer_controller.go:44-166 | one pass refines `Operator.Reconcile`; whatever happens during it, surroundings stay well formed, new orphans mean trouble or a false listing, no port gets a second bound floating IP of ours if the others attach none, and nothing without the tag is deleted if tags can be read |
| `Controller.Work` | internal/controller/openstackloadbalancer_controller.go:611-619 | the requests one after the other refine `Operator.Run`; its postconditions are the run theorems on orphans, floating IPs per port, foreign resources and ports per service |

## Left out

- Runs.RunOrphans: assumes that nobody else strips the service finalizer; the exception for a false listing is needed, as `Lagging.StaleListingOrphans` shows.
- Runs.RunKeeps: "at most one floating IP per port is ever made" is false of the code: when the one made is deleted or unbound from outside, the next pass makes another (`Adoption.MakesWhenNoneBound`); what holds is `Runs.RunFloatingIPs`, that one is made only when none is bound, and that no two are ever bound at a time.
- Ledger.RunPorts: assumes that nobody else edits the port record, and starts where nothing has been made yet (`Ledger.RunBooks` starts from any world whose books are in order); the condition on the copies is needed, as `Lagging.StaleRecordSecondPort` shows.
- Status.RunSettled: the exception for an opening read that shows other ids is needed, as `Lagging.StaleReadReplacesIds` shows.
- Finalization.RetentionIff: assumes that nobody else strips the finalizer, because otherwise what is on the stored object is not this pass's doing.
- Convergence.Converges: calm worlds only; `Amid.ConvergesAmid` leaves out requests for objects that are being deleted, because those take resources away.
- Deletion.DeletionSound: speaks of the resources there were when the loop began; others may add resources with matching descriptions while it runs. When the others attach floating IPs, one of theirs may have come to the service's port in the meantime.
- Helpers.UpdateServiceAnnotations: one method for the single and the multiple annotation update, which differ only in how many keys they set.
- `CleanupResourcesForServiceWithForce` and `HandleServiceFinalization`: no caller.
- Start-up, flags, TLS, metrics, authentication and HTTP transport: a client is obtained or it is not.
- Parsing of addresses and CIDR texts: a table says which texts parse and to what.
- Message texts, events, logging, wall-clock backoff: a condition keeps what its message is made from (for an error, a text that the script supplies), and the time it was set.
- The address of a new floating IP is never empty; one that is found may have none.
- The order of tags on a new resource is one fixed rendering of the tag table; nothing depends on it, since the tag checks only ask for membership.
- A Kubernetes write whose reply is lost although it took effect is not modelled; a failed write had no effect.
- Watch delivery, caching and queueing beyond stale reads: requests arrive in any order, any number of times.
- Names of finalizers, annotations and condition types are constructors, not strings.
- Generated deep-copy code, CRDs, Helm, RBAC, mocks and end-to-end tests.
