# The cluster relocation operator: a verified model

The cluster relocation operator moves an OpenShift cluster to a new domain. One custom resource, the ClusterRelocation
named `cluster`, says what is wanted; passes of one controller bring it about by creating, changing and deleting objects
of the API server; a finalizer puts things back when the resource is deleted. A pass can stop at any call. Users edit the
resource, delete their secrets, upgrade the cluster; the garbage collector works in between.

This project models the controller and its sub-reconcilers call by call, over one mutable cluster, and proves what every
run keeps: that the original pull secret is never lost, that the finalizer stays while there is something to undo, that
nothing the configuration names is ever missing, that a stored `Reconciled=True` is true. It also proves what a pass
achieves: convergence in an exact number of passes, idempotence, independence of history, retention after self-destruction.

## How it is built

* `Types`, `Store`, `Goals`, `SemVer`: objects and custom resources as values, the cluster as one value, what a spec asks
  for (`Configured`), version precedence as in section 11 of Semantic Versioning 2.0.0.
* `Protocol`: the steps of a run. `EnvAction` is everything users, upgrades and the garbage collector may do; `Write` is
  everything the operator may write; `Licence` says when it may. `Inv` is the invariant, `Run` a run, `Steady` the frame:
  what may differ after steps of others and writes to a set of keys.
  The state carries some history: the original pull secret; what the running pass may know, namely what the users'
  secrets have held since it began (`held`) and whether it has read an Available Klusterlet (`seenAvailable`, set by the
  step `Observe`); whether users have kept certificates in place (`inPlaceSafe`); and whether the last relocation ended in
  a self-destruction (`retained`: set when one gives up the finalizer of the CR "cluster", reset when such a CR next gets
  the finalizer or gives it up otherwise).
* `Preservation`: every step of others and every licensed write keeps `Inv`; a licence survives every step of others.
* `ClusterApi`: the class `Cluster`. Each of its calls first lets others step, then has one of three fates: it succeeds,
  it fails before its effect, or it fails after its effect. The run is recorded, and every write needs its licence, so
  that a body that writes in a wrong order, or to a wrong object, does not verify. The oracle `turns` decides interference,
  fates, delays, generated pairs and the answers of the ACM hub; nothing is assumed about it. `Calm` means that from now on
  nobody interferes, `Faultless` that also no call fails. A question to the outside world (does the name resolve, does the
  domain answer, is the operator settled) is recorded with its answer, so that `Answered` can say that it was asked and
  answered well in a call.
* `Dns`, `Ssh`, `Registry`, `Mirror`, `Secrets`, `PullSecrets`, `Catalogs`, `Ingresses`, `ApiServers`, `Routes`,
  `Manifests`, `Acm`: the sub-reconcilers, in the loops and early returns of the source. Each promises four things: it
  touches only its own objects, whoever interferes; nil means that its goal holds; in a calm pass nil means that it has
  settled, and from a settled state nothing changes; in a faultless pass it succeeds if and only if its inputs are there.
* `Parts`, `Controller`, `Reconciliation`: one pass, from the request to the stored status. `Convergence`: passes in a row.
* `Runs`, `Certificates`, `Retention`, `Views`, `Limits`: the theorems over whole runs, for all of them. `Words`: what the
  goals come to in the literal names that the platform reads, without the functions that the controller computes them with.
* `Example`: concrete clusters, run through the controller: one that is relocated, and two in which something is lost.

## Assumptions

* Reads return the current store. Passes are serialised.
* References in a spec name no secret of the operator, not the pull secret, and the ACM credential is a secret of its own.
* Users do not write the fields that the operator manages, and do not change the type of a secret. They may delete their
  own secrets at any time, and may name in place a secret that awaits garbage collection; only `Runs.NothingDangles` has a
  clause that depends on that.
* Deletion uses background propagation. A resource with the self-destruct annotation is deleted only by the operator's own
  orphaning deletion, and the annotation does not change once deletion is requested.
* The reset fields are at their defaults at first; the finalizer puts them back to their defaults. Owners other than
  ClusterRelocations stay. The version never falls. The base domain of the cluster does not change.

Conditions carry status, reason and observed generation, not messages or times. The resource version is the value of the
custom resource: an update is refused when the stored one differs from the copy. A conflict on another object is a call
that fails before its effect.

## Model

| member | source | states |
|---|---|---|
| `Runs.Always` | controllers/clusterrelocation_controller.go:89-264 | every state of every run, crashes and interference included, satisfies the invariant |
| `Runs.PullSecretIsSafe` | internal/pullSecret/reconcile.go:34-104 | in every state of a run the backup holds the pull secret from before the first relocation, or there is no backup and the live pull secret holds it |
| `Runs.FinalizerDiscipline` | controllers/clusterrelocation_controller.go:106-133 | while a reset field is set or a backup exists, the CR "cluster" is stored with the finalizer, unless the last relocation ended in a self-destruction and no CR "cluster" has got the finalizer since |
| `Runs.CleanAfterDeletion` | controllers/clusterrelocation_controller.go:329-357 | once the CR "cluster" is gone and the last relocation did not end in a self-destruction, all reset fields are at their defaults, there is no backup and the pull secret is the original one, whatever self-destructions came before |
| `Runs.RetainedIsKnown` | controllers/clusterrelocation_controller.go:106-133 | the history flag of the invariant says exactly that: a self-destruction gave up the finalizer, and nothing has moved it since |
| `Runs.NothingDangles` | internal/ingress/reconcile.go:75-183 | in every state, every secret or ConfigMap named by the API server, the ingress controller, a component route or the image configuration exists in the namespace of its consumer and cannot be collected; an API certificate named in place, which the operator does not own, does so if users kept it in place: no spec named it while it awaited garbage collection, and nobody deleted it in use (`Limits.InPlaceDangles` is the converse) |
| `Runs.MirrorKindsApart` | internal/mirror/reconcile.go:28-36 | once an ImageDigestMirrorSet exists, no later state has an ImageContentSourcePolicy, so the two never coexist |
| `Runs.VersionsNeverFall` | internal/mirror/reconcile.go:28-45 | versions rise along a run in the precedence order, so the choice of the mirror kind flips at most once |
| `Runs.ChangesNeedTheGate` | controllers/clusterrelocation_controller.go:161-166 | an object is written only in a pass on the CR "cluster" whose generation has been observed, or in a finalisation |
| `Runs.StatusIsTruthful` | controllers/clusterrelocation_controller.go:246-253 | a Reconciled=True that is new in the store observes the generation of that CR, and at that moment the cluster is configured as its spec asks, the live pull secret and the copied certificates hold what the users' secrets have held since the pass began, and a registration asked for was seen Available in that pass |
| `Words.StatusInWords` | internal/ingress/reconcile.go:133-187 | the same in the names that the platform reads: the API server serves a certificate for "api." and the domain, the ingress one for "*.apps." and the domain from both namespaces, the three component routes have their hosts under "apps." and the domain, the registry is trusted under its host and port, the SSH keys are on both roles |
| `Words.ApiInWords` | internal/api/reconcile.go:105-117 | a configured API server names one certificate, for "api." and the domain: a generated one together with its own key, a copy, or the user's in place |
| `Words.AppsInWords` | internal/ingress/reconcile.go:133-187 | a configured ingress: default certificate, apps domain and the three component routes written out, and the generated pair with its own key in both namespaces |
| `Words.RegistryInWords` | internal/registryCert/reconcile.go:27-44 | the ConfigMap has one entry: the host, or the host, two dots and the port |
| `Words.PortIsDecimal` | internal/registryCert/reconcile.go:29-31 | the port is written in decimal digits that stand for it, without leading zeros |
| `Words.FirstOwner` | internal/catalog/reconcile.go:74-77 | over the owner-reference list as it is stored: its first entry decides whether a source is pruned, and another controller is any entry that says so |
| `Words.OwnerAdded` | internal/secrets/secrets.go:111-125 | over the list as it is stored: taking ownership replaces the relocation's entry in its place, or appends one |
| `Runs.HeldSinceBegin` | internal/secrets/secrets.go:107-109 | what a pass takes a user's secret to have held, the secret did hold in some state since that pass began |
| `Runs.ObservedNeverDecreases` | controllers/clusterrelocation_controller.go:266-275 | over the life of a CR the observed generations of both conditions never decrease and never exceed the generation |
| `Runs.CredentialIsSafe` | internal/acm/reconcile.go:71-92 | the operator deletes a user's secret only in a pass that has read before, in that same pass, that the Klusterlet is Available, and while nothing names that secret |
| `Certificates.PairChanges` | internal/api/reconcile.go:36-57 | a step changes a stored generated pair only in a pass for a domain that the pair does not fit, and the new pair fits |
| `Certificates.RenewalsAreBounded` | internal/ingress/reconcile.go:42-63 | a pair that is never deleted changes at most once more often than the domain of the passes on the CR "cluster" past the gate does |
| `Certificates.SamePairInBothNamespaces` | internal/ingress/reconcile.go:75-183 | over runs: when a new Reconciled=True is stored over a generated ingress certificate, ingress controller and component routes name it, both namespaces hold the same pair, and it is for the domain of that CR |
| `Retention.DepartureBegins` | controllers/clusterrelocation_controller.go:257-262 | the orphaning deletion begins a self-destruction if and only if the stored CR still has the annotation that the pass has read |
| `Retention.OnlyTrueDestroys` | controllers/clusterrelocation_controller.go:446-455 | an orphaning deletion is issued, and a finalizer given up over a cluster that is not restored, only by a pass on a CR whose annotation is literally "true" |
| `Retention.SelfDestructRetains` | controllers/clusterrelocation_controller.go:312-328 | from then on nothing that the operator wrote is changed, collected or added, until a CR "cluster" is created anew or a CR of another name is finalised |
| `Retention.NoCleanupRuns` | controllers/clusterrelocation_controller.go:312-357 | from then on every write to an object comes from the finalisation of a CR of another name, until a CR "cluster" is created anew |
| `Retention.ConfigurationSurvives` | controllers/clusterrelocation_controller.go:257-262 | what the cluster is configured as when the self-destruction begins it stays: ingress, API, registry, SSH keys, mirrors, pull secret, DNS |
| `Retention.SourceStays` | controllers/clusterrelocation_controller.go:257-262 | a catalog source is neither collected nor changed by the departure, for as long as users leave it alone |
| `Retention.ConfigurationOutlivesTheCr` | controllers/clusterrelocation_controller.go:246-262 | end to end: the orphaning deletion is issued only by a pass that has reached what its spec asks for, registration included; from then on, also after the CR is gone, the cluster stays configured by that spec, with the copies that the pass made and with every listed catalog source that users leave alone |
| `Views.SettledView` | controllers/clusterrelocation_controller.go:188-228 | where everything is settled, the cluster looks as an independently defined function of spec, users' secrets, version and original pull secret says |
| `Views.PassView` | controllers/clusterrelocation_controller.go:188-255 | what a successful pass leaves is that function of the inputs it found when it began, and no catalog source of an earlier spec is left |
| `Views.LookAfterPass` | controllers/clusterrelocation_controller.go:188-255 | running a pass: from any history, over any failed calls, if the pass succeeds and nobody interferes the cluster looks as that function says |
| `Views.HistoryDoesNotMatter` | controllers/clusterrelocation_controller.go:188-244 | two clusters with any histories: if a pass on the same inputs succeeds in both, they look the same, but for the key material of generated pairs |
| `Convergence.Converge` | controllers/clusterrelocation_controller.go:161-253 | with no failing calls a CR on a new generation is Reconciled after exactly k + 2 passes, k being the routes with two or more stale entries; no other CR has changed, and nothing outside of the footprint but the ownership of secrets that the spec says to copy |
| `Example.RelocateFreshCluster` | controllers/clusterrelocation_controller.go:161-253 | a concrete cluster with one such route takes three passes, so the conditions of the convergence theorem can be met |
| `Example.LoseConfiguration` | controllers/clusterrelocation_controller.go:106-133 | a concrete run of the controller: the cluster is relocated, a CR of another name gets the finalizer and is deleted, and the configuration is gone while the CR "cluster" still says Reconciled=True |
| `Example.AbandonCertificate` | internal/secrets/secrets.go:111-125 | a concrete run: a CR has its ingress certificate copied and is deleted; the user's secret then belongs to that CR alone |
| `Example.LoseCertificate` | internal/api/reconcile.go:82-114 | the run goes on: another CR names that secret in place, the pass succeeds, the garbage collector takes it, and the API server names a secret that is not there |
| `Convergence.Retire` | controllers/clusterrelocation_controller.go:106-124 | with no failing calls a deleted CR loses its finalizer after exactly k + 1 passes, with everything restored; other CRs are as they were, and beyond the operator's own objects and routes nothing but the ownership of secrets that the CR says to copy |
| `Convergence.Nearer` | internal/ingress/reconcile.go:241-250 | a pass that a repeated route delete aborts leaves exactly one such route less, and stays feasible |
| `Convergence.SecondPass` | controllers/clusterrelocation_controller.go:188-255 | after a pass that succeeded without interference, even over failed calls, another one succeeds and changes nothing but the status |
| `Convergence.PassIsIdempotent` | controllers/clusterrelocation_controller.go:188-255 | two successful passes in a row leave the whole store as one does |
| `Convergence.PassTwice` | controllers/clusterrelocation_controller.go:188-255 | running two passes: if the first succeeds so does the second and the store stays as it is; with distinct catalog names every create-or-update of the second finds nothing to write |
| `Reconciliation.Reconciler.Reconcile` | controllers/clusterrelocation_controller.go:89-264 | what one request does to the store: nothing for a missing CR, only finalizer and status for one of another name, the gate on a new generation, a full pass, or a finalisation; whoever interferes, nil means that the CR was not there, that its finalizer was gone, or that it was stored with the finalizer and, for "cluster", that the domain was verified and a pass had reached all that the spec asks; the status that a faultless pass stores, with its values written out |
| `Reconciliation.Reconciler.EnsureFinalizer` | controllers/clusterrelocation_controller.go:126-133 | nil means that the stored CR and the copy of the pass carry the finalizer; however the call ends, adding it is all that the operator may have done |
| `Reconciliation.Reconciler.Keep` | controllers/clusterrelocation_controller.go:126-264 | a CR that stays: a new generation only opens the gate, an admitted one gets a full pass; nil means that the gate was open and the spec was reached |
| `Reconciliation.Reconciler.Pass` | controllers/clusterrelocation_controller.go:135-264 | whoever interferes, nil for "cluster" means that the gate was open, that names and domain answered and that the spec was reached in this pass, and without the gate nothing is written; without interference only the pass's own objects and the status change; with no failing call the exact store, status and result |
| `Reconciliation.Reconciler.Work` | controllers/clusterrelocation_controller.go:137-255 | validation, version and gate; nothing is written for another name or while the observed generation lags; without an error the mirror sets are being watched; nil behind the gate means that the spec was reached; the result and the condition of a faultless pass |
| `Reconciliation.Reconciler.WatchIdms` | controllers/clusterrelocation_controller.go:151-159 | mirror sets are watched above 4.12.999, in numbers, and nothing is asked below; whether to watch is decided once: after that no call is made |
| `Reconciliation.Reconciler.Finish` | controllers/clusterrelocation_controller.go:303-307 | without interference only the status changes; with no failing call it is stored when the copy is current |
| `Reconciliation.Reconciler.Finalize` | controllers/clusterrelocation_controller.go:106-124 | whoever interferes and whatever fails, nil means that the finalizer of that CR is gone; with no failing call it goes if and only if no route aborts the finalisation or the CR self-destructs; otherwise one such route has gone; beyond the operator's own objects and routes only ownership changes |
| `Controller.FinalizeRelocation` | controllers/clusterrelocation_controller.go:309-361 | a self-destruction writes nothing; otherwise nil means that nothing is left to undo, that the base domain answered, and, without interference, that no route is left under another domain |
| `Controller.Restore` | controllers/clusterrelocation_controller.go:330-344 | pull secret, registry, ingress and API server are put back, whatever interferes |
| `Controller.RestoreRoutes` | controllers/clusterrelocation_controller.go:346-356 | routes are reset to the base domain once it answers; which finalisations that aborts |
| `Controller.Apply` | controllers/clusterrelocation_controller.go:168-244 | nil means configured, with the copies made in this pass, names and domain having answered in it, and a registration asked for seen in it; a reason says which sub-reconcilers are done and which are untouched; nil from a settled state changes nothing; the exact verdict of a faultless pass, which sends the hub one request if the registration has to start |
| `Controller.Configure` | controllers/clusterrelocation_controller.go:168-228 | the sub-reconcilers in order: nil means that all are done and that both names of the domain resolved, a failure locates where the pass stopped |
| `Controller.Complete` | controllers/clusterrelocation_controller.go:230-244 | domain check, route reset and registration keep the configuration; any result but "in progress" means that the domain answered; a faultless call sends the hub one request if the registration has to start |
| `Controller.Relocate` | controllers/clusterrelocation_controller.go:168-263 | the condition of a pass: True only over a configured and registered cluster whose domain answered in this pass; the self-destruction only after such a success |
| `PullSecrets.Reconcile` | internal/pullSecret/reconcile.go:21-73 | nil means that a backup exists and that the live pull secret holds what the user's secret held at some moment of the call; without a reference, that there is no backup |
| `PullSecrets.MakeBackup` | internal/pullSecret/reconcile.go:34-55 | a backup is made only when there is none |
| `PullSecrets.Cleanup` | internal/pullSecret/reconcile.go:75-104 | nil means that the live pull secret is the original one and that there is no backup |
| `Secrets.CopySecret` | internal/secrets/secrets.go:103-145 | nil means that the destination holds what the original held at some moment of the call, whoever interferes; a settled copy is left alone |
| `Secrets.ValidateSecretType` | internal/secrets/secrets.go:147-156 | nil means that the secret exists with the type; with no failing call that is also enough |
| `Secrets.KeepKeyPair` | internal/api/reconcile.go:31-61 | a pair with the right common name is kept, however the call ends; any other is replaced |
| `Secrets.GenerateKeyPair` | internal/secrets/secrets.go:47-100 | a generated certificate has the common name asked for and comes with its own key; it needs the signer |
| `Ingresses.Reconcile` | internal/ingress/reconcile.go:27-190 | nil means that controller and apps domain name certificates that are there: a pair for the domain, the same in both namespaces, or in both a copy of what the user's secret held in this pass |
| `Ingresses.PlaceCertificates` | internal/ingress/reconcile.go:31-131 | the certificate is in both namespaces, owned, before anything names it |
| `Ingresses.PatchReferences` | internal/ingress/reconcile.go:133-187 | the default certificate, the apps domain and the three component routes |
| `Ingresses.Cleanup` | internal/ingress/reconcile.go:194-222 | the ingress is at its defaults |
| `Routes.ResetRoutes` | internal/ingress/reconcile.go:224-253 | whoever interferes, all that is deleted are routes that were outdated when listed, and nil means that the API server operator was settled and that each outdated route was gone at some moment after; without interference, nil means that exactly the outdated routes are gone; with no failing call it aborts if and only if a route has two stale entries, and then has removed one such route |
| `Routes.StaleRoutesAreOutdated` | internal/ingress/reconcile.go:234-243 | the stale routes are exactly those outside of the three namespaces that the default router serves under a host which is not of the form: something, the domain, something |
| `Routes.MovedRouteIsCurrent` | internal/ingress/reconcile.go:241-242 | a route whose default-router hosts all end in the domain does not have to go |
| `Routes.OldHostIsOutdated` | internal/ingress/reconcile.go:241-242 | a route outside of the three namespaces has to go if a default-router host is shorter than the domain, or lacks the domain's first character |
| `Routes.CurrentRouteIsKept` | internal/ingress/reconcile.go:234-250 | a route that was in a namespace left out, or already under the domain, when the routes were listed is in no delete of the call, whoever interferes |
| `Routes.ResetRoute` | internal/ingress/reconcile.go:241-250 | the first delete takes the route away, the second aborts |
| `ApiServers.Reconcile` | internal/api/reconcile.go:22-122 | nil means that the API server names a certificate that is there: a pair for the domain, or a copy of what the user's secret held in this pass, or the user's own in place |
| `ApiServers.PlaceCertificate` | internal/api/reconcile.go:25-103 | the certificate is generated, copied or found before the API server names it |
| `ApiServers.Cleanup` | internal/api/reconcile.go:124-139 | the API server names no certificate |
| `Catalogs.Reconcile` | internal/catalog/reconcile.go:20-66 | nil means that no unlisted source is first-owned by the relocation and that every listed one has its last image; without interference other sources are untouched |
| `Catalogs.Cleanup` | internal/catalog/reconcile.go:68-96 | nil means that no unlisted source is first-owned by the relocation; without interference exactly those are gone |
| `Catalogs.CreateSources` | internal/catalog/reconcile.go:49-64 | the image of the last occurrence wins; with distinct names a settled list is not written to at all |
| `Catalogs.ExistsInSpec` | internal/catalog/reconcile.go:79-85 | the flag is set if and only if the spec lists the name |
| `Mirror.Reconcile` | internal/mirror/reconcile.go:23-37 | nil means that one mirror object, of the kind for the version that was read, in numbers, lists the spec's mirrors in order, and that the other kind is absent |
| `Mirror.Cleanup` | internal/mirror/reconcile.go:39-45 | nil means that no ImageDigestMirrorSet is left; an ImageContentSourcePolicy that was there survives, without interference, if and only if the version is not before 4.13.0, in numbers |
| `Mirror.Convert` | internal/mirror/reconcile.go:53-64 | the older form has the same sources and mirrors in the same order |
| `Registry.Reconcile` | internal/registryCert/reconcile.go:22-58 | the ConfigMap is there before the image configuration names it |
| `Registry.Cleanup` | internal/registryCert/reconcile.go:60-75 | the trusted CA is cleared, and nothing else is touched |
| `Ssh.Reconcile` | internal/ssh/reconcile.go:34-71 | one MachineConfig per role with the keys of the spec |
| `Ssh.Cleanup` | internal/ssh/reconcile.go:73-86 | neither MachineConfig is left |
| `Dns.Reconcile` | internal/dns/reconcile.go:38-133 | on a single node the MachineConfig is for the domain; on more nodes nothing is written |
| `Acm.Reconcile` | internal/acm/reconcile.go:94-281 | nil with a registration asked for means that the Klusterlet was seen Available in this call and that the credential is gone; any deletion comes after that sight; with no failing call, a registration that has to start sends the hub one request, and where the hub hands out documents that decode they are all made |
| `Acm.CheckKlusterlet` | internal/acm/reconcile.go:71-92 | whatever the result, the credential is deleted only after the Klusterlet was Available in this very call; nil means that it was, and that the credential is gone |
| `Acm.FindCaBundle` | internal/acm/reconcile.go:135-148 | the first name exists for every entry, and the CA bundle is the certificate of exactly the secret that the API server names; with no failing call it is found if and only if that secret is there |
| `Acm.Announce` | internal/acm/reconcile.go:150-184 | the hub is asked for the ManagedCluster of the spec: its first URL is that of the first name of the API server's certificate, with that certificate as CA bundle, its second that of the base domain; a hub that forbids it or has it is no error |
| `Acm.ImportSecret` | internal/acm/reconcile.go:186-204 | it counts the requests it makes: at most 31, and exactly 31 within 310 seconds when only the sleeps take time; what it returns the hub has handed out for this cluster |
| `Acm.AwaitKlusterlet` | internal/acm/reconcile.go:267-280 | it counts the checks it makes: at most 31, likewise; with no failing call and the Klusterlet Available, one |
| `Acm.ApplyManifests` | internal/acm/reconcile.go:223-242 | the documents are created in order, up to the first that fails or does not decode |
| `Acm.ApplyAll` | internal/acm/reconcile.go:221-265 | both sequences together are one sequence of create-if-absent steps |
| `Acm.Register` | internal/acm/reconcile.go:114-281 | nil means that the hub was asked, that all it handed out was created in this call, whoever interferes, and that the credential is gone; with no failing call the hub is asked, and what a willing hub hands out is made |
| `Manifests.Created` | internal/acm/reconcile.go:237-241 | objects that existed are untouched, the first document about an object wins, and nothing else appears |
| `Manifests.AllExist` | internal/acm/reconcile.go:237-241 | every listed object exists afterwards |
| `Manifests.Replay` | internal/acm/reconcile.go:223-265 | a crashed prefix followed by a complete pass gives what the complete pass gives |
| `Manifests.CrashesDoNotMatter` | internal/acm/reconcile.go:223-265 | the same for any number of crashes at any places |
| `SemVer.CompareTransitive` | internal/mirror/reconcile.go:28-28 | the precedence of versions is transitive, prereleases included |
| `SemVer.CompareMirrored` | internal/mirror/reconcile.go:28-28 | comparing the other way round mirrors the result |
| `SemVer.CompareIsPrecedence` | internal/mirror/reconcile.go:28-28 | a version is below another one if and only if section 11 of Semantic Versioning 2.0.0 says so, in terms of the first place where they differ |
| `SemVer.LegacyInNumbers` | internal/mirror/reconcile.go:28-36 | the older kind of mirror object is chosen if and only if the version is invalid, below 4, 4.minor with minor below 13, or a prerelease of 4.13.0 |
| `SemVer.UpgradesKeepModern` | internal/mirror/reconcile.go:28-36 | no version that is not below another one falls back under 4.13.0 |
| `Limits.SecretOfOthersSurvives` | internal/secrets/secrets.go:111-125 | over runs: the garbage collector never takes a user's secret that somebody besides the relocation owns |
| `Limits.SecretOfNobodyIsLost` | internal/secrets/secrets.go:111-125 | once the CR that took ownership of a user's secret is gone, whether or not there is a new one, the secret is safe if and only if it has another owner; otherwise it can be collected |
| `Limits.InPlaceDangles` | internal/api/reconcile.go:82-114 | an API certificate named in place can go missing while the API server names it if and only if it awaited garbage collection when it was named |
| `Limits.SelfDestructNeedsOrphaning` | controllers/clusterrelocation_controller.go:312-328 | a finalisation with the self-destruct annotation on keeps the operator's objects if and only if the deletion orphans |
| `Limits.AnyNameRestores` | controllers/clusterrelocation_controller.go:106-124 | deleting a CR of any other name that has the finalizer resets the whole configuration, while every other CR stays as it was |
| `Preservation.EnvKeepsInvariant` | controllers/clusterrelocation_controller.go:115-118 | no step of users, upgrades or the garbage collector breaks the invariant |
| `Preservation.WriteKeepsInvariant` | controllers/clusterrelocation_controller.go:89-264 | no licensed write of the operator breaks the invariant |
| `Preservation.SteadyKeepsLicence` | internal/ingress/reconcile.go:137-183 | what the operator may write when it issues a call it may still write when the call takes effect |
| `Preservation.SteadyKeepsConfigured` | controllers/clusterrelocation_controller.go:188-244 | a configured cluster stays configured under all steps of others while the pass goes on |

## Left out

- X.509, PEM and RSA: a certificate is its common name and a number that makes the pair unique.
- DNS entries: the payload of the MachineConfig is its domain; the wait for the MachineConfigPool, which has no bound, is one fallible step.
- verifyDomain, name lookups and the waits for ClusterOperators: observations of the network, each one fallible step whose answer is recorded.
- The hub: its answers are an oracle; YAML is a sequence of objects, empty documents and undecodable ones; the addon configuration is one fallible step.
- The labels and annotations of the marketplace namespace: one fallible step; an empty list of catalog sources is treated like an absent one.
- The Subscription and the ClusterServiceVersion that a self-destruction deletes: one fallible step.
- Stale caches, foreground deletion, watches, leader election and scheme registration.
- Owner references of one object to several ClusterRelocations: only the CR "cluster" ever becomes an owner, so one entry is singled out.
- Absent singletons of the platform (API server, ingress, image configuration) are read as holding their defaults.
- Runs.NothingDangles: an API certificate named in place is there only while users keep it there, because the code takes no ownership of it; `Limits.InPlaceDangles` gives the exact condition.
- Retention.ConfigurationOutlivesTheCr: the registration is reached at the deletion, not kept for ever: the Klusterlet is not the operator's.
- Retention.SelfDestructRetains: not past the creation of a new CR "cluster" or the finalisation of a CR of another name, which do change the configuration (`Limits.AnyNameRestores`).
- Views.HistoryDoesNotMatter: without the objects that turning an option off leaves behind (the registry ConfigMap, the DNS MachineConfig, an older mirror object).
- Convergence.Converge: for CRs that do not self-destruct, and with the Klusterlet Available if registration is asked for, because in a run without interference nobody else makes it so.
- Limits.AnyNameRestores: for a finalisation that no call fails; under failures `Reconciliation.Reconciler.Finalize` repeats.
