# AuthentikOperator: a verified model of the sync protocol

The operator keeps Kubernetes secrets in step with OIDC providers held by Authentik. For each
`OIDCClient` resource it looks up the provider, builds the secret's data through a profile,
compares a hash of that data with the hash stored in the resource's status, and only if they
differ applies the secret, updates a ConfigMap, restarts a workload and records the new hash.
When Authentik refuses its API token, the operator acquires a new one and keeps it in a token
secret that all its workers share.

The hash in the status is a cache key for "what is in the secret". This project models the
protocol as it is coded, with every call free to fail, and proves when that cache can be trusted,
what a run can and cannot do to the cluster, how the shared token behaves under interleaving, and
what the data path (profiles, hash, PEM, token scan, readiness polling) guarantees.

## How the model is built

- **Outside world.** `Backends.Outside` is the persistent state of the API server and of
  Authentik. `Effect` is one durable change to it. The class `Backends` is the object that the
  program calls; it also keeps a ghost log of the effects, so contracts fix the order of writes.
  Server-side apply has per-entry owners (`Applied`).
- **Outcomes.** Each call takes its outcome as a parameter. A read works or fails; a write works,
  fails, or takes effect with its response lost. An HTTP exchange is served by Authentik, answered
  with any status by something in between, or not answered. A POST that was not answered may or may
  not have been processed.
- **Program and specification.** Imperative code is imperative here: classes with fields, methods,
  loops. Each method is proved equal to a specification function (`Reconciler.ReconcilePlan` for a
  whole reconcile: effects in order, token left in memory, result). The main theorems are about
  those functions.
- **Runs.** A run (`SyncRuns`) is any sequence of complete reconciles, reconciles cut off after any
  prefix of their effects (crashes), and drift: any change by others that leaves alone the resource's
  existence, target, status and the entries that the operator owns in the target. Rotations,
  certificate changes, spec changes other than the target, and foreign entries are drift; so is a
  reconcile of another resource with another target. Reconciles of different resources at the same
  time, with effects and reads interleaved, come to such runs too (`SyncInterleaving`).
- **Workers.** `SharedToken` splits token loading and refresh into atomic steps, taken by any number
  of workers in any interleaving with restarts. `TokenRefinement` proves that one worker alone
  does exactly what the program's load and refresh do.
- **Parameters.** The digest, template rendering, base64, and the PEM and X.509 libraries are
  parameters. Where a result needs a property of them it says so: the digest is injective
  (`CanonicalHash.Injective`), decoding undoes encoding (`Certificates.Lawful`).
- **Strings** are sequences of code points. Their order is Go's byte order on valid UTF-8.

Standing assumptions of the run theorems: the target is not the token secret, targets of
different resources differ, `spec.target` does not change during a run, nobody else rewrites
the operator's own entries, and a read sees the last write.

## Where the code and expectations differ

- The architecture document says that a missing secret is applied again
  (`docs/reference/architecture.md:80`). The code looks only at the hash: `AppliesIff`,
  `MissingTargetIsNotRestored`.
- The stored hash can be wrong even if no status write is ever lost: an apply whose response is
  lost is reported as failed, and the old hash is written back over new data. `UnrecordedIff` and
  `AgreementIsKeptIff` give the exact condition; `ThereAndBackGoesStale` builds the run in which a
  stale secret is never repaired, for every pair of provider states.
- A failing certificate fetch is called non-fatal in the code, but it makes the operator compare
  data without the certificate, and apply it: `LostCertificateIsAppliedIff`.
- Nothing but the comparison of two hashes stands between a stale target and its repair. From any
  state with a token, two reconciles without failures reach a fixed point, and the target is then
  as wanted exactly if the first comparison is not fooled: `ConvergesInTwoIff`.
- A refresh clears the token in memory and deletes the token secret before it has a new key. If
  it then fails, the operator has no token and never writes anything again: `RefreshStrandsIff`,
  `StrandedForever`.
- The text that is hashed is ambiguous for every map of two or more entries: `PrintIsAmbiguousIff`.
  It does tell apart whatever the profiles build from inputs without line breaks, as long as no
  certificate has a line that looks like an entry: `SecretsAreComparable`.
- A worker's older read of the token secret can overwrite a refreshed token:
  `RefreshCanBeOverwritten`. `NeverStaleIff` says exactly when that can no longer happen.
- The shell route always uses the identifier written into its command, whatever is configured:
  `RoutesCoincideIff`. It takes the last line of the output for the key even if other text stands
  before the key on that line: `EitherRouteYieldsTheStoredKeyIff`.
- Grafana's API URL is not the userinfo URL of the CRD reference (`docs/reference/crd.md:121`) when
  that ends in a slash (`DocumentedKeysReachSecretIff`), which every built one does
  (`BuiltUserinfoEndsInSlash`); it is the stripped one of the Grafana page
  (`GrafanaApiUrlIsStripped`). The documented key `redirect_uri_path` of ragflow (`docs/profiles/ragflow.md:18`) is in the secret only
  if an override puts it there: `RedirectPathIff`.
- The return at an unchanged hash comes before any status write, so `AuthentikProviderFound=False`
  from an outage stays after recovery: `ProviderFoundIff` gives the exact condition,
  `OutageLeavesStaleCondition` the settled state that keeps the report for ever.

## Model

| member | source | states |
|---|---|---|
| `CanonicalHash.CollectKeys` | internal/hash/hash.go:13-16 | whatever order the map is ranged over in, every key is collected once |
| `CanonicalHash.SortStrings` | internal/hash/hash.go:17 | the result is increasing and has exactly the given keys |
| `CanonicalHash.ComputeSecretHash` | internal/hash/hash.go:12-29 | the hash is a function of the map alone, independent of the collecting order |
| `CanonicalHash.IncreasingIsUnique` | internal/hash/hash.go:17 | a set of keys has one increasing enumeration |
| `CanonicalHash.PrintedIsInjective` | internal/hash/hash.go:19-25 | equal printed forms mean equal maps, if no key has '=' or a line break and no value has a line starting like an entry of the other map |
| `CanonicalHash.HashIsInjective` | internal/hash/hash.go:27-28 | under the same condition and an injective digest, hashes are equal exactly when the maps are |
| `CanonicalHash.SeveralEntriesMerge` | internal/hash/hash.go:19-25 | any map of two or more entries prints like some other map |
| `CanonicalHash.SingleEntrySplits` | internal/hash/hash.go:19-25 | one entry whose value has an entry-like line prints like two entries |
| `CanonicalHash.PrintIsAmbiguousIff` | internal/hash/hash.go:19-25 | a map shares its printed form with another exactly when it has two or more entries or its value has a line like an entry for a later key |
| `CanonicalHash.TidyMapsAreComparable` | internal/hash/hash.go:19-25 | maps of single-line values, indented files, and values that hide no entry of the other map are always told apart |
| `OidcValues.ValuesAreDocumented` | internal/profiles/types.go:24-45 | all five URLs and the scopes have their documented form, whatever slashes end the base URL; credentials and redirect URIs are passed on |
| `OidcValues.BuildIgnoresTrailingSlashes` | internal/profiles/types.go:32-45 | slashes added to the base URL change nothing |
| `OidcValues.RootOf` | internal/profiles/types.go:53-63 | the root is the URI up to the first slash after "://", plus one slash, and after "://" has no other slash |
| `OidcValues.RootExistsIff` | internal/profiles/types.go:49-63 | a root is found exactly when there is a first URI and it contains "://" |
| `OidcValues.RootIsIdempotent` | internal/profiles/types.go:49-63 | the root of a root is itself |
| `RedirectUris.ParseRedirectUris` | internal/controller/oidcclient_controller.go:358-381 | the URIs kept from either JSON shape, and none from any other |
| `RedirectUris.NonEmptyKeepsOrder` | internal/controller/oidcclient_controller.go:367-373 | exactly the non-empty URLs are kept, in order |
| `RedirectUris.FirstKeptUri` | internal/controller/oidcclient_controller.go:358-374 | the first kept URI is that of the first element with a URL |
| `RedirectUris.ObjectsKeepTheirUrls` | internal/controller/oidcclient_controller.go:366-374 | from an array of objects, exactly the non-empty URLs are kept |
| `RedirectUris.TextsAreKept` | internal/controller/oidcclient_controller.go:375-379 | from an array of strings every element is kept, the empty ones too |
| `RedirectUris.OthersKeepNothing` | internal/controller/oidcclient_controller.go:359-380 | from anything else nothing is kept |
| `Profiles.ResolveOverrides` | internal/profiles/profiles.go:64-82 | each override is rendered if it holds "{{" and renders, and otherwise kept, in any visiting order |
| `Profiles.Apply` | internal/profiles/profiles.go:14-38 | the mutating pipeline equals the pointwise choice of override over table, without the internal key |
| `Profiles.ApplyWithCert` | internal/profiles/profiles.go:42-59 | the same with the certificate on top of everything |
| `Profiles.InternalKeyNeverSurvives` | internal/profiles/profiles.go:34-35 | for every profile, overrides and certificate, `redirect_uri` is not in the secret |
| `Profiles.CertKeysAreNotInTables` | internal/profiles/profiles.go:49-56 | no profile's table has a key that the certificate writes |
| `Profiles.LosingCertKeepsDataIff` | internal/controller/oidcclient_controller.go:136-153 | without the certificate the data is the same exactly when the overrides already give both certificate keys its values |
| `Profiles.DocumentedKeysReachSecretIff` | docs/profiles/grafana.md:14-31 | for the documented tables (the others: docs/reference/crd.md:124-162, docs/profiles/ragflow.md:12-18, internal/profiles/profiles_test.go:211-230): every documented key that is not overridden is in the secret with its value, except exactly Grafana's API URL when the userinfo URL ends in a slash, and ragflow's redirect path |
| `Profiles.GrafanaApiUrlIsStripped` | docs/profiles/grafana.md:22 | Grafana's API URL is the userinfo URL without its trailing slashes |
| `Profiles.RedirectPathIff` | docs/profiles/ragflow.md:12-18 | ragflow's documented `redirect_uri_path` is in the secret exactly when the overrides have it |
| `Profiles.BuiltUserinfoEndsInSlash` | internal/profiles/types.go:32-39 | every built userinfo URL ends in a slash, so trimming changes it |
| `Profiles.CredentialsReachSecret` | internal/profiles/profiles.go:84-204 | for all profiles, client id and secret are in the secret under the profile's keys unless overridden |
| `Profiles.TableEntryReachesSecret` | internal/profiles/profiles.go:14-59 | a table entry that is neither overridden nor internal reaches the secret, whatever the certificate |
| `Profiles.OverridesReachSecret` | internal/profiles/profiles.go:61-82 | an override other than the internal key is in the secret, rendered if it holds "{{" and renders, and otherwise as written; only a certificate stands above it |
| `Profiles.CertificateReachesSecret` | internal/profiles/profiles.go:49-56 | whatever the overrides: for Argo CD base64 of the PEM under `caData` and the fingerprint under `caFingerprint`, otherwise the PEM under `saml.crt` and the fingerprint under `saml.fingerprint` |
| `Profiles.CertificateKeysNeedCertificate` | internal/profiles/profiles.go:45-47 | without a certificate its keys are in the secret exactly if the overrides set them |
| `Profiles.FileReachesSecretIff` | internal/profiles/profiles.go:156-177 | the file in ragflow's secret has the fixed head and reads back as the provider's values and the redirect override, exactly when those are plain |
| `Profiles.GrafanaRootUrlIff` | internal/profiles/profiles.go:103-105 | without an override the root URL is present exactly when the first redirect URI contains "://", and then is a root |
| `Profiles.ScalarsReadBackIff` | internal/profiles/profiles.go:164-168 | any list of quoted scalars reads back exactly when every value is plain |
| `Profiles.ConfReadsBackIff` | internal/profiles/profiles.go:156-177 | reading ragflow's file (section 7.3.1 of YAML 1.2.2) gives the five values exactly when each is free of quotes, backslashes and line breaks |
| `Profiles.ConfIsInjective` | internal/profiles/profiles.go:156-177 | different plain inputs give different files |
| `Profiles.ConfIsIndented` | internal/profiles/profiles.go:159-168 | with single-line values every later line of ragflow's file starts with a space |
| `ProfileHash.SecretsAreComparable` | internal/profiles/profiles.go:14-204 | the hash tells apart any two finished secrets of any profiles, from single-line inputs and certificates without entry-like lines |
| `Reconciler.GrafanaRootOfProvider` | internal/controller/oidcclient_controller.go:150-153 | from raw redirect URIs to the finished secret: the root URL comes from the first element with a URL, exactly if that has a scheme |
| `TokenScan.ScanOutput` | internal/bootstrap/bootstrap.go:110-119 | the backward loop finds the trimmed last line that is not blank |
| `TokenScan.TrimSpaceCuts` | internal/bootstrap/bootstrap.go:114 | trimming cuts white space only, all of it at both ends |
| `TokenScan.LastTokenIs` | internal/bootstrap/bootstrap.go:107-122 | the result is empty exactly when all lines are blank, and otherwise the trimmed last line that is not |
| `TokenScan.BannerAndBlanksAreIgnored` | internal/bootstrap/bootstrap.go:107-119 | whole lines before the output and blank lines after it change nothing |
| `TokenScan.PrintedKeyIsFoundIff` | internal/bootstrap/bootstrap.go:47-119 | a printed key comes back exactly when it is one line without outer white space and only white space stands before it on its line |
| `Readiness.WaitForReady` | internal/authentik/client.go:344-387 | at most timeout/5s + 1 attempts; success exactly when the last one saw 200, with none before; over at most one tick after the deadline; the bound is met when answers are instant; terminates |
| `Certificates.ParsePem` | internal/authentik/certs.go:79-105 | returns in order exactly the CERTIFICATE blocks that parse (label of section 5.1 of RFC 7468); terminates because each decoding shrinks the rest |
| `Certificates.CertsToAllPem` | internal/authentik/certs.go:108-114 | one block per certificate, in order |
| `Certificates.ParseCertificates` | internal/authentik/certs.go:19-40 | PEM, then base64 of DER, then DER; an error when none yields a certificate |
| `Certificates.KeptIs` | internal/authentik/certs.go:84-99 | exactly the blocks with label CERTIFICATE that parse are kept, in order |
| `Certificates.ParsesIff` | internal/authentik/certs.go:19-40 | parsing succeeds exactly when a PEM block, the decoded base64 or the data itself parses, and gives the certificates of the first of these |
| `Certificates.DecodeEncoded` | internal/authentik/certs.go:84-98 | decoding all blocks of an encoded list gives the list back |
| `Certificates.NormalFormIsFixed` | internal/authentik/certs.go:19-40 | parsing the PEM of any successful parse, from whichever form, gives the same certificates and the same PEM |
| `Certificates.NormalFormBlocks` | internal/authentik/certs.go:53-114 | the returned PEM consists of the kept blocks, or of one bare CERTIFICATE block for each certificate |
| `Certificates.JoinedIsInjective` | internal/authentik/certs.go:44-51 | different digests have different fingerprints |
| `Certificates.FingerprintReads` | internal/authentik/certs.go:42-51 | each byte of the digest is two upper-case digits, high one first, with colons between |
| `Certificates.FingerprintOfNormalForm` | internal/authentik/certs.go:63-75 | the fingerprint read from normalised PEM is the first certificate's |
| `Certificates.FingerprintIgnoresLabel` | internal/authentik/certs.go:63-75 | the fingerprint is that of the first block, whatever its label and whatever follows |
| `Backends.Backends.Write` | internal/controller/oidcclient_controller.go:175-276 | a write takes effect unless it fails, and is reported as done only when acknowledged |
| `AuthentikClient.FetchIsTruthful` | internal/authentik/client.go:158-225 | a provider is only reported if Authentik holds it and accepts the token; undisturbed, refused / missing / found are exactly Authentik's state |
| `AuthentikClient.FetchClassifies` | internal/authentik/client.go:158-225 | for every fate of both requests: expired exactly on a 401 or 403, missing exactly on a 404 for the application or an empty list, found exactly when both are served, and otherwise none of these |
| `AuthentikClient.CreateApiToken` | internal/authentik/client.go:268-338 | creates or finds the token and reads its key, for every fate of both requests |
| `Bootstrap.ExecGetToken` | internal/bootstrap/bootstrap.go:52-126 | the shell's get-or-create and the scanned key, for every way the command can end |
| `Bootstrap.AcquireKey` | internal/bootstrap/bootstrap.go:170-188 | the shell first, the HTTP API when the shell yields nothing |
| `Bootstrap.RunBootstrap` | internal/bootstrap/bootstrap.go:134-209 | check, delete, wait, acquire and apply, with effects, order and result for all outcomes |
| `Rollout.TriggerRollout` | internal/rollout/rollout.go:12-53 | exactly a readable Deployment or StatefulSet gets the annotation, and success is exactly an acknowledged patch |
| `Reconciler.Reconciler.EnsureToken` | internal/controller/oidcclient_controller.go:71-86 | the token in memory afterwards, and whether the reconcile goes on |
| `Reconciler.Reconciler.RefreshToken` | internal/controller/oidcclient_controller.go:286-346 | effects, token in memory and result for all outcomes |
| `Reconciler.Reconciler.PatchConfigMap` | internal/controller/oidcclient_controller.go:193-236 | the ConfigMap write and the condition reported for it |
| `Reconciler.Reconciler.RestartWorkload` | internal/controller/oidcclient_controller.go:239-263 | the restart and the condition reported for it |
| `Reconciler.Reconciler.SyncTarget` | internal/controller/oidcclient_controller.go:156-281 | hash comparison, apply, ConfigMap, restart, status, in this order |
| `Reconciler.Reconciler.ReportFailure` | internal/controller/oidcclient_controller.go:100-124 | refresh if the token was refused; a status write unless that worked |
| `Reconciler.Reconciler.Reconcile` | internal/controller/oidcclient_controller.go:62-282 | the whole reconcile is `ReconcilePlan`: same effects in the same order, same memory, same result |
| `SyncSteps.PlanShape` | internal/controller/oidcclient_controller.go:157-276 | every reconcile either only does token work and reports that keep the hash, or applies the compared data first; with equal hashes it writes nothing |
| `SyncSteps.RefreshIsTokenWork` | internal/controller/oidcclient_controller.go:286-346 | a refresh touches nothing but Authentik's token and the token secret |
| `SyncSteps.ApplyOwns` | internal/controller/oidcclient_controller.go:165-175 | after an apply the operator owns exactly the applied data |
| `SyncSteps.PrefixOnView` | internal/controller/oidcclient_controller.go:62-282 | after any prefix of a reconcile, hash and owned data are either untouched, or the data is the compared one and the hash is the old one or its hash |
| `SyncRuns.StepOnView` | internal/controller/oidcclient_controller.go:62-282 | the same for every step of a run, crash or drift included |
| `SyncRuns.RunStaysWatched` | docs/reference/architecture.md:104 | over any run the target secret is never removed |
| `SyncRuns.AgreementHolds` | internal/controller/oidcclient_controller.go:156-188 | over any run whose applies are recorded, the stored hash is empty or that of the owned data |
| `SyncRuns.ComparisonIsTruthful` | internal/controller/oidcclient_controller.go:156-159 | in an agreeing state the hashes match exactly when the target holds the desired data |
| `SyncRuns.AppliesIff` | internal/controller/oidcclient_controller.go:156-175 | a reconcile applies exactly when the compared hash differs from the stored one and the call goes through; the secret itself plays no part |
| `SyncRuns.MissingTargetIsNotRestored` | internal/controller/oidcclient_controller.go:157-159 | while the hash is unchanged, a missing target stays missing |
| `SyncRuns.UnrecordedIff` | internal/controller/oidcclient_controller.go:175-279 | an apply goes unrecorded exactly when its response is lost or the status write fails |
| `SyncRuns.AgreementIsKeptIff` | internal/controller/oidcclient_controller.go:156-279 | a step from an agreeing state keeps agreement exactly when there was no hash yet or no apply goes unrecorded |
| `SyncRuns.SqueezeHolds` | internal/controller/oidcclient_controller.go:155-279 | whatever is lost: version(stored hash) <= version(owned data) <= version(desired data) |
| `SyncRuns.WithoutReturnComparisonIsSound` | internal/controller/oidcclient_controller.go:155-187 | if the desired data never returns to an earlier value, equal hashes still mean a current target |
| `SyncRuns.ReturnAfterLostRecordIsMissed` | internal/controller/oidcclient_controller.go:157-159 | the condition is needed: a return after an unrecorded apply goes unnoticed |
| `SyncRuns.RestartsAreBounded` | internal/controller/oidcclient_controller.go:155-279 | over any run, restarts <= applies <= 1 + changes of the compared data + unrecorded applies |
| `SyncSafety.UnappliedWritesNoHash` | internal/controller/oidcclient_controller.go:175-188 | without an acknowledged apply, no annotation, no ConfigMap and no other hash is written |
| `SyncSafety.WriteAheadOrder` | internal/controller/oidcclient_controller.go:175-276 | every new stored hash and every annotation is the hash of data applied successfully earlier in the same reconcile |
| `SyncSafety.OnlyTokenSecretIsDeleted` | internal/bootstrap/bootstrap.go:145-148 | only the token secret is ever deleted; only it and the target, with the compared data, are applied |
| `SyncSafety.FailedFetchKeepsTarget` | docs/reference/architecture.md:103-104 | a reconcile without a provider leaves the target as it is, at every moment |
| `SyncSafety.ForeignFieldsAreKept` | docs/reference/architecture.md:222-227 | over any run, an entry of the target that is not the operator's and that no data names stays as it is |
| `SyncSafety.ConfigMapChangesOneKey` | internal/controller/oidcclient_controller.go:199-215 | a ConfigMap is written back with one key replaced by the compared value |
| `SyncSafety.OthersAreApart` | internal/controller/oidcclient_controller.go:383-389 | no effect of another resource's reconcile, in whatever state it starts, touches this resource's status or target |
| `SyncSafety.OthersAreDrift` | internal/controller/oidcclient_controller.go:383-389 | a reconcile of another resource, whole or cut short, is drift that this resource's theorems allow |
| `SyncInterleaving.OthersLeaveNoTrace` | internal/controller/oidcclient_controller.go:383-389 | in any interleaving of effects, the resource and its target end up as after its own effects alone |
| `SyncInterleaving.InterleavedIsARun` | internal/controller/oidcclient_controller.go:383-389 | a reconcile interleaved with those of any other workers, its reads included, comes to a run of three steps with the same outcome, so all run theorems cover it |
| `SyncSafety.SetConditionIs` | internal/controller/oidcclient_controller.go:113-119 | setting a condition replaces that type and keeps all others, without duplicates |
| `SyncSafety.StatusStaysConsistent` | internal/controller/oidcclient_controller.go:113-279 | over any run: distinct condition types; SecretSynced=True, ConfigMapSynced or RolloutTriggered only with a stored hash; a stored hash never disappears |
| `StatusVerdicts.VerdictsAreTruthful` | internal/controller/oidcclient_controller.go:192-279 | after an acknowledged sync: synced and found; the ConfigMap and the workload, if configured and enabled, are called up to date exactly when they could be read and their write was acknowledged, and then they are; otherwise the earlier verdict stays |
| `StatusVerdicts.FailedApplyIsReported` | internal/controller/oidcclient_controller.go:175-188 | an apply that is not acknowledged is reported as not synced; hash and other verdicts stay |
| `StatusVerdicts.ProviderFoundIff` | internal/controller/oidcclient_controller.go:126-159 | after a reconcile that got a provider, the status says so if the hash differs and the status write is not lost, and otherwise says what it said before |
| `ReconcileGuards.ComparesIff` | internal/controller/oidcclient_controller.go:62-156 | data is compared exactly when the look-up is served, and it is what provider, spec and certificate ask for |
| `ReconcileGuards.ResultIs` | internal/controller/oidcclient_controller.go:62-282 | by guards alone: finished exactly for a resource that does not exist, an error exactly when it could not be read or applied data could not be recorded, at once exactly after a refused token was replaced, else after the interval |
| `ReconcileGuards.ExistingIsNeverFinished` | internal/controller/oidcclient_controller.go:90-95 | over any run, no reconcile is finished with a resource that exists |
| `ReconcileGuards.UnrefusedTokenStays` | internal/controller/oidcclient_controller.go:100-110 | without a 401 or 403, or without a bootstrap token, the token in memory stays and no effect concerns a token |
| `ReconcileGuards.RefreshSucceedsIff` | internal/controller/oidcclient_controller.go:286-346 | a refresh gets a token exactly when the bootstrap token could be read, the run succeeds and the new secret can be read |
| `ReconcileGuards.RestartsIff` | internal/controller/oidcclient_controller.go:238-263 | a workload is restarted exactly when data was applied, the restart is enabled and of this workload, that is a readable Deployment or StatefulSet, and its patch takes effect; the annotation is the hash of the data |
| `ReconcileGuards.ConfigMapIsWrittenIff` | internal/controller/oidcclient_controller.go:192-236 | a ConfigMap is written exactly when data was applied that has its source key, it could be read, and the update takes effect |
| `ReconcileGuards.EffectsAreInOrder` | internal/controller/oidcclient_controller.go:175-276 | secrets and tokens first, then the ConfigMap, then the workload, the status last, each of these three at most once |
| `ReconcileGuards.FailedLookupIsReported` | internal/controller/oidcclient_controller.go:112-123 | without a provider the status says so unless the token was replaced, and nothing else in it changes |
| `TokenStore.RunCreatesOnce` | internal/bootstrap/bootstrap.go:134-209 | a run creates at most one token, the operator's, and only if it is missing |
| `TokenStore.RunsAddAtMostOneToken` | internal/bootstrap/bootstrap.go:134-209 | over any runs with any failures, cut short anywhere, at most the operator's token is added and its key never changes |
| `TokenStore.EitherRouteYieldsTheStoredKeyIff` | internal/bootstrap/bootstrap.go:170-188 | the key that comes is the one that Authentik then holds for the operator, except exactly when the shell's key does not start its own line |
| `TokenStore.AcquiresIff` | internal/bootstrap/bootstrap.go:170-188 | for any identifier and keys: a key comes exactly when the shell prints something, or the bearer is accepted, the POST passes, the token exists and the key can be read |
| `TokenStore.RunOkIff` | internal/bootstrap/bootstrap.go:134-209 | a run succeeds exactly when the look-up works and the secret may stay, or is out of the way, Authentik is ready, a key is to be had and the apply is acknowledged |
| `TokenStore.UnforcedRunsChangeNothing` | internal/bootstrap/bootstrap.go:137-144 | without a forced refresh any number of runs leaves an existing secret and Authentik alone, and each succeeds exactly when its look-up does |
| `TokenStore.RoutesCoincideIff` | internal/bootstrap/bootstrap.go:47 | the shell's key is the configured identifier's key exactly when that is the identifier in the command, or had the same key before |
| `TokenStore.HttpYieldsConfiguredKey` | internal/authentik/client.go:268-338 | the HTTP route yields the configured identifier's key |
| `TokenStore.RefilledSecretHoldsStoredKey` | internal/bootstrap/bootstrap.go:190-205 | a successful run leaves the stored key in the token secret |
| `TokenStore.RunHoldsStoredKey` | internal/bootstrap/bootstrap.go:134-209 | a run that succeeds leaves the stored key in the token secret, unless it left an earlier secret alone |
| `Convergence.AcceptedTokenSettlesIff` | internal/controller/oidcclient_controller.go:97-281 | from any state with an accepted token, one reconcile without failures settles exactly when the stored hash is not that of the wanted data, or the target holds it already |
| `Convergence.MatchedStays` | internal/controller/oidcclient_controller.go:157-159 | once the hash matches, nothing is written and nothing changes, whatever the target holds |
| `Convergence.MatchedStaysForever` | internal/controller/oidcclient_controller.go:157-159 | the same for any number of reconciles |
| `Convergence.SettledServesCredentials` | internal/profiles/profiles.go:84-204 | a settled target holds the client id and secret that Authentik holds, unless overridden |
| `Convergence.SettledServesCertificate` | internal/profiles/profiles.go:49-56 | and the certificate that Authentik holds for the provider's signing key, under the profile's keys |
| `Convergence.SettledServesDocumentedValues` | docs/includes/oidc-source-data.md:1-10 | and every documented value, from the configured base URL, the slug and the provider |
| `Convergence.RefusedTokenIsReplaced` | internal/controller/oidcclient_controller.go:101-109 | from a refused token, one reconcile without failures gets an accepted one and leaves target and status alone |
| `Convergence.ConvergesInTwoIff` | internal/controller/oidcclient_controller.go:62-282 | with a token to start from and no failures, two reconciles reach a state that no later one changes, and it is settled exactly when the first comparison is not fooled |
| `Convergence.AgreeingIsRepairable` | internal/controller/oidcclient_controller.go:156-159 | in an agreeing state the comparison is not fooled, if the hash can tell the data apart |
| `Convergence.AgreeingConvergesInTwo` | internal/controller/oidcclient_controller.go:62-282 | so agreeing states converge in two reconciles |
| `Convergence.StrandedForever` | internal/controller/oidcclient_controller.go:71-86 | with no token in memory or in the token secret, no number of reconciles of any resources changes anything |
| `Stranding.RunStoresIff` | internal/bootstrap/bootstrap.go:134-209 | by the outcomes of its calls: what a run leaves in the token secret, forced or not |
| `Stranding.RefreshStrandsIff` | internal/controller/oidcclient_controller.go:286-346 | by the outcomes of its calls alone: a refresh after a refusal ends without any token exactly when the old secret did not survive and no new one was written |
| `StaleTargets.LostRecord` | internal/controller/oidcclient_controller.go:175-279 | losing the response or the status write leaves new data under the old hash |
| `StaleTargets.ThereAndBackGoesStale` | internal/controller/oidcclient_controller.go:155-187 | for any two provider states: settle, switch and lose the record, switch back; then no number of reconciles writes anything, and the target stays stale |
| `StaleTargets.LostCertificateIsAppliedIff` | internal/controller/oidcclient_controller.go:135-153 | from a settled state a certificate fetch that fails in any way rewrites the target without the certificate exactly when the hashes differ, which is exactly when the overrides do not pin its keys, if the hash can tell |
| `StaleTargets.OutageLeavesStaleCondition` | internal/controller/oidcclient_controller.go:113-159 | a reconcile in an outage leaves a settled state with AuthentikProviderFound=False, which no number of later reconciles changes |
| `TidyRuns.BuiltDataIsComparable` | internal/profiles/profiles.go:14-204 | whatever is built from specs and providers without line breaks can be told apart by the hash |
| `TidyRuns.TidyRunsAreSound` | internal/controller/oidcclient_controller.go:155-187 | for such data, without a return, equal hashes mean a current target over any run |
| `TidyRuns.TidyResourceConvergesInTwo` | internal/controller/oidcclient_controller.go:62-282 | for such data, agreeing states converge in two reconciles |
| `TidyRuns.TidyCertificateIsLostIff` | internal/controller/oidcclient_controller.go:135-153 | for such data, a failed certificate fetch takes the certificate out of the target exactly when the overrides do not pin it |
| `SharedToken.MemoryIsLegitimate` | internal/controller/oidcclient_controller.go:71-86 | any workers, any interleaving: a token in memory is the initial one, the environment's, or was once in the token secret |
| `SharedToken.OccurInventsNothing` | internal/controller/oidcclient_controller.go:71-86 | no single event brings up a token that was neither in the secret nor in flight nor the environment's |
| `SharedToken.AfterFirstApplyOneKey` | internal/bootstrap/bootstrap.go:137-205 | after the first write by any worker, the token secret is only ever absent or Authentik's key |
| `SharedToken.FreshStays` | internal/controller/oidcclient_controller.go:73-86 | once no stale read is in flight, no stale token comes back |
| `SharedToken.NeverStaleIff` | internal/controller/oidcclient_controller.go:73-86 | no stale token can get into memory any more exactly when memory, all reads in flight and the environment hold none |
| `SharedToken.RefreshCanBeOverwritten` | internal/controller/oidcclient_controller.go:73-78 | a reachable interleaving in which an older read overwrites the refreshed token |
| `TokenRefinement.RefreshIsOneWorkerAlone` | internal/controller/oidcclient_controller.go:286-346 | for all outcomes, the program's refresh is what one step-by-step worker does undisturbed |
| `TokenRefinement.LoadIsOneWorkerAlone` | internal/controller/oidcclient_controller.go:71-86 | so is its loading of the token |

## Left out

- HTTP, TLS, JSON decoding and logging: an exchange is its outcome, and a JSON value is what decoding looks at (`RedirectUris.Json`); field names are matched exactly.
- Template syntax, base64, SHA-256, PEM and X.509: parameters, with laws where a result needs them.
- The exec stream and the choice of a pod: a shell command does not start, works and loses its output, or delivers it.
- Labels, annotations of secrets, `lastSyncTime`, condition reasons, messages and generations: they steer nothing.
- `toByteMap`: secret data stays text.
- Deep equality of map objects: overrides are a value, so the case in which `resolveOverrides` returns the very map that it was given is not an alias here.
- InterleavedIsARun: the reads of one reconcile are taken from one state, made up of what each of them saw; a conflicting ConfigMap or status update is a failed write. A refresh among other workers' refreshes is the subject of `SharedToken`; for the resource its effects count as others' work (`TokenWorkIsApart`).
- Owner bookkeeping of server-side apply beyond one level of entries, and field managers other than as a set of owners.
- Scheduling: intervals, watches, backoff, leader election, and the wiring in `cmd/main.go`, except that a restart reads the token from the environment or from the token secret.
- WaitForReady: time is an idealised clock in which only requests and waiting for ticks take time; a request ends no later than one instant after its deadline.
- RunBootstrap: waiting for readiness enters as one bit; its loop is `Readiness.WaitForReady`.
- EitherRouteYieldsTheStoredKeyIff: assumes that the keys that Authentik makes have no line break and no outer white space.
- AfterFirstApplyOneKey: assumes that nobody but the operator changes Authentik's token or writes the token secret meanwhile.
- NormalFormIsFixed: the round trip of the PEM library is assumed for every block, so headers that its encoder would refuse are not considered.
- Custom resource validation, RBAC manifests, Helm charts, generated deep copies and test utilities: no algorithms.
