# kloader: a Dafny model of the mounter core

kloader keeps a local directory in step with a Kubernetes ConfigMap or Secret.
It watches the object, writes every key of its `Data` as a file through an
atomic directory writer, and optionally runs a command after each write. This
project models the decisions kloader makes around the Kubernetes client
libraries, and proves properties of them:

- turning the `name[.namespace]` flag into an object reference, in the three
  variants of the code, and the namespace fallback chain;
- the change filter of the informer's event handlers (Add always, Update only
  when `Data` differs);
- the worker step over the rate-limiting queue, and its retry policy
  (`maxRetries = 5`);
- the payload built from `Data` (mode 0777, one file per key);
- the ordering of mount and command in `Run` and `ReMount`;
- the `run` command's flag validation and dispatch;
- the wrap-around update counters of the controller package.

Everything outside the process is a parameter: the `KUBE_NAMESPACE` value, the
service-account namespace file, the client's Get, the informer store's
answer, and whether the atomic writer succeeded. Each `log.Fatal` becomes a
`Fatal` outcome. Visible side effects are recorded in order in an `effects`
sequence, as `Published(location, payload)` and `RanCommand(path)`.

Modules: `Wrappers` (Option), `GoStrings` (TrimSpace, TrimSuffix, Split,
SplitN with n = 2), `Kube` (API types, key function, change filter, payload),
`Ambient` (util.go), `SourceRef` (flag parsing), `WorkQueue` (the queue
abstraction), `ConfigMapMount` (mount_configmap.go), `SecretMount`
(mount_secret.go), `LegacyMount` (mount.go), `ControllerUtil`
(controller/util.go), `RunCmd` (run.go).

The model follows the code, including these behaviours of it:

- A writer failure inside the worker is not retried. `Mount` calls `log.Fatalln`, which ends the process before the deferred `Done` runs, so the step is `Exited` and the key stays in processing.
- The command's error is discarded, so a failing hook never leads to a retry. The only failure that reaches the retry policy is a failed cache lookup.
- The ConfigMap mounter of mount_configmap.go does no initial mount in `Run`. The Secret mounter and mount.go's mounter do one.
- The Secret and mount.go parsers split at every dot. A value with two or more dots loses everything after the name, and the namespace falls back to `KUBE_NAMESPACE` or `"default"`.
- A value ending in its only dot (`"name."`) selects the empty namespace in every variant. So the parsed namespace is not always non-empty; only `namespace()` itself never returns `""`.

## Model

| member | source | states |
|---|---|---|
| `GoStrings.TrimSpace` | mount_configmap.go:40 | the result is a slice of the input that neither starts nor ends with white space; only white space was cut on either side |
| `GoStrings.TrimSpaceIdempotent` | util.go:31 | trimming a trimmed value changes nothing |
| `GoStrings.TrimSuffix` | mount_configmap.go:98 | when the input ends with the suffix, result + suffix is the input; otherwise the input is returned unchanged |
| `GoStrings.TrimSuffixRemovesOneSlash` | mount_secret.go:100 | a single trailing "/" is removed, and of "//" only one is |
| `GoStrings.Split` | mount_secret.go:37 | the parts contain no separator, join back to the input, and number one more than the separators in the input |
| `GoStrings.SplitN2` | mount_configmap.go:40 | the result is one part (no separator) or two; the first part has no separator; joining the parts gives the input back |
| `GoStrings.SplitN2AgreesWithSplit` | mount.go:33 | SplitN(…, 2) and Split give the same first part, and the same parts when there is at most one separator |
| `Ambient.Namespace` | util.go:26-36 | the result is never empty; a set KUBE_NAMESPACE wins; otherwise a readable file's trimmed non-blank content; otherwise "default" |
| `Ambient.EnvironmentShadowsFile` | util.go:27-29 | with KUBE_NAMESPACE set, the file's content makes no difference |
| `Ambient.FileNamespaceIsTrimmed` | util.go:30-35 | without KUBE_NAMESPACE the result has no surrounding white space |
| `SourceRef.EnvOrDefault` | mount_secret.go:44-47 | a non-empty KUBE_NAMESPACE is used as is; an empty one gives "default" |
| `SourceRef.ParseFirstDot` | mount_configmap.go:40-48 | the object name never holds a dot |
| `SourceRef.FirstDotSplit` | mount_configmap.go:40-48 | with a dot in the trimmed value, name + "." + namespace is that value (the namespace may hold further dots); without one, the name is the trimmed value and the namespace is namespace() |
| `SourceRef.ParseEveryDot` | mount_secret.go:37-50 | the name has no dot and is the trimmed input up to its first dot; with exactly one dot, name + "." + namespace is the trimmed input; otherwise the namespace is KUBE_NAMESPACE or "default" |
| `SourceRef.SplitFirstPart` | mount_secret.go:37-39 | Split's first part is the whole input when it has no separator; otherwise that part followed by the separator starts the input, and with exactly one separator the two parts rebuild the input |
| `SourceRef.EmptyNamespaceOnlyFromTrailingDot` | mount_configmap.go:40-46 | in both parsers, the namespace is empty exactly when the trimmed value has one dot and ends with it |
| `SourceRef.ParsersAgreeOnOneDot` | mount.go:33-46 | with exactly one dot the two parsers give the same reference, whatever the service-account file holds |
| `SourceRef.ParsersDisagreeOnTwoDots` | mount_secret.go:48-50 | with two or more dots both parsers give the same name; the first-dot parser keeps a dotted namespace, the every-dot parser falls back to KUBE_NAMESPACE or "default" |
| `Kube.KeyFunc` | mount_configmap.go:73 | the key exists exactly for objects of the watched kind: "namespace/name", or "name" when the namespace is empty |
| `Kube.DataChanged` | mount.go:104-106 | true exactly when both objects are of the watched kind and their Data are not deeply equal: one is nil and the other not, or their entries differ |
| `Kube.UpdateEventKey` | mount_configmap.go:80-93 | a key is produced exactly when both objects are of the watched kind and their Data differ, and it is the new object's key |
| `Kube.MetadataOnlyUpdateIgnored` | mount_configmap.go:83 | an update that changes only metadata produces no key |
| `Kube.NilToEmptyDataIsEnqueued` | mount_secret.go:85 | a nil Data replaced by an empty one is enqueued, though both give the same payload |
| `Kube.BuildPayload` | mount_configmap.go:170-173 | the payload has exactly the keys of Data, each with mode 0777 and the value's bytes |
| `Kube.BuildPayloadIsProjection` | mount.go:68-71 | the payload the loop builds is the projection of Data |
| `Kube.WriterFatal` | mount_configmap.go:175-182 | the writer stage is fatal unless the writer was created and the write succeeded |
| `Kube.CommandEffects` | mount_configmap.go:154-156 | the command runs if and only if the command path is non-empty |
| `WorkQueue.RateLimitingQueue.constructor` | mount_configmap.go:51 | a new queue is valid and empty, with no requeue counts |
| `WorkQueue.RateLimitingQueue.NumRequeues` | mount_configmap.go:128 | the number of rate-limited re-adds since the key was last forgotten; zero for a key never requeued or already forgotten |
| `WorkQueue.RateLimitingQueue.Add` | mount_configmap.go:75 | no change once shutting down or for a key that is already dirty; otherwise the key becomes dirty and, unless it is being processed, joins the end of the pending keys |
| `WorkQueue.RateLimitingQueue.Get` | mount_configmap.go:119-122 | hands out the first pending key and moves it from dirty to processing; with nothing pending, reports the shut-down or nothing |
| `WorkQueue.RateLimitingQueue.Done` | mount_configmap.go:123 | the key leaves processing and becomes pending again only if it was re-added meanwhile |
| `WorkQueue.RateLimitingQueue.Forget` | mount_configmap.go:127 | the key's requeue count returns to zero; nothing else changes |
| `WorkQueue.RateLimitingQueue.AddRateLimited` | mount_configmap.go:130 | the key's requeue count goes up by one and the key waits for its back-off; nothing else changes |
| `WorkQueue.RateLimitingQueue.DelayElapsed` | mount_secret.go:133 | a key whose back-off elapsed leaves the waiting keys and is added; processing, requeue counts and the shut-down flag are unchanged |
| `WorkQueue.RateLimitingQueue.ShutDown` | mount_configmap.go:120-121 | the queue is marked shutting down; nothing else changes |
| `ConfigMapMount.RetryAction` | mount_configmap.go:126-134 | Forget exactly on success; Retry exactly on failure below maxRetries (5); GiveUp exactly on failure at 5 or more |
| `ConfigMapMount.RetryBudget` | mount_configmap.go:25 | a key that keeps failing from requeue count c ≤ 5 is retried 5 − c more times and then given up; from a fresh key, five retries in six attempts |
| `ConfigMapMount.AttemptsSplit` | mount_configmap.go:128-133 | a run of consecutive failures splits into runs that continue from the intermediate requeue count |
| `ConfigMapMount.GivingUpRestartsBudget` | mount_configmap.go:131-133 | after giving up the count is zero, so later failures start a fresh budget of five retries |
| `ConfigMapMount.ConfigMapMounter.constructor` | mount_configmap.go:39-105 | the source is the first-dot parse, the mount location has one trailing "/" trimmed, the command is kept, the queue is empty and nothing has been mounted |
| `ConfigMapMount.ConfigMapMounter.HandleAdd` | mount_configmap.go:72-79 | the object's key is added whenever the key function succeeds; otherwise the queue is unchanged |
| `ConfigMapMount.ConfigMapMounter.HandleUpdate` | mount_configmap.go:80-93 | the new object's key is added only when the Data differ; otherwise the queue is unchanged |
| `ConfigMapMount.ConfigMapMounter.Run` | mount_configmap.go:107-110 | the informer and worker start with no initial mount |
| `ConfigMapMount.ConfigMapMounter.Mount` | mount_configmap.go:160-183 | with no object, a failed Get is fatal; otherwise the projection of Data is published to the mount location unless the writer fails, which is fatal and publishes nothing |
| `ConfigMapMount.ConfigMapMounter.ProcessItem` | mount_configmap.go:139-158 | fails exactly when the cache lookup fails; a missing key is success with no effect; a cached object is published and then the command runs if set, with success whatever the command does; a writer failure is fatal |
| `ConfigMapMount.ConfigMapMounter.ProcessNextItem` | mount_configmap.go:118-137 | takes the first pending key (Quit or Wait when none); the action is RetryAction of the lookup's failure and the key's requeue count; Retry increments the count and schedules the key; Forget and GiveUp clear the count; Done leaves processing as before; a fatal error leaves the key in processing |
| `SecretMount.SecretMounter.constructor` | mount_secret.go:36-107 | the source is the every-dot parse with the KUBE_NAMESPACE or "default" fallback; the mount location has one trailing "/" trimmed; the queue is empty |
| `SecretMount.SecretMounter.HandleAdd` | mount_secret.go:74-81 | the Secret's key is added whenever the key function succeeds |
| `SecretMount.SecretMounter.HandleUpdate` | mount_secret.go:82-95 | the key is added only when the Secrets' Data differ |
| `SecretMount.SecretMounter.Run` | mount_secret.go:109-113 | one Get-and-publish happens before the informer and worker start; if it is fatal, nothing starts |
| `SecretMount.SecretMounter.Mount` | mount_secret.go:163-186 | with no Secret, a failed Get is fatal; otherwise the projection of Data is published unless the writer fails (fatal) |
| `SecretMount.SecretMounter.ProcessItem` | mount_secret.go:142-161 | fails exactly when the cache lookup fails; a missing key is success with no effect; a cached Secret is published, the command runs if set, and the result is success |
| `SecretMount.SecretMounter.ProcessNextItem` | mount_secret.go:121-140 | the same retry policy as the ConfigMap worker: Forget on success, AddRateLimited below 5 requeues, Forget otherwise, Done unless the process exits |
| `LegacyMount.LegacyConfigMapMounter.constructor` | mount.go:32-55 | the source is the every-dot parse, the mount location has one trailing "/" trimmed, nothing is watched or mounted |
| `LegacyMount.LegacyConfigMapMounter.Mount` | mount.go:62-81 | a failed Get or a writer failure is fatal and publishes nothing; otherwise the projection of the fetched Data is published |
| `LegacyMount.LegacyConfigMapMounter.ReMount` | mount.go:83-88 | publishes, then runs the command if and only if it is set; a fatal mount runs nothing |
| `LegacyMount.LegacyConfigMapMounter.Run` | mount.go:57-60 | one mount (without the command) before the watch starts; a fatal mount starts no watch |
| `LegacyMount.LegacyConfigMapMounter.HandleAdd` | mount.go:100-102 | every Add event remounts and runs the command |
| `LegacyMount.LegacyConfigMapMounter.HandleUpdate` | mount.go:103-111 | remounts only when both objects are ConfigMaps with different Data; otherwise no effect and no error |
| `ControllerUtil.Increment` | controller/util.go:17-20 | the counter goes up by one, wrapping from 2^64 − 1 to 0, and stays below 2^64 |
| `ControllerUtil.AfterIncrements` | controller/util.go:15-25 | a counter incremented from zero stays a valid uint64 |
| `ControllerUtil.AfterIncrementsIsModulo` | controller/util.go:15-25 | after n increments from zero a counter holds n mod 2^64 |
| `ControllerUtil.UpdateCounters.constructor` | controller/util.go:15 | both counters start at zero |
| `ControllerUtil.UpdateCounters.AcknowledgeUpdate` | controller/util.go:17-20 | updateAcknowledged goes up by exactly one mod 2^64; updatePerformed is unchanged |
| `ControllerUtil.UpdateCounters.PerformUpdate` | controller/util.go:22-25 | updatePerformed goes up by exactly one mod 2^64; updateAcknowledged is unchanged |
| `ControllerUtil.Namespace` | controller/util.go:27-37 | the same precedence as util.go (environment, trimmed file, "default"); never empty |
| `RunCmd.GetRestConfig` | run.go:30-47 | passes exactly when one of configMap/secret is set, mountDir is set and the kubeconfig is built; both sources empty, then both set, then an empty mountDir are checked in that order |
| `RunCmd.Run` | run.go:15-23 | a ConfigMap mounter when configMap is set, else a Secret mounter when secret is set; a mounter starts exactly when the flags are well formed and the kubeconfig is built; any fatal error is getRestConfig's; it holds idle exactly when neither source is set |
| `RunCmd.NoSourceHoldsIdle` | run.go:15-23 | with neither source set, `run` holds idle although getRestConfig would report the missing source |
| `RunCmd.RunValidated` | run.go:30-33 | validating first never holds idle: it is fatal exactly when getRestConfig fails, and otherwise starts the one mounter whose flag is set |
| `RunCmd.RunValidatedAgreesWithRun` | run.go:15-33 | the validated dispatch equals the written one whenever a source is given, and otherwise fails with the missing-source error |

## Findings

| source | as written | input that shows it | evidently intended | confidence | as-written member | corrected member |
|---|---|---|---|---|---|---|
| run.go:15-23 | `getRestConfig()` is called only inside the `configMap != ""` and `secret != ""` branches, so its first check (run.go:31-33) can never fire from `run` | `--config-map` and `--secret` both empty: `run` builds no mounter and holds forever without an error | `run` with no source fails with "ConfigMap/Secret is required, but not provided" | medium, not executed | `RunCmd.NoSourceHoldsIdle` | `RunCmd.RunValidated` |

## Left out

- The atomic directory writer (`volume.NewAtomicWriter` / `Write`) is not part of this model. Its outcome is the `WriterResult` parameter and a success is one `Published` effect. Staging, symlink swap and stale-key cleanup are not modelled.
- Informers, `ListWatch`, field selectors and the clientset's `Get`/`List`/`Watch` are network I/O inside a library. They are replaced by the `FetchResult` and `Lookup` parameters and by the handler methods that the informer would call. The informer's own store updates and resync are not modelled.
- The queue's back-off timing and rate limiter arithmetic are not modelled. A requeued key waits in `waiting` until `DelayElapsed`.
- Goroutines, concurrent `Get`/`Done`, `wait.Until`, `runWorker`'s loop and `hold.Hold` are not modelled. The worker loop is repeated `ProcessNextItem` calls; `Run` only records that the informer and worker were started (`started` / `watching`).
- `runCmd` executes a shell command. It is recorded as a `RanCommand` effect. Its output and exit status are not modelled, because every caller discards its result.
- `log.Fatal` / `log.Fatalln` end the process. They are modelled as a returned `Fatal` value or an `Exited` step, and later calls are not excluded. Informational logging is left out.
- Reading `KUBE_NAMESPACE` and the service-account file is I/O. The values are parameters, and an unreadable file is `None`.
- In `processItem`, the type assertion `obj.(*apiv1.ConfigMap)` is not modelled because the store only holds the watched kind. The handlers' type assertions and key-function errors are modelled through `Foreign` objects.
- Strings are Unicode scalar sequences, and `TrimSpace` uses `unicode.IsSpace`. Go's handling of invalid UTF-8 is not modelled. `Data` values are byte sequences, so `[]byte(v)` is the identity.
- reflect.DeepEqual's nil-versus-empty distinction is modelled for the `Data` map. It is not modelled for the byte-slice values inside a Secret's `Data`.
- No Delete handler is registered in any variant, so deletion is only a `NotCached` lookup.
- `clientcmd.BuildConfigFromFlags` is a library call. Its outcome is the `kubeConfigBuilt` parameter.
- `ControllerUtil.UpdateCounters`: the counters are updated sequentially. The atomicity of `sync/atomic` is not modelled.
- The command trees in main.go, check.go, kloader.go and cmds/ are not part of this model, nor is the build tooling under hack/.
