# kube-controller-gen, modelled in Dafny

kube-controller-gen reads a YAML configuration that lists clientsets, their
API groups and the resources to watch. From it, a Go template generates a
Kubernetes controller. This project models two parts of
`kube-controller-gen.go`:

- **The generator's helper functions.** These are `clientsetname`,
  `allsynced` and `anyresourcewithdelete`, defined over the configuration
  datatypes `Resource`, `Api`, `Clientset` and `Config`. The model also covers
  the import block's decisions that rest on them: whether the typed API
  package is imported, and under which aliases.
- **The per-resource runtime logic fixed by the template text.** The
  template decides:
  - which informer handlers are registered, from the Create, Update and
    Delete flags;
  - what `AddFunc` and `UpdateFunc` add to the queue;
  - how `DeleteFunc` resolves its payload (typed object, tombstone, or
    dropped) and calls `<Name>Deleted` without using the queue;
  - how `process<Name>` turns a key into a lister lookup for the resource's
    scope;
  - which queue calls `processNext<Name>` makes (`Get`, then `Forget` and/or
    `Done`);
  - how `run<Name>Worker` repeats `processNext<Name>` until the queue shuts
    down.

Module layout:

- `strings.dfy` (`Strings`): `strings.Join`, and a splitter that reads a
  `", "`-joined list back.
- `config.dfy` (`GenConfig`): the configuration datatypes, and the resources
  in the order the template's nested `range` loops visit them.
- `funcmap.dfy` (`FuncMap`): the three helpers and the import aliases.
- `collaborators.dfy` (`Collaborators`): the outside code the generated
  controller calls. Each piece is an uninterpreted total function: the key
  function, the key splitter, the listers and the user's handlers.
- `events.dfy` (`Events`): handler wiring, and `DeleteFunc`'s payload
  resolution.
- `dispatch.dfy` (`Dispatch`): `process<Name>`.
- `worker.dfy` (`Worker`): the queue as an object that records every call
  made on it, `processNext<Name>`, `run<Name>Worker`, and the informer
  handlers acting on the queue.

The queue stands for client-go's rate-limiting workqueue. Its values for
`Get` are fixed in advance in the field `answers`. The model assumes nothing
about the queue beyond recording calls.

On an error, `processNext<Name>` calls only `Done`: the key is neither
forgotten nor re-added with `AddRateLimited`, unlike client-go's usual
controller pattern, which re-adds it rate-limited. `WorkerNeverRequeues` and
`ProcessNextStep` state this. `DeleteFunc` calls `<Name>Deleted` directly,
and a key that is no longer in the lister is an error from `process<Name>`.

The import block writes the built-in core group's aliases as `corev1` and
`corelisterv1`, while the handlers and the struct name them
`core<Version>` and `corelister<Version>`. `ImportAliasesMatchUse` shows
that the two agree exactly when that group's version is `"v1"`.

## Model

| member | source | states |
|---|---|---|
| `Strings.SplitEntriesJoin` | kube-controller-gen.go:345 | splitting a `", "`-join of one or more comma-free entries gives back exactly those entries, in order |
| `Strings.SplitListJoin` | kube-controller-gen.go:345 | the same round trip for any list of non-empty comma-free entries, including the empty list (joined to `""`) |
| `GenConfig.ApiResourcesAppend` | kube-controller-gen.go:339-343 | the resources of two runs of APIs are listed first run first, each in declaration order |
| `GenConfig.ClientsetResourcesAppend` | kube-controller-gen.go:338-344 | the resources of two runs of clientsets are listed first run first: the configuration order is kept |
| `GenConfig.InAllResources` | kube-controller-gen.go:338-344 | a resource is visited iff some API of some clientset declares it (both directions) |
| `FuncMap.ClientsetName` | kube-controller-gen.go:329-335 | the result is `"Kubernetes"` iff the clientset is named `"kubernetes"`; otherwise it ends in `"Client"`, preceded by the titled name |
| `FuncMap.ClientsetNameCollision` | kube-controller-gen.go:329-335 | two clientsets get the same field name only if both are the built-in one or `Title` maps their names together |
| `FuncMap.SyncNamesRoundTrip` | kube-controller-gen.go:336-346 | with comma-free resource names, the joined list reads back as exactly one `c.<Name>Synced` per resource, in order |
| `FuncMap.AllSynced` | kube-controller-gen.go:336-346 | the result is the `", "`-join of `c.<Name>Synced` for every resource, clientset by clientset, API by API, in configuration order; it is `""` when there are no resources; when no resource name holds a comma, it reads back one entry per resource |
| `FuncMap.AnyResourceWithDelete` | kube-controller-gen.go:347-354 | true iff some resource of the API has Delete set; false iff every resource has Delete unset, so false for an empty list |
| `FuncMap.ImportAliasesMatchUse` | kube-controller-gen.go:84-103 | the typed API package is imported iff some resource of the API has Delete set, so gets the `DeleteFunc` (lines 165-188) that names it; the typed and lister aliases imported equal the qualifiers `DeleteFunc` (line 167) and the struct (line 124) use iff the API is not the built-in core group or its version is `"v1"` |
| `Events.ResolveDelete` | kube-controller-gen.go:166-180 | a typed object resolves to itself; a tombstone around a typed object resolves to that object; any other value is "not a tombstone"; a tombstone around anything else is "wrong kind" |
| `Events.DeletionRecoversObject` | kube-controller-gen.go:166-180 | a deletion reported as the object or as a tombstone around its last state resolves to that same object |
| `Events.NestedTombstoneDropped` | kube-controller-gen.go:170-179 | a tombstone inside a tombstone is not unwrapped twice: it is dropped |
| `Events.OnEvent` | kube-controller-gen.go:150-189 | a notification whose flag is off has no handler; Add and Update enqueue exactly the key of the added object or of the new object when the key function succeeds, and do nothing else (no log) iff it fails; a deletion never enqueues; `Deleted` is called iff Delete is set and the payload resolves, with the resolved object, and the payload is dropped with a log line iff Delete is set and it does not resolve |
| `Events.DeletionReachesHandler` | kube-controller-gen.go:166-187 | with Delete set, a deletion reported either way calls `Deleted` with the deleted object, bypassing the queue |
| `Dispatch.Process` | kube-controller-gen.go:287-318 | a key split error happens iff the scope is exactly `"Namespaced"` and the split fails; namespaced keys are looked up by the split namespace and name, and other scopes use the whole key as the name; the handler's error is the result |
| `Dispatch.Classify` | kube-controller-gen.go:294-303 | the handler runs iff the lister finds the object; not-found and other lister errors each end processing, with the handler not called |
| `Dispatch.HandlerRunsIffFound` | kube-controller-gen.go:287-318 | `CreatedOrUpdated` is called iff the key could be used and the lister found an object, and then only on that object |
| `Dispatch.ClusterScopeIgnoresSplit` | kube-controller-gen.go:304-316 | for any scope other than `"Namespaced"`, the outcome does not depend on the key splitter and is never a split error |
| `Dispatch.FailureCases` | kube-controller-gen.go:287-318 | processing succeeds iff the lister finds an object and `CreatedOrUpdated` returns nil for it |
| `Worker.ProcessNextStep` | kube-controller-gen.go:254-285 | on shutdown, the result is false and nothing follows `Get`; otherwise the result is true, whatever the handler result. After `Get` there is an optional `Forget`, then exactly one `Done` of the item. `Forget` happens iff the item is not a string or processing succeeded. The handler is called once iff processing reached a found object. Exactly one error is reported if the item is not a string or processing failed, and none otherwise |
| `Worker.ResourceWorker.ProcessNext` | kube-controller-gen.go:254-285 | the queue calls, handler calls, reported errors and result are exactly those of `ProcessNextStep` for the answer `Get` returned |
| `Worker.ResourceWorker.RunWorker` | kube-controller-gen.go:249-252 | the worker makes exactly the calls of consecutive `processNext` steps, up to and including the one that sees shutdown; the answers after that shutdown are left untouched |
| `Worker.ResourceWorker.Notify` | kube-controller-gen.go:150-189 | a notification adds a key to the queue only through `AddFunc`/`UpdateFunc`; `Deleted` calls and logged errors follow `OnEvent` |
| `Worker.WorkerMarksEveryItemDone` | kube-controller-gen.go:249-285 | over a worker's life, the items marked `Done` are exactly the items received before shutdown, once each and in order |
| `Worker.DoneItemsOfStep` | kube-controller-gen.go:260-277 | one step with an item marks exactly that item `Done`, once |
| `Worker.WorkerNeverRequeues` | kube-controller-gen.go:271-282 | a worker never calls `Add` or `AddRateLimited`, so a key whose handler failed is not re-added |

## Left out

- `main`'s flag parsing, file reading, YAML unmarshalling, template execution and file writing (lines 43-61, 357-366) are I/O and foreign libraries.
- The `title` helper is `strings.Title`. It is the uninterpreted parameter `title`, and no property of it is assumed.
- The template's text output is not modelled: package, import paths, struct fields, informer construction, resync period. The exceptions are the decisions named in the table.
- `Initialize`'s panic when a clientset field is nil (lines 136-138) is not modelled. Neither is its construction of informers, listers and queues (lines 139-148).
- `Start` and `Run` (lines 198-243) are not modelled: goroutines, signal handling, `wait.Until`, `WaitForCacheSync` and the queues' deferred `ShutDown` (lines 219-220). In particular, not modelled: workers start only after the cache sync check succeeds (lines 225-235), and each queue is shut down when `Run` returns.
- client-go internals are not modelled: the workqueue's coalescing and rate limiting, informers, listers, `SplitMetaNamespaceKey`, `MetaNamespaceKeyFunc` and `errors.IsNotFound`. They are uninterpreted functions in `Collaborators.Env`, or the queue's pre-given `answers`.
- `Worker.ResourceWorker.ProcessNext`: `Get` blocks until it has an item or shuts down. The model therefore starts a step only when the next answer is present (`requires queue.answers != []`).
- `Worker.ResourceWorker.RunWorker`: the Go loop ends only when `Get` reports shutdown. The model covers only runs where that happens (`requires ShutdownAhead(queue.answers)`).
- The values rendered with `%+v` and `%#v` are an abstract string. For a non-string item it is the `shown` field. `DeleteFunc`'s two drop messages omit the rendered payload.
- `runtime.HandleCrash` and panics inside handlers are not modelled.
- Concurrency is not modelled: several workers, and informer handlers running beside the worker. The model is sequential.
