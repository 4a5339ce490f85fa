# Open MCT "My Items" interceptor and annotations view rules, in Dafny

This project models two small decision components of Open MCT's plugin layer.

- The **My Items interceptor** (`src/plugins/myItems/myItemsInterceptor.js`). The factory captures a canonical folder record built from a configured identifier and name: type `folder`, no composition, location `ROOT`. `appliesTo` matches an identifier by key and namespace. `invoke` returns the looked-up object untouched, unless it is absent or the object service classifies it as missing. In that case it saves the canonical record and returns it. The interceptor's priority is the host's `HIGHEST`.
- The **annotations view provider's rules** (`src/plugins/inspectorViews/annotations/AnnotationsViewProvider.js`). `canView` decides whether the annotations inspector view is offered for a selection. The view's `priority` picks one of three host levels.

Files:

- `wrappers.dfy`: the `Option` type, for values the source reads with optional chaining.
- `domain.dfy`: identifiers, locations, domain objects and the host's priority levels.
- `my_items.dfy`: the interceptor. `ObjectStore` stands for the host's object service. It holds the `isMissing` classifier as an input and the log of saved objects. `MyItemsInterceptor` is a class with immutable configured fields. Its `Invoke` method appends to that log. The pure function `Resolve` specifies `Invoke`, and lemmas about repeated calls and round trips are stated over it.
- `annotations.dfy`: `CanView` and `ViewPriority` as pure functions. The host's answers are inputs: available tags, annotatable types, telemetry metadata, numeric telemetry and the editing flag. A selection is a sequence of paths. Each path is a sequence of elements, and each element may lack a context. A nullish selection is modelled by the empty sequence. A nullish element and an element without a context are both modelled by `None`, which leads to the same outcome as an empty selection.

Three points of the source worth noting:

- `invoke` does not await `save`. The model records the call and nothing more.
- `invoke` does not check `appliesTo` itself, so `Invoke` has no such precondition.
- The priority is the host's `HIGHEST` level, not a numeric maximum.

## Model

| member | source | states |
|---|---|---|
| MyItems.MyItemsInterceptor.constructor | src/plugins/myItems/myItemsInterceptor.js:23-48 | the captured model has the configured identifier and name, type `folder`, empty composition and location `ROOT`; the priority is `HIGHEST` |
| MyItems.MyItemsInterceptor.AppliesTo | src/plugins/myItems/myItemsInterceptor.js:33-38 | true exactly when the identifier equals the configured one field by field (key and namespace), and nothing else matters |
| MyItems.MyItemsInterceptor.Invoke | src/plugins/myItems/myItemsInterceptor.js:39-47 | the result and the new save log are those `Resolve` gives: on an absent or missing object one save of the canonical record, which is returned; otherwise the object is returned and the log is unchanged |
| MyItems.ObjectStore.Save | src/plugins/myItems/myItemsInterceptor.js:41 | a save appends exactly the saved record to the store's log |
| MyItems.Resolve | src/plugins/myItems/myItemsInterceptor.js:39-47 | on the provisioning branch the result has the configured identifier and name, type `folder`, empty composition and location `ROOT`, and is saved exactly once; otherwise the looked-up object is returned unchanged with no save |
| MyItems.ResolveIgnoresIdentifier | src/plugins/myItems/myItemsInterceptor.js:39-47 | the outcome does not depend on the identifier argument |
| MyItems.ResolveRoundTrip | src/plugins/myItems/myItemsInterceptor.js:40-46 | a provisioned record fed back in is returned unchanged with no further save, when the store does not classify it as missing |
| MyItems.ReplaySavesOncePerProvisioning | src/plugins/myItems/myItemsInterceptor.js:40-43 | over any sequence of calls, the number of saves equals the number of calls that take the provisioning branch, and every save is the canonical record |
| MyItems.ReplayAllMissing | src/plugins/myItems/myItemsInterceptor.js:24-43 | n calls that all find the object absent or missing save the same canonical record n times, with no deduplication |
| MyItems.ReplayAppend | src/plugins/myItems/myItemsInterceptor.js:40-46 | the saves of a run of calls followed by one more call are the run's saves followed by that call's saves, in call order |
| MyItems.InvokeTwice | src/plugins/myItems/myItemsInterceptor.js:39-47 | two `invoke` calls on one interceptor each return what `Resolve` gives, and the store's log grows by exactly the `Replay` of the pair; when both provision, both return the same canonical record and both are saved |
| Annotations.FirstContext | src/plugins/inspectorViews/annotations/AnnotationsViewProvider.js:33 | a context is found exactly when the outer and the first inner sequence are non-empty and the first element carries a context, and it is that context |
| Annotations.ValuesForHints | src/plugins/inspectorViews/annotations/AnnotationsViewProvider.js:43 | the values returned are exactly those of the metadata that carry every requested hint |
| Annotations.HasImagery | src/plugins/inspectorViews/annotations/AnnotationsViewProvider.js:42-43 | false when there is no metadata; otherwise true exactly when some value carries the `image` hint |
| Annotations.CanView | src/plugins/inspectorViews/annotations/AnnotationsViewProvider.js:31-48 | false with no available tags, on a layout item, while editing, or when there is no item at the first context (empty outer or inner selection, missing context); past those guards, true exactly when the type is annotatable, imagery is present, the item has numeric telemetry or the context is a notebook entry |
| Annotations.ViewPriority | src/plugins/inspectorViews/annotations/AnnotationsViewProvider.js:52-89 | `HIGHEST` for a notebook-entry or clicked-on-image selection, whatever the item's type; otherwise `LOW` exactly when the item is a condition set, with a missing item not counting as one; `DEFAULT` in every other case |

## Left out

- The view's `show` and `destroy`, and the `_destroy` variable they share (AnnotationsViewProvider.js:50, 59-94). They mount and unmount a UI component.
- What `save` does in the store: persistence, asynchrony, failure and duplicate-create races. Only the call is recorded.
- How the host decides `isMissing`, stores tags, registers types, builds telemetry metadata and decides `hasNumericTelemetry`. Their answers are inputs.
- Annotations.ValuesForHints: the host's `valuesForHints` (called at AnnotationsViewProvider.js:43) is not part of this model. Its meaning here is assumed: the metadata values that carry every requested hint. `HasImagery` and `CanView` rely on that assumption. Any ordering of the matches is left out, because only their count is used.
- A registry that selects among interceptors by priority. No such code is part of this model.
- The numeric values and ordering of the host's priority levels, which the host defines.
- The view's `key` and `name` strings (AnnotationsViewProvider.js:29-30).
- Aliasing: `invoke` saves and returns the same captured object on every provisioning call, so a caller that mutated it would change later results. The model treats records as values.
- JavaScript truthiness beyond the modelled cases. The layout item is modelled by its truthiness alone. A looked-up object is either absent or a record.
