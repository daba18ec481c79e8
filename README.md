# nacos-grpc resolver: a Dafny model of the merge engine

This project models the gRPC name resolver that watches a Nacos naming
registry. It models the three core Go files, one Dafny module each:

- `watch.dfy` (module `Watch`, from `watch.go`) is the naming-source adapter.
  It holds the `Endpoint`, `Update` and `Instance` records and the
  `EndpointManager`. `NewManager` checks the manager's arguments.
  `NewWatchChannel` derives the listing query from the parsed target. It
  rejects an empty listing, and it turns the listed instances into the one
  initial batch. The subscription callback turns each reported instance into
  its own one-update batch.
- `resolver.dfy` (module `Resolver`, from `resolver.go`) is the merge loop.
  The class `Resolver` holds the key-to-update table (`allUps`) and the
  address lists handed to the client connection (`states`).
  `ProcessBatch` applies one batch in place: an empty address deletes its
  key, any other address upserts it. It then publishes exactly one snapshot.
  `Watch` runs that step for every batch received before the channel closes
  or the context is cancelled. The pure fold `ApplyBatches` specifies both.
  The main theorem, `TableHoldsLatest`, says that after batches 1..n the
  table holds exactly the keys whose latest update had a non-empty address,
  each mapped to that latest update. Snapshots are compared as multisets
  because a Go map iterates in no fixed order.
- `builder.dfy` (module `Builder`, from `builder.go`) covers the target
  derivation (the path, else the opaque part, with all `/` stripped from both
  ends), the mapping of failures to gRPC status codes in `Build`, `Scheme` and
  `NewBuilder`.
- `wrappers.dfy` (module `Wrappers`) holds `Option` and `Result`. They stand
  for Go's nil-able values and `(value, error)` returns.

Inputs from outside the core are parameters:

- URL parsing is a function `parse: string -> Result<ParsedTarget, Error>`.
  `ParsedTarget` holds the host and the `group_name` and `clusters` query
  values.
- The registry's listing call is a function
  `selectInstances: SelectParams -> Result<seq<Instance>, Error>`.
- The watch channel and the context are a sequence of events,
  `Received(batch)` or `Cancelled`. The end of the sequence is the channel
  being closed.
- Go errors are their message strings.
- Instance metadata is an opaque type parameter `M`.

Behaviour of the code worth knowing:

- The table key is the instance's service name (watch.go:78 and
  watch.go:106), so every instance of one service collapses to a single
  table entry and a single published address, provided the last listed
  instance has an IP. `SingleServiceCollapses` states this.
- The published address is the instance's IP alone. The code does not add
  the port.
- The subscription callback never produces a removal for an instance that
  has left the registry: it only translates the instances it is given. A
  reported instance with an empty IP does become a removal of its service's
  key (watch.go:107), but when every reported instance has an IP, no key
  leaves the table. `CallbackNeverRemoves` states this.
- Failures are the underlying errors, not a typed taxonomy. A parse error and
  a listing error are returned as they are. An empty listing is the error
  "no instance found".
- builder.go:31 calls `NewManager` with three arguments, but watch.go:36
  declares two. The model uses the two-argument check, so the builder's
  group takes no part in a build.

## Model

| member | source | states |
|---|---|---|
| `Watch.InstanceUpdates` | watch.go:75-82 | the initial batch has one update per listed instance, in listing order, with key = service name, address = IP and metadata passed through |
| `Watch.CallbackBatches` | watch.go:104-110 | a callback yields one single-update batch per reported instance, in callback order, with the same field mapping |
| `Watch.WatchChannelOutcome` | watch.go:52-89 | a parse error is returned as it is; a listing error is returned as it is; an empty listing gives "no instance found"; otherwise the channel holds exactly one batch, which is non-empty and is the translated listing |
| `Watch.TranslateInstances` | watch.go:75-82 | the append loop builds exactly the initial batch `InstanceUpdates` |
| `Watch.SubscribeCallback` | watch.go:100-111 | for a callback without error, the loop sends exactly `CallbackBatches(services)`, one batch per instance, in order |
| `Watch.EndpointManager.constructor` | watch.go:45-48 | a new manager holds the given client and target, and no parsed URL yet |
| `Watch.EndpointManager.NewWatchChannel` | watch.go:52-89 | the result is `WatchChannelOutcome`, whose listing query is the host, the `group_name` value, a one-element cluster list holding the `clusters` value, and healthy-only; on a parse failure the stored URL is unchanged, otherwise it is the parsed URL |
| `Watch.NewManager` | watch.go:36-50 | a nil client fails with "invalid client"; otherwise an empty target fails with "invalid target"; otherwise a fresh manager holds both unchanged |
| `Resolver.ApplyUpdate` | resolver.go:35-39 | an empty address removes the key, and removing an absent key changes nothing; a non-empty address maps the key to the update, replacing any earlier entry; every other key is untouched; the well-formed-table invariant is kept |
| `Resolver.ApplyBatch` | resolver.go:34-40 | applying a batch keeps the invariant that every entry sits under its own key and has a non-empty address |
| `Resolver.ApplyBatches` | resolver.go:25-45 | applying a sequence of batches keeps the same invariant |
| `Resolver.LastIndexOf` | resolver.go:34-40 | the latest update for a key: it names the key and no later update does; -1 exactly when no update names the key |
| `Resolver.ApplyBatchLatest` | resolver.go:34-40 | within a batch the latest update for a key decides it (kept as before if none, removed if its address is empty, else mapped to it), so a later duplicate overrides an earlier one |
| `Resolver.UntouchedKeysKept` | resolver.go:34-40 | keys that no update of a batch names keep their previous entries |
| `Resolver.ApplyBatchAppend` | resolver.go:34-40 | applying two update runs one after the other is applying their concatenation |
| `Resolver.ApplyBatchesFlatten` | resolver.go:25-45 | batch boundaries do not affect the table: batches 1..n act as all their updates in order |
| `Resolver.TableHoldsLatest` | resolver.go:24-45 | after batches 1..n from the empty table, a key is present exactly when its latest update has a non-empty address, and it then maps to that latest update |
| `Resolver.Snapshot` | resolver.go:48-57 | a snapshot has exactly as many addresses as the table has entries |
| `Resolver.SnapshotRemove` | resolver.go:50-56 | whichever entry is taken first, the snapshot is that entry's address and metadata plus the snapshot of the rest, so there is one address per entry |
| `Resolver.SnapshotMembers` | resolver.go:50-56 | an address is in the snapshot exactly when some entry's address and metadata give it |
| `Resolver.SnapshotAddrsNonEmpty` | resolver.go:35-38 | every published address of a well-formed table is non-empty |
| `Resolver.Delivered` | resolver.go:25-33 | the batches the loop applies are exactly the received batches before the first cancellation; a shorter prefix stops only at a cancellation |
| `Resolver.DeliveredEnds` | resolver.go:26-32 | the loop ends exactly after the delivered batches, on a closed channel or on cancellation |
| `Resolver.SnapshotsAfter` | resolver.go:42-43 | there is one published snapshot per delivered batch |
| `Resolver.SnapshotsAfterAt` | resolver.go:42-43 | the n-th published snapshot is the snapshot of the table after batches 1..n |
| `Resolver.PublishedHoldsLatest` | resolver.go:34-43 | an address is in the n-th published snapshot exactly when some key's latest update in batches 1..n is not a removal and is published as that address |
| `Resolver.ConvertToGRPCAddress` | resolver.go:48-58 | the map loop yields one address per entry, with address and metadata copied; as a multiset the result equals `Snapshot` |
| `Resolver.Resolver.constructor` | builder.go:24-28 | a new resolver holds the given client and target, an empty table and nothing published |
| `Resolver.Resolver.ProcessBatch` | resolver.go:34-43 | the batch is applied in order (the table becomes `ApplyBatch` of the old table); then exactly one address list is appended to what was published before, and it is the snapshot of the new table |
| `Resolver.Resolver.Watch` | resolver.go:21-46 | starting from an empty table, the final table is the fold of the delivered batches and keeps the invariant; one publish per delivered batch is appended after the earlier ones, each the snapshot after that batch; nothing is published for batches after a cancellation |
| `Resolver.SingleServiceCollapses` | watch.go:75-82 | when all listed instances belong to one service and the last one has a non-empty IP, they share the service name as key, so the initial listing leaves a single entry, the last listed instance |
| `Resolver.CallbackUpdatesInOrder` | watch.go:104-110 | the updates a callback sends, batch after batch, are the instances' updates in callback order |
| `Resolver.CallbackNeverRemoves` | watch.go:104-110 | when every reported instance has a non-empty IP, no callback batch removes a key from the table |
| `Resolver.RemoveThenAddScenario` | resolver.go:34-40 | initial `a`, then a batch removing `a` and adding `b`, leaves only `b` |
| `Builder.Builder.Scheme` | builder.go:45-47 | the scheme is always "nacos" |
| `Builder.NewBuilder` | builder.go:50-52 | creating a builder always succeeds and stores the client and group |
| `Builder.TrimLeft` | builder.go:23 | the result is a suffix of the input; only slashes were removed; it does not start with a slash |
| `Builder.TrimRight` | builder.go:23 | the result is a prefix of the input; only slashes were removed; it does not end with a slash |
| `Builder.TrimBothPads` | builder.go:23 | trimming the front and then the back leaves the input with only slashes removed before and after |
| `Builder.Trim` | builder.go:23 | the result neither starts nor ends with a slash, and the input is the result with only slashes added at either end |
| `Builder.TrimUnique` | builder.go:23 | any string without an edge slash that the input pads with slashes is the trimmed input |
| `Builder.TrimIdempotent` | builder.go:23 | trimming twice equals trimming once |
| `Builder.TargetOf` | builder.go:19-23 | the target is the URL path with its edge slashes removed, or the opaque part when the path is empty; it neither starts nor ends with a slash |
| `Builder.Build` | builder.go:18-42 | a nil client or an empty derived target fails with InvalidArgument; a watch-channel failure fails with Internal; in both cases no resolver is returned; on success a fresh resolver holds the builder's client, the derived target and the channel with the initial batch; the group is not used |

## Left out

- Goroutines, channels, `select`, context cancellation and `sync.WaitGroup` are not modelled as concurrency. The stream is a sequence of events and the publishes are an appended sequence.
- `Close` (resolver.go:64-67) cancels the context and waits for the loop. Only its effect on the loop is modelled, as the `Cancelled` event.
- `Build` does not start `Watch` (builder.go:40-41). The loop is the separate method `Resolver.Resolver.Watch`. The `ctx` and `cancel` fields are not modelled.
- `ResolveNow` (resolver.go:62) is an empty method with no contract, because it does nothing.
- The `Subscribe` call and its parameters (watch.go:96-99), the wait on the context and the closing of the channel (watch.go:94, watch.go:116) are registry I/O and goroutine plumbing and are not modelled. Only the callback's translation is.
- The panics on a callback error and on a `Subscribe` error (watch.go:101-103, watch.go:113-115) are left out. `Watch.SubscribeCallback` models the error-free callback only.
- `url.Parse`, `Query()` and `SelectInstances` are library or foreign calls. They are function parameters, so the model does not say what host the parse of a trimmed target yields.
- `status.Errorf` message formatting is left out. A status is its code and the wrapped error.
- The gRPC `ClientConn` is not modelled. The `states` field records what `UpdateState` received.
