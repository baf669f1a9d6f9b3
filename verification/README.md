# Verification of the traefik-kop publisher

This project models the part of traefik-kop that keeps a Traefik configuration mirrored in a shared, expiring
Redis database, and proves what the publisher promises about it. `dafny verify dfyconfig.toml` checks everything.

## What is modelled

* `Paths`, `Values`, `Flatten`, `FlattenFacts`, `Walk`: the flattener of `kv.go`. Reflected values are a datatype;
  the walk is a class with a mutable map, proved to add exactly the keys of a pruned shape, in any map order.
  `Roundtrip` inverts it with a decoder that knows only the types.
* `Config`, `Published`, `Spelling`: the configuration (routers, services with load balancers, middlewares, the rest
  as fields), where the keys of a name live, and that prefix deletion hits exactly them; the keys, set names and
  field rules written out.
* `Redis`: string keys with deadlines, sets and a clock, as a value with the commands' effects and as a client object.
  The client records every command that may be refused, with its outcome.
* `Plan`, `Removal`, `ClosedForm`, `Sending`, `Store`: `store` as a sequence of commands. `RedisStore` is proved,
  method by method, to execute a prefix of that sequence that ends early only at a refused command; a successful run
  of it is one closed-form update.
* `Ownership`, `KeepAlive`, `Ttl`, `CleanRuns`: what holds over whole runs of stores cut anywhere, renewals,
  restarts, expiry and lost keys. `Leak`, `Silent`: how keys are lost sight of, and exactly when. `Failure`,
  `Retries`, `Republication`, `FaultyRuns`: where a failing store stops, what a retry finds, and runs with failures.
  `Inputs`: two concrete runs in which keys are lost sight of.
  `Start`: runs may begin with nothing published.
* `Serial`, `Latency`, `Interleaving`: goroutines, the mutex and everything outside it, command by command; expiry
  when calls are slow, and tracking when keys vanish between commands. `Hosts`, `Collision`: several hosts in one
  database.
* `Docker`, `Rewrite`, `Readback`, `Services`, `Merge`, `Refresh`: container lookup, port and address resolution,
  load-balancer merging and the configuration handler that runs them before a store. `Labels`, `Addresses`: which
  labels and bindings decide, and what each server becomes, written out.
* `Cache`, `Polling`: the docker cache and the polling supervisor.

## Assumptions

* Names contain no slash and stay distinct within their map once `@docker` is stripped (`Wf`). Percent signs and
  glob characters in names are outside the model: `KV.add` uses the path as a format string, and KEYS would read
  the others as patterns.
* The http, tcp and udp sections are present. Field names of Traefik's configuration types are written out where
  the publisher depends on them (`services`, `loadBalancer`, `servers`, `url`, `address`, ...); those types are
  not part of this model, and their other fields are arbitrary.
* A TTL is a natural number; the source treats a negative one like 0.
* SET, EXISTS, the PEXPIRE pipeline and the reads of `Gets` may fail at any time; the other Redis commands succeed,
  except for UNLINK without keys and RENAME of a missing set, which fail as in Redis. A failed SET writes nothing.
* Within one operation of a host the sets of that host are changed by nobody else.
* Where a row says so, a dropped name differs up to `@docker` from the configured names (`Apart`) and from names left
  in a temporary set (`LeftApart`): the keys of `a@docker` are those of `a`, so dropping the one deletes the other's.
* Theorems about several hosts ask for disjoint stripped names, for no common key outside the tracked areas
  (`Neighbour`), and that other hosts track no name of this one (`OthersApart`).
* What `net/url` and `net.SplitHostPort` return are parameters. Clock readings, Docker's answers, reply orders,
  map iteration orders and time stamps are arbitrary.

## Findings

* `removeKeys` stops at a dropped name without live keys. `RemovalCompleteIff`, `ClosedFormIff` and `OwnershipIff`
  give the exact condition under which a store still does all it should: of each set's dropped names, all or none
  have keys. Otherwise keys can stay that nothing tracks any more (`MixedDropLeaks`). This is reached
    * without any failure, by a name that publishes nothing, such as a headers middleware with only an empty header:
      two successful stores on an empty database suffice (`FailureFreeLeak`). `TwoStoresIff` says exactly when for two
      configurations, `CleanStoresIff` for a store of a run without failures; if every dropped name had published a
      key it does not happen (`CleanStores`);
    * after a failed store, when the process's own KeepConfAlive re-publishes the older configuration before the retry
      and fails half-way (`FailedRestoreLeak`, `RepublicationLeaks`; exactly when: `RetryAfterCutIff`, `NextStoreIff`).
      Without a re-publication in between, storing the configuration again is covered (`RetriesCovered`, which also
      says what a complete re-publication needs), and so are whole runs with failures (`FaultyRuns`);
    * when keys of a name vanish while the removals go on (`OwnershipOverTraces` has the condition for each command).
* Different hostnames are not enough to keep hosts apart: each store of host `x` destroys the tracking sets of host
  `x_new` (`CollisionDestroys`, with the exact condition in `LeavesSetsAloneIff`).
* The TCP and UDP loops of `replaceIPs` carry a selected network address over to later services
  (`RewritingIndependentIff`, `CarriedAddress`).
* Without a TTL, lost keys come back only if the sentinel was lost with them (`RecoveryWithoutTtlIff`).
* `docker.go` says that the cache expires after 30 seconds; the code, and the model, use 5. The comment on `k` shows a
  key that ends in `@docker`; the code strips it (`KSpelled`).

## Model

| member | source | states |
|---|---|---|
| Walk.KV.Add | kv.go:28-47 | An empty value or a key under `traefik/tls/` changes nothing; any other key is set, every other entry kept. |
| Walk.KV.WalkTypedValue | kv.go:71-124 | The reflection walk adds to the mutable map exactly the keys of the pruned shape of the value; its boolean is true exactly when that shape is non-empty, so the `allowEmpty` marker is written only over a non-nil pointer to a struct that emits nothing; it fails exactly when some visited leaf cannot be rendered or a visited map has non-string keys. |
| Walk.KV.WalkStructValue | kv.go:126-163 | Same refinement for structs; what each kind of field contributes is in `Spelling.SkippedField`, `PlainField`, `OmitEmptyField` and `EmbeddedField`. |
| Walk.KV.WalkMapValue | kv.go:165-190 | Same refinement for maps, for any order in which the entries are visited; which keys those are is in `Spelling.EntryKeys`. |
| Walk.KV.WalkSliceValue | kv.go:192-211 | Same refinement for slices, with decimal indices as names. |
| Store.ConfigToKV | kv.go:51-59 | Returns the flattened map, independent of iteration order, or the error, exactly when the walk fails. |
| Paths.DecInjective | kv.go:201-208 | Different slice indices have different decimal names. |
| Paths.SplitJoin | kv.go:292-294 | Joining slash-free segments with `/` loses nothing: splitting gives them back. |
| FlattenFacts.NothingOverwritten | kv.go:71-211 | The number of keys equals the number of leaf positions that emit outside `traefik/tls/`, counted on the tree itself: no leaf overwrites another. |
| FlattenFacts.KeysPrefixFree | kv.go:84-100 | No emitted key is a `/`-ancestor of another. |
| Config.FieldsKidsAt | kv.go:126-163 | What a plain field of a struct contributes is found under its JSON name, and nothing else is. |
| Roundtrip.DecodeShape | kv.go:71-211 | At every level of a well-typed tree, decoding what it emits by type alone gives its pruned form, and that form is empty exactly when nothing is emitted. |
| Roundtrip.PathsOfKv | kv.go:41-44 | The published string keys, split into segments, are the shape of the configuration without its tls part. |
| Roundtrip.RoundTrip | kv.go:51-59 | Decoding the published map by type gives the original configuration with empty parts pruned, `@docker` stripped, and no tls part. |
| Roundtrip.SameMapSamePruned | kv.go:51-59 | Two configurations of one type with the same published map have the same pruned form outside tls. |
| Roundtrip.UnDecDec | kv.go:201-208 | Reading a decimal list index gives the index back. |
| Paths.GlobIsBelow | store.go:266-268 | The pattern `path/*` matches exactly the keys strictly below the path, for any key in the store. |
| Published.KIsNamePath | store.go:250-254 | `k(set, name)` joins the segments of the entry: `traefik`, protocol, kind and the bare name. |
| Paths.StripIsBare | docker.go:231-235 | One final `@docker` is taken off; a name without it is kept whole. |
| Spelling.KSpelled | store.go:248-254 | A name `n` and `n@docker` both have the path `traefik/<protocol>/<kind>/n`, written out. |
| Spelling.SetsSpelled | store.go:86-90 | The texts of the tracking set, the temporary set and the sentinel of a host. |
| Spelling.TrackedSets | store.go:135-142 | The eight tracked sets: every protocol and kind except UDP middlewares. |
| Spelling.PublishedKeySpelled | kv.go:165-190 | Every key published under `traefik/<protocol>/<kind>/` goes on with the bare name of a configured entry and a slash. |
| Spelling.RouterKey | kv.go:126-190 | The router `n` or `n@docker` publishes its service at `traefik/<protocol>/routers/n/service`. |
| Spelling.AddressKey | kv.go:126-211 | Server i of the service `n` or `n@docker` publishes its address at `traefik/<protocol>/services/n/loadBalancer/servers/i/url` (`address` for TCP and UDP). |
| Spelling.SkippedField | kv.go:130-138 | A field that is unexported or tagged `-` publishes nothing. |
| Spelling.PlainField | kv.go:296-317 | A field tagged `name`, or the Go name where the tag has none, publishes its value under that name, zero or not. |
| Spelling.OmitEmptyField | kv.go:139-142 | The same field with `omitempty` publishes nothing for a zero value and the same as before for every other value. |
| Spelling.EmbeddedField | kv.go:144-151 | An embedded struct publishes at the path of the struct around it. |
| Spelling.TextField | kv.go:296-340 | The three kinds of tag on a field with plain text: no key, `path/name` with the text, and with `omitempty` that key unless the value is zero. |
| Spelling.TagOption | kv.go:296-317 | The name is what stands before the comma or else the Go name; an option other than `omitempty` changes nothing. |
| Spelling.TagOptions | kv.go:309-314 | `omitempty` counts wherever it stands among the options. |
| Spelling.MarkerKey | kv.go:82-98 | `true` at the path itself, for a non-nil pointer to a struct that publishes nothing, when the field allows it, and only then. |
| Spelling.InterfaceKeys | kv.go:76-82 | An interface publishes what it holds, the marker included. |
| Spelling.NilKeys | kv.go:72-87 | A nil pointer, a nil interface and a value that is no data publish nothing. |
| Spelling.EntryKeys | kv.go:61-62 | A map entry is published under its key, bare at the nine places for routers, services and middlewares and whole everywhere else. |
| Spelling.FailsSpelled | kv.go:71-211 | What can fail: a leaf that cannot be rendered, a non-empty map whose keys are no strings, or something visited inside. |
| Spelling.FieldFails | kv.go:126-163 | A field that is left out cannot make the walk fail; one that is visited fails exactly when its value does. |
| Published.GlobIsUnder | store.go:250-268 | `k(set, name)/*` matches exactly the keys below the entry of that name. |
| Published.UnderUnique | store.go:250-254 | One key is claimed by at most one set, and in it by one name up to `@docker`. |
| Published.TrackedKeyHasName | kv.go:165-190 | Every published key in a tracked area lies strictly below one of the configured names. |
| Published.PrefixDeletionExact | store.go:250-274 | Of the published keys, `k(set, name)/*` selects precisely those emitted from that entry, with their values. |
| Published.SiblingSafe | store.go:256-275 | Removing a name never removes a key of another name, even when one name is a prefix of the other. |
| Redis.Client.Unlink | store.go:269-272 | UNLINK removes the keys; without keys it is an error. |
| Redis.Client.Rename | store.go:235-246 | RENAME replaces the target and removes the source; a missing source is the "no such key" error and changes nothing. |
| Redis.Client.PExpireAll | store.go:217-230 | A pipeline of PEXPIRE gives existing keys the TTL; a missing key stays missing and makes one reply false; a failed pipeline may have been applied in part. |
| Redis.SetLives | store.go:160 | A key that was set is there exactly as long as its TTL has not passed, or for ever without one. |
| Redis.RenewedLives | store.go:217-225 | A renewed key is there exactly as long as the new TTL has not passed; the others keep their deadline, and all their values. |
| Sending.FinishedIff | store.go:149-183 | Commands sent up to a refused SET make up the whole plan exactly when none was refused. |
| Store.SortedKeys | store.go:149-150 | The keys of the map in the order of `sort.Strings`. |
| Plan.SortedSeqIsSorted | store.go:149-150 | That order is lexicographic. |
| Plan.LexLeIs | store.go:149-150 | A prefix comes first; otherwise the first differing character decides. |
| Store.RedisStore.SwapKeys | store.go:235-246 | The temporary set replaces the tracking set; without a temporary set the tracking set is deleted. |
| Store.RedisStore.RemoveKeys | store.go:256-275 | KEYS and UNLINK per name, stopping at the first name without live keys. |
| Store.RedisStore.RemoveOldKeys | store.go:277-302 | Adds the new names to the temporary set, asks for the names to drop (minus any left in that set) and removes their keys. |
| Store.RedisStore.RemoveStaleServerKeys | store.go:304-326 | For every service, in any order, deletes the load-balancer entries that are not in the flattened map. |
| Store.RedisStore.WriteAll | store.go:149-162 | Sends the SETs in sorted order until one is refused, and fails exactly when one was: the commands recorded by the client are the accepted writes and then the refused one. |
| Store.RedisStore.StoreLocked | store.go:134-189 | The whole of `store`: the database is the one after a prefix of the command plan and the SETs sent are those of that prefix, followed by the refused one if the plan is not finished. It succeeds exactly when the configuration renders and nothing was refused; `lastConfig` changes only on success. |
| Store.RedisStore.Store | store.go:127-131 | As above, and on success the closed-form update, when of each set's dropped names all or none have keys. It succeeds exactly when the configuration renders and none of its commands was refused. |
| Store.RedisStore.KeepConfAlive | store.go:193-233 | Every outcome: nothing to do, failed check, renewal (complete or partial), re-publication after a lost sentinel or a lost key; `lastConfig` never changes. Before the first success nothing is sent; later the sentinel is asked for first, and the call succeeds exactly when nothing it sent was refused and the configuration renders, which is not needed with a live sentinel and no TTL. |
| Store.RedisStore.Get | store.go:92-101 | A missing key reads as the empty string, another key as its value; it is an error exactly when the one GET that is sent is refused. |
| Store.RedisStore.Gets | store.go:103-120 | All keys matching the pattern, each with its value; an error only when that KEYS or the GET of a matching key was refused, and always then. |
| Removal.RemovalCompleteIff | store.go:256-275 | `removeKeys` deletes all it was asked to, for every reply order, exactly when each of the names has a live key or none has. |
| Removal.MixedIncomplete | store.go:266-272 | Otherwise some reply order leaves keys behind. |
| ClosedForm.OwnKeysDistinct | store.go:88-90 | The sixteen set keys of one host are different. |
| ClosedForm.FailedStoreWritesSortedPrefix | store.go:149-162 | When of each set's dropped names all or none have keys, the removal phase and the first j SETs leave the dropped names gone and exactly the first j of the sorted keys written. |
| ClosedForm.StoreSets | store.go:171-178 | After a complete store each tracking set is the leftover of the temporary set and the new names, no temporary set is left, and every other set is as before, whether or not dropped names had keys. |
| ClosedForm.StoreClosedForm | store.go:134-189 | When of each set's dropped names all or none have keys, a successful store is one update: dropped names and stale server entries go, the flattened map and the sentinel are written with the TTL, every other key keeps value and deadline, the tracking sets become the new names. |
| Leak.ClosedFormIff | store.go:134-189 | A complete store is that update for every reply order exactly when of each set's dropped names all or none have keys, given that no dropped name equals a configured one up to `@docker`. |
| Failure.FailedStore | store.go:149-183 | A store that returns an error has stopped after some first j of the sorted keys, with the new names announced in the temporary sets, or with everything done but the sentinel. Of the older keys it has changed none and removed none but those of dropped names; all of these when of each set's dropped names all or none have keys. |
| Failure.FailureIsRetriable | traefik_kop.go:80-83 | When of each set's dropped names all or none have keys, no dropped name equals a configured one up to `@docker` and the temporary sets held no other configuration's names: however the store fails, storing the same configuration again has nothing left to remove. |
| Retries.RetriesCovered | store.go:134-233 | From there every attempt to store the same configuration meets the condition of the closed form and of the run theorems, over any number of further failures, time passing, lost keys and KeepConfAlive calls of the process, unless one of these fails while it re-publishes the older configuration. Where one succeeded, the older names that the configuration lacks must publish something and differ from its names up to `@docker`, and their keys must stay until the next attempt. |
| Retries.RetrySucceeds | store.go:134-189 | The attempt that succeeds is the closed-form update and leaves exactly its own names in the tracking sets. |
| Republication.FailureIsPending | store.go:134-162 | A store that fails before the swaps, on tracking sets of an older configuration, leaves those sets alone and the older names that it lacks without keys (same conditions as FailureIsRetriable). |
| Republication.RestoreFails | store.go:193-230 | A KeepConfAlive whose re-publication of the older configuration then fails before the swaps has stopped after some j SETs on top of that. |
| Republication.RetryAfterCutIff | store.go:193-230 | A KeepConfAlive that then re-publishes the older configuration and fails after j SETs: the retry is the closed-form update, for every reply order, exactly when in each set in which the retried configuration has no names the j keys include one of every older name or of none. |
| Republication.NextStoreIff | store.go:193-302 | And after a retry that was, the next store of the same configuration is, exactly when in each set in which it has names the j keys include one of every older name that it lacks or of none. |
| Republication.RepublicationLeaks | store.go:193-302 | So whenever the configuration lacks two older names that publish something, and has names wherever the older one has, some number of SETs and some reply order lead to a key that no tracking set covers, with every later store successful. |
| Inputs.FailedRestoreLeak | store.go:193-302 | The input: a fresh process on an empty database stores two middlewares, fails at the first SET of a configuration with two others, fails while KeepConfAlive re-publishes the first, and then stores the second twice with success: a key is left that no tracking set covers. |
| FaultyRuns.AlwaysSound | store.go:127-302 | Runs of stores that may fail at any SET and are retried until they succeed, re-publications, renewals, time passing, lost keys and flushes: at every point every live key of the instance in a tracked area is under a tracked name, and the tracking sets are those of the settled configuration. Of a stored configuration only the names that the next one drops must publish something and differ from its names up to `@docker`; after a failure or a loss the same configuration, or once the older one, is stored again before another; nothing is asked of the database at a store. |
| FaultyRuns.StoresCovered | store.go:134-189 | Every store of such a run that succeeds is the closed-form update. |
| FaultyRuns.KeepIsDeeds | store.go:193-233 | A KeepConfAlive is at most a renewal and one store of such a run, wherever that store is allowed. |
| Ownership.StorePrefixOwned | store.go:134-189 | A store stopped after any number of commands leaves every live key of this instance in a tracked area under a name in the tracking or temporary set, when of each set's dropped names all or none had keys. |
| Ownership.KeepIsRun | store.go:193-233 | Every KeepConfAlive is a renewal followed by a store, or part of that, so the run theorem covers it under the same condition. |
| Ownership.OwnershipOverRuns | store.go:134-302 | That holds at every point of every run of stores cut anywhere, retries, renewals, restarts, expiry, lost keys and flushes, as long as of each set's dropped names all or none have keys when a store begins. |
| Leak.MixedDropLeaks | store.go:256-302 | When one dropped name of a set has keys and another none, and no dropped name equals a configured one up to `@docker`, a reply order exists for which the complete store leaves a key of the first behind; and no tracking set covers it, if no dropped name equals one left in a temporary set either. |
| Leak.OwnershipIff | store.go:134-302 | Given that no dropped name equals a configured one, or one left in a temporary set, up to `@docker`: for every reply order a complete store keeps all live keys of the instance tracked exactly when of each set's dropped names all or none have keys. |
| KeepAlive.RunOnlyWrites | store.go:134-189 | After any commands each key is as before or as the plan wrote it, with the full TTL. |
| KeepAlive.FullStoreEffect | store.go:149-182 | A complete store leaves every key of the flattened map and the sentinel with the full TTL and neither creates nor changes any other string key, whatever was dropped. |
| KeepAlive.Recovery | store.go:193-233 | With a TTL, an error-free KeepConfAlive leaves everything of the last configuration present with the full TTL, from any loss, and creates and changes no other key. |
| KeepAlive.RecoveryWithoutTtl | store.go:201-209 | Without a TTL it restores everything when the sentinel was lost and does nothing otherwise. |
| KeepAlive.RecoveryWithoutTtlIff | store.go:201-209 | So all keys are back exactly when none was missing or the sentinel was missing too. |
| Ttl.NothingExpires | store.go:193-233 | In any run, whatever fails or is lost in it up to a flush of the database, time less than a TTL after the last success expires no key of the last configuration, nor the sentinel. |
| Ttl.FailedKeepHarmless | store.go:217-225 | A KeepConfAlive that fails while everything is present deletes nothing, changes no value and leaves each deadline or gives the full TTL. |
| Ttl.StoreCutKeeps | store.go:134-189 | A store, complete or cut anywhere, never deletes a key that its own configuration publishes, when no dropped name equals a configured one up to `@docker`. |
| Ttl.FailedKeepKeeps | store.go:193-233 | However much was lost and wherever a KeepConfAlive fails, it deletes no key of its configuration, and each keeps its deadline or gets the full TTL, when no dropped name equals a configured one up to `@docker`. |
| Ttl.StaysIntact | store.go:193-233 | Without outside deletions and failed stores, but with any failed renewals, all that was published is present at every moment while successes come less than a TTL apart. |
| Ttl.OneFailureTolerated | traefik_kop.go:142-147 | With the ticks of the renewal loop at most a third of the TTL apart, and stores and other renewals at any time in between, nothing published is ever gone as long as no two consecutive ticks fail. |
| Ttl.IntervalSpelled | traefik_kop.go:142-147 | The interval of the renewal loop is a third of the TTL, rounded down. |
| Latency.SlowCallsExpireNothing | store.go:193-233 | Over every trace of concurrent calls, with any time passing between commands: time less than a TTL after the last successful call got the mutex expires no key of the last configuration, nor the sentinel. |
| CleanRuns.CleanDropsLive | store.go:277-302 | In a clean state every name that a store drops still has a key, if each of these names had published one. |
| CleanRuns.StaysClean | store.go:134-233 | Runs of successful stores and any renewals, with nothing lost and time passing in time, stay clean: all that was published is there, the tracking sets are the names of the last configuration and nothing is left over. |
| CleanRuns.CleanStores | store.go:134-189 | A store of such a run is the closed-form update if every name it drops had published a key. |
| CleanRuns.CleanStoresIff | store.go:134-302 | In general it is, for every reply order, exactly when of the last configuration's names that it drops from each set all or none have keys, given that they differ from its own names up to `@docker`. |
| CleanRuns.DroppedNameGone | store.go:256-302 | A name dropped by a store that drops only names with published keys has no key left. |
| Silent.EmitsIff | kv.go:84-110 | A name publishes a key exactly when its entry is non-empty once pruned. |
| Silent.TwoStoresIff | store.go:256-302 | Two successful stores in a row, on a database without the names of the first: the second is the closed-form update, for every reply order, exactly when of the names it drops from each set all published a key or none did, given that they differ from its own names up to `@docker`. |
| Silent.SilentNameLeaks | store.go:256-302 | If one of them did and another did not, some reply order leaves a key of the first that no tracking set covers. |
| Inputs.FailureFreeLeak | store.go:266-302 | The input: a fresh process on an empty database stores two headers middlewares, one of them with only an empty header, and then a configuration without them; both stores succeed, nothing is lost, and a key is left that no tracking set covers. |
| Start.FromScratch | store.go:47-80 | A process that has published nothing, on an empty database, meets the starting condition of every theorem about runs. |
| Serial.CallIsStep | store.go:127-233 | Executed command by command without interruption, a call has exactly the effect that the methods of RedisStore promise. |
| Serial.MutualExclusion | store.go:127-131 | Only the owner of the mutex is inside a call. |
| Serial.Serializable | store.go:193-195 | Every interleaving of concurrent calls is a serial execution of the same calls in the order in which they got the mutex, with the same things happening outside: time, lost keys, flushes between calls, other hosts. |
| Serial.RepublishesLatest | store.go:193-207 | A KeepConfAlive that re-publishes does so with the configuration of the last completed Store. |
| Serial.NotResurrected | store.go:193-207 | Until another Store gets the mutex, this process creates no key outside the last stored configuration: dropped names are not resurrected. |
| Interleaving.PlanOrdered | store.go:134-183 | The commands of a store come set by set, each set's names before its removals, then the writes, the clean-up, one swap per set and the sentinel. |
| Interleaving.Advance | store.go:134-302 | One command of a store keeps every live key tracked and, until its swap, under a name about to be swapped in or removed, when each removal finds its name with keys or none of the names from there on with any. |
| Interleaving.OwnershipOverTraces | store.go:127-302 | Ownership over every trace of concurrent calls, with time passing and keys vanishing between any two commands, under that condition at each removal; outside, nobody writes this process's keys or changes its sets, but for a flush between calls. |
| Hosts.SetsDisjointIff | store.go:88-90 | Two hosts share no name set exactly when their names differ and neither is the other followed by `_new`. |
| Hosts.CollidingHosts | store.go:235-246 | Hosts `x` and `x_new` collide: the temporary set of the one is the tracking set of the other. |
| Collision.CollisionDestroys | store.go:171-178 | Any complete store of host `x` leaves no tracking set of host `x_new` and takes its names for its own. |
| Collision.LeavesSetsAloneIff | store.go:134-189 | No store of another host, complete or cut, ever changes a name set of this host exactly when the names differ and neither is the other followed by `_new`. |
| Hosts.KvDisjoint | kv.go:165-190 | Configurations with disjoint stripped names publish disjoint keys in the tracked areas. |
| Hosts.StoreUntouched | store.go:134-189 | A store of another host, complete or cut, leaves this host's keys, deadlines, sentinel and sets alone, when the stripped names of the two are disjoint, they publish no common key outside the tracked areas, and other hosts track no name of this one. |
| Hosts.KeepUntouched | store.go:193-233 | So does its KeepConfAlive, however it ends, under the same conditions. |
| Hosts.NonInterference | store.go:134-326 | After any sequence of operations of such other hosts, this host's keys, deadlines, sentinel and tracking sets are as if only time had passed. |
| Readback.GlobIsDeep | store.go:103-107 | The pattern `servers/*/url` selects the keys at least two segments below the server list that end in the address field. |
| Readback.StoreCleans | store.go:164-169 | A complete store leaves no load-balancer entry of its services that it did not write. |
| Readback.ReadBack | store.go:103-120 | After a successful store, reading a configured service's servers back gives exactly its non-empty addresses, each under the key of its position, whatever was published before. |
| Merge.MergeKeepsWf | traefik_kop.go:587-680 | The merged configuration is well-formed again. |
| Merge.MergedAddresses | traefik_kop.go:638-675 | A merged service lists the published addresses and its own, each once; with nothing published it keeps its list. |
| Merge.MergedRest | traefik_kop.go:643-675 | Of a service nothing but the server list changes. |
| Labels.WantsMergeSpelled | traefik_kop.go:616-623 | Merging is asked for by one of six true values of `kop.merge-lbs` or `traefik.merge-lbs`. |
| Spelling.MergedServerKey | traefik_kop.go:557-584 | A server added by the merge publishes its address and nothing else. |
| Merge.RoundAdds | traefik_kop.go:78-80 | One merge-and-store round publishes exactly what was published before and the host's own addresses. |
| Merge.RoundsAccumulate | traefik_kop.go:587-680 | Over any rounds by any hosts the published set is the initial one and everything the hosts brought; no address is lost. |
| Merge.RoundIdempotent | traefik_kop.go:587-680 | A round that brings nothing new leaves the set unchanged. |
| Refresh.Handler.FindContainer | docker.go:101-123 | A container matching the service or one of its routers, or none; the only possible one when the lookup is unambiguous. |
| Refresh.Handler.RewriteHttpServers | traefik_kop.go:321-355 | Each server in its place gets the host and port of its own container; what these are is in `Addresses.HttpAddress`. |
| Refresh.Handler.RewriteHttp | traefik_kop.go:316-366 | All HTTP services, in any order; the shadowed address never leaves its iteration. |
| Refresh.Handler.RewriteL4Servers | traefik_kop.go:373-387 | TCP and UDP servers of one service; the selected address is assigned to the outer variable and carried on. |
| Refresh.Handler.RewriteL4 | traefik_kop.go:368-412 | The TCP or UDP loop: each service gets the address carried to its position. |
| Refresh.Handler.ReplaceIPs | traefik_kop.go:314-413 | The three loops in turn; the address that leaves the TCP loop enters the UDP loop; routers and everything but addresses and ports stay. |
| Addresses.HttpAddress | traefik_kop.go:320-355 | On the rewritten configuration: the host is the first available of the label `kop.n.bind.ip`, `kop.bind.ip`, the network address and the bind IP; the port is the resolved one for the port of the URL (or of the server); the address is the URL with both put in, or the scheme (`http` by default), host and port. Nothing else of the service changes. |
| Addresses.L4Address | traefik_kop.go:368-412 | TCP and UDP servers: the port is the resolved one for the port of the server (or of its address), the address is the host and that port; the host is the last network address selected by a service with servers up to this one in the order, or the address before the loop. |
| Addresses.EachProtocol | traefik_kop.go:314-413 | The three loops of one configuration: TCP starts from the bind IP, UDP from the last address selected in the TCP loop. |
| Refresh.Handler.CollectAddresses | traefik_kop.go:643-668 | The published addresses and the own non-empty ones. |
| Refresh.Handler.ListServers | traefik_kop.go:670-675 | One fresh server per address, in any order. |
| Refresh.Handler.MergeService | traefik_kop.go:607-675 | One service: unchanged unless its container asks for merging, the published addresses can be read, there are some, and it has a load balancer. It counts as unread only when such a container asks for merging and Redis refused the KEYS or a GET of its pattern, and always then. |
| Refresh.Handler.MergeGenericLoadBalancers | traefik_kop.go:587-680 | All services of a protocol, in any order; some service is unread exactly when a read was refused, and each one because of its own pattern. |
| Refresh.Handler.MergeLoadBalancers | traefik_kop.go:557-584 | The three protocols; nothing but server lists changes. When Redis refuses nothing every service that asks for it is merged. |
| Refresh.Handler.Handle | traefik_kop.go:57-85 | Rewrite (unless disabled), merge, store: the stored configuration is the merge of the rewritten one with what was published when the call began, without exception when no read was refused. There is one call of Store, with that configuration, and it fails only when the configuration does not render or one of its commands was refused. |
| Refresh.RewriteKeepsWf | traefik_kop.go:314-413 | The rewritten configuration is well-formed again. |
| Refresh.HttpServersInPlace | traefik_kop.go:316-355 | HTTP: as many servers in the same order, each made from its own container alone (`Addresses.HttpAddress` says what it becomes). |
| Refresh.L4ServersInPlace | traefik_kop.go:368-412 | TCP and UDP: as many servers in the same order; each made from its own container alone when no address is carried over. |
| Rewrite.GetKopOverrideBinding | traefik_kop.go:532-552 | The per-service label if it is set, else `kop.bind.ip` if it is set, both as an override; otherwise the given address and no override. |
| Rewrite.HttpHostIsFirst | traefik_kop.go:321-327 | The host that the labels and networks give is the first available of per-service label, `kop.bind.ip`, network IP and bind IP. |
| Rewrite.IndependentIff | traefik_kop.go:368-412 | The loop alone: hosts depend on each service's own selection, in every iteration order, exactly when no service that selects another address than the bind IP can precede one that selects none. |
| Refresh.RewritingIndependentIff | traefik_kop.go:368-412 | For a configuration: whatever the iteration orders, each TCP and UDP server is made from its own container alone exactly when no service that selects another address than the bind IP can precede one that selects none. |
| Rewrite.NoSelectionIndependent | traefik_kop.go:498-522 | In particular when no TCP or UDP container selects a network IP. |
| Rewrite.CarriedAddress | traefik_kop.go:373-375 | A concrete pair of services for which the result depends on the iteration order. |
| Docker.GetRouterOfService | traefik_kop.go:420-449 | Some router of the service, in any order, or the empty name when there is none. |
| Docker.FindContainerByServiceName | docker.go:101-123 | Some container with a matching service or router label, in any order, or none when there is none. |
| Labels.MatchSpelled | docker.go:107-123 | A container matches by a label that begins with `traefik.<type>.services.n.`, or `traefik.<type>.routers.r.` for a router name that is not empty. |
| Labels.RouterOfService | traefik_kop.go:420-449 | The router is one of the same protocol that names the bare service. |
| Docker.GetServicePortBinding | docker.go:134-155 | For HTTP and TCP the first usable binding under `port/tcp`, for UDP under `port/udp`, runtime bindings before configured ones; empty when there is none, never `0`. |
| Docker.OtherTransport | docker.go:134-155 | What is bound for the other transport cannot change the answer. |
| Docker.BoundIs | docker.go:142-153 | The first usable of all bindings in order is the one of the runtime map if that has a port, else that of the configured map. |
| Docker.GetPortBinding | docker.go:168-204 | The single published port, or why there is none, whatever the iteration order. |
| Docker.GetContainerPort | traefik_kop.go:457-492 | The precedence of sources: a binding of the labelled or inferred port, the label, the sole published port, the inferred port (`Labels.ResolvesSpelled` writes them out). Only a container without usable binding and without label needs a HostConfig. |
| Labels.ResolvesSpelled | traefik_kop.go:457-492 | The same with the label `traefik.<type>.services.n.loadbalancer.server.port` and the port maps themselves. |
| Labels.SoleSpelled | docker.go:168-204 | The sole published port: the only configured binding, or else the first runtime binding of the only runtime port; more than one configured port or binding is ambiguous. |
| Docker.ResolvesUnique | traefik_kop.go:457-492 | That precedence has one answer per container and protocol. |
| Cache.NormaliseLabels | docker.go:87-92 | Every label key lower-cased, whatever the iteration order. |
| Cache.LowerSpelled | docker.go:89 | Each of the 26 capital letters becomes its small letter, and nothing else changes. |
| Cache.NormalisedUnique | docker.go:87-92 | With keys distinct after lower-casing the result is determined. |
| Cache.NormalisedAgain | docker.go:87-92 | Normalising again changes nothing. |
| Cache.DockerCache.Populate | docker.go:61-98 | It fails exactly when Docker refused a request of this call. After a success the cached IDs are exactly those that Docker listed, each entry is the result Docker gave in the current epoch with lower-cased label keys; nothing is listed or inspected twice in an epoch. An expired cache starts a new epoch and keeps nothing; within the lifetime list and entries stay; after a failure the expiry is unchanged. |
| Cache.DockerCache.Visit | docker.go:75-93 | One container: inspected only if it is not cached, failing exactly when Docker refuses that; cached entries stay as they are. |
| Cache.DockerCache.FindContainerByServiceName | docker.go:101-123 | The lookup in a freshly populated cache; it finds nothing exactly when Docker refused a request or no container matches. |
| Polling.PollingProvider.StartPollAttempt | polling_provider.go:76-98 | Cancels and stops the earlier attempts before the upstream is asked again, asks the upstream for each attempt exactly once, and counts the attempts. |
| Polling.PollingProvider.CancelActiveAttempt | polling_provider.go:100-113 | No attempt is live afterwards. |
| Polling.PollingProvider.Provide | polling_provider.go:40-73 | One attempt and then one KeepConfAlive per tick until the context is done, as recorded by the upstream and by the store, then no attempt is live; the database is the result of exactly those calls; a zero interval starts nothing. |
| Polling.AtMostOneLive | polling_provider.go:76-113 | In every state at most one attempt is live, the last one started. |
| Polling.EarlierOver | polling_provider.go:80-85 | In every state every attempt but the last has been cancelled and has stopped. |

## Left out

- Store.RedisStore.StoreLocked: errors of SADD, SMEMBERS, SDIFF, KEYS, UNLINK and of RENAME other than a missing key are not modelled; the source logs or ignores them.
- Store.RedisStore.Gets: nothing vanishes between KEYS and the GETs; the source would read such a key as empty.
- Ownership.OwnershipOverRuns: speaks of the eight tracked areas; other published keys (for example servers transports) are never deleted by the source and have no owner.
- FaultyRuns.AlwaysSound: while stores of a configuration fail, the older one is re-published at most once and completely; `RetriesCovered` has any number of complete re-publications, and what a failing one does is in `Republication`.
- Ttl.NothingExpires: is about a positive TTL; without one nothing expires.
- Serial.Serializable: the reply orders of a call are fixed when the call gets the mutex, as nobody else changes this host's sets while it is in progress.
- Merge.RoundsAccumulate: merge and store of one round are atomic; racing hosts, a host dropping the service and a re-store of an older list are outside.
- Readback.ReadBack: the fields of a server other than its address are plain values, as in Traefik's types.
- Refresh.Handler.ReplaceIPs: the container lookup is unambiguous and fixed during the call, load balancers are not nil, and a search for a port that gets as far as the sole published port finds a HostConfig (the source would dereference nil otherwise).
- Refresh.Handler.Handle: a failed store is reported, where the source panics; filtering by namespace is left out.
- Docker.FindContainerByServiceName: works on the cached details; refilling the cache during a lookup is in Cache.
- Polling.PollingProvider.Provide: the upstream provider and its goroutines are opaque; a stopped pool has ended.
- Pointers into a configuration (aliasing between the handler's copy, the provider's and `lastConfig`): configurations are values.
- `filterServices`: six copies of a one-step filter over an ambiguous lookup.
- Connection setup, Sentinel, TLS, `docker_proxy.go`, the command line, configuration loading, the multi-provider and the watcher: plumbing.
- Reflection itself, JSON and text marshalers and number formatting: the text of a leaf is given.
- Full Redis glob syntax and `%` formatting in keys: excluded by the assumption on names.
- Exact equality of the database with the configuration: fields that vanish from a kept name stay; the closed form says what happens instead.
- Logging.
