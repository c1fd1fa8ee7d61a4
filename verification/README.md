# Script invocation and compare-and-delete lock — a Dafny model

This project models two pieces of the redigo client that work together.

- `redis/script.go` defines the **script descriptor** `Script`. It is an immutable triple: key count, Lua source, and SHA-1 hash of the source. It also defines the invocation protocol. `Do` sends `EVALSHA <hash> ...` first. It falls back to `EVAL <source> ...` only when the store answers with a server error whose text starts with `"NOSCRIPT "`. `SendHash` and `Send` queue one command each. `Load` sends `SCRIPT LOAD`.
- `redis/lock_test.go` defines the **lock**. `tryLock` sends `SET key value EX 30 NX`. `UnlockScript` runs a two-key Lua script through `Script.Do`. The script deletes the key only when its value equals the owner token. `TestLock` runs one acquire/release scenario.

The store is abstract. `Store.Server` holds:

- a key space of string values, each with an optional expiry deadline; an entry is gone once the clock is past its deadline, and still there at the deadline itself;
- a script cache mapping hashes to sources;
- an integer clock.

`Store.Execute` answers the commands the core sends: `SET`, `SET ... EX n NX`, `GET`, `TTL`, `EVAL`, `EVALSHA` and `SCRIPT LOAD`. It runs one command at a time, so each command is atomic.

A `Store.Conn` adds a transport-fault oracle. Each round trip consumes one fault:

- deliver;
- lose the request, so the store never sees it;
- lose the reply, so the store ran the command but the client gets an error.

`Scripts.Do` is generic over the connection. It takes a state and a step function. `Store.RoundTrip` is the concrete step.

Arguments are strings or ints, the two kinds of Go value the core passes. The store reads them as wire text. An int becomes its decimal text, which redigo writes. The store parses integer arguments with a strict decimal parser. `Decimal` proves that writing and parsing are inverse.

Module layout, one module per file:

| file | module | covers |
|---|---|---|
| options.dfy | Options | Option / Result |
| decimal.dfy | Decimal | decimal text of integer arguments |
| protocol.dfy | Protocol | arguments, replies, errors, `redis.String` |
| scripts.dfy | Scripts | `Script`, `NewScript`, `args`, `Hash`, `Do`, `SendHash`, `Send`, `Load` |
| keyspace.dfy | Keyspace | entries with expiry, reads that skip expired entries |
| unlock_lua.dfy | UnlockLua | the unlock script's source, descriptor and semantics |
| store.dfy | Store | the abstract store, connections with faults, the clock |
| cache_protocol.dfy | CacheProtocol | `Do`, `Load` and the cache, against the store |
| lock.dfy | Lock | `tryLock`, `UnlockScript` |
| mutex.dfy | Mutex | mutual exclusion over interleavings |
| lock_scenarios.dfy | LockScenarios | `TestLock` and two further runs |

## Model

| member | source | states |
|---|---|---|
| Scripts.NewScript | redis/script.go:44-48 | the descriptor keeps the key count and source it was given, and its hash is the digest of the source |
| Scripts.NewScriptDeterministic | redis/script.go:44-48 | two descriptors built from the same source have the same hash, whatever their key counts; the hash is 40 characters |
| Scripts.Script.Hash | redis/script.go:65-68 | the hash a descriptor reports is the 40-digit digest of its source, for every descriptor NewScript builds |
| Scripts.Args | redis/script.go:50-63 | the argument vector starts with the script identifier; with a key count of zero or more it then has the count and the caller's values (length 2 + n); with a negative count it has only the caller's values (length 1 + n) |
| Scripts.Do | redis/script.go:74-82 | Do sends EVALSHA with the hash-based vector first; it sends a second command exactly when that reply is a NOSCRIPT server error; that command is EVAL with the source-based vector and the same count, keys and arguments; otherwise the first reply is returned unchanged; never more than two commands |
| Scripts.DoPassesThrough | redis/script.go:76-81 | any outcome of the EVALSHA attempt other than NOSCRIPT, error or not, is returned as it came, and only one command is sent |
| Scripts.TransportErrorNeverFallsBack | redis/script.go:77 | only a store error (`redis.Error`) can trigger the fallback, never a transport error, whatever its text |
| Scripts.SendHash | redis/script.go:87-89 | SendHash queues EVALSHA with the hash as identifier and the same layout as Do |
| Scripts.Send | redis/script.go:92-94 | Send queues EVAL with the source as identifier and the same layout as Do |
| Scripts.SendHashIsDoFirstAttempt | redis/script.go:87-89 | the command SendHash queues is the one Do tries first |
| Scripts.SendIsDoFallback | redis/script.go:92-94 | when the hash misses, the command Send queues is Do's fallback, with the same arguments after the identifier |
| Scripts.Load | redis/script.go:98-101 | Load sends SCRIPT LOAD with the source, drops the reply and reports an error exactly when the call failed |
| CacheProtocol.ParseEvalArgs | redis/script.go:56-61 | with a fixed key count, the store reads the vector back as the same identifier, the first keyCount values as KEYS and the rest as ARGV |
| CacheProtocol.ParseEvalArgsTooFew | redis/script.go:56-61 | a fixed key count larger than the values supplied is refused by the store before anything runs |
| CacheProtocol.ParseEvalCallerCount | redis/script.go:39-43 | with a negative key count, the store reads the caller's first value as the count and splits the rest by it |
| CacheProtocol.ParseEvalIgnoresSpec | redis/script.go:76-79 | the EVALSHA and EVAL vectors of one call differ only in the identifier, so the store reads the same keys and arguments from both |
| CacheProtocol.CachedNeverMisses | redis/script.go:84-89 | once the hash is cached, the EVALSHA that SendHash queues cannot be answered with NOSCRIPT |
| CacheProtocol.DoActsAsEval | redis/script.go:70-82 | on a reliable connection, with no other script cached under the hash, Do answers and changes the store exactly as one EVAL of the source would, cached or not |
| CacheProtocol.CacheMissFallsBack | redis/script.go:70-82 | on a reliable connection, a cache miss makes Do fall back to EVAL; Do answers what EVAL answers and leaves the source cached under the descriptor's hash |
| CacheProtocol.FallbackCaches | redis/script.go:70-73 | on a reliable connection, after a fallback the script is cached, so a following EVALSHA does not hit NOSCRIPT |
| CacheProtocol.LoadCaches | redis/script.go:96-101 | a delivered Load reports no error, caches the source under the hash and changes nothing else; a following EVALSHA of the script does not miss, whatever keys and arguments it carries |
| CacheProtocol.LoadLost | redis/script.go:98-100 | a Load whose request is lost returns the transport error and leaves the store unchanged |
| Decimal.ParseFormat | redis/script.go:59 | the key count the client writes as an int is read back by the store as the same integer |
| Decimal.FormatParse | redis/script.go:59 | every text the store accepts as an integer is exactly that integer's written form |
| Protocol.StringOf | redis/lock_test.go:25-26 | the string conversion of the SET reply succeeds exactly on a string reply; a nil reply becomes ErrNil; a call error passes through |
| UnlockLua.CompareAndDelete | redis/lock_test.go:14-22 | the script returns 1 and deletes the key exactly when KEYS[1] holds the value KEYS[2]; otherwise it returns 0 and the key space is unchanged |
| Lock.TryLock | redis/lock_test.go:24-34 | tryLock wins only with a nil error, and every error it reports is a real failure, never ErrNil |
| Lock.ExecuteSetNx | redis/lock_test.go:25 | SET key value EX 30 NX writes the value with a 30-second deadline when the key is free, and answers nil without writing when it is live |
| Lock.TryLockFree | redis/lock_test.go:24-34 | on an absent or expired key a delivered tryLock returns (true, nil) and stores key ↦ value with a 30-second lease |
| Lock.TryLockHeld | redis/lock_test.go:25-29 | on a live key a delivered tryLock returns (false, nil) and the store is unchanged |
| Lock.TryLockTransportError | redis/lock_test.go:30-32 | a connection failure is returned as (false, err) |
| Lock.TryLockFrame | redis/lock_test.go:24-34 | whatever the connection does, tryLock either changes nothing or writes only the lease entry under a free key; it wins only then; every entry it writes has an expiry |
| Lock.NoDoubleAcquire | redis/lock_test.go:61-87 | two tryLock calls on one key, at most a lease (30 seconds) apart, cannot both return true |
| Lock.Interpret | redis/lock_test.go:41-51 | UnlockScript reports a release exactly when the script returns integer 1; a call error or a non-integer reply is a fatal stop, never "not the owner" |
| Lock.UnlockCallParses | redis/lock_test.go:14-16 | the store reads the unlock call as KEYS = [key, value] with no ARGV |
| Lock.UnlockStepFrame | redis/lock_test.go:14-22 | one EVALSHA or EVAL of the unlock script either leaves the key space alone or deletes a key that held the caller's value; a NOSCRIPT answer changes nothing |
| Lock.UnlockScript | redis/lock_test.go:37-52 | whatever the connection does, unlocking deletes the key only when it held the caller's value at that moment, and leaves the clock alone; a reported release means the key held the value and was deleted; a reported refusal means the key did not hold the value and nothing changed |
| Lock.UnlockOutcomes | redis/lock_test.go:14-22 | a reply of 1 from the unlock run means the key held the value and was deleted; any other integer means the key did not hold the value and the key space is unchanged |
| Lock.UnlockReliable | redis/lock_test.go:37-52 | on a reliable connection, with no other script cached under the unlock script's hash, UnlockScript never stops; it releases exactly when the key holds the value, and leaves the script cached |
| Mutex.ReleaseUninterrupted | redis/script.go:74-82 | a release is two separate store steps, EVALSHA and then EVAL only after a NOSCRIPT answer; run back to back they end where UnlockScript ends, and the releasing client gives up its lease |
| Mutex.StepKeepsInv | redis/lock_test.go:24-52 | every acquire, release round trip (EVALSHA or its EVAL fallback) or clock step keeps this invariant: a client that believes it holds the lock has its token and deadline stored under the key, and a client waiting for its fallback holds nothing |
| Mutex.RunKeepsInv | redis/lock_test.go:24-52 | the invariant holds after any interleaving of steps |
| Mutex.MutualExclusion | redis/lock_test.go:24-52 | after any interleaving of single store steps, other clients' steps falling between a release's EVALSHA and EVAL, from a state where nobody holds the lock and no release is half done, at most one client holds it, and the store keeps that client's token |
| LockScenarios.ObserveReads | redis/lock_test.go:68-80 | the test's lower-case `get` and `ttl` are dispatched like GET and TTL: they read the live value (nil once the key is gone or expired) and the seconds left (-2 with no key), and change nothing in the store |
| LockScenarios.AcquireThenContend | redis/lock_test.go:61-101 | the first half of TestLock: a free key is won, a second tryLock one second later loses, and the reads show the owner's value with 29 and then 28 seconds left |
| LockScenarios.ImpostorThenOwnerRelease | redis/lock_test.go:103-141 | the second half, with no other script cached under the unlock script's hash: an unlock with the wrong value returns false and the entry keeps its value and deadline; the owner's unlock then returns true and the key is gone |
| LockScenarios.TestLock | redis/lock_test.go:54-142 | on a free key, with no other script cached under the unlock script's hash: tryLock(lock_val) is true; tryLock(lock_valss) is false; unlock(lock_valxx) is false and the entry survives; unlock(lock_val) is true; reads show 29, 28, 27 seconds left and then no key |
| LockScenarios.StaleUnlockRejected | redis/lock_test.go:14-34 | with no other script cached under the unlock script's hash: once more than a lease has passed since A acquired, B acquires; A's late unlock returns false and B's entry survives |
| LockScenarios.ReleaseThenReacquire | redis/lock_test.go:24-52 | with no other script cached under the unlock script's hash: after the owner releases, another client's tryLock succeeds at once |

## Left out

- SHA-1 and hex encoding (redis/script.go:45-47): `Scripts.Sha1Hex` is a deterministic stand-in with the real output shape: a polynomial checksum of the source reduced to 160 bits, written as 40 lower-case hex digits. No proof uses collision resistance. A collision is covered by the explicit `Store.NoCollision` precondition.
- Lua interpretation: the store interprets only the unlock script, as `UnlockLua.CompareAndDelete`. Any other source gets a stand-in error and the key space is unchanged. Script compile errors are not modelled: every source is cached by EVAL.
- Real connections, `redis.Dial`, `NewPools`, `TestOnBorrow` and `TestPool` (redis/lock_test.go:55, 144-182): the abstract store plus the fault oracle replace them.
- Pipelining (`Conn.Send`): `Scripts.SendHash` and `Scripts.Send` return the queued command. They do not model the buffered-write error or the later reply.
- `log.Printf`, `log.Fatal` and `time.Sleep`: logging is dropped. `log.Fatal` becomes the `Lock.Fatal` outcome. Sleeping becomes `Store.Sleep`, which moves the store's integer clock, in whole seconds.
- Threads: interleavings are sequences of single store steps (`Mutex.Op`). A release is two steps, EVALSHA and its EVAL fallback, and other clients' steps and clock ticks may fall between them. A client is sequential: while its fallback is pending it sends nothing else. All clients share one modelled connection and fault oracle.
- Client clocks: a client measures its lease on the store's clock (`Mutex.Step` records `now + LeaseSeconds` from the store). Clock drift between client and store is not modelled, so `Mutex.MutualExclusion` assumes the client and the store agree on the time.
- Argument types: Go's `keysAndArgs` is `[]interface{}` and can hold `[]byte`, `float64`, `nil` and other values. `Protocol.Arg` has only strings (`AStr`) and integers (`AInt`), the two kinds the lock sends.
- The store's command grammar is limited to what the core sends. `SET` accepts exactly `key value` or `key value EX n NX`, in that order. Option spelling is case-insensitive. EVALSHA does not lower-case the hash.
- 64-bit integers: `Decimal.ParseInt` does not reject out-of-range values, and key counts and clock values are unbounded. Nothing in the core does arithmetic that could overflow.
- `TTL` rounding and millisecond expiry: the clock is in whole seconds, so `TTL` returns the exact remaining seconds, and a key is expired from the second after its deadline.
- Scripts.Send: states only which command is queued. Its error result depends on the connection's buffered writer, which is not modelled.
- Scripts.SendHash: the same as Send.
- CacheProtocol.DoActsAsEval: excludes argument vectors too short to hold a key count. In that case EVALSHA and EVAL both fail, but their arity errors name different commands.
