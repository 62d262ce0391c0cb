# gedis: an expiring key-value store and its command layer, in Dafny

gedis is a small in-memory key-value server that speaks a line protocol over TCP.
It accepts four commands: PING, ECHO, SET and GET. At its centre is a `Cache` holding two maps:

- `Data` maps a key to its value;
- `Expiry` maps a key to the absolute instant after which the key is gone.

Keys expire in two ways. A `get` checks expiry lazily and deletes an expired key when it reads it. A background loop sweeps the cache every ten seconds.

This project models that core and proves properties of it:

- `Store` (store.dfy) describes the two maps as a value, `State`. It gives the specification functions `Set`, `Get`, `Sweep` and `SweepAll` (one sweep per tick), plus lemmas about them. The most important is the invariant that every recorded expiry belongs to a recorded value.
- `CacheObject` (cache.dfy) is the `Cache` class. Its fields `data` and `expiry` are the two maps. Its methods `Set`, `Get`, `Sweep` and `StartCleanup` update these maps in place and are proved equal to the `Store` functions. `Sweep` visits the keys of `expiry` one at a time, in an arbitrary order, as the source's map iteration does.
- `Commands` (commands.dfy) is the command layer, written as functions on `State`: `SetKey`, `GetKey`, `EchoMessage`, the `RunCommand` dispatch, and `HandleLine` (one round of a session once the line has been split into tokens). A command ends in `Ok(response)` or `Err(message)`, instead of writing to the connection.
- `Session` (session.dfy) runs the same command layer against a `Cache` object. Each command method (`SetKey`, `GetKey`, `RunCommand`, `HandleLine`) is proved to give the same reply and the same new store as its counterpart in `Commands`. `SetThenGet` runs the unit tests' SET then GET on a new `Cache`.
- `Scenarios` (scenarios.dfy) holds example command lines for PING, ECHO, SET and GET and the unit tests' expectations, stated as lemmas. It also proves that a sweep does not change the reply to the next command line, when nothing runs in between, and shows how a later SET can tell a swept key from an unswept one.

Time is an integer count of nanoseconds. Every reading of the clock is a parameter `now`. Go's `time.ParseDuration` becomes a parameter `parse: string -> Option<int>`. It is applied, as in the source, to the duration token with `"s"` (EX) or `"ms"` (PX) appended. `SET` without a TTL passes Go's zero `time.Time` as its expiry. The model writes that as `None` of an `Option<Instant>`.

The server is modelled on Redis, and in several places the code behaves differently from Redis's commands. The model follows the code:

- **Overwriting without a TTL.** In Redis, a SET without options discards any earlier TTL of the key. This code keeps it (main.go:35-37). `Scenarios.OverwriteKeepsExpiry` shows that a value re-set without a TTL still vanishes when the first TTL passes.
- **Boundary of the expiry test.** The test is strictly after (main.go:48, main.go:61): at `now == expiry` the key is still live, and it is gone at any later instant.
- **`SET a 1 EX 0`.** Redis rejects a zero TTL. Here a GET at the same instant still sees the value, and any later GET misses (`Scenarios.ZeroSecondExpiry`).
- **Negative and fractional durations.** Redis accepts only positive integers. This code passes the token to `time.ParseDuration`, which accepts signed and fractional input. So, in the model, every duration the parser accepts is used, and a negative one gives an expiry in the past.
- **Physical removal shows through a later SET.** Because a SET without a TTL keeps the old expiry, it matters whether an expired key has already been removed, by a sweep or by a missing GET. If it has, a SET without a TTL brings the key back for good. If it has not, the old expiry still applies, and the next GET misses (`Scenarios.RemovalDecidesOverwrite`). In Redis an expired key is gone either way.
- **`SET a 1 EX` (no duration).** This fails with "requires a second expiry parameter" (main.go:156-157).
- **The PX error message.** It says "seconds", although PX takes milliseconds (main.go:169).

## Model

| member | source | states |
|---|---|---|
| Store.Empty | main.go:24-29 | A new cache satisfies the invariant and holds no live key at any instant. |
| Store.Set | main.go:31-38 | The key maps to the new value. The expiry is written only when one is given: with none, the old expiry map is unchanged, including any earlier expiry of this key. No other key changes in either map. The invariant is preserved. |
| Store.Get | main.go:40-54 | Found exactly when the key is in Data and either has no expiry or now <= expiry. The value is Data[key] when found and "" otherwise. A present but expired key is removed from both maps. Any other read leaves both maps unchanged. The invariant is preserved. |
| Store.Sweep | main.go:58-65 | Exactly the keys with expiry < now leave both maps. Keys without an expiry, and keys whose expiry is >= now, stay, with their values and expiries unchanged. The invariant is preserved. |
| Store.SweepCompose | main.go:56-67 | A sweep at a followed by a sweep at b equals one sweep at max(a, b). |
| Store.SweepIdempotent | main.go:58-65 | A second sweep at the same instant removes nothing more. |
| Store.SweepAllIsLatestSweep | main.go:56-67 | Any non-empty series of cleanup ticks has the effect of a single sweep at the latest tick. |
| Store.SweepAllValid | main.go:56-67 | The cleanup loop preserves the invariant over any number of ticks. |
| Store.SweepUnobservable | main.go:40-65 | A sweep at one instant changes nothing that the next get, at that instant or later and with nothing run in between, observes. |
| Store.GetCleanupUnobservable | main.go:47-51 | The deletion a get performs changes nothing that the next get of any key, at that instant or later and with nothing run in between, observes. |
| Store.AbsenceIsPermanent | main.go:43-51 | If a get misses a key at one instant, a get of that key at any later instant misses too, with nothing run in between. This holds on the same store and on the store that missing get leaves behind. |
| Store.GetAfterSet | main.go:31-53 | After a set, a get of that key finds it exactly when the new expiry has not passed. With no new expiry, it finds it exactly when the expiry the key already had has not passed. When found, the value is the one just set. |
| Store.SetIsolated | main.go:31-38 | A set of one key changes no get of another key. |
| CacheObject.Cache.constructor | main.go:24-29 | NewCache: both maps are empty and the invariant holds. |
| CacheObject.Cache.Set | main.go:31-38 | Updates the two maps in place to exactly Store.Set of the old maps. |
| CacheObject.Cache.Get | main.go:40-54 | Returns Store.Get's value and found flag, and leaves the maps as Store.Get does. |
| CacheObject.Cache.Sweep | main.go:58-66 | The loop over the keys of Expiry, visited in any order, leaves exactly Store.Sweep of the old maps. |
| CacheObject.Cache.StartCleanup | main.go:56-68 | One sweep per tick fired so far: the maps end as SweepAll of the old maps over those ticks. The invariant is preserved. |
| Commands.SetKey | main.go:149-178 | The checks run in this order: fewer than 3 tokens; then more than 3 but not 5; then a flag other than EX/PX; then a duration the parser rejects. Each failure has its own message, and every error leaves the store unchanged. If every check passes, the reply is "OK" and the store becomes Set(key, value, expiry). The expiry is none with 3 tokens, and now + the parsed duration of the token with "s" or "ms" appended otherwise. |
| Commands.GetKey | main.go:180-190 | Fewer than 2 tokens is an error and leaves the store unchanged. Otherwise the reply is the value when the key is live and "(nil)" when it is not, and the store is left as Store.Get leaves it. |
| Commands.EchoMessage | main.go:144-147 | The reply is empty when there are no arguments. When no argument contains a space, splitting the reply at spaces gives back exactly the arguments. |
| Commands.SplitJoin | main.go:144-146 | Joining parts with a character none of them contains, then splitting at that character, returns the parts. |
| Commands.RunCommand | main.go:119-142 | PING replies "PONG" and ECHO replies with the joined arguments, neither touching the store. SET and GET are SetKey and GetKey. Any other name gives "unknown command: " plus the name. Only SET can add keys, and only its own key. The invariant is preserved. |
| Commands.HandleLine | main.go:104-116 | An empty token list gets the usage line and leaves the store unchanged. Otherwise the line is the reply's response, or the error's message, and the new store is the one RunCommand leaves; an error leaves it unchanged. The invariant is preserved. |
| Scenarios.SetThenGet | main.go:149-190 | After any successful SET, a GET at the same instant finds the key exactly when the new TTL has not passed. With no TTL, it finds it exactly when no earlier TTL of the key has passed. When found, the reply is the value. |
| Scenarios.SetThenGetOnFreshCache | main_test.go:15-33 | On a new cache, SET k v replies "OK", and GET k then replies v at any later instant. |
| Scenarios.PxExpiry | main_test.go:36-46 | SET k v PX 500, then GET k 600 ms later, replies "(nil)". |
| Scenarios.ZeroSecondExpiry | main.go:160-165 | After SET k v EX 0, GET k at the same instant replies v, and at any later instant replies "(nil)". |
| Scenarios.OverwriteKeepsExpiry | main.go:34-37 | SET k v1 EX 1, then SET k v2 with no TTL, then GET k two seconds later, replies "(nil)". |
| Scenarios.MissingDuration | main.go:155-157 | SET k v EX replies "requires a second expiry parameter" and leaves the store unchanged. |
| Scenarios.GetMissingKey | main.go:184-186 | GET of a key that was never set replies "(nil)", not an error, and leaves the store unchanged. |
| Scenarios.PingAndEcho | main.go:120-124 | PING replies "PONG"; ECHO hello world replies "hello world"; a bare ECHO replies "". None of them touches the store. |
| Scenarios.SweepReclaimsWithoutRead | main.go:58-65 | After SET k v PX 200, a sweep more than 200 ms later removes k from both maps without any GET. |
| Scenarios.NoTtlSurvivesSweeps | main.go:31-65 | After SET k v without a TTL on a new cache, GET k at any instant replies v, however many cleanup sweeps ran in between. |
| Scenarios.SweepInvisibleToCommands | main.go:40-65 | A sweep at one instant does not change the reply to the next command line handled at that instant or later, with nothing run in between. |
| Scenarios.RemovalDecidesOverwrite | main.go:35-63 | Take a key whose expiry e has passed at t. If a sweep at t, or a missing GET at t, removed it before SET k v2 without a TTL, then GET k at t replies v2. If nothing removed it, the same SET and GET reply "(nil)". |
| Session.SetKey | main.go:149-178 | Calls Cache.Set when the checks pass. The reply and the new cache contents are exactly Commands.SetKey's. |
| Session.GetKey | main.go:180-190 | Calls Cache.Get. The reply and the new cache contents are exactly Commands.GetKey's. |
| Session.RunCommand | main.go:119-142 | The dispatch run on the Cache object gives exactly Commands.RunCommand's reply and new store. |
| Session.HandleLine | main.go:104-116 | One session round on the Cache object gives exactly Commands.HandleLine's line and new store. |
| Session.SetThenGet | main_test.go:24-33 | On a new Cache object, SET k v replies "OK", and a later GET k replies v. |

## Left out

- The TCP listener, the accept loop, the per-connection read loop, the prompt, writing replies and logging (main.go:70-117) are left out. They are I/O; `HandleLine` covers what one loop round computes once the line is read.
- Splitting a line into tokens (`strings.Fields`) is left out: the token list is an input.
- Concurrency is left out: the `sync.RWMutex`, the goroutines per connection and for cleanup, and the interleaving of operations. The model is sequential, one whole operation at a time. In the source, `get` deletes from both maps while holding only the read lock (main.go:41-50), so two concurrent reads can race. A sequential model cannot express that race.
- Wall-clock time is left out: `time.Now()` is the parameter `now`, and `time.Time` values are integer nanoseconds. The monotonic clock reading and the saturation of `time.Time.Add` on overflow are not modelled.
- The 10-second ticker (`time.Tick(CleanupInterval)`) is left out. `StartCleanup` takes the finite sequence of instants at which ticks have fired so far. The loop's endless run and its spacing are not modelled.
- The grammar of `time.ParseDuration` (signs, fractions, units, overflow errors) is left out. It is the abstract parameter `parse`.
- The zero-time sentinel is left out: a TTL whose computed expiry happened to equal Go's zero `time.Time` would be treated as "no expiry" by the source. The model always records a TTL's expiry.
- main_test.go is not modelled as code: it calls `getKey` as if it returned one value. Its expected results are stated in `Scenarios` and `Session.SetThenGet`.
