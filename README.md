# shorten-me: short-link table, key allocation and redirect

A model of the core of a small URL-shortening service. The service keeps an
external key-value namespace that maps 6-character short keys to target URLs.
It has two operations on that table:

- **Allocation** (`createKey`, reached from `POST /create`). It takes the
  first six characters of a random UUID as a candidate key and looks it up.
  If the lookup is falsy, it writes `candidate -> url` and returns the
  candidate. Otherwise it retries with a fresh UUID.
- **Resolution** (`GET /:key{[0-9a-z]{6}}`). It looks the key up and
  redirects to the stored URL, or to `/` when the lookup yields `null`.

Before allocation, a submission must pass the CSRF middleware and then the
`url` form-field check (`z.string().url()`).

Modules:

- `Keys` (keys.dfy) holds the UUID string form, `substring(0, 6)` and the
  route pattern.
- `Kv` (kv.dfy) holds the namespace: a class with an `entries` map and a
  ghost log of the `get`/`put` calls made against it. The log is
  specification state only; it lets contracts count lookups and writes.
- `Allocator` (allocator.dfy) holds `createKey` as a method with a loop. It
  is proved against the specification functions `FirstFree`,
  `AllocationOutcome`, `AfterAllocation` and `AllocationCalls`.
- `Router` (router.dfy) holds the redirect handler and the `/create` gate,
  each as a function with a method proved against it.

The random source is a parameter: the sequence of UUID strings that
`crypto.randomUUID()` would return, in order. The source retries without
bound. Here the retries stop when the sequence runs out, and the outcome is
then `Exhausted` (`RetriesExhausted` at the `/create` handler).

The two absence checks are modelled as written. `createKey` tests `!result`,
so `null` and `""` both count as free (`Allocator.IsFalsy`). The resolver
tests `url === null`, so only an absent key sends the visitor to `/`. A
stored empty string would be overwritten by `createKey`, yet the resolver
would redirect to it (`Router.EmptyValueAsymmetry`). The invariant "every
stored value is non-empty" closes this gap. It is preserved whenever the URL
check rejects the empty string (`Router.SubmitKeepsNonEmpty`).

The CSRF check runs before the validator (src/index.tsx:63). The "Error!"
fragment is rendered only by the validator's hook (src/index.tsx:20-29). So
a CSRF rejection is modelled as the middleware's own `Forbidden` response.
It is not the error fragment. Either way, the table is unchanged and
`createKey` is not reached.

## Model

| member | source | states |
|---|---|---|
| `Keys.IsUuidString` | src/index.tsx:32 | Defines what `crypto.randomUUID()` returns: 36 characters in the 8-4-4-4-12 layout, with dashes at positions 8, 13, 18 and 23. Every other character is a lowercase hex digit, position 14 is `4` (version 4) and position 19 is one of `8`, `9`, `a`, `b` (the RFC 4122 variant). |
| `Keys.MatchesKeyRoute` | src/index.tsx:84 | Defines the route pattern `[0-9a-z]{6}`, anchored to the whole path segment: exactly six characters, each a digit or a lowercase letter. |
| `Keys.KeyOf` | src/index.tsx:33 | `substring(0, 6)` gives a prefix of the UUID with at most 6 characters. It has exactly 6 when the UUID has at least 6, and is the whole string otherwise. |
| `Keys.GeneratedKeyMatchesRoute` | src/index.tsx:32-33 | For a UUID in RFC 4122 lowercase string form, the key has length 6, every character is a hex digit, and it matches the route pattern `[0-9a-z]{6}`. |
| `Keys.RouteBoundaryExamples` | src/index.tsx:84 | `ABCDEF`, `abcde` and `abc-ef` do not reach the redirect handler. `abcdef` and `0a9z5k` do. |
| `Keys.CreateIsNeverGenerated` | src/index.tsx:84 | The segment `create` matches the key route, so `GET /create` reaches the redirect handler. Still, no generated key equals `create`. |
| `Kv.Namespace.constructor` | src/index.tsx:7-9 | The bound namespace starts with the given table and an empty call log. |
| `Kv.Find` | src/index.tsx:34 | Defines what `kv.get(key)` yields for a table, here and at line 86: the stored string when the key is present, `null` (`None`) when it is absent. |
| `Kv.Namespace.Get` | src/index.tsx:34 | `kv.get` returns the stored value exactly when the key is present, and `null` otherwise. It logs one lookup and leaves the table unchanged. |
| `Kv.Namespace.Put` | src/index.tsx:36 | `kv.put` stores the value under the key, leaves every other key alone, and logs one write. |
| `Allocator.IsFalsy` | src/index.tsx:35 | Defines `!result` on a `kv.get` result: true for `null` and for the empty string, false for every non-empty string. |
| `Allocator.Taken` | src/index.tsx:34-35 | Defines a collision: the candidate's lookup is truthy, that is, the key is present with a non-empty value. |
| `Allocator.FirstFree` | src/index.tsx:34-38 | Returns the index of the first UUID whose candidate lookup is falsy, with every earlier candidate taken. It returns none exactly when every candidate is taken. |
| `Allocator.Lookups` | src/index.tsx:34 | One `get` per drawn UUID, in order, under that UUID's candidate key. |
| `Allocator.AllocationOutcome` | src/index.tsx:31-41 | Defines what `createKey` returns: the candidate of the first UUID whose lookup is falsy, or `Exhausted` when every drawn candidate collides. |
| `Allocator.AfterAllocation` | src/index.tsx:36 | Defines the table after `createKey`: the old table with `url` stored under the returned key, or the old table when exhausted. |
| `Allocator.AllocationCalls` | src/index.tsx:34-36 | Defines the calls `createKey` makes: one `get` per candidate up to and including the first free one, then one `put` of `url` under it; only the `get`s when exhausted. |
| `Allocator.CreateKey` | src/index.tsx:31-41 | The loop returns the first free candidate and writes `url` under it. The new table is the old one with that single pair added. The calls made are the lookups up to that candidate followed by exactly one `put`. When every candidate collides, it returns `Exhausted` with the table unchanged and no `put`. |
| `Allocator.AllocatedKeyWasFree` | src/index.tsx:34-38 | A returned key is a drawn candidate whose lookup was falsy, and every candidate drawn before it was taken. `Exhausted` is returned exactly when every candidate was taken. |
| `Allocator.NoOverwriteAndFrame` | src/index.tsx:35-36 | A key holding a non-empty URL keeps it. Only the allocated key changes, and it then holds `url`. |
| `Allocator.FirstFreeAt` | src/index.tsx:34-38 | If candidates 1..K are taken and candidate K+1 is free, the first free candidate is exactly candidate K+1. |
| `Allocator.AllTakenExhausts` | src/index.tsx:34-38 | If every drawn candidate is taken, `createKey` returns `Exhausted`, makes one lookup per UUID, and writes nothing. |
| `Allocator.CollisionRetry` | src/index.tsx:34-38 | If candidates 1..K are taken and candidate K+1 is free, `createKey` makes K+1 lookups and then one `put` under candidate K+1, and returns that candidate. |
| `Allocator.AllocationKeepsNonEmpty` | src/index.tsx:35-36 | If every stored value is non-empty and `url` is non-empty, this stays true. The allocated key is then new to the table, which grows by exactly that key. |
| `Allocator.AllNonEmpty` | src/index.tsx:35 | Defines the invariant that every stored value is non-empty, under which the `!result` test at line 35 and the `=== null` test at line 88 agree. |
| `Allocator.AllocatedKeyMatchesRoute` | src/index.tsx:32-40 | Every key `createKey` returns is six hex digits and matches the redirect route. |
| `Allocator.RunRounds` | src/index.tsx:31-41 | Defines successive `createKey` calls against one table: each call's outcome, in order, and the table the last one leaves. |
| `Allocator.RoundsAllocateDistinctKeys` | src/index.tsx:31-41 | Take N successive submissions of non-empty URLs against a table of non-empty values. The allocated keys are pairwise distinct and new to the table. Each holds its own URL at the end, and no pair stored before is changed. |
| `Allocator.RoundsKeysMatchRoute` | src/index.tsx:31-41 | Over N successive submissions whose UUIDs are well-formed, every allocated key matches the redirect route. |
| `Router.ResolveKey` | src/index.tsx:84-93 | A segment outside `[0-9a-z]{6}` does not reach the handler. Otherwise the response is a redirect: to `/` when the key is absent, else to exactly the stored value. |
| `Router.HandleKey` | src/index.tsx:84-93 | The handler answers as `ResolveKey` says. It makes one lookup when the route matches and none otherwise, and never changes the table. |
| `Router.EmptyValueAsymmetry` | src/index.tsx:88 | For every table and every key that matches the route and holds `""`, the key is free for `createKey` (the `!result` test at line 35), yet the resolver redirects to `""` rather than to `/`. |
| `Router.ShortUrl` | src/index.tsx:67 | The short URL is the request's origin, then `/`, then the key. |
| `Router.SchemaAccepts` | src/index.tsx:17-19 | Defines the `z.object({ url: z.string().url() })` check: the `url` field is present as a string and passes the URL test. |
| `Router.GatePasses` | src/index.tsx:63 | Defines when a submission reaches the handler: `csrf()` passes and then the `url` check passes. |
| `Router.GateResponse` | src/index.tsx:63-67 | Defines the response for a given `createKey` outcome: `Forbidden` on a CSRF failure, the error fragment on a `url` check failure, otherwise the page with the short URL of the allocated key (`RetriesExhausted` when exhausted). |
| `Router.SubmitResponse` | src/index.tsx:63-67 | Defines the response to `POST /create` against a table: the gate's response for the outcome `createKey` has on that table. |
| `Router.SubmitEntries` | src/index.tsx:63-65 | Defines the table after `POST /create`: the table after `createKey` when the submission passes both checks, the old table otherwise. |
| `Router.HandleCreate` | src/index.tsx:63-67 | On a CSRF failure the response is `Forbidden`. On a `url` check failure it is the error fragment. In both cases nothing is called on the namespace and the table is unchanged. Otherwise `createKey` runs, and the response shows the short URL of the returned key. |
| `Router.RejectedSubmissionChangesNothing` | src/index.tsx:17-65 | A CSRF failure is refused whatever the URL. A failed `url` check yields the error fragment. A submission is rejected exactly when it fails one of the two checks, and then the table is unchanged. |
| `Router.SubmitKeepsNonEmpty` | src/index.tsx:63-65 | If the URL check rejects `""`, a submission keeps every stored value non-empty. |
| `Router.RoundsResolveToTheirUrls` | src/index.tsx:84-93 | Take N successive submissions of non-empty URLs with well-formed UUIDs, against a table of non-empty values. Afterwards, resolving each allocated key redirects to exactly the URL submitted for it. |
| `Router.CreateThenResolve` | src/index.tsx:63-92 | Suppose an accepted submission gets key `k`. The page shows the short URL for `k`, and `GET /k` then redirects to exactly the submitted URL. If every candidate collided, the response is `RetriesExhausted`. |
| `Router.RunPosts` | src/index.tsx:63-67 | Defines successive `POST /create` requests against one table: each response, in order, and the table the last one leaves. |
| `Router.GateRound` | src/index.tsx:63-65 | Defines the `createKey` call a post amounts to: the post's own UUIDs and URL when it passes the gate, and no draw at all (so nothing allocated or stored) when it is rejected. |
| `Router.RunPostsAsRounds` | src/index.tsx:63-67 | A series of posts leaves the same table as the series of `createKey` calls behind the gate, and each response is the gate's answer for its call's outcome. |
| `Router.PostsResolveToTheirUrls` | src/index.tsx:63-92 | Take N `POST /create` requests with well-formed UUIDs, against a table of non-empty values, with a URL check that rejects `""`. Each short URL shown belongs to a post that passed both checks, and its key then redirects to exactly that post's URL. No two posts get the same key. No stored pair changes, and no empty value appears. |

## Left out

- Page rendering (src/renderer.tsx, the JSX at src/index.tsx:43-61 and 69-81) and the `GET /` form route: presentation only. Responses are constructors of `Router.Response`.
- The `z.string().url()` test: library code. It is the function parameter `isUrl`; only `isUrl("") == false` is assumed, and only where the non-empty invariant is stated.
- The `csrf()` middleware: library code. Its verdict is the `csrfPassed` field of a submission. The exact response it sends on rejection is not modelled beyond `Forbidden`.
- `crypto.randomUUID()`: randomness. The UUIDs are a given sequence; only their format (`Keys.IsUuidString`) is relied on.
- Allocator.CreateKey: retries over a finite sequence of UUIDs and reports `Exhausted` when it runs out. The source retries by unbounded recursion.
- Asynchronous KV I/O, store failures and eventual consistency: external service plumbing. `get` and `put` always succeed and are immediately visible.
- The check-then-write race between concurrent `createKey` calls: concurrency. Each call is modelled as running alone against the table.
- `new URL(`/${key}`, c.req.url)`: URL resolution is taken as `origin + "/" + key`.
- Hono's routing internals: only the route-pattern predicate `Keys.MatchesKeyRoute` is kept.
