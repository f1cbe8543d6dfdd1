# morse-back work queue, modelled in Dafny

morse-back is a small Express server in front of Redis that keeps a work
queue of short text messages. Producers `POST /enqueue` a message, workers
`POST /dequeue` one entry at a time and `POST /finish` it when done, and
`GET /length` reports how many entries wait. The state is two Redis lists of
JSON strings: `queue:messages` (pending) and `queue:in-progress`.

This project models the transfer protocol of those four handlers in
`morse-back.js`:

- `external.dfy` (module `External`): the library calls the handlers make.
  `validator.escape`, `JSON.stringify({id, message})` and `JSON.parse` become
  the three function fields of a `Library` value. No body is given to them.
  What a lemma assumes about them it takes as a hypothesis of its own; the
  list is under "Assumptions about the library" below.
- `redis_list.dfy` (module `RedisList`): the Redis commands RPUSH,
  RPOPLPUSH and LREM with count 0, on a list held as a sequence whose index 0
  is the left end.
- `validation.dfy` (module `Validation`): the request guards, including the
  32-character bound measured as JavaScript measures it (UTF-16 code units).
- `protocol.dfy` (module `Protocol`): each handler as a function from the two
  lists before the request to the lists after it and the response (200 with a
  body, 400 with its reason, 204, 500). The lemmas relating several requests
  live here: unique entries, submit-then-claim, the claim order, finishing,
  and batches of submissions and claims.
- `service.dfy` (module `Service`): class `WorkQueue`, with the two lists as
  fields and one method per handler. Each method follows its handler step by
  step and is proved equal to the `Protocol` function.

The code is modelled as written. Two places where it departs from the
protocol's evident intent are logged under "## Findings". For each one the
project has the as-written behaviour, a counterexample lemma and a corrected
variant with its intended property proved. The class keeps the as-written
behaviour.

- `/finish` removes from pending, not from in-progress.
- RPUSH and RPOPLPUSH both work on the right end, so claims go newest first
  (LIFO), where a work queue is expected to hand out the oldest entry first.

Several parts are passed in as parameters:

- The id returned by `shortid.generate` is the `id` parameter of enqueue.
  Where a lemma needs it to be fresh, that lemma takes `IdFresh` as a
  hypothesis: no live entry parses to that id.
- A Redis command that fails (the handlers' `.catch` branches) is the
  `storeFails` parameter. The response is then 500 and the lists are
  unchanged.

Dequeue calls `validator.escape` on a message that was already escaped at
enqueue. Nothing shown promises that `validator.escape` is idempotent, so no
idempotence is assumed: a claimed message is stated as the stored message
escaped once more (`Protocol.DecodeClaimOfEntry`).

Dequeue tests the RPOPLPUSH reply with `!entry`, which holds for nil and for
the empty string alike. An empty-string entry that another writer of
`queue:messages` left at its right end is therefore moved to in-progress and
answered 204, as if the queue were empty (`Protocol.EmptyEntryAnsweredAsEmptyQueue`).

### Assumptions about the library

No lemma assumes anything about the library that it does not state as a
hypothesis. These are all of them:

- `External.RoundTrips`: `JSON.parse` of `JSON.stringify({id, message})`
  gives back both strings. Assumed by `External.StringifyInjective`,
  `Protocol.EntryForParses`, `Protocol.FreshEntryIsNew`,
  `Protocol.EnqueueKeepsEntriesUnique`, `Protocol.DecodeClaimOfEntry`,
  `Protocol.SubmitClaimFinishRestores`, `Protocol.SosScenario` and
  `Service.SosSession`.
- `External.NonEmptyEncoding`: `JSON.stringify` of an object is never the
  empty string. Assumed by `Protocol.SubmitThenClaimDecodes`,
  `Protocol.SosScenario` and `Service.SosSession`.
- `lib.escape(message) != ""` for the submitted message. Assumed by
  `Protocol.FinishLeavesClaimInProgress` and
  `Protocol.SubmitClaimFinishRestores`, which finish with the stored
  (escaped) message.
- `lib.escape(x) == x` and `lib.escape("SOS") == "SOS"` for the id `x`.
  Assumed by `Protocol.SosScenario` and `Service.SosSession`, so that the
  claim hands back exactly what was submitted.

## Model

| member | source | states |
|---|---|---|
| External.FieldText | morse-back.js:138-141 | a falsy field reads as the empty string and a string field as itself; a non-string field has no text, since escape refuses it |
| External.StringifyInjective | morse-back.js:214-219 | under the JSON round trip, two entries are equal only when they come from the same id and message, which is why finish needs an exact match |
| RedisList.RPush | morse-back.js:94 | RPUSH appends at the right end: one element longer, the old list in front, the value last |
| RedisList.RPopLPushTakesPushed | morse-back.js:94-113 | RPOPLPUSH right after RPUSH moves the value just pushed and leaves the source as it was before the push |
| RedisList.RPopLPush | morse-back.js:113 | nil exactly when the source is empty, and then no change; otherwise the answer is the source's right-most entry, the source is what was before it, and the destination gains it at its left end |
| RedisList.LRemAll | morse-back.js:219 | LREM with count 0 leaves no copy of the value and never lengthens the list |
| RedisList.LRemAllCounts | morse-back.js:219 | LREM with count 0 removes exactly the value's occurrences: every other element keeps its count (multiset with the value's count set to 0), and the list shrinks by the value's count |
| RedisList.LRemAllConcat | morse-back.js:219 | LREM distributes over concatenation, so the survivors keep their order |
| RedisList.LRemAllAbsent | morse-back.js:219-225 | LREM of a value that is not there leaves the list unchanged (the 200-even-when-nothing-matched case) |
| Validation.TruthyStrings | morse-back.js:67 | `Present` is JavaScript's truthiness of a form field: absent and "" are falsy, "0", "false" and " " are truthy |
| Validation.Utf16Length | morse-back.js:74 | JavaScript string length counts UTF-16 code units: at least the number of characters and at most twice it, equal to it for Basic Multilingual Plane text and twice it for astral-only text |
| Validation.CheckMessage | morse-back.js:62-82 | a message is accepted iff it is present, non-empty and at most 32 code units; a missing or empty message is "Invalid Parameters", otherwise an over-long one is "Invalid Message Length" |
| Validation.AstralCharactersCountTwice | morse-back.js:62-82 | 17 emoji are refused as too long; 32 ASCII letters pass and 33 fail |
| Validation.CheckCompletion | morse-back.js:198-212 | a finish request is accepted iff both id and message are present and non-empty; otherwise "Invalid Parameters" |
| Protocol.Enqueue | morse-back.js:61-110 | 400 exactly for a missing/empty or over-long raw message, with the matching reason; 200 exactly when valid and the store works, and then pending gains exactly `stringify(id, escape(message))` at its right end; any non-200 leaves both lists unchanged; in-progress never changes |
| Protocol.EntryForParses | morse-back.js:84-92 | under the round trip, the stored entry `stringify(id, escape(message))` parses back to the id and the escaped message, both as strings |
| Protocol.DecodeClaim | morse-back.js:123-166 | the answer for a moved entry is 200 or 500 only; 200 exactly when the entry parses, both fields are strings or falsy, and both escaped fields are non-empty, and then it carries those escaped fields |
| Protocol.ClaimAnswer | morse-back.js:113-166 | the answer for the RPOPLPUSH reply: 204 exactly when the reply is nil or the empty string (`!entry`); otherwise the decoded claim |
| Protocol.Dequeue | morse-back.js:112-190 | store failure: 500, unchanged; empty pending: 204, unchanged; otherwise the right-most pending entry moves to the left end of in-progress and stays there whatever is answered (no roll-back on 500 or 204); 204 exactly for an empty pending list or an empty-string right-most entry; total length and multiset of entries conserved; never 400 |
| Protocol.EmptyEntryAnsweredAsEmptyQueue | morse-back.js:113-120 | a right-most pending entry that is the empty string is moved to in-progress and answered 204, and length then reports one fewer |
| Protocol.Claim | morse-back.js:113 | the lists after a dequeue's RPOPLPUSH: unchanged for an empty pending list, otherwise pending loses its right-most entry and in-progress gains it at its left end |
| Protocol.DequeueMovesAsClaim | morse-back.js:113-166 | a dequeue whose store works leaves the lists `Claim` gives, whatever parsing and escaping then answer |
| Protocol.Finish | morse-back.js:192-235 | 400 exactly when id or message is missing or empty; 200 exactly when both are present and the store works, even when nothing matched; then pending is LREM 0 of the entry `stringify(id, message)`: no copy of it is left, and every other entry keeps its count and its order; in-progress never changes; non-200 changes nothing |
| Protocol.Length | morse-back.js:237-258 | 200 with the length of pending (in-progress not counted) unless the store fails, then 500 |
| Protocol.FreshEntryIsNew | morse-back.js:84-94 | under the round trip, the entry written for a fresh id equals no live entry |
| Protocol.EnqueueKeepsEntriesUnique | morse-back.js:84-94 | an enqueue under a fresh id leaves its entry exactly once among pending and in-progress |
| Protocol.DecodeClaimOfEntry | morse-back.js:125-146 | under the round trip, claiming the entry of (id, message) answers 200 with (escape(id), escape(escape(message))) when both are non-empty, 500 otherwise |
| Protocol.SubmitThenClaim | morse-back.js:94-113 | a dequeue right after an enqueue moves the entry just enqueued, so pending is back as it was and in-progress gains that entry at its left end; the answer is the one for that entry |
| Protocol.SubmitThenClaimDecodes | morse-back.js:94-166 | with an encoding that is never empty, that answer is the decoded claim of the submitted entry |
| Protocol.ClaimTakesNewest | morse-back.js:94-113 | as written, of two submissions on an empty queue the second is claimed first |
| Protocol.EnqueueFifo | morse-back.js:94 | corrected enqueue (LPUSH): same responses as enqueue; on 200 the entry goes to the left end of pending |
| Protocol.FifoClaimTakesOldest | morse-back.js:94-113 | with the corrected enqueue, a dequeue after a submission claims the oldest entry already pending, not the new one |
| Protocol.FifoClaimTakesFirst | morse-back.js:94-113 | with the corrected enqueue, of two submissions on an empty queue the first is claimed first |
| Protocol.FinishClaimed | morse-back.js:219 | corrected finish (LREM on in-progress): same responses as finish; pending never changes; on 200 in-progress is LREM 0 of the entry, losing exactly its occurrences while the other entries keep their counts and order |
| Protocol.FinishLeavesClaimInProgress | morse-back.js:214-225 | as written, finishing a just-claimed entry with its id and stored message answers 200 and leaves the entry in in-progress |
| Protocol.SubmitClaimFinishRestores | morse-back.js:219 | under a fresh id, submit, claim and the corrected finish return both lists to their starting state; in-progress grows by one and then shrinks by one |
| Protocol.SosScenario | morse-back.js:61-258 | submit "SOS" on an empty queue: length 1, the claim answers (X, "SOS"), length 0; the as-written finish leaves one entry in in-progress, the corrected one empties both lists |
| Protocol.EntriesOf | morse-back.js:89-94 | a batch of submissions stores one entry per submission |
| Protocol.EntriesOfAt | morse-back.js:84-94 | entry k of a batch's entries is `stringify(id, escape(message))` of submission k |
| Protocol.SubmitAllAppends | morse-back.js:94 | submitting an accepted batch appends its entries to pending in submission order |
| Protocol.ClaimTimesMoves | morse-back.js:113 | when pending is `rest + taken`, one claim per entry of `taken` leaves `rest` pending and puts `taken`, in its order, at the left end of in-progress |
| Protocol.ClaimTakesLast | morse-back.js:113 | one claim on pending `front + [last]` leaves `front` pending and puts `last` at the left end of in-progress |
| Protocol.SubmitAllOnEmpty | morse-back.js:94 | an accepted batch on an empty queue leaves exactly its entries pending, in order, and nothing in progress |
| Protocol.ClaimsFromSubmitted | morse-back.js:113 | J claims on pending `entries` with nothing in progress leave the first K - J entries pending and the last J in progress, in order |
| Protocol.SubmitsThenClaims | morse-back.js:94-113 | K accepted submissions on an empty queue then J <= K claims: the first K - J submitted entries are pending and the last J in progress, length reports K - J, and pending followed by in-progress is exactly the K submitted entries |
| Service.WorkQueue.Enqueue | morse-back.js:61-110 | the handler step by step: new lists and response are those of `Protocol.Enqueue`; in-progress unchanged; pending gains the entry at the right end exactly on 200 |
| Service.WorkQueue.Dequeue | morse-back.js:112-190 | the handler step by step, including the `!entry` test: new lists and response are those of `Protocol.Dequeue`; the total is conserved; whenever the store works and pending was non-empty, the moved entry heads in-progress |
| Service.WorkQueue.Finish | morse-back.js:192-235 | the handler step by step: new lists and response are those of `Protocol.Finish`; in-progress unchanged; pending is LREM 0 of the re-encoded entry exactly on 200 |
| Service.WorkQueue.Length | morse-back.js:237-258 | changes nothing; 200 with the length of pending, or 500 on store failure |
| Service.SosSession | morse-back.js:61-235 | a client of the class: submitting "SOS" under id x and claiming it hands back (x, "SOS"); finishing it answers 200, and in-progress still holds exactly its entry |

## Findings

| source | as written | input that shows it | evidently intended | confidence | as-written member | corrected member |
|---|---|---|---|---|---|---|
| morse-back.js:219 | `/finish` runs `LREM queue:messages 0 entry` on the pending list | submit "SOS" under id X, claim it, finish (X, "SOS"): the answer is 200, but the entry stays in `queue:in-progress` | remove the entry from `queue:in-progress`, where claimed work sits (the handler's own log line says so) | high; not executed | Protocol.FinishLeavesClaimInProgress | Protocol.SubmitClaimFinishRestores |
| morse-back.js:94 | `/enqueue` RPUSHes onto the right end, and `/dequeue` RPOPLPUSHes from the same right end | submit a, then b, on an empty queue: the dequeue claims b | first in, first out: LPUSH onto the left end, so the oldest entry is claimed first | medium; not executed | Protocol.ClaimTakesNewest | Protocol.FifoClaimTakesOldest |

The corrected definitions are `Protocol.FinishClaimed` and
`Protocol.EnqueueFifo`. The lifecycle lemmas (`SubmitClaimFinishRestores`,
`SosScenario`, `FifoClaimTakesOldest`, `FifoClaimTakesFirst`) use them. The
class `Service.WorkQueue` keeps the as-written behaviour, because it models
the handlers themselves.

## Left out

- Express routing, body parsing and response rendering (morse-back.js:57-59, 173-183, 239-251). They are presentation only. A response is one value (status and body); the text, HTML and JSON renderings are not modelled. Nor is the 406 that `res.format` answers when the request's Accept header matches none of text, HTML and JSON; for `/dequeue` that answer comes after the entry was moved.
- Environment configuration, its defaults and warnings, and the Redis client set-up (morse-back.js:14-55). These are ambient I/O.
- `server.listen`, every `console.*` log line, and the `/notify` endpoint (morse-back.js:260-267), which only logs.
- `shortid.generate`: random and foreign, so it becomes the `id` parameter. How fresh it is, is a lemma hypothesis, not a precondition.
- `validator.escape`, `JSON.stringify` and `JSON.parse`: their text is not available. They are uninterpreted function fields; the facts assumed about them are the hypotheses listed under "Assumptions about the library". Escape is not assumed to be idempotent, nor to map non-empty text to non-empty text, except where a lemma's hypothesis says so.
- `validator.escape` throwing on a non-string parsed field is modelled as the `.catch` answer 500, with the entry left moved.
- Request fields that urlencoded extended parsing turns into arrays or objects: a field is modelled as absent or a string.
- JavaScript strings holding unpaired UTF-16 surrogates: a Dafny `char` is a Unicode scalar value, so these cannot be written.
- Redis failures: `storeFails` is a parameter, and a failing command changes nothing. A command that takes effect while its reply is lost is not modelled.
- LREM with a non-zero count, and RPOPLPUSH with equal source and destination keys: the handlers never issue them.
- Concurrency across callers: each handler is one indivisible method call. That is all the handlers rely on, since each issues a single Redis command against the lists.
- A worker that echoes back the id and message it was handed sends values escaped one more time than the stored entry. Its finish then matches only where escape leaves those values unchanged. The model states what is claimed (`Protocol.DecodeClaimOfEntry`), but says nothing about which texts escape leaves unchanged.
