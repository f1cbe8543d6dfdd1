/** The work-queue transfer protocol of the four handlers, as functions from
    the two Redis lists before a request to the lists after it and the answer.
    `storeFails` stands for a Redis command that is refused (the handlers'
    `.catch` branches): the command changes nothing and the answer is 500. */
module Protocol {
  import opened External
  import opened Validation
  import opened RedisList

  /** `queue:messages` (pending) and `queue:in-progress`; index 0 of each is
      the list's left end. */
  datatype Lists = Lists(pending: seq<string>, inProgress: seq<string>)
  {
    /** Every live entry, pending first. */
    function Entries(): seq<string>
    {
      pending + inProgress
    }
  }

  /** The answers of the handlers: 200 with its body, 400 with its reason,
      204 and 500. */
  datatype Response<T> = Ok(body: T) | BadRequest(reason: Reason) | NoContent | ServerError

  /** The id and message a dequeue hands to a worker. */
  datatype Claimed = Claimed(id: string, message: string)

  /** The lists after a request, and its answer. */
  datatype Step<T> = Step(lists: Lists, response: Response<T>)

  /** The entry that enqueue stores: the escaped message under its id. */
  function EntryFor(lib: Library, id: string, message: string): string
  {
    lib.stringify(id, lib.escape(message))
  }

  /** Under the round trip, parsing a stored entry gives back its id and its
      escaped message as strings. */
  lemma EntryForParses(lib: Library, id: string, message: string)
    requires RoundTrips(lib)
    ensures lib.parse(EntryFor(lib, id, message)) == Some(Record(Str(id), Str(lib.escape(message))))
  {
    assert lib.parse(lib.stringify(id, lib.escape(message))) == Some(Record(Str(id), Str(lib.escape(message))));
  }

  /** POST /enqueue: validates the raw message, escapes it, and RPUSHes the
      entry onto the right end of pending. */
  function Enqueue(lib: Library, s: Lists, message: Option<string>, id: string, storeFails: bool): (r: Step<()>)
    ensures r.response.BadRequest? <==> !Present(message) || Utf16Length(message.value) > MaximumMessageLength
    ensures r.response == BadRequest(InvalidParameters) <==> !Present(message)
    ensures r.response.Ok? <==> CheckMessage(message) == None && !storeFails
    ensures r.response.Ok? || r.response.BadRequest? || r.response.ServerError?
    ensures !r.response.Ok? ==> r.lists == s
    ensures r.response.Ok? ==>
      r.lists == Lists(s.pending + [EntryFor(lib, id, message.value)], s.inProgress)
    ensures r.lists.inProgress == s.inProgress
  {
    match CheckMessage(message)
    case Some(reason) => Step(s, BadRequest(reason))
    case None =>
      var entry := lib.stringify(id, lib.escape(message.value));
      if storeFails then Step(s, ServerError)
      else Step(Lists(RPush(s.pending, entry), s.inProgress), Ok(()))
  }

  /** What dequeue answers for the entry it has just moved: the parsed id and
      message, each escaped again; 500 when the entry does not parse, a field
      is not a string, or an escaped field is empty. */
  function DecodeClaim(lib: Library, entry: string): (r: Response<Claimed>)
    ensures r.Ok? || r.ServerError?
    ensures r.Ok? ==> r.body.id != "" && r.body.message != ""
    ensures r.Ok? ==>
      && lib.parse(entry).Some?
      && FieldText(lib.parse(entry).value.id).Some?
      && FieldText(lib.parse(entry).value.message).Some?
      && r.body.id == lib.escape(FieldText(lib.parse(entry).value.id).value)
      && r.body.message == lib.escape(FieldText(lib.parse(entry).value.message).value)
    ensures
      && lib.parse(entry).Some?
      && FieldText(lib.parse(entry).value.id).Some?
      && FieldText(lib.parse(entry).value.message).Some?
      && lib.escape(FieldText(lib.parse(entry).value.id).value) != ""
      && lib.escape(FieldText(lib.parse(entry).value.message).value) != ""
      ==> r.Ok?
  {
    match lib.parse(entry)
    case None => ServerError
    case Some(parsed) =>
      match (FieldText(parsed.id), FieldText(parsed.message))
      case (Some(idText), Some(messageText)) =>
        var id := lib.escape(idText);
        var message := lib.escape(messageText);
        if id == "" || message == "" then ServerError else Ok(Claimed(id, message))
      case _ => ServerError
  }

  /** What dequeue answers for the RPOPLPUSH reply `entry` (`None` for nil).
      The handler's `!entry` holds for nil and for the empty string alike, so
      both are answered 204. */
  function ClaimAnswer(lib: Library, entry: Option<string>): (r: Response<Claimed>)
    ensures r.NoContent? <==> entry.None? || entry.value == ""
    ensures Present(entry) ==> r == DecodeClaim(lib, entry.value)
  {
    if !Present(entry) then NoContent else DecodeClaim(lib, entry.value)
  }

  /** POST /dequeue: RPOPLPUSH moves the right end of pending onto the left
      end of in-progress, then the moved entry is answered. A decoding failure,
      and a moved entry that is the empty string, do not move it back. */
  function Dequeue(lib: Library, s: Lists, storeFails: bool): (r: Step<Claimed>)
    ensures storeFails ==> r == Step(s, ServerError)
    ensures !storeFails && s.pending == [] ==> r == Step(s, NoContent)
    ensures !storeFails && s.pending != [] ==>
      var moved := s.pending[|s.pending| - 1];
      && r.lists == Lists(s.pending[..|s.pending| - 1], [moved] + s.inProgress)
      && r.response == ClaimAnswer(lib, Some(moved))
    ensures r.response.NoContent? <==>
      !storeFails && (s.pending == [] || s.pending[|s.pending| - 1] == "")
    ensures |r.lists.pending| + |r.lists.inProgress| == |s.pending| + |s.inProgress|
    ensures multiset(r.lists.Entries()) == multiset(s.Entries())
    ensures !r.response.BadRequest?
  {
    if storeFails then
      Step(s, ServerError)
    else
      var moved := RPopLPush(s.pending, s.inProgress);
      Step(Lists(moved.source, moved.destination), ClaimAnswer(lib, moved.entry))
  }

  /** An empty-string entry at the right end of pending, which another writer
      of the list can leave there, is moved to in-progress and answered 204 as
      if the queue were empty. */
  lemma EmptyEntryAnsweredAsEmptyQueue(lib: Library, s: Lists)
    requires s.pending != [] && s.pending[|s.pending| - 1] == ""
    ensures var d := Dequeue(lib, s, false);
            && d.response == NoContent
            && d.lists == Lists(s.pending[..|s.pending| - 1], [""] + s.inProgress)
            && Length(d.lists, false) == Ok(|s.pending| - 1)
  {
  }

  /** The lists after a dequeue whose RPOPLPUSH went through. */
  function Claim(s: Lists): (r: Lists)
    ensures s.pending == [] ==> r == s
    ensures s.pending != [] ==>
      r == Lists(s.pending[..|s.pending| - 1], [s.pending[|s.pending| - 1]] + s.inProgress)
  {
    var moved := RPopLPush(s.pending, s.inProgress);
    Lists(moved.source, moved.destination)
  }

  /** A dequeue whose RPOPLPUSH went through leaves the lists `Claim` gives,
      whatever the library does with the moved entry. */
  lemma DequeueMovesAsClaim(lib: Library, s: Lists)
    ensures Dequeue(lib, s, false).lists == Claim(s)
  {
  }

  /** POST /finish: validates the id and message and runs LREM 0 with the
      re-encoded entry, on pending as the handler is written. Neither field is
      escaped here. The answer is 200 even when nothing matched. */
  function Finish(lib: Library, s: Lists, id: Option<string>, message: Option<string>, storeFails: bool): (r: Step<()>)
    ensures r.lists.inProgress == s.inProgress
    ensures r.response.BadRequest? <==> !Present(id) || !Present(message)
    ensures r.response.BadRequest? ==> r.response.reason == InvalidParameters
    ensures r.response.Ok? <==> Present(id) && Present(message) && !storeFails
    ensures r.response.Ok? || r.response.BadRequest? || r.response.ServerError?
    ensures !r.response.Ok? ==> r.lists == s
    ensures r.response.Ok? ==>
      var entry := lib.stringify(id.value, message.value);
      && r.lists.pending == LRemAll(s.pending, entry)
      && entry !in r.lists.pending
      && multiset(r.lists.pending) == multiset(s.pending)[entry := 0]
  {
    match CheckCompletion(id, message)
    case Some(reason) => Step(s, BadRequest(reason))
    case None =>
      var entry := lib.stringify(id.value, message.value);
      if storeFails then Step(s, ServerError)
      else
        LRemAllCounts(s.pending, entry);
        Step(Lists(LRemAll(s.pending, entry), s.inProgress), Ok(()))
  }

  /** GET /length: LLEN of pending; in-progress is not counted. */
  function Length(s: Lists, storeFails: bool): (r: Response<nat>)
    ensures r.Ok? <==> !storeFails
    ensures r.Ok? ==> r.body == |s.pending|
    ensures !r.Ok? ==> r == ServerError
  {
    if storeFails then ServerError else Ok(|s.pending|)
  }

  // ---------------------------------------------------------------------
  // Unique ids

  /** The entry parses to a record whose id is the string `id`. */
  ghost predicate CarriesId(lib: Library, entry: string, id: string)
  {
    match lib.parse(entry)
    case Some(Record(Str(i), _)) => i == id
    case _ => false
  }

  /** No live entry carries `id`: what a freshly generated id is assumed to be. */
  ghost predicate IdFresh(lib: Library, id: string, entries: seq<string>)
  {
    forall e :: e in entries ==> !CarriesId(lib, e, id)
  }

  /** The entry of a fresh id is new. */
  lemma FreshEntryIsNew(lib: Library, entries: seq<string>, id: string, message: string)
    requires RoundTrips(lib)
    requires IdFresh(lib, id, entries)
    ensures EntryFor(lib, id, message) !in entries
  {
    var entry := EntryFor(lib, id, message);
    if entry in entries {
      assert lib.parse(entry) == Some(Record(Str(id), Str(lib.escape(message))));
      assert CarriesId(lib, entry, id);
      assert false;
    }
  }

  /** An enqueue under a fresh id adds an entry that occurs exactly once among
      the live entries. */
  lemma EnqueueKeepsEntriesUnique(lib: Library, s: Lists, message: string, id: string)
    requires RoundTrips(lib)
    requires IdFresh(lib, id, s.Entries())
    requires CheckMessage(Some(message)) == None
    ensures multiset(Enqueue(lib, s, Some(message), id, false).lists.Entries())[EntryFor(lib, id, message)] == 1
  {
    var entry := EntryFor(lib, id, message);
    FreshEntryIsNew(lib, s.Entries(), id, message);
    var t := Enqueue(lib, s, Some(message), id, false).lists;
    assert t.Entries() == s.pending + [entry] + s.inProgress;
    assert multiset(t.Entries()) == multiset(s.Entries()) + multiset{entry};
  }

  // ---------------------------------------------------------------------
  // Claiming what was submitted

  /** Under the round trip, the decoded claim of a stored entry is its id and
      its stored (already escaped) message, each escaped once more. */
  lemma DecodeClaimOfEntry(lib: Library, id: string, message: string)
    requires RoundTrips(lib)
    ensures var claimedId := lib.escape(id);
            var claimedMessage := lib.escape(lib.escape(message));
            DecodeClaim(lib, EntryFor(lib, id, message)) ==
              if claimedId != "" && claimedMessage != "" then Ok(Claimed(claimedId, claimedMessage))
              else ServerError
  {
    assert lib.parse(EntryFor(lib, id, message)) == Some(Record(Str(id), Str(lib.escape(message))));
  }

  /** A dequeue right after an enqueue claims the entry just enqueued, however
      many older entries are pending: RPUSH and RPOPLPUSH work on the same
      (right) end, so the queue hands out the newest entry first. */
  lemma SubmitThenClaim(lib: Library, s: Lists, message: string, id: string)
    requires CheckMessage(Some(message)) == None
    ensures var d := Dequeue(lib, Enqueue(lib, s, Some(message), id, false).lists, false);
            && d.lists == Lists(s.pending, [EntryFor(lib, id, message)] + s.inProgress)
            && d.response == ClaimAnswer(lib, Some(EntryFor(lib, id, message)))
  {
    var t := Enqueue(lib, s, Some(message), id, false).lists;
    assert t.pending[..|t.pending| - 1] == s.pending;
  }

  /** With an encoding that is never empty, the claim right after a submission
      is answered by decoding the submitted entry. */
  lemma SubmitThenClaimDecodes(lib: Library, s: Lists, message: string, id: string)
    requires NonEmptyEncoding(lib)
    requires CheckMessage(Some(message)) == None
    ensures Dequeue(lib, Enqueue(lib, s, Some(message), id, false).lists, false).response
              == DecodeClaim(lib, EntryFor(lib, id, message))
  {
    SubmitThenClaim(lib, s, message, id);
    assert lib.stringify(id, lib.escape(message)) != "";
  }

  /** As written, two submissions on an empty queue are claimed newest first. */
  lemma ClaimTakesNewest(lib: Library, first: string, firstId: string, second: string, secondId: string)
    requires CheckMessage(Some(first)) == None && CheckMessage(Some(second)) == None
    ensures var t1 := Enqueue(lib, Lists([], []), Some(first), firstId, false).lists;
            var t2 := Enqueue(lib, t1, Some(second), secondId, false).lists;
            Dequeue(lib, t2, false).lists == Lists([EntryFor(lib, firstId, first)], [EntryFor(lib, secondId, second)])
  {
    var t1 := Enqueue(lib, Lists([], []), Some(first), firstId, false).lists;
    SubmitThenClaim(lib, t1, second, secondId);
  }

  /** Enqueue that hands out the oldest entry first, as a work queue is
      expected to: LPUSH onto the left end, opposite the end RPOPLPUSH takes
      from. */
  function EnqueueFifo(lib: Library, s: Lists, message: Option<string>, id: string, storeFails: bool): (r: Step<()>)
    ensures r.response == Enqueue(lib, s, message, id, storeFails).response
    ensures !r.response.Ok? ==> r.lists == s
    ensures r.response.Ok? ==>
      r.lists == Lists([EntryFor(lib, id, message.value)] + s.pending, s.inProgress)
  {
    match CheckMessage(message)
    case Some(reason) => Step(s, BadRequest(reason))
    case None =>
      var entry := lib.stringify(id, lib.escape(message.value));
      if storeFails then Step(s, ServerError)
      else Step(Lists([entry] + s.pending, s.inProgress), Ok(()))
  }

  /** With the left-end enqueue, a submission waits behind every entry already
      pending: a dequeue claims the oldest pending entry, not the new one. */
  lemma FifoClaimTakesOldest(lib: Library, s: Lists, message: string, id: string)
    requires CheckMessage(Some(message)) == None
    requires s.pending != []
    ensures var d := Dequeue(lib, EnqueueFifo(lib, s, Some(message), id, false).lists, false);
            && d.lists == Lists([EntryFor(lib, id, message)] + s.pending[..|s.pending| - 1],
                                [s.pending[|s.pending| - 1]] + s.inProgress)
            && d.response == ClaimAnswer(lib, Some(s.pending[|s.pending| - 1]))
  {
    var t := EnqueueFifo(lib, s, Some(message), id, false).lists;
    assert t.pending[..|t.pending| - 1] == [EntryFor(lib, id, message)] + s.pending[..|s.pending| - 1];
  }

  /** With the left-end enqueue, two submissions on an empty queue are claimed
      oldest first. */
  lemma FifoClaimTakesFirst(lib: Library, first: string, firstId: string, second: string, secondId: string)
    requires CheckMessage(Some(first)) == None && CheckMessage(Some(second)) == None
    ensures var t1 := EnqueueFifo(lib, Lists([], []), Some(first), firstId, false).lists;
            var t2 := EnqueueFifo(lib, t1, Some(second), secondId, false).lists;
            Dequeue(lib, t2, false).lists == Lists([EntryFor(lib, secondId, second)], [EntryFor(lib, firstId, first)])
  {
    var t1 := EnqueueFifo(lib, Lists([], []), Some(first), firstId, false).lists;
    FifoClaimTakesOldest(lib, t1, second, secondId);
  }

  // ---------------------------------------------------------------------
  // Completing what was claimed

  /** Finish as the protocol intends: LREM 0 on in-progress, where claimed
      work resides. */
  function FinishClaimed(lib: Library, s: Lists, id: Option<string>, message: Option<string>, storeFails: bool): (r: Step<()>)
    ensures r.lists.pending == s.pending
    ensures r.response == Finish(lib, s, id, message, storeFails).response
    ensures !r.response.Ok? ==> r.lists == s
    ensures r.response.Ok? ==>
      var entry := lib.stringify(id.value, message.value);
      && r.lists.inProgress == LRemAll(s.inProgress, entry)
      && entry !in r.lists.inProgress
      && multiset(r.lists.inProgress) == multiset(s.inProgress)[entry := 0]
      && |r.lists.inProgress| == |s.inProgress| - multiset(s.inProgress)[entry]
  {
    match CheckCompletion(id, message)
    case Some(reason) => Step(s, BadRequest(reason))
    case None =>
      var entry := lib.stringify(id.value, message.value);
      if storeFails then Step(s, ServerError)
      else
        LRemAllCounts(s.inProgress, entry);
        Step(Lists(s.pending, LRemAll(s.inProgress, entry)), Ok(()))
  }

  /** As written, finishing a claimed entry with its own id and stored message
      answers 200 and leaves the entry in in-progress. */
  lemma FinishLeavesClaimInProgress(lib: Library, s: Lists, message: string, id: string)
    requires CheckMessage(Some(message)) == None
    requires id != "" && lib.escape(message) != ""
    ensures var d := Dequeue(lib, Enqueue(lib, s, Some(message), id, false).lists, false);
            var f := Finish(lib, d.lists, Some(id), Some(lib.escape(message)), false);
            && f.response == Ok(())
            && f.lists.inProgress == [EntryFor(lib, id, message)] + s.inProgress
  {
    SubmitThenClaim(lib, s, message, id);
  }

  /** Submit, claim and the intended finish of the claimed entry, under a
      fresh id, bring both lists back to where they were; in-progress grows by
      one on the claim and shrinks by one on the finish. */
  lemma SubmitClaimFinishRestores(lib: Library, s: Lists, message: string, id: string)
    requires RoundTrips(lib)
    requires IdFresh(lib, id, s.Entries())
    requires CheckMessage(Some(message)) == None
    requires id != "" && lib.escape(message) != ""
    ensures var d := Dequeue(lib, Enqueue(lib, s, Some(message), id, false).lists, false);
            var f := FinishClaimed(lib, d.lists, Some(id), Some(lib.escape(message)), false);
            && |d.lists.inProgress| == |s.inProgress| + 1
            && f.response == Ok(())
            && f.lists == s
  {
    var entry := EntryFor(lib, id, message);
    SubmitThenClaim(lib, s, message, id);
    FreshEntryIsNew(lib, s.Entries(), id, message);
    assert entry !in s.inProgress;
    calc {
      LRemAll([entry] + s.inProgress, entry);
      { LRemAllConcat([entry], s.inProgress, entry); }
      LRemAll([entry], entry) + LRemAll(s.inProgress, entry);
      { LRemAllAbsent(s.inProgress, entry); }
      s.inProgress;
    }
  }

  /** A scenario from start to end: submit "SOS" on an empty queue, length 1, claim it
      back, length 0, finish it. As written the entry stays in in-progress;
      the intended finish empties it. The escape is assumed to leave the id
      and "SOS" as they are (neither holds a character it rewrites). */
  lemma SosScenario(lib: Library, x: string)
    requires RoundTrips(lib) && NonEmptyEncoding(lib)
    requires x != "" && lib.escape(x) == x && lib.escape("SOS") == "SOS"
    ensures var e := Enqueue(lib, Lists([], []), Some("SOS"), x, false);
            var d := Dequeue(lib, e.lists, false);
            && e.response == Ok(())
            && Length(e.lists, false) == Ok(1)
            && d.response == Ok(Claimed(x, "SOS"))
            && Length(d.lists, false) == Ok(0)
            && |Finish(lib, d.lists, Some(x), Some("SOS"), false).lists.inProgress| == 1
            && FinishClaimed(lib, d.lists, Some(x), Some("SOS"), false).lists == Lists([], [])
  {
    assert Utf16Length("SOS") == 3;
    DecodeClaimOfEntry(lib, x, "SOS");
    SubmitThenClaimDecodes(lib, Lists([], []), "SOS", x);
    SubmitClaimFinishRestores(lib, Lists([], []), "SOS", x);
  }

  // ---------------------------------------------------------------------
  // Many requests

  datatype Submission = Submission(message: string, id: string)

  /** Every message of the batch passes the enqueue guards. */
  predicate AllAccepted(batch: seq<Submission>)
  {
    forall k :: 0 <= k < |batch| ==> CheckMessage(Some(batch[k].message)) == None
  }

  /** The entries a batch of submissions stores, in submission order. */
  function EntriesOf(lib: Library, batch: seq<Submission>): (r: seq<string>)
    ensures |r| == |batch|
  {
    if batch == [] then [] else [EntryFor(lib, batch[0].id, batch[0].message)] + EntriesOf(lib, batch[1..])
  }

  /** Entry k of a batch's entries is the entry submission k stores. */
  lemma {:induction false} EntriesOfAt(lib: Library, batch: seq<Submission>, k: nat)
    requires k < |batch|
    ensures EntriesOf(lib, batch)[k] == EntryFor(lib, batch[k].id, batch[k].message)
    decreases |batch|
  {
    if k > 0 {
      EntriesOfAt(lib, batch[1..], k - 1);
      assert batch[1..][k - 1] == batch[k];
    }
  }

  /** Enqueues each submission of the batch in turn. */
  function SubmitAll(lib: Library, s: Lists, batch: seq<Submission>): Lists
    decreases |batch|
  {
    if batch == [] then s
    else SubmitAll(lib, Enqueue(lib, s, Some(batch[0].message), batch[0].id, false).lists, batch[1..])
  }

  /** Dequeues `j` times in a row. */
  function ClaimTimes(s: Lists, j: nat): Lists
    decreases j
  {
    if j == 0 then s else ClaimTimes(Claim(s), j - 1)
  }

  /** Submitting an accepted batch appends its entries to pending in order. */
  lemma {:induction false} SubmitAllAppends(lib: Library, s: Lists, batch: seq<Submission>)
    requires AllAccepted(batch)
    ensures SubmitAll(lib, s, batch) == Lists(s.pending + EntriesOf(lib, batch), s.inProgress)
    decreases |batch|
  {
    if batch != [] {
      var head, tail := batch[0], batch[1..];
      var entry := EntryFor(lib, head.id, head.message);
      assert CheckMessage(Some(head.message)) == None;
      var t := Enqueue(lib, s, Some(head.message), head.id, false).lists;
      assert t == Lists(s.pending + [entry], s.inProgress);
      AcceptedTail(batch);
      SubmitAllAppends(lib, t, tail);
      assert EntriesOf(lib, batch) == [entry] + EntriesOf(lib, tail);
      AppendRegroup(s.pending, entry, EntriesOf(lib, tail));
    }
  }

  /** Appending one element and then a list is appending the two together. */
  lemma AppendRegroup<T>(front: seq<T>, x: T, back: seq<T>)
    ensures (front + [x]) + back == front + ([x] + back)
  {
  }

  /** Every submission after the first of an accepted batch is accepted. */
  lemma AcceptedTail(batch: seq<Submission>)
    requires batch != [] && AllAccepted(batch)
    ensures AllAccepted(batch[1..])
  {
    forall k | 0 <= k < |batch[1..]| ensures CheckMessage(Some(batch[1..][k].message)) == None {
      assert batch[1..][k] == batch[k + 1];
    }
  }

  /** Dequeueing as many times as there are entries in the right part of
      pending moves exactly that part, in its order, to the left end of
      in-progress: the newest entry is claimed first and ends up last of them. */
  lemma {:induction false} ClaimTimesMoves(s: Lists, rest: seq<string>, taken: seq<string>)
    requires s.pending == rest + taken
    ensures ClaimTimes(s, |taken|) == Lists(rest, taken + s.inProgress)
    decreases |taken|
  {
    if taken == [] {
      assert rest == s.pending && [] + s.inProgress == s.inProgress;
    } else {
      var before, last := taken[..|taken| - 1], taken[|taken| - 1];
      CutLast(rest, taken);
      ClaimTakesLast(s, rest + before, last);
      ClaimTimesMoves(Claim(s), rest, before);
    }
  }

  /** A dequeue takes the right-most pending entry. */
  lemma ClaimTakesLast(s: Lists, front: seq<string>, last: string)
    requires s.pending == front + [last]
    ensures Claim(s) == Lists(front, [last] + s.inProgress)
  {
    assert s.pending[..|s.pending| - 1] == front;
  }

  /** Taking the last element off the right part of a concatenation. */
  lemma CutLast<T>(rest: seq<T>, taken: seq<T>)
    requires taken != []
    ensures var before, last := taken[..|taken| - 1], taken[|taken| - 1];
            && rest + taken == (rest + before) + [last]
            && forall q: seq<T> :: before + ([last] + q) == taken + q
  {
    var before, last := taken[..|taken| - 1], taken[|taken| - 1];
    assert taken == before + [last];
    forall q: seq<T> ensures before + ([last] + q) == taken + q {
      assert before + ([last] + q) == (before + [last]) + q;
    }
  }

  /** K accepted submissions on an empty queue followed by J <= K claims:
      the length is K - J, the first K - J submitted entries still wait, the
      last J are in progress, and no entry is lost or doubled. */
  lemma SubmitsThenClaims(lib: Library, batch: seq<Submission>, j: nat)
    requires AllAccepted(batch)
    requires j <= |batch|
    ensures var entries := EntriesOf(lib, batch);
            var t := ClaimTimes(SubmitAll(lib, Lists([], []), batch), j);
            && t == Lists(entries[..|batch| - j], entries[|batch| - j..])
            && Length(t, false) == Ok(|batch| - j)
            && t.Entries() == entries
  {
    SubmitAllOnEmpty(lib, batch);
    ClaimsFromSubmitted(EntriesOf(lib, batch), j);
  }

  /** An accepted batch submitted to an empty queue leaves exactly its
      entries pending, in submission order, and nothing in progress. */
  lemma SubmitAllOnEmpty(lib: Library, batch: seq<Submission>)
    requires AllAccepted(batch)
    ensures SubmitAll(lib, Lists([], []), batch) == Lists(EntriesOf(lib, batch), [])
  {
    SubmitAllAppends(lib, Lists([], []), batch);
    assert [] + EntriesOf(lib, batch) == EntriesOf(lib, batch);
  }

  /** J claims on a queue whose pending list is `entries` and whose
      in-progress list is empty split `entries` at K - J: the front stays
      pending, the back is in progress in the same order. */
  lemma ClaimsFromSubmitted(entries: seq<string>, j: nat)
    requires j <= |entries|
    ensures var k := |entries| - j;
            && ClaimTimes(Lists(entries, []), j) == Lists(entries[..k], entries[k..])
            && entries[..k] + entries[k..] == entries
  {
    var k := |entries| - j;
    CutAt(entries, k);
    ClaimTimesMoves(Lists(entries, []), entries[..k], entries[k..]);
  }

  /** A list is its two pieces around any cut. */
  lemma CutAt<T>(list: seq<T>, k: nat)
    requires k <= |list|
    ensures list == list[..k] + list[k..]
  {
  }
}
