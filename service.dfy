/** The four HTTP handlers of the morse queue server, on the two Redis lists
    they share. Each method is one request; the Redis commands it issues are
    atomic, and the state between requests is the two list fields. */
module Service {
  import opened External
  import opened Validation
  import opened RedisList
  import opened Protocol

  class WorkQueue {
    /** validator.escape, JSON.stringify and JSON.parse. */
    const lib: Library
    /** The Redis list `queue:messages`; index 0 is its left end. */
    var pending: seq<string>
    /** The Redis list `queue:in-progress`; index 0 is its left end. */
    var inProgress: seq<string>

    ghost function State(): Lists
      reads this
    {
      Lists(pending, inProgress)
    }

    /** A server on a store whose two lists are empty. */
    constructor (lib: Library)
      ensures this.lib == lib
      ensures pending == [] && inProgress == []
    {
      this.lib := lib;
      pending := [];
      inProgress := [];
    }

    /** POST /enqueue with form field `message`; `id` is what shortid.generate
        returned. */
    method Enqueue(message: Option<string>, id: string, storeFails: bool) returns (r: Response<()>)
      modifies this
      ensures Step(State(), r) == Protocol.Enqueue(lib, old(State()), message, id, storeFails)
      ensures inProgress == old(inProgress)
      ensures r.Ok? ==> pending == old(pending) + [EntryFor(lib, id, message.value)]
      ensures !r.Ok? ==> pending == old(pending)
    {
      if !Present(message) {
        return BadRequest(InvalidParameters);
      }
      var text := message.value;
      if Utf16Length(text) > MaximumMessageLength {
        return BadRequest(InvalidMessageLength);
      }
      text := lib.escape(text);
      var entry := lib.stringify(id, text);
      if storeFails {
        return ServerError;
      }
      pending := RPush(pending, entry);
      r := Ok(());
    }

    /** POST /dequeue. */
    method Dequeue(storeFails: bool) returns (r: Response<Claimed>)
      modifies this
      ensures Step(State(), r) == Protocol.Dequeue(lib, old(State()), storeFails)
      ensures |pending| + |inProgress| == |old(pending)| + |old(inProgress)|
      ensures !storeFails && old(pending) != [] ==>
        inProgress == [old(pending)[|old(pending)| - 1]] + old(inProgress)
    {
      if storeFails {
        return ServerError;
      }
      var moved := RPopLPush(pending, inProgress);
      pending, inProgress := moved.source, moved.destination;
      if !Present(moved.entry) {
        return NoContent;
      }
      var parsedEntry := lib.parse(moved.entry.value);
      if parsedEntry.None? {
        return ServerError;
      }
      var idText := FieldText(parsedEntry.value.id);
      if idText.None? {
        return ServerError;
      }
      var id := lib.escape(idText.value);
      var messageText := FieldText(parsedEntry.value.message);
      if messageText.None? {
        return ServerError;
      }
      var message := lib.escape(messageText.value);
      if id == "" {
        return ServerError;
      }
      if message == "" {
        return ServerError;
      }
      r := Ok(Claimed(id, message));
    }

    /** POST /finish with form fields `id` and `message`. */
    method Finish(id: Option<string>, message: Option<string>, storeFails: bool) returns (r: Response<()>)
      modifies this
      ensures Step(State(), r) == Protocol.Finish(lib, old(State()), id, message, storeFails)
      ensures inProgress == old(inProgress)
      ensures r.Ok? ==> pending == LRemAll(old(pending), lib.stringify(id.value, message.value))
      ensures !r.Ok? ==> pending == old(pending)
    {
      if !Present(id) {
        return BadRequest(InvalidParameters);
      }
      if !Present(message) {
        return BadRequest(InvalidParameters);
      }
      var entry := lib.stringify(id.value, message.value);
      if storeFails {
        return ServerError;
      }
      pending := LRemAll(pending, entry);
      r := Ok(());
    }

    /** GET /length. */
    method Length(storeFails: bool) returns (r: Response<nat>)
      ensures storeFails ==> r == ServerError
      ensures !storeFails ==> r == Ok(|pending|)
      ensures r == Protocol.Length(State(), storeFails)
    {
      if storeFails {
        return ServerError;
      }
      r := Ok(|pending|);
    }
  }

  /** A client of the class: submit "SOS", count, claim, count, finish. The
      claim hands back (x, "SOS"), and the claimed entry is still in
      in-progress after the finish answered 200. */
  method SosSession(lib: Library, x: string) returns (claimed: Response<Claimed>, finished: Response<()>, stranded: seq<string>)
    requires RoundTrips(lib) && NonEmptyEncoding(lib)
    requires x != "" && lib.escape(x) == x && lib.escape("SOS") == "SOS"
    ensures claimed == Ok(Claimed(x, "SOS"))
    ensures finished == Ok(())
    ensures stranded == [lib.stringify(x, "SOS")]
  {
    var queue := new WorkQueue(lib);
    var submitted := queue.Enqueue(Some("SOS"), x, false);
    assert Utf16Length("SOS") == 3;
    assert submitted == Ok(());
    var length := queue.Length(false);
    assert length == Ok(1);
    DecodeClaimOfEntry(lib, x, "SOS");
    assert lib.stringify(x, "SOS") != "";
    claimed := queue.Dequeue(false);
    assert claimed == Ok(Claimed(x, "SOS"));
    length := queue.Length(false);
    assert length == Ok(0);
    finished := queue.Finish(Some(x), Some("SOS"), false);
    stranded := queue.inProgress;
  }
}
