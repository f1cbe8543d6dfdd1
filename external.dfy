/** The library code the queue handlers call but whose text is not part of this
    model: `validator.escape`, `JSON.stringify` and `JSON.parse`. They are not
    given bodies of their own; a `Library` value carries them as functions.
    Two facts about `JSON.stringify` and `JSON.parse` are stated here, and a
    lemma assumes one only as a hypothesis of its own: the JSON round trip
    (`RoundTrips`) and that an encoded object is never the empty string
    (`NonEmptyEncoding`). */
module External {

  datatype Option<T> = None | Some(value: T)

  /** A property of a parsed entry, as the dequeue handler reads it. */
  datatype Field =
    | Falsy            // absent, null, false, 0 or "": `field || ''` gives ''
    | Str(s: string)   // a string
    | NonString        // a truthy value that is not a string (number, object, array, true)

  /** What `JSON.parse(entry)` yields, seen through `['id']` and `['message']`.
      A parse error and a parsed `null` (whose properties cannot be read) are `None`. */
  datatype Record = Record(id: Field, message: Field)

  datatype Library = Library(
    escape: string -> string,                 // validator.escape
    stringify: (string, string) -> string,    // JSON.stringify({'id': id, 'message': message})
    parse: string -> Option<Record>)          // JSON.parse, then property access

  /** Parsing an entry written by `stringify` gives back both strings. */
  ghost predicate RoundTrips(lib: Library)
  {
    forall id: string, message: string {:trigger lib.stringify(id, message)} ::
      lib.parse(lib.stringify(id, message)) == Some(Record(Str(id), Str(message)))
  }

  /** `JSON.stringify` of an object writes at least its braces, so an entry
      is never the empty string. */
  ghost predicate NonEmptyEncoding(lib: Library)
  {
    forall id: string, message: string {:trigger lib.stringify(id, message)} ::
      lib.stringify(id, message) != ""
  }

  /** The string handed to `validator.escape` for a field (`field || ''`);
      `None` when the field is a non-string, which `validator.escape` refuses
      by throwing. */
  function FieldText(f: Field): (r: Option<string>)
    ensures r.None? <==> f.NonString?
    ensures f.Falsy? ==> r == Some("")
    ensures f.Str? ==> r == Some(f.s)
  {
    match f
    case Falsy => Some("")
    case Str(s) => Some(s)
    case NonString => None
  }

  /** Under the round trip, two entries written by `stringify` are equal only
      when they were written from the same id and message. */
  lemma StringifyInjective(lib: Library, id1: string, m1: string, id2: string, m2: string)
    requires RoundTrips(lib)
    requires lib.stringify(id1, m1) == lib.stringify(id2, m2)
    ensures id1 == id2 && m1 == m2
  {
    assert lib.parse(lib.stringify(id1, m1)) == Some(Record(Str(id1), Str(m1)));
    assert lib.parse(lib.stringify(id2, m2)) == Some(Record(Str(id2), Str(m2)));
  }
}
