/** The three Redis list commands the queue handlers issue, on a list held as a
    sequence whose index 0 is the left end (the head). Each command is one
    indivisible step of the store. */
module RedisList {
  import opened External

  /** RPUSH key value: appends at the right end. */
  function RPush<T>(list: seq<T>, value: T): (r: seq<T>)
    ensures |r| == |list| + 1 && r[|list|] == value
    ensures r[..|list|] == list
  {
    list + [value]
  }

  /** What RPOPLPUSH source destination answers, and the two lists after it. */
  datatype Moved<T> = Moved(entry: Option<T>, source: seq<T>, destination: seq<T>)

  /** RPOPLPUSH source destination on two distinct keys: pops the right end of
      source and pushes it onto the left end of destination; nil (and no
      change) when source is empty. */
  function RPopLPush<T>(source: seq<T>, destination: seq<T>): (r: Moved<T>)
    ensures r.entry.None? <==> source == []
    ensures source == [] ==> r.source == source && r.destination == destination
    ensures source != [] ==>
      && r.entry == Some(source[|source| - 1])
      && source == r.source + [r.entry.value]
      && r.destination == [r.entry.value] + destination
  {
    if source == [] then
      Moved(None, source, destination)
    else
      var last := source[|source| - 1];
      assert source == source[..|source| - 1] + [last];
      Moved(Some(last), source[..|source| - 1], [last] + destination)
  }

  /** RPOPLPUSH takes from the end RPUSH adds to: right after a push it moves
      the value just pushed, and the source is back as it was. */
  lemma RPopLPushTakesPushed<T>(list: seq<T>, value: T, destination: seq<T>)
    ensures RPopLPush(RPush(list, value), destination) == Moved(Some(value), list, [value] + destination)
  {
    assert RPush(list, value)[..|list|] == list;
  }

  /** LREM key 0 value: removes every element equal to value (a count of 0
      means all of them) and keeps the others in their order. */
  function LRemAll<T(==)>(list: seq<T>, value: T): (r: seq<T>)
    ensures value !in r
    ensures |r| <= |list|
  {
    if list == [] then
      []
    else
      (if list[0] == value then [] else [list[0]]) + LRemAll(list[1..], value)
  }

  /** LREM 0 removes exactly the occurrences of the value: every other
      element keeps its count, and the list shrinks by the value's count. */
  lemma {:induction false} LRemAllCounts<T>(list: seq<T>, value: T)
    ensures multiset(LRemAll(list, value)) == multiset(list)[value := 0]
    ensures |LRemAll(list, value)| == |list| - multiset(list)[value]
  {
    if list != [] {
      LRemAllCounts(list[1..], value);
      assert list == [list[0]] + list[1..];
    }
  }

  /** LREM works element by element: removing from a concatenation is
      concatenating the removals, so the survivors keep their order. */
  lemma {:induction false} LRemAllConcat<T>(a: seq<T>, b: seq<T>, value: T)
    ensures LRemAll(a + b, value) == LRemAll(a, value) + LRemAll(b, value)
  {
    if a == [] {
      assert a + b == b;
    } else {
      var head := if a[0] == value then [] else [a[0]];
      assert (a + b)[0] == a[0] && (a + b)[1..] == a[1..] + b;
      calc {
        LRemAll(a + b, value);
        head + LRemAll(a[1..] + b, value);
        { LRemAllConcat(a[1..], b, value); }
        head + (LRemAll(a[1..], value) + LRemAll(b, value));
        (head + LRemAll(a[1..], value)) + LRemAll(b, value);
        LRemAll(a, value) + LRemAll(b, value);
      }
    }
  }

  /** LREM of a value that does not occur leaves the list as it was. */
  lemma {:induction false} LRemAllAbsent<T>(list: seq<T>, value: T)
    requires value !in list
    ensures LRemAll(list, value) == list
  {
    if list != [] {
      LRemAllAbsent(list[1..], value);
    }
  }
}
