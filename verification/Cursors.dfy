/** Cursors as text: parseActivityCursor of src/lib/activity-query.ts and parseKey of src/lib/notifications.ts. */
module Cursors {
  import opened Days

  /** A reading of instants: `Iso` writes one and `Parse` reads one, without the separators. */
  datatype Clock = Clock(iso: int -> string, parse: string -> Option<int>)

  ghost predicate ValidClock(c: Clock) {
    forall at :: c.parse(c.iso(at)) == Some(at) && '|' !in c.iso(at) && '~' !in c.iso(at)
  }

  /** The parts of a text between separators, as String.prototype.split gives them. */
  function Split(s: string, sep: char): (parts: seq<string>)
    ensures |parts| >= 1
  {
    if s == [] then [""]
    else
      var rest := Split(s[1..], sep);
      if s[0] == sep then [""] + rest else [[s[0]] + rest[0]] + rest[1..]
  }

  /** An instant and perhaps an id to resume after. */
  datatype Parsed = Parsed(at: Option<int>, afterId: Option<string>)

  function ParseActivity(c: Clock, cursor: string): Parsed {
    if cursor == "" then Parsed(None, None)
    else
      var parts := Split(cursor, '|');
      Parsed(c.parse(parts[0]), if |parts| > 1 && parts[1] != "" then Some(parts[1]) else None)
  }

  function WriteActivity(c: Clock, at: int, id: string): string {
    c.iso(at) + "|" + id
  }

  /** None stands for a cursor the bell refuses. */
  function ParseBell(c: Clock, cursor: string): Option<(int, string)> {
    var parts := Split(cursor, '~');
    var at := c.parse(parts[0]);
    if |parts| > 1 && parts[1] != "" && at.Some? then Some((at.value, parts[1])) else None
  }

  function WriteBell(c: Clock, at: int, id: string): string {
    c.iso(at) + "~" + id
  }

  /** The first part runs to the first separator, and the second from there to the next. */
  lemma {:induction false} SplitAfter(head: string, tail: string, sep: char)
    requires sep !in head
    ensures Split(head + [sep] + tail, sep) == [head] + Split(tail, sep)
  {
    var s := head + [sep] + tail;
    if head == [] {
      assert s[1..] == tail;
    } else {
      assert s[1..] == head[1..] + [sep] + tail;
      SplitAfter(head[1..], tail, sep);
      assert [head[0]] + head[1..] == head;
    }
  }

  lemma {:induction false} FirstPart(s: string, sep: char)
    ensures Split(s, sep)[0] <= s
    ensures Split(s, sep)[0] == s <==> sep !in s
  {
    if s != [] {
      FirstPart(s[1..], sep);
      assert s == [s[0]] + s[1..];
    }
  }

  /** A cursor comes back as it was written exactly when its id has no separator in it and is not empty. */
  lemma {:induction false} CursorsComeBack(c: Clock, at: int, id: string)
    requires ValidClock(c)
    ensures ParseActivity(c, WriteActivity(c, at, id)) == Parsed(Some(at), Some(id)) <==> id != "" && '|' !in id
    ensures ParseBell(c, WriteBell(c, at, id)) == Some((at, id)) <==> id != "" && '~' !in id
    ensures ParseActivity(c, WriteActivity(c, at, id)).at == Some(at)
  {
    assert c.parse(c.iso(at)) == Some(at);
    SplitAfter(c.iso(at), id, '|');
    SplitAfter(c.iso(at), id, '~');
    FirstPart(id, '|');
    FirstPart(id, '~');
  }
}
