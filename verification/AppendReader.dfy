/** Incremental reading of an append-only rollout file: a byte cursor stays at the end of the last whole line. */
module AppendReader {
  import opened Types
  import opened FileBytes

  /** What the parser finds in a line: the event, whether it is a recovery notice and for which parent, and the
      thread it names, if any. */
  datatype Record<E> = Record(event: E, notice: bool, parent: ThreadId, thread: ThreadId)

  datatype Scanned<E> = Scanned(thread: ThreadId, event: E)

  /** The thread a file belongs to and the parser of its lines. */
  datatype Source<E> = Source(thread: ThreadId, parse: Bytes -> Option<Record<E>>)

  // ---- the whole lines of a file ----

  predicate NoFeed(file: Bytes, start: nat, end: nat)
    requires end <= |file|
  {
    forall k :: start <= k < end ==> file[k] != LF
  }

  /** Where the line that starts at `at` ends, terminator included; `at` itself if it has no terminator. */
  function LineEnd(file: Bytes, at: nat): (end: nat)
    requires at <= |file|
    ensures at <= end <= |file|
    ensures end > at ==> file[end - 1] == LF
    decreases |file| - at
  {
    if at == |file| then at
    else if file[at] == LF then at + 1
    else
      var end := LineEnd(file, at + 1);
      if end == at + 1 then at else end
  }

  /** Where the whole lines from `at` on end. */
  function WholeEnd(file: Bytes, at: nat): (end: nat)
    requires at <= |file|
    ensures at <= end <= |file|
    ensures end > at ==> file[end - 1] == LF
    decreases |file| - at
  {
    var end := LineEnd(file, at);
    if end == at then at else WholeEnd(file, end)
  }

  /** Behind the whole lines there is only an unterminated tail. */
  lemma {:induction false} TailIsUnterminated(file: Bytes, at: nat)
    requires at <= |file|
    ensures NoFeed(file, WholeEnd(file, at), |file|)
    decreases |file| - at
  {
    var end := LineEnd(file, at);
    if end == at { NoLine(file, at); } else { TailIsUnterminated(file, end); }
  }

  lemma {:induction false} NoLine(file: Bytes, at: nat)
    requires at <= |file| && LineEnd(file, at) == at
    ensures NoFeed(file, at, |file|)
    decreases |file| - at
  {
    if at < |file| { NoLine(file, at + 1); }
  }

  lemma {:induction false} LineFound(file: Bytes, at: nat, end: nat)
    requires at <= end <= |file| && NoFeed(file, at, end)
    ensures end < |file| && file[end] == LF ==> LineEnd(file, at) == end + 1
    ensures end == |file| ==> LineEnd(file, at) == at
    decreases end - at
  {
    if at < end { LineFound(file, at + 1, end); }
  }

  function EventOf<E>(source: Source<E>, line: Bytes): seq<Scanned<E>> {
    match source.parse(line)
    case None => []
    case Some(r) =>
      if r.notice && r.parent != source.thread then []
      else [Scanned(if r.thread != "" then r.thread else source.thread, r.event)]
  }

  /** The events of the whole lines from `at` on, in order. */
  function EventsFrom<E>(source: Source<E>, file: Bytes, at: nat): seq<Scanned<E>>
    requires at <= |file|
    decreases |file| - at
  {
    var end := LineEnd(file, at);
    if end == at then [] else EventOf(source, file[at..end]) + EventsFrom(source, file, end)
  }

  lemma {:induction false} LineStays(file: Bytes, grown: Bytes, at: nat)
    requires at <= |file| && file <= grown && LineEnd(file, at) > at
    ensures LineEnd(grown, at) == LineEnd(file, at)
    decreases |file| - at
  {
    assert grown[at] == file[at];
    if file[at] != LF { LineStays(file, grown, at + 1); }
  }

  /** When the file grows, the lines that were whole stay as they are and reading continues behind them. */
  lemma {:induction false} EndContinues(file: Bytes, grown: Bytes, at: nat)
    requires at <= |file| && file <= grown
    ensures WholeEnd(grown, at) == WholeEnd(grown, WholeEnd(file, at))
    decreases |file| - at
  {
    var end := LineEnd(file, at);
    if end != at {
      LineStays(file, grown, at);
      EndContinues(file, grown, end);
    }
  }

  lemma Regrouped<A>(one: seq<A>, two: seq<A>, three: seq<A>)
    ensures one + (two + three) == (one + two) + three
  {
  }

  /** No event is read twice and none is lost. */
  lemma {:induction false} EventsContinue<E>(source: Source<E>, file: Bytes, grown: Bytes, at: nat)
    requires at <= |file| && file <= grown
    ensures EventsFrom(source, grown, at) == EventsFrom(source, file, at)
        + EventsFrom(source, grown, WholeEnd(file, at))
    decreases |file| - at
  {
    var end := LineEnd(file, at);
    if end != at {
      LineStays(file, grown, at);
      EventsContinue(source, file, grown, end);
      assert grown[at..end] == file[at..end];
      Regrouped(EventOf(source, file[at..end]), EventsFrom(source, file, end),
                EventsFrom(source, grown, WholeEnd(file, end)));
    }
  }

  /** A line alone. */
  predicate OneLineOf(line: Bytes) { line != [] && line[|line| - 1] == LF && NoFeed(line, 0, |line| - 1) }

  lemma AppendedEnd(file: Bytes, line: Bytes)
    requires OneLineOf(line)
    ensures LineEnd(file + line, |file|) == |file + line| == WholeEnd(file + line, |file|)
  {
    var grown := file + line;
    assert NoFeed(grown, |file|, |grown| - 1);
    LineFound(grown, |file|, |grown| - 1);
    assert LineEnd(grown, |grown|) == |grown|;
  }

  lemma AppendedEvents<E>(source: Source<E>, file: Bytes, line: Bytes)
    requires OneLineOf(line)
    ensures EventsFrom(source, file + line, |file|) == EventOf(source, line)
  {
    var grown := file + line;
    AppendedEnd(file, line);
    NothingBehind(source, grown);
    assert grown[|file|..|grown|] == line;
  }

  /** A whole line appended to whole lines adds its own event for the thread it names or else for that of the file,
      and none if it does not parse or is a notice for another parent. */
  lemma AppendedLine<E>(source: Source<E>, file: Bytes, line: Bytes)
    requires WholeEnd(file, 0) == |file| && OneLineOf(line)
    ensures EventsFrom(source, file + line, 0) == EventsFrom(source, file, 0) +
      match source.parse(line)
      case None => []
      case Some(r) =>
        if r.notice && r.parent != source.thread then []
        else [Scanned(if r.thread == "" then source.thread else r.thread, r.event)]
    ensures WholeEnd(file + line, 0) == |file + line|
  {
    EventsContinue(source, file, file + line, 0);
    EndContinues(file, file + line, 0);
    AppendedEnd(file, line);
    AppendedEvents(source, file, line);
  }

  lemma NothingBehind<E>(source: Source<E>, file: Bytes)
    ensures LineEnd(file, |file|) == |file| && EventsFrom(source, file, |file|) == []
  {
  }

  // ---- reading ----

  predicate Terminated(line: Bytes) { line != [] && line[|line| - 1] == LF }

  /** `ReadBytes`: up to and including the next line feed, or what is left. */
  method ReadLine(file: Bytes, start: nat) returns (line: Bytes)
    requires start <= |file|
    ensures start + |line| <= |file| && line == file[start..start + |line|]
    ensures LineEnd(file, start) == if Terminated(line) then start + |line| else start
  {
    var end := start;
    while end < |file| && file[end] != LF
      invariant start <= end <= |file| && NoFeed(file, start, end)
    {
      end := end + 1;
    }
    LineFound(file, start, end);
    if end < |file| {
      return file[start..end + 1];
    }
    line := file[start..];
    assert start < end ==> file[end - 1] != LF;
  }

  lemma OneLine<E>(source: Source<E>, file: Bytes, events: seq<Scanned<E>>, at: nat, end: nat)
    requires at < end <= |file| && LineEnd(file, at) == end
    ensures (events + EventOf(source, file[at..end])) + EventsFrom(source, file, end) == events
        + EventsFrom(source, file, at)
    ensures WholeEnd(file, at) == WholeEnd(file, end)
  {
  }

  /** A line that does not parse, or a notice for another parent, gives no event. */
  method ParseLine<E>(line: Bytes, source: Source<E>) returns (events: seq<Scanned<E>>)
    ensures events == EventOf(source, line)
  {
    var parsed := source.parse(line);
    if parsed.None? {
      return [];
    }
    var record := parsed.value;
    if record.notice && record.parent != source.thread {
      return [];
    }
    var thread := source.thread;
    if record.thread != "" {
      thread := record.thread;
    }
    return [Scanned(thread, record.event)];
  }

  /** `readAppendedEvents` on what the file holds while it is read. */
  method ReadAppendedEvents<E>(file: Bytes, offset: nat, source: Source<E>) returns (events: seq<Scanned<E>>, next: nat)
    requires offset <= |file|
    ensures events == EventsFrom(source, file, offset)
    ensures next == WholeEnd(file, offset)
  {
    events := [];
    var current := offset;
    while true
      invariant offset <= current <= |file|
      invariant events + EventsFrom(source, file, current) == EventsFrom(source, file, offset)
      invariant WholeEnd(file, current) == WholeEnd(file, offset)
      decreases |file| - current
    {
      var lineStart := current;
      var line := ReadLine(file, current);
      current := current + |line|;
      if !Terminated(line) {
        current := lineStart;
        break;
      }
      OneLine(source, file, events, lineStart, current);
      var more := ParseLine(line, source);
      events := events + more;
    }
    return events, current;
  }

  // ---- one file over many scans ----

  /** A scan sees a size and then reads a file that may have grown since. */
  datatype Visit = Visit(size: nat, content: Bytes)

  predicate Follows(v: Visit, later: Visit) {
    v.content <= later.content && |v.content| <= later.size
  }

  predicate Grows(visits: seq<Visit>, from: nat) {
    && (forall i :: 0 <= i < |visits| ==> from <= visits[i].size <= |visits[i].content|)
    && (forall i :: 0 < i < |visits| ==> Follows(visits[i - 1], visits[i]))
  }

  /** What a scan has seen when the cursor was at `cursor`. */
  function SeenBytes(v: Visit, cursor: nat): Bytes
    requires v.size <= |v.content|
  {
    if v.size == cursor then v.content[..cursor] else v.content
  }

  class Cursor {
    var offset: nat

    constructor (start: nat)
      ensures offset == start
    {
      offset := start;
    }

    /** The cursor rules of `scanSessionDirectory` for one known file. */
    method Scan<E>(v: Visit, source: Source<E>) returns (events: seq<Scanned<E>>)
      requires v.size <= |v.content|
      modifies this
      ensures v.size < old(offset) ==> offset == v.size && events == []
      ensures v.size >= old(offset) ==>
        var seen := SeenBytes(v, old(offset));
        events == EventsFrom(source, seen, old(offset)) && offset == WholeEnd(seen, old(offset))
    {
      if v.size < offset {
        offset := v.size;
        return [];
      }
      if v.size == offset {
        return [];
      }
      events, offset := ReadAppendedEvents(v.content, offset, source);
    }

    /** Any number of scans of a growing file give the events that one reading of the last content gives; the
        cursor is at the end of a whole line, and only an unterminated tail is left. */
    method ScanAll<E>(visits: seq<Visit>, source: Source<E>) returns (events: seq<Scanned<E>>, ghost seen: Bytes)
      requires visits != [] && Grows(visits, offset)
      modifies this
      ensures seen <= visits[|visits| - 1].content && visits[|visits| - 1].size <= |seen|
          && old(offset) <= offset <= |seen|
      ensures events == EventsFrom(source, seen, old(offset)) && offset == WholeEnd(seen, old(offset))
      ensures offset == old(offset) || seen[offset - 1] == LF
      ensures NoFeed(seen, offset, |seen|)
    {
      ghost var start := offset;
      seen := visits[0].content[..offset];
      events := [];
      var i := 0;
      while i < |visits|
        invariant 0 <= i <= |visits| && start <= offset <= |seen|
        invariant i == 0 ==> seen == visits[0].content[..start]
        invariant i > 0 ==> seen <= visits[i - 1].content && visits[i - 1].size <= |seen|
        invariant events == EventsFrom(source, seen, start) && offset == WholeEnd(seen, start)
      {
        assert i > 0 ==> Follows(visits[i - 1], visits[i]);
        NextVisit(source, seen, visits[i], start);
        seen := SeenBytes(visits[i], offset);
        var more := Scan(visits[i], source);
        events := events + more;
        i := i + 1;
      }
      TailIsUnterminated(seen, start);
    }
  }

  /** One scan continues where the ones before it stopped. */
  lemma NextVisit<E>(source: Source<E>, before: Bytes, v: Visit, start: nat)
    requires start <= |before| <= v.size <= |v.content| && before <= v.content
    ensures var offset := WholeEnd(before, start);
      var seen := SeenBytes(v, offset);
      && before <= seen
      && EventsFrom(source, seen, start) == EventsFrom(source, before, start) + EventsFrom(source, seen, offset)
      && WholeEnd(seen, start) == WholeEnd(seen, offset)
  {
    var seen := SeenBytes(v, WholeEnd(before, start));
    EndContinues(before, seen, start);
    EventsContinue(source, before, seen, start);
  }
}
