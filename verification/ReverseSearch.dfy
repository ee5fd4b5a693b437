/** Finding the newest settings record: a rollout file is searched backwards in blocks for the last line whose
    prefix matches. */
module ReverseSearch {
  import opened FileBytes

  const PREFIX_BYTES: int := 4096
  const MAX_LINE_BYTES: int := 8 * 1024 * 1024

  datatype Outcome = NotFound | TooLong | Found(line: Bytes)

  // ---- what is searched for ----

  predicate NoFeed(file: Bytes, start: nat, end: nat)
    requires end <= |file|
  {
    forall k :: start <= k < end ==> file[k] != LF
  }

  /** `[start, end)` is a line of the first `size` bytes, without its terminator. */
  predicate IsLine(file: Bytes, size: nat, start: nat, end: nat)
    requires size <= |file|
  {
    && start <= end <= size
    && (start == 0 || file[start - 1] == LF)
    && (end == size || file[end] == LF)
    && NoFeed(file, start, end)
  }

  function Prefix(line: Bytes): Bytes {
    if |line| <= PREFIX_BYTES then line else line[..PREFIX_BYTES]
  }

  /** A non-empty line whose prefix matches. */
  predicate IsMatch(file: Bytes, size: nat, matches: Bytes -> bool, start: nat, end: nat)
    requires size <= |file|
  {
    IsLine(file, size, start, end) && start < end && matches(Prefix(file[start..end]))
  }

  function TrimCarriage(line: Bytes): Bytes {
    if line != [] && line[|line| - 1] == CR then line[..|line| - 1] else line
  }

  predicate LastMatch(file: Bytes, size: nat, matches: Bytes -> bool, start: nat, end: nat)
    requires size <= |file|
  {
    && IsMatch(file, size, matches, start, end)
    && forall s, e :: start < s <= e <= size ==> !IsMatch(file, size, matches, s, e)
  }

  function Delivered(line: Bytes): Outcome {
    if |line| > MAX_LINE_BYTES then TooLong else Found(TrimCarriage(line))
  }

  /** The answer: the last matching line, an error when that line is too long, or that there is none. */
  predicate Answers(file: Bytes, size: nat, matches: Bytes -> bool, r: Outcome)
    requires size <= |file|
  {
    if r.NotFound? then forall s, e :: 0 <= s <= e <= size ==> !IsMatch(file, size, matches, s, e)
    else exists s, e :: 0 <= s <= e <= size && LastMatch(file, size, matches, s, e) && r == Delivered(file[s..e])
  }

  // ---- what that determines ----

  lemma LineEndUnique(file: Bytes, size: nat, start: nat, e1: nat, e2: nat)
    requires size <= |file| && IsLine(file, size, start, e1) && IsLine(file, size, start, e2)
    ensures e1 == e2
  {
  }

  lemma LastMatchUnique(one: Bytes, other: Bytes, size: nat, matches: Bytes -> bool, s1: nat, e1: nat, s2: nat, e2: nat)
    requires size <= |one| && size <= |other| && one[..size] == other[..size] && s1 <= e1 <= size && s2 <= e2 <= size
    requires LastMatch(one, size, matches, s1, e1) && LastMatch(other, size, matches, s2, e2)
    ensures one[s1..e1] == other[s2..e2]
  {
    SameLines(one, other, size, matches);
    assert IsMatch(other, size, matches, s1, e1) && IsMatch(one, size, matches, s2, e2);
    LineEndUnique(one, size, s1, e1, e2);
    assert one[s1..e1] == one[..size][s1..e1];
    assert other[s1..e1] == other[..size][s1..e1];
  }

  /** Nothing but the bytes and the predicate decides the answer: not the block size, not bytes behind `size`. */
  lemma AnswerUnique(one: Bytes, other: Bytes, size: nat, matches: Bytes -> bool, r1: Outcome, r2: Outcome)
    requires size <= |one| && size <= |other| && one[..size] == other[..size]
    requires Answers(one, size, matches, r1) && Answers(other, size, matches, r2)
    ensures r1 == r2
  {
    if r1.NotFound? || r2.NotFound? {
      SameLines(one, other, size, matches);
    } else {
      var s1, e1 :| 0 <= s1 <= e1 <= size && LastMatch(one, size, matches, s1, e1) && r1 == Delivered(one[s1..e1]);
      var s2, e2 :| 0 <= s2 <= e2 <= size && LastMatch(other, size, matches, s2, e2) && r2 == Delivered(other[s2..e2]);
      LastMatchUnique(one, other, size, matches, s1, e1, s2, e2);
    }
  }

  lemma SameLines(one: Bytes, other: Bytes, size: nat, matches: Bytes -> bool)
    requires size <= |one| && size <= |other| && one[..size] == other[..size]
    ensures forall s, e :: 0 <= s <= e <= size ==>
      IsMatch(one, size, matches, s, e) == IsMatch(other, size, matches, s, e)
  {
    assert forall k :: 0 <= k < size ==> one[k] == one[..size][k] == other[k];
    forall s, e | 0 <= s <= e <= size ensures IsMatch(one, size, matches, s, e) == IsMatch(other, size, matches, s, e) {
      assert one[s..e] == one[..size][s..e] == other[..size][s..e] == other[s..e];
    }
  }

  /** A record whose first 4096 bytes match, appended to whole lines, is the one found, whatever came before it: without
      one carriage return at its end, and as an error if it has more than eight mebibytes. */
  lemma AppendedRecordIsFound(before: Bytes, record: Bytes, matches: Bytes -> bool, r: Outcome)
    requires before == [] || before[|before| - 1] == LF
    requires record != [] && NoFeed(record, 0, |record|)
    requires matches(if |record| > 4096 then record[..4096] else record)
    requires var file := before + record + [LF]; Answers(file, |file|, matches, r)
    ensures r ==
      if |record| > 8 * 1024 * 1024 then TooLong
      else Found(if record[|record| - 1] == CR then record[..|record| - 1] else record)
  {
    var file := before + record + [LF];
    var s, e := |before|, |before| + |record|;
    assert file[s..e] == record;
    assert forall k :: s <= k < e ==> file[k] == record[k - s];
    assert IsMatch(file, |file|, matches, s, e);
    forall s', e' | s < s' <= e' <= |file| ensures !IsMatch(file, |file|, matches, s', e') {
      if s' <= e { assert file[s' - 1] == record[s' - 1 - s]; }
    }
    assert LastMatch(file, |file|, matches, s, e);
    assert Answers(file, |file|, matches, Delivered(record));
    AnswerUnique(file, file, |file|, matches, r, Delivered(record));
  }

  // ---- the search ----

  /** `ReadAt`: the buffer receives `count` bytes of the file. */
  method ReadAt(file: Bytes, buffer: array<Byte>, count: nat, position: nat)
    requires count <= buffer.Length && position + count <= |file|
    modifies buffer
    ensures buffer[..count] == file[position..position + count]
  {
    var i := 0;
    while i < count
      invariant 0 <= i <= count
      invariant buffer[..i] == file[position..position + i]
    {
      buffer[i] := file[position + i];
      i := i + 1;
    }
  }

  /** `inspectMatchingLine` on a line that is known to be one. */
  method InspectLine(file: Bytes, size: nat, start: nat, end: nat, matches: Bytes -> bool) returns (r: Outcome)
    requires size <= |file| && IsLine(file, size, start, end)
    ensures r == if IsMatch(file, size, matches, start, end) then Delivered(file[start..end]) else NotFound
  {
    if end <= start {
      return NotFound;
    }
    var length := end - start;
    var prefixLength := length;
    if prefixLength > PREFIX_BYTES {
      prefixLength := PREFIX_BYTES;
    }
    var prefix := file[start..start + prefixLength];
    assert prefix == Prefix(file[start..end]);
    if !matches(prefix) {
      return NotFound;
    }
    if length > MAX_LINE_BYTES {
      return TooLong;
    }
    var line := file[start..end];
    if line[length - 1] == CR {
      line := line[..length - 1];
    }
    return Found(line);
  }

  /** No line that starts behind `end` matches. */
  predicate NoneBehind(file: Bytes, size: nat, matches: Bytes -> bool, end: nat)
    requires size <= |file|
  {
    forall s, e :: end < s <= e <= size ==> !IsMatch(file, size, matches, s, e)
  }

  /** The line between a line feed and the current line end is done: the search goes on in front of it. */
  lemma OneLineFurther(file: Bytes, size: nat, matches: Bytes -> bool, feed: nat, lineEnd: nat)
    requires feed < lineEnd <= size <= |file|
    requires file[feed] == LF && NoFeed(file, feed + 1, lineEnd) && (lineEnd == size || file[lineEnd] == LF)
    requires NoneBehind(file, size, matches, lineEnd) && !IsMatch(file, size, matches, feed + 1, lineEnd)
    ensures NoneBehind(file, size, matches, feed)
  {
    forall s, e | feed < s <= e <= size ensures !IsMatch(file, size, matches, s, e) {
      if s <= lineEnd {
        assert s > feed + 1 ==> file[s - 1] != LF;
        assert e < lineEnd ==> file[e] != LF;
      }
    }
  }

  /** The backward search over blocks of any size. */
  method FindLatestMatchingLine(file: Bytes, size: nat, matches: Bytes -> bool, blockBytes: nat) returns (r: Outcome)
    requires size <= |file| && blockBytes >= 1
    ensures Answers(file, size, matches, r)
  {
    var lineEnd := size;
    var buffer := new Byte[blockBytes];
    var position := size;
    while position > 0
      invariant 0 <= position <= lineEnd <= size
      invariant lineEnd == size || file[lineEnd] == LF
      invariant NoFeed(file, position, lineEnd) && NoneBehind(file, size, matches, lineEnd)
    {
      var readSize := buffer.Length;
      if position < readSize {
        readSize := position;
      }
      position := position - readSize;
      ReadAt(file, buffer, readSize, position);
      var index := readSize - 1;
      while index >= 0
        invariant -1 <= index < readSize
        invariant position + index + 1 <= lineEnd <= size
        invariant lineEnd == size || file[lineEnd] == LF
        invariant NoFeed(file, position + index + 1, lineEnd) && NoneBehind(file, size, matches, lineEnd)
        invariant buffer[..readSize] == file[position..position + readSize]
      {
        assert buffer[index] == buffer[..readSize][index] == file[position + index];
        if buffer[index] == LF {
          var lineStart := position + index + 1;
          r := InspectLine(file, size, lineStart, lineEnd, matches);
          if r != NotFound {
            assert LastMatch(file, size, matches, lineStart, lineEnd);
            return;
          }
          OneLineFurther(file, size, matches, position + index, lineEnd);
          lineEnd := position + index;
        }
        index := index - 1;
      }
    }
    r := InspectLine(file, size, 0, lineEnd, matches);
    if r != NotFound {
      assert LastMatch(file, size, matches, 0, lineEnd);
    } else {
      forall s, e | 0 <= s <= e <= size ensures !IsMatch(file, size, matches, s, e) {
        if s <= lineEnd {
          assert s > 0 ==> file[s - 1] != LF;
          assert e < lineEnd ==> file[e] != LF;
        }
      }
    }
  }
}
