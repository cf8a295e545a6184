// The bounded log of one build. Entries are kept in a ring; readers page with
// absolute positions, so eviction never renumbers anything.
module RingBuffer {
  import opened Common

  // ------------------------------------------- the unbounded log it stands for

  function Min(a: int, b: int): int { if a < b then a else b }
  function Max(a: int, b: int): int { if a > b then a else b }

  // The position of the oldest entry still held.
  function Earliest(total: nat, capacity: nat): nat { Max(total - capacity, 0) }

  // Where a read from offset really starts: never before the oldest entry held
  // and never past the end.
  function Start(total: nat, capacity: nat, offset: int): nat {
    Min(Max(Max(offset, 0), Earliest(total, capacity)), total)
  }

  // How many entries it returns; a limit that is not positive means all.
  function Count(total: nat, capacity: nat, offset: int, limit: int): nat {
    var available := total - Start(total, capacity, offset);
    if limit <= 0 || limit > available then available else limit
  }

  datatype Page<T> = Page(entries: seq<T>, next: nat)

  function ReadLog<T>(log: seq<T>, capacity: nat, offset: int, limit: int): Page<T> {
    var from := Start(|log|, capacity, offset);
    var n := Count(|log|, capacity, offset, limit);
    Page(log[from..from + n], from + n)
  }

  // ------------------------------------------------------------------ the ring

  // The slot of the k-th oldest entry.
  function Slot(head: nat, k: nat, capacity: nat): nat {
    if head + k < capacity then head + k else head + k - capacity
  }

  lemma ModIsWrap(x: nat, m: nat)
    requires m > 0 && x < 2 * m
    ensures x % m == if x < m then x else x - m
  {
  }

  // The window in the order in which Read works it out.
  lemma WindowIs(total: nat, capacity: nat, offset: int, limit: int)
    ensures var earliest := total - Min(total, capacity);
            var clamped := if offset < 0 then 0 else offset;
            var from := if clamped < earliest then earliest else clamped;
            if from >= total then
              Start(total, capacity, offset) == total && Count(total, capacity, offset, limit) == 0
            else
              var available := total - from;
              && Start(total, capacity, offset) == from
              && Count(total, capacity, offset, limit) == if limit <= 0 || limit > available then available else limit
  {
  }

  class Ring<T(0)> {
    const capacity: nat
    const slots: array<T>    // storage; the first `count` are in use
    var count: nat
    var head: nat            // next slot to overwrite once full
    var written: nat
    ghost var log: seq<T>    // everything ever appended

    ghost predicate Valid()
      reads this, slots
    {
      && capacity == slots.Length > 0
      && written == |log| && count == Min(written, capacity)
      && head < capacity && (count < capacity ==> head == 0)
      && forall k | 0 <= k < count :: Holds(k)
    }

    // The k-th oldest slot holds the k-th oldest entry still owed.
    ghost predicate Holds(k: nat)
      reads this, slots
    {
      && k < count <= written == |log|
      && Slot(head, k, capacity) < slots.Length
      && slots[Slot(head, k, capacity)] == log[written - count + k]
    }

    constructor (requested: int)
      ensures Valid() && fresh(slots) && log == []
      ensures capacity == if requested <= 0 then 5000 else requested
    {
      capacity := if requested <= 0 then 5000 else requested;
      slots := new T[if requested <= 0 then 5000 else requested];
      count, head, written, log := 0, 0, 0, [];
    }

    method Append(entry: T) returns (idx: nat)
      requires Valid()
      modifies this`count, this`head, this`written, this`log, slots
      ensures Valid()
      ensures log == old(log) + [entry] && idx == |old(log)|
    {
      ghost var was := old(count);
      if count < capacity {
        slots[count] := entry;
        count := count + 1;
      } else {
        slots[head] := entry;
        ModIsWrap(head + 1, capacity);
        head := (head + 1) % capacity;
      }
      idx := written;
      written := written + 1;
      log := log + [entry];
      forall k | 0 <= k < count
        ensures Holds(k)
      {
        // once full, the k-th oldest entry is the one that was (k+1)-th oldest
        if was < capacity {
          assert k < was ==> old(Holds(k));
        } else if k < count - 1 {
          assert old(Holds(k + 1));
        }
      }
    }

    // The slot that holds the entry at an absolute position.
    function Locate(absolute: nat): (physical: nat)
      requires Valid() && written - count <= absolute < written
      reads this, slots
      ensures physical < capacity && slots[physical] == log[absolute]
    {
      var k := absolute - (written - count);
      ModIsWrap(head + k, capacity);
      assert Holds(k);
      if count < capacity then absolute else (head + k) % capacity
    }

    // Where a read starts and how many entries it takes.
    method Window(offset: int, limit: int) returns (from: nat, n: nat)
      requires Valid()
      ensures from == Start(written, capacity, offset) && n == Count(written, capacity, offset, limit)
    {
      WindowIs(written, capacity, offset, limit);
      var total := written;
      from := if offset < 0 then 0 else offset;
      var earliest := total - count;
      if from < earliest { from := earliest; }
      if from >= total { return total, 0; }
      var available := total - from;
      n := if limit <= 0 || limit > available then available else limit;
    }

    method Read(offset: int, limit: int) returns (entries: seq<T>, next: nat)
      requires Valid()
      ensures Page(entries, next) == ReadLog(log, capacity, offset, limit)
      ensures |entries| <= next <= |log| && entries == log[next - |entries|..next]
      ensures offset >= |log| ==> entries == [] && next == |log|
      ensures offset < |log| ==>
        var first := next - |entries|;
        && first >= 0 && first >= offset && first >= |log| - capacity
        && (first == 0 || first == offset || first == |log| - capacity)
        && |entries| == if 0 < limit < |log| - first then limit else |log| - first
    {
      var from, n := Window(offset, limit);
      entries := CopyOut(from, n);
      next := from + n;
    }

    method CopyOut(from: nat, n: nat) returns (entries: seq<T>)
      requires Valid() && written - count <= from && from + n <= written
      ensures entries == log[from..from + n]
    {
      entries := [];
      for i := 0 to n
        invariant entries == log[from..from + i]
      {
        entries := entries + [slots[Locate(from + i)]];
      }
    }
  }

  // --------------------------------------------- a reader that follows the log

  // What a reader holds: the entries it received, the position of each, and
  // the cursor the last read gave back.
  datatype Reader<T> = Reader(got: seq<T>, at: seq<nat>, cursor: nat)

  datatype Event<T> = Appended(entry: T) | Polled(limit: int)

  datatype Session<T> = Session(log: seq<T>, reader: Reader<T>, keptUp: bool)

  function Span(from: nat, n: nat): (r: seq<nat>)
    ensures |r| == n && forall i | 0 <= i < n :: r[i] == from + i
  {
    seq(n, i => from + i)
  }

  function Poll<T>(r: Reader<T>, log: seq<T>, capacity: nat, limit: int): Reader<T> {
    var page := ReadLog(log, capacity, r.cursor, limit);
    Reader(r.got + page.entries, r.at + Span(page.next - |page.entries|, |page.entries|), page.next)
  }

  // Appends and reads in any order. keptUp records whether every read found
  // the reader at most capacity entries behind.
  function After<T>(events: seq<Event<T>>, capacity: nat): Session<T> {
    if events == [] then Session([], Reader([], [], 0), true)
    else
      var s := After(events[..|events| - 1], capacity);
      match events[|events| - 1]
      case Appended(entry) => s.(log := s.log + [entry])
      case Polled(limit) =>
        Session(s.log, Poll(s.reader, s.log, capacity, limit),
                s.keptUp && |s.log| - s.reader.cursor <= capacity)
  }

  ghost predicate Increasing(at: seq<nat>) {
    forall i, j | 0 <= i < j < |at| :: at[i] < at[j]
  }

  // The received entries are log entries, in order, none twice, all before
  // the cursor.
  ghost predicate Faithful<T>(s: Session<T>) {
    var r := s.reader;
    && r.cursor <= |s.log| && |r.got| == |r.at| <= r.cursor
    && Increasing(r.at)
    && forall i | 0 <= i < |r.at| :: r.at[i] < r.cursor && r.got[i] == s.log[r.at[i]]
  }

  lemma ReadIsSound<T>(log: seq<T>, capacity: nat, cursor: nat, limit: int)
    requires cursor <= |log|
    ensures var page := ReadLog(log, capacity, cursor, limit);
            && cursor <= page.next - |page.entries| <= page.next <= |log|
            && page.entries == log[page.next - |page.entries|..page.next]
            && (page.next - |page.entries| == cursor <==> |log| - cursor <= capacity)
            && (limit <= 0 ==> page.next == |log|)
  {
  }

  lemma PollIsFaithful<T>(s: Session<T>, capacity: nat, limit: int)
    requires Faithful(s)
    ensures var r := Poll(s.reader, s.log, capacity, limit);
            && Faithful(s.(reader := r))
            && (|r.got| == r.cursor <==> |s.reader.got| == s.reader.cursor && |s.log| - s.reader.cursor <= capacity)
            && (s.reader.got == s.log[..s.reader.cursor] && |s.log| - s.reader.cursor <= capacity ==>
                  r.got == s.log[..r.cursor])
  {
    ReadIsSound(s.log, capacity, s.reader.cursor, limit);
  }

  lemma {:induction false} ReaderSeesTheLog<T>(events: seq<Event<T>>, capacity: nat)
    ensures var s := After(events, capacity);
            && Faithful(s)
            && (s.keptUp <==> |s.reader.got| == s.reader.cursor)
            && (s.keptUp ==> s.reader.got == s.log[..s.reader.cursor])
  {
    if events != [] {
      var before := events[..|events| - 1];
      ReaderSeesTheLog(before, capacity);
      match events[|events| - 1]
      case Appended(_) =>
      case Polled(limit) => PollIsFaithful(After(before, capacity), capacity, limit);
    }
  }
}
