/** The pod-log pump: relays chunks to the client and probes it with a newline while idle. */
module LogRelay {
  type Byte = bv8
  const NEWLINE: Byte := 10

  /**
   One outcome of the timed read: a chunk (empty at end of stream), a read error, or the idle timeout.
   `ok` says whether the write it leads to, if any, reaches the client.
   */
  datatype Event = Read(bytes: seq<Byte>, ok: bool) | ReadError | Timeout(ok: bool)

  // -------------------------------------------------------------------- lines

  /** The non-empty lines completed so far and the unterminated rest. */
  datatype Split = Split(lines: seq<seq<Byte>>, rest: seq<Byte>)

  function Feed(s: Split, b: Byte): Split {
    if b != NEWLINE then s.(rest := s.rest + [b])
    else if s.rest == [] then s
    else Split(s.lines + [s.rest], [])
  }

  function SplitOf(bytes: seq<Byte>): Split {
    if bytes == [] then Split([], [])
    else Feed(SplitOf(bytes[..|bytes| - 1]), bytes[|bytes| - 1])
  }

  /** The non-empty lines of a byte string, a trailing unterminated one included. */
  function Lines(bytes: seq<Byte>): seq<seq<Byte>> {
    var s := SplitOf(bytes);
    if s.rest == [] then s.lines else s.lines + [s.rest]
  }

  lemma {:induction false} SplitCongruence(a: seq<Byte>, b: seq<Byte>, more: seq<Byte>)
    requires SplitOf(a) == SplitOf(b)
    ensures SplitOf(a + more) == SplitOf(b + more)
  {
    if more == [] {
      assert a + more == a && b + more == b;
    } else {
      var n := |more| - 1;
      SplitCongruence(a, b, more[..n]);
      assert (a + more)[..|a + more| - 1] == a + more[..n];
      assert (b + more)[..|b + more| - 1] == b + more[..n];
    }
  }

  /** Nothing read yet, or the last byte read ended a line. */
  predicate AtLineStart(bytes: seq<Byte>) {
    bytes == [] || bytes[|bytes| - 1] == NEWLINE
  }

  lemma {:induction false} LineStartIsEmptyRest(bytes: seq<Byte>)
    ensures AtLineStart(bytes) <==> SplitOf(bytes).rest == []
  {
    if bytes != [] {
      LineStartIsEmptyRest(bytes[..|bytes| - 1]);
    }
  }

  /** A newline at the start of a line adds no line and splits none. */
  lemma ProbeIsInvisible(emitted: seq<Byte>, read: seq<Byte>)
    requires SplitOf(emitted) == SplitOf(read) && AtLineStart(read)
    ensures SplitOf(emitted + [NEWLINE]) == SplitOf(read)
  {
    LineStartIsEmptyRest(read);
    assert (emitted + [NEWLINE])[..|emitted|] == emitted;
  }

  // --------------------------------------------------------------------- pump

  /** The bytes of the chunks among `events`. */
  function Chunks(events: seq<Event>): seq<Byte> {
    if events == [] then []
    else
      var last := events[|events| - 1];
      Chunks(events[..|events| - 1]) + (if last.Read? then last.bytes else [])
  }

  /** Whether the pump stops at `e`, having relayed `read`: end, error, or a failed write. */
  predicate Stops(read: seq<Byte>, e: Event) {
    match e
    case Read(bytes, ok) => bytes == [] || !ok
    case ReadError => true
    case Timeout(ok) => AtLineStart(read) && !ok
  }

  /** No event of `events` stops the pump. */
  predicate RunsThrough(events: seq<Event>) {
    events == [] ||
    (RunsThrough(events[..|events| - 1]) && !Stops(Chunks(events[..|events| - 1]), events[|events| - 1]))
  }

  /** Every chunk as read, and one newline for each timeout that falls at a line start. */
  function Emit(events: seq<Event>): seq<Byte> {
    if events == [] then []
    else
      var front, last := events[..|events| - 1], events[|events| - 1];
      Emit(front) + (match last
                     case Read(bytes, _) => bytes
                     case ReadError => []
                     case Timeout(_) => if AtLineStart(Chunks(front)) then [NEWLINE] else [])
  }

  /** The probes never split, join, add or drop a line. */
  lemma {:induction false} EmitKeepsLines(events: seq<Event>)
    ensures SplitOf(Emit(events)) == SplitOf(Chunks(events))
  {
    if events != [] {
      var front, last := events[..|events| - 1], events[|events| - 1];
      EmitKeepsLines(front);
      assert Emit(front) + [] == Emit(front) && Chunks(front) + [] == Chunks(front);
      if last.Read? {
        SplitCongruence(Emit(front), Chunks(front), last.bytes);
      } else if last.Timeout? && AtLineStart(Chunks(front)) {
        ProbeIsInvisible(Emit(front), Chunks(front));
      }
    }
  }

  lemma PrefixStep(events: seq<Event>, n: nat)
    requires n < |events|
    ensures var done, e := events[..n], events[n];
            && Chunks(events[..n + 1]) == Chunks(done) + (if e.Read? then e.bytes else [])
            && Emit(events[..n + 1]) == Emit(done) + (if e.Read? then e.bytes
                                                      else if e.Timeout? && AtLineStart(Chunks(done)) then [NEWLINE]
                                                      else [])
            && (RunsThrough(events[..n + 1]) <==> RunsThrough(done) && !Stops(Chunks(done), e))
  {
    assert events[..n + 1][..n] == events[..n];
  }

  /**
   The pump relays events up to the first that stops it, and what the client receives has exactly the
   non-empty lines of what was read.
   */
  method Pump(events: seq<Event>) returns (emitted: seq<Byte>, taken: nat)
    ensures taken <= |events| && RunsThrough(events[..taken])
    ensures taken < |events| ==> Stops(Chunks(events[..taken]), events[taken])
    ensures emitted == Emit(events[..taken])
    ensures Lines(emitted) == Lines(Chunks(events[..taken]))
  {
    emitted, taken := [], 0;
    var atLineStart := true;
    ghost var read := [];
    while taken < |events|
      invariant taken <= |events| && RunsThrough(events[..taken])
      invariant read == Chunks(events[..taken]) && emitted == Emit(events[..taken])
      invariant atLineStart == AtLineStart(read)
    {
      PrefixStep(events, taken);
      match events[taken] {
        case Read(bytes, ok) =>
          if bytes == [] {
            break;
          }
          atLineStart := bytes[|bytes| - 1] == NEWLINE;
          if !ok {
            break;
          }
          emitted := emitted + bytes;
          read := read + bytes;
        case ReadError =>
          break;
        case Timeout(ok) =>
          if atLineStart {
            if !ok {
              break;
            }
            emitted := emitted + [NEWLINE];
          }
      }
      taken := taken + 1;
    }
    EmitKeepsLines(events[..taken]);
  }
}
