/** Shipping build output (agent/src/build-logs.ts): entries are buffered and sent in batches, one send at a time,
    while the build goes on. A method is what happens between two awaits. */
module BuildLogPublishing {
  import opened Wrappers

  /** exit: the entry that closes the stream. rest: what else the entry carries. */
  datatype Message = Message(exit: bool, line: Option<string>, rest: int)

  /** What is forwarded: messages, and one notice that the output is cut. */
  datatype Entry = Forwarded(message: Message) | CapacityNotice

  const SUFFIX := "\U{2026} [line truncated]"

  function Truncated(m: Message, maxLength: nat): Entry {
    if m.line.None? || |m.line.value| <= maxLength then Forwarded(m)
    else Forwarded(m.(line := Some(m.line.value[..maxLength] + SUFFIX)))
  }

  /** A line of up to maxLength characters is forwarded as it is, a longer one cut there and marked; nothing else
      of a message changes. */
  lemma TruncatedIs(m: Message, maxLength: nat)
    ensures m.line.None? ==> Truncated(m, maxLength) == Forwarded(m)
    ensures m.line.Some? && |m.line.value| <= maxLength ==> Truncated(m, maxLength) == Forwarded(m)
    ensures m.line.Some? && |m.line.value| > maxLength ==>
              Truncated(m, maxLength)
              == Forwarded(Message(m.exit, Some(m.line.value[..maxLength] + "\U{2026} [line truncated]"), m.rest))
  {
  }

  function All(messages: seq<Message>, maxLength: nat): seq<Entry> {
    if messages == [] then []
    else All(messages[..|messages| - 1], maxLength) + [Truncated(messages[|messages| - 1], maxLength)]
  }

  function Exits(messages: seq<Message>): seq<Message> {
    if messages == [] then []
    else
      var last := messages[|messages| - 1];
      Exits(messages[..|messages| - 1]) + if last.exit then [last] else []
  }

  /** Of what was emitted: the first maxEntries, then a notice, then only the exits. */
  function Accepted(messages: seq<Message>, maxEntries: nat, maxLength: nat): seq<Entry> {
    if |messages| <= maxEntries then All(messages, maxLength)
    else
      All(messages[..maxEntries], maxLength) + [CapacityNotice] + All(Exits(messages[maxEntries..]), maxLength)
  }

  function Concatenated(batches: seq<seq<Entry>>): seq<Entry> {
    if batches == [] then [] else Concatenated(batches[..|batches| - 1]) + batches[|batches| - 1]
  }

  lemma ExitsAccepted(messages: seq<Message>, m: Message, maxLength: nat)
    ensures All(Exits(messages + [m]), maxLength)
            == All(Exits(messages), maxLength) + if m.exit then [Truncated(m, maxLength)] else []
  {
    assert (messages + [m])[..|messages|] == messages;
    var exits := Exits(messages);
    if m.exit {
      assert Exits(messages + [m]) == exits + [m] && (exits + [m])[..|exits|] == exits;
    } else {
      assert Exits(messages + [m]) == exits;
    }
  }

  lemma AcceptedWithOneMore(messages: seq<Message>, m: Message, maxEntries: nat, maxLength: nat)
    ensures var before, after, added :=
              Accepted(messages, maxEntries, maxLength), Accepted(messages + [m], maxEntries, maxLength), [Truncated(m, maxLength)];
            && (|messages| < maxEntries ==> after == before + added)
            && (|messages| == maxEntries && m.exit ==> after == before + [CapacityNotice] + added)
            && (|messages| == maxEntries && !m.exit ==> after == before + [CapacityNotice])
            && (|messages| > maxEntries && m.exit ==> after == before + added)
            && (|messages| > maxEntries && !m.exit ==> after == before)
  {
    var more := messages + [m];
    assert more[..|messages|] == messages;
    if |messages| >= maxEntries {
      var head, tail := messages[..maxEntries], messages[maxEntries..];
      ExitsAccepted(tail, m, maxLength);
      assert more[..maxEntries] == head && more[maxEntries..] == tail + [m];
      AppendedBehind(All(head, maxLength) + [CapacityNotice], All(Exits(tail), maxLength), [Truncated(m, maxLength)]);
      AppendedBehind(All(head, maxLength) + [CapacityNotice], All(Exits(tail), maxLength), []);
      if tail == [] {
        assert head == messages && All(Exits(tail), maxLength) == [];
        AppendedBehind(All(head, maxLength) + [CapacityNotice], [], []);
      }
    }
  }

  lemma AppendedBehind(x: seq<Entry>, y: seq<Entry>, z: seq<Entry>)
    ensures x + (y + z) == x + y + z && x + [] == x
  {
  }

  function Ordinary(entries: seq<Entry>): nat {
    if entries == [] then 0
    else
      var last := entries[|entries| - 1];
      Ordinary(entries[..|entries| - 1]) + if last.Forwarded? && !last.message.exit then 1 else 0
  }

  lemma {:induction false} OrdinaryOfBoth(x: seq<Entry>, y: seq<Entry>)
    ensures Ordinary(x + y) == Ordinary(x) + Ordinary(y)
  {
    if y == [] {
      assert x + y == x;
    } else {
      assert (x + y)[..|x + y| - 1] == x + y[..|y| - 1];
      OrdinaryOfBoth(x, y[..|y| - 1]);
    }
  }

  lemma OrdinaryOfOneMore(entries: seq<Entry>, e: Entry)
    ensures Ordinary(entries + [e]) == Ordinary(entries) + if e.Forwarded? && !e.message.exit then 1 else 0
  {
    assert (entries + [e])[..|entries|] == entries;
  }

  lemma {:induction false} OrdinaryAtMost(messages: seq<Message>, maxLength: nat)
    ensures Ordinary(All(messages, maxLength)) <= |messages|
    ensures (forall m :: m in messages ==> m.exit) ==> Ordinary(All(messages, maxLength)) == 0
  {
    if messages != [] {
      var before, last := messages[..|messages| - 1], messages[|messages| - 1];
      OrdinaryAtMost(before, maxLength);
      OrdinaryOfOneMore(All(before, maxLength), Truncated(last, maxLength));
    }
  }

  lemma {:induction false} ExitsAreExits(messages: seq<Message>)
    ensures forall m :: m in Exits(messages) ==> m.exit
  {
    if messages != [] {
      ExitsAreExits(messages[..|messages| - 1]);
    }
  }

  /** However much a build prints, at most maxEntries of it, its exits and one notice are forwarded. */
  lemma OrdinaryBounded(messages: seq<Message>, maxEntries: nat, maxLength: nat)
    ensures Ordinary(Accepted(messages, maxEntries, maxLength)) <= maxEntries
  {
    if |messages| <= maxEntries {
      OrdinaryAtMost(messages, maxLength);
    } else {
      var head, tail := messages[..maxEntries], messages[maxEntries..];
      OrdinaryAtMost(head, maxLength);
      ExitsAreExits(tail);
      OrdinaryAtMost(Exits(tail), maxLength);
      OrdinaryOfBoth(All(head, maxLength) + [CapacityNotice], All(Exits(tail), maxLength));
      OrdinaryOfBoth(All(head, maxLength), [CapacityNotice]);
    }
  }

  class BuildLogPublisher {
    const batchSize: nat
    const maxEntries: nat
    const maxLength: nat
    var buffer: seq<Entry>
    var emitted: nat
    var noticeSent: bool
    var closed: bool
    var timerArmed: bool
    /** The chain of sends: all batches ever flushed, how many sends began and how many settled. */
    var batches: seq<seq<Entry>>
    var begun: nat
    var settled: nat
    ghost var messages: seq<Message>                      // emitted before the close

    /** All entries that were buffered, in order. */
    ghost function Kept(): seq<Entry>
      reads this
    {
      Concatenated(batches) + buffer
    }

    ghost predicate BatchesFit()
      reads this
    {
      && (forall i :: 0 <= i < |batches| ==> 1 <= |batches[i]| <= Capacity())
      && |buffer| < Capacity() && (timerArmed <==> buffer != [])
    }

    ghost predicate Valid()
      reads this
    {
      && Kept() == Accepted(messages, maxEntries, maxLength)
      && (emitted < maxEntries || |messages| < maxEntries ==> emitted == |messages|)
      && (noticeSent <==> |messages| > maxEntries)
      && BatchesFit() && (closed ==> buffer == [])
      && settled <= begun <= settled + 1 && begun <= |batches|
    }

    /** A batch is flushed when it is full; one of size 0 is full with its first entry. */
    function Capacity(): nat { if batchSize == 0 then 1 else batchSize }

    constructor (batchSize: nat, maxEntries: nat, maxLength: nat)
      ensures Valid() && !closed && messages == []
      ensures this.batchSize == batchSize && this.maxEntries == maxEntries && this.maxLength == maxLength
    {
      this.batchSize, this.maxEntries, this.maxLength := batchSize, maxEntries, maxLength;
      buffer, emitted, noticeSent, closed, timerArmed := [], 0, false, false, false;
      batches, begun, settled, messages := [], 0, 0, [];
    }

    method Flush()
      modifies this`timerArmed, this`buffer, this`batches
      ensures !timerArmed && buffer == []
      ensures batches == if old(buffer) == [] then old(batches) else old(batches) + [old(buffer)]
      ensures Kept() == old(Kept())
    {
      timerArmed := false;
      if buffer != [] {
        assert (batches + [buffer])[..|batches|] == batches;
        batches := batches + [buffer];
        buffer := [];
      }
    }

    /** What push does with an entry. */
    method PushEntry(e: Entry)
      requires !closed && BatchesFit()
      modifies this`timerArmed, this`buffer, this`batches
      ensures BatchesFit() && Kept() == old(Kept()) + [e]
      ensures batches == if |old(buffer)| + 1 >= batchSize then old(batches) + [old(buffer) + [e]] else old(batches)
    {
      buffer := buffer + [e];
      if |buffer| >= batchSize {
        Flush();
      } else {
        timerArmed := true;
      }
    }

    method NoteCapacity()
      requires !closed && BatchesFit()
      modifies this`timerArmed, this`buffer, this`batches, this`noticeSent
      ensures noticeSent && BatchesFit() && old(batches) <= batches
      ensures old(noticeSent) ==> Kept() == old(Kept())
      ensures !old(noticeSent) ==> Kept() == old(Kept()) + [CapacityNotice]
    {
      if !noticeSent {
        noticeSent := true;
        PushEntry(CapacityNotice);
      }
    }

    method Emit(m: Message)
      requires Valid()
      modifies this`timerArmed, this`buffer, this`batches, this`emitted, this`noticeSent, this`messages
      ensures Valid() && old(batches) <= batches
      ensures messages == if closed then old(messages) else old(messages) + [m]
    {
      if closed {
        return;
      }
      AcceptedWithOneMore(messages, m, maxEntries, maxLength);
      messages := messages + [m];
      if emitted >= maxEntries {
        NoteCapacity();
        if !m.exit {
          return;
        }
      }
      emitted := emitted + 1;
      PushEntry(Truncated(m, maxLength));
    }

    method TimerFires()
      requires Valid() && timerArmed
      modifies this`timerArmed, this`buffer, this`batches
      ensures Valid() && old(batches) < batches && buffer == []
    {
      Flush();
    }

    /** The send of the next batch, once the one before has settled. */
    method SendBegins() returns (batch: seq<Entry>)
      requires Valid() && begun == settled < |batches|
      modifies this`begun
      ensures Valid() && batch == batches[old(begun)] && begun == old(begun) + 1 == settled + 1
    {
      batch := batches[begun];
      begun := begun + 1;
    }

    /** A send that failed is not repeated. */
    method SendSettles()
      requires Valid() && settled < begun
      modifies this`settled
      ensures Valid() && settled == old(settled) + 1
    {
      settled := settled + 1;
    }

    method Close()
      requires Valid()
      modifies this`closed, this`timerArmed, this`buffer, this`batches
      ensures Valid() && closed && old(batches) <= batches
    {
      if !closed {
        closed := true;
        Flush();
      }
    }

    /** The promise of close resolves when the chain of sends has settled. */
    predicate CloseResolved()
      reads this
    {
      closed && settled == |batches|
    }
  }

  datatype Event = Emit(message: Message) | TimerFires | SendBegins | SendSettles | Close

  /** Any interleaving. sent: the batches handed to send, in order. */
  method Process(p: BuildLogPublisher, events: seq<Event>) returns (sent: seq<seq<Entry>>)
    requires p.Valid() && p.begun == 0
    modifies p
    ensures p.Valid() && sent == p.batches[..p.begun]
    ensures p.CloseResolved() ==> Concatenated(sent) == Accepted(p.messages, p.maxEntries, p.maxLength)
    ensures forall i :: 0 <= i < |sent| ==> 1 <= |sent[i]| && (|sent[i]| <= p.batchSize || |sent[i]| == 1)
  {
    sent := [];
    for i := 0 to |events|
      invariant p.Valid() && sent == p.batches[..p.begun]
    {
      match events[i] {
        case Emit(m) => p.Emit(m);
        case TimerFires => if p.timerArmed { p.TimerFires(); }
        case SendBegins =>
          if p.begun == p.settled < |p.batches| {
            var batch := p.SendBegins();
            sent := sent + [batch];
          }
        case SendSettles => if p.settled < p.begun { p.SendSettles(); }
        case Close => p.Close();
      }
    }
    assert p.CloseResolved() ==> sent == p.batches;
  }
}
