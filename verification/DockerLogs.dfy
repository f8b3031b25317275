/** Docker's log stream (agent/src/docker-api.ts): frames of a stream type, a length and a payload when the
    container has no terminal, raw bytes otherwise. The format is told from the bytes alone. */
module DockerLogs {
  import opened Wrappers
  import opened ByteStrings

  datatype Frame = Frame(stderr: bool, payload: Bytes)

  function BigEndian32(b: Bytes): nat
    requires |b| == 4
  {
    var high: nat := b[0];
    ((high * 256 + b[1]) * 256 + b[2]) * 256 + b[3]
  }

  /** The weight of each byte of a length. */
  ghost function Weighed(b0: int, b1: int, b2: int, b3: int): int {
    0x1_000000 * b0 + 0x1_0000 * b1 + 0x1_00 * b2 + b3
  }

  /** The frames, one after another, are the whole buffer. The three bytes after the type are not looked at. */
  ghost predicate Tiles(b: Bytes, frames: seq<Frame>)
    decreases |frames|
  {
    if frames == [] then b == []
    else
      var end := 8 + |frames[0].payload|;
      && end <= |b| && b[0] == (if frames[0].stderr then 2 else 1)
      && Weighed(b[4], b[5], b[6], b[7]) == |frames[0].payload|
      && b[8..end] == frames[0].payload
      && Tiles(b[end..], frames[1..])
  }

  /** A frame where the buffer starts, if one fits. */
  function FirstFrame(b: Bytes): Option<Frame> {
    if |b| < 8 || b[0] !in {1, 2} || 8 + BigEndian32(b[4..8]) > |b| then None
    else Some(Frame(b[0] == 2, b[8..8 + BigEndian32(b[4..8])]))
  }

  function Continued(frames: seq<Frame>, rest: Option<seq<Frame>>): Option<seq<Frame>> {
    if rest.None? then None else Some(frames + rest.value)
  }

  function Frames(b: Bytes): Option<seq<Frame>> {
    if b == [] then Some([])
    else
      var first := FirstFrame(b);
      if first.None? then None
      else
        Continued([first.value], Frames(b[8 + |first.value.payload|..]))
  }

  lemma ContinuedFurther(frames: seq<Frame>, more: seq<Frame>, rest: Option<seq<Frame>>)
    ensures Continued(frames, Continued(more, rest)) == Continued(frames + more, rest)
    ensures Continued([], rest) == rest
  {
    if rest.Some? {
      assert frames + (more + rest.value) == frames + more + rest.value;
      assert [] + rest.value == rest.value;
    }
  }

  lemma {:induction false} FramesIffTiles(b: Bytes, frames: seq<Frame>)
    ensures Frames(b) == Some(frames) <==> Tiles(b, frames)
    decreases |b|
  {
    if b != [] {
      var first := FirstFrame(b);
      if first.Some? && frames != [] {
        FramesIffTiles(b[8 + |first.value.payload|..], frames[1..]);
        assert frames == [frames[0]] + frames[1..];
      }
    }
  }

  /** The frame loop. */
  method ReadFrames(b: Bytes) returns (frames: seq<Frame>)
    ensures frames == if Frames(b).Some? then Frames(b).value else []
  {
    frames := [];
    if |b| >= 8 {
      var offset := 0;
      var isMultiplexed := true;
      assert b[0..] == b;
      ContinuedFurther([], [], Frames(b));
      while offset + 8 <= |b|
        invariant offset <= |b|
        invariant isMultiplexed ==> Frames(b) == Continued(frames, Frames(b[offset..]))
        invariant !isMultiplexed ==> Frames(b) == None
        decreases isMultiplexed, |b| - offset
      {
        var payloadEnd := offset + 8 + BigEndian32(b[offset + 4..offset + 8]);
        assert b[offset..][4..8] == b[offset + 4..offset + 8];
        if (b[offset] != 1 && b[offset] != 2) || payloadEnd > |b| {
          isMultiplexed := false;
          break;
        }
        assert b[offset..][8..payloadEnd - offset] == b[offset + 8..payloadEnd];
        assert b[offset..][payloadEnd - offset..] == b[payloadEnd..];
        var frame := Frame(b[offset] == 2, b[offset + 8..payloadEnd]);
        ContinuedFurther(frames, [frame], Frames(b[payloadEnd..]));
        frames := frames + [frame];
        offset := payloadEnd;
      }
      assert b[|b|..] == [] && frames + [] == frames;
      if !isMultiplexed || offset != |b| {
        frames := [];
      }
    }
  }

  /** The frames of the buffer if it is framed from end to end, all of it as one stdout frame otherwise. */
  method ParseDockerLogBuffer(b: Bytes) returns (frames: seq<Frame>)
    ensures frames != [] && (Tiles(b, frames) || frames == [Frame(false, b)])
    ensures forall fs :: fs != [] && Tiles(b, fs) ==> frames == fs
  {
    frames := ReadFrames(b);
    forall fs ensures Frames(b) == Some(fs) <==> Tiles(b, fs) {
      FramesIffTiles(b, fs);
    }
    if frames == [] {
      frames := [Frame(false, b)];
    }
  }

  // ----- A writer

  function WriteBigEndian32(n: nat): (b: Bytes)
    requires n < 0x1_0000_0000
    ensures |b| == 4 && BigEndian32(b) == n
  {
    var n1, n2, n3 := n / 256, n / 256 / 256, n / 256 / 256 / 256;
    [n3, n2 % 256, n1 % 256, n % 256]
  }

  function Encode(frames: seq<Frame>): Bytes
    requires forall f :: f in frames ==> |f.payload| < 0x1_0000_0000
  {
    if frames == [] then []
    else
      var n := |frames[0].payload|;
      [if frames[0].stderr then 2 else 1, 0, 0, 0] + WriteBigEndian32(n) + frames[0].payload + Encode(frames[1..])
  }

  lemma {:induction false} EncodingTiles(frames: seq<Frame>)
    requires forall f :: f in frames ==> |f.payload| < 0x1_0000_0000
    ensures Tiles(Encode(frames), frames)
  {
    if frames != [] {
      EncodingTiles(frames[1..]);
      var b, n := Encode(frames), |frames[0].payload|;
      assert b[8 + n..] == Encode(frames[1..]);
      assert b[4..8] == WriteBigEndian32(n);
      assert b[8..8 + n] == frames[0].payload;
    }
  }
}
