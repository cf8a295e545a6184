// The stream a ready probe answers with: frames of one flag byte, a four-byte
// length and a payload. The exit code is in the first end event.
module Envelope {
  import opened Common
  import opened Bytes

  datatype Frame = Frame(flags: Byte, payload: Bytes)

  // How a payload parses: the exit code of an end event, or anything else
  // (another event, or no valid event at all).
  type Parse = Bytes -> Option<int>

  datatype Error = Truncated(at: nat) | NoEnd

  predicate Trailer(flags: Byte) { flags / 2 % 2 == 1 }

  // ------------------------------------------------------------------- encoding

  ghost predicate Fits(f: Frame) { |f.payload| < 0x1_0000_0000 }

  function EncodeFrame(f: Frame): Bytes
    requires Fits(f)
  {
    [f.flags] + Put32(|f.payload|) + f.payload
  }

  ghost predicate AllFit(frames: seq<Frame>) { forall i | 0 <= i < |frames| :: Fits(frames[i]) }

  function Encode(frames: seq<Frame>): Bytes
    requires AllFit(frames)
  {
    if frames == [] then [] else EncodeFrame(frames[0]) + Encode(frames[1..])
  }

  // The request is one plain frame, built by appending.
  method EncodeRequest(body: Bytes) returns (envelope: Bytes)
    requires |body| < 0x1_0000_0000
    ensures envelope == Encode([Frame(0, body)])
    ensures |envelope| == 5 + |body| && envelope[0] == 0 && envelope[5..] == body
    ensures |body| == envelope[1] as int * 16_777_216 + envelope[2] as int * 65_536 + envelope[3] as int * 256
                      + envelope[4] as int
  {
    envelope := [];
    envelope := envelope + [0];
    envelope := envelope + Put32(|body|);
    envelope := envelope + body;
    ByteOrder(|body|);
    assert [Frame(0, body)][1..] == [] && EncodeFrame(Frame(0, body)) + [] == EncodeFrame(Frame(0, body));
  }

  // ------------------------------------------------------------------- decoding

  // The answer from position off on.
  function DecodeFrom(raw: Bytes, off: nat, parse: Parse): Result<int, Error>
    requires off <= |raw|
    decreases |raw| - off
  {
    if off + 5 > |raw| then Err(NoEnd)
    else
      var end := off + 5 + Get32(raw, off + 1);
      if end > |raw| then Err(Truncated(off))
      else if Trailer(raw[off]) then DecodeFrom(raw, end, parse)
      else
        var event := parse(raw[off + 5..end]);
        if event.Some? then Ok(event.value) else DecodeFrom(raw, end, parse)
  }

  method DecodeEndExit(raw: Bytes, parse: Parse) returns (r: Result<int, Error>)
    ensures r == DecodeFrom(raw, 0, parse)
  {
    var off := 0;
    while off + 5 <= |raw|
      invariant 0 <= off <= |raw|
      invariant DecodeFrom(raw, off, parse) == DecodeFrom(raw, 0, parse)
      decreases |raw| - off
    {
      var flags := raw[off];
      var length := Get32(raw, off + 1);
      var end := off + 5 + length;
      if end > |raw| { return Err(Truncated(off)); }
      var payload := raw[off + 5..end];
      if Trailer(flags) {
        off := end;
        continue;
      }
      var event := parse(payload);
      if event.None? {
        off := end;
        continue;
      }
      return Ok(event.value);
    }
    r := Err(NoEnd);
  }

  // -------------------------------------------------------------- main results

  predicate Ends(f: Frame, parse: Parse) { !Trailer(f.flags) && parse(f.payload).Some? }

  // What the stream means: the first end event that is not in a trailer.
  function Meaning(frames: seq<Frame>, parse: Parse): Result<int, Error> {
    if frames == [] then Err(NoEnd)
    else if Ends(frames[0], parse) then Ok(parse(frames[0].payload).value)
    else Meaning(frames[1..], parse)
  }

  lemma {:induction false} MeaningIsFirst(frames: seq<Frame>, parse: Parse)
    ensures Meaning(frames, parse).Ok? <==> exists i :: 0 <= i < |frames| && Ends(frames[i], parse)
    ensures forall i | 0 <= i < |frames| && Ends(frames[i], parse) &&
        (forall k | 0 <= k < i :: !Ends(frames[k], parse)) ::
              Meaning(frames, parse) == Ok(parse(frames[i].payload).value)
    ensures Meaning(frames, parse).Err? ==> Meaning(frames, parse) == Err(NoEnd)
  {
    if frames != [] && !Ends(frames[0], parse) {
      MeaningIsFirst(frames[1..], parse);
      forall i | 0 <= i < |frames| && Ends(frames[i], parse)
        ensures i > 0 && frames[1..][i - 1] == frames[i]
      {
      }
      forall i | 0 <= i < |frames| && Ends(frames[i], parse) && (forall k | 0 <= k < i :: !Ends(frames[k], parse))
        ensures Meaning(frames, parse) == Ok(parse(frames[i].payload).value)
      {
        assert forall k | 0 <= k < i - 1 :: frames[1..][k] == frames[k + 1];
        assert Ends(frames[1..][i - 1], parse);
      }
    }
  }

  lemma TrailerBit(flags: Byte)
    ensures Trailer(flags) <==> flags % 4 >= 2
  {
    assert flags == flags / 4 * 4 + flags % 4;
  }

  // A frame counts if the second lowest bit of its flags is not set and its
  // payload is an end event; the first that counts gives the exit code.
  lemma MeaningIsFirstEnd(frames: seq<Frame>, parse: Parse, i: nat)
    requires i <= |frames|
    requires forall k | 0 <= k < i :: frames[k].flags % 4 >= 2 || parse(frames[k].payload).None?
    ensures i == |frames| ==> Meaning(frames, parse) == Err(NoEnd)
    ensures i < |frames| && frames[i].flags % 4 < 2 && parse(frames[i].payload).Some? ==>
              Meaning(frames, parse) == Ok(parse(frames[i].payload).value)
  {
    forall k | 0 <= k < |frames|
      ensures Trailer(frames[k].flags) <==> frames[k].flags % 4 >= 2
    {
      TrailerBit(frames[k].flags);
    }
    MeaningIsFirst(frames, parse);
  }

  // Where a frame lies in a stream.
  predicate FrameAt(raw: Bytes, off: nat, f: Frame) {
    var n := |f.payload|;
    && off + 5 + n <= |raw|
    && raw[off] == f.flags && Get32(raw, off + 1) == n && raw[off + 5..off + 5 + n] == f.payload
  }

  predicate FramesAt(raw: Bytes, off: nat, frames: seq<Frame>)
    decreases |frames|
  {
    frames != [] ==>
      FrameAt(raw, off, frames[0]) && FramesAt(raw, off + 5 + |frames[0].payload|, frames[1..])
  }

  function Size(frames: seq<Frame>): nat {
    if frames == [] then 0 else 5 + |frames[0].payload| + Size(frames[1..])
  }

  lemma FrameLies(raw: Bytes, before: Bytes, f: Frame, after: Bytes)
    requires Fits(f) && raw == before + EncodeFrame(f) + after
    ensures FrameAt(raw, |before|, f)
  {
    var n := |f.payload|;
    Reassociate(before, [f.flags] + Put32(n), f.payload, after);
    Reassociate(before, [f.flags], Put32(n), f.payload + after);
    Get32Put32(before + [f.flags], n, f.payload + after);
  }

  lemma FirstFrameLies(raw: Bytes, before: Bytes, frames: seq<Frame>, tail: Bytes) returns (front: Bytes)
    requires AllFit(frames) && frames != [] && raw == before + Encode(frames) + tail
    ensures FrameAt(raw, |before|, frames[0]) && |front| == |before| + 5 + |frames[0].payload|
    ensures AllFit(frames[1..]) && raw == front + Encode(frames[1..]) + tail
    ensures |Encode(frames)| == 5 + |frames[0].payload| + |Encode(frames[1..])|
  {
    var f, rest := EncodeFrame(frames[0]), Encode(frames[1..]);
    Reassociate(before, f, rest, tail);
    FrameLies(raw, before, frames[0], rest + tail);
    front := before + f;
  }

  lemma FrameThenFrames(raw: Bytes, off: nat, frames: seq<Frame>)
    requires frames != [] && FrameAt(raw, off, frames[0])
    requires FramesAt(raw, off + 5 + |frames[0].payload|, frames[1..])
    ensures FramesAt(raw, off, frames)
  {
  }

  // Encoded frames lie one behind the other.
  lemma {:induction false} EncodedFramesLie(raw: Bytes, before: Bytes, frames: seq<Frame>, tail: Bytes)
    requires AllFit(frames) && raw == before + Encode(frames) + tail
    ensures FramesAt(raw, |before|, frames) && |Encode(frames)| == Size(frames)
    decreases |frames|
  {
    if frames != [] {
      var front := FirstFrameLies(raw, before, frames, tail);
      EncodedFramesLie(raw, front, frames[1..], tail);
      FrameThenFrames(raw, |before|, frames);
    }
  }

  // Decoding comes to the first end event, or past all the frames.
  lemma {:induction false} DecodesFrames(raw: Bytes, off: nat, frames: seq<Frame>, parse: Parse)
    requires FramesAt(raw, off, frames) && off + Size(frames) <= |raw|
    ensures DecodeFrom(raw, off, parse) ==
            if Meaning(frames, parse).Ok? then Meaning(frames, parse) else DecodeFrom(raw, off + Size(frames), parse)
    decreases |frames|
  {
    if frames != [] && !Ends(frames[0], parse) {
      DecodesFrames(raw, off + 5 + |frames[0].payload|, frames[1..], parse);
    }
  }

  // Decoding the concatenated frames gives the exit code of the first end event
  // outside a trailer, whatever follows it; without one, the no-end error, and a
  // stray tail shorter than a frame header makes no difference.
  lemma DecodeUndoesEncode(frames: seq<Frame>, tail: Bytes, parse: Parse)
    requires AllFit(frames) && (Meaning(frames, parse).Ok? || |tail| < 5)
    ensures DecodeFrom(Encode(frames) + tail, 0, parse) == Meaning(frames, parse)
  {
    var raw := Encode(frames) + tail;
    assert raw == [] + Encode(frames) + tail;
    EncodedFramesLie(raw, [], frames, tail);
    DecodesFrames(raw, 0, frames, parse);
    MeaningIsFirst(frames, parse);
  }

  lemma CutFrame(raw: Bytes, before: Bytes, f: Frame, kept: nat, parse: Parse)
    requires Fits(f) && kept < |EncodeFrame(f)| && raw == before + EncodeFrame(f)[..kept]
    ensures DecodeFrom(raw, |before|, parse) == Err(if kept < 5 then NoEnd else Truncated(|before|))
  {
    var whole := before + EncodeFrame(f) + [];
    FrameLies(whole, before, f, []);
    assert raw == whole[..|before| + kept];
    if kept >= 5 { assert Get32(raw, |before| + 1) == Get32(whole, |before| + 1); }
  }

  // Cutting the stream inside a payload, with no end event before it, is told
  // as a truncation at that frame's start; cutting inside a header is not told.
  lemma CutIsTold(frames: seq<Frame>, f: Frame, kept: nat, parse: Parse)
    requires AllFit(frames) && Fits(f) && Meaning(frames, parse).Err? && kept < |EncodeFrame(f)|
    ensures DecodeFrom(Encode(frames) + EncodeFrame(f)[..kept], 0, parse) ==
            Err(if kept < 5 then NoEnd else Truncated(|Encode(frames)|))
  {
    var cut := EncodeFrame(f)[..kept];
    var raw := Encode(frames) + cut;
    assert raw == [] + Encode(frames) + cut;
    EncodedFramesLie(raw, [], frames, cut);
    DecodesFrames(raw, 0, frames, parse);
    CutFrame(raw, Encode(frames), f, kept, parse);
  }
}
