/** Model of agent speech: the binary audio frame of rust-server/src/audio.rs, the paced publishing of
    rust-server/src/audio_publisher.rs, and the duration recorded by rust-server/src/app.rs. */
module AgentAudio {
  import opened Wrappers
  import opened BigEndian

  const VERSION: Byte := 1
  const SAMPLE_RATE: nat := 24000
  const CHANNELS: nat := 1
  const FRAME_MS := 20
  const FRAME_BYTES := 960
  const HEADER_BYTES := 13

  datatype AudioFrame = AudioFrame(sequence: nat, timestampMs: nat, pcm: seq<Byte>)

  datatype FrameError = WrongLength | UnsupportedVersion

  // ----- Frames -----

  function DecodeFrame(bytes: seq<Byte>): Result<AudioFrame, FrameError> {
    if |bytes| != HEADER_BYTES + FRAME_BYTES then Err(WrongLength)
    else if bytes[0] != VERSION then Err(UnsupportedVersion)
    else Ok(AudioFrame(Decode(bytes[1..5]), Decode(bytes[5..13]), bytes[HEADER_BYTES..]))
  }

  function EncodeFrame(f: AudioFrame): seq<Byte> {
    [VERSION] + Encode(f.sequence, 4) + Encode(f.timestampMs, 8) + f.pcm
  }

  /** The values a frame can hold: a 32-bit sequence number and a 64-bit time. */
  predicate Representable(f: AudioFrame) {
    f.sequence < Pow256(4) && f.timestampMs < Pow256(8) && |f.pcm| == FRAME_BYTES
  }

  lemma FrameParts(f: AudioFrame)
    ensures var b := EncodeFrame(f);
      && |b| == HEADER_BYTES + |f.pcm| && b[0] == VERSION
      && b[1..5] == Encode(f.sequence, 4) && b[5..13] == Encode(f.timestampMs, 8) && b[HEADER_BYTES..] == f.pcm
  {
    hide Encode;
  }

  lemma DecodeInvertsEncode(f: AudioFrame)
    requires Representable(f)
    ensures DecodeFrame(EncodeFrame(f)) == Ok(f)
  {
    FrameParts(f);
    hide EncodeFrame, Pow256;
    DecodeEncode(f.sequence, 4);
    DecodeEncode(f.timestampMs, 8);
  }

  /** Every accepted message is the encoding of what was decoded. */
  lemma EncodeInvertsDecode(bytes: seq<Byte>)
    requires DecodeFrame(bytes).Ok?
    ensures Representable(DecodeFrame(bytes).value) && EncodeFrame(DecodeFrame(bytes).value) == bytes
  {
    hide Pow256, Encode, Decode;
    EncodeDecode(bytes[1..5]);
    EncodeDecode(bytes[5..13]);
    assert bytes == [bytes[0]] + bytes[1..5] + bytes[5..13] + bytes[13..];
  }

  // ----- Publishing -----

  datatype AudioChunk = AudioChunk(sampleRate: nat, channels: nat, data: seq<Byte>)

  datatype Summary = Summary(chunksPublished: nat, bytesPublished: nat, sampleRate: nat, channels: nat)

  datatype PublishError = WrongFormat | NoAudio

  /** One message to the browsers, and its earliest time after the start of the publication. */
  datatype Sent = Sent(offsetMs: nat, message: seq<Byte>)

  predicate Canonical(c: AudioChunk) {
    c.data == [] || (c.sampleRate == SAMPLE_RATE && c.channels == CHANNELS)
  }

  function Joined(chunks: seq<AudioChunk>): seq<Byte> {
    if chunks == [] then [] else Joined(chunks[..|chunks| - 1]) + chunks[|chunks| - 1].data
  }

  function Min(a: int, b: int): int { if a < b then a else b }

  function SaturatingSub(a: nat, b: nat): nat { if a < b then 0 else a - b }

  /** `SessionAgentAudioPublisher::new`: the browser's jitter buffer in whole frames, at least one. */
  function PrebufferFrames(jitterMs: nat): nat {
    var frames := (jitterMs + FRAME_MS - 1) / FRAME_MS;
    if frames < 1 then 1 else frames
  }

  function FrameSendOffset(index: nat, prebuffer: nat): nat {
    SaturatingSub(index, SaturatingSub(prebuffer, 1)) * FRAME_MS
  }

  function FrameCount(bytes: nat): nat { (bytes + FRAME_BYTES - 1) / FRAME_BYTES }

  /** The samples of frame `i`, with silence after the last one. */
  function FramePcm(pcm: seq<Byte>, i: nat): (r: seq<Byte>)
    requires FRAME_BYTES * i < |pcm|
    ensures |r| == FRAME_BYTES
  {
    var payload := pcm[FRAME_BYTES * i..Min(FRAME_BYTES * (i + 1), |pcm|)];
    payload + seq(FRAME_BYTES - |payload|, _ => 0)
  }

  /** Message `i` decodes to frame `i`, and is sent ahead of its time by the part of the jitter buffer
      which it fills. */
  predicate IsFrame(sent: Sent, pcm: seq<Byte>, i: nat, prebuffer: nat)
    requires FRAME_BYTES * i < |pcm|
  {
    && DecodeFrame(sent.message) == Ok(AudioFrame(i % Pow256(4), (i * 20) % Pow256(8), FramePcm(pcm, i)))
    && sent.offsetMs == 20 * i - 20 * Min(i, prebuffer - 1)
  }

  /** The published messages are the frames of these samples, in order. */
  predicate Published(sent: seq<Sent>, pcm: seq<Byte>, prebuffer: nat) {
    && |sent| == FrameCount(|pcm|)
    && forall i :: 0 <= i < |sent| ==> FRAME_BYTES * i < |pcm| && IsFrame(sent[i], pcm, i, prebuffer)
  }

  lemma FrameIsSent(pcm: seq<Byte>, i: nat, prebuffer: nat)
    requires FRAME_BYTES * i < |pcm| && prebuffer >= 1
    ensures IsFrame(Sent(FrameSendOffset(i, prebuffer),
                         EncodeFrame(AudioFrame(i % Pow256(4), (i * 20) % Pow256(8), FramePcm(pcm, i)))), pcm, i, prebuffer)
  {
    hide Pow256, EncodeFrame, DecodeFrame, FramePcm;
    DecodeInvertsEncode(AudioFrame(i % Pow256(4), (i * 20) % Pow256(8), FramePcm(pcm, i)));
  }

  class SessionAgentAudioPublisher {
    const prebufferFrames: nat
    var sent: seq<Sent>

    constructor (jitterMs: nat)
      ensures prebufferFrames == PrebufferFrames(jitterMs) && prebufferFrames >= 1 && sent == []
    {
      prebufferFrames := PrebufferFrames(jitterMs);
      sent := [];
    }

    /** Nothing is sent unless all non-empty chunks are canonical and there is something to say. */
    method Publish(chunks: seq<AudioChunk>) returns (r: Result<Summary, PublishError>)
      requires prebufferFrames >= 1
      modifies this
      ensures var pcm := Joined(chunks);
        if exists i :: 0 <= i < |chunks| && !Canonical(chunks[i]) then r == Err(WrongFormat) && sent == old(sent)
        else if pcm == [] then r == Err(NoAudio) && sent == old(sent)
        else
          && r == Ok(Summary(FrameCount(|pcm|), |pcm|, SAMPLE_RATE, CHANNELS))
          && old(sent) <= sent && Published(sent[|old(sent)|..], pcm, prebufferFrames)
    {
      var pcm: seq<Byte> := [];
      var c := 0;
      while c < |chunks|
        invariant 0 <= c <= |chunks| && pcm == Joined(chunks[..c])
        invariant forall i :: 0 <= i < c ==> Canonical(chunks[i])
      {
        assert chunks[..c + 1][..c] == chunks[..c];
        if chunks[c].data != [] {
          if chunks[c].sampleRate != SAMPLE_RATE || chunks[c].channels != CHANNELS { return Err(WrongFormat); }
          pcm := pcm + chunks[c].data;
        }
        c := c + 1;
      }
      assert chunks[..c] == chunks;
      if pcm == [] { return Err(NoAudio); }
      SendFrames(pcm);
      r := Ok(Summary(FrameCount(|pcm|), |pcm|, SAMPLE_RATE, CHANNELS));
    }

    /** The loop of `publish`. */
    method SendFrames(pcm: seq<Byte>)
      requires prebufferFrames >= 1
      modifies this
      ensures old(sent) <= sent && Published(sent[|old(sent)|..], pcm, prebufferFrames)
    {
      ghost var before := sent;
      ghost var published: seq<Sent> := [];
      var index := 0;
      while FRAME_BYTES * index < |pcm|
        invariant sent == before + published && |published| == index && index <= FrameCount(|pcm|)
        invariant forall i :: 0 <= i < index ==> FRAME_BYTES * i < |pcm| && IsFrame(published[i], pcm, i, prebufferFrames)
        decreases |pcm| - FRAME_BYTES * index
      {
        FrameIsSent(pcm, index, prebufferFrames);
        hide IsFrame, FramePcm, EncodeFrame, FrameSendOffset;
        var frame := AudioFrame(index % Pow256(4), (index * 20) % Pow256(8), FramePcm(pcm, index));
        var message := Sent(FrameSendOffset(index, prebufferFrames), EncodeFrame(frame));
        sent := sent + [message];
        published := published + [message];
        index := index + 1;
      }
      assert sent[|before|..] == published;
    }
  }

  /** What a receiver concatenates. */
  function Received(sent: seq<Sent>): seq<Byte> {
    if sent == [] then [] else
      var last := DecodeFrame(sent[|sent| - 1].message);
      Received(sent[..|sent| - 1]) + if last.Ok? then last.value.pcm else []
  }

  lemma {:induction false} ReceivedPrefix(sent: seq<Sent>, pcm: seq<Byte>, prebuffer: nat, n: nat)
    requires Published(sent, pcm, prebuffer) && n <= |sent|
    ensures |Received(sent[..n])| == FRAME_BYTES * n
    ensures var end := Min(FRAME_BYTES * n, |pcm|); Received(sent[..n])[..end] == pcm[..end]
  {
    hide DecodeFrame, Pow256;
    if n > 0 {
      ReceivedPrefix(sent, pcm, prebuffer, n - 1);
      assert sent[..n][..n - 1] == sent[..n - 1];
      assert IsFrame(sent[n - 1], pcm, n - 1, prebuffer);
      AppendFrame(Received(sent[..n - 1]), pcm, n - 1);
    }
  }

  lemma AppendFrame(received: seq<Byte>, pcm: seq<Byte>, i: nat)
    requires FRAME_BYTES * i < |pcm| && |received| == FRAME_BYTES * i && received == pcm[..FRAME_BYTES * i]
    ensures var end := Min(FRAME_BYTES * (i + 1), |pcm|); (received + FramePcm(pcm, i))[..end] == pcm[..end]
  {
    var start, end := FRAME_BYTES * i, Min(FRAME_BYTES * (i + 1), |pcm|);
    assert pcm[..end] == pcm[..start] + pcm[start..end];
    assert FramePcm(pcm, i)[..end - start] == pcm[start..end];
  }

  /** Decoding the published frames, joining them and cutting off the silence gives back the samples. */
  lemma ReceivedIsOriginal(sent: seq<Sent>, pcm: seq<Byte>, prebuffer: nat)
    requires Published(sent, pcm, prebuffer)
    ensures |pcm| <= |Received(sent)| < |pcm| + FRAME_BYTES && Received(sent)[..|pcm|] == pcm
  {
    ReceivedPrefix(sent, pcm, prebuffer, |sent|);
    assert sent[..|sent|] == sent && pcm[..|pcm|] == pcm;
  }

  /** Corollary of what is published: for any number of samples that fits in memory, frame `i` carries the time 20 * i, and its
      sending time never exceeds it. */
  lemma Pacing(sent: seq<Sent>, pcm: seq<Byte>, prebuffer: nat, i: nat)
    requires Published(sent, pcm, prebuffer) && prebuffer >= 1 && i < |sent| && |pcm| < 0x8000_0000_0000_0000
    ensures DecodeFrame(sent[i].message).Ok?
    ensures var t := DecodeFrame(sent[i].message).value.timestampMs;
      t == 20 * i && sent[i].offsetMs == t - 20 * Min(i, prebuffer - 1)
  {
    assert IsFrame(sent[i], pcm, i, prebuffer);
    assert Pow256(8) == 0x1_0000_0000_0000_0000;
    hide DecodeFrame, Pow256;
  }

  // ----- The recorded duration -----

  const MAX_I64 := 0x7fff_ffff_ffff_ffff

  datatype DurationError = InvalidFormat | Overflow

  function DurationMs(s: Summary): Result<nat, DurationError> {
    var denominator := s.sampleRate * s.channels * 2;
    if denominator == 0 then Err(InvalidFormat)
    else if s.bytesPublished * 1000 + denominator / 2 > MAX_I64 then Err(Overflow)
    else Ok((s.bytesPublished * 1000 + denominator / 2) / denominator)
  }

  /** The duration of a publication is within half a millisecond of bytes / 48, and lies between the
      length of all frames but the last and the length of all frames. */
  lemma DurationBounds(s: Summary)
    requires s.sampleRate == SAMPLE_RATE && s.channels == CHANNELS && s.bytesPublished > 0
    requires s.chunksPublished == FrameCount(s.bytesPublished)
    ensures DurationMs(s).Ok? <==> s.bytesPublished <= (MAX_I64 - 24000) / 1000
    ensures DurationMs(s).Ok? ==>
              var d := DurationMs(s).value;
              && -24 <= 48 * d - s.bytesPublished <= 24
              && 20 * (s.chunksPublished - 1) <= d <= 20 * s.chunksPublished
  {
  }

  // ----- What is joined, and how far ahead -----

  /** What follows the samples in the last message is silence. */
  lemma PaddingIsSilence(sent: seq<Sent>, pcm: seq<Byte>, prebuffer: nat, i: nat, k: nat)
    requires Published(sent, pcm, prebuffer) && i < |sent| && k < FRAME_BYTES
    ensures DecodeFrame(sent[i].message).Ok? && |DecodeFrame(sent[i].message).value.pcm| == FRAME_BYTES
    ensures DecodeFrame(sent[i].message).value.pcm[k] == if FRAME_BYTES * i + k < |pcm| then pcm[FRAME_BYTES * i + k] else 0
  {
    assert IsFrame(sent[i], pcm, i, prebuffer);
    hide DecodeFrame, Pow256;
  }

  /** The samples of a publication are those of its chunks, one after the other. */
  lemma {:induction false} JoinedInOrder(a: seq<AudioChunk>, c: AudioChunk, b: seq<AudioChunk>)
    ensures Joined(a + [c] + b) == Joined(a) + c.data + Joined(b)
  {
    if b == [] {
      assert a + [c] + b == a + [c];
      assert (a + [c])[..|a|] == a;
    } else {
      var all := a + [c] + b;
      assert all[..|all| - 1] == a + [c] + b[..|b| - 1];
      JoinedInOrder(a, c, b[..|b| - 1]);
    }
  }

  lemma NothingJoined()
    ensures Joined([]) == []
  {
  }

  /** The lead is the smallest whole number of frames, at least one, that covers the jitter buffer. */
  lemma SmallestPrebuffer(jitterMs: nat, frames: nat)
    ensures PrebufferFrames(jitterMs) >= 1 && PrebufferFrames(jitterMs) * FRAME_MS >= jitterMs
    ensures frames >= 1 && frames * FRAME_MS >= jitterMs ==> PrebufferFrames(jitterMs) <= frames
  {
  }

  /** The layout of a message: the version, the sequence number and the time with their most significant
      bytes first, and the samples. */
  lemma MessageLayout(f: AudioFrame, i: nat)
    ensures var b := EncodeFrame(f);
      && |b| == HEADER_BYTES + |f.pcm| && b[0] == 1 && b[HEADER_BYTES..] == f.pcm
      && (i < 4 ==> b[1 + i] as nat == f.sequence / Pow256(3 - i) % 256)
      && (i < 8 ==> b[5 + i] as nat == f.timestampMs / Pow256(7 - i) % 256)
  {
    FrameParts(f);
    var b := EncodeFrame(f);
    hide EncodeFrame, Encode, Pow256;
    if i < 4 { assert b[1..5][i] == b[1 + i]; EncodeAt(f.sequence, 4, i); }
    if i < 8 { assert b[5..13][i] == b[5 + i]; EncodeAt(f.timestampMs, 8, i); }
  }
}
