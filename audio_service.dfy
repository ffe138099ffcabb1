/** The live transcription service of one meeting. Each audio chunk taken
    from the capture queue updates a silence counter and a byte buffer;
    when the silence counter passes its limit or the buffer grows too
    long, the current phrase is moved into the append-only transcript.

    Audio capture, mixing, the energy computation, WAV encoding, the call
    to the transcription server and the asyncio/threading schedule are not
    part of this model: the chunk's bytes and energy are inputs, and the
    text the transcription server returns is an input of ApplyTranscription. */
module AudioServiceModel {
  import opened Common
  import opened Models

  newtype byte = x: int | 0 <= x < 256

  /** The constructor's tuning parameters, with the defaults used when the
      configuration file does not set them. */
  datatype Config = Config(
    sampleRate: int,
    chunkSize: int,
    silenceSeconds: real,
    threshold: real,
    maxRecordTime: real)

  const DefaultConfig: Config := Config(16000, 1024, 1.0, 0.0, 30.0)

  /** Python's int() on a float: truncation toward zero. */
  function Truncate(x: real): (n: int)
    ensures x >= 0.0 ==> n as real <= x < n as real + 1.0
    ensures x < 0.0 ==> n as real - 1.0 < x <= n as real
  {
    if x >= 0.0 then x.Floor else -((-x).Floor)
  }

  /** int(sample_rate / chunk_size * silence_seconds): how many chunks of
      silence are tolerated before the phrase is closed. Python raises
      ZeroDivisionError on a zero chunk size. */
  function SilenceLimit(c: Config): int
    requires c.chunkSize != 0
  {
    Truncate(c.sampleRate as real / c.chunkSize as real * c.silenceSeconds)
  }

  lemma DefaultSilenceLimit()
    ensures SilenceLimit(DefaultConfig) == 15
  {
    assert 16000.0 / 1024.0 * 1.0 == 15.625;
  }

  /** One chunk from the capture queue: its bytes and its RMS energy. */
  datatype Chunk = Chunk(data: seq<byte>, energy: real)

  /** The state the chunk loop works on: the local buffer and silence
      counter, and the service's transcript and current phrase. */
  datatype Live = Live(buffer: seq<byte>, silence: int, transcript: string, phrase: string)

  /** What get_transcription returns in a state. */
  function Transcription(s: Live): string {
    s.transcript + s.phrase
  }

  function CountedSilence(c: Config, s: Live, ch: Chunk): int {
    s.silence + (if ch.energy < c.threshold then 1 else 0)
  }

  /** The flush condition, evaluated after the counter has been updated
      and before the chunk joins the buffer. The buffer length is counted
      in bytes. */
  predicate Flushes(c: Config, limit: int, s: Live, ch: Chunk) {
    CountedSilence(c, s, ch) > limit || |s.buffer| as real > c.maxRecordTime * c.sampleRate as real
  }

  /** The state after one chunk. */
  function Step(c: Config, limit: int, s: Live, ch: Chunk): Live {
    var silence := CountedSilence(c, s, ch);
    if Flushes(c, limit, s, ch) then
      Live(ch.data, silence, s.transcript + s.phrase + "\n", "")
    else
      Live(s.buffer + ch.data, silence, s.transcript, s.phrase)
  }

  predicate IsPrefix(a: string, b: string) {
    |a| <= |b| && b[..|a|] == a
  }

  /** The effect of one chunk on the transcript, the phrase, the counter
      and the buffer. */
  lemma StepEffect(c: Config, limit: int, s: Live, ch: Chunk)
    ensures IsPrefix(s.transcript, Step(c, limit, s, ch).transcript)
    ensures |Step(c, limit, s, ch).transcript| > |s.transcript| <==> Flushes(c, limit, s, ch)
    ensures Flushes(c, limit, s, ch) ==>
      Transcription(Step(c, limit, s, ch)) == Transcription(s) + "\n" && Step(c, limit, s, ch).phrase == ""
    ensures !Flushes(c, limit, s, ch) ==> Transcription(Step(c, limit, s, ch)) == Transcription(s)
    ensures Step(c, limit, s, ch).silence >= s.silence
    ensures Step(c, limit, s, ch).silence == s.silence + 1 <==> ch.energy < c.threshold
    ensures Step(c, limit, s, ch).silence == s.silence <==> ch.energy >= c.threshold
    ensures BufferEndsWith(Step(c, limit, s, ch).buffer, ch.data)
    ensures Flushes(c, limit, s, ch) ==> Step(c, limit, s, ch).buffer == ch.data
    ensures !Flushes(c, limit, s, ch) ==> Step(c, limit, s, ch).buffer[..|s.buffer|] == s.buffer
  {
    var t := Step(c, limit, s, ch);
    if Flushes(c, limit, s, ch) {
      assert Transcription(t) == s.transcript + s.phrase + "\n" + "";
    }
  }

  function BufferEndsWith(buffer: seq<byte>, data: seq<byte>): bool {
    |data| <= |buffer| && buffer[|buffer| - |data|..] == data
  }

  /** The state after a sequence of chunks. */
  function Steps(c: Config, limit: int, s: Live, chunks: seq<Chunk>): Live {
    if chunks == [] then s
    else Step(c, limit, Steps(c, limit, s, chunks[..|chunks| - 1]), chunks[|chunks| - 1])
  }

  /** How many of the chunks close a phrase. */
  function FlushCount(c: Config, limit: int, s: Live, chunks: seq<Chunk>): nat {
    if chunks == [] then 0
    else
      var prev := Steps(c, limit, s, chunks[..|chunks| - 1]);
      FlushCount(c, limit, s, chunks[..|chunks| - 1]) + (if Flushes(c, limit, prev, chunks[|chunks| - 1]) then 1 else 0)
  }

  function Newlines(n: nat): string {
    if n == 0 then "" else Newlines(n - 1) + "\n"
  }

  /** Over any number of chunks the transcript only grows by appending,
      the counter never decreases, and get_transcription gains one newline
      per flush and nothing else. */
  lemma {:induction false} StepsEffect(c: Config, limit: int, s: Live, chunks: seq<Chunk>)
    ensures IsPrefix(s.transcript, Steps(c, limit, s, chunks).transcript)
    ensures Steps(c, limit, s, chunks).silence >= s.silence
    ensures Transcription(Steps(c, limit, s, chunks)) == Transcription(s) + Newlines(FlushCount(c, limit, s, chunks))
  {
    if chunks != [] {
      var init := chunks[..|chunks| - 1];
      var prev := Steps(c, limit, s, init);
      StepsEffect(c, limit, s, init);
      StepEffect(c, limit, prev, chunks[|chunks| - 1]);
      assert prev.transcript[..|s.transcript|] == s.transcript;
    }
  }

  /** The counter is never reset, so once it has passed the limit every
      later chunk closes a phrase and the buffer holds only that chunk. */
  lemma {:induction false} FlushForeverAfter(c: Config, limit: int, s: Live, chunks: seq<Chunk>)
    requires s.silence > limit
    ensures Steps(c, limit, s, chunks).silence > limit
    ensures chunks != [] ==> Steps(c, limit, s, chunks).buffer == chunks[|chunks| - 1].data
    ensures FlushCount(c, limit, s, chunks) == |chunks|
  {
    if chunks != [] {
      FlushForeverAfter(c, limit, s, chunks[..|chunks| - 1]);
    }
  }

  /** With the default threshold of 0 a chunk never counts as silent,
      since an RMS energy is never negative. */
  lemma DefaultThresholdNeverSilent(s: Live, ch: Chunk)
    requires ch.energy >= 0.0
    ensures Step(DefaultConfig, SilenceLimit(DefaultConfig), s, ch).silence == s.silence
  {
  }

  class AudioService {
    var deviceInfo: set<DeviceSpec>
    var meetingId: int
    var config: Config
    var transcript: string
    var currentPhrase: string
    var running: bool

    constructor (deviceInfo: set<DeviceSpec>, meetingId: int, config: Config)
      ensures this.deviceInfo == deviceInfo && this.meetingId == meetingId && this.config == config
      ensures transcript == "" && currentPhrase == "" && !running
    {
      this.deviceInfo := deviceInfo;
      this.meetingId := meetingId;
      this.config := config;
      transcript := "";
      currentPhrase := "";
      running := false;
    }

    function GetTranscription(): (r: string)
      reads this
      ensures |transcript| <= |r| && r[..|transcript|] == transcript && r[|transcript|..] == currentPhrase
    {
      transcript + currentPhrase
    }

    /** The opening of start: the local buffer and counter, the silence
      limit, and the running flag. */
    method Begin() returns (buffer: seq<byte>, silence: int, limit: int)
      requires config.chunkSize != 0
      modifies this
      ensures deviceInfo == old(deviceInfo) && meetingId == old(meetingId) && config == old(config)
      ensures buffer == [] && silence == 0 && limit == SilenceLimit(config)
      ensures running
      ensures transcript == old(transcript) && currentPhrase == old(currentPhrase)
    {
      buffer := [];
      silence := 0;
      limit := SilenceLimit(config);
      running := true;
    }

    /** One chunk taken from the queue. */
    method ProcessChunk(buffer: seq<byte>, silence: int, limit: int, chunk: Chunk)
      returns (buffer': seq<byte>, silence': int)
      modifies this
      ensures Live(buffer', silence', transcript, currentPhrase)
        == Step(config, limit, Live(buffer, silence, old(transcript), old(currentPhrase)), chunk)
      ensures running == old(running) && deviceInfo == old(deviceInfo)
      ensures meetingId == old(meetingId) && config == old(config)
    {
      silence' := silence + (if chunk.energy < config.threshold then 1 else 0);
      buffer' := buffer;
      if silence' > limit || |buffer'| as real > config.maxRecordTime * config.sampleRate as real {
        buffer' := [];
        transcript := transcript + currentPhrase + "\n";
        currentPhrase := "";
      }
      buffer' := buffer' + chunk.data;
    }

    /** Drains the queue: every chunk waiting in it, oldest first. */
    method Drain(buffer: seq<byte>, silence: int, limit: int, chunks: seq<Chunk>)
      returns (buffer': seq<byte>, silence': int)
      modifies this
      ensures Live(buffer', silence', transcript, currentPhrase)
        == Steps(config, limit, Live(buffer, silence, old(transcript), old(currentPhrase)), chunks)
      ensures running == old(running) && deviceInfo == old(deviceInfo)
      ensures meetingId == old(meetingId) && config == old(config)
    {
      buffer', silence' := buffer, silence;
      ghost var start := Live(buffer, silence, transcript, currentPhrase);
      for i := 0 to |chunks|
        invariant Live(buffer', silence', transcript, currentPhrase) == Steps(config, limit, start, chunks[..i])
        invariant running == old(running) && deviceInfo == old(deviceInfo)
        invariant meetingId == old(meetingId) && config == old(config)
      {
        assert chunks[..i + 1][..i] == chunks[..i];
        buffer', silence' := ProcessChunk(buffer', silence', limit, chunks[i]);
      }
      assert chunks[..|chunks|] == chunks;
    }

    /** The transcription server's answer replaces the current phrase. */
    method ApplyTranscription(text: string)
      modifies this
      ensures currentPhrase == Strip(text)
      ensures transcript == old(transcript) && running == old(running)
      ensures deviceInfo == old(deviceInfo) && meetingId == old(meetingId) && config == old(config)
    {
      currentPhrase := Strip(text);
    }

    method Stop()
      modifies this
      ensures !running
      ensures transcript == old(transcript) && currentPhrase == old(currentPhrase)
      ensures deviceInfo == old(deviceInfo) && meetingId == old(meetingId) && config == old(config)
    {
      running := false;
    }
  }
}
