/**
  The transcription service: session creation with provider and API-key
  validation, the audio generator that frames a WebSocket stream and ends it
  with a sentinel, the Deepgram path that buffers the stream and maps the
  REST response to result records, and the formatter of the full transcript.

  The WebSocket, the clock, the Deepgram HTTP call and the environment are
  parameters: a stream is the sequence of what each receive produced, the
  HTTP answer is a status code and a parsed response.
 */
module Transcription {
  import opened Wrappers
  import opened Seqs
  import opened Text

  // ---------------------------------------------------------------------------
  // Session creation

  const AssemblyAI := "assemblyai"
  const Deepgram := "deepgram"

  /** The API keys and the default provider read from the environment ("" when unset). */
  datatype Config = Config(assemblyaiKey: string, deepgramKey: string, defaultProvider: string)

  /** A session request; `provider` is "" when the request leaves it out. */
  datatype SessionRequest = SessionRequest(patientId: string, doctorId: string, provider: string)

  datatype SessionResponse = SessionResponse(sessionId: string, status: string, provider: string)

  datatype HttpError = HttpError(status: nat, detail: string)

  /** The service refuses to start unless at least one API key is set. */
  predicate ServiceStarts(config: Config)
  {
    config.assemblyaiKey != "" || config.deepgramKey != ""
  }

  /** `request.provider or DEFAULT_PROVIDER`. */
  function ChosenProvider(config: Config, request: SessionRequest): string
  {
    if request.provider != "" then request.provider else config.defaultProvider
  }

  /** A provider a session can use: one of the two names, with its key configured. */
  predicate Usable(config: Config, provider: string)
  {
    (provider == AssemblyAI && config.assemblyaiKey != "") || (provider == Deepgram && config.deepgramKey != "")
  }

  /**
    `create_session`: the key checks of the two known providers run first,
    then the name check; a session is `created` with the chosen provider.
   */
  function CreateSession(config: Config, request: SessionRequest, sessionId: string): (r: Result<SessionResponse, HttpError>)
    ensures r.Ok? <==> Usable(config, ChosenProvider(config, request))
    ensures r.Ok? ==> r.value == SessionResponse(sessionId, "created", ChosenProvider(config, request))
    ensures r.Err? ==> r.error.status == 400
  {
    var provider := ChosenProvider(config, request);
    if provider == AssemblyAI && config.assemblyaiKey == "" then
      Err(HttpError(400, "AssemblyAI API key not configured"))
    else if provider == Deepgram && config.deepgramKey == "" then
      Err(HttpError(400, "Deepgram API key not configured"))
    else if provider != AssemblyAI && provider != Deepgram then
      Err(HttpError(400, "Invalid provider '" + provider + "'. Must be 'assemblyai' or 'deepgram'"))
    else
      Ok(SessionResponse(sessionId, "created", provider))
  }

  /** A request for AssemblyAI without its key is refused for the key, before the name check. */
  lemma CreateSessionMissingAssemblyAIKey(config: Config, request: SessionRequest, sessionId: string)
    requires ChosenProvider(config, request) == AssemblyAI && config.assemblyaiKey == ""
    ensures CreateSession(config, request, sessionId) == Err(HttpError(400, "AssemblyAI API key not configured"))
  {
  }

  /** A request for Deepgram without its key is refused for the key, before the name check. */
  lemma CreateSessionMissingDeepgramKey(config: Config, request: SessionRequest, sessionId: string)
    requires ChosenProvider(config, request) == Deepgram && config.deepgramKey == ""
    ensures CreateSession(config, request, sessionId) == Err(HttpError(400, "Deepgram API key not configured"))
  {
  }

  /** Any other name is refused as an invalid provider, whatever keys are set. */
  lemma CreateSessionUnknownProvider(config: Config, request: SessionRequest, sessionId: string)
    requires ChosenProvider(config, request) != AssemblyAI && ChosenProvider(config, request) != Deepgram
    ensures var p := ChosenProvider(config, request);
      CreateSession(config, request, sessionId) == Err(HttpError(400, "Invalid provider '" + p + "'. Must be 'assemblyai' or 'deepgram'"))
  {
  }

  /** A service that started has a provider some request can create a session with. */
  lemma StartedServiceAccepts(config: Config, sessionId: string)
    requires ServiceStarts(config)
    ensures exists request: SessionRequest :: CreateSession(config, request, sessionId).Ok?
  {
    var p := if config.assemblyaiKey != "" then AssemblyAI else Deepgram;
    var request := SessionRequest("", "", p);
    assert CreateSession(config, request, sessionId).Ok?;
  }

  // ---------------------------------------------------------------------------
  // Audio framing

  newtype byte = x: int | 0 <= x < 256

  type Chunk = seq<byte>

  /** `b'END_OF_STREAM'`. */
  const EndOfStream: Chunk := [69, 78, 68, 95, 79, 70, 95, 83, 84, 82, 69, 65, 77]

  /** What one `receive_bytes` under a 30 s timeout produced: bytes, a timeout, or another error. */
  datatype Receipt = Data(chunk: Chunk) | Timeout | Failure

  /** A receipt the generator passes on and keeps listening after: bytes other than the sentinel. */
  predicate Regular(r: Receipt)
  {
    r.Data? && r.chunk != EndOfStream
  }

  /** The frames `audio_generator` yields: bytes in arrival order, then the sentinel on a sentinel or a timeout. */
  function Frames(rs: seq<Receipt>): seq<Chunk>
    decreases |rs|
  {
    if rs == [] then []
    else match rs[0]
      case Data(c) => if c == EndOfStream then [EndOfStream] else [c] + Frames(rs[1..])
      case Timeout => [EndOfStream]
      case Failure => []
  }

  /** The index of the first receipt that ends the generator, or `|rs|`. */
  function FirstStop(rs: seq<Receipt>): (k: nat)
    ensures k <= |rs|
    decreases |rs|
  {
    if rs == [] || !Regular(rs[0]) then 0 else 1 + FirstStop(rs[1..])
  }

  /** The receipts before the first stop are regular, and the one at it is not. */
  lemma {:induction false} FirstStopRegular(rs: seq<Receipt>)
    ensures forall i :: 0 <= i < FirstStop(rs) ==> Regular(rs[i])
    ensures FirstStop(rs) < |rs| ==> !Regular(rs[FirstStop(rs)])
    decreases |rs|
  {
    if rs != [] && Regular(rs[0]) {
      FirstStopRegular(rs[1..]);
      assert forall i :: 1 <= i < |rs| ==> rs[i] == rs[1..][i - 1];
    }
  }

  /** The generator stopped on the sentinel or on a timeout (not on an error, not still listening). */
  predicate Signalled(rs: seq<Receipt>)
  {
    FirstStop(rs) < |rs| && !rs[FirstStop(rs)].Failure?
  }

  function Payload(r: Receipt): Chunk
  {
    if r.Data? then r.chunk else []
  }

  lemma FramesRegular(rs: seq<Receipt>)
    requires rs != [] && Regular(rs[0])
    ensures Frames(rs) == [rs[0].chunk] + Frames(rs[1..])
  {
  }

  lemma FramesAtStop(rs: seq<Receipt>)
    requires rs == [] || !Regular(rs[0])
    ensures Signalled(rs) ==> Frames(rs) == [EndOfStream]
    ensures !Signalled(rs) ==> Frames(rs) == []
  {
  }

  lemma PrefixCons<T>(xs: seq<T>, k: nat)
    requires k < |xs|
    ensures xs[..k + 1] == [xs[0]] + xs[1..][..k]
  {
  }

  /** The frames are the payloads before the first stop, then the sentinel once when the stop was a signal. */
  lemma {:induction false} FramesShape(rs: seq<Receipt>)
    ensures Signalled(rs) ==> Frames(rs) == MapSeq(Payload, rs[..FirstStop(rs)]) + [EndOfStream]
    ensures !Signalled(rs) ==> Frames(rs) == MapSeq(Payload, rs[..FirstStop(rs)])
    decreases |rs|
  {
    if rs != [] && Regular(rs[0]) {
      var rest := rs[1..];
      var k := FirstStop(rest);
      FramesShape(rest);
      FramesRegular(rs);
      assert FirstStop(rs) == 1 + k;
      PrefixCons(rs, k);
      MapSeqAppend(Payload, [rs[0]], rest[..k]);
      if k < |rest| {
        assert rs[k + 1] == rest[k];
      }
    } else {
      FramesAtStop(rs);
      assert rs[..FirstStop(rs)] == [];
    }
  }

  /** `END_OF_STREAM` is yielded exactly when a signal stopped the generator, and then only as the last frame. */
  lemma EndOfStreamOnce(rs: seq<Receipt>)
    ensures EndOfStream in Frames(rs) <==> Signalled(rs)
    ensures Signalled(rs) ==> var f := Frames(rs); f[|f| - 1] == EndOfStream && EndOfStream !in f[..|f| - 1]
  {
    FramesShape(rs);
    FirstStopRegular(rs);
    var k := FirstStop(rs);
    var p := MapSeq(Payload, rs[..k]);
    assert forall i :: 0 <= i < |p| ==> p[i] == rs[i].chunk && Regular(rs[i]);
    assert EndOfStream !in p;
    if Signalled(rs) {
      assert Frames(rs)[..|Frames(rs)| - 1] == p;
    } else {
      assert Frames(rs) == p;
    }
  }

  /** `audio_generator`: the frames yielded and `chunk_count`, the number of data frames passed on. */
  method AudioGenerator(rs: seq<Receipt>) returns (frames: seq<Chunk>, chunkCount: nat)
    ensures frames == Frames(rs)
    ensures chunkCount == FirstStop(rs)
  {
    frames := [];
    chunkCount := 0;
    var i := 0;
    var stopped := false;
    while i < |rs| && !stopped
      invariant 0 <= i <= |rs|
      invariant !stopped ==> frames + Frames(rs[i..]) == Frames(rs) && FirstStop(rs) == i + FirstStop(rs[i..]) && chunkCount == i
      invariant stopped ==> frames == Frames(rs) && chunkCount == FirstStop(rs)
      decreases |rs| - i, !stopped
    {
      assert rs[i..][1..] == rs[i + 1..];
      match rs[i]
      case Data(data) =>
        if data == EndOfStream {
          frames := frames + [EndOfStream];
          stopped := true;
        } else {
          chunkCount := chunkCount + 1;
          frames := frames + [data];
          i := i + 1;
        }
      case Timeout =>
        frames := frames + [EndOfStream];
        stopped := true;
      case Failure =>
        stopped := true;
    }
    if !stopped {
      assert rs[i..] == [];
    }
  }

  // ---------------------------------------------------------------------------
  // Deepgram buffering

  /** The index of the first sentinel in the stream, or its length. */
  function SentinelIndex(stream: seq<Chunk>): (k: nat)
    ensures k <= |stream|
    ensures forall i :: 0 <= i < k ==> stream[i] != EndOfStream
    ensures k < |stream| ==> stream[k] == EndOfStream
    decreases |stream|
  {
    if stream == [] || stream[0] == EndOfStream then 0 else 1 + SentinelIndex(stream[1..])
  }

  /** The chunks the Deepgram path reads before the sentinel. */
  function BeforeSentinel(stream: seq<Chunk>): seq<Chunk>
  {
    stream[..SentinelIndex(stream)]
  }

  /** The chunks written one after the other into one buffer. */
  function Flatten(chunks: seq<Chunk>): (r: Chunk)
  {
    if chunks == [] then [] else Flatten(chunks[..|chunks| - 1]) + chunks[|chunks| - 1]
  }

  /** The buffer is empty exactly when every chunk is. */
  lemma {:induction false} FlattenEmpty(chunks: seq<Chunk>)
    ensures Flatten(chunks) == [] <==> forall i :: 0 <= i < |chunks| ==> chunks[i] == []
    decreases |chunks|
  {
    if chunks != [] {
      var n := |chunks| - 1;
      FlattenEmpty(chunks[..n]);
      assert forall i :: 0 <= i < n ==> chunks[..n][i] == chunks[i];
    }
  }

  lemma SentinelIndexUnique(stream: seq<Chunk>, k: nat)
    requires k <= |stream|
    requires forall i :: 0 <= i < k ==> stream[i] != EndOfStream
    requires k < |stream| ==> stream[k] == EndOfStream
    ensures SentinelIndex(stream) == k
  {
    var s := SentinelIndex(stream);
    assert !(s < k) && !(k < s);
  }

  /** The buffering loop of `transcribe_deepgram`: the buffer and the chunk count. */
  method BufferAudio(stream: seq<Chunk>) returns (buffer: Chunk, chunkCount: nat)
    ensures buffer == Flatten(BeforeSentinel(stream))
    ensures chunkCount == |BeforeSentinel(stream)|
  {
    buffer := [];
    chunkCount := 0;
    var i := 0;
    while i < |stream| && stream[i] != EndOfStream
      invariant 0 <= i <= |stream|
      invariant forall k :: 0 <= k < i ==> stream[k] != EndOfStream
      invariant buffer == Flatten(stream[..i]) && chunkCount == i
    {
      assert stream[..i + 1][..i] == stream[..i];
      buffer := buffer + stream[i];
      chunkCount := chunkCount + 1;
      i := i + 1;
    }
    SentinelIndexUnique(stream, i);
  }

  /** Behind the generator, the Deepgram path buffers exactly the payloads received before the stop. */
  lemma BufferOfGenerator(rs: seq<Receipt>)
    ensures BeforeSentinel(Frames(rs)) == MapSeq(Payload, rs[..FirstStop(rs)])
  {
    FramesShape(rs);
    FirstStopRegular(rs);
    var p := MapSeq(Payload, rs[..FirstStop(rs)]);
    assert forall i :: 0 <= i < |p| ==> p[i] == rs[i].chunk && Regular(rs[i]);
    SentinelIndexUnique(Frames(rs), |p|);
    assert Frames(rs)[..|p|] == p;
  }

  // ---------------------------------------------------------------------------
  // Deepgram results

  /** A word of a Deepgram alternative; `None` for a missing key. */
  datatype Word = Word(word: Option<string>, confidence: Option<real>, start: Option<real>, end: Option<real>, speaker: Option<int>)

  datatype Alternative = Alternative(transcript: Option<string>, confidence: Option<real>, words: Option<seq<Word>>)

  datatype Channel = Channel(alternatives: Option<seq<Alternative>>)

  /** The parsed response; `channels` is `None` when `results` or `results.channels` is missing. */
  datatype DeepgramResponse = DeepgramResponse(channels: Option<seq<Channel>>)

  datatype WordRecord = WordRecord(word: string, confidence: real, start: real, end: real, speaker: Option<int>)

  datatype TranscriptResult = TranscriptResult(text: string, isFinal: bool, sessionId: string, provider: string,
                                               timestamp: string, confidence: real,
                                               words: Option<seq<WordRecord>>, speaker: Option<int>)

  /** `d.get(key, default)`. */
  function GetOr<T>(o: Option<T>, default: T): (r: T)
    ensures o.Some? ==> r == o.value
    ensures o.None? ==> r == default
  {
    if o.Some? then o.value else default
  }

  /** A word record: the word's fields, defaulting to "", 0.95, 0, 0 and no speaker. */
  function WordRecordOf(w: Word): (r: WordRecord)
    ensures r.word == GetOr(w.word, "") && r.confidence == GetOr(w.confidence, 0.95)
    ensures r.start == GetOr(w.start, 0.0) && r.end == GetOr(w.end, 0.0) && r.speaker == w.speaker
  {
    WordRecord(GetOr(w.word, ""), GetOr(w.confidence, 0.95), GetOr(w.start, 0.0), GetOr(w.end, 0.0), w.speaker)
  }

  function SpeakerOf(w: Word): Option<int>
  {
    w.speaker
  }

  /** The speakers of the words that have one, in order. */
  function Speakers(words: seq<Word>): seq<int>
  {
    Somes(MapSeq(SpeakerOf, words))
  }

  /** `s` is one of the speakers, and no speaker occurs more often. */
  predicate MajoritySpeaker(speakers: seq<int>, s: int)
  {
    s in speakers && forall y :: y in speakers ==> multiset(speakers)[y] <= multiset(speakers)[s]
  }

  /** The `speaker` of a result: none without word speakers, else a most frequent one. */
  predicate SpeakerChoice(words: Option<seq<Word>>, speaker: Option<int>)
  {
    var sp := if words.Some? then Speakers(words.value) else [];
    (sp == [] ==> speaker == None) && (sp != [] ==> speaker.Some? && MajoritySpeaker(sp, speaker.value))
  }

  lemma {:induction false} BestAmong(speakers: seq<int>, cs: seq<int>)
    requires cs != []
    ensures exists c :: c in cs && forall y :: y in cs ==> multiset(speakers)[y] <= multiset(speakers)[c]
    decreases |cs|
  {
    var m := multiset(speakers);
    if |cs| == 1 {
      var c := cs[0];
      assert forall y :: y in cs ==> y == c;
      assert c in cs && forall y :: y in cs ==> m[y] <= m[c];
    } else {
      var rest := cs[1..];
      BestAmong(speakers, rest);
      var b :| b in rest && forall y :: y in rest ==> m[y] <= m[b];
      var c := if m[cs[0]] > m[b] then cs[0] else b;
      assert cs == [cs[0]] + rest;
      assert c in cs;
      forall y | y in cs
        ensures m[y] <= m[c]
      {
        if y != cs[0] {
          assert y in rest;
        }
      }
    }
  }

  /** A non-empty list of speakers has a most frequent one. */
  lemma MajorityExists(speakers: seq<int>)
    requires speakers != []
    ensures exists s :: MajoritySpeaker(speakers, s)
  {
    BestAmong(speakers, speakers);
    var c :| c in speakers && forall y :: y in speakers ==> multiset(speakers)[y] <= multiset(speakers)[c];
    assert MajoritySpeaker(speakers, c);
  }

  /** A speaker occurring strictly more often than every other is the only possible choice. */
  lemma MajorityUnique(speakers: seq<int>, s: int, t: int)
    requires MajoritySpeaker(speakers, s)
    requires t in speakers && forall y :: y in speakers && y != t ==> multiset(speakers)[y] < multiset(speakers)[t]
    ensures s == t
  {
  }

  /** `max(set(speakers), key=speakers.count)`: which of several equally frequent speakers comes out is not fixed. */
  method ChooseSpeaker(speakers: seq<int>) returns (s: int)
    requires speakers != []
    ensures MajoritySpeaker(speakers, s)
  {
    MajorityExists(speakers);
    s :| MajoritySpeaker(speakers, s);
  }

  /** `alternative.get("transcript", "")`. */
  function TranscriptOf(alt: Alternative): string
  {
    GetOr(alt.transcript, "")
  }

  /** The alternative a channel contributes: its first, when there is one and its transcript is not empty. */
  function FirstAlternative(channel: Channel): (r: Option<Alternative>)
    ensures r.Some? <==> channel.alternatives.Some? && channel.alternatives.value != [] && TranscriptOf(channel.alternatives.value[0]) != ""
    ensures r.Some? ==> r.value == channel.alternatives.value[0]
  {
    if channel.alternatives.None? || channel.alternatives.value == [] then None
    else if TranscriptOf(channel.alternatives.value[0]) == "" then None
    else Some(channel.alternatives.value[0])
  }

  /** The alternatives that become results, in channel order. */
  function Kept(channels: seq<Channel>): seq<Alternative>
  {
    Somes(MapSeq(FirstAlternative, channels))
  }

  lemma KeptNext(channels: seq<Channel>, i: nat)
    requires i < |channels|
    ensures FirstAlternative(channels[i]).None? ==> Kept(channels[..i + 1]) == Kept(channels[..i])
    ensures FirstAlternative(channels[i]).Some? ==> Kept(channels[..i + 1]) == Kept(channels[..i]) + [FirstAlternative(channels[i]).value]
  {
    MapSeqSnoc(FirstAlternative, channels, i);
    SomesSnoc(MapSeq(FirstAlternative, channels[..i]), FirstAlternative(channels[i]));
  }

  /** The result of an alternative before its speaker is chosen: final, from Deepgram, with the word records. */
  function BaseResult(alt: Alternative, sessionId: string, timestamp: string): (r: TranscriptResult)
    ensures r.isFinal && r.provider == Deepgram && r.speaker == None
    ensures r.text == TranscriptOf(alt) && r.confidence == GetOr(alt.confidence, 0.95)
    ensures alt.words.None? ==> r.words == None
    ensures alt.words.Some? ==> r.words == Some(MapSeq(WordRecordOf, alt.words.value))
  {
    TranscriptResult(TranscriptOf(alt), true, sessionId, Deepgram, timestamp, GetOr(alt.confidence, 0.95),
                     if alt.words.Some? then Some(MapSeq(WordRecordOf, alt.words.value)) else None, None)
  }

  /** The result of one alternative, with a speaker that `SpeakerChoice` allows. */
  predicate ResultFor(alt: Alternative, sessionId: string, timestamp: string, result: TranscriptResult)
  {
    result == BaseResult(alt, sessionId, timestamp).(speaker := result.speaker) && SpeakerChoice(alt.words, result.speaker)
  }

  /** One result per alternative, in order. */
  predicate ResultsFor(alts: seq<Alternative>, sessionId: string, timestamp: string, results: seq<TranscriptResult>)
  {
    |results| == |alts| && forall k :: 0 <= k < |alts| ==> ResultFor(alts[k], sessionId, timestamp, results[k])
  }

  lemma ResultsForSnoc(alts: seq<Alternative>, sessionId: string, timestamp: string, results: seq<TranscriptResult>,
                       alt: Alternative, result: TranscriptResult)
    requires ResultsFor(alts, sessionId, timestamp, results) && ResultFor(alt, sessionId, timestamp, result)
    ensures ResultsFor(alts + [alt], sessionId, timestamp, results + [result])
  {
    var a := alts + [alt];
    var r := results + [result];
    forall k | 0 <= k < |a|
      ensures ResultFor(a[k], sessionId, timestamp, r[k])
    {
      if k < |alts| {
        assert a[k] == alts[k] && r[k] == results[k];
      }
    }
  }

  /** The result record of one channel's alternative. */
  method BuildResult(alt: Alternative, sessionId: string, timestamp: string) returns (result: TranscriptResult)
    ensures ResultFor(alt, sessionId, timestamp, result)
  {
    result := TranscriptResult(TranscriptOf(alt), true, sessionId, Deepgram, timestamp, GetOr(alt.confidence, 0.95), None, None);
    if alt.words.Some? {
      result := result.(words := Some(MapSeq(WordRecordOf, alt.words.value)));
      var speakers := Speakers(alt.words.value);
      if speakers != [] {
        var s := ChooseSpeaker(speakers);
        result := result.(speaker := Some(s));
      }
    }
  }

  /** The loop over the channels: channels without alternatives or with an empty transcript are skipped. */
  method MapChannels(channels: seq<Channel>, sessionId: string, timestamp: string) returns (results: seq<TranscriptResult>)
    ensures ResultsFor(Kept(channels), sessionId, timestamp, results)
  {
    results := [];
    for i := 0 to |channels|
      invariant ResultsFor(Kept(channels[..i]), sessionId, timestamp, results)
    {
      KeptNext(channels, i);
      var channel := channels[i];
      if channel.alternatives.None? || channel.alternatives.value == [] {
        continue;
      }
      var alternative := channel.alternatives.value[0];
      var transcript := TranscriptOf(alternative);
      if transcript == "" {
        continue;
      }
      var result := BuildResult(alternative, sessionId, timestamp);
      ResultsForSnoc(Kept(channels[..i]), sessionId, timestamp, results, alternative, result);
      results := results + [result];
    }
    assert channels[..|channels|] == channels;
  }

  /**
    `transcribe_deepgram`: the stream is buffered up to the sentinel; an empty
    buffer gives no results; a status other than 200 is an error; a response
    without channels gives no results; otherwise one result per kept alternative.
   */
  method TranscribeDeepgram(stream: seq<Chunk>, status: nat, response: DeepgramResponse, sessionId: string, timestamp: string)
    returns (r: Result<seq<TranscriptResult>, string>)
    ensures Flatten(BeforeSentinel(stream)) == [] ==> r == Ok([])
    ensures Flatten(BeforeSentinel(stream)) != [] && status != 200 ==> r == Err("Deepgram API error: " + NatToString(status))
    ensures Flatten(BeforeSentinel(stream)) != [] && status == 200 && response.channels.None? ==> r == Ok([])
    ensures Flatten(BeforeSentinel(stream)) != [] && status == 200 && response.channels.Some? ==>
      r.Ok? && ResultsFor(Kept(response.channels.value), sessionId, timestamp, r.value)
  {
    var audioData, chunkCount := BufferAudio(stream);
    if |audioData| == 0 {
      return Ok([]);
    }
    if status != 200 {
      return Err("Deepgram API error: " + NatToString(status));
    }
    if response.channels.None? {
      return Ok([]);
    }
    var results := MapChannels(response.channels.value, sessionId, timestamp);
    return Ok(results);
  }

  /** Every result comes from a channel's first alternative and has a non-empty text. */
  lemma ResultsFromChannels(channels: seq<Channel>, sessionId: string, timestamp: string, results: seq<TranscriptResult>, k: nat)
    requires ResultsFor(Kept(channels), sessionId, timestamp, results) && k < |results|
    ensures results[k].isFinal && results[k].provider == Deepgram && results[k].text != ""
    ensures exists i :: 0 <= i < |channels| && channels[i].alternatives.Some? && channels[i].alternatives.value != []
                     && results[k].text == TranscriptOf(channels[i].alternatives.value[0])
  {
    var alts := MapSeq(FirstAlternative, channels);
    SomesFrom(alts, k);
    var i :| 0 <= i < |alts| && alts[i] == Some(Kept(channels)[k]);
    assert FirstAlternative(channels[i]) == Some(Kept(channels)[k]);
    assert ResultFor(Kept(channels)[k], sessionId, timestamp, results[k]);
  }

  // ---------------------------------------------------------------------------
  // Full transcript

  /** A stored segment; `timestamp`, `text` and `provider` are "" when missing. */
  datatype Segment = Segment(isFinal: bool, timestamp: string, text: string, provider: string)

  predicate IsFinal(s: Segment)
  {
    s.isFinal
  }

  /** `f"[{timestamp}] [{provider}] {text}"`. */
  function EntryOf(s: Segment): string
  {
    "[" + s.timestamp + "] [" + s.provider + "] " + s.text
  }

  /** One entry per final segment, in order. */
  function Entries(segments: seq<Segment>): (r: seq<string>)
    ensures |r| == |Filter(segments, IsFinal)|
  {
    MapSeq(EntryOf, Filter(segments, IsFinal))
  }

  /** `generate_full_transcript`. */
  method GenerateFullTranscript(segments: seq<Segment>) returns (r: string)
    ensures r == Join(Entries(segments), "\n\n")
  {
    var transcriptLines := [];
    for i := 0 to |segments|
      invariant transcriptLines == Entries(segments[..i])
    {
      FilterSnoc(segments, IsFinal, i);
      MapSeqAppend(EntryOf, Filter(segments[..i], IsFinal), if IsFinal(segments[i]) then [segments[i]] else []);
      var segment := segments[i];
      if !segment.isFinal {
        continue;
      }
      MapSeqOne(EntryOf, segment, EntryOf(segment));
      transcriptLines := transcriptLines + ["[" + segment.timestamp + "] [" + segment.provider + "] " + segment.text];
    }
    assert segments[..|segments|] == segments;
    r := Join(transcriptLines, "\n\n");
  }

  /** The lines of paragraphs separated by blank lines: the paragraphs with "" between them. */
  function Spaced(parts: seq<string>): (r: seq<string>)
    ensures parts != [] ==> r != []
  {
    if |parts| <= 1 then parts else [parts[0], ""] + Spaced(parts[1..])
  }

  lemma {:induction false} JoinSpaced(parts: seq<string>)
    ensures Join(parts, "\n\n") == Join(Spaced(parts), "\n")
    decreases |parts|
  {
    if |parts| > 1 {
      JoinSpaced(parts[1..]);
      var rest := Spaced(parts[1..]);
      assert Spaced(parts) == [parts[0]] + ([""] + rest);
      assert Join([""] + rest, "\n") == "" + "\n" + Join(rest, "\n");
      assert "\n\n" == "\n" + "" + "\n";
    }
  }

  lemma {:induction false} SpacedLines(parts: seq<string>)
    ensures forall i :: 0 <= i < |Spaced(parts)| ==> Spaced(parts)[i] == "" || Spaced(parts)[i] in parts
    decreases |parts|
  {
    if |parts| > 1 {
      SpacedLines(parts[1..]);
      assert forall p :: p in parts[1..] ==> p in parts;
    }
  }

  predicate NonEmpty(s: string)
  {
    s != ""
  }

  lemma FilterParagraph(p: string)
    requires p != ""
    ensures Filter([p, ""], NonEmpty) == [p]
  {
    assert [p, ""][..1] == [p];
    assert Filter([p], NonEmpty) == [p] by {
      assert [p][..0] == [];
    }
  }

  lemma {:induction false} SpacedParagraphs(parts: seq<string>)
    requires forall i :: 0 <= i < |parts| ==> parts[i] != ""
    ensures Filter(Spaced(parts), NonEmpty) == parts
    decreases |parts|
  {
    if |parts| <= 1 {
      FilterAll(parts, NonEmpty);
    } else {
      SpacedParagraphs(parts[1..]);
      FilterAppend([parts[0], ""], Spaced(parts[1..]), NonEmpty);
      FilterParagraph(parts[0]);
      assert parts == [parts[0]] + parts[1..];
    }
  }

  /** A segment whose fields hold no line break. */
  predicate SingleLine(s: Segment)
  {
    '\n' !in s.timestamp && '\n' !in s.provider && '\n' !in s.text
  }

  /**
    Without line breaks inside the segments, the lines of the full transcript
    that are not blank are exactly the entries: one paragraph per final segment.
   */
  lemma FullTranscriptParagraphs(segments: seq<Segment>)
    requires forall i :: 0 <= i < |segments| ==> SingleLine(segments[i])
    ensures Filter(Split(Join(Entries(segments), "\n\n"), '\n'), NonEmpty) == Entries(segments)
    ensures |Entries(segments)| == |Filter(segments, IsFinal)|
  {
    var es := Entries(segments);
    var finals := Filter(segments, IsFinal);
    forall k | 0 <= k < |es|
      ensures es[k] != "" && '\n' !in es[k]
    {
      FilterSound(segments, IsFinal, k);
      assert es[k] == EntryOf(finals[k]);
    }
    JoinSpaced(es);
    SpacedParagraphs(es);
    if es == [] {
      assert Split("", '\n') == [""];
      FilterSnoc([""], NonEmpty, 0);
      assert [""][..1] == [""];
    } else {
      SpacedLines(es);
      SplitJoin(Spaced(es), '\n');
    }
  }
}
