/**
 * The server side of the pipeline: one relay session per client connection.
 * On connection it opens exactly one upstream live-transcription stream; the
 * `isDeepgramOpen` flag follows the upstream `Open`, `Close` and `Error`
 * events; audio frames are forwarded upstream only while the flag is set
 * (frames arriving earlier are dropped, never queued); transcripts coming
 * back are relayed to the client when their text is not blank; and on client
 * disconnect the upstream stream is finished if, and only if, it is open.
 *
 * `Step` is the specification of one event; the class `RelaySession` holds
 * the flag and logs as fields and updates them handler by handler, each
 * handler proved to match `Step`.  The lemmas about `Run` (a whole sequence
 * of events) state what holds over any trace.
 */
module Relay {
  import opened Optional
  import opened JsString
  import CS = ClientSocket

  /** The options the upstream stream is opened with. */
  datatype LiveOptions = LiveOptions(model: string, punctuate: bool)

  const UpstreamOptions: LiveOptions := LiveOptions("nova-2-general", true)

  /** An upstream transcript payload; each part may be missing from a malformed one. */
  datatype Alternative = Alternative(transcript: Option<string>)
  datatype Channel = Channel(alternatives: Option<seq<Alternative>>)
  datatype TranscriptResponse = TranscriptResponse(channel: Option<Channel>)

  /**
   * Reading `response.channel.alternatives[0]?.transcript`: a missing channel
   * or alternatives list throws (`ParseError`); an empty list or a missing
   * text yields nothing (`NoText`).
   */
  datatype Extraction = ParseError | NoText | Text(text: string)

  function ExtractTranscript(r: TranscriptResponse): (x: Extraction)
    ensures x.ParseError? <==> r.channel.None? || r.channel.value.alternatives.None?
    ensures x.Text? <==> && r.channel.Some? && r.channel.value.alternatives.Some?
                         && |r.channel.value.alternatives.value| > 0
                         && r.channel.value.alternatives.value[0].transcript.Some?
    ensures x.Text? ==> Some(x.text) == r.channel.value.alternatives.value[0].transcript
  {
    match r.channel
    case None => ParseError
    case Some(ch) =>
      match ch.alternatives
      case None => ParseError
      case Some(alts) =>
        if |alts| == 0 then NoText
        else match alts[0].transcript
          case None => NoText
          case Some(t) => Text(t)
  }

  /** The line relayed to the client for a payload: its text, untrimmed, when it is non-empty and not blank. */
  function LineToRelay(r: TranscriptResponse): Option<string> {
    match ExtractTranscript(r)
    case Text(t) => if t != "" && Trim(t) != "" then Some(t) else None
    case _ => None
  }

  /** A payload is relayed exactly when its first alternative's text has a non-whitespace character; the text is sent as received. */
  lemma RelayedIff(r: TranscriptResponse, t: string)
    ensures LineToRelay(r) == Some(t) <==> ExtractTranscript(r) == Text(t) && !AllWhitespace(t)
  {
    TrimEmptyIff(t);
  }

  /** Events the client receives from the relay. */
  datatype ServerEmit = DeepgramReady | DeepgramError(detail: string) | TranscriptLine(text: string)

  /** Inputs: the upstream stream's events and the client's messages. */
  datatype Event =
    | UpstreamOpen
    | UpstreamClose
    | UpstreamError(detail: string)
    | UpstreamTranscript(response: TranscriptResponse)
    | AudioChunk(blob: CS.Blob)
    | ResetRecording
    | ClientDisconnect

  /**
   * One connection's state.  `upstreamStreams` counts the upstream streams
   * opened, `forwarded` is every frame sent upstream in order, `emitted` is
   * every event delivered to the client in order, `finishCalls` counts
   * calls of the upstream stream's `finish()`.
   */
  datatype Session = Session(
    connected: bool,
    deepgramOpen: bool,
    upstreamStreams: nat,
    forwarded: seq<CS.Blob>,
    emitted: seq<ServerEmit>,
    finishCalls: nat)

  /** A new connection: one upstream stream opening, not yet open, nothing sent. */
  function Connection(): (s: Session)
    ensures s.connected && !s.deepgramOpen && s.upstreamStreams == 1
    ensures s.forwarded == [] && s.emitted == [] && s.finishCalls == 0
  {
    Session(true, false, 1, [], [], 0)
  }

  /** An emit reaches the client only while it is connected. */
  function Emit(s: Session, m: ServerEmit): seq<ServerEmit> {
    if s.connected then s.emitted + [m] else s.emitted
  }

  /** The effect of one event.  Client messages stop arriving once the client has disconnected. */
  function Step(s: Session, e: Event): Session {
    match e
    case UpstreamOpen => s.(deepgramOpen := true, emitted := Emit(s, DeepgramReady))
    case UpstreamClose => s.(deepgramOpen := false)
    case UpstreamError(d) => s.(deepgramOpen := false, emitted := Emit(s, DeepgramError(d)))
    case UpstreamTranscript(r) =>
      (match LineToRelay(r)
       case Some(t) => s.(emitted := Emit(s, TranscriptLine(t)))
       case None => s)
    case AudioChunk(b) =>
      if s.connected && s.deepgramOpen then s.(forwarded := s.forwarded + [b]) else s
    case ResetRecording => s
    case ClientDisconnect =>
      if !s.connected then s
      else s.(connected := false, finishCalls := if s.deepgramOpen then s.finishCalls + 1 else s.finishCalls)
  }

  function Run(s: Session, events: seq<Event>): Session
    decreases |events|
  {
    if events == [] then s else Run(Step(s, events[0]), events[1..])
  }

  /** The frames of the audio-chunk events, in order. */
  function Chunks(events: seq<Event>): seq<CS.Blob> {
    if events == [] then []
    else (if events[0].AudioChunk? then [events[0].blob] else []) + Chunks(events[1..])
  }

  /** The upstream events that deliver these payloads, in order. */
  function TranscriptEvents(rs: seq<TranscriptResponse>): (events: seq<Event>)
    ensures |events| == |rs|
  {
    if rs == [] then [] else [UpstreamTranscript(rs[0])] + TranscriptEvents(rs[1..])
  }

  /** The lines the relay filter lets through for these payloads, in order. */
  function RelayedLines(rs: seq<TranscriptResponse>): seq<ServerEmit> {
    if rs == [] then []
    else
      (if LineToRelay(rs[0]).Some? then [TranscriptLine(LineToRelay(rs[0]).value)] else [])
      + RelayedLines(rs[1..])
  }

  /** `a` is `b` with some elements left out. */
  ghost predicate IsSubsequence<T>(a: seq<T>, b: seq<T>)
    decreases |b|
  {
    || a == []
    || (b != [] && ((a[0] == b[0] && IsSubsequence(a[1..], b[1..])) || IsSubsequence(a, b[1..])))
  }

  /** A transcript event changes only what the client has received. */
  lemma StepTranscript(s: Session, r: TranscriptResponse)
    requires s.connected
    ensures Step(s, UpstreamTranscript(r))
            == s.(emitted := s.emitted + if LineToRelay(r).Some? then [TranscriptLine(LineToRelay(r).value)] else [])
  {
  }

  /** What one event does to each part of the session. */
  lemma StepFacts(s: Session, e: Event)
    ensures Step(s, e).upstreamStreams == s.upstreamStreams
    ensures Step(s, e).forwarded
            == s.forwarded + (if e.AudioChunk? && s.connected && s.deepgramOpen then [e.blob] else [])
    ensures Step(s, e).deepgramOpen
            == if e.UpstreamOpen? then true else if e.UpstreamClose? || e.UpstreamError? then false else s.deepgramOpen
    ensures !e.ClientDisconnect? ==> Step(s, e).connected == s.connected && Step(s, e).finishCalls == s.finishCalls
    ensures e.ClientDisconnect? ==> !Step(s, e).connected
    ensures e.ClientDisconnect? ==> Step(s, e).finishCalls
                                    == if s.connected && s.deepgramOpen then s.finishCalls + 1 else s.finishCalls
    ensures e.UpstreamTranscript? ==>
              Step(s, e).emitted == s.emitted + (if s.connected && LineToRelay(e.response).Some?
                                                 then [TranscriptLine(LineToRelay(e.response).value)] else [])
  {
  }

  lemma {:induction false} RunConcat(s: Session, pre: seq<Event>, post: seq<Event>)
    ensures Run(s, pre + post) == Run(Run(s, pre), post)
    decreases |pre|
  {
    if pre == [] {
      assert pre + post == post;
    } else {
      assert (pre + post)[0] == pre[0] && (pre + post)[1..] == pre[1..] + post;
      RunConcat(Step(s, pre[0]), pre[1..], post);
    }
  }

  /** The upstream stream is opened once per connection and never again, whatever happens. */
  lemma {:induction false} OneUpstreamStream(s: Session, events: seq<Event>)
    ensures Run(s, events).upstreamStreams == s.upstreamStreams
    ensures Run(Connection(), events).upstreamStreams == 1
    decreases |events|
  {
    if events != [] {
      StepFacts(s, events[0]);
      OneUpstreamStream(Step(s, events[0]), events[1..]);
      StepFacts(Connection(), events[0]);
      OneUpstreamStream(Step(Connection(), events[0]), events[1..]);
    }
  }

  /** `finish()` is never called while the client is still connected, and at most once per connection. */
  lemma {:induction false} FinishAtMostOnce(s: Session, events: seq<Event>)
    requires s.connected ==> s.finishCalls == 0
    requires s.finishCalls <= 1
    ensures Run(s, events).connected ==> Run(s, events).finishCalls == 0
    ensures Run(s, events).finishCalls <= 1
    decreases |events|
  {
    if events != [] {
      StepFacts(s, events[0]);
      FinishAtMostOnce(Step(s, events[0]), events[1..]);
    }
  }

  /** After the connection's disconnect, `finish()` has been called once if upstream was open then, and never otherwise. */
  lemma FinishIffOpenAtDisconnect(pre: seq<Event>, post: seq<Event>)
    requires ClientDisconnect !in pre
    ensures Run(Connection(), pre + [ClientDisconnect] + post).finishCalls
            == if Run(Connection(), pre).deepgramOpen then 1 else 0
  {
    var s := Run(Connection(), pre);
    StaysConnected(Connection(), pre);
    FinishAtMostOnce(Connection(), pre);
    RunConcat(Connection(), pre, [ClientDisconnect]);
    RunConcat(Connection(), pre + [ClientDisconnect], post);
    NoFinishAfterDisconnect(Step(s, ClientDisconnect), post);
  }

  /** Only a client disconnect ends the connection; upstream errors and bad payloads do not. */
  lemma {:induction false} StaysConnected(s: Session, events: seq<Event>)
    requires ClientDisconnect !in events
    ensures Run(s, events).connected == s.connected
    decreases |events|
  {
    if events != [] {
      StepFacts(s, events[0]);
      StepFacts(s, events[0]);
      assert events[0] != ClientDisconnect;
      StaysConnected(Step(s, events[0]), events[1..]);
    }
  }

  lemma {:induction false} NoFinishAfterDisconnect(s: Session, events: seq<Event>)
    requires !s.connected
    ensures Run(s, events).finishCalls == s.finishCalls && !Run(s, events).connected
    decreases |events|
  {
    if events != [] {
      NoFinishAfterDisconnect(Step(s, events[0]), events[1..]);
    }
  }

  /** Frames that arrive while upstream is not open are dropped: until an `Open`, nothing is forwarded. */
  lemma {:induction false} DroppedBeforeOpen(s: Session, events: seq<Event>)
    requires !s.deepgramOpen
    requires UpstreamOpen !in events
    ensures Run(s, events).forwarded == s.forwarded
    ensures !Run(s, events).deepgramOpen
    decreases |events|
  {
    if events != [] {
      StepFacts(s, events[0]);
      assert events[0] != UpstreamOpen;
      DroppedBeforeOpen(Step(s, events[0]), events[1..]);
    }
  }

  /** No event that can close the upstream stream or the connection. */
  predicate KeepsOpen(e: Event) {
    !e.UpstreamClose? && !e.UpstreamError? && !e.ClientDisconnect?
  }

  /** Once upstream is open, every frame is forwarded unmodified and in arrival order until something closes it. */
  lemma {:induction false} ForwardedAfterOpen(s: Session, events: seq<Event>)
    requires s.connected && s.deepgramOpen
    requires forall k :: 0 <= k < |events| ==> KeepsOpen(events[k])
    ensures Run(s, events).forwarded == s.forwarded + Chunks(events)
    ensures Run(s, events).connected && Run(s, events).deepgramOpen
    decreases |events|
  {
    if events != [] {
      StepFacts(s, events[0]);
      assert KeepsOpen(events[0]);
      ForwardedAfterOpen(Step(s, events[0]), events[1..]);
      assert Chunks(events) == (if events[0].AudioChunk? then [events[0].blob] else []) + Chunks(events[1..]);
    }
  }

  /** The frames a run forwards upstream, in order. */
  function ForwardedDuring(s: Session, events: seq<Event>): seq<CS.Blob>
    decreases |events|
  {
    if events == [] then []
    else
      (if events[0].AudioChunk? && s.connected && s.deepgramOpen then [events[0].blob] else [])
      + ForwardedDuring(Step(s, events[0]), events[1..])
  }

  lemma {:induction false} RunForwards(s: Session, events: seq<Event>)
    ensures Run(s, events).forwarded == s.forwarded + ForwardedDuring(s, events)
    decreases |events|
  {
    if events != [] {
      StepFacts(s, events[0]);
      RunForwards(Step(s, events[0]), events[1..]);
    }
  }

  lemma {:induction false} ForwardedDuringIsSubsequence(s: Session, events: seq<Event>)
    ensures IsSubsequence(ForwardedDuring(s, events), Chunks(events))
    decreases |events|
  {
    if events != [] {
      var e := events[0];
      var tail := ForwardedDuring(Step(s, e), events[1..]);
      ForwardedDuringIsSubsequence(Step(s, e), events[1..]);
      var head := if e.AudioChunk? then [e.blob] else [];
      assert Chunks(events) == head + Chunks(events[1..]);
      if e.AudioChunk? && s.connected && s.deepgramOpen {
        assert ForwardedDuring(s, events) == [e.blob] + tail;
        assert ([e.blob] + tail)[1..] == tail;
        assert (head + Chunks(events[1..]))[1..] == Chunks(events[1..]);
      } else {
        assert ForwardedDuring(s, events) == tail;
        SubsequenceOfLonger(tail, Chunks(events[1..]), head);
      }
    }
  }

  /** Whatever happens, what is forwarded is some of the frames received, in the order received, never reordered or invented. */
  lemma ForwardedIsSubsequence(s: Session, events: seq<Event>)
    ensures |Run(s, events).forwarded| >= |s.forwarded|
    ensures Run(s, events).forwarded[..|s.forwarded|] == s.forwarded
    ensures IsSubsequence(Run(s, events).forwarded[|s.forwarded|..], Chunks(events))
  {
    RunForwards(s, events);
    ForwardedDuringIsSubsequence(s, events);
    var f := Run(s, events).forwarded;
    assert f[|s.forwarded|..] == ForwardedDuring(s, events);
  }

  /** Elements put in front of a sequence do not spoil a subsequence of it. */
  lemma {:induction false} SubsequenceOfLonger<T>(a: seq<T>, b: seq<T>, p: seq<T>)
    requires IsSubsequence(a, b)
    ensures IsSubsequence(a, p + b)
    decreases |p|
  {
    if p == [] {
      assert p + b == b;
    } else {
      SubsequenceOfLonger(a, b, p[1..]);
      assert (p + b)[1..] == p[1..] + b;
    }
  }

  /** While connected, the client receives exactly the non-blank transcript texts, in the order upstream produced them, and nothing else changes. */
  lemma {:induction false} TranscriptsRelayedInOrder(s: Session, rs: seq<TranscriptResponse>)
    requires s.connected
    ensures Run(s, TranscriptEvents(rs)) == s.(emitted := s.emitted + RelayedLines(rs))
    decreases |rs|
  {
    if rs != [] {
      var events := TranscriptEvents(rs);
      assert events[0] == UpstreamTranscript(rs[0]) && events[1..] == TranscriptEvents(rs[1..]);
      StepTranscript(s, rs[0]);
      TranscriptsRelayedInOrder(Step(s, events[0]), rs[1..]);
    }
  }

  /** A malformed payload emits nothing and leaves the session exactly as it was, so the next payload is relayed normally. */
  lemma MalformedPayloadIgnored(s: Session, bad: TranscriptResponse, good: TranscriptResponse, t: string)
    requires ExtractTranscript(bad).ParseError?
    requires s.connected && ExtractTranscript(good) == Text(t) && !AllWhitespace(t)
    ensures Step(s, UpstreamTranscript(bad)) == s
    ensures Run(s, [UpstreamTranscript(bad), UpstreamTranscript(good)]).emitted == s.emitted + [TranscriptLine(t)]
  {
    RelayedIff(good, t);
    var s1 := Step(s, UpstreamTranscript(bad));
    assert s1 == s;
    var evs := [UpstreamTranscript(bad), UpstreamTranscript(good)];
    assert evs[0] == UpstreamTranscript(bad) && evs[1..] == [UpstreamTranscript(good)];
    assert evs[1..][0] == UpstreamTranscript(good) && evs[1..][1..] == [];
    assert Run(s, evs) == Run(s1, [UpstreamTranscript(good)]);
    assert Run(s1, [UpstreamTranscript(good)]) == Step(s1, UpstreamTranscript(good));
  }

  /** A transcript response whose first alternative carries `t`. */
  function Said(t: string): TranscriptResponse {
    TranscriptResponse(Some(Channel(Some([Alternative(Some(t))]))))
  }

  /** Upstream says "hello", "" and "world": the client receives the ready signal and the two non-empty lines. */
  lemma HelloEmptyWorld()
    ensures Run(Connection(), [UpstreamOpen, UpstreamTranscript(Said("hello")), UpstreamTranscript(Said("")),
                               UpstreamTranscript(Said("world"))]).emitted
            == [DeepgramReady, TranscriptLine("hello"), TranscriptLine("world")]
  {
    var rs := [Said("hello"), Said(""), Said("world")];
    var open := Step(Connection(), UpstreamOpen);
    assert open.connected && open.emitted == [DeepgramReady];
    assert "hello"[0] == 'h' && !IsWhitespace('h');
    assert "world"[0] == 'w' && !IsWhitespace('w');
    RelayedIff(Said("hello"), "hello");
    RelayedIff(Said("world"), "world");
    assert LineToRelay(Said("")) == None;
    assert RelayedLines(rs[2..]) == [TranscriptLine("world")];
    assert RelayedLines(rs[1..]) == [TranscriptLine("world")];
    assert RelayedLines(rs) == [TranscriptLine("hello"), TranscriptLine("world")];
    var said := TranscriptEvents(rs);
    assert said == [UpstreamTranscript(Said("hello")), UpstreamTranscript(Said("")), UpstreamTranscript(Said("world"))] by {
      assert rs[1..][1..] == [Said("world")] && rs[1..][1..][1..] == [];
    }
    TranscriptsRelayedInOrder(open, rs);
    assert [UpstreamOpen] + said == [UpstreamOpen, UpstreamTranscript(Said("hello")), UpstreamTranscript(Said("")),
                                     UpstreamTranscript(Said("world"))];
    RunConcat(Connection(), [UpstreamOpen], said);
    assert Run(Connection(), [UpstreamOpen]) == open;
  }

  /** The per-connection handler closure: the flag and the upstream and client logs as fields. */
  class RelaySession {
    var connected: bool
    var isDeepgramOpen: bool
    const liveOptions: LiveOptions
    var upstreamStreams: nat
    var forwarded: seq<CS.Blob>
    var emitted: seq<ServerEmit>
    var finishCalls: nat

    function Snapshot(): Session
      reads this
    {
      Session(connected, isDeepgramOpen, upstreamStreams, forwarded, emitted, finishCalls)
    }

    /** `io.on("connection")`: open the one upstream stream with the fixed options. */
    constructor ()
      ensures Snapshot() == Connection() && liveOptions == UpstreamOptions
    {
      connected := true;
      liveOptions := UpstreamOptions;
      upstreamStreams := 1;
      isDeepgramOpen := false;
      forwarded := [];
      emitted := [];
      finishCalls := 0;
    }

    method Emit(m: ServerEmit)
      modifies this
      ensures emitted == (if connected then old(emitted) + [m] else old(emitted))
      ensures connected == old(connected) && isDeepgramOpen == old(isDeepgramOpen)
      ensures upstreamStreams == old(upstreamStreams) && forwarded == old(forwarded) && finishCalls == old(finishCalls)
    {
      if connected {
        emitted := emitted + [m];
      }
    }

    method OnOpen()
      modifies this
      ensures Snapshot() == Step(old(Snapshot()), UpstreamOpen)
    {
      isDeepgramOpen := true;
      Emit(DeepgramReady);
    }

    method OnClose()
      modifies this
      ensures Snapshot() == Step(old(Snapshot()), UpstreamClose)
    {
      isDeepgramOpen := false;
    }

    method OnError(detail: string)
      modifies this
      ensures Snapshot() == Step(old(Snapshot()), UpstreamError(detail))
    {
      isDeepgramOpen := false;
      Emit(DeepgramError(detail));
    }

    method OnTranscript(response: TranscriptResponse)
      modifies this
      ensures Snapshot() == Step(old(Snapshot()), UpstreamTranscript(response))
    {
      var x := ExtractTranscript(response);
      if x.Text? && x.text != "" && Trim(x.text) != "" {
        Emit(TranscriptLine(x.text));
      }
    }

    method OnAudioChunk(blob: CS.Blob)
      modifies this
      ensures Snapshot() == Step(old(Snapshot()), AudioChunk(blob))
    {
      if !connected || !isDeepgramOpen {
        return;
      }
      forwarded := forwarded + [blob];
    }

    method OnResetRecording()
      ensures Snapshot() == Step(Snapshot(), ResetRecording)
    {
    }

    method OnDisconnect()
      modifies this
      ensures Snapshot() == Step(old(Snapshot()), ClientDisconnect)
    {
      if !connected {
        return;
      }
      connected := false;
      if isDeepgramOpen {
        finishCalls := finishCalls + 1;
      }
    }
  }
}
