/**
 * The capture controller: the recording hook that owns the media stream, the
 * platform recorder and the buffered audio chunks, and drives the store's
 * status through idle -> recording <-> paused -> processing -> idle.
 *
 * The platform objects are abstract.  A capture request's answer and how
 * creating and starting the recorder goes are parameters of `StartRecording`;
 * the recorder is a value with a state (inactive, recording, paused); the
 * recorder's "data available", "error" and "stop" callbacks, the platform
 * stopping the recorder by itself, and the 500 ms timer are methods the
 * environment calls.  `pendingStopEvents` counts stop events still to come from a
 * recorder whose `onstop` handler is attached, `pendingTimers` counts
 * scheduled timers, and `stoppedTracks` logs every track the hook stopped.
 */
module AudioRecorder {
  import opened Optional
  import opened Recording
  import CS = ClientSocket

  datatype TrackKind = AudioTrack | VideoTrack
  datatype Track = Track(id: nat, kind: TrackKind)

  /** The platform's answer to a capture request: the stream's tracks, or the reason it failed. */
  datatype Capture = Granted(tracks: seq<Track>) | Refused(message: string)

  /** How creating and starting the recorder goes: the constructor can throw, and so can `start`. */
  datatype RecorderSetup = RecorderStarts | ConstructorThrows(message: string) | StartThrows(message: string)

  datatype RecorderState = RecInactive | RecRecording | RecPaused
  /** A recorder: its state and the timeslice it was started with (0 when it never started). */
  datatype MediaRecorder = MediaRecorder(state: RecorderState, timesliceMs: nat)

  /** The recorder delivers a chunk every second. */
  const TimesliceMs: nat := 1000

  /** The text exactly as the hook's source file holds it, including its garbled dash. */
  const NotReadyMessage: string := "Still connecting \U{00E2}\U{20AC}\U{201D} please wait until connection is ready."
  const RecordingErrorMessage: string := "Recording error occurred"
  const StartFailurePrefix: string := "Failed to start recording: "

  /** The hook's four readiness callbacks, as registered on the socket. */
  const OnConnectHandler: CS.Listener := CS.Handler(0)
  const OnDisconnectHandler: CS.Listener := CS.Handler(1)
  const OnConnectErrorHandler: CS.Listener := CS.Handler(2)
  const OnDeepgramReadyHandler: CS.Listener := CS.Handler(3)

  /** A listener table after the hook registered its four readiness callbacks. */
  function WithReadinessHandlers(t: map<CS.EventName, seq<CS.Listener>>): map<CS.EventName, seq<CS.Listener>> {
    var t1 := CS.Registered(t, CS.ConnectEvent, OnConnectHandler);
    var t2 := CS.Registered(t1, CS.DisconnectEvent, OnDisconnectHandler);
    var t3 := CS.Registered(t2, CS.ConnectErrorEvent, OnConnectErrorHandler);
    CS.Registered(t3, CS.DeepgramReadyEvent, OnDeepgramReadyHandler)
  }

  /** The tracks a stream keeps once its video tracks are removed. */
  function AudioOnly(tracks: seq<Track>): seq<Track> {
    if tracks == [] then []
    else (if tracks[0].kind == VideoTrack then [] else [tracks[0]]) + AudioOnly(tracks[1..])
  }

  /** `getVideoTracks()`: the stream's video tracks, in order. */
  function VideoOnly(tracks: seq<Track>): seq<Track> {
    if tracks == [] then []
    else (if tracks[0].kind == VideoTrack then [tracks[0]] else []) + VideoOnly(tracks[1..])
  }

  /**
   * After the video tracks are removed the stream holds only audio tracks,
   * it still holds every audio track, and together with the removed ones
   * they are exactly the original tracks.
   */
  lemma {:induction false} AudioOnlySpec(tracks: seq<Track>)
    ensures forall t :: t in AudioOnly(tracks) ==> t.kind == AudioTrack
    ensures forall t :: t in VideoOnly(tracks) ==> t.kind == VideoTrack
    ensures forall t :: t in tracks && t.kind == AudioTrack ==> t in AudioOnly(tracks)
    ensures multiset(AudioOnly(tracks)) + multiset(VideoOnly(tracks)) == multiset(tracks)
  {
    if tracks != [] {
      AudioOnlySpec(tracks[1..]);
      assert tracks == [tracks[0]] + tracks[1..];
    }
  }

  /** One step of the video removal: the track at `i` goes to exactly one side. */
  lemma SplitAt(tracks: seq<Track>, i: nat)
    requires i < |tracks|
    ensures AudioOnly(tracks[i..]) == (if tracks[i].kind == VideoTrack then [] else [tracks[i]]) + AudioOnly(tracks[i + 1..])
    ensures VideoOnly(tracks[i..]) == (if tracks[i].kind == VideoTrack then [tracks[i]] else []) + VideoOnly(tracks[i + 1..])
  {
    assert tracks[i..][0] == tracks[i] && tracks[i..][1..] == tracks[i + 1..];
  }

  /** Tab capture: stops and removes each video track, keeping the audio tracks in order. */
  method DiscardVideoTracks(tracks: seq<Track>) returns (kept: seq<Track>, stopped: seq<Track>)
    ensures kept == AudioOnly(tracks) && stopped == VideoOnly(tracks)
  {
    kept, stopped := [], [];
    var i := 0;
    assert tracks[0..] == tracks;
    while i < |tracks|
      invariant 0 <= i <= |tracks|
      invariant AudioOnly(tracks) == kept + AudioOnly(tracks[i..])
      invariant VideoOnly(tracks) == stopped + VideoOnly(tracks[i..])
    {
      SplitAt(tracks, i);
      if tracks[i].kind == VideoTrack {
        stopped := stopped + [tracks[i]];
      } else {
        kept := kept + [tracks[i]];
      }
      i := i + 1;
    }
    assert tracks[i..] == [];
  }

  /** The chunks the hook keeps and sends: the non-empty ones, in arrival order. */
  function NonEmptyChunks(blobs: seq<CS.Blob>): seq<CS.Blob> {
    if blobs == [] then []
    else (if |blobs[0]| > 0 then [blobs[0]] else []) + NonEmptyChunks(blobs[1..])
  }

  /** Handling chunks one at a time buffers the same as filtering them all at once, in the same order. */
  lemma {:induction false} NonEmptyChunksAppend(a: seq<CS.Blob>, b: seq<CS.Blob>)
    ensures NonEmptyChunks(a + b) == NonEmptyChunks(a) + NonEmptyChunks(b)
    decreases |a|
  {
    if a == [] {
      assert a + b == b;
    } else {
      assert (a + b)[0] == a[0] && (a + b)[1..] == a[1..] + b;
      NonEmptyChunksAppend(a[1..], b);
    }
  }

  /** No empty chunk is buffered. */
  lemma {:induction false} NonEmptyChunksAreNonEmpty(blobs: seq<CS.Blob>)
    ensures forall b :: b in NonEmptyChunks(blobs) ==> |b| > 0
  {
    if blobs != [] {
      NonEmptyChunksAreNonEmpty(blobs[1..]);
    }
  }

  /** No non-empty chunk is lost. */
  lemma {:induction false} NonEmptyChunksKeepAll(blobs: seq<CS.Blob>)
    ensures forall b :: b in blobs && |b| > 0 ==> b in NonEmptyChunks(blobs)
  {
    if blobs != [] {
      NonEmptyChunksKeepAll(blobs[1..]);
      forall b | b in blobs && |b| > 0
        ensures b in NonEmptyChunks(blobs)
      {
        if b != blobs[0] {
          assert b in blobs[1..];
        }
      }
    }
  }

  /** No empty chunk is buffered, and no non-empty one is lost. */
  lemma {:induction false} NonEmptyChunksSpec(blobs: seq<CS.Blob>)
    ensures forall b :: b in NonEmptyChunks(blobs) ==> |b| > 0
    ensures forall b :: b in blobs && |b| > 0 ==> b in NonEmptyChunks(blobs)
    ensures |NonEmptyChunks(blobs)| <= |blobs|
  {
    NonEmptyChunksAreNonEmpty(blobs);
    NonEmptyChunksKeepAll(blobs);
    if blobs != [] {
      NonEmptyChunksSpec(blobs[1..]);
    }
  }

  /** A recorder after `stop()`: an active one becomes inactive, any other is left alone. */
  function Stopped(r: Option<MediaRecorder>): Option<MediaRecorder> {
    if r.Some? && r.value.state != RecInactive then Some(r.value.(state := RecInactive)) else r
  }

  predicate IsActive(r: Option<MediaRecorder>) {
    r.Some? && r.value.state != RecInactive
  }

  /** The tracks a held stream releases. */
  function Tracks(s: Option<seq<Track>>): seq<Track> {
    if s.Some? then s.value else []
  }

  /** The stream a successful capture leaves held: tab capture drops its video tracks. */
  function HeldStream(mode: AudioMode, tracks: seq<Track>): seq<Track> {
    if mode == Tab then AudioOnly(tracks) else tracks
  }

  /** `on` for the hook's four readiness callbacks, in the hook's order. */
  method RegisterReadinessHandlers(s: CS.Socket)
    modifies s
    ensures s.listeners == WithReadinessHandlers(old(s.listeners))
    ensures s.connected == old(s.connected) && s.active == old(s.active) && s.sent == old(s.sent)
  {
    s.On(CS.ConnectEvent, OnConnectHandler);
    s.On(CS.DisconnectEvent, OnDisconnectHandler);
    s.On(CS.ConnectErrorEvent, OnConnectErrorHandler);
    s.On(CS.DeepgramReadyEvent, OnDeepgramReadyHandler);
  }

  class AudioRecorderHook {
    const store: RecordingStore
    const sockets: CS.SocketModule
    var socketRef: CS.Socket?
    var recorder: Option<MediaRecorder>
    var stream: Option<seq<Track>>
    var chunks: seq<CS.Blob>
    var isResetting: bool
    var isReady: bool
    var isConnecting: bool
    var pendingStopEvents: nat
    var pendingTimers: nat
    var stoppedTracks: seq<Track>

    constructor (store: RecordingStore, sockets: CS.SocketModule)
      ensures this.store == store && this.sockets == sockets
      ensures socketRef == null && recorder == None && stream == None && chunks == []
      ensures !isResetting && !isReady && !isConnecting
      ensures pendingStopEvents == 0 && pendingTimers == 0 && stoppedTracks == []
    {
      this.store := store;
      this.sockets := sockets;
      socketRef := null;
      recorder := None;
      stream := None;
      chunks := [];
      isResetting, isReady, isConnecting := false, false, false;
      pendingStopEvents, pendingTimers := 0, 0;
      stoppedTracks := [];
    }

    /** Stops every track of the held stream, in order, and forgets the stream. */
    method ReleaseStream()
      modifies this
      ensures stream == None && stoppedTracks == old(stoppedTracks) + Tracks(old(stream))
      ensures recorder == old(recorder) && chunks == old(chunks) && socketRef == old(socketRef)
      ensures isResetting == old(isResetting) && isReady == old(isReady) && isConnecting == old(isConnecting)
      ensures pendingStopEvents == old(pendingStopEvents) && pendingTimers == old(pendingTimers)
    {
      if stream.Some? {
        var tracks := stream.value;
        var i := 0;
        while i < |tracks|
          invariant 0 <= i <= |tracks|
          invariant stoppedTracks == old(stoppedTracks) + tracks[..i]
          invariant stream == old(stream) && recorder == old(recorder) && chunks == old(chunks)
          invariant socketRef == old(socketRef) && isResetting == old(isResetting)
          invariant isReady == old(isReady) && isConnecting == old(isConnecting)
          invariant pendingStopEvents == old(pendingStopEvents) && pendingTimers == old(pendingTimers)
        {
          assert tracks[..i + 1] == tracks[..i] + [tracks[i]];
          stoppedTracks := stoppedTracks + [tracks[i]];
          i := i + 1;
        }
        assert tracks[..i] == tracks;
        stream := None;
      }
    }

    /**
     * Mount: with this hook's own socket already connected, only marks
     * ready.  Otherwise takes the shared socket, registers the four readiness
     * callbacks and connects it.  A shared socket that is already connected
     * (another mount connected it) will not raise `connect` again, so it
     * marks ready at once; this is the corrected form of `InitSocketAsWritten`.
     */
    method InitSocket()
      modifies this, sockets, sockets.socket
      ensures socketRef != null && socketRef.connected ==> isReady && !isConnecting
      ensures old(socketRef) != null && old(socketRef.connected) ==>
                && isReady && !isConnecting && socketRef == old(socketRef)
                && unchanged(sockets) && unchanged(socketRef)
                && (sockets.socket != null ==> unchanged(sockets.socket))
      ensures !(old(socketRef) != null && old(socketRef.connected)) ==>
                && socketRef == sockets.socket && socketRef != null
                && (old(sockets.socket) != null ==> socketRef == old(sockets.socket))
                && (old(sockets.socket) == null ==> fresh(socketRef))
                && socketRef.listeners == WithReadinessHandlers(old(sockets.Table()))
                && socketRef.sent == old(if sockets.socket == null then [] else sockets.socket.sent)
                && socketRef.connected == old(sockets.socket != null && sockets.socket.connected)
                && (!socketRef.connected ==> isConnecting && isReady == old(isReady) && socketRef.active)
      ensures recorder == old(recorder) && stream == old(stream) && chunks == old(chunks)
      ensures isResetting == old(isResetting) && stoppedTracks == old(stoppedTracks)
      ensures pendingStopEvents == old(pendingStopEvents) && pendingTimers == old(pendingTimers)
    {
      if socketRef != null && socketRef.connected {
        isReady := true;
        isConnecting := false;
        return;
      }
      isConnecting := true;
      var s := sockets.GetSocket();
      socketRef := s;
      RegisterReadinessHandlers(s);
      if s.connected {
        isReady := true;
        isConnecting := false;
      } else {
        s.Connect();
      }
    }

    /**
     * Mount exactly as the hook's code does it: the second path waits for a
     * `connect` event even when the shared socket is already connected.
     */
    method InitSocketAsWritten()
      modifies this, sockets, sockets.socket
      ensures old(socketRef) != null && old(socketRef.connected) ==>
                && isReady && !isConnecting && socketRef == old(socketRef)
                && unchanged(sockets) && unchanged(socketRef)
                && (sockets.socket != null ==> unchanged(sockets.socket))
      ensures !(old(socketRef) != null && old(socketRef.connected)) ==>
                && isConnecting && isReady == old(isReady)
                && socketRef == sockets.socket && socketRef != null
                && (old(sockets.socket) != null ==> socketRef == old(sockets.socket))
                && (old(sockets.socket) == null ==> fresh(socketRef))
                && socketRef.listeners == WithReadinessHandlers(old(sockets.Table()))
                && socketRef.sent == old(if sockets.socket == null then [] else sockets.socket.sent)
                && socketRef.connected == old(sockets.socket != null && sockets.socket.connected)
                && (socketRef.connected || socketRef.active)
      ensures recorder == old(recorder) && stream == old(stream) && chunks == old(chunks)
      ensures isResetting == old(isResetting) && stoppedTracks == old(stoppedTracks)
      ensures pendingStopEvents == old(pendingStopEvents) && pendingTimers == old(pendingTimers)
    {
      if socketRef != null && socketRef.connected {
        isReady := true;
        isConnecting := false;
        return;
      }
      isConnecting := true;
      var s := sockets.GetSocket();
      socketRef := s;
      RegisterReadinessHandlers(s);
      if !s.connected {
        s.Connect();
      }
    }

    /** The socket connected: treated as ready, without waiting for the upstream stream. */
    method OnConnect()
      modifies this
      ensures isReady && !isConnecting && isResetting == old(isResetting)
      ensures recorder == old(recorder) && stream == old(stream) && chunks == old(chunks)
      ensures socketRef == old(socketRef) && stoppedTracks == old(stoppedTracks)
      ensures pendingStopEvents == old(pendingStopEvents) && pendingTimers == old(pendingTimers)
    {
      isConnecting := false;
      isReady := true;
    }

    method OnDisconnect()
      modifies this
      ensures !isReady && isConnecting == old(isConnecting) && isResetting == old(isResetting)
      ensures recorder == old(recorder) && stream == old(stream) && chunks == old(chunks)
      ensures socketRef == old(socketRef) && stoppedTracks == old(stoppedTracks)
      ensures pendingStopEvents == old(pendingStopEvents) && pendingTimers == old(pendingTimers)
    {
      isReady := false;
    }

    method OnConnectError()
      modifies this
      ensures !isReady && !isConnecting && isResetting == old(isResetting)
      ensures recorder == old(recorder) && stream == old(stream) && chunks == old(chunks)
      ensures socketRef == old(socketRef) && stoppedTracks == old(stoppedTracks)
      ensures pendingStopEvents == old(pendingStopEvents) && pendingTimers == old(pendingTimers)
    {
      isReady := false;
      isConnecting := false;
    }

    /** The server reports its upstream stream open. */
    method OnDeepgramReady()
      modifies this
      ensures isReady && !isConnecting && isResetting == old(isResetting)
      ensures recorder == old(recorder) && stream == old(stream) && chunks == old(chunks)
      ensures socketRef == old(socketRef) && stoppedTracks == old(stoppedTracks)
      ensures pendingStopEvents == old(pendingStopEvents) && pendingTimers == old(pendingTimers)
    {
      isReady := true;
      isConnecting := false;
    }

    /**
     * Start: refused silently while resetting, refused with the
     * "Still connecting" error while not ready; otherwise clears the error,
     * stops any active recorder and held stream, captures a new stream (tab
     * capture drops its video tracks), and starts a recorder with a one-second
     * timeslice.  A refused capture, a recorder that cannot be created and a
     * recorder whose `start` throws all return to idle with the failure's
     * message.  Only a recorder that starts goes on to make sure of the socket.
     */
    method StartRecording(capture: Capture, setup: RecorderSetup)
      modifies this, store, sockets, sockets.socket, socketRef
      ensures old(isResetting) ==>
                && store.Snapshot() == old(store.Snapshot())
                && recorder == old(recorder) && stream == old(stream) && chunks == old(chunks)
      ensures !old(isResetting) && !old(isReady) ==>
                && store.Snapshot() == old(store.Snapshot()).(error := Some(NotReadyMessage))
                && recorder == old(recorder) && stream == old(stream) && chunks == old(chunks)
      ensures old(isResetting) || !old(isReady) ==>
                pendingStopEvents == old(pendingStopEvents) && stoppedTracks == old(stoppedTracks)
      ensures !old(isResetting) && old(isReady) && capture.Refused? ==>
                && store.Snapshot() == old(store.Snapshot()).(status := Idle, error := Some(StartFailurePrefix + capture.message))
                && recorder == Stopped(old(recorder)) && stream == None && chunks == old(chunks)
                && stoppedTracks == old(stoppedTracks) + Tracks(old(stream))
      ensures !old(isResetting) && old(isReady) && capture.Granted? ==>
                && stream == Some(HeldStream(old(store.audioMode), capture.tracks))
                && stoppedTracks == old(stoppedTracks) + Tracks(old(stream))
                                    + (if old(store.audioMode) == Tab then VideoOnly(capture.tracks) else [])
      ensures !old(isResetting) && old(isReady) && capture.Granted? && setup.ConstructorThrows? ==>
                && store.Snapshot() == old(store.Snapshot()).(status := Idle, error := Some(StartFailurePrefix + setup.message))
                && recorder == Stopped(old(recorder)) && chunks == old(chunks)
      ensures !old(isResetting) && old(isReady) && capture.Granted? && setup.StartThrows? ==>
                && store.Snapshot() == old(store.Snapshot()).(status := Idle, error := Some(StartFailurePrefix + setup.message))
                && recorder == Some(MediaRecorder(RecInactive, 0)) && chunks == []
      ensures !old(isResetting) && old(isReady) && capture.Granted? && setup.RecorderStarts? ==>
                && store.Snapshot() == old(store.Snapshot()).(status := Recording, error := None)
                && recorder == Some(MediaRecorder(RecRecording, TimesliceMs)) && chunks == []
      ensures !old(isResetting) && old(isReady) ==>
                pendingStopEvents == old(pendingStopEvents) + (if IsActive(old(recorder)) then 1 else 0)
      // The socket: only a recorder that starts touches it.
      ensures !(!old(isResetting) && old(isReady) && capture.Granted? && setup.RecorderStarts?) ==>
                && socketRef == old(socketRef) && isConnecting == old(isConnecting) && unchanged(sockets)
                && (socketRef != null ==> unchanged(socketRef))
                && (sockets.socket != null ==> unchanged(sockets.socket))
      ensures !old(isResetting) && old(isReady) && capture.Granted? && setup.RecorderStarts? && old(socketRef) != null ==>
                && socketRef == old(socketRef) && isConnecting == old(isConnecting) && sockets.socket == old(sockets.socket)
                && socketRef.listeners == old(socketRef.listeners) && socketRef.sent == old(socketRef.sent)
                && socketRef.connected == old(socketRef.connected) && (socketRef.connected || socketRef.active)
      ensures !old(isResetting) && old(isReady) && capture.Granted? && setup.RecorderStarts? && old(socketRef) == null ==>
                && socketRef == sockets.socket && socketRef != null
                && (old(sockets.socket) != null ==> socketRef == old(sockets.socket))
                && socketRef.listeners == WithReadinessHandlers(old(sockets.Table()))
                && socketRef.sent == old(if sockets.socket == null then [] else sockets.socket.sent)
                && socketRef.connected == old(sockets.socket != null && sockets.socket.connected)
                && (socketRef.connected || socketRef.active) && isConnecting == !socketRef.connected
      ensures isReady == old(isReady) && pendingTimers == old(pendingTimers) && isResetting == old(isResetting)
    {
      if isResetting {
        return;
      }
      if !isReady {
        store.SetError(Some(NotReadyMessage));
        return;
      }
      BeginCapture(capture, setup);
    }

    /** The part of a start after its guards. */
    method BeginCapture(capture: Capture, setup: RecorderSetup)
      modifies this, store, sockets, sockets.socket, socketRef
      ensures capture.Refused? ==>
                && store.Snapshot() == old(store.Snapshot()).(status := Idle, error := Some(StartFailurePrefix + capture.message))
                && recorder == Stopped(old(recorder)) && stream == None && chunks == old(chunks)
                && stoppedTracks == old(stoppedTracks) + Tracks(old(stream))
      ensures capture.Granted? ==>
                && stream == Some(HeldStream(old(store.audioMode), capture.tracks))
                && stoppedTracks == old(stoppedTracks) + Tracks(old(stream))
                                    + (if old(store.audioMode) == Tab then VideoOnly(capture.tracks) else [])
      ensures capture.Granted? && setup.ConstructorThrows? ==>
                && store.Snapshot() == old(store.Snapshot()).(status := Idle, error := Some(StartFailurePrefix + setup.message))
                && recorder == Stopped(old(recorder)) && chunks == old(chunks)
      ensures capture.Granted? && setup.StartThrows? ==>
                && store.Snapshot() == old(store.Snapshot()).(status := Idle, error := Some(StartFailurePrefix + setup.message))
                && recorder == Some(MediaRecorder(RecInactive, 0)) && chunks == []
      ensures capture.Granted? && setup.RecorderStarts? ==>
                && store.Snapshot() == old(store.Snapshot()).(status := Recording, error := None)
                && recorder == Some(MediaRecorder(RecRecording, TimesliceMs)) && chunks == []
      ensures pendingStopEvents == old(pendingStopEvents) + (if IsActive(old(recorder)) then 1 else 0)
      ensures !(capture.Granted? && setup.RecorderStarts?) ==>
                && socketRef == old(socketRef) && isConnecting == old(isConnecting) && isReady == old(isReady)
                && unchanged(sockets)
                && (socketRef != null ==> unchanged(socketRef))
                && (sockets.socket != null ==> unchanged(sockets.socket))
      ensures capture.Granted? && setup.RecorderStarts? ==> SocketEnsured(old(socketRef), old(sockets.socket), old(isConnecting), old(isReady))
      ensures capture.Granted? && setup.RecorderStarts? && old(socketRef) != null ==>
                && socketRef.listeners == old(socketRef.listeners) && socketRef.sent == old(socketRef.sent)
                && socketRef.connected == old(socketRef.connected)
      ensures capture.Granted? && setup.RecorderStarts? && old(socketRef) == null ==>
                && socketRef.listeners == WithReadinessHandlers(old(sockets.Table()))
                && socketRef.sent == old(if sockets.socket == null then [] else sockets.socket.sent)
                && socketRef.connected == old(sockets.socket != null && sockets.socket.connected)
      ensures pendingTimers == old(pendingTimers) && isResetting == old(isResetting)
    {
      store.SetError(None);
      StopRecording();
      var mode := store.audioMode;
      match capture {
        case Refused(message) =>
          store.SetStatus(Idle);
          store.SetError(Some(StartFailurePrefix + message));
        case Granted(tracks) =>
          HoldStream(mode, tracks);
          StartRecorder(setup);
      }
    }

    /**
     * What `EnsureSocket` leaves, given the socket ref, shared socket and
     * flags before it: the ref is kept when there was one, and otherwise is
     * the shared socket, now connecting unless already connected.
     */
    ghost predicate SocketEnsured(oldRef: CS.Socket?, oldShared: CS.Socket?, oldConnecting: bool, oldReady: bool)
      reads this, sockets, socketRef
    {
      && socketRef != null && (socketRef.connected || socketRef.active)
      && (oldRef != null ==>
            socketRef == oldRef && isConnecting == oldConnecting && isReady == oldReady && sockets.socket == oldShared)
      && (oldRef == null ==>
            && socketRef == sockets.socket && (oldShared != null ==> socketRef == oldShared)
            && isConnecting == !socketRef.connected
            && (socketRef.connected ==> isReady) && (!socketRef.connected ==> isReady == oldReady))
    }

    /** Creates and starts the recorder on the held stream, as `setup` says it goes. */
    method StartRecorder(setup: RecorderSetup)
      modifies this, store, sockets, sockets.socket, socketRef
      ensures setup.ConstructorThrows? ==>
                && store.Snapshot() == old(store.Snapshot()).(status := Idle, error := Some(StartFailurePrefix + setup.message))
                && recorder == old(recorder) && chunks == old(chunks)
      ensures setup.StartThrows? ==>
                && store.Snapshot() == old(store.Snapshot()).(status := Idle, error := Some(StartFailurePrefix + setup.message))
                && recorder == Some(MediaRecorder(RecInactive, 0)) && chunks == []
      ensures setup.RecorderStarts? ==>
                && store.Snapshot() == old(store.Snapshot()).(status := Recording)
                && recorder == Some(MediaRecorder(RecRecording, TimesliceMs)) && chunks == []
      ensures !setup.RecorderStarts? ==>
                && socketRef == old(socketRef) && isConnecting == old(isConnecting) && isReady == old(isReady)
                && unchanged(sockets)
                && (socketRef != null ==> unchanged(socketRef))
                && (sockets.socket != null ==> unchanged(sockets.socket))
      ensures setup.RecorderStarts? ==> SocketEnsured(old(socketRef), old(sockets.socket), old(isConnecting), old(isReady))
      ensures setup.RecorderStarts? && old(socketRef) != null ==>
                && socketRef.listeners == old(socketRef.listeners) && socketRef.sent == old(socketRef.sent)
                && socketRef.connected == old(socketRef.connected)
      ensures setup.RecorderStarts? && old(socketRef) == null ==>
                && socketRef.listeners == WithReadinessHandlers(old(sockets.Table()))
                && socketRef.sent == old(if sockets.socket == null then [] else sockets.socket.sent)
                && socketRef.connected == old(sockets.socket != null && sockets.socket.connected)
      ensures stream == old(stream) && stoppedTracks == old(stoppedTracks)
      ensures pendingStopEvents == old(pendingStopEvents) && pendingTimers == old(pendingTimers)
      ensures isResetting == old(isResetting)
    {
      match setup {
        case ConstructorThrows(message) =>
          store.SetStatus(Idle);
          store.SetError(Some(StartFailurePrefix + message));
        case StartThrows(message) =>
          recorder := Some(MediaRecorder(RecInactive, 0));
          chunks := [];
          store.SetStatus(Idle);
          store.SetError(Some(StartFailurePrefix + message));
        case RecorderStarts =>
          recorder := Some(MediaRecorder(RecRecording, TimesliceMs));
          chunks := [];
          store.SetStatus(Recording);
          EnsureSocket();
      }
    }

    /** Keeps a captured stream; for tab capture, first stops and removes its video tracks. */
    method HoldStream(mode: AudioMode, tracks: seq<Track>)
      modifies this
      ensures stream == Some(HeldStream(mode, tracks))
      ensures stoppedTracks == old(stoppedTracks) + (if mode == Tab then VideoOnly(tracks) else [])
      ensures recorder == old(recorder) && chunks == old(chunks) && socketRef == old(socketRef)
      ensures isResetting == old(isResetting) && isReady == old(isReady) && isConnecting == old(isConnecting)
      ensures pendingStopEvents == old(pendingStopEvents) && pendingTimers == old(pendingTimers)
    {
      var held := tracks;
      if mode == Tab {
        var stopped;
        held, stopped := DiscardVideoTracks(tracks);
        stoppedTracks := stoppedTracks + stopped;
      }
      stream := Some(held);
    }

    /** After a successful start: make sure the socket exists and is connected or connecting. */
    method EnsureSocket()
      modifies this, sockets, sockets.socket, socketRef
      ensures socketRef != null && (socketRef.connected || socketRef.active)
      ensures old(socketRef) != null ==>
                && socketRef == old(socketRef) && isConnecting == old(isConnecting) && isReady == old(isReady)
                && unchanged(sockets)
                && socketRef.listeners == old(socketRef.listeners) && socketRef.sent == old(socketRef.sent)
                && socketRef.connected == old(socketRef.connected)
      ensures old(socketRef) == null ==>
                && socketRef == sockets.socket
                && (old(sockets.socket) != null ==> socketRef == old(sockets.socket))
                && (old(sockets.socket) == null ==> fresh(socketRef))
                && socketRef.listeners == WithReadinessHandlers(old(sockets.Table()))
                && socketRef.sent == old(if sockets.socket == null then [] else sockets.socket.sent)
                && socketRef.connected == old(sockets.socket != null && sockets.socket.connected)
                && isConnecting == !socketRef.connected
                && (socketRef.connected ==> isReady) && (!socketRef.connected ==> isReady == old(isReady))
      ensures recorder == old(recorder) && stream == old(stream) && chunks == old(chunks)
      ensures isResetting == old(isResetting) && stoppedTracks == old(stoppedTracks)
      ensures pendingStopEvents == old(pendingStopEvents) && pendingTimers == old(pendingTimers)
    {
      if socketRef == null {
        InitSocket();
      }
      if !socketRef.connected {
        socketRef.Connect();
      }
    }

    /** Pause acts only on a recording recorder. */
    method PauseRecording()
      modifies this, store
      ensures old(recorder).Some? && old(recorder).value.state == RecRecording ==>
                && recorder == Some(old(recorder).value.(state := RecPaused))
                && store.Snapshot() == old(store.Snapshot()).(status := Paused)
      ensures !(old(recorder).Some? && old(recorder).value.state == RecRecording) ==>
                recorder == old(recorder) && store.Snapshot() == old(store.Snapshot())
      ensures stream == old(stream) && chunks == old(chunks) && socketRef == old(socketRef)
      ensures isResetting == old(isResetting) && isReady == old(isReady) && isConnecting == old(isConnecting)
      ensures pendingStopEvents == old(pendingStopEvents) && pendingTimers == old(pendingTimers)
      ensures stoppedTracks == old(stoppedTracks)
    {
      if recorder.Some? && recorder.value.state == RecRecording {
        recorder := Some(recorder.value.(state := RecPaused));
        store.SetStatus(Paused);
      }
    }

    /** Resume acts only on a paused recorder. */
    method ResumeRecording()
      modifies this, store
      ensures old(recorder).Some? && old(recorder).value.state == RecPaused ==>
                && recorder == Some(old(recorder).value.(state := RecRecording))
                && store.Snapshot() == old(store.Snapshot()).(status := Recording)
      ensures !(old(recorder).Some? && old(recorder).value.state == RecPaused) ==>
                recorder == old(recorder) && store.Snapshot() == old(store.Snapshot())
      ensures stream == old(stream) && chunks == old(chunks) && socketRef == old(socketRef)
      ensures isResetting == old(isResetting) && isReady == old(isReady) && isConnecting == old(isConnecting)
      ensures pendingStopEvents == old(pendingStopEvents) && pendingTimers == old(pendingTimers)
      ensures stoppedTracks == old(stoppedTracks)
    {
      if recorder.Some? && recorder.value.state == RecPaused {
        recorder := Some(recorder.value.(state := RecRecording));
        store.SetStatus(Recording);
      }
    }

    /**
     * Stop: stops an active recorder (its stop event will follow) and
     * releases the stream.  The status is untouched here; it moves to
     * processing when the stop event fires.
     */
    method StopRecording()
      modifies this
      ensures recorder == Stopped(old(recorder))
      ensures pendingStopEvents == old(pendingStopEvents) + (if IsActive(old(recorder)) then 1 else 0)
      ensures stream == None && stoppedTracks == old(stoppedTracks) + Tracks(old(stream))
      ensures chunks == old(chunks) && socketRef == old(socketRef) && pendingTimers == old(pendingTimers)
      ensures isResetting == old(isResetting) && isReady == old(isReady) && isConnecting == old(isConnecting)
    {
      if IsActive(recorder) {
        recorder := Stopped(recorder);
        pendingStopEvents := pendingStopEvents + 1;
      }
      ReleaseStream();
    }

    /** The recorder's stop event, with `onstop` attached: processing, and a timer scheduled. */
    method OnRecorderStop()
      modifies this, store
      ensures old(pendingStopEvents) > 0 ==>
                && pendingStopEvents == old(pendingStopEvents) - 1 && pendingTimers == old(pendingTimers) + 1
                && store.Snapshot() == old(store.Snapshot()).(status := Processing)
      ensures old(pendingStopEvents) == 0 ==>
                pendingStopEvents == 0 && pendingTimers == old(pendingTimers) && store.Snapshot() == old(store.Snapshot())
      ensures recorder == old(recorder) && stream == old(stream) && chunks == old(chunks)
      ensures socketRef == old(socketRef) && stoppedTracks == old(stoppedTracks)
      ensures isResetting == old(isResetting) && isReady == old(isReady) && isConnecting == old(isConnecting)
    {
      if pendingStopEvents > 0 {
        pendingStopEvents := pendingStopEvents - 1;
        store.SetStatus(Processing);
        pendingTimers := pendingTimers + 1;
      }
    }

    /** The 500 ms timer fires: back to idle with the chunk buffer emptied. */
    method OnTimerFires()
      modifies this, store
      ensures old(pendingTimers) > 0 ==>
                && pendingTimers == old(pendingTimers) - 1 && chunks == []
                && store.Snapshot() == old(store.Snapshot()).(status := Idle)
      ensures old(pendingTimers) == 0 ==>
                pendingTimers == 0 && chunks == old(chunks) && store.Snapshot() == old(store.Snapshot())
      ensures recorder == old(recorder) && stream == old(stream) && pendingStopEvents == old(pendingStopEvents)
      ensures socketRef == old(socketRef) && stoppedTracks == old(stoppedTracks)
      ensures isResetting == old(isResetting) && isReady == old(isReady) && isConnecting == old(isConnecting)
    {
      if pendingTimers > 0 {
        pendingTimers := pendingTimers - 1;
        store.SetStatus(Idle);
        chunks := [];
      }
    }

    /** A chunk from the recorder: buffered and sent when non-empty, ignored when empty. */
    method OnDataAvailable(blob: CS.Blob)
      modifies this, sockets, sockets.socket
      ensures chunks == old(chunks) + NonEmptyChunks([blob])
      ensures |blob| == 0 ==> unchanged(sockets) && (sockets.socket != null ==> unchanged(sockets.socket))
      ensures |blob| > 0 && old(sockets.socket) != null ==>
                && sockets.socket == old(sockets.socket)
                && sockets.socket.sent == (if old(sockets.socket.connected) then old(sockets.socket.sent) + [blob]
                                           else old(sockets.socket.sent))
                && sockets.socket.connected == old(sockets.socket.connected)
                && sockets.socket.active == old(sockets.socket.active)
                && sockets.socket.listeners == old(sockets.socket.listeners)
      ensures |blob| > 0 && old(sockets.socket) == null ==>
                && fresh(sockets.socket) && sockets.socket.sent == []
                && !sockets.socket.connected && !sockets.socket.active
                && sockets.socket.listeners == CS.InitialListeners()
      ensures socketRef == old(socketRef) && stoppedTracks == old(stoppedTracks)
      ensures recorder == old(recorder) && stream == old(stream) && store.Snapshot() == old(store.Snapshot())
      ensures isResetting == old(isResetting) && isReady == old(isReady) && isConnecting == old(isConnecting)
      ensures pendingStopEvents == old(pendingStopEvents) && pendingTimers == old(pendingTimers)
    {
      if |blob| > 0 {
        chunks := chunks + [blob];
        sockets.EmitAudioChunk(blob);
      }
    }

    /**
     * The recorder reports a fatal error: back to idle with an error message.
     * The platform then stops the recorder, so an active one becomes inactive
     * and its stop event is still to come.
     */
    method OnRecorderError()
      modifies this, store
      ensures store.Snapshot() == old(store.Snapshot()).(status := Idle, error := Some(RecordingErrorMessage))
      ensures recorder == Stopped(old(recorder))
      ensures pendingStopEvents == old(pendingStopEvents) + (if IsActive(old(recorder)) then 1 else 0)
      ensures stream == old(stream) && chunks == old(chunks) && socketRef == old(socketRef)
      ensures stoppedTracks == old(stoppedTracks) && pendingTimers == old(pendingTimers)
      ensures isResetting == old(isResetting) && isReady == old(isReady) && isConnecting == old(isConnecting)
    {
      store.SetError(Some(RecordingErrorMessage));
      store.SetStatus(Idle);
      PlatformStops();
    }

    /**
     * The platform stops the recorder by itself, as when every track of its
     * stream has ended (the user ends a tab share): an active recorder becomes
     * inactive and its stop event is still to come; the hook's code runs only
     * when that event arrives.
     */
    method OnRecorderEnded()
      modifies this
      ensures recorder == Stopped(old(recorder))
      ensures pendingStopEvents == old(pendingStopEvents) + (if IsActive(old(recorder)) then 1 else 0)
      ensures stream == old(stream) && chunks == old(chunks) && socketRef == old(socketRef)
      ensures stoppedTracks == old(stoppedTracks) && pendingTimers == old(pendingTimers)
      ensures isResetting == old(isResetting) && isReady == old(isReady) && isConnecting == old(isConnecting)
    {
      PlatformStops();
    }

    /** An active recorder stops, and its stop event is queued. */
    method PlatformStops()
      modifies this
      ensures recorder == Stopped(old(recorder))
      ensures pendingStopEvents == old(pendingStopEvents) + (if IsActive(old(recorder)) then 1 else 0)
      ensures stream == old(stream) && chunks == old(chunks) && socketRef == old(socketRef)
      ensures stoppedTracks == old(stoppedTracks) && pendingTimers == old(pendingTimers)
      ensures isResetting == old(isResetting) && isReady == old(isReady) && isConnecting == old(isConnecting)
    {
      if IsActive(recorder) {
        recorder := Stopped(recorder);
        pendingStopEvents := pendingStopEvents + 1;
      }
    }

    /**
     * Reset: detaches `onstop` before stopping an active recorder, so no stop
     * event and no processing phase follow; releases the stream, forgets the
     * recorder and the chunks, sets idle and clears the transcript.  The
     * socket is left as it is.
     */
    method ResetRecording()
      modifies this, store
      ensures store.Snapshot() == old(store.Snapshot()).(status := Idle, transcript := [])
      ensures recorder == None && stream == None && chunks == [] && !isResetting
      ensures stoppedTracks == old(stoppedTracks) + Tracks(old(stream))
      ensures pendingStopEvents == old(pendingStopEvents) && pendingTimers == old(pendingTimers)
      ensures socketRef == old(socketRef) && isReady == old(isReady) && isConnecting == old(isConnecting)
    {
      isResetting := true;
      ReleaseStream();
      recorder := None;
      chunks := [];
      store.SetStatus(Idle);
      store.ClearTranscript();
      isResetting := false;
    }

    /** Unmount cleanup: stops an active recorder (its `onstop` still attached) and releases the stream; the socket stays. */
    method Unmount()
      modifies this
      ensures recorder == Stopped(old(recorder))
      ensures pendingStopEvents == old(pendingStopEvents) + (if IsActive(old(recorder)) then 1 else 0)
      ensures stream == None && stoppedTracks == old(stoppedTracks) + Tracks(old(stream))
      ensures chunks == old(chunks) && socketRef == old(socketRef) && pendingTimers == old(pendingTimers)
      ensures isReady == old(isReady) && isConnecting == old(isConnecting) && isResetting == old(isResetting)
    {
      if IsActive(recorder) {
        recorder := Stopped(recorder);
        pendingStopEvents := pendingStopEvents + 1;
      }
      ReleaseStream();
    }
  }

  /** A hook mounted on a fresh page whose socket has connected. */
  method ReadyHook() returns (store: RecordingStore, hook: AudioRecorderHook)
    ensures fresh(store) && fresh(hook) && hook.store == store && store.Snapshot() == InitialState()
    ensures hook.isReady && !hook.isResetting && hook.recorder == None && hook.stream == None
    ensures hook.pendingStopEvents == 0 && hook.pendingTimers == 0
    ensures hook.socketRef != null && hook.socketRef.connected && fresh(hook.socketRef) && fresh(hook.sockets)
    ensures hook.sockets.socket == hook.socketRef
  {
    store := new RecordingStore();
    var sockets := new CS.SocketModule(None);
    hook := new AudioRecorderHook(store, sockets);
    hook.InitSocket();
    hook.socketRef.TransportUp();
    hook.OnConnect();
  }

  /** Stop passes through processing, and only the timer brings the status back to idle with the buffer emptied. */
  method StopPassesThroughProcessing() returns (afterStart: Status, afterStop: Status, afterStopEvent: Status, afterTimer: Status, buffered: nat)
    ensures afterStart == Recording && afterStop == Recording
    ensures afterStopEvent == Processing && afterTimer == Idle && buffered == 0
  {
    var store, hook := ReadyHook();
    hook.StartRecording(Granted([Track(1, AudioTrack)]), RecorderStarts);
    afterStart := store.status;
    hook.StopRecording();
    afterStop := store.status;
    hook.OnRecorderStop();
    afterStopEvent := store.status;
    hook.OnTimerFires();
    afterTimer := store.status;
    buffered := |hook.chunks|;
  }

  /** Reset returns to idle at once with the transcript cleared, and no stop event can bring in a processing phase. */
  method ResetSkipsProcessing() returns (afterReset: Status, afterStopEvent: Status, transcript: seq<string>)
    ensures afterReset == Idle && afterStopEvent == Idle && transcript == []
  {
    var store, hook := ReadyHook();
    hook.StartRecording(Granted([Track(1, AudioTrack)]), RecorderStarts);
    store.AddTranscriptLine("hello");
    hook.ResetRecording();
    afterReset := store.status;
    hook.OnRecorderStop();
    afterStopEvent := store.status;
    transcript := store.transcript;
  }

  /**
   * A recorder error sets idle at once, but the stop event the platform
   * sends after it still moves the status to processing and, on the timer,
   * back to idle.
   */
  method ErrorThenStopEvent() returns (afterError: Status, afterStopEvent: Status, afterTimer: Status, error: Option<string>)
    ensures afterError == Idle && afterStopEvent == Processing && afterTimer == Idle
    ensures error == Some(RecordingErrorMessage)
  {
    var store, hook := ReadyHook();
    hook.StartRecording(Granted([Track(1, AudioTrack)]), RecorderStarts);
    hook.OnRecorderError();
    afterError := store.status;
    hook.OnRecorderStop();
    afterStopEvent := store.status;
    hook.OnTimerFires();
    afterTimer := store.status;
    error := store.error;
  }

  /**
   * As written: a second mount of the hook over the shared socket that the
   * first mount connected waits for a `connect` event that has already
   * happened, so it is not ready and refuses to start.
   */
  method RemountAsWrittenRefusesStart() returns (connected: bool, ready: bool, error: Option<string>)
    ensures connected && !ready && error == Some(NotReadyMessage)
  {
    var store := new RecordingStore();
    var sockets := new CS.SocketModule(None);
    var first := new AudioRecorderHook(store, sockets);
    first.InitSocketAsWritten();
    first.socketRef.TransportUp();
    first.OnConnect();
    first.Unmount();
    var second := new AudioRecorderHook(store, sockets);
    second.InitSocketAsWritten();
    connected := second.socketRef.connected;
    ready := second.isReady;
    second.StartRecording(Granted([Track(1, AudioTrack)]), RecorderStarts);
    error := store.error;
  }

  /** Corrected: the second mount is ready at once and starts recording. */
  method RemountCorrectedStarts() returns (ready: bool, status: Status, error: Option<string>)
    ensures ready && status == Recording && error == None
  {
    var store := new RecordingStore();
    var sockets := new CS.SocketModule(None);
    var first := new AudioRecorderHook(store, sockets);
    first.InitSocket();
    first.socketRef.TransportUp();
    first.OnConnect();
    first.Unmount();
    var second := new AudioRecorderHook(store, sockets);
    second.InitSocket();
    ready := second.isReady;
    second.StartRecording(Granted([Track(1, AudioTrack)]), RecorderStarts);
    status := store.status;
    error := store.error;
  }
}
