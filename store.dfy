/**
 * The client-side recording store (a zustand store): one record holding the
 * recording status, the audio source, the transcript lines received so far,
 * the current session id and the last error, with one setter per field plus
 * append, clear and reset.  Every setter replaces fields in place, so the
 * store is a class; `Snapshot` gives its whole state as a value so that each
 * setter can say in one line which fields it changed and that the rest did not.
 */
module Recording {
  import opened Optional

  /** The five recording statuses; no other value can be stored. */
  datatype Status = Idle | Recording | Paused | Processing | Completed

  /** Microphone capture or browser-tab audio capture. */
  datatype AudioMode = Mic | Tab

  datatype StoreState = StoreState(
    status: Status,
    audioMode: AudioMode,
    transcript: seq<string>,
    currentSessionId: Option<string>,
    error: Option<string>)

  /** The state the store is created with. */
  function InitialState(): (s: StoreState)
    ensures s.status == Idle && s.audioMode == Mic && s.transcript == []
    ensures s.currentSessionId == None && s.error == None
  {
    StoreState(Idle, Mic, [], None, None)
  }

  /** What `reset` leaves behind: only the audio mode survives. */
  function AfterReset(s: StoreState): (r: StoreState)
    ensures r.status == Idle && r.transcript == [] && r.currentSessionId == None && r.error == None
    ensures r.audioMode == s.audioMode
    ensures r == InitialState().(audioMode := s.audioMode)
  {
    s.(status := Idle, transcript := [], currentSessionId := None, error := None)
  }

  /** Resetting twice is the same as resetting once. */
  lemma ResetIdempotent(s: StoreState)
    ensures AfterReset(AfterReset(s)) == AfterReset(s)
  {
  }

  class RecordingStore {
    var status: Status
    var audioMode: AudioMode
    var transcript: seq<string>
    var currentSessionId: Option<string>
    var error: Option<string>

    function Snapshot(): StoreState
      reads this
    {
      StoreState(status, audioMode, transcript, currentSessionId, error)
    }

    constructor ()
      ensures Snapshot() == InitialState()
    {
      status := Idle;
      audioMode := Mic;
      transcript := [];
      currentSessionId := None;
      error := None;
    }

    method SetStatus(s: Status)
      modifies this
      ensures Snapshot() == old(Snapshot()).(status := s)
    {
      status := s;
    }

    method SetAudioMode(mode: AudioMode)
      modifies this
      ensures Snapshot() == old(Snapshot()).(audioMode := mode)
    {
      audioMode := mode;
    }

    /** Appends one line after all earlier ones. */
    method AddTranscriptLine(line: string)
      modifies this
      ensures Snapshot() == old(Snapshot()).(transcript := old(transcript) + [line])
      ensures |transcript| == |old(transcript)| + 1 && transcript[|transcript| - 1] == line
      ensures transcript[..|old(transcript)|] == old(transcript)
    {
      transcript := transcript + [line];
    }

    method ClearTranscript()
      modifies this
      ensures Snapshot() == old(Snapshot()).(transcript := [])
    {
      transcript := [];
    }

    method SetCurrentSessionId(id: Option<string>)
      modifies this
      ensures Snapshot() == old(Snapshot()).(currentSessionId := id)
    {
      currentSessionId := id;
    }

    method SetError(e: Option<string>)
      modifies this
      ensures Snapshot() == old(Snapshot()).(error := e)
    {
      error := e;
    }

    method Reset()
      modifies this
      ensures Snapshot() == AfterReset(old(Snapshot()))
    {
      status := Idle;
      transcript := [];
      currentSessionId := None;
      error := None;
    }
  }
}
