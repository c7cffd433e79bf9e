/**
 * The transcript panel's save flow: the Save button's enable rule, the title
 * dialog, and `handleSave`'s guard sequence and request payload.  Browser
 * storage, the HTTP request and `alert` are abstract: the stored token and
 * the request's result are parameters, and the alerts shown are returned in
 * order.
 */
module TranscriptFeed {
  import opened Optional
  import opened Recording
  import opened JsString

  const SaveUrl: string := "http://localhost:4000/api/transcript/save"
  const TitleMissingAlert: string := "Please enter a title"
  const NotLoggedInAlert: string := "Not logged in"
  const SavedAlert: string := "Transcript saved successfully!"
  const SaveErrorAlert: string := "Error saving transcript"

  /** The Save button is enabled only when idle with at least one transcript line. */
  function SaveEnabled(status: Status, transcript: seq<string>): (enabled: bool)
    ensures enabled <==> status == Idle && |transcript| > 0
  {
    !(status != Idle || |transcript| == 0)
  }

  /** The saved text: the lines joined by single spaces. */
  function FullText(lines: seq<string>): string {
    Join(lines, " ")
  }

  /**
   * Each line appended to the store extends the text that would be saved by
   * one space and that line; no line is dropped or reordered.
   */
  lemma FullTextAppend(lines: seq<string>, line: string)
    ensures FullText(lines + [line]) == if lines == [] then line else FullText(lines) + " " + line
  {
    JoinAppend(lines, " ", line);
  }

  /** Lines without spaces can be recovered from the saved text. */
  lemma FullTextKeepsLines(lines: seq<string>)
    requires lines != []
    requires forall k :: 0 <= k < |lines| ==> ' ' !in lines[k]
    ensures Split(FullText(lines), ' ') == lines
    ensures |FullText(lines)| == SumLengths(lines) + |lines| - 1
  {
    SplitJoin(lines, ' ');
    JoinLength(lines, " ");
  }

  /** The POST the save sends: the bearer token, the title as typed and the joined text. */
  datatype SaveRequest = SaveRequest(url: string, authorization: string, title: string, fullText: string)

  /** The request's result: a network failure, or a response whose `ok` flag says success. */
  datatype FetchResult = NetworkFailure | Response(ok: bool)

  /** What a save attempt showed and sent. */
  datatype SaveOutcome = SaveOutcome(alerts: seq<string>, request: Option<SaveRequest>)

  /** `!token`: no stored token, or an empty one. */
  predicate HasToken(token: Option<string>) {
    token.Some? && token.value != ""
  }

  /** The request built from the current title, token and lines. */
  function RequestFor(title: string, token: string, lines: seq<string>): (r: SaveRequest)
    ensures r.url == SaveUrl && r.title == title && r.fullText == FullText(lines)
    ensures r.authorization == "Bearer " + token
  {
    SaveRequest(SaveUrl, "Bearer " + token, title, FullText(lines))
  }

  class TranscriptFeed {
    const store: RecordingStore
    var saving: bool
    var openTitleDialog: bool
    var title: string

    constructor (store: RecordingStore)
      ensures this.store == store && !saving && !openTitleDialog && title == ""
    {
      this.store := store;
      saving := false;
      openTitleDialog := false;
      title := "";
    }

    /** "Save Transcript": clear the title and open the dialog. */
    method OpenSaveDialog()
      modifies this
      ensures title == "" && openTitleDialog && saving == old(saving)
    {
      title := "";
      openTitleDialog := true;
    }

    /** Typing in the title field. */
    method SetTitle(t: string)
      modifies this
      ensures title == t && openTitleDialog == old(openTitleDialog) && saving == old(saving)
    {
      title := t;
    }

    /** "Cancel", or the dialog dismissed. */
    method CloseDialog()
      modifies this
      ensures !openTitleDialog && title == old(title) && saving == old(saving)
    {
      openTitleDialog := false;
    }

    /**
     * `handleSave` as the source has it.  On a successful response it calls
     * a `setTranscript` that the store does not define; the resulting error
     * lands in the catch block, so the success alert is followed by the
     * error alert, the dialog stays open and the transcript is kept.
     */
    method HandleSaveAsWritten(token: Option<string>, fetch: FetchResult) returns (outcome: SaveOutcome)
      modifies this
      ensures |store.transcript| == 0 ==> outcome == SaveOutcome([], None) && saving == old(saving)
      ensures |store.transcript| > 0 && Trim(old(title)) == "" ==>
                outcome == SaveOutcome([TitleMissingAlert], None) && saving == old(saving)
      ensures |store.transcript| > 0 && Trim(old(title)) != "" && !HasToken(token) ==>
                outcome == SaveOutcome([NotLoggedInAlert], None) && !saving
      ensures |store.transcript| > 0 && Trim(old(title)) != "" && HasToken(token) ==>
                && outcome.request == Some(RequestFor(old(title), token.value, store.transcript))
                && outcome.alerts == (if fetch == Response(true) then [SavedAlert, SaveErrorAlert] else [SaveErrorAlert])
                && !saving
      ensures openTitleDialog == old(openTitleDialog) && title == old(title)
    {
      if |store.transcript| == 0 {
        return SaveOutcome([], None);
      }
      if Trim(title) == "" {
        return SaveOutcome([TitleMissingAlert], None);
      }
      saving := true;
      if !HasToken(token) {
        saving := false;
        return SaveOutcome([NotLoggedInAlert], None);
      }
      var request := RequestFor(title, token.value, store.transcript);
      var alerts: seq<string> := [];
      if fetch == Response(true) {
        alerts := alerts + [SavedAlert];
        // setTranscript("") throws here: the store has no such member.
      }
      alerts := alerts + [SaveErrorAlert];
      saving := false;
      return SaveOutcome(alerts, Some(request));
    }

    /**
     * `handleSave` as intended: on success the transcript is cleared and the
     * dialog closed; every other path is as written.
     */
    method HandleSave(token: Option<string>, fetch: FetchResult) returns (outcome: SaveOutcome)
      modifies this, store
      ensures |old(store.transcript)| == 0 ==>
                outcome == SaveOutcome([], None) && saving == old(saving) && store.Snapshot() == old(store.Snapshot())
      ensures |old(store.transcript)| > 0 && Trim(old(title)) == "" ==>
                && outcome == SaveOutcome([TitleMissingAlert], None) && saving == old(saving)
                && store.Snapshot() == old(store.Snapshot())
      ensures |old(store.transcript)| > 0 && Trim(old(title)) != "" && !HasToken(token) ==>
                outcome == SaveOutcome([NotLoggedInAlert], None) && !saving && store.Snapshot() == old(store.Snapshot())
      ensures |old(store.transcript)| > 0 && Trim(old(title)) != "" && HasToken(token) ==>
                && outcome.request == Some(RequestFor(old(title), token.value, old(store.transcript)))
                && !saving
      ensures |old(store.transcript)| > 0 && Trim(old(title)) != "" && HasToken(token) && fetch == Response(true) ==>
                && outcome.alerts == [SavedAlert] && !openTitleDialog
                && store.Snapshot() == old(store.Snapshot()).(transcript := [])
      ensures |old(store.transcript)| > 0 && Trim(old(title)) != "" && HasToken(token) && fetch != Response(true) ==>
                && outcome.alerts == [SaveErrorAlert] && openTitleDialog == old(openTitleDialog)
                && store.Snapshot() == old(store.Snapshot())
      ensures !(|old(store.transcript)| > 0 && Trim(old(title)) != "" && HasToken(token) && fetch == Response(true)) ==>
                openTitleDialog == old(openTitleDialog)
      ensures title == old(title)
    {
      if |store.transcript| == 0 {
        return SaveOutcome([], None);
      }
      if Trim(title) == "" {
        return SaveOutcome([TitleMissingAlert], None);
      }
      saving := true;
      if !HasToken(token) {
        saving := false;
        return SaveOutcome([NotLoggedInAlert], None);
      }
      var request := RequestFor(title, token.value, store.transcript);
      if fetch == Response(true) {
        store.ClearTranscript();
        openTitleDialog := false;
        outcome := SaveOutcome([SavedAlert], Some(request));
      } else {
        outcome := SaveOutcome([SaveErrorAlert], Some(request));
      }
      saving := false;
    }
  }

  /** The title and lines both save examples use. */
  lemma ExampleFacts()
    ensures Trim("Standup") != ""
    ensures RequestFor("Standup", "tok", ["hello", "world"]) == SaveRequest(SaveUrl, "Bearer tok", "Standup", "hello world")
  {
    assert "Standup"[0] == 'S' && !IsWhitespace('S');
    TrimEmptyIff("Standup");
    JoinAppend(["hello"], " ", "world");
    assert ["hello"] + ["world"] == ["hello", "world"];
  }

  /** A successful save as written: the user is told it worked and then that it failed, and nothing is cleared. */
  method AsWrittenSuccessReportsError() returns (outcome: SaveOutcome, dialogOpen: bool, lines: seq<string>)
    ensures outcome.alerts == [SavedAlert, SaveErrorAlert]
    ensures outcome.request == Some(SaveRequest(SaveUrl, "Bearer tok", "Standup", "hello world"))
    ensures dialogOpen && lines == ["hello", "world"]
  {
    var store := new RecordingStore();
    store.AddTranscriptLine("hello");
    store.AddTranscriptLine("world");
    var feed := new TranscriptFeed(store);
    feed.OpenSaveDialog();
    feed.SetTitle("Standup");
    assert store.transcript == ["hello", "world"];
    ExampleFacts();
    outcome := feed.HandleSaveAsWritten(Some("tok"), Response(true));
    dialogOpen := feed.openTitleDialog;
    lines := store.transcript;
  }

  /** The same save with the corrected handler: one success alert, the transcript cleared, the dialog closed. */
  method CorrectedSuccessClearsTranscript() returns (outcome: SaveOutcome, dialogOpen: bool, lines: seq<string>)
    ensures outcome.alerts == [SavedAlert]
    ensures outcome.request == Some(SaveRequest(SaveUrl, "Bearer tok", "Standup", "hello world"))
    ensures !dialogOpen && lines == []
  {
    var store := new RecordingStore();
    store.AddTranscriptLine("hello");
    store.AddTranscriptLine("world");
    var feed := new TranscriptFeed(store);
    feed.OpenSaveDialog();
    feed.SetTitle("Standup");
    assert store.transcript == ["hello", "world"];
    ExampleFacts();
    outcome := feed.HandleSave(Some("tok"), Response(true));
    dialogOpen := feed.openTitleDialog;
    lines := store.transcript;
  }
}
