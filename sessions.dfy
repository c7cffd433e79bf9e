/**
 * The saved-session routes: list a user's transcripts, fetch one with its
 * summary, and fetch-or-generate its summary.  The two tables are maps keyed
 * by id; the summary table is keyed by the transcript it belongs to, since a
 * transcript has at most one summary.  The authenticated user id is an
 * input, and a storage failure is a parameter saying where the storage
 * layer fails.
 */
module Sessions {
  import opened Optional

  datatype TranscriptRow = TranscriptRow(id: string, userId: string, title: string, fullText: string, createdAt: int)
  datatype SummaryRow = SummaryRow(id: string, userId: string, transcriptId: string, text: string)

  /** A list entry: the row projected to id, title and creation time. */
  datatype ListItem = ListItem(id: string, title: string, createdAt: int)

  /** A transcript together with its summary, if it has one. */
  datatype TranscriptWithSummary = TranscriptWithSummary(transcript: TranscriptRow, summary: Option<SummaryRow>)

  /** An HTTP reply: a JSON body, or a status code with an error message. */
  datatype Response<T> = Ok(body: T) | Failure(status: nat, error: string)

  /** Where a storage call of the summary handler fails, if at all. */
  datatype StorageFault = NoFault | LookupFails | CreateFails

  const NotFoundError: string := "Transcript not found"
  const ListError: string := "Failed to fetch transcripts"
  const FetchError: string := "Failed to fetch transcript"
  const SummaryError: string := "Failed to generate/fetch summary"

  function Project(row: TranscriptRow): (item: ListItem)
    ensures item.id == row.id && item.title == row.title && item.createdAt == row.createdAt
  {
    ListItem(row.id, row.title, row.createdAt)
  }

  const SummaryPrefix: string := "Summary for transcript \""
  const SummarySuffix: string := "\"..."

  /** The text generated for a transcript that has no summary yet: the title, quoted, inside a fixed frame. */
  function SummaryText(title: string): (text: string)
    ensures |text| == |SummaryPrefix| + |title| + |SummarySuffix|
    ensures text[..|SummaryPrefix|] == SummaryPrefix && text[|text| - |SummarySuffix|..] == SummarySuffix
    ensures text[|SummaryPrefix|..|text| - |SummarySuffix|] == title
  {
    SummaryPrefix + title + SummarySuffix
  }

  /** Different titles give different generated summaries. */
  lemma SummaryTextInjective(a: string, b: string)
    requires SummaryText(a) == SummaryText(b)
    ensures a == b
  {
    var ta, tb := SummaryText(a), SummaryText(b);
    assert a == ta[|SummaryPrefix|..|ta| - |SummarySuffix|];
  }

  /** Newest first. */
  ghost predicate SortedDesc(items: seq<ListItem>) {
    forall i, j :: 0 <= i < j < |items| ==> items[i].createdAt >= items[j].createdAt
  }

  /** Insert into a newest-first list, ahead of entries with the same time. */
  function Insert(x: ListItem, items: seq<ListItem>): seq<ListItem> {
    if items == [] then [x]
    else if x.createdAt >= items[0].createdAt then [x] + items
    else [items[0]] + Insert(x, items[1..])
  }

  /** Inserting adds exactly the one entry. */
  lemma {:induction false} InsertMultiset(x: ListItem, items: seq<ListItem>)
    ensures multiset(Insert(x, items)) == multiset(items) + multiset{x}
    decreases |items|
  {
    if items != [] && x.createdAt < items[0].createdAt {
      InsertMultiset(x, items[1..]);
      assert items == [items[0]] + items[1..];
    }
  }

  /** No entry of `items` is newer than `t`. */
  ghost predicate NotNewerThan(items: seq<ListItem>, t: int) {
    forall k :: 0 <= k < |items| ==> items[k].createdAt <= t
  }

  lemma {:induction false} InsertNotNewer(x: ListItem, items: seq<ListItem>, t: int)
    requires NotNewerThan(items, t) && x.createdAt <= t
    ensures NotNewerThan(Insert(x, items), t)
    decreases |items|
  {
    if items != [] && x.createdAt < items[0].createdAt {
      InsertNotNewer(x, items[1..], t);
    }
  }

  /** Inserting keeps a list newest first. */
  lemma {:induction false} InsertSorted(x: ListItem, items: seq<ListItem>)
    requires SortedDesc(items)
    ensures SortedDesc(Insert(x, items))
    decreases |items|
  {
    if items != [] && x.createdAt < items[0].createdAt {
      var rest := items[1..];
      InsertSorted(x, rest);
      InsertNotNewer(x, rest, items[0].createdAt);
    }
  }

  /** Any one key of a non-empty key set; the choice is fixed so that proofs can follow it. */
  ghost function Pick(keys: set<string>): (k: string)
    requires keys != {}
    ensures k in keys
  {
    var k :| k in keys; k
  }

  /** The list entries of `userId`'s rows among `keys`, newest first. */
  ghost function ListFrom(rows: map<string, TranscriptRow>, keys: set<string>, userId: string): seq<ListItem>
    decreases keys
  {
    if keys == {} then []
    else
      var k := Pick(keys);
      var rest := ListFrom(rows, keys - {k}, userId);
      if k in rows && rows[k].userId == userId then Insert(Project(rows[k]), rest) else rest
  }

  ghost predicate KeyedById(rows: map<string, TranscriptRow>) {
    forall k :: k in rows ==> rows[k].id == k
  }

  lemma {:induction false} ListFromSorted(rows: map<string, TranscriptRow>, keys: set<string>, userId: string)
    ensures SortedDesc(ListFrom(rows, keys, userId))
    decreases keys
  {
    if keys != {} {
      var k := Pick(keys);
      ListFromSorted(rows, keys - {k}, userId);
      if k in rows && rows[k].userId == userId {
        InsertSorted(Project(rows[k]), ListFrom(rows, keys - {k}, userId));
      }
    }
  }

  /** The entries are exactly the projections of the user's rows among `keys`, each once. */
  lemma {:induction false} ListFromEntries(rows: map<string, TranscriptRow>, keys: set<string>, userId: string)
    requires KeyedById(rows)
    ensures forall it :: it in multiset(ListFrom(rows, keys, userId)) ==>
              it.id in keys && it.id in rows && rows[it.id].userId == userId && it == Project(rows[it.id])
    ensures forall k :: k in keys && k in rows && rows[k].userId == userId ==>
              Project(rows[k]) in multiset(ListFrom(rows, keys, userId))
    ensures forall it :: multiset(ListFrom(rows, keys, userId))[it] <= 1
    decreases keys
  {
    if keys != {} {
      var k := Pick(keys);
      var rest := ListFrom(rows, keys - {k}, userId);
      ListFromEntries(rows, keys - {k}, userId);
      if k in rows && rows[k].userId == userId {
        InsertMultiset(Project(rows[k]), rest);
        assert Project(rows[k]) !in multiset(rest);
      }
    }
  }

  /** A list whose entries are projections of rows and occur once each names each row once. */
  lemma DistinctIds(rows: map<string, TranscriptRow>, items: seq<ListItem>)
    requires forall it :: it in multiset(items) ==> it.id in rows && it == Project(rows[it.id])
    requires forall it :: multiset(items)[it] <= 1
    ensures forall i, j :: 0 <= i < j < |items| ==> items[i].id != items[j].id
  {
    forall i, j | 0 <= i < j < |items|
      ensures items[i].id != items[j].id
    {
      assert items == items[..j] + items[j..];
      assert items[i] in multiset(items[..j]);
      assert items[j] in multiset(items[j..]);
      assert multiset(items) == multiset(items[..j]) + multiset(items[j..]);
      assert items[i] != items[j];
      assert items[i] in multiset(items) && items[j] in multiset(items);
    }
  }

  /**
   * The database behind the routes.  A transcript row is stored under its
   * own id; a summary row is stored under the transcript it summarises,
   * which exists and belongs to the same user.
   */
  class Database {
    var transcripts: map<string, TranscriptRow>
    var summaries: map<string, SummaryRow>

    ghost predicate Valid()
      reads this
    {
      && KeyedById(transcripts)
      && (forall t :: t in summaries ==>
            && t in transcripts
            && summaries[t].transcriptId == t
            && summaries[t].userId == transcripts[t].userId)
    }

    /** A database holding the given transcript rows and no summaries. */
    constructor (rows: map<string, TranscriptRow>)
      requires KeyedById(rows)
      ensures Valid() && transcripts == rows && summaries == map[]
    {
      transcripts := rows;
      summaries := map[];
    }

    predicate Owns(userId: string, id: string)
      reads this
    {
      id in transcripts && transcripts[id].userId == userId
    }

    /**
     * `GET /`: the user's transcripts, newest first, projected to id, title
     * and creation time; rows with the same creation time may come in any
     * order.
     */
    ghost function ListTranscripts(userId: string, fault: bool): (r: Response<seq<ListItem>>)
      requires Valid()
      reads this
      ensures fault <==> r == Failure(500, ListError)
      ensures r.Ok? <==> !fault
      ensures r.Ok? ==> SortedDesc(r.body)
      ensures r.Ok? ==> forall it :: it in r.body ==> Owns(userId, it.id) && it == Project(transcripts[it.id])
      ensures r.Ok? ==> forall id :: Owns(userId, id) ==> Project(transcripts[id]) in r.body
      ensures r.Ok? ==> forall i, j :: 0 <= i < j < |r.body| ==> r.body[i].id != r.body[j].id
    {
      if fault then Failure(500, ListError)
      else
        var items := ListFrom(transcripts, transcripts.Keys, userId);
        ListFromSorted(transcripts, transcripts.Keys, userId);
        ListFromEntries(transcripts, transcripts.Keys, userId);
        DistinctIds(transcripts, items);
        Ok(items)
    }

    /**
     * `GET /:id`: the transcript with its summary, or 404 when it does not
     * exist or belongs to someone else.
     */
    function GetTranscript(userId: string, id: string, fault: bool): (r: Response<TranscriptWithSummary>)
      requires Valid()
      reads this
      ensures fault ==> r == Failure(500, FetchError)
      ensures !fault && !Owns(userId, id) ==> r == Failure(404, NotFoundError)
      ensures r.Ok? <==> !fault && Owns(userId, id)
      ensures r.Ok? ==> r.body.transcript == transcripts[id] && r.body.transcript.userId == userId
      ensures r.Ok? ==> (r.body.summary.Some? <==> id in summaries)
      ensures r.Ok? && id in summaries ==> r.body.summary == Some(summaries[id])
      ensures r.Ok? && r.body.summary.Some? ==>
                r.body.summary.value.transcriptId == id && r.body.summary.value.userId == userId
    {
      if fault then Failure(500, FetchError)
      else if !Owns(userId, id) then Failure(404, NotFoundError)
      else Ok(TranscriptWithSummary(transcripts[id], if id in summaries then Some(summaries[id]) else None))
    }

    /**
     * `POST /:id/summary`: after the same ownership check, the stored
     * summary's text, or else a generated one stored as a new row under
     * `newId`.
     */
    method GetOrCreateSummary(userId: string, id: string, fault: StorageFault, newId: string) returns (r: Response<string>)
      requires Valid()
      modifies this
      ensures Valid() && transcripts == old(transcripts)
      ensures fault == LookupFails ==> r == Failure(500, SummaryError) && summaries == old(summaries)
      ensures fault != LookupFails && !old(Owns(userId, id)) ==>
                r == Failure(404, NotFoundError) && summaries == old(summaries)
      ensures fault != LookupFails && old(Owns(userId, id)) && id in old(summaries) ==>
                r == Ok(old(summaries)[id].text) && summaries == old(summaries)
      ensures fault == CreateFails && old(Owns(userId, id)) && id !in old(summaries) ==>
                r == Failure(500, SummaryError) && summaries == old(summaries)
      ensures fault == NoFault && old(Owns(userId, id)) && id !in old(summaries) ==>
                && r == Ok(SummaryText(transcripts[id].title))
                && summaries == old(summaries)[id := SummaryRow(newId, userId, id, SummaryText(transcripts[id].title))]
    {
      if fault == LookupFails {
        return Failure(500, SummaryError);
      }
      if !Owns(userId, id) {
        return Failure(404, NotFoundError);
      }
      if id in summaries {
        return Ok(summaries[id].text);
      }
      var text := SummaryText(transcripts[id].title);
      if fault == CreateFails {
        return Failure(500, SummaryError);
      }
      summaries := summaries[id := SummaryRow(newId, userId, id, text)];
      r := Ok(text);
    }
  }

  /**
   * Asking twice for a summary of an owned transcript gives the same text,
   * and at most one summary row is ever added for it.
   */
  method SummaryIsStable(db: Database, userId: string, id: string, firstId: string, secondId: string)
    returns (first: Response<string>, second: Response<string>)
    requires db.Valid() && db.Owns(userId, id)
    modifies db
    ensures first.Ok? && first == second
    ensures db.transcripts == old(db.transcripts) && db.summaries.Keys == old(db.summaries.Keys) + {id}
    ensures id in db.summaries && db.summaries[id].text == first.body
  {
    first := db.GetOrCreateSummary(userId, id, NoFault, firstId);
    second := db.GetOrCreateSummary(userId, id, NoFault, secondId);
  }

  /** The second request for a new transcript's summary returns the first one's text from the stored row. */
  method SecondCallReturnsSameText() returns (first: Response<string>, second: Response<string>, rows: nat)
    ensures first == second == Ok("Summary for transcript \"Standup\"...")
    ensures rows == 1
  {
    var row := TranscriptRow("t1", "u1", "Standup", "hello world", 100);
    var db := new Database(map["t1" := row]);
    first := db.GetOrCreateSummary("u1", "t1", NoFault, "s1");
    second := db.GetOrCreateSummary("u1", "t1", NoFault, "s2");
    assert SummaryText("Standup") == "Summary for transcript \"Standup\"...";
    rows := |db.summaries|;
    assert db.summaries.Keys == {"t1"};
  }
}
