/** What one caller has asked of the database and of the queue, in the order of its calls. */
module CallJournal {
  import opened Wrappers
  import opened Statements

  /** A call succeeds, or throws without effect, or throws although it took effect. */
  datatype Fate = Succeeds | Fails | FailsAfterEffect

  /** A write that reached the database, and whether it changed anything; a job handed to the queue, and how that went. */
  datatype Entry =
    | RowCreated(id: StatementId, took: bool)
    | UploadMarked(id: StatementId, took: bool)
    | QueueMarked(id: StatementId, took: bool)
    | QueueReset(id: StatementId, took: bool)
    | Claimed(id: StatementId, token: Token, took: bool)
    | FailureMarked(id: StatementId, token: Token, code: FailureCode, took: bool)
    | Saved(id: StatementId, token: Token, lines: seq<Transaction>, took: bool)
    | JobSent(id: StatementId, fate: Fate)

  class Journal {
    ghost var entries: seq<Entry>

    constructor ()
      ensures entries == []
    {
      entries := [];
    }
  }

  /** What has been added to the journal. */
  twostate function Own(journal: Journal): seq<Entry>
    reads journal
  {
    if old(|journal.entries|) <= |journal.entries| then journal.entries[old(|journal.entries|)..] else []
  }
}
