/** The sending side of the job queue. */
module JobQueue {
  import opened Statements
  import opened CallJournal

  class Queue {
    const journal: Journal
    var messages: seq<StatementId>    // what this sender has put into the queue

    constructor (journal: Journal)
      ensures this.journal == journal && messages == []
    {
      this.journal, messages := journal, [];
    }

    /** A send that throws may have put the job into the queue all the same. */
    method SendAnalyzeJob(id: StatementId, fate: Fate)
      modifies this, journal
      ensures messages == old(messages) + (if fate == Fails then [] else [id])
      ensures journal.entries == old(journal.entries) + [JobSent(id, fate)]
    {
      if fate != Fails { messages := messages + [id]; }
      journal.entries := journal.entries + [JobSent(id, fate)];
    }
  }
}
