/** What may happen to the tables between two database calls of one handler: anything the system can do. */
module Interference {
  import opened Statements
  import opened StatementRepository

  /** The rest of the system takes any number of steps; callers know no more than that the tables progress. */
  method Others(repo: Repository)
    modifies repo
    ensures Progresses(old(repo.rows), old(repo.transactions), repo.rows, repo.transactions)
  {
  }
}
