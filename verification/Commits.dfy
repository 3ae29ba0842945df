/** How a transaction can end, in either database. */
module Commits {
  /** The fate of a transaction that reached its commit: confirmed, lost on the way after
      or before it was applied, or refused. */
  datatype Commit = Commits | LostApplied | LostDropped | Aborts

  predicate Lands(c: Commit) { c.Commits? || c.LostApplied? }
}
