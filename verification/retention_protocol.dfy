/** The retention purge as part of the job protocol. */
module RetentionProtocol {
  import opened Wrappers
  import opened JobModels
  import opened JobRepository
  import opened JobProtocol
  import opened JobSafety
  import opened Retention

  /** The protocol step that a purge of one class amounts to. */
  function PurgeAction(db: Db, cls: DataClass, cutoff: Time): Action {
    if cls.JobMetadata? then PurgeJobs(Expired(db, cls, cutoff)) else PurgeKeys(Expired(db, cls, cutoff))
  }

  lemma {:induction false} Extend(c: Config, w: World, p: Id, a: Action)
    requires Reachable(c, w) && Next(c, w, p, a).Some?
    ensures Reachable(c, Next(c, w, p, a).value)
  {
    var schedule :| Run(c, Init(), schedule) == Some(w);
    RunConcat(c, Init(), schedule, [Step(p, a)]);
    var next := Next(c, w, p, a).value;
    assert Run(c, next, [Step(p, a)][1..]) == Some(next);
    assert Run(c, w, [Step(p, a)]) == Some(next);
  }

  /** In every reachable state a purge is an enabled step of the protocol, so all that holds of its runs
      holds after a purge too; and the jobs it removes are finished ones. */
  lemma {:induction false} PurgeKeepsReachability(c: Config, w: World, p: Id, cls: DataClass, cutoff: Time)
    requires c.maxAttempts >= 1 && Reachable(c, w) && InStore(cls)
    ensures var next := Next(c, w, p, PurgeAction(w.db, cls, cutoff));
      next.Some? && next.value.db == Purged(w.db, cls, cutoff) && Reachable(c, next.value)
    ensures forall id :: id in w.db.jobs && id !in Purged(w.db, cls, cutoff).jobs ==> w.db.jobs[id].status.IsTerminal()
  {
    Extend(c, w, p, PurgeAction(w.db, cls, cutoff));
    forall id | id in w.db.jobs && id !in Purged(w.db, cls, cutoff).jobs ensures w.db.jobs[id].status.IsTerminal() {
      StoredRecords(c, w, id);
    }
  }
}
