/**
 What a finished recovery leaves is what the terminal protocol asks for: the checks that a rerun makes on a committed
 preparation hold of every completed resume and of every completed rollback, so every rerun closes it.
*/
module PreparationTerminal {
  import opened Options
  import opened PreparationModel
  import opened PreparationResume
  import opened PreparationForward
  import opened PreparationRollback
  import opened PreparationHistory
  import opened PreparationOutcomes
  import T = Terminal

  /** `_validate_preparation_committed`: what must be published, or gone, for an outcome. It does not look at database files. */
  predicate CommittedAs(p: Plan, d: Disk, o: T.Outcome) {
    match o
    case Resumed =>
      && Is(Look(d, Final(Pointer)), p.inode(Pointer)) && Is(Look(d, Final(Rollover)), p.inode(Rollover))
      && forall side :: side in Sides(p) ==> Is(Look(d, Final(Authority(side))), p.inode(Authority(side)))
    case RolledBack =>
      && Look(d, Final(Pointer)) == None && Look(d, Final(Rollover)) == None && Look(d, Final(Session)) == None
      && forall side :: side in Sides(p) ==>
           Look(d, Final(Authority(side))) == None && Is(Look(d, Final(Reservation(side))), p.abandoned(side))
  }

  /** The terminal cleanup removes the transaction; what is published stays. */
  function Cleaned(d: Disk): Disk {
    map x | x in d && x.Final? :: d[x]
  }

  lemma CleaningKeeps(p: Plan, d: Disk, o: T.Outcome)
    ensures CommittedAs(p, Cleaned(d), o) == CommittedAs(p, d, o)
  {
    assert forall slot :: Look(Cleaned(d), Final(slot)) == Look(d, Final(slot));
  }

  /** Everything the pointer refers to, and the pointer. */
  ghost predicate Installed(p: Plan, s: State) {
    InPlace(p, s) && Is(Look(s.disk, Final(Pointer)), p.inode(Pointer))
  }

  lemma InstalledCommits(p: Plan, s: State)
    requires Installed(p, s)
    ensures CommittedAs(p, s.disk, T.Resumed) && !CommittedAs(p, s.disk, T.RolledBack)
  {
    assert Tree(p, Rollover) && forall side :: side in Sides(p) ==> Tree(p, Authority(side));
  }

  lemma CompleteCommits(p: Plan, s: State)
    requires Complete(p, s)
    ensures Installed(p, s) && CommittedAs(p, s.disk, T.Resumed)
  {
    hide ResumeMoves, CommittedAs;
    FixedMoves(p);
    assert PhaseOf(p, s, Publish(Pointer)) == Done && PhaseOf(p, s, Publish(Rollover)) == Done && PhaseOf(p, s, Publish(Session)) == Done;
    forall side | side in Sides(p)
      ensures PhaseOf(p, s, Publish(Authority(side))) == Done && PhaseOf(p, s, Consume(side)) == Done
    {
      SideMoves(p, side);
    }
    InstalledCommits(p, s);
  }

  lemma UndoneCommits(p: Plan, s: State)
    requires Undone(p, s)
    ensures CommittedAs(p, s.disk, T.RolledBack) && !CommittedAs(p, s.disk, T.Resumed)
  {
    hide InStage;
    assert Tree(p, Rollover) && forall side :: side in Sides(p) ==> Tree(p, Authority(side));
  }

  /** The records of a preparation whose candidates were staged: from then on the root's identity is recorded. */
  function Described(p: Plan, d: Disk, transaction: string, manifested: bool, empty: bool): T.Plan {
    T.Plan(transaction, if p.kind == Root then T.RootKind else T.IntermediateKind, true, o => CommittedAs(p, Cleaned(d), o),
           manifested, empty)
  }

  /** The state agrees with the outcome that is about to be committed. */
  ghost predicate Earned(p: Plan, s: State, o: T.Outcome) {
    match o
    case Resumed => Installed(p, s)
    case RolledBack => Undone(p, s)
  }

  lemma EarnedValidates(p: Plan, s: State, o: T.Outcome, transaction: string, manifested: bool, empty: bool)
    requires Earned(p, s, o)
    ensures forall x :: T.Validates(Described(p, s.disk, transaction, manifested, empty), x) <==> x == o
  {
    hide Installed, Undone, CommittedAs, Cleaned;
    match o {
      case Resumed => InstalledCommits(p, s);
      case RolledBack => UndoneCommits(p, s);
    }
    CleaningKeeps(p, s.disk, T.Resumed);
    CleaningKeeps(p, s.disk, T.RolledBack);
  }

  /**
   After a recovery that went through: its terminal run commits with its first write, every later recovery keeps the
   outcome, and one that is neither killed nor for another transaction or action always closes the preparation.
  */
  lemma EarnedCloses(p: Plan, s: State, o: T.Outcome, transaction: string, manifested: bool, empty: bool,
                     c: T.Control, first: nat, commands: seq<T.Command>, last: nat)
    requires Earned(p, s, o) && T.Young(c) && c.journal.Some? && first > 0 && last >= |T.FINISH|
    requires T.Removable(Described(p, s.disk, transaction, manifested, empty), c)
    ensures var described := Described(p, s.disk, transaction, manifested, empty);
            var e := T.Finish(described, c, T.ActionOf(o), o, first);
            var d := T.Recovers(described, e.control, commands);
            var r := T.Recover(described, d, transaction, T.ActionOf(o), last);
            && e.status != T.Died && T.Committed(described, d, o)
            && T.Closed(r.control) && (r.status == T.Finished <==> !T.Closed(d))
            && (forall other :: other != T.ActionOf(o) ==> T.Recover(described, d, transaction, other, last) == T.Run(d, T.Died))
  {
    hide Earned, T.Writes, T.Committed, T.Removable, T.Young, T.Recovers, T.Validates, T.Recover, T.Closed, CommittedAs, Cleaned;
    var described := Described(p, s.disk, transaction, manifested, empty);
    EarnedValidates(p, s, o, transaction, manifested, empty);
    T.FinishCommits(described, c, T.ActionOf(o), o, first);
    var e := T.Finish(described, c, T.ActionOf(o), o, first);
    T.OutcomeIsFinal(described, e.control, o, commands, last);
    var d := T.Recovers(described, e.control, commands);
    if T.Closed(d) { T.RecoverKeeps(described, d, o, transaction, T.ActionOf(o), last); }
  }

  /** After any history, a recovery that goes through earns its outcome. */
  lemma RecoveriesEarn(p: Plan, s: State, cut: nat, history: seq<Command>, fuel: nat)
    requires WellFormed(p) && Ready(p, s) && fuel >= 3 * |Undos(p)| && fuel >= 3 * |ResumeMoves(p)|
    ensures var t := Replay(p, RunForward(p, s, cut).state, history);
            && (RunResume(p, t, fuel).status == Running ==> Earned(p, RunResume(p, t, fuel).state, T.Resumed))
            && (RunRollback(p, t, fuel).status == Running ==> Earned(p, RunRollback(p, t, fuel).state, T.RolledBack))
  {
    hide Undos, ResumeMoves, RunForward, Ready, WellFormed, RunResume, RunRollback, ResumeAllowed, RollbackAllowed, Undone, FileResumed, PointerLost, InPlace;
    LastResume(p, s, cut, history, fuel);
    LastRollback(p, s, cut, history, fuel);
  }
}
