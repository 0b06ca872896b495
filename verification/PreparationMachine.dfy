/**
 The preparation's commands as they change the disk and the journal in place, one write at a time.
 Each leaves exactly the state of its run, so the theorems about runs are theorems about them.
*/
module PreparationMachine {
  import opened Options
  import opened PreparationModel
  import opened PreparationRollback

  class Machine {
    const plan: Plan
    var disk: Disk
    var journal: Journal
    var clock: nat
    var fuel: nat

    constructor (plan: Plan, state: State)
      ensures this.plan == plan && Current() == state
    {
      this.plan, disk, journal, clock, fuel := plan, state.disk, state.journal, state.clock, 0;
    }

    function Current(): State
      reads this
    {
      State(disk, journal, clock)
    }

    /** `_Journal.checkpoint` of a publishing move. */
    method Note(who: Who, m: Move, done: bool) returns (status: Status)
      modifies this`journal, this`fuel
      ensures if old(fuel) == 0 then status == Crashed && Current() == old(Current()) && fuel == 0
              else status == Running && Current() == Checkpoint(old(Current()), who, m, done) && fuel == old(fuel) - 1
    {
      if fuel == 0 { return Crashed; }
      journal := journal.(step := At(who, m, done));
      if who == Resuming { journal := journal.(action := Some(Resume)); }
      fuel := fuel - 1;
      return Running;
    }

    method Rename(from: Place, to: Place)
      requires from in disk
      modifies this`disk, this`clock
      ensures Current() == Renamed(old(Current()), from, to)
    {
      var obj := disk[from];
      disk := disk - {from};
      disk := disk[to := obj.(stamp := clock)];
      clock := clock + 1;
    }

    method Apply(who: Who, m: Move) returns (status: Status)
      modifies this`disk, this`clock, this`fuel
      ensures if !Possible(plan, old(Current()), who, m) then status == Died && Current() == old(Current()) && fuel == old(fuel)
              else if old(fuel) == 0 then status == Crashed && Current() == old(Current()) && fuel == 0
              else status == Running && Current() == Effect(plan, old(Current()), who, m) && fuel == old(fuel) - 1
    {
      if !Possible(plan, Current(), who, m) { return Died; }
      if fuel == 0 { return Crashed; }
      match m {
        case Publish(slot) => Rename(Staged(slot), Final(slot));
        case Reserve(side) => Rename(Reserving(side), Final(Reservation(side)));
        case Update(k) => Rename(Staged(Database(k)), Final(Database(k)));
        case Consume(side) => Rename(Staged(Reservation(side)), Final(Reservation(side)));
        case Discard => disk := WithoutSigning(plan, disk);
      }
      fuel := fuel - 1;
      return Running;
    }

    /** One move: adopted, skipped, or carried out between its two checkpoints. */
    method Move(start: Journal, who: Who, m: Move) returns (status: Status)
      modifies this`disk, this`journal, this`clock, this`fuel
      ensures PreparationModel.Run(Current(), fuel, status) == RunMove(plan, start, old(Current()), who, m, old(fuel))
    {
      hide Due, Adopts, Possible;
      if Adopts(plan, start, Current(), who, m) {
        if fuel == 0 { return Crashed; }
        Record(m);
        status := Note(who, m, true);
        return;
      }
      if !Due(plan, start, Current(), who, m) { return Running; }
      status := Note(who, m, false);
      if status != Running { return; }
      status := Apply(who, m);
      if status != Running { return; }
      if fuel == 0 { return Crashed; }
      Record(m);
      status := Note(who, m, true);
    }

    /** The new identity of a database file is kept for the next checkpoint. */
    method Record(m: Move)
      modifies this`journal
      ensures Current() == Recorded(old(Current()), m)
    {
      if m.Update? && Final(Database(m.key)) in disk {
        journal := journal.(post := journal.post[m.key := disk[Final(Database(m.key))]]);
      }
    }

    method Moves(start: Journal, who: Who, ms: seq<Move>) returns (status: Status)
      modifies this`disk, this`journal, this`clock, this`fuel
      ensures PreparationModel.Run(Current(), fuel, status) == RunMoves(plan, start, old(Current()), who, ms, old(fuel))
    {
      hide RunMove;
      status := Running;
      ghost var whole := RunMoves(plan, start, Current(), who, ms, fuel);
      var i := 0;
      while i < |ms|
        invariant i <= |ms| && whole == RunMoves(plan, start, Current(), who, ms[i..], fuel)
      {
        status := Move(start, who, ms[i]);
        if status != Running { return; }
        assert ms[i..][1..] == ms[i + 1..];
        i := i + 1;
      }
      return Running;
    }

    /** The publishing run, from the `staged` checkpoint. */
    method Prepare(limit: nat) returns (status: Status)
      modifies this`disk, this`journal, this`clock, this`fuel
      ensures PreparationModel.Run(Current(), fuel, status) == RunForward(plan, old(Current()), limit)
    {
      fuel := limit;
      status := Moves(journal, Forward, ForwardMoves(plan));
    }

    method Recover(action: Action, limit: nat) returns (status: Status)
      modifies this`disk, this`journal, this`clock, this`fuel
      ensures PreparationModel.Run(Current(), fuel, status) ==
              if action == Resume then RunResume(plan, old(Current()), limit) else RunRollback(plan, old(Current()), limit)
    {
      hide ResumeAllowed, RollbackAllowed;
      fuel := limit;
      if action == Resume {
        if !ResumeAllowed(plan, Current()) { return Died; }
        status := Moves(journal, Resuming, ResumeMoves(plan));
      } else {
        if !RollbackAllowed(plan, Current()) { return Died; }
        status := Rewind(journal, Undos(plan));
      }
    }

    // -------------------------------------------------------------- rollback

    method NoteUndo(u: Undo, done: bool) returns (status: Status)
      modifies this`journal, this`fuel
      ensures if old(fuel) == 0 then status == Crashed && Current() == old(Current()) && fuel == 0
              else status == Running && Current() == UndoCheckpoint(old(Current()), u, done) && fuel == old(fuel) - 1
    {
      if fuel == 0 { return Crashed; }
      journal, fuel := journal.(step := Undoing(u, done), action := Some(Rollback)), fuel - 1;
      return Running;
    }

    method Revert(u: Undo) returns (status: Status)
      modifies this`disk, this`clock, this`fuel
      ensures if !UndoPossible(plan, old(Current()), u) then status == Died && Current() == old(Current()) && fuel == old(fuel)
              else if old(fuel) == 0 then status == Crashed && Current() == old(Current()) && fuel == 0
              else status == Running && Current() == UndoEffect(plan, old(Current()), u) && fuel == old(fuel) - 1
    {
      if !UndoPossible(plan, Current(), u) { return Died; }
      if fuel == 0 { return Crashed; }
      match u {
        case Withdraw(slot) => disk := disk - {Final(slot)};
        case Restore(k) =>
          if plan.pre(k) == None { disk := disk - {Final(Database(k))}; } else { Rename(Replica(k), Final(Database(k))); }
        case Drop(slot) =>
          if Look(disk, Final(slot)).Some? { disk := disk - {Final(slot)}; } else { disk := disk - {Staged(slot)}; }
        case DropStage => disk := WithoutStage(plan, disk);
        case Abandon(side) => Rename(Withdrawn(side), Final(Reservation(side)));
      }
      fuel := fuel - 1;
      return Running;
    }

    method RecordUndo(u: Undo)
      modifies this`journal
      ensures Current() == Rerecorded(plan, old(Current()), u)
    {
      if u.Restore? && plan.pre(u.key).Some? && Final(Database(u.key)) in disk {
        journal := journal.(restored := journal.restored[u.key := disk[Final(Database(u.key))]]);
      }
    }

    method Undo(start: Journal, u: Undo) returns (status: Status)
      modifies this`disk, this`journal, this`clock, this`fuel
      ensures PreparationModel.Run(Current(), fuel, status) == RunUndo(plan, start, old(Current()), u, old(fuel))
    {
      hide UndoDue, Readopts, UndoPossible;
      if Readopts(plan, start, Current(), u) {
        if fuel == 0 { return Crashed; }
        RecordUndo(u);
        status := NoteUndo(u, true);
        return;
      }
      if !UndoDue(plan, Current(), u) { return Running; }
      status := NoteUndo(u, false);
      if status != Running { return; }
      status := Revert(u);
      if status != Running { return; }
      if fuel == 0 { return Crashed; }
      RecordUndo(u);
      status := NoteUndo(u, true);
    }

    method Rewind(start: Journal, us: seq<Undo>) returns (status: Status)
      modifies this`disk, this`journal, this`clock, this`fuel
      ensures PreparationModel.Run(Current(), fuel, status) == RunUndos(plan, start, old(Current()), us, old(fuel))
    {
      hide RunUndo;
      status := Running;
      ghost var whole := RunUndos(plan, start, Current(), us, fuel);
      var i := 0;
      while i < |us|
        invariant i <= |us| && whole == RunUndos(plan, start, Current(), us[i..], fuel)
      {
        status := Undo(start, us[i]);
        if status != Running { return; }
        assert us[i..][1..] == us[i + 1..];
        i := i + 1;
      }
      return Running;
    }
  }
}
