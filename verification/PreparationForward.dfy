/**
 Where the publishing run may be killed: at every write but one kind a resume goes on. Between the
 rename of a root database file and its checkpoint, no recovery ever does.
*/
module PreparationForward {
  import opened Options
  import opened PreparationModel
  import opened PreparationResume

  /** Nothing to do: the signing run produced no such file. */
  predicate Inert(p: Plan, m: Move) {
    m.Update? && p.source(m.key) == None
  }

  /** Every staged file and every copy is older than the next rename. */
  predicate Young(p: Plan, s: State) {
    forall k :: k in Keys(p) ==>
      && (p.source(k).Some? ==> p.source(k).value.stamp < s.clock)
      && (p.replica(k).Some? ==> p.replica(k).value.stamp < s.clock)
  }

  function Before(p: Plan): nat { 1 + |Reserves(p)| }

  /** The publishing run before its move `i` of the resume's list, which starts with what staging has published. */
  ghost predicate ForwardAt(p: Plan, s: State, i: nat) {
    var ms := ResumeMoves(p);
    && Before(p) <= i <= |ms| && Sound(p, s, ms) && DoneBefore(p, s, ms, i) && Young(p, s) && s.journal.restored == map[]
    && forall j :: i <= j < |ms| ==> PhaseOf(p, s, ms[j]) == if Inert(p, ms[j]) then Done else Todo
  }

  /** The `staged` checkpoint. */
  ghost predicate Ready(p: Plan, s: State) {
    ForwardAt(p, s, Before(p)) && s.journal.step == Prepared && s.journal.post == map[]
  }

  /** Killed between a database rename and its checkpoint: what a caller sees of it. */
  predicate Stranded(p: Plan, s: State, k: Key) {
    && k in Keys(p) && s.journal.step == At(Forward, Update(k), false)
    && SameState(Look(s.disk, Final(Database(k))), p.source(k))
  }

  ghost predicate Cut(p: Plan, s: State) {
    exists k :: Stranded(p, s, k)
  }

  /** The stranded file bears a change time that no journaled identity has. */
  ghost predicate StrandedFresh(p: Plan, s: State, k: Key) {
    && Stranded(p, s, k) && p.source(k).Some? && k !in s.journal.post && s.journal.restored == map[]
    && s.disk[Final(Database(k))] != p.source(k).value
    && Evidence(p, s.disk) && Look(s.disk, Final(Pointer)) == None
  }

  lemma ForwardSuffix(p: Plan)
    ensures Before(p) <= |ResumeMoves(p)| && ResumeMoves(p)[Before(p)..] == ForwardMoves(p)
  {
  }

  lemma MovesDistinct(p: Plan, i: nat, j: nat)
    requires WellFormed(p) && Before(p) <= i < j < |ResumeMoves(p)|
    ensures ResumeMoves(p)[i] != ResumeMoves(p)[j]
  {
    hide ResumeMoves, Keys;
    if ResumeMoves(p)[i].Update? && ResumeMoves(p)[i] == ResumeMoves(p)[j] {
      UpdateOnce(p, i, j);
    } else {
      PartOf(p, i);
      PartOf(p, j);
    }
  }

  lemma ForwardDue(p: Plan, start: Journal, s: State, m: Move)
    requires !m.Reserve? && PhaseOf(p, s, m) == if Inert(p, m) then Done else Todo
    ensures Due(p, start, s, Forward, m) <==> !Inert(p, m)
    ensures !Adopts(p, start, s, Forward, m)
  {
  }

  lemma NoReserve(p: Plan, i: nat)
    requires Before(p) <= i < |ResumeMoves(p)|
    ensures !ResumeMoves(p)[i].Reserve?
  {
    ForwardSuffix(p);
    MovesSane(p);
    assert ResumeMoves(p)[i] == ForwardMoves(p)[i - Before(p)];
  }

  lemma OthersAhead(p: Plan, s: State, t: State, i: nat)
    requires WellFormed(p) && ForwardAt(p, s, i) && i < |ResumeMoves(p)| && Sound(p, t, ResumeMoves(p)) && Young(p, t)
    requires t.journal.restored == map[]
    requires forall o :: o in ResumeMoves(p) && o != ResumeMoves(p)[i] ==> PhaseOf(p, t, o) == PhaseOf(p, s, o)
    requires PhaseOf(p, t, ResumeMoves(p)[i]) == Done
    ensures ForwardAt(p, t, i + 1)
  {
    hide ResumeMoves, PhaseOf, Evidence, Inert, Young;
    var ms := ResumeMoves(p);
    forall j | i + 1 <= j < |ms| ensures PhaseOf(p, t, ms[j]) == if Inert(p, ms[j]) then Done else Todo { MovesDistinct(p, i, j); }
    forall j | 0 <= j < i + 1 ensures PhaseOf(p, t, ms[j]) == Done {
      if ms[j] != ms[i] { assert PhaseOf(p, s, ms[j]) == Done; }
    }
  }

  /** Between moves nothing is stranded. */
  lemma BetweenSettled(p: Plan, s: State, i: nat)
    requires ForwardAt(p, s, i)
    ensures Settled(p, s, ResumeMoves(p)) && Resumable(p, s)
  {
    hide ResumeMoves, PhaseOf, Evidence, Inert, Young;
    var ms := ResumeMoves(p);
    forall m | m in ms ensures PhaseOf(p, s, m) != Unrecorded {
      var j :| 0 <= j < |ms| && ms[j] == m;
    }
    SettledIsResumable(p, s);
  }

  lemma SettledNotStranded(p: Plan, s: State, k: Key)
    requires k in Keys(p) && Update(k) in ResumeMoves(p) && Sound(p, s, ResumeMoves(p)) && WellFormed(p)
    requires PhaseOf(p, s, Update(k)) == Todo
    ensures !Stranded(p, s, k)
  {
    hide ResumeMoves;
    assert KeyWellFormed(p, k);
  }

  /** The parts of one move of the publishing run that is not inert. */
  lemma ForwardStep(p: Plan, s: State, i: nat)
    requires WellFormed(p) && i < |ResumeMoves(p)| && ForwardAt(p, s, i) && !Inert(p, ResumeMoves(p)[i])
    ensures var m := ResumeMoves(p)[i];
            var pending := Checkpoint(s, Forward, m, false);
            && ForwardAt(p, pending, i) && Possible(p, pending, Forward, m) && !Cut(p, pending)
            && var moved := Effect(p, pending, Forward, m);
               && (m.Update? ==> StrandedFresh(p, moved, m.key))
               && (!m.Update? ==> ForwardAt(p, moved, i + 1) && !Cut(p, moved))
               && ForwardAt(p, Checkpoint(Recorded(moved, m), Forward, m, true), i + 1)
  {
    hide ResumeMoves, PhaseOf, Effect, Possible, Evidence, Emptied, Recorded, Young, Stranded, StrandedFresh;
    var ms, m := ResumeMoves(p), ResumeMoves(p)[i];
    MovesSane(p);
    NoReserve(p, i);
    var pending := Checkpoint(s, Forward, m, false);
    forall o ensures PhaseOf(p, pending, o) == PhaseOf(p, s, o) { CheckpointKeeps(p, s, Forward, m, false, o); }
    YoungGrows(p, s, pending);
    if m == Discard { DoneEmpties(p, pending, i); }
    EffectStep(p, pending, Forward, ms, m);
    var moved := Effect(p, pending, Forward, m);
    EffectClock(p, pending, m);
    YoungGrows(p, pending, moved);
    PendingNotCut(p, pending, m, i);
    if m.Update? {
      InPlan(p, m);
      PointerAhead(p, pending, i);
      UpdateStrands(p, pending, m);
    } else {
      OthersAhead(p, pending, moved, i);
      NotUpdateNotCut(p, moved, m);
    }
    TodoSourced(p, s, m);
    RecordStep(p, moved, ms, m);
    var recorded := Recorded(moved, m);
    var t := Checkpoint(recorded, Forward, m, true);
    forall o ensures PhaseOf(p, t, o) == PhaseOf(p, recorded, o) { CheckpointKeeps(p, recorded, Forward, m, true, o); }
    RecordedClock(moved, m);
    YoungGrows(p, moved, t);
    OthersAhead(p, pending, t, i);
  }

  lemma YoungGrows(p: Plan, s: State, t: State)
    requires Young(p, s) && t.clock >= s.clock
    ensures Young(p, t)
  {
  }

  lemma EffectClock(p: Plan, s: State, m: Move)
    requires Possible(p, s, Forward, m)
    ensures Effect(p, s, Forward, m).clock >= s.clock
  {
  }

  lemma RecordedClock(s: State, m: Move)
    ensures Recorded(s, m).clock == s.clock && Recorded(s, m).journal.restored == s.journal.restored
  {
  }

  lemma PendingNotCut(p: Plan, s: State, m: Move, i: nat)
    requires WellFormed(p) && ForwardAt(p, s, i) && i < |ResumeMoves(p)| && ResumeMoves(p)[i] == m
    requires s.journal.step == At(Forward, m, false) && PhaseOf(p, s, m) == Todo
    ensures !Cut(p, s)
  {
    hide ResumeMoves, PhaseOf, Evidence, Young;
    forall k | Stranded(p, s, k) ensures false { SettledNotStranded(p, s, k); }
  }

  lemma NotUpdateNotCut(p: Plan, s: State, m: Move)
    requires s.journal.step == At(Forward, m, false) && !m.Update?
    ensures !Cut(p, s)
  {
  }

  lemma UpdateStrands(p: Plan, s: State, m: Move)
    requires m.Update? && m.key in Keys(p) && PhaseOf(p, s, m) == Todo && Young(p, s) && s.journal.restored == map[]
    requires s.journal.step == At(Forward, m, false) && Look(s.disk, Final(Pointer)) == None
    requires Possible(p, s, Forward, m) && Evidence(p, Effect(p, s, Forward, m).disk)
    ensures StrandedFresh(p, Effect(p, s, Forward, m), m.key)
  {
    hide Evidence;
  }

  /** The pointer is published last. */
  lemma PointerAhead(p: Plan, s: State, i: nat)
    requires ForwardAt(p, s, i) && i < |ResumeMoves(p)|
    ensures Look(s.disk, Final(Pointer)) == None
  {
    hide Evidence, Young;
    var ms := ResumeMoves(p);
    assert ms[|ms| - 1] == Publish(Pointer);
    assert PhaseOf(p, s, ms[|ms| - 1]) == Todo;
  }

  // -------------------------------------------------------------------- runs

  lemma PastTheLast(p: Plan, s: State)
    requires ForwardAt(p, s, |ResumeMoves(p)|)
    ensures Complete(p, s)
  {
    hide ResumeMoves, PhaseOf;
  }

  lemma InertPasses(p: Plan, s: State, i: nat)
    requires i < |ResumeMoves(p)| && ForwardAt(p, s, i) && Inert(p, ResumeMoves(p)[i])
    ensures ForwardAt(p, s, i + 1)
  {
    hide ResumeMoves, PhaseOf, Evidence, Young;
  }

  /** What a kill of the publishing run leaves: a resumable state, or a stranded file. */
  ghost predicate Left(p: Plan, s: State) {
    || (Resumable(p, s) && Settled(p, s, ResumeMoves(p)) && !Cut(p, s) && exists i :: ForwardAt(p, s, i))
    || (exists k :: k in Keys(p) && StrandedFresh(p, s, k))
  }

  lemma AtIsLeft(p: Plan, s: State, i: nat)
    requires ForwardAt(p, s, i) && !Cut(p, s)
    ensures Left(p, s)
  {
    hide ForwardAt, Resumable, Cut, StrandedFresh, Settled, ResumeMoves;
    BetweenSettled(p, s, i);
  }

  lemma {:induction false} ForwardRuns(p: Plan, start: Journal, s: State, i: nat, fuel: nat)
    requires WellFormed(p) && ForwardAt(p, s, i) && !Cut(p, s)
    ensures var r := RunMoves(p, start, s, Forward, ResumeMoves(p)[i..], fuel);
            && r.status != Died && Left(p, r.state)
            && (r.status == Running ==> Complete(p, r.state))
            && (fuel >= 3 * (|ResumeMoves(p)| - i) ==> r.status == Running)
    decreases |ResumeMoves(p)| - i
  {
    hide ResumeMoves, PhaseOf, ForwardAt, Cut, Left, Due, Adopts, Possible, Effect, Recorded, Inert, Resumable, StrandedFresh, Complete;
    var ms := ResumeMoves(p);
    AtIsLeft(p, s, i);
    AtBounds(p, s, i);
    if i == |ms| {
      PastTheLast(p, s);
    } else {
      var m := ms[i];
      AtPhase(p, s, i);
      ForwardDue(p, start, s, m);
      assert ms[i..][1..] == ms[i + 1..];
      if Inert(p, m) {
        InertPasses(p, s, i);
        ForwardRuns(p, start, s, i + 1, fuel);
      } else {
        ForwardStep(p, s, i);
        var pending := Checkpoint(s, Forward, m, false);
        AtIsLeft(p, pending, i);
        var moved := Effect(p, pending, Forward, m);
        if m.Update? { StrandedIsLeft(p, moved, m.key); } else { AtIsLeft(p, moved, i + 1); }
        if fuel >= 3 {
          var t := Checkpoint(Recorded(moved, m), Forward, m, true);
          DoneNotCut(p, Recorded(moved, m), m);
          ForwardRuns(p, start, t, i + 1, fuel - 3);
        }
      }
    }
  }

  lemma AtBounds(p: Plan, s: State, i: nat)
    requires ForwardAt(p, s, i)
    ensures i <= |ResumeMoves(p)|
  {
    hide ResumeMoves;
  }

  lemma AtPhase(p: Plan, s: State, i: nat)
    requires ForwardAt(p, s, i) && i < |ResumeMoves(p)|
    ensures !ResumeMoves(p)[i].Reserve?
    ensures PhaseOf(p, s, ResumeMoves(p)[i]) == if Inert(p, ResumeMoves(p)[i]) then Done else Todo
  {
    hide PhaseOf, Inert;
    NoReserve(p, i);
  }

  lemma StrandedIsLeft(p: Plan, s: State, k: Key)
    requires StrandedFresh(p, s, k)
    ensures Left(p, s)
  {
    hide Resumable, Cut;
  }

  lemma DoneNotCut(p: Plan, s: State, m: Move)
    ensures !Cut(p, Checkpoint(s, Forward, m, true))
  {
  }

  /** A stranded file is in no journaled state: no recovery gets past its first checks. */
  lemma StrandedRefused(p: Plan, s: State, k: Key, action: Action)
    requires WellFormed(p) && k in Keys(p) && StrandedFresh(p, s, k)
    ensures !DatabaseAllowed(p, s, action, k)
    ensures !ResumeAllowed(p, s)
  {
    assert KeyWellFormed(p, k);
  }

  lemma ReadyAt(p: Plan, s: State)
    requires Ready(p, s)
    ensures ForwardAt(p, s, Before(p)) && !Cut(p, s)
  {
  }

  lemma ForwardCuts(p: Plan, s: State, fuel: nat)
    requires WellFormed(p) && Ready(p, s)
    ensures var r := RunForward(p, s, fuel);
            && r.status != Died && Left(p, r.state)
            && (r.status == Running ==> Complete(p, r.state))
            && (fuel >= 3 * |ForwardMoves(p)| ==> r.status == Running)
  {
    hide ResumeMoves, ForwardMoves, Left, Complete, ForwardAt, Cut;
    ForwardSuffix(p);
    ReadyAt(p, s);
    ForwardRuns(p, s.journal, s, Before(p), fuel);
    assert |ResumeMoves(p)[Before(p)..]| == |ResumeMoves(p)| - Before(p);
  }

  /**
   Wherever the publishing run is killed: resumes complete exactly if it was not between the rename of
   a database file and its checkpoint.
  */
  lemma KilledRunResumes(p: Plan, s: State, cut: nat, fuels: seq<nat>, fuel: nat)
    requires WellFormed(p) && Ready(p, s) && fuel >= 3 * |ResumeMoves(p)|
    ensures var t := RunForward(p, s, cut).state;
            var r := RunResume(p, Resumes(p, t, fuels), fuel);
            && (r.status == Running <==> !Cut(p, t))
            && (!Cut(p, t) ==> Complete(p, r.state) && Stands(p, t, r.state))
            && (Cut(p, t) ==> r.status == Died && r.state == t)
  {
    hide ResumeMoves, RunForward, Resumable, Complete, Stands, Ready, Cut, StrandedFresh, ResumeAllowed, RunMoves, WellFormed;
    ForwardCuts(p, s, cut);
    var t := RunForward(p, s, cut).state;
    if !Cut(p, t) {
      assert Resumable(p, t) by { LeftUncut(p, t); }
      ResumesComplete(p, t, fuels, fuel);
    } else {
      var k := CutStrands(p, t);
      StrandedRefused(p, t, k, Resume);
      RefusedForEver(p, t, fuels);
    }
  }

  lemma LeftUncut(p: Plan, s: State)
    requires Left(p, s) && !Cut(p, s)
    ensures Resumable(p, s) && Settled(p, s, ResumeMoves(p))
  {
    hide Resumable, Stranded;
    forall k | k in Keys(p) && StrandedFresh(p, s, k) ensures false { }
  }

  lemma CutStrands(p: Plan, s: State) returns (k: Key)
    requires Left(p, s) && Cut(p, s)
    ensures k in Keys(p) && StrandedFresh(p, s, k)
  {
    hide Resumable, Stranded;
    k :| k in Keys(p) && StrandedFresh(p, s, k);
  }

  lemma {:induction false} RefusedForEver(p: Plan, s: State, fuels: seq<nat>)
    requires !ResumeAllowed(p, s)
    ensures Resumes(p, s, fuels) == s
    decreases |fuels|
  {
    hide ResumeAllowed;
    if fuels != [] { RefusedForEver(p, s, fuels[1..]); }
  }

  /** The window exists for every published file: two writes into its move, the run is stranded there. */
  lemma WindowOpens(p: Plan, start: Journal, s: State, i: nat)
    requires WellFormed(p) && i < |ResumeMoves(p)| && ForwardAt(p, s, i)
    requires ResumeMoves(p)[i].Update? && !Inert(p, ResumeMoves(p)[i])
    ensures Cut(p, RunMoves(p, start, s, Forward, ResumeMoves(p)[i..], 2).state)
  {
    hide ResumeMoves, ForwardAt, Due, Adopts, Possible, Effect, Recorded, Inert, PhaseOf, StrandedFresh;
    var ms, m := ResumeMoves(p), ResumeMoves(p)[i];
    AtPhase(p, s, i);
    ForwardDue(p, start, s, m);
    ForwardStep(p, s, i);
    var moved := Effect(p, Checkpoint(s, Forward, m, false), Forward, m);
    assert StrandedFresh(p, moved, m.key);
    assert Stranded(p, moved, m.key) by { StrandedFreshly(p, moved, m.key); }
  }

  lemma StrandedFreshly(p: Plan, s: State, k: Key)
    requires StrandedFresh(p, s, k)
    ensures Stranded(p, s, k)
  {
  }

  // ------------------------------------------------------------ a preparation

  function SomeInode(slot: Slot): nat {
    match slot
    case Session => 1
    case Authority(_) => 2
    case Database(_) => 3
    case Reservation(_) => 4
    case Signing => 5
    case Rollover => 6
    case Pointer => 7
  }

  /** An intermediate preparation that replaces one database file and adds another. */
  function SomePlan(): Plan {
    Plan(Intermediate, ["index", "newcert"], 30, SomeInode, _ => 8, _ => 9,
         k => if k == "index" then Some(Obj(20, 0)) else None,
         k => if k == "index" then Some(Obj(21, 1)) else Some(Obj(22, 1)),
         k => if k == "index" then Some(Obj(23, 1)) else None)
  }

  function SomeState(): State {
    State(map[Stage := Obj(30, 0), Final(Session) := Obj(1, 0), Final(Reservation(Intermediate)) := Obj(8, 0),
              Withdrawn(Intermediate) := Obj(9, 0), Staged(Reservation(Intermediate)) := Obj(4, 0),
              Staged(Authority(Intermediate)) := Obj(2, 0), Staged(Signing) := Obj(5, 0),
              Staged(Rollover) := Obj(6, 0), Staged(Pointer) := Obj(7, 0),
              Staged(Database("index")) := Obj(21, 1), Staged(Database("newcert")) := Obj(22, 1),
              Final(Database("index")) := Obj(20, 0), Replica("index") := Obj(23, 1)],
          Journal(Prepared, None, map[], map[]), 2)
  }

  function SomeMoves(): seq<Move> {
    [Publish(Session), Reserve(Intermediate), Publish(Authority(Intermediate)), Update("index"), Update("newcert"),
     Consume(Intermediate), Discard, Publish(Rollover), Publish(Pointer)]
  }

  lemma SomeMovesAre()
    ensures ResumeMoves(SomePlan()) == SomeMoves() && Before(SomePlan()) == 2
  {
    assert Updates(["index", "newcert"]) == [Update("index"), Update("newcert")];
  }

  function SomePhase(m: Move): Phase {
    if m == Publish(Session) || m == Reserve(Intermediate) then Done else Todo
  }

  lemma SomeUpdatePhase(k: Key)
    requires k == "index" || k == "newcert"
    ensures PhaseOf(SomePlan(), SomeState(), Update(k)) == Todo && !Inert(SomePlan(), Update(k))
  {
  }

  lemma SomePublishPhase(slot: Slot)
    requires slot in {Session, Authority(Intermediate), Rollover, Pointer}
    ensures PhaseOf(SomePlan(), SomeState(), Publish(slot)) == SomePhase(Publish(slot))
  {
    hide UpdatePhase, ConsumePhase;
  }

  lemma SomeOtherPhase(m: Move)
    requires m in SomeMoves() && !m.Update?
    ensures PhaseOf(SomePlan(), SomeState(), m) == SomePhase(m)
  {
    hide UpdatePhase, PublishPhase;
    assert m in [Publish(Session), Reserve(Intermediate), Publish(Authority(Intermediate)), Consume(Intermediate), Discard,
                 Publish(Rollover), Publish(Pointer)];
    if m.Publish? { SomePublishPhase(m.slot); }
  }

  lemma SomeEvidence()
    ensures WellFormed(SomePlan()) && Evidence(SomePlan(), SomeState().disk) && Young(SomePlan(), SomeState())
  {
    hide SomeState;
    SomeCopies();
    SomeYoung();
  }

  lemma SomeCopies()
    ensures Evidence(SomePlan(), SomeState().disk)
  {
  }

  lemma SomeYoung()
    ensures Young(SomePlan(), SomeState())
  {
  }

  /** There is a preparation that the theorems speak of. */
  lemma SomePreparation()
    ensures WellFormed(SomePlan()) && Ready(SomePlan(), SomeState())
  {
    hide PhaseOf, ResumeMoves, Inert, WellFormed, Evidence, Young, Before;
    SomeMovesAre();
    SomeEvidence();
    forall m | m in SomeMoves()
      ensures PhaseOf(SomePlan(), SomeState(), m) == SomePhase(m) && !Inert(SomePlan(), m)
    {
      if m.Update? { SomeUpdatePhase(m.key); } else { SomeOtherPhase(m); NotUpdateNotInert(m); }
    }
  }

  lemma NotUpdateNotInert(m: Move)
    requires !m.Update?
    ensures !Inert(SomePlan(), m)
  {
  }
}
