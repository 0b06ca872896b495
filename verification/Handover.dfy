/**
 The numbered manifests of a transaction directory. The journal names manifest `n` alone, or `n` and the
 pending `n + 1`; a killed handover is completed by promoting the pending manifest.
*/
module Handover {
  import opened Options

  /** A manifest file: its identity and the digest of its bytes. */
  datatype File = File(id: nat, digest: nat)

  datatype Journal = Journal(sequence: nat, manifest: Option<File>, pending: Option<File>)

  /** `files` are the manifests on disk by number. `clock` gives identities to new files. */
  datatype State = State(journal: Journal, files: map<nat, File>, clock: nat)

  datatype Status = Running | Crashed | Died
  datatype Run = Run(state: State, fuel: nat, status: Status)

  datatype Write =
    | Stage(digest: nat)
    | Announce
    | Supersede
    | Settle

  /** The new manifest of a refresh is not announced before it is on disk. */
  const REFRESH_TAIL: seq<Write> := [Announce, Supersede, Settle]

  predicate Possible(s: State, w: Write) {
    match w
    case Stage(_) => s.journal.sequence + 1 !in s.files
    case Announce => s.journal.sequence + 1 in s.files
    case Supersede =>
      s.journal.manifest.None?
      || s.journal.sequence !in s.files || s.files[s.journal.sequence] == s.journal.manifest.value
    case Settle => s.journal.pending.Some?
  }

  /** `_remove_manifest_path` leaves an absent manifest alone. */
  function Perform(s: State, w: Write): State
    requires Possible(s, w)
  {
    var n := s.journal.sequence;
    match w
    case Stage(digest) => s.(files := s.files[n + 1 := File(s.clock, digest)], clock := s.clock + 1)
    case Announce => s.(journal := s.journal.(pending := Some(s.files[n + 1])))
    case Supersede => if s.journal.manifest.Some? then s.(files := s.files - {n}) else s
    case Settle => s.(journal := Journal(n + 1, s.journal.pending, None))
  }

  function Writes(s: State, ws: seq<Write>, fuel: nat): Run
    decreases |ws|
  {
    if ws == [] then Run(s, fuel, Running)
    else if !Possible(s, ws[0]) then Run(s, fuel, Died)
    else if fuel == 0 then Run(s, 0, Crashed)
    else Writes(Perform(s, ws[0]), ws[1..], fuel - 1)
  }

  /** `_refresh_transaction_manifest`, for a directory whose manifest has this digest. */
  function Refresh(s: State, digest: nat, fuel: nat): Run {
    Writes(s, [Stage(digest)] + REFRESH_TAIL, fuel)
  }

  /** The refreshes of a preparation, one for every checkpoint. */
  function Refreshes(s: State, digests: seq<nat>, fuel: nat): Run
    decreases |digests|
  {
    if digests == [] then Run(s, fuel, Running)
    else
      var r := Refresh(s, digests[0], fuel);
      if r.status != Running then r else Refreshes(r.state, digests[1..], r.fuel)
  }

  /** `_promote_pending_manifest`. */
  function Promote(s: State, fuel: nat): Run {
    var n := s.journal.sequence;
    if s.journal.pending.None? then Run(s, fuel, Running)
    else if n + 1 !in s.files || s.files[n + 1] != s.journal.pending.value then Run(s, fuel, Died)
    else Writes(s, [Supersede, Settle], fuel)
  }

  function Promotions(s: State, fuels: seq<nat>): State
    decreases |fuels|
  {
    if fuels == [] then s else Promotions(Promote(s, fuels[0]).state, fuels[1..])
  }

  // --------------------------------------------------------------- invariant

  /** What the record validator demands of the manifest fields. */
  predicate Recorded(j: Journal) {
    j.manifest.None? <==> j.sequence == 0
  }

  /** The journaled manifests exist as journaled, and no other exists but one that was staged and not announced. */
  predicate Handed(s: State) {
    var n := s.journal.sequence;
    && Recorded(s.journal)
    && s.files.Keys <= {n, n + 1} && 0 !in s.files
    && match s.journal.pending
       case None => n > 0 ==> n in s.files && s.files[n] == s.journal.manifest.value
       case Some(next) =>
         && n + 1 in s.files && s.files[n + 1] == next
         && (n in s.files ==> s.journal.manifest == Some(s.files[n]))
  }

  /** Nothing is half done: exactly the journaled manifest exists. */
  predicate Settled(s: State) {
    && Handed(s) && s.journal.pending.None?
    && s.files.Keys == if s.journal.sequence == 0 then {} else {s.journal.sequence}
  }

  /** Settled, but for a manifest that was written and never announced. */
  predicate Orphaned(s: State) {
    Handed(s) && s.journal.pending.None? && s.journal.sequence + 1 in s.files
  }

  /** A refresh that is not killed hands over to the next number; one that is killed leaves a state to promote. */
  lemma RefreshHands(s: State, digest: nat, fuel: nat)
    requires Settled(s)
    ensures var r := Refresh(s, digest, fuel);
            && r.status != Died && Handed(r.state)
            && s.journal.sequence <= r.state.journal.sequence <= s.journal.sequence + 1
            && (fuel >= 4 ==> r.status == Running && r.fuel + 4 == fuel)
            && (r.status == Running ==>
                  && Settled(r.state) && r.state.journal.sequence == s.journal.sequence + 1
                  && r.state.journal.manifest == Some(File(s.clock, digest)))
  {
    var ws := [Stage(digest)] + REFRESH_TAIL;
    assert ws[1..] == REFRESH_TAIL && ws[1..][1..] == [Supersede, Settle] && ws[1..][1..][1..] == [Settle];
    var staged := Perform(s, Stage(digest));
    if fuel >= 1 {
      TailHands(s, staged, digest, fuel - 1);
    }
  }

  lemma TailHands(s: State, staged: State, digest: nat, fuel: nat)
    requires Settled(s) && staged == s.(files := s.files[s.journal.sequence + 1 := File(s.clock, digest)], clock := s.clock + 1)
    ensures var r := Writes(staged, REFRESH_TAIL, fuel);
            && r.status != Died && Handed(r.state) && Handed(staged)
            && s.journal.sequence <= r.state.journal.sequence <= s.journal.sequence + 1
            && (fuel >= 3 ==> r.status == Running && r.fuel + 3 == fuel)
            && (r.status == Running ==>
                  && Settled(r.state) && r.state.journal.sequence == s.journal.sequence + 1
                  && r.state.journal.manifest == Some(File(s.clock, digest)))
  {
    assert REFRESH_TAIL[1..] == [Supersede, Settle];
    if fuel >= 1 {
      var announced := Perform(staged, Announce);
      SettleHands(announced, fuel - 1);
    }
  }

  /** From an announced manifest on, both the refresh and the promotion do the same two writes. */
  lemma SettleHands(s: State, fuel: nat)
    requires Handed(s) && s.journal.pending.Some?
    ensures var r := Writes(s, [Supersede, Settle], fuel);
            && r.status != Died && Handed(r.state)
            && s.journal.sequence <= r.state.journal.sequence <= s.journal.sequence + 1
            && (fuel >= 2 ==> r.status == Running && r.fuel + 2 == fuel)
            && (r.status == Running ==> Settled(r.state) && r.state.journal == Journal(s.journal.sequence + 1, s.journal.pending, None))
            && (r.status == Crashed ==> r.state.journal == s.journal)
  {
    assert [Supersede, Settle][1..] == [Settle];
    if fuel >= 1 {
      var superseded := Perform(s, Supersede);
      assert Handed(superseded);
      assert [Settle][1..] == [];
    }
  }

  /** A recovery's promotion, killed or not. */
  lemma PromoteHands(s: State, fuel: nat)
    requires Handed(s)
    ensures var r := Promote(s, fuel);
            && r.status != Died && Handed(r.state)
            && (fuel >= 2 ==> r.status == Running)
            && (r.status == Running ==>
                  r.state.journal.pending.None?
                  && r.state.journal.sequence == s.journal.sequence + (if s.journal.pending.Some? then 1 else 0))
            && (r.status == Crashed ==> r.state.journal == s.journal)
            && (s.journal.pending.None? ==> r.state == s)
  {
    if s.journal.pending.Some? { SettleHands(s, fuel); }
  }

  lemma {:induction false} RefreshesHand(s: State, digests: seq<nat>, fuel: nat)
    requires Settled(s)
    ensures var r := Refreshes(s, digests, fuel);
            && r.status != Died && Handed(r.state) && (r.status == Running ==> Settled(r.state))
            && (fuel >= 4 * |digests| ==> r.status == Running && r.state.journal.sequence == s.journal.sequence + |digests|)
    decreases |digests|
  {
    hide Refresh, Handed;
    assert Handed(s);
    if digests != [] {
      RefreshHands(s, digests[0], fuel);
      var r := Refresh(s, digests[0], fuel);
      if r.status == Running { RefreshesHand(r.state, digests[1..], r.fuel); }
    }
  }

  lemma {:induction false} PromotionsHand(s: State, fuels: seq<nat>)
    requires Handed(s)
    ensures var t := Promotions(s, fuels);
            && Handed(t) && s.journal.sequence <= t.journal.sequence
            && t.journal.sequence + (if t.journal.pending.Some? then 1 else 0)
               == s.journal.sequence + (if s.journal.pending.Some? then 1 else 0)
    decreases |fuels|
  {
    hide Promote, Handed;
    if fuels != [] {
      PromoteHands(s, fuels[0]);
      PromotionStep(s, fuels[0]);
      PromotionsHand(Promote(s, fuels[0]).state, fuels[1..]);
    }
  }

  lemma PromotionStep(s: State, fuel: nat)
    requires Handed(s)
    ensures var t := Promote(s, fuel).state;
            && s.journal.sequence <= t.journal.sequence
            && t.journal.sequence + (if t.journal.pending.Some? then 1 else 0)
               == s.journal.sequence + (if s.journal.pending.Some? then 1 else 0)
  {
    PromoteHands(s, fuel);
    if s.journal.pending.Some? { SettleHands(s, fuel); }
  }

  /**
   A preparation killed at any write of any refresh, then any number of killed promotions, then one that is
   not killed: it leaves one journaled manifest that exists with the journaled identity and digest, and a
   number that is the one last announced.
  */
  lemma HandoverSurvives(s: State, digests: seq<nat>, cut: nat, fuels: seq<nat>, fuel: nat)
    requires Settled(s) && fuel >= 2
    ensures var killed := Refreshes(s, digests, cut).state;
            var r := Promote(Promotions(killed, fuels), fuel);
            var j := r.state.journal;
            && r.status == Running && Handed(r.state) && j.pending.None?
            && j.sequence == killed.journal.sequence + (if killed.journal.pending.Some? then 1 else 0)
            && (j.sequence > 0 ==> j.sequence in r.state.files && r.state.files[j.sequence] == j.manifest.value)
            && (forall i :: i in r.state.files ==> i == j.sequence || (i == j.sequence + 1 && Orphaned(r.state)))
  {
    hide Refreshes, Promotions, Promote;
    RefreshesHand(s, digests, cut);
    var killed := Refreshes(s, digests, cut).state;
    PromotionsHand(killed, fuels);
    PromoteHands(Promotions(killed, fuels), fuel);
  }

  // ------------------------------------------------------------------ command

  /** The journal and the manifests of one transaction, changed in place. */
  class Transaction {
    var journal: Journal
    var files: map<nat, File>
    var clock: nat
    var fuel: nat

    constructor (s: State)
      ensures Current() == s
    {
      journal, files, clock, fuel := s.journal, s.files, s.clock, 0;
    }

    function Current(): State
      reads this
    {
      State(journal, files, clock)
    }

    method Do(w: Write) returns (status: Status)
      modifies this
      ensures if !Possible(old(Current()), w) then status == Died && Current() == old(Current()) && fuel == old(fuel)
              else if old(fuel) == 0 then status == Crashed && Current() == old(Current()) && fuel == 0
              else status == Running && Current() == Perform(old(Current()), w) && fuel == old(fuel) - 1
    {
      if !Possible(Current(), w) { return Died; }
      if fuel == 0 { return Crashed; }
      match w {
        case Stage(digest) => files, clock := files[journal.sequence + 1 := File(clock, digest)], clock + 1;
        case Announce => journal := journal.(pending := Some(files[journal.sequence + 1]));
        case Supersede => if journal.manifest.Some? { files := files - {journal.sequence}; }
        case Settle => journal := Journal(journal.sequence + 1, journal.pending, None);
      }
      fuel := fuel - 1;
      return Running;
    }

    method DoAll(ws: seq<Write>) returns (status: Status)
      modifies this
      ensures Run(Current(), fuel, status) == Writes(old(Current()), ws, old(fuel))
    {
      hide Possible, Perform;
      status := Running;
      ghost var whole := Writes(Current(), ws, fuel);
      var i := 0;
      while i < |ws|
        invariant i <= |ws| && whole == Writes(Current(), ws[i..], fuel)
      {
        assert ws[i..][1..] == ws[i + 1..];
        status := Do(ws[i]);
        if status != Running { return; }
        i := i + 1;
      }
      return Running;
    }

    method RefreshManifest(digest: nat) returns (status: Status)
      modifies this
      ensures Run(Current(), fuel, status) == Refresh(old(Current()), digest, old(fuel))
    {
      status := DoAll([Stage(digest)] + REFRESH_TAIL);
    }

    method PromotePending() returns (status: Status)
      modifies this
      ensures Run(Current(), fuel, status) == Promote(old(Current()), old(fuel))
    {
      if journal.pending.None? { return Running; }
      if journal.sequence + 1 !in files || files[journal.sequence + 1] != journal.pending.value { return Died; }
      status := DoAll([Supersede, Settle]);
    }
  }
}
