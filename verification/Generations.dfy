/** Allocation of generation IDs: the next number lies above every reservation and every authority. */
module Generations {
  import opened Options

  /** `g<root>` and `g<root>-i<number>`. */
  datatype Id = RootId(root: nat) | IntermediateId(parent: nat, number: nat)

  /** A name in a directory. `claims` is the root whose `-i` prefix a malformed name begins with, if any. */
  datatype Name = Good(id: Id) | Bad(claims: Option<nat>)

  /** A directory entry; `safe` says that its kind, owner and mode are as they must be. */
  datatype Entry = Entry(name: Name, safe: bool)

  // -------------------------------------------------------------- allocation

  /** The entries of one directory that count for root generations. */
  predicate CountsForRoot(e: Entry, reservations: bool) {
    !(reservations && e.name.Good? && e.name.id.IntermediateId?)
  }

  predicate RootLegal(e: Entry) {
    e.name.Good? && e.name.id.RootId? && e.safe
  }

  predicate CountsForIntermediate(e: Entry, root: nat) {
    if e.name.Good? then e.name.id.IntermediateId? && e.name.id.parent == root else e.name.claims == Some(root)
  }

  predicate IntermediateLegal(e: Entry) {
    e.name.Good? && e.safe
  }

  ghost predicate RootsLegal(entries: seq<Entry>, reservations: bool) {
    forall e :: e in entries && CountsForRoot(e, reservations) ==> RootLegal(e)
  }

  ghost predicate IntermediatesLegal(entries: seq<Entry>, root: nat) {
    forall e :: e in entries && CountsForIntermediate(e, root) ==> IntermediateLegal(e)
  }

  ghost predicate HoldsRoot(entries: seq<Entry>, n: nat) {
    exists i :: 0 <= i < |entries| && entries[i].name == Good(RootId(n))
  }

  ghost predicate HoldsIntermediate(entries: seq<Entry>, root: nat, n: nat) {
    exists i :: 0 <= i < |entries| && entries[i].name == Good(IntermediateId(root, n))
  }

  /** The highest root number of one directory, carried over from `maximum`; none if the directory is unsafe. */
  method HighestRoot(entries: seq<Entry>, reservations: bool, maximum: nat) returns (highest: Option<nat>)
    ensures highest.Some? <==> RootsLegal(entries, reservations)
    ensures highest.Some? ==>
              && highest.value >= maximum
              && (forall n: nat :: HoldsRoot(entries, n) ==> n <= highest.value)
              && (highest.value == maximum || HoldsRoot(entries, highest.value))
  {
    var running := maximum;
    for i := 0 to |entries|
      invariant running >= maximum
      invariant forall j :: 0 <= j < i && CountsForRoot(entries[j], reservations) ==>
                  RootLegal(entries[j]) && entries[j].name.id.root <= running
      invariant running == maximum || HoldsRoot(entries, running)
    {
      var e := entries[i];
      if CountsForRoot(e, reservations) {
        if !RootLegal(e) { return None; }
        if e.name.id.root > running {
          running := e.name.id.root;
          assert entries[i].name == Good(RootId(running));
        }
      }
    }
    return Some(running);
  }

  method HighestIntermediate(entries: seq<Entry>, root: nat, maximum: nat) returns (highest: Option<nat>)
    ensures highest.Some? <==> IntermediatesLegal(entries, root)
    ensures highest.Some? ==>
              && highest.value >= maximum
              && (forall n: nat :: HoldsIntermediate(entries, root, n) ==> n <= highest.value)
              && (highest.value == maximum || HoldsIntermediate(entries, root, highest.value))
  {
    var running := maximum;
    for i := 0 to |entries|
      invariant running >= maximum
      invariant forall j :: 0 <= j < i && CountsForIntermediate(entries[j], root) ==>
                  IntermediateLegal(entries[j]) && entries[j].name.id.number <= running
      invariant running == maximum || HoldsIntermediate(entries, root, running)
    {
      var e := entries[i];
      if CountsForIntermediate(e, root) {
        if !IntermediateLegal(e) { return None; }
        if e.name.id.number > running {
          running := e.name.id.number;
          assert entries[i].name == Good(IntermediateId(root, running));
        }
      }
    }
    return Some(running);
  }

  /** No entry may be illegal, and the next number is the least one above every reservation and every authority. */
  ghost predicate IsNextRoot(reservations: seq<Entry>, authorities: seq<Entry>, next: Option<nat>) {
    && (next.Some? <==> RootsLegal(reservations, true) && RootsLegal(authorities, false))
    && (next.Some? ==>
          && next.value >= 1
          && (forall n: nat :: HoldsRoot(reservations, n) || HoldsRoot(authorities, n) ==> n < next.value)
          && (next.value == 1 || HoldsRoot(reservations, next.value - 1) || HoldsRoot(authorities, next.value - 1)))
  }

  ghost predicate IsNextIntermediate(reservations: seq<Entry>, authorities: seq<Entry>, root: nat, next: Option<nat>) {
    && (next.Some? <==> IntermediatesLegal(reservations, root) && IntermediatesLegal(authorities, root))
    && (next.Some? ==>
          && next.value >= 1
          && (forall n: nat :: HoldsIntermediate(reservations, root, n) || HoldsIntermediate(authorities, root, n) ==> n < next.value)
          && (next.value == 1 || HoldsIntermediate(reservations, root, next.value - 1)
              || HoldsIntermediate(authorities, root, next.value - 1)))
  }

  /** `_next_root`. */
  method NextRoot(reservations: seq<Entry>, authorities: seq<Entry>) returns (next: Option<nat>)
    ensures IsNextRoot(reservations, authorities, next)
  {
    var first := HighestRoot(reservations, true, 0);
    if first.None? { return None; }
    var second := HighestRoot(authorities, false, first.value);
    if second.None? { return None; }
    return Some(second.value + 1);
  }

  /** `_next_intermediate`. */
  method NextIntermediate(reservations: seq<Entry>, authorities: seq<Entry>, root: nat) returns (next: Option<nat>)
    ensures IsNextIntermediate(reservations, authorities, root, next)
  {
    var first := HighestIntermediate(reservations, root, 0);
    if first.None? { return None; }
    var second := HighestIntermediate(authorities, root, first.value);
    if second.None? { return None; }
    return Some(second.value + 1);
  }

  // --------------------------------------------------------------- listings

  /** The least number above all of a set: the highest plus one, or 1. */
  ghost function Above(numbers: set<nat>): (n: nat)
    ensures n >= 1 && forall x :: x in numbers ==> x < n
    ensures n == 1 || n - 1 in numbers
  {
    if numbers == {} then 1
    else
      var x :| x in numbers;
      var rest := Above(numbers - {x});
      assert forall y :: y in numbers ==> y == x || y in numbers - {x};
      if x < rest then rest else x + 1
  }

  lemma AboveUnique(numbers: set<nat>, n: nat)
    requires n >= 1 && (forall x :: x in numbers ==> x < n) && (n == 1 || n - 1 in numbers)
    ensures n == Above(numbers)
  {
  }

  function Roots(ids: set<Id>): set<nat> {
    set id | id in ids && id.RootId? :: id.root
  }

  function Numbers(ids: set<Id>, root: nat): set<nat> {
    set id | id in ids && id.IntermediateId? && id.parent == root :: id.number
  }

  /** A directory whose entries are exactly these IDs, all safe. */
  ghost predicate Lists(entries: seq<Entry>, ids: set<Id>) {
    && (forall e :: e in entries ==> e.safe && e.name.Good? && e.name.id in ids)
    && (forall id :: id in ids ==> Entry(Good(id), true) in entries)
  }

  lemma Held(entries: seq<Entry>, ids: set<Id>)
    requires Lists(entries, ids)
    ensures forall n :: HoldsRoot(entries, n) <==> RootId(n) in ids
    ensures forall r, n :: HoldsIntermediate(entries, r, n) <==> IntermediateId(r, n) in ids
  {
    forall n | RootId(n) in ids ensures HoldsRoot(entries, n) {
      var i :| 0 <= i < |entries| && entries[i] == Entry(Good(RootId(n)), true);
    }
    forall r, n | IntermediateId(r, n) in ids ensures HoldsIntermediate(entries, r, n) {
      var i :| 0 <= i < |entries| && entries[i] == Entry(Good(IntermediateId(r, n)), true);
    }
  }

  /** On directories that list what is reserved and what exists, the next number is the one above all of them. */
  lemma NextRootIsAbove(reservations: seq<Entry>, authorities: seq<Entry>, reserved: set<Id>, roots: set<Id>, next: nat)
    requires Lists(reservations, reserved) && Lists(authorities, roots) && forall id :: id in roots ==> id.RootId?
    ensures IsNextRoot(reservations, authorities, Some(next)) <==> next == Above(Roots(reserved + roots))
  {
    Held(reservations, reserved);
    Held(authorities, roots);
    forall n: nat ensures n in Roots(reserved + roots) <==> HoldsRoot(reservations, n) || HoldsRoot(authorities, n) {
      if RootId(n) in reserved + roots { assert RootId(n).root in Roots(reserved + roots); }
    }
    hide Lists, HoldsRoot;
    if IsNextRoot(reservations, authorities, Some(next)) { AboveUnique(Roots(reserved + roots), next); }
  }

  lemma NextIntermediateIsAbove(reservations: seq<Entry>, authorities: seq<Entry>, reserved: set<Id>, existing: set<Id>,
                                root: nat, next: nat)
    requires Lists(reservations, reserved) && Lists(authorities, existing)
    ensures IsNextIntermediate(reservations, authorities, root, Some(next)) <==> next == Above(Numbers(reserved + existing, root))
  {
    Held(reservations, reserved);
    Held(authorities, existing);
    forall n: nat
      ensures n in Numbers(reserved + existing, root) <==> HoldsIntermediate(reservations, root, n) || HoldsIntermediate(authorities, root, n)
    {
      if IntermediateId(root, n) in reserved + existing { assert IntermediateId(root, n).number in Numbers(reserved + existing, root); }
    }
    hide HoldsIntermediate;
    if IsNextIntermediate(reservations, authorities, root, Some(next)) { AboveUnique(Numbers(reserved + existing, root), next); }
  }
}
