/**
 The rechecks of a running migration. Before every change the process compares the managed files with the
 state that was reviewed, under logical names that do not depend on where the authorities lie, corrected by
 the identities of what it published itself.
*/
module LegacyReview {
  import opened Options
  import opened Texts

  /** A path below the managed directory, component by component. */
  type Path = seq<string>

  datatype Node = File(id: nat) | Directory(id: nat)
  type Disk = map<Path, Node>

  type View = set<(Path, Node)>

  const LEGACY_ROOT: Path := ["root-ca"]
  const LEGACY_INTERMEDIATE: Path := ["intermediate-ca"]
  const NEW_ROOT: Path := ["authorities", "roots", "g1"]
  const NEW_INTERMEDIATE: Path := ["authorities", "intermediates", "g1-i1"]
  const ACTIVE: Path := ["state", "active-issuer"]
  const QUARANTINE: seq<string> := ["pki.env", "openssl-root.cnf.tpl", "openssl-intermediate.cnf.tpl", "openssl-service.cnf.tpl"]

  /** Where the two authorities lie. */
  datatype Places = Places(root: Path, intermediate: Path)

  /** The name of a path that does not depend on where the authorities lie. */
  function Logical(at: Places, p: Path): Path {
    if at.root <= p then LEGACY_ROOT + p[|at.root|..]
    else if at.intermediate <= p then LEGACY_INTERMEDIATE + p[|at.intermediate|..]
    else p
  }

  /** `component` names a directory on the way. */
  predicate Within(p: Path, component: string) {
    p != [] && component in p[..|p| - 1]
  }

  predicate IsKey(p: Path) {
    p != [] && EndsWith(p[|p| - 1], ".key")
  }

  predicate HasWord(p: Path, word: string) {
    exists i :: 0 <= i < |p| && Contains(p[i], word)
  }

  /** Transactions and their provenance are no reviewed state. */
  predicate Transactional(p: Path) {
    || (|p| >= 3 && p[0] == "state" && p[1] == "rollover" && StartsWith(p[2], "migrate-"))
    || (|p| >= 2 && p[0] == "legacy" && (StartsWith(p[1], ".migrate-") || StartsWith(p[1], "migrate-")))
  }

  predicate Private(name: Path) {
    && !Transactional(name)
    && (Within(name, "private") || Within(name, "quarantine") || HasWord(name, "passphrase") || HasWord(name, "pass-file") || IsKey(name))
  }

  predicate Public(at: Places, p: Path) {
    || p == ACTIVE
    || ((["inventory"] <= p || at.root <= p || at.intermediate <= p || ["services"] <= p || ["export"] <= p)
        && !Within(Logical(at, p), "private") && !Within(Logical(at, p), "backups") && !IsKey(Logical(at, p)))
  }

  function PrivateView(d: Disk, at: Places): View {
    set p | p in d && d[p].File? && Private(Logical(at, p)) :: (Logical(at, p), d[p])
  }

  function PublicView(d: Disk, at: Places): View {
    set p | p in d && d[p].File? && Public(at, p) :: (Logical(at, p), d[p])
  }

  function TreeView(d: Disk, root: Path): View {
    set p | p in d && root <= p :: (p[|root|..], d[p])
  }

  /** `_expected_state`: what was reviewed, with the recorded identities put in. */
  function Expected(reviewed: View, overrides: map<Path, Node>): View {
    (set x | x in reviewed && x.0 !in overrides) + (set p | p in overrides :: (p, overrides[p]))
  }

  lemma InExpected(v: (Path, Node), reviewed: View, overrides: map<Path, Node>)
    ensures v in Expected(reviewed, overrides)
       <==> (if v.0 in overrides then v.1 == overrides[v.0] else v in reviewed)
  {
    assert v == (v.0, v.1);
  }

  // -------------------------------------------------------------------- moves

  function Rekey(from: Path, to: Path, p: Path): Path {
    if from <= p then to + p[|from|..] else p
  }

  /** Renaming a directory takes everything in it along, unchanged. */
  function MoveTree(d: Disk, from: Path, to: Path): Disk {
    map q | q in (set p | p in d :: Rekey(from, to, p)) :: if to <= q && from + q[|to|..] in d then d[from + q[|to|..]] else if q in d then d[q] else Directory(0)
  }

  /** Nothing lies where the tree is moved to. */
  predicate Vacant(d: Disk, root: Path) {
    forall p :: p in d ==> !(root <= p)
  }

  lemma MovedNode(d: Disk, from: Path, to: Path, p: Path)
    requires Vacant(d, to) && p in d
    ensures Rekey(from, to, p) in MoveTree(d, from, to) && MoveTree(d, from, to)[Rekey(from, to, p)] == d[p]
  {
    if from <= p {
      assert (to + p[|from|..])[|to|..] == p[|from|..];
      assert from + p[|from|..] == p;
    }
  }

  lemma MovedFrom(d: Disk, from: Path, to: Path, q: Path) returns (p: Path)
    requires Vacant(d, to) && q in MoveTree(d, from, to)
    ensures p in d && q == Rekey(from, to, p) && MoveTree(d, from, to)[q] == d[p]
  {
    p :| p in d && q == Rekey(from, to, p);
    MovedNode(d, from, to, p);
  }

  predicate Fits(at: Places) {
    (at.root == LEGACY_ROOT || at.root == NEW_ROOT) && (at.intermediate == LEGACY_INTERMEDIATE || at.intermediate == NEW_INTERMEDIATE)
  }

  /** A move of the root or of the intermediate authority to its generation. */
  predicate Moves(at: Places, after: Places, from: Path, to: Path) {
    && Fits(at)
    && ((from == LEGACY_ROOT && to == NEW_ROOT && at.root == from && after == at.(root := to))
        || (from == LEGACY_INTERMEDIATE && to == NEW_INTERMEDIATE && at.intermediate == from && after == at.(intermediate := to)))
  }

  /** The areas of the managed directory do not overlap: they differ in the length of a component. */
  lemma Separate(at: Places, p: Path)
    requires Fits(at)
    ensures at.root <= p ==> !(at.intermediate <= p) && !(["inventory"] <= p) && !(["services"] <= p) && !(["export"] <= p) && p != ACTIVE
    ensures at.intermediate <= p ==> !(["inventory"] <= p) && !(["services"] <= p) && !(["export"] <= p) && p != ACTIVE
  {
    assert at.root <= p ==> p[0] == at.root[0] && (|at.root| > 1 ==> p[1] == at.root[1]);
    assert at.intermediate <= p ==> p[0] == at.intermediate[0] && (|at.intermediate| > 1 ==> p[1] == at.intermediate[1]);
    assert (["inventory"] <= p ==> |p[0]| == 9) && (["services"] <= p ==> |p[0]| == 8) && (["export"] <= p ==> |p[0]| == 6);
    assert p == ACTIVE ==> |p[0]| == 5;
    assert |"root-ca"| == 7 && |"intermediate-ca"| == 15 && |"authorities"| == 11 && |"roots"| == 5 && |"intermediates"| == 13;
  }

  /** A moved file keeps its logical name, and with it its place in every view. */
  lemma NameMoves(at: Places, after: Places, from: Path, to: Path, p: Path)
    requires Moves(at, after, from, to) && !(to <= p)
    ensures Logical(after, Rekey(from, to, p)) == Logical(at, p)
    ensures Public(after, Rekey(from, to, p)) == Public(at, p)
  {
    hide Within, IsKey;
    var q := Rekey(from, to, p);
    Separate(at, p);
    Separate(after, q);
    if from <= p {
      assert q[|to|..] == p[|from|..] && to <= q;
      assert q != ACTIVE && !(["inventory"] <= q) && !(["services"] <= q) && !(["export"] <= q);
    }
  }

  lemma TreesMove(d: Disk, at: Places, after: Places, from: Path, to: Path)
    requires Moves(at, after, from, to) && Vacant(d, to)
    ensures TreeView(MoveTree(d, from, to), after.root) == TreeView(d, at.root)
    ensures TreeView(MoveTree(d, from, to), after.intermediate) == TreeView(d, at.intermediate)
  {
    TreeMoves(d, at, after, from, to, at.root, after.root);
    TreeMoves(d, at, after, from, to, at.intermediate, after.intermediate);
  }

  /** An authority's tree looks the same after either authority has moved. */
  lemma TreeMoves(d: Disk, at: Places, after: Places, from: Path, to: Path, x: Path, y: Path)
    requires Moves(at, after, from, to) && Vacant(d, to)
    requires (x == at.root && y == after.root) || (x == at.intermediate && y == after.intermediate)
    ensures TreeView(MoveTree(d, from, to), y) == TreeView(d, x)
  {
    var moved := MoveTree(d, from, to);
    forall v | v in TreeView(d, x) ensures v in TreeView(moved, y) {
      var p :| p in d && x <= p && v == (p[|x|..], d[p]);
      MovedNode(d, from, to, p);
      UnderMoves(at, after, from, to, x, y, p);
    }
    forall v | v in TreeView(moved, y) ensures v in TreeView(d, x) {
      var q :| q in moved && y <= q && v == (q[|y|..], moved[q]);
      var p := MovedFrom(d, from, to, q);
      UnderMoves(at, after, from, to, x, y, p);
    }
  }

  lemma UnderMoves(at: Places, after: Places, from: Path, to: Path, x: Path, y: Path, p: Path)
    requires Moves(at, after, from, to) && !(to <= p)
    requires (x == at.root && y == after.root) || (x == at.intermediate && y == after.intermediate)
    ensures y <= Rekey(from, to, p) <==> x <= p
    ensures x <= p ==> Rekey(from, to, p)[|y|..] == p[|x|..]
  {
    var q := Rekey(from, to, p);
    if from <= p { assert q[|to|..] == p[|from|..] && to <= q; }
    Separate(at, p);
    Separate(after, q);
  }

  /** The private and the public view are the same after either authority has moved. */
  lemma ViewsMove(d: Disk, at: Places, after: Places, from: Path, to: Path)
    requires Moves(at, after, from, to) && Vacant(d, to)
    ensures PrivateView(MoveTree(d, from, to), after) == PrivateView(d, at)
    ensures PublicView(MoveTree(d, from, to), after) == PublicView(d, at)
  {
    hide Private, Public, Logical, Rekey, MoveTree;
    var moved := MoveTree(d, from, to);
    forall p | p in d
      ensures Rekey(from, to, p) in moved && moved[Rekey(from, to, p)] == d[p]
      ensures Logical(after, Rekey(from, to, p)) == Logical(at, p) && Public(after, Rekey(from, to, p)) == Public(at, p)
    {
      MovedNode(d, from, to, p);
      NameMoves(at, after, from, to, p);
    }
    forall v ensures v in PrivateView(moved, after) <==> v in PrivateView(d, at) {
      if v in PrivateView(moved, after) {
        var q :| q in moved && moved[q].File? && Private(Logical(after, q)) && v == (Logical(after, q), moved[q]);
        var p := MovedFrom(d, from, to, q);
      }
      if v in PrivateView(d, at) {
        var p :| p in d && d[p].File? && Private(Logical(at, p)) && v == (Logical(at, p), d[p]);
        assert Rekey(from, to, p) in moved;
      }
    }
    forall v ensures v in PublicView(moved, after) <==> v in PublicView(d, at) {
      if v in PublicView(moved, after) {
        var q :| q in moved && moved[q].File? && Public(after, q) && v == (Logical(after, q), moved[q]);
        var p := MovedFrom(d, from, to, q);
      }
      if v in PublicView(d, at) {
        var p :| p in d && d[p].File? && Public(at, p) && v == (Logical(at, p), d[p]);
        assert Rekey(from, to, p) in moved;
      }
    }
  }

  // ------------------------------------------------------------ publications

  /** No path shares its logical name with a path of a moved authority. */
  predicate Clear(at: Places, p: Path) {
    (at.root == LEGACY_ROOT || !(LEGACY_ROOT <= p)) && (at.intermediate == LEGACY_INTERMEDIATE || !(LEGACY_INTERMEDIATE <= p))
  }

  predicate Named(d: Disk, at: Places) {
    forall p :: p in d ==> Clear(at, p)
  }

  lemma LogicalInjective(at: Places, p: Path, q: Path)
    requires Fits(at) && Clear(at, p) && Clear(at, q) && Logical(at, p) == Logical(at, q)
    ensures p == q
  {
    Separate(at, p);
    Separate(at, q);
    LogicalUnder(at, p);
    LogicalUnder(at, q);
    if at.root <= p { assert p == at.root + p[|at.root|..] && (LEGACY_ROOT + p[|at.root|..])[1..] == p[|at.root|..]; }
    if at.root <= q { assert q == at.root + q[|at.root|..] && (LEGACY_ROOT + q[|at.root|..])[1..] == q[|at.root|..]; }
    if at.intermediate <= p {
      assert p == at.intermediate + p[|at.intermediate|..];
      assert (LEGACY_INTERMEDIATE + p[|at.intermediate|..])[1..] == p[|at.intermediate|..];
    }
    if at.intermediate <= q {
      assert q == at.intermediate + q[|at.intermediate|..];
      assert (LEGACY_INTERMEDIATE + q[|at.intermediate|..])[1..] == q[|at.intermediate|..];
    }
  }

  /** The logical name tells which authority a path belongs to. */
  lemma LogicalUnder(at: Places, p: Path)
    requires Fits(at) && Clear(at, p)
    ensures LEGACY_ROOT <= Logical(at, p) <==> at.root <= p
    ensures !(at.root <= p) ==> (LEGACY_INTERMEDIATE <= Logical(at, p) <==> at.intermediate <= p)
    ensures at.root <= p ==> !(LEGACY_INTERMEDIATE <= Logical(at, p))
  {
    assert at.root <= p ==> Logical(at, p)[0] == "root-ca";
    assert LEGACY_INTERMEDIATE <= Logical(at, p) ==> Logical(at, p)[0] == "intermediate-ca";
    assert |"root-ca"| == 7 && |"intermediate-ca"| == 15;
  }

  /** A file put at a public path changes the public view by exactly its own logical name. */
  lemma PublicPut(d: Disk, at: Places, path: Path, node: Node)
    requires Fits(at) && Named(d, at) && Clear(at, path) && node.File?
    ensures PublicView(d[path := node], at) ==
            if Public(at, path) then Expected(PublicView(d, at), map[Logical(at, path) := node]) else PublicView(d - {path}, at)
    ensures path !in d ==> d - {path} == d
  {
    hide Public, Logical, Clear;
    var after := d[path := node];
    forall p | p in d && p != path ensures Logical(at, p) != Logical(at, path) {
      if Logical(at, p) == Logical(at, path) { LogicalInjective(at, p, path); }
    }
    var before := PublicView(d, at);
    var name := Logical(at, path);
    if Public(at, path) {
      forall v ensures v in PublicView(after, at) <==> v in Expected(before, map[name := node]) {
        InExpected(v, before, map[name := node]);
        if v in PublicView(after, at) {
          var p :| p in after && after[p].File? && Public(at, p) && v == (Logical(at, p), after[p]);
        }
        if v in Expected(before, map[name := node]) && v != (name, node) {
          var p :| p in d && d[p].File? && Public(at, p) && v == (Logical(at, p), d[p]);
          assert p in after;
        }
        if v == (name, node) { assert path in after; }
      }
    } else {
      var without := d - {path};
      forall v ensures v in PublicView(after, at) <==> v in PublicView(without, at) {
        if v in PublicView(after, at) {
          var p :| p in after && after[p].File? && Public(at, p) && v == (Logical(at, p), after[p]);
          assert p in without;
        }
        if v in PublicView(without, at) {
          var p :| p in without && without[p].File? && Public(at, p) && v == (Logical(at, p), without[p]);
          assert p in after;
        }
      }
    }
  }

  /** What no view shows may come and go. */
  predicate Unseen(at: Places, p: Path) {
    !Public(at, p) && !Private(Logical(at, p)) && !(at.root <= p) && !(at.intermediate <= p)
  }

  lemma UnseenRemoved(d: Disk, at: Places, p: Path)
    requires !Public(at, p)
    ensures PublicView(d - {p}, at) == PublicView(d, at)
  {
    hide Public, Logical;
    forall v ensures v in PublicView(d - {p}, at) <==> v in PublicView(d, at) {
      if v in PublicView(d, at) {
        var q :| q in d && d[q].File? && Public(at, q) && v == (Logical(at, q), d[q]);
        assert q in d - {p};
      }
    }
  }

  lemma PrivateRemoved(d: Disk, at: Places, p: Path)
    requires !Private(Logical(at, p))
    ensures PrivateView(d - {p}, at) == PrivateView(d, at)
  {
    hide Private, Logical;
    forall v ensures v in PrivateView(d - {p}, at) <==> v in PrivateView(d, at) {
      if v in PrivateView(d, at) {
        var q :| q in d && d[q].File? && Private(Logical(at, q)) && v == (Logical(at, q), d[q]);
        assert q in d - {p};
      }
    }
  }

  /** A file put anywhere else leaves the private view alone; at a private name it shows. */
  lemma PrivatePut(d: Disk, at: Places, path: Path, node: Node)
    requires node.File?
    ensures !Private(Logical(at, path)) ==> PrivateView(d[path := node], at) == PrivateView(d, at)
    ensures Private(Logical(at, path)) ==> (Logical(at, path), node) in PrivateView(d[path := node], at)
  {
    hide Private, Logical;
    var after := d[path := node];
    assert path in after;
    if !Private(Logical(at, path)) {
      forall v ensures v in PrivateView(after, at) <==> v in PrivateView(d, at) {
        if v in PrivateView(after, at) {
          var q :| q in after && after[q].File? && Private(Logical(at, q)) && v == (Logical(at, q), after[q]);
          assert q in d;
        }
        if v in PrivateView(d, at) {
          var q :| q in d && d[q].File? && Private(Logical(at, q)) && v == (Logical(at, q), d[q]);
          assert q in after;
        }
      }
    }
  }

  lemma TreePut(d: Disk, root: Path, path: Path, node: Node)
    ensures root <= path ==> TreeView(d[path := node], root) == Expected(TreeView(d, root), map[path[|root|..] := node])
    ensures !(root <= path) ==> TreeView(d[path := node], root) == TreeView(d, root) && TreeView(d - {path}, root) == TreeView(d, root)
  {
    var after := d[path := node];
    if root <= path {
      var name := path[|root|..];
      forall p | p in d && root <= p && p[|root|..] == name ensures p == path { assert p == root + p[|root|..] && path == root + name; }
      forall v ensures v in TreeView(after, root) <==> v in Expected(TreeView(d, root), map[name := node]) {
        InExpected(v, TreeView(d, root), map[name := node]);
        if v in TreeView(after, root) { var p :| p in after && root <= p && v == (p[|root|..], after[p]); }
        if v in Expected(TreeView(d, root), map[name := node]) && v != (name, node) {
          var p :| p in d && root <= p && v == (p[|root|..], d[p]);
          assert p in after;
        }
        if v == (name, node) { assert path in after; }
      }
    } else {
      forall v ensures v in TreeView(after, root) <==> v in TreeView(d, root) {
        if v in TreeView(after, root) { var p :| p in after && root <= p && v == (p[|root|..], after[p]); assert p in d; }
        if v in TreeView(d, root) { var p :| p in d && root <= p && v == (p[|root|..], d[p]); assert p in after; }
      }
      forall v ensures v in TreeView(d - {path}, root) <==> v in TreeView(d, root) {
        if v in TreeView(d, root) { var p :| p in d && root <= p && v == (p[|root|..], d[p]); assert p in d - {path}; }
      }
    }
  }

  lemma ExpectedTwice(reviewed: View, overrides: map<Path, Node>, name: Path, node: Node)
    ensures Expected(Expected(reviewed, overrides), map[name := node]) == Expected(reviewed, overrides[name := node])
  {
    hide Expected;
    forall v ensures v in Expected(Expected(reviewed, overrides), map[name := node]) <==> v in Expected(reviewed, overrides[name := node]) {
      InExpected(v, Expected(reviewed, overrides), map[name := node]);
      InExpected(v, reviewed, overrides);
      InExpected(v, reviewed, overrides[name := node]);
    }
  }

  // --------------------------------------------------------------- migration

  /** The reviewed disk, the services and quarantine files of the migration, and the identities that files get when published. */
  datatype Plan = Plan(transaction: string, services: seq<string>, present: seq<string>, disk: Disk, identity: Path -> nat)

  datatype Action =
    | Relocate(root: bool)
    | Configure(root: bool)
    | Issue(service: string)
    | Shelve(name: string)
    | Consume(root: bool)
    | Activate

  /** The running migration: the disk, where the authorities lie, and what it recorded of its own publications. */
  datatype Review = Review(
    disk: Disk, at: Places, rootOverrides: map<Path, Node>, intermediateOverrides: map<Path, Node>,
    publicOverrides: map<Path, Node>, shelved: set<string>)

  const LEGACY: Places := Places(LEGACY_ROOT, LEGACY_INTERMEDIATE)
  const CONFIG: Path := ["openssl.cnf"]

  function Staged(plan: Plan, name: Path): Path { ["state", "rollover", plan.transaction] + name }

  function IssuerPath(service: string): Path { ["services", service, "issuer"] }

  function ShelfPath(plan: Plan, name: string): Path { Staged(plan, ["quarantine", name]) }

  function ReservationPath(root: bool): Path { ["state", "generation-reservations", if root then "g1" else "g1-i1"] }

  /** A rename of a file, which gives it a new identity. */
  function Place(plan: Plan, d: Disk, source: Path, dest: Path): Disk {
    (d - {source})[dest := File(plan.identity(dest))]
  }

  function Start(plan: Plan): Review {
    Review(plan.disk, LEGACY, map[], map[], map[], {})
  }

  function Apply(plan: Plan, s: Review, a: Action): Review {
    match a
    case Relocate(root) =>
      if root then s.(disk := MoveTree(s.disk, LEGACY_ROOT, NEW_ROOT), at := s.at.(root := NEW_ROOT))
      else s.(disk := MoveTree(s.disk, LEGACY_INTERMEDIATE, NEW_INTERMEDIATE), at := s.at.(intermediate := NEW_INTERMEDIATE))
    case Configure(root) =>
      var dest := (if root then s.at.root else s.at.intermediate) + CONFIG;
      var node := File(plan.identity(dest));
      var t := s.(disk := Place(plan, s.disk, Staged(plan, [if root then "root-openssl.new" else "intermediate-openssl.new"]), dest),
                  publicOverrides := s.publicOverrides[(if root then LEGACY_ROOT else LEGACY_INTERMEDIATE) + CONFIG := node]);
      if root then t.(rootOverrides := s.rootOverrides[CONFIG := node])
      else t.(intermediateOverrides := s.intermediateOverrides[CONFIG := node])
    case Issue(service) =>
      var dest := IssuerPath(service);
      s.(disk := Place(plan, s.disk, Staged(plan, ["issuer-stage", service]), dest),
         publicOverrides := s.publicOverrides[dest := File(plan.identity(dest))])
    case Shelve(name) => s.(disk := Place(plan, s.disk, [name], ShelfPath(plan, name)), shelved := s.shelved + {name})
    case Consume(root) =>
      s.(disk := Place(plan, s.disk, Staged(plan, [if root then "root-consumed.publish" else "intermediate-consumed.publish"]), ReservationPath(root)))
    case Activate => s.(disk := Place(plan, s.disk, Staged(plan, ["active.publish"]), ACTIVE))
  }

  predicate ShelfAgrees(plan: Plan, s: Review) {
    forall name :: name in plan.present ==>
      if name in s.shelved then
        [name] !in s.disk && ShelfPath(plan, name) in s.disk && s.disk[ShelfPath(plan, name)] == File(plan.identity(ShelfPath(plan, name)))
      else
        [name] in s.disk && [name] in plan.disk && s.disk[[name]] == plan.disk[[name]] && ShelfPath(plan, name) !in s.disk
  }

  /** `_ReviewedState.recheck`. */
  predicate Recheck(plan: Plan, s: Review) {
    && TreeView(s.disk, s.at.root) == Expected(TreeView(plan.disk, LEGACY_ROOT), s.rootOverrides)
    && TreeView(s.disk, s.at.intermediate) == Expected(TreeView(plan.disk, LEGACY_INTERMEDIATE), s.intermediateOverrides)
    && PrivateView(s.disk, s.at) == PrivateView(plan.disk, LEGACY)
    && PublicView(s.disk, s.at) == Expected(PublicView(plan.disk, LEGACY), s.publicOverrides)
    && ShelfAgrees(plan, s)
  }

  function Issues(services: seq<string>): seq<Action> {
    if services == [] then [] else [Issue(services[0])] + Issues(services[1..])
  }

  function Shelves(names: seq<string>): seq<Action> {
    if names == [] then [] else [Shelve(names[0])] + Shelves(names[1..])
  }

  function Program(plan: Plan): seq<Action> {
    [Relocate(true), Relocate(false), Configure(true), Configure(false)]
    + (Issues(plan.services) + (Shelves(plan.present) + [Consume(true), Consume(false), Activate]))
  }

  /** Every action is preceded by a recheck; the migration goes through if all of them pass. */
  predicate Passes(plan: Plan, s: Review, actions: seq<Action>)
    decreases |actions|
  {
    actions != [] ==> Recheck(plan, s) && Passes(plan, Apply(plan, s, actions[0]), actions[1..])
  }

  function ApplyAll(plan: Plan, s: Review, actions: seq<Action>): Review
    decreases |actions|
  {
    if actions == [] then s else ApplyAll(plan, Apply(plan, s, actions[0]), actions[1..])
  }

  /** The layout that a migration starts from. */
  predicate Layout(plan: Plan) {
    && StartsWith(plan.transaction, "migrate-")
    && Vacant(plan.disk, NEW_ROOT) && Vacant(plan.disk, NEW_INTERMEDIATE)
    && (forall name :: name in plan.present ==> name in QUARANTINE && [name] in plan.disk && ShelfPath(plan, name) !in plan.disk)
    && (forall i, j :: 0 <= i < j < |plan.present| ==> plan.present[i] != plan.present[j])
    && (forall i, j :: 0 <= i < j < |plan.services| ==> plan.services[i] != plan.services[j])
    && (forall service :: service in plan.services ==> IssuerPath(service) !in plan.disk)
  }

  /** A service whose issuer manifest shows in the public view and in no other. */
  predicate Plain(service: string) {
    && service !in ["private", "backups", "quarantine"]
    && !Contains(service, "passphrase") && !Contains(service, "pass-file")
  }

  // --------------------------------------------------------------- invariant

  /** Between two actions, once both authorities have moved. */
  predicate Agreed(plan: Plan, s: Review) {
    && s.at == Places(NEW_ROOT, NEW_INTERMEDIATE) && Named(s.disk, s.at) && Recheck(plan, s)
  }

  lemma StagedUnseen(plan: Plan, at: Places, name: Path)
    requires Fits(at) && StartsWith(plan.transaction, "migrate-")
    ensures Unseen(at, Staged(plan, name)) && Clear(at, Staged(plan, name))
  {
    var p := Staged(plan, name);
    assert p[0] == "state" && p[1] == "rollover" && p[2] == plan.transaction;
    assert |"state"| == 5 && |"root-ca"| == 7 && |"intermediate-ca"| == 15 && |"authorities"| == 11 && |"inventory"| == 9
        && |"services"| == 8 && |"export"| == 6 && |"rollover"| == 8 && |"active-issuer"| == 13;
  }

  lemma ShelfNames(at: Places, name: string)
    requires Fits(at) && name in QUARANTINE
    ensures Unseen(at, [name]) && Clear(at, [name])
  {
    assert |"root-ca"| == 7 && |"intermediate-ca"| == 15 && |"authorities"| == 11 && |"inventory"| == 9 && |"services"| == 8 && |"export"| == 6;
    assert |name| in {7, 20, 28, 23} && (|name| == 7 ==> name[0] == 'p');
    WordsInShelf(name);
  }

  lemma WordsInShelf(name: string)
    requires name in QUARANTINE
    ensures !Contains(name, "passphrase") && !Contains(name, "pass-file") && !EndsWith(name, ".key")
  {
    NoH(name);
    LacksLetter(name, "passphrase", 5);
    if name == QUARANTINE[2] {
      OnlyA(name);
      NoPair(name, "pass-file");
    } else {
      NoA(name);
      LacksLetter(name, "pass-file", 1);
    }
    assert ".key"[3] == 'y' && name[|name| - 1] != 'y';
  }

  lemma NoH(name: string)
    requires name in QUARANTINE
    ensures 'h' !in name
  {
  }

  lemma NoA(name: string)
    requires name in QUARANTINE && name != QUARANTINE[2]
    ensures 'a' !in name
  {
  }

  lemma OnlyA(name: string)
    requires name == QUARANTINE[2]
    ensures forall i :: 0 <= i < |name| && name[i] == 'a' ==> i > 0 && name[i - 1] == 'i'
  {
  }

  lemma LacksLetter(text: string, word: string, k: nat)
    requires k < |word| && word[k] !in text
    ensures !Contains(text, word)
  {
    forall i | 0 <= i <= |text| && |word| <= |text| - i ensures !(word <= text[i..]) { assert text[i..][k] == text[i + k]; }
  }

  /** No `a` in the text follows a `p`. */
  lemma NoPair(text: string, word: string)
    requires |word| >= 2 && word[0] == 'p' && word[1] == 'a'
    requires forall i :: 0 <= i < |text| && text[i] == 'a' ==> i > 0 && text[i - 1] == 'i'
    ensures !Contains(text, word)
  {
    forall i | 0 <= i <= |text| && |word| <= |text| - i ensures !(word <= text[i..]) {
      assert text[i..][0] == text[i] && text[i..][1] == text[i + 1];
    }
  }

  // --------------------------------------------------------------- one action

  lemma NamedPut(d: Disk, at: Places, source: Path, dest: Path, node: Node)
    requires Named(d, at) && Clear(at, dest)
    ensures Named((d - {source})[dest := node], at) && Named(d - {source}, at)
  {
    hide Clear;
  }

  /** A publication from an unseen path: each view changes by the published file alone, if it shows it. */
  lemma Placed(plan: Plan, d: Disk, at: Places, source: Path, dest: Path)
    requires Fits(at) && Named(d, at) && Clear(at, dest) && Unseen(at, source)
    ensures var after := Place(plan, d, source, dest);
            var node := File(plan.identity(dest));
            && Named(after, at)
            && (!Private(Logical(at, dest)) ==> PrivateView(after, at) == PrivateView(d, at))
            && (Private(Logical(at, dest)) ==> (Logical(at, dest), node) in PrivateView(after, at))
            && PublicView(after, at) == (if Public(at, dest) then Expected(PublicView(d, at), map[Logical(at, dest) := node]) else PublicView(d, at))
  {
    hide Public, Private, Logical, Clear, Expected, PublicView, PrivateView;
    var without := d - {source};
    var node := File(plan.identity(dest));
    NamedPut(d, at, source, dest, node);
    UnseenRemoved(d, at, source);
    PrivateRemoved(d, at, source);
    PrivatePut(without, at, dest, node);
    PublicPut(without, at, dest, node);
    if !Public(at, dest) { UnseenRemoved(without, at, dest); }
  }

  lemma PlacedTree(plan: Plan, d: Disk, at: Places, source: Path, dest: Path, root: Path)
    requires Unseen(at, source) && (root == at.root || root == at.intermediate)
    ensures var after := Place(plan, d, source, dest);
            TreeView(after, root) ==
            if root <= dest then Expected(TreeView(d, root), map[dest[|root|..] := File(plan.identity(dest))]) else TreeView(d, root)
  {
    hide Expected, Public, Private;
    TreePut(d, root, source, File(0));
    TreePut(d - {source}, root, dest, File(plan.identity(dest)));
  }

  /** A publication outside the authorities and the shelf leaves trees and shelf alone. */
  lemma PlacedApart(plan: Plan, s: Review, source: Path, dest: Path)
    requires Agreed(plan, s) && Layout(plan)
    requires exists name :: source == Staged(plan, name) && name != [] && name[0] != "quarantine"
    requires |dest| > 1 && dest[0] != "authorities" && dest[..2] != ["state", "rollover"]
    ensures var t := s.(disk := Place(plan, s.disk, source, dest));
            && TreeView(t.disk, t.at.root) == TreeView(s.disk, s.at.root)
            && TreeView(t.disk, t.at.intermediate) == TreeView(s.disk, s.at.intermediate)
            && ShelfAgrees(plan, t)
  {
    hide Expected, TreeView, Place, Public, Private, PublicView, PrivateView;
    var name :| source == Staged(plan, name) && name != [] && name[0] != "quarantine";
    StagedUnseen(plan, s.at, name);
    PlacedTree(plan, s.disk, s.at, source, dest, s.at.root);
    PlacedTree(plan, s.disk, s.at, source, dest, s.at.intermediate);
    assert !(s.at.root <= dest) && !(s.at.intermediate <= dest);
    ShelfApart(plan, s, source, dest);
  }

  lemma ShelfApart(plan: Plan, s: Review, source: Path, dest: Path)
    requires ShelfAgrees(plan, s)
    requires exists name :: source == Staged(plan, name) && name != [] && name[0] != "quarantine"
    requires |dest| > 1 && dest[..2] != ["state", "rollover"]
    ensures ShelfAgrees(plan, s.(disk := Place(plan, s.disk, source, dest)))
  {
    var part :| source == Staged(plan, part) && part != [] && part[0] != "quarantine";
    forall name | name in plan.present ensures [name] != source && [name] != dest && ShelfPath(plan, name) != source && ShelfPath(plan, name) != dest {
      assert source[3] == part[0] && ShelfPath(plan, name)[3] == "quarantine" && ShelfPath(plan, name)[..2] == ["state", "rollover"];
    }
  }

  /** What the issuer manifest of a service shows in: exactly the public view, if the service's name is plain. */
  lemma PlainExactly(service: string, at: Places)
    requires at == Places(NEW_ROOT, NEW_INTERMEDIATE)
    ensures var p := IssuerPath(service);
            && Logical(at, p) == p && Clear(at, p)
            && (Plain(service) <==> Public(at, p) && !Private(p))
  {
    var p := IssuerPath(service);
    assert p[..2] == ["services", service] && ["services"] <= p && p[0] == "services";
    Separate(at, p);
    assert |"services"| == 8 && |"authorities"| == 11 && |"private"| == 7 && |"backups"| == 7 && |"quarantine"| == 10
        && |"issuer"| == 6 && |"root-ca"| == 7 && |"intermediate-ca"| == 15 && |"passphrase"| == 10 && |"pass-file"| == 9 && |"state"| == 5;
    assert ("issuer")[5] == 'r' && ".key"[3] == 'y';
    assert Within(p, "private") <==> service == "private";
    assert Within(p, "backups") <==> service == "backups";
    assert Within(p, "quarantine") <==> service == "quarantine";
    WordInIssuer(service, "passphrase");
    WordInIssuer(service, "pass-file");
  }

  lemma WordInIssuer(service: string, word: string)
    requires |word| >= 9
    ensures HasWord(IssuerPath(service), word) <==> Contains(service, word)
  {
    var p := IssuerPath(service);
    assert p[1] == service && |p[0]| == 8 && |p[2]| == 6;
    assert !Contains(p[0], word) && !Contains(p[2], word);
  }

  /** The issuer of a plain service is recorded exactly as it shows. */
  lemma IssueKeeps(plan: Plan, s: Review, service: string)
    requires Agreed(plan, s) && Layout(plan) && Plain(service)
    ensures Agreed(plan, Apply(plan, s, Issue(service)))
  {
    hide Expected, TreeView, Place, Public, Private, PublicView, PrivateView, Plain, ShelfAgrees, Logical, Layout;
    var dest, source := IssuerPath(service), Staged(plan, ["issuer-stage", service]);
    PlainExactly(service, s.at);
    StagedUnseen(plan, s.at, ["issuer-stage", service]) by { LayoutTransaction(plan); }
    Placed(plan, s.disk, s.at, source, dest);
    PlacedApart(plan, s, source, dest) by { IssuerApart(service); }
    ExpectedTwice(PublicView(plan.disk, LEGACY), s.publicOverrides, dest, File(plan.identity(dest)));
    ShelfSame(plan, s.(disk := Place(plan, s.disk, source, dest)), Apply(plan, s, Issue(service)));
  }

  lemma LayoutTransaction(plan: Plan)
    requires Layout(plan)
    ensures StartsWith(plan.transaction, "migrate-")
  {
  }

  lemma IssuerApart(service: string)
    ensures IssuerPath(service)[0] != "authorities" && IssuerPath(service)[..2] != ["state", "rollover"]
    ensures "issuer-stage" != "quarantine"
  {
    assert |IssuerPath(service)[0]| == 8 && |"authorities"| == 11 && IssuerPath(service)[..2][0] == "services" && |"state"| == 5;
    assert |"issuer-stage"| == 12 && |"quarantine"| == 10;
  }

  lemma ShelfSame(plan: Plan, s: Review, t: Review)
    requires ShelfAgrees(plan, s) && t.disk == s.disk && t.shelved == s.shelved
    ensures ShelfAgrees(plan, t)
  {
  }

  /** The issuer of any other service makes the next recheck fail. */
  lemma IssueBreaks(plan: Plan, s: Review, service: string)
    requires Agreed(plan, s) && Layout(plan) && !Plain(service)
    requires forall v :: v in PrivateView(plan.disk, LEGACY) ==> v.0 != IssuerPath(service)
    ensures !Recheck(plan, Apply(plan, s, Issue(service)))
  {
    hide TreeView, Place, Public, Private, Plain, ShelfAgrees, Logical, Layout, PublicView, PrivateView;
    var dest, source := IssuerPath(service), Staged(plan, ["issuer-stage", service]);
    var node := File(plan.identity(dest));
    var t := Apply(plan, s, Issue(service));
    PlainExactly(service, s.at);
    StagedUnseen(plan, s.at, ["issuer-stage", service]) by { LayoutTransaction(plan); }
    Placed(plan, s.disk, s.at, source, dest);
    if Private(dest) {
      assert (dest, node) in PrivateView(t.disk, t.at);
    } else {
      NotShown(t.disk, t.at, dest, (dest, node));
      InExpected((dest, node), PublicView(plan.disk, LEGACY), t.publicOverrides);
    }
  }

  /** A path that is not public has no row in the public view. */
  lemma NotShown(d: Disk, at: Places, p: Path, v: (Path, Node))
    requires Fits(at) && Named(d, at) && Clear(at, p) && !Public(at, p) && v.0 == Logical(at, p)
    ensures v !in PublicView(d, at)
  {
    hide Public, Logical, Clear;
    forall q | q in d && d[q].File? && Public(at, q) ensures Logical(at, q) != v.0 {
      if Logical(at, q) == v.0 { LogicalInjective(at, p, q); }
    }
  }

  lemma IssuerNew(plan: Plan, service: string)
    requires Layout(plan) && service in plan.services
    ensures forall v :: v in PrivateView(plan.disk, LEGACY) ==> v.0 != IssuerPath(service)
  {
    hide Private;
    var p := IssuerPath(service);
    assert p[0] == "services" && |"services"| == 8 && |"root-ca"| == 7 && |"intermediate-ca"| == 15;
    assert Logical(LEGACY, p) == p;
    forall q | q in plan.disk && Logical(LEGACY, q) == p ensures q == p { LogicalInjective(LEGACY, p, q); }
  }

  /** Moving a file that no view shows into the transaction changes nothing but the shelf. */
  lemma ShelveKeeps(plan: Plan, s: Review, name: string)
    requires Agreed(plan, s) && Layout(plan) && name in plan.present && name !in s.shelved
    ensures Agreed(plan, Apply(plan, s, Shelve(name)))
  {
    hide Expected, TreeView, Public, Private, PublicView, PrivateView, Logical, Clear, Place;
    var source, dest := [name], ShelfPath(plan, name);
    ShelfNames(s.at, name);
    StagedUnseen(plan, s.at, ["quarantine", name]);
    Placed(plan, s.disk, s.at, source, dest);
    PlacedTree(plan, s.disk, s.at, source, dest, s.at.root);
    PlacedTree(plan, s.disk, s.at, source, dest, s.at.intermediate);
    assert ShelfAgrees(plan, Apply(plan, s, Shelve(name))) by { ShelfMoves(plan, s, name); }
  }

  lemma ShelfMoves(plan: Plan, s: Review, name: string)
    requires ShelfAgrees(plan, s) && name in plan.present && name !in s.shelved
    ensures ShelfAgrees(plan, Apply(plan, s, Shelve(name)))
  {
    forall other | other in plan.present && other != name
      ensures [other] != [name] && ShelfPath(plan, other) != ShelfPath(plan, name)
    {
      assert [other][0] == other && ShelfPath(plan, other)[4] == other && ShelfPath(plan, name)[4] == name;
    }
    assert forall other :: [other] != ShelfPath(plan, name) && |ShelfPath(plan, name)| == 5;
    assert forall other :: ShelfPath(plan, other) != [name];
  }

  lemma ReservationUnseen(at: Places, root: bool)
    requires at == Places(NEW_ROOT, NEW_INTERMEDIATE)
    ensures Unseen(at, ReservationPath(root)) && Clear(at, ReservationPath(root))
    ensures |ReservationPath(root)| > 1 && ReservationPath(root)[0] != "authorities" && ReservationPath(root)[..2] != ["state", "rollover"]
  {
    var p := ReservationPath(root);
    assert p[0] == "state" && p[1] == "generation-reservations" && |p[2]| <= 5;
    assert p[..2][1] == p[1] && |"rollover"| == 8 && |"generation-reservations"| == 23;
    assert |"state"| == 5 && |"root-ca"| == 7 && |"intermediate-ca"| == 15 && |"authorities"| == 11 && |"inventory"| == 9
        && |"services"| == 8 && |"export"| == 6 && |"private"| == 7 && |"quarantine"| == 10 && |"legacy"| == 6;
    Separate(at, p);
    NoWordIn(p, "passphrase");
    NoWordIn(p, "pass-file");
    assert p[2][|p[2]| - 1] == '1' && ".key"[3] == 'y';
  }

  lemma NoWordIn(p: Path, word: string)
    requires |p| == 3 && p[0] == "state" && p[1] == "generation-reservations" && |p[2]| <= 5 && |word| >= 9 && word[0] == 'p'
    ensures !HasWord(p, word)
  {
    assert 'p' !in "generation-reservations";
    LacksLetter(p[1], word, 0);
    assert !Contains(p[0], word) && !Contains(p[2], word);
  }

  lemma ConsumeKeeps(plan: Plan, s: Review, root: bool)
    requires Agreed(plan, s) && Layout(plan)
    ensures Agreed(plan, Apply(plan, s, Consume(root)))
  {
    hide Expected, TreeView, Public, Private, PublicView, PrivateView, Logical, Clear, Place, ShelfAgrees, Layout;
    var part := if root then "root-consumed.publish" else "intermediate-consumed.publish";
    var source, dest := Staged(plan, [part]), ReservationPath(root);
    ReservationUnseen(s.at, root);
    StagedUnseen(plan, s.at, [part]) by { LayoutTransaction(plan); }
    Placed(plan, s.disk, s.at, source, dest);
    assert part != "quarantine" by { assert |"quarantine"| == 10 && |part| > 10; }
    assert [part][0] == part;
    PlacedApart(plan, s, source, dest);
  }

  // ------------------------------------------------------------------- moves

  lemma MoveOther(d: Disk, from: Path, to: Path, p: Path)
    requires !(from <= p) && !(to <= p)
    ensures p in MoveTree(d, from, to) <==> p in d
    ensures p in d ==> MoveTree(d, from, to)[p] == d[p]
  {
    if p in d { assert Rekey(from, to, p) == p; }
    if p in MoveTree(d, from, to) {
      var q :| q in d && p == Rekey(from, to, q);
      assert from <= q ==> to <= p;
    }
  }

  lemma MoveClears(d: Disk, from: Path, to: Path, other: Path)
    requires Vacant(d, to) && !(other <= to) && !(to <= other) && (other == from || Vacant(d, other))
    ensures Vacant(MoveTree(d, from, to), other)
  {
    forall q | q in MoveTree(d, from, to) ensures !(other <= q) {
      var p := MovedFrom(d, from, to, q);
      assert from <= p ==> to <= q;
      Nested(to, other, q);
    }
  }

  lemma Nested(x: Path, y: Path, p: Path)
    ensures x <= p && y <= p ==> x <= y || y <= x
  {
    assert (x <= p ==> x == p[..|x|]) && (y <= p ==> y == p[..|y|]);
  }

  /** Before and between the two moves. */
  lemma RelocateKeeps(plan: Plan, s: Review, root: bool)
    requires Layout(plan) && Fits(s.at) && Recheck(plan, s) && s.shelved == {}
    requires if root then s.at.root == LEGACY_ROOT && Vacant(s.disk, NEW_ROOT)
             else s.at.intermediate == LEGACY_INTERMEDIATE && Vacant(s.disk, NEW_INTERMEDIATE)
    ensures Recheck(plan, Apply(plan, s, Relocate(root)))
  {
    hide TreeView, PublicView, PrivateView, Expected, MoveTree, Vacant;
    var t := Apply(plan, s, Relocate(root));
    var from, to := if root then LEGACY_ROOT else LEGACY_INTERMEDIATE, if root then NEW_ROOT else NEW_INTERMEDIATE;
    TreesMove(s.disk, s.at, t.at, from, to);
    ViewsMove(s.disk, s.at, t.at, from, to);
    forall name | name in plan.present
      ensures [name] in t.disk <==> [name] in s.disk
      ensures [name] in s.disk ==> t.disk[[name]] == s.disk[[name]]
      ensures ShelfPath(plan, name) in t.disk <==> ShelfPath(plan, name) in s.disk
    {
      ShelfNames(LEGACY, name);
      assert !(from <= [name]) && !(to <= [name]) by { ShelfNames(s.at, name); ShelfNames(t.at, name); }
      assert !(from <= ShelfPath(plan, name)) && !(to <= ShelfPath(plan, name)) by {
        StagedUnseen(plan, s.at, ["quarantine", name]);
        StagedUnseen(plan, t.at, ["quarantine", name]);
      }
      MoveOther(s.disk, from, to, [name]);
      MoveOther(s.disk, from, to, ShelfPath(plan, name));
    }
  }

  lemma PlacesApart()
    ensures Distinct(LEGACY_ROOT, NEW_ROOT) && Distinct(LEGACY_INTERMEDIATE, NEW_INTERMEDIATE)
    ensures Distinct(NEW_ROOT, NEW_INTERMEDIATE) && Distinct(LEGACY_ROOT, NEW_INTERMEDIATE)
  {
    assert |LEGACY_ROOT[0]| == 7 && |LEGACY_INTERMEDIATE[0]| == 15 && |NEW_ROOT[0]| == 11 && |NEW_ROOT[1]| == 5 && |NEW_INTERMEDIATE[1]| == 13;
  }

  predicate Distinct(x: Path, y: Path) { !(x <= y) && !(y <= x) }

  /** Both moves pass their rechecks, and leave the migration agreed. */
  lemma MovesAgree(plan: Plan)
    requires Layout(plan)
    ensures var s := Start(plan);
            var t := Apply(plan, s, Relocate(true));
            Recheck(plan, s) && Recheck(plan, t) && Agreed(plan, Apply(plan, t, Relocate(false))) && Apply(plan, t, Relocate(false)).shelved == {}
  {
    hide MoveTree, Clear;
    var s := Start(plan);
    StartRechecks(plan);
    RelocateKeeps(plan, s, true);
    var t := Apply(plan, s, Relocate(true));
    PlacesApart();
    MoveClears(s.disk, LEGACY_ROOT, NEW_ROOT, LEGACY_ROOT);
    MoveClears(s.disk, LEGACY_ROOT, NEW_ROOT, NEW_INTERMEDIATE);
    RelocateKeeps(plan, t, false);
    MoveClears(t.disk, LEGACY_INTERMEDIATE, NEW_INTERMEDIATE, LEGACY_INTERMEDIATE);
    MoveClears(t.disk, LEGACY_INTERMEDIATE, NEW_INTERMEDIATE, LEGACY_ROOT);
    VacantNamed(Apply(plan, t, Relocate(false)).disk);
  }

  lemma VacantNamed(d: Disk)
    requires Vacant(d, LEGACY_ROOT) && Vacant(d, LEGACY_INTERMEDIATE)
    ensures Named(d, Places(NEW_ROOT, NEW_INTERMEDIATE))
  {
  }

  lemma StartRechecks(plan: Plan)
    requires Layout(plan)
    ensures Recheck(plan, Start(plan))
  {
    hide Public, Private;
    NothingOverridden(TreeView(plan.disk, LEGACY_ROOT));
    NothingOverridden(TreeView(plan.disk, LEGACY_INTERMEDIATE));
    NothingOverridden(PublicView(plan.disk, LEGACY));
  }

  lemma NothingOverridden(reviewed: View)
    ensures Expected(reviewed, map[]) == reviewed
  {
    forall v ensures v in Expected(reviewed, map[]) <==> v in reviewed { InExpected(v, reviewed, map[]); }
  }

  lemma ConfigNames(root: bool)
    ensures var at := Places(NEW_ROOT, NEW_INTERMEDIATE);
            var dest := (if root then at.root else at.intermediate) + CONFIG;
            && Logical(at, dest) == (if root then LEGACY_ROOT else LEGACY_INTERMEDIATE) + CONFIG
            && Public(at, dest) && !Private(Logical(at, dest)) && Clear(at, dest)
            && (if root then !(at.intermediate <= dest) else !(at.root <= dest))
            && dest[|if root then at.root else at.intermediate|..] == CONFIG
            && |dest| > 1 && dest[..2] != ["state", "rollover"]
  {
    var at := Places(NEW_ROOT, NEW_INTERMEDIATE);
    var base := if root then at.root else at.intermediate;
    var dest := base + CONFIG;
    var name := (if root then LEGACY_ROOT else LEGACY_INTERMEDIATE) + CONFIG;
    assert base <= dest && dest[|base|..] == CONFIG && dest[0] == "authorities" && dest[..2][0] == "authorities";
    Separate(at, dest);
    assert |"root-ca"| == 7 && |"intermediate-ca"| == 15 && |"authorities"| == 11 && |"openssl.cnf"| == 11 && |"state"| == 5
        && |"private"| == 7 && |"quarantine"| == 10 && |"backups"| == 7 && |"legacy"| == 6;
    assert "root-ca"[0] != "private"[0] && "root-ca"[0] != "backups"[0];
    assert |name| == 2 && name[1] == "openssl.cnf" && name[..1] == [name[0]];
    assert "openssl.cnf"[10] == 'f' && ".key"[3] == 'y';
    NoWordInConfig(name, "passphrase");
    NoWordInConfig(name, "pass-file");
  }

  lemma NoWordInConfig(name: Path, word: string)
    requires |name| == 2 && (name[0] == "root-ca" || name[0] == "intermediate-ca") && name[1] == "openssl.cnf"
    requires |word| >= 9 && word[0] == 'p' && word[1] == 'a'
    ensures !HasWord(name, word)
  {
    assert 'a' !in "openssl.cnf" && 'p' !in "intermediate-ca" && |"root-ca"| == 7;
    LacksLetter(name[1], word, 1);
    if name[0] == "intermediate-ca" { LacksLetter(name[0], word, 0); }
    assert !Contains(name[0], word) && !Contains(name[1], word);
  }

  /** Publishing a configuration changes its tree and the public view by the recorded identity. */
  lemma ConfigureKeeps(plan: Plan, s: Review, root: bool)
    requires Agreed(plan, s) && Layout(plan)
    ensures Agreed(plan, Apply(plan, s, Configure(root))) && Apply(plan, s, Configure(root)).shelved == s.shelved
  {
    hide Expected, TreeView, Public, Private, PublicView, PrivateView, Logical, Clear, Place, ShelfAgrees, Layout;
    var part := if root then "root-openssl.new" else "intermediate-openssl.new";
    var source := Staged(plan, [part]);
    var dest := (if root then s.at.root else s.at.intermediate) + CONFIG;
    var node := File(plan.identity(dest));
    ConfigNames(root);
    StagedUnseen(plan, s.at, [part]) by { LayoutTransaction(plan); }
    Placed(plan, s.disk, s.at, source, dest);
    PlacedTree(plan, s.disk, s.at, source, dest, s.at.root);
    PlacedTree(plan, s.disk, s.at, source, dest, s.at.intermediate);
    ExpectedTwice(PublicView(plan.disk, LEGACY), s.publicOverrides, (if root then LEGACY_ROOT else LEGACY_INTERMEDIATE) + CONFIG, node);
    ExpectedTwice(TreeView(plan.disk, LEGACY_ROOT), s.rootOverrides, CONFIG, node);
    ExpectedTwice(TreeView(plan.disk, LEGACY_INTERMEDIATE), s.intermediateOverrides, CONFIG, node);
    assert |part| > 10 && |"quarantine"| == 10 && [part][0] == part;
    ShelfApart(plan, s, source, dest);
    ShelfSame(plan, s.(disk := Place(plan, s.disk, source, dest)), Apply(plan, s, Configure(root)));
  }

  // ----------------------------------------------------------------- segments

  lemma {:induction false} IssuesExact(plan: Plan, s: Review, services: seq<string>, rest: seq<Action>)
    requires Layout(plan) && Agreed(plan, s) && rest != [] && forall service :: service in services ==> service in plan.services
    ensures Passes(plan, s, Issues(services) + rest) <==>
            (forall service :: service in services ==> Plain(service)) && Passes(plan, ApplyAll(plan, s, Issues(services)), rest)
    ensures (forall service :: service in services ==> Plain(service)) ==>
              Agreed(plan, ApplyAll(plan, s, Issues(services))) && ApplyAll(plan, s, Issues(services)).shelved == s.shelved
    decreases |services|
  {
    hide Layout, Recheck, Plain, Apply;
    if services == [] {
      assert [] + rest == rest;
    } else {
      var first, others := services[0], services[1..];
      var t := Apply(plan, s, Issue(first));
      assert (Issues(services) + rest)[1..] == Issues(others) + rest;
      assert Issues(services)[1..] == Issues(others);
      assert services == [first] + others;
      AgreedRechecks(plan, s);
      assert t.shelved == s.shelved by { IssueShelves(plan, s, first); }
      if Plain(first) {
        IssueKeeps(plan, s, first);
        IssuesExact(plan, t, others, rest);
      } else {
        IssuerNew(plan, first);
        IssueBreaks(plan, s, first);
        assert !Passes(plan, t, Issues(others) + rest);
      }
    }
  }

  lemma IssueShelves(plan: Plan, s: Review, service: string)
    ensures Apply(plan, s, Issue(service)).shelved == s.shelved
  {
  }

  lemma AgreedRechecks(plan: Plan, s: Review)
    requires Agreed(plan, s)
    ensures Recheck(plan, s)
  {
  }

  lemma {:induction false} ShelvesPass(plan: Plan, s: Review, names: seq<string>, rest: seq<Action>)
    requires Layout(plan) && Agreed(plan, s)
    requires forall name :: name in names ==> name in plan.present && name !in s.shelved
    requires forall i, j :: 0 <= i < j < |names| ==> names[i] != names[j]
    ensures Passes(plan, s, Shelves(names) + rest) <==> Passes(plan, ApplyAll(plan, s, Shelves(names)), rest)
    ensures Agreed(plan, ApplyAll(plan, s, Shelves(names)))
    decreases |names|
  {
    hide Layout, Recheck, Apply, Agreed;
    if names == [] {
      assert [] + rest == rest;
    } else {
      var first, others := names[0], names[1..];
      var t := Apply(plan, s, Shelve(first));
      assert (Shelves(names) + rest)[1..] == Shelves(others) + rest;
      assert Shelves(names)[1..] == Shelves(others);
      AgreedRechecks(plan, s);
      ShelveKeeps(plan, s, first);
      assert t.shelved == s.shelved + {first} by { ShelveShelves(plan, s, first); }
      ShelvesPass(plan, t, others, rest);
    }
  }

  lemma ShelveShelves(plan: Plan, s: Review, name: string)
    ensures Apply(plan, s, Shelve(name)).shelved == s.shelved + {name}
  {
  }

  lemma TailPasses(plan: Plan, s: Review)
    requires Layout(plan) && Agreed(plan, s)
    ensures Passes(plan, s, [Consume(true), Consume(false), Activate])
  {
    hide Layout, Apply, Agreed, Recheck;
    var actions := [Consume(true), Consume(false), Activate];
    AgreedRechecks(plan, s);
    ConsumeKeeps(plan, s, true);
    var t := Apply(plan, s, Consume(true));
    AgreedRechecks(plan, t);
    ConsumeKeeps(plan, t, false);
    var u := Apply(plan, t, Consume(false));
    AgreedRechecks(plan, u);
    assert actions[1..] == [Consume(false), Activate] && actions[1..][1..] == [Activate] && actions[1..][1..][1..] == [];
    assert Passes(plan, u, [Activate]);
    assert Passes(plan, t, [Consume(false), Activate]);
  }

  lemma PassesStep(plan: Plan, s: Review, a: Action, rest: seq<Action>)
    requires Recheck(plan, s)
    ensures Passes(plan, s, [a] + rest) <==> Passes(plan, Apply(plan, s, a), rest)
  {
    assert ([a] + rest)[1..] == rest;
  }

  /**
   On an undisturbed migration every recheck passes exactly if every service is plainly named: a service
   called `private`, `backups` or `quarantine`, or with a passphrase word in its name, makes the recheck after
   its issuer is published fail.
  */
  lemma UndisturbedPasses(plan: Plan)
    requires Layout(plan)
    ensures Passes(plan, Start(plan), Program(plan)) <==> forall service :: service in plan.services ==> Plain(service)
  {
    hide Passes, Apply, Agreed, Recheck, Plain;
    var tail := [Consume(true), Consume(false), Activate];
    var shelves := Shelves(plan.present) + tail;
    var issues := Issues(plan.services) + shelves;
    var s0 := Start(plan);
    MovesAgree(plan);
    var s1 := Apply(plan, s0, Relocate(true));
    var s2 := Apply(plan, s1, Relocate(false));
    AgreedRechecks(plan, s2);
    ConfigureKeeps(plan, s2, true);
    var s3 := Apply(plan, s2, Configure(true));
    AgreedRechecks(plan, s3);
    ConfigureKeeps(plan, s3, false);
    var s4 := Apply(plan, s3, Configure(false));
    PassesStep(plan, s3, Configure(false), issues);
    PassesStep(plan, s2, Configure(true), [Configure(false)] + issues);
    PassesStep(plan, s1, Relocate(false), [Configure(true)] + ([Configure(false)] + issues));
    PassesStep(plan, s0, Relocate(true), [Relocate(false)] + ([Configure(true)] + ([Configure(false)] + issues)));
    assert Program(plan) == [Relocate(true)] + ([Relocate(false)] + ([Configure(true)] + ([Configure(false)] + issues)));
    IssuesExact(plan, s4, plan.services, shelves);
    if forall service :: service in plan.services ==> Plain(service) {
      var s5 := ApplyAll(plan, s4, Issues(plan.services));
      ShelvesPass(plan, s5, plan.present, tail);
      TailPasses(plan, ApplyAll(plan, s5, Shelves(plan.present)));
    }
  }

  /** A migration of these services, with one quarantine file. */
  function SomePlan(services: seq<string>): Plan {
    Plan("migrate-1", services, ["pki.env"],
         map[LEGACY_ROOT := Directory(1), LEGACY_ROOT + CONFIG := File(2), LEGACY_INTERMEDIATE := Directory(3),
             LEGACY_INTERMEDIATE + CONFIG := File(4), ["pki.env"] := File(5)],
         _ => 6)
  }

  lemma SomeLayout(services: seq<string>)
    requires forall i, j :: 0 <= i < j < |services| ==> services[i] != services[j]
    ensures Layout(SomePlan(services))
  {
    hide StartsWith;
    var plan := SomePlan(services);
    assert StartsWith(plan.transaction, "migrate-") by { SomeTransaction(); }
    assert forall p :: p in plan.disk ==> |p| <= 2;
    assert Vacant(plan.disk, NEW_ROOT) && Vacant(plan.disk, NEW_INTERMEDIATE);
    assert QUARANTINE[0] == "pki.env";
  }

  lemma SomeTransaction()
    ensures StartsWith("migrate-1", "migrate-")
  {
  }

  /** Two migrations that differ by one service: undisturbed, the first passes every recheck and the second does not. */
  lemma ServiceCalledPrivate()
    ensures Layout(SomePlan(["web"])) && Passes(SomePlan(["web"]), Start(SomePlan(["web"])), Program(SomePlan(["web"])))
    ensures var plan := SomePlan(["web", "private"]); Layout(plan) && !Passes(plan, Start(plan), Program(plan))
  {
    hide Layout, Passes, Start, Program;
    assert |"web"| == 3 && |"private"| == 7 && |"backups"| == 7 && |"quarantine"| == 10;
    SomeLayout(["web"]);
    SomeLayout(["web", "private"]);
    UndisturbedPasses(SomePlan(["web"]));
    UndisturbedPasses(SomePlan(["web", "private"]));
    assert "private" in ["web", "private"];
  }

  /** The migration as it runs: a recheck, then a change, until one recheck fails. */
  class Migration {
    const plan: Plan
    var review: Review

    constructor (plan: Plan)
      ensures this.plan == plan && review == Start(plan)
    {
      this.plan, review := plan, Start(plan);
    }

    method Run(actions: seq<Action>) returns (ok: bool)
      modifies this
      ensures ok == Passes(plan, old(review), actions)
      ensures ok ==> review == ApplyAll(plan, old(review), actions)
    {
      hide Recheck, Apply;
      ghost var passes, end := Passes(plan, review, actions), ApplyAll(plan, review, actions);
      var i := 0;
      while i < |actions|
        invariant i <= |actions|
        invariant passes == Passes(plan, review, actions[i..]) && end == ApplyAll(plan, review, actions[i..])
      {
        assert actions[i..][1..] == actions[i + 1..];
        if !Recheck(plan, review) { return false; }
        review := Apply(plan, review, actions[i]);
        i := i + 1;
      }
      return true;
    }
  }
}
