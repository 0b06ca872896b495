/**
 The manifest of a directory tree: one line an object, in strict path order. Writing and validating are
 exact inverses.
*/
module TreeManifest {
  import opened Options
  import opened Texts

  const MAX_ENTRIES := 65536
  const MAX_DEPTH := 64
  const MAX_BYTES := 16777216

  type Path = seq<string>

  datatype Identity = Identity(dev: nat, ino: nat, uid: nat, permissions: nat, links: nat, size: nat, mtime: nat, ctime: nat)
  datatype Directory = Directory(dev: nat, ino: nat, uid: nat, permissions: nat)

  datatype Kind = IsDirectory | IsFile | IsOther

  /** One object that a walk of the tree meets. */
  datatype Entry = Entry(path: Path, kind: Kind, id: Identity, content: string)

  datatype Object =
    | DirectoryObject(directory: Directory)
    | FileObject(identity: Identity, digest: string)

  datatype Row = Row(path: Path, obj: Object)

  /** How identities are written and read, and how contents are hashed. */
  datatype Codec = Codec(
    showFile: Identity -> string, readFile: string -> Option<Identity>,
    showDirectory: Directory -> string, readDirectory: string -> Option<Directory>,
    hash: string -> string, isHash: string -> bool)

  predicate Clean(text: string) {
    Free(text, '|') && Free(text, '\n')
  }

  /** Identities are written canonically, and hashes look like hashes. */
  ghost predicate Faithful(c: Codec) {
    && (forall i :: c.readFile(c.showFile(i)) == Some(i) && Clean(c.showFile(i)))
    && (forall t :: c.readFile(t).Some? ==> c.showFile(c.readFile(t).value) == t)
    && (forall i :: c.readDirectory(c.showDirectory(i)) == Some(i) && Clean(c.showDirectory(i)))
    && (forall t :: c.readDirectory(t).Some? ==> c.showDirectory(c.readDirectory(t).value) == t)
    && (forall x :: c.isHash(c.hash(x)))
    && (forall h :: c.isHash(h) ==> Clean(h))
  }

  function DirectoryOf(i: Identity): Directory {
    Directory(i.dev, i.ino, i.uid, i.permissions)
  }

  function Name(path: Path): string { Join(path, '/') }

  /** Members whose content never enters a manifest. */
  predicate Secret(path: Path) {
    (path != [] && "private" in path[..|path| - 1]) || EndsWith(Name(path), ".key") || Contains(Name(path), "passphrase")
  }

  // -------------------------------------------------------------------- rows

  function TypeOf(o: Object): string {
    match o
    case DirectoryObject(_) => "directory"
    case FileObject(i, _) => if i.size == 0 then "regular empty file" else "regular file"
  }

  function Fields(c: Codec, r: Row): seq<string> {
    match r.obj
    case DirectoryObject(d) => [TypeOf(r.obj), Name(r.path), c.showDirectory(d), "-"]
    case FileObject(i, digest) => [TypeOf(r.obj), Name(r.path), c.showFile(i), digest]
  }

  function Show(c: Codec, r: Row): string {
    Join(Fields(c, r), '|')
  }

  predicate PlainPart(part: string) {
    part != "" && part != "." && part != ".."
  }

  predicate PlainPath(path: Path) {
    path != [] && |path| <= MAX_DEPTH && forall part :: part in path ==> PlainPart(part)
  }

  function ReadObject(c: Codec, path: Path, kind: string, identity: string, digest: string): Option<Object> {
    if kind == "directory" then
      if c.readDirectory(identity).Some? && digest == "-" then Some(DirectoryObject(c.readDirectory(identity).value)) else None
    else if kind == "regular file" || kind == "regular empty file" then
      if c.readFile(identity).None? then None
      else
        var o := FileObject(c.readFile(identity).value, digest);
        if kind == TypeOf(o) && (if Secret(path) then digest == "secret" else c.isHash(digest)) then Some(o) else None
    else None
  }

  /** One line of a manifest. */
  function Read(c: Codec, line: string): Option<Row> {
    var fields := Split(line, '|');
    if |fields| != 4 then None
    else
      var path := Split(fields[1], '/');
      if !PlainPath(path) then None
      else
        match ReadObject(c, path, fields[0], fields[2], fields[3])
        case None => None
        case Some(o) => Some(Row(path, o))
  }

  /** The rows that a manifest can hold. */
  predicate Legal(c: Codec, r: Row) {
    && PlainPath(r.path) && (forall part :: part in r.path ==> Free(part, '/') && Clean(part))
    && match r.obj
       case DirectoryObject(_) => true
       case FileObject(_, digest) => if Secret(r.path) then digest == "secret" else c.isHash(digest)
  }

  lemma NameClean(path: Path)
    requires forall part :: part in path ==> Clean(part)
    ensures Clean(Name(path))
  {
    JoinFree(path, '/', '|');
    JoinFree(path, '/', '\n');
  }

  lemma FieldsClean(c: Codec, r: Row)
    requires Faithful(c) && Legal(c, r)
    ensures forall f :: f in Fields(c, r) ==> Clean(f)
  {
    hide Secret, PlainPath, Clean;
    NameClean(r.path);
    WordsClean();
  }

  lemma WordsClean()
    ensures Clean("directory") && Clean("regular file") && Clean("regular empty file") && Clean("-") && Clean("secret")
  {
  }

  /** A legal row is read back from its line. */
  lemma ReadShow(c: Codec, r: Row)
    requires Faithful(c) && Legal(c, r)
    ensures Read(c, Show(c, r)) == Some(r) && Free(Show(c, r), '\n')
  {
    hide Secret, Join, Split;
    FieldsClean(c, r);
    SplitJoin(Fields(c, r), '|');
    JoinFree(Fields(c, r), '|', '\n');
    SplitJoin(r.path, '/');
  }

  /** A line that is read is the line of the row it is read as. */
  lemma ShowRead(c: Codec, line: string)
    requires Faithful(c) && Read(c, line).Some? && Free(line, '\n')
    ensures Show(c, Read(c, line).value) == line && Legal(c, Read(c, line).value)
  {
    hide Secret, Join, Split, PlainPath;
    var fields := Split(line, '|');
    JoinSplit(line, '|');
    SplitFree(line, '|');
    JoinSplit(fields[1], '/');
    SplitFree(fields[1], '/');
    var r := Read(c, line).value;
    assert Fields(c, r) == fields;
    PartsClean(line, fields, r.path);
  }

  lemma PartsClean(line: string, fields: seq<string>, path: Path)
    requires Free(line, '\n') && fields == Split(line, '|') && |fields| == 4 && path == Split(fields[1], '/')
    ensures forall part :: part in path ==> Clean(part) && Free(part, '/')
  {
    SplitFree(line, '|');
    SplitFree(fields[1], '/');
    SplitOf(line, '|', fields[1], '\n');
    forall part | part in path ensures Clean(part) {
      SplitOf(fields[1], '/', part, '\n');
      SplitOf(fields[1], '/', part, '|');
    }
  }

  /** Parts of a text contain nothing that the text does not. */
  lemma {:induction false} SplitOf(text: string, sep: char, part: string, other: char)
    requires Free(text, other) && part in Split(text, sep)
    ensures Free(part, other)
  {
    if text != "" {
      var rest := Split(text[1..], sep);
      SplitOf(text[1..], sep, rest[0], other);
      if part in rest { SplitOf(text[1..], sep, part, other); }
      assert part == "" || part in rest || part == [text[0]] + rest[0];
    }
  }

  /** Rows are ordered by the name of their path. */
  function RowName(r: Row): string { Name(r.path) }

  // ------------------------------------------------------------------ writer

  /** The process: its user, and the device of the tree it looks at. */
  datatype Site = Site(uid: nat, dev: nat)

  /** Writable by group or others: `permissions & 0o022`. */
  predicate Loose(permissions: nat) {
    permissions / 16 % 2 == 1 || permissions / 2 % 2 == 1
  }

  predicate Ascii(text: string) {
    forall x :: x in text ==> x as int < 128
  }

  /** The one member that the manifest leaves out is the manifest itself. */
  predicate Member(e: Entry, excluded: Option<string>) {
    excluded.None? || e.path != [excluded.value]
  }

  function Members(entries: seq<Entry>, excluded: Option<string>): (ms: seq<Entry>)
    ensures |ms| <= |entries|
    ensures forall e :: e in ms <==> e in entries && Member(e, excluded)
  {
    if entries == [] then []
    else (if Member(entries[0], excluded) then [entries[0]] else []) + Members(entries[1..], excluded)
  }

  /** What the writer refuses to describe. */
  predicate Writable(site: Site, e: Entry) {
    && Clean(Name(e.path)) && Ascii(Name(e.path))
    && e.id.uid == site.uid && !Loose(e.id.permissions)
    && e.kind != IsOther && (e.kind == IsFile ==> e.id.links == 1)
  }

  function ObjectOf(c: Codec, e: Entry): Object {
    if e.kind == IsFile then FileObject(e.id, if Secret(e.path) then "secret" else c.hash(e.content))
    else DirectoryObject(DirectoryOf(e.id))
  }

  function RowOf(c: Codec, e: Entry): Row { Row(e.path, ObjectOf(c, e)) }

  function RowsOf(c: Codec, entries: seq<Entry>): (rows: seq<Row>)
    ensures |rows| == |entries| && forall i :: 0 <= i < |rows| ==> rows[i] == RowOf(c, entries[i])
  {
    if entries == [] then [] else [RowOf(c, entries[0])] + RowsOf(c, entries[1..])
  }

  function ShowAll(c: Codec, rows: seq<Row>): (lines: seq<string>)
    ensures |lines| == |rows| && forall i :: 0 <= i < |rows| ==> lines[i] == Show(c, rows[i])
  {
    if rows == [] then [] else [Show(c, rows[0])] + ShowAll(c, rows[1..])
  }

  /** The bytes of the manifest of a tree, or a refusal. */
  function Written(c: Codec, site: Site, entries: seq<Entry>, excluded: Option<string>): Option<string> {
    var members := Members(entries, excluded);
    if |entries| > MAX_ENTRIES || exists e :: e in members && !Writable(site, e) then None
    else Some(Lines(ShowAll(c, Sorted(RowsOf(c, members), RowName))))
  }

  // --------------------------------------------------------------- validator

  function ReadAll(c: Codec, lines: seq<string>): Option<seq<Row>> {
    if lines == [] then Some([])
    else
      match (Read(c, lines[0]), ReadAll(c, lines[1..]))
      case (Some(r), Some(rows)) => Some([r] + rows)
      case _ => None
  }

  /** The rows of a manifest that is well formed: bounded, every line legal, names strictly increasing. */
  function Parse(c: Codec, data: string): Option<seq<Row>> {
    if |data| > MAX_BYTES || Unlines(data).None? || |Unlines(data).value| > MAX_ENTRIES then None
    else
      match ReadAll(c, Unlines(data).value)
      case None => None
      case Some(rows) => if Ascending(rows, RowName) then Some(rows) else None
  }

  predicate Safe(site: Site, e: Entry) {
    && e.id.dev == site.dev && |e.path| <= MAX_DEPTH && e.id.uid == site.uid && !Loose(e.id.permissions)
    && e.kind != IsOther && (e.kind == IsFile ==> e.id.links == 1)
  }

  predicate Matches(c: Codec, e: Entry, o: Object) {
    if e.kind == IsDirectory then o == DirectoryObject(DirectoryOf(e.id))
    else o.FileObject? && o.identity == e.id && (Secret(e.path) || c.hash(e.content) == o.digest)
  }

  predicate Described(c: Codec, rows: seq<Row>, e: Entry) {
    exists r :: r in rows && r.path == e.path && Matches(c, e, r.obj)
  }

  predicate Belongs(members: seq<Entry>, r: Row) {
    exists e :: e in members && e.path == r.path
  }

  /** Exactly the same paths, and every object as its row says. */
  predicate Agrees(c: Codec, site: Site, members: seq<Entry>, rows: seq<Row>) {
    && |members| <= MAX_ENTRIES
    && (forall e :: e in members ==> Safe(site, e) && Described(c, rows, e))
    && (forall r :: r in rows ==> Belongs(members, r))
  }

  /** The validator's answer. */
  predicate Accepts(c: Codec, site: Site, entries: seq<Entry>, excluded: Option<string>, data: string) {
    match Parse(c, data)
    case None => false
    case Some(rows) => Agrees(c, site, Members(entries, excluded), rows)
  }

  // --------------------------------------------------------------- exactness

  /** What a walk of a directory tree yields. */
  predicate Walked(entries: seq<Entry>) {
    && (forall e :: e in entries ==> e.path != [] && forall part :: part in e.path ==> PlainPart(part) && Free(part, '/'))
    && (forall i, j :: 0 <= i < j < |entries| ==> entries[i].path != entries[j].path)
  }

  lemma NameInjective(p: Path, q: Path)
    requires p != [] && q != [] && (forall part :: part in p ==> Free(part, '/')) && (forall part :: part in q ==> Free(part, '/'))
    ensures Name(p) == Name(q) ==> p == q
  {
    SplitJoin(p, '/');
    SplitJoin(q, '/');
  }

  lemma {:induction false} MembersWalked(entries: seq<Entry>, excluded: Option<string>)
    requires Walked(entries)
    ensures Walked(Members(entries, excluded))
  {
    if entries != [] {
      var rest := entries[1..];
      assert forall e :: e in rest ==> e in entries;
      MembersWalked(rest, excluded);
      var ms := Members(rest, excluded);
      forall e | e in ms ensures e.path != entries[0].path {
        var i :| 0 <= i < |rest| && rest[i] == e;
        assert entries[i + 1] == e;
      }
    }
  }

  lemma RowsDistinct(c: Codec, entries: seq<Entry>)
    requires Walked(entries)
    ensures DistinctKeys(RowsOf(c, entries), RowName)
  {
    hide Name, RowOf;
    var rows := RowsOf(c, entries);
    forall i, j | 0 <= i < j < |rows| ensures Name(rows[i].path) != Name(rows[j].path) {
      assert entries[i] in entries && entries[j] in entries;
      assert rows[i].path == entries[i].path && rows[j].path == entries[j].path by { RowPath(c, entries[i]); RowPath(c, entries[j]); }
      NameInjective(entries[i].path, entries[j].path);
    }
  }

  lemma RowPath(c: Codec, e: Entry)
    ensures RowOf(c, e).path == e.path
  {
  }

  /** The row of an object that may be described within the bounds is legal. */
  lemma RowLegal(c: Codec, site: Site, e: Entry)
    requires Faithful(c) && Writable(site, e) && |e.path| <= MAX_DEPTH && e.path != []
    requires forall part :: part in e.path ==> PlainPart(part) && Free(part, '/')
    ensures Legal(c, RowOf(c, e))
  {
    hide Secret;
    forall part | part in e.path ensures Clean(part) {
      PartInName(e.path, part, '|');
      PartInName(e.path, part, '\n');
    }
  }

  lemma {:induction false} PartInName(path: Path, part: string, other: char)
    requires part in path && Free(Name(path), other)
    ensures Free(part, other)
  {
    if |path| > 1 && part != path[0] { PartInName(path[1..], part, other); }
  }

  lemma {:induction false} ReadAllShown(c: Codec, rows: seq<Row>)
    requires Faithful(c) && forall r :: r in rows ==> Legal(c, r)
    ensures ReadAll(c, ShowAll(c, rows)) == Some(rows)
    ensures forall line :: line in ShowAll(c, rows) ==> Free(line, '\n')
  {
    hide Read, Show, Legal;
    if rows != [] {
      ReadShow(c, rows[0]);
      ReadAllShown(c, rows[1..]);
      assert ShowAll(c, rows)[1..] == ShowAll(c, rows[1..]);
      assert [rows[0]] + rows[1..] == rows;
    }
  }

  lemma {:induction false} ShownReadAll(c: Codec, lines: seq<string>)
    requires Faithful(c) && ReadAll(c, lines).Some? && forall line :: line in lines ==> Free(line, '\n')
    ensures ShowAll(c, ReadAll(c, lines).value) == lines
    ensures forall r :: r in ReadAll(c, lines).value ==> Legal(c, r)
    ensures |ReadAll(c, lines).value| == |lines|
  {
    hide Read, Show, Legal;
    if lines != [] {
      assert lines[0] in lines;
      ShowRead(c, lines[0]);
      ShownReadAll(c, lines[1..]);
      var rows := ReadAll(c, lines).value;
      assert rows[1..] == ReadAll(c, lines[1..]).value;
      assert lines == [lines[0]] + lines[1..];
    }
  }

  /** A manifest is determined by its rows: parsing has an inverse. */
  lemma ParseExact(c: Codec, data: string)
    requires Faithful(c) && Parse(c, data).Some?
    ensures Lines(ShowAll(c, Parse(c, data).value)) == data
    ensures forall r :: r in Parse(c, data).value ==> Legal(c, r)
  {
    hide Legal;
    LinesUnlines(data);
    var lines := Unlines(data).value;
    if data != "" { SplitFree(data[..|data| - 1], '\n'); }
    ShownReadAll(c, lines);
  }

  lemma ParseLines(c: Codec, rows: seq<Row>)
    requires Faithful(c) && Ascending(rows, RowName) && |rows| <= MAX_ENTRIES && forall r :: r in rows ==> Legal(c, r)
    ensures var data := Lines(ShowAll(c, rows)); |data| <= MAX_BYTES ==> Parse(c, data) == Some(rows)
  {
    hide Legal;
    ReadAllShown(c, rows);
    UnlinesLines(ShowAll(c, rows));
  }

  /** Two manifests that read alike are the same bytes. */
  lemma ParseInjective(c: Codec, x: string, y: string)
    requires Faithful(c) && Parse(c, x).Some? && Parse(c, x) == Parse(c, y)
    ensures x == y
  {
    hide Parse, Legal;
    ParseExact(c, x);
    ParseExact(c, y);
  }

  /** On a legal row, agreement with an object leaves nothing open. */
  lemma MatchesExactly(c: Codec, e: Entry, r: Row)
    requires Legal(c, r) && r.path == e.path && e.kind != IsOther
    ensures Matches(c, e, r.obj) <==> r == RowOf(c, e)
  {
  }

  ghost predicate Bounded(site: Site, members: seq<Entry>) {
    forall e :: e in members ==> e.id.dev == site.dev && |e.path| <= MAX_DEPTH
  }

  lemma RowIn(c: Codec, entries: seq<Entry>, e: Entry)
    requires e in entries
    ensures RowOf(c, e) in RowsOf(c, entries)
  {
    hide RowOf;
    var i :| 0 <= i < |entries| && entries[i] == e;
    assert RowsOf(c, entries)[i] == RowOf(c, e);
  }

  lemma RowFrom(c: Codec, entries: seq<Entry>, r: Row) returns (e: Entry)
    requires r in RowsOf(c, entries)
    ensures e in entries && r == RowOf(c, e) && r.path == e.path
  {
    hide RowOf;
    var i :| 0 <= i < |entries| && RowsOf(c, entries)[i] == r;
    e := entries[i];
    RowPath(c, e);
  }

  lemma RowDescribes(c: Codec, rows: seq<Row>, e: Entry)
    requires RowOf(c, e) in rows && Legal(c, RowOf(c, e)) && e.kind != IsOther
    ensures Described(c, rows, e)
  {
    hide Legal;
    MatchesExactly(c, e, RowOf(c, e));
  }

  /** The rows of a tree agree with it. */
  lemma RowsAgree(c: Codec, site: Site, members: seq<Entry>, rows: seq<Row>)
    requires Faithful(c) && Walked(members) && Bounded(site, members) && |members| <= MAX_ENTRIES
    requires forall e :: e in members ==> Writable(site, e)
    requires forall r :: r in rows <==> r in RowsOf(c, members)
    ensures Agrees(c, site, members, rows) && forall r :: r in rows ==> Legal(c, r)
  {
    hide Legal, RowOf, Described, Belongs, Clean, Ascii;
    forall e | e in members ensures Safe(site, e) && Legal(c, RowOf(c, e)) && Described(c, rows, e) {
      RowIn(c, members, e);
      RowLegal(c, site, e);
      RowDescribes(c, rows, e);
    }
    forall r | r in rows ensures Legal(c, r) && Belongs(members, r) {
      var e := RowFrom(c, members, r);
      assert Belongs(members, r) by { EntryBelongs(members, e, r); }
    }
  }

  lemma EntryBelongs(members: seq<Entry>, e: Entry, r: Row)
    requires e in members && e.path == r.path
    ensures Belongs(members, r)
  {
  }

  /** The manifest that is written for a tree is accepted on it, within the bounds. */
  lemma WrittenAccepted(c: Codec, site: Site, entries: seq<Entry>, excluded: Option<string>)
    requires Faithful(c) && Walked(entries) && Written(c, site, entries, excluded).Some?
    requires Bounded(site, Members(entries, excluded)) && |Written(c, site, entries, excluded).value| <= MAX_BYTES
    ensures Accepts(c, site, entries, excluded, Written(c, site, entries, excluded).value)
  {
    hide Legal, Parse, RowOf, Show, Less, Name, Agrees, Writable, Faithful, Sorted, RowsOf;
    var members := Members(entries, excluded);
    var sorted := Sorted(RowsOf(c, members), RowName);
    MembersWalked(entries, excluded);
    RowsDistinct(c, members);
    SortedAscending(RowsOf(c, members), RowName);
    RowsAgree(c, site, members, sorted);
    ParseLines(c, sorted);
  }

  /** Within a manifest a path has one row, so an object that some row describes has exactly that row. */
  lemma AcceptedRow(c: Codec, members: seq<Entry>, data: string, e: Entry, r: Row)
    requires Faithful(c) && Parse(c, data).Some? && Described(c, Parse(c, data).value, e) && e.kind != IsOther
    requires r in Parse(c, data).value && r.path == e.path
    ensures r == RowOf(c, e)
  {
    hide Legal, Parse, RowOf, Less, Name;
    var same :| same in Parse(c, data).value && same.path == e.path && Matches(c, e, same.obj);
    ParseExact(c, data);
    SameNameSameRow(c, data, r, same);
    MatchesExactly(c, e, r);
  }

  lemma DescribedRow(c: Codec, rows: seq<Row>, e: Entry) returns (r: Row)
    requires Described(c, rows, e)
    ensures r in rows && r.path == e.path
  {
    r :| r in rows && r.path == e.path && Matches(c, e, r.obj);
  }

  lemma BelongsTo(members: seq<Entry>, r: Row) returns (e: Entry)
    requires Belongs(members, r)
    ensures e in members && e.path == r.path
  {
    e :| e in members && e.path == r.path;
  }

  /** Acceptance by any bytes means that the rows are exactly those of the tree. */
  lemma AcceptedRows(c: Codec, site: Site, entries: seq<Entry>, excluded: Option<string>, data: string)
    requires Faithful(c) && Accepts(c, site, entries, excluded, data)
    ensures forall r :: r in Parse(c, data).value <==> r in RowsOf(c, Members(entries, excluded))
  {
    hide Legal, Parse, RowOf, Less, Name, Described, Belongs, Faithful, Members, RowsOf;
    var members := Members(entries, excluded);
    var rows := Parse(c, data).value;
    forall r | r in rows ensures r in RowsOf(c, members) {
      var e := BelongsTo(members, r);
      AcceptedRow(c, members, data, e, r);
      RowIn(c, members, e);
    }
    forall r | r in RowsOf(c, members) ensures r in rows {
      var e := RowFrom(c, members, r);
      var same := DescribedRow(c, rows, e);
      AcceptedRow(c, members, data, e, same);
    }
  }

  lemma SameNameSameRow(c: Codec, data: string, r: Row, same: Row)
    requires Parse(c, data).Some? && r in Parse(c, data).value && same in Parse(c, data).value && r.path == same.path
    ensures r == same
  {
    hide ReadAll, Less, Name;
    SameKey(Parse(c, data).value, r, same, RowName);
  }

  /**
   Writing and validating are inverse: within the writer's own limits the only bytes that are accepted on
   a tree are those that the writer produces for it.
  */
  lemma AcceptedIsWritten(c: Codec, site: Site, entries: seq<Entry>, excluded: Option<string>, data: string)
    requires Faithful(c) && Walked(entries) && |entries| <= MAX_ENTRIES
    requires forall e :: e in Members(entries, excluded) ==> Ascii(Name(e.path))
    requires Accepts(c, site, entries, excluded, data)
    ensures Written(c, site, entries, excluded) == Some(data)
  {
    hide Legal, Parse, Matches, RowOf, Show, Less, Name, Secret;
    var members := Members(entries, excluded);
    var rows := Parse(c, data).value;
    ParseExact(c, data);
    AcceptedRows(c, site, entries, excluded, data);
    MembersWalked(entries, excluded);
    RowsDistinct(c, members);
    SortedAscending(RowsOf(c, members), RowName);
    ParseIncreasing(c, data);
    AscendingUnique(rows, Sorted(RowsOf(c, members), RowName), RowName);
    forall e | e in members ensures Writable(site, e) {
      var r := DescribedRow(c, rows, e);
      LegalName(c, r);
    }
  }

  lemma ParseIncreasing(c: Codec, data: string)
    requires Parse(c, data).Some?
    ensures Ascending(Parse(c, data).value, RowName) && |Parse(c, data).value| <= MAX_ENTRIES
  {
    ReadAllLength(c, Unlines(data).value);
  }

  lemma {:induction false} ReadAllLength(c: Codec, lines: seq<string>)
    requires ReadAll(c, lines).Some?
    ensures |ReadAll(c, lines).value| == |lines|
  {
    hide Read;
    if lines != [] { ReadAllLength(c, lines[1..]); }
  }

  lemma LegalName(c: Codec, r: Row)
    requires Legal(c, r)
    ensures Clean(Name(r.path))
  {
    NameClean(r.path);
  }

  /** The same object in all that a manifest records: kind, identity and public content. */
  predicate Alike(c: Codec, e: Entry, f: Entry) {
    && f.path == e.path && f.kind == e.kind
    && (e.kind == IsDirectory ==> DirectoryOf(f.id) == DirectoryOf(e.id))
    && (e.kind == IsFile ==> f.id == e.id && (!Secret(e.path) ==> c.hash(f.content) == c.hash(e.content)))
  }

  lemma SameRowAlike(c: Codec, e: Entry, f: Entry)
    requires RowOf(c, e) == RowOf(c, f) && e.kind != IsOther && f.kind != IsOther
    ensures Alike(c, e, f)
  {
    hide Secret;
  }

  /** One manifest accepted on two trees: the same paths, identities and public content. */
  lemma AcceptedTreesAgree(c: Codec, site: Site, x: seq<Entry>, y: seq<Entry>, excluded: Option<string>, data: string, e: Entry)
    returns (f: Entry)
    requires Faithful(c) && Accepts(c, site, x, excluded, data) && Accepts(c, site, y, excluded, data) && e in Members(x, excluded)
    ensures f in Members(y, excluded) && Alike(c, e, f)
  {
    hide Legal, Parse, RowOf, Name, Alike, Described, Belongs, Members, RowsOf;
    AcceptedRows(c, site, x, excluded, data);
    AcceptedRows(c, site, y, excluded, data);
    RowIn(c, Members(x, excluded), e);
    f := RowFrom(c, Members(y, excluded), RowOf(c, e));
    SameRowAlike(c, e, f);
  }
}
