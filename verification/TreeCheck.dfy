/**
 The loops that write and validate a tree manifest, proved against `Written` and `Accepts`.
*/
module TreeCheck {
  import opened Options
  import opened Texts
  import opened TreeManifest

  lemma ReadsOn(c: Codec, rows: seq<Row>, lines: seq<string>)
    requires lines != []
    ensures Continued(rows, ReadAll(c, lines)) ==
            match Read(c, lines[0]) { case None => None case Some(r) => Continued(rows + [r], ReadAll(c, lines[1..])) }
  {
    hide Read;
    if Read(c, lines[0]).Some? { ContinuedByOne(rows, Read(c, lines[0]).value, ReadAll(c, lines[1..])); }
  }

  lemma OutOfOrder(rows: seq<Row>, r: Row, rest: Option<seq<Row>>)
    requires rows != [] && !Less(Name(rows[|rows| - 1].path), Name(r.path))
    ensures match Continued(rows + [r], rest) { case None => true case Some(all) => !Ascending(all, RowName) }
  {
    if rest.Some? {
      var all := rows + [r] + rest.value;
      assert all[|rows| - 1] == rows[|rows| - 1] && all[|rows|] == r;
    }
  }

  lemma InOrder(rows: seq<Row>, r: Row)
    requires Ascending(rows, RowName) && (rows == [] || Less(Name(rows[|rows| - 1].path), Name(r.path)))
    ensures Ascending(rows + [r], RowName)
  {
    forall i | 0 <= i < |rows| ensures Less(Name(rows[i].path), Name(r.path)) {
      if i < |rows| - 1 { LessTrans(Name(rows[i].path), Name(rows[|rows| - 1].path), Name(r.path)); }
    }
  }

  /** The rows by path. */
  ghost predicate Indexes(expected: map<Path, Object>, rows: seq<Row>) {
    forall path, o :: (path in expected && expected[path] == o) <==> Row(path, o) in rows
  }

  lemma IndexGrows(expected: map<Path, Object>, rows: seq<Row>, r: Row)
    requires Indexes(expected, rows) && r.path !in expected
    ensures Indexes(expected[r.path := r.obj], rows + [r])
  {
    forall path, o
      ensures (path in expected[r.path := r.obj] && expected[r.path := r.obj][path] == o) <==> Row(path, o) in rows + [r]
    {
      assert Row(path, o) in rows + [r] <==> Row(path, o) in rows || Row(path, o) == r;
    }
  }

  lemma FreshPath(expected: map<Path, Object>, rows: seq<Row>, r: Row)
    requires Indexes(expected, rows) && Ascending(rows + [r], RowName)
    ensures r.path !in expected
  {
    if r.path in expected {
      var i :| 0 <= i < |rows| && rows[i] == Row(r.path, expected[r.path]);
      assert (rows + [r])[i] == rows[i] && (rows + [r])[|rows|] == r;
      LessTotal(Name(rows[i].path), Name(r.path));
    }
  }

  /** Reads a manifest line by line, keeping the previous name and the rows by path. */
  method ReadManifest(c: Codec, data: string) returns (rows: Option<seq<Row>>, expected: map<Path, Object>)
    ensures rows == Parse(c, data)
    ensures rows.Some? ==> Indexes(expected, rows.value)
  {
    hide Read, Indexes, Less, Name, Ascending;
    expected := map[];
    if |data| > MAX_BYTES || Unlines(data).None? { return None, expected; }
    var lines := Unlines(data).value;
    if |lines| > MAX_ENTRIES { return None, expected; }
    var done: seq<Row> := [];
    assert Indexes(expected, done) by { NothingIndexed(); }
    assert Ascending(done, RowName) by { NothingIndexed(); }
    assert lines[0..] == lines;
    if ReadAll(c, lines).Some? { assert [] + ReadAll(c, lines).value == ReadAll(c, lines).value; }
    var i := 0;
    while i < |lines|
      invariant i <= |lines| && Ascending(done, RowName) && Indexes(expected, done)
      invariant ReadAll(c, lines) == Continued(done, ReadAll(c, lines[i..]))
    {
      assert lines[i..][1..] == lines[i + 1..];
      ReadsOn(c, done, lines[i..]);
      var row := Read(c, lines[i]);
      if row.None? { return None, expected; }
      if done != [] && !Less(Name(done[|done| - 1].path), Name(row.value.path)) {
        OutOfOrder(done, row.value, ReadAll(c, lines[i + 1..]));
        return None, expected;
      }
      InOrder(done, row.value);
      FreshPath(expected, done, row.value);
      IndexGrows(expected, done, row.value);
      done, expected := done + [row.value], expected[row.value.path := row.value.obj];
      i := i + 1;
    }
    assert ReadAll(c, lines[i..]) == Some([]);
    assert done + [] == done;
    return Some(done), expected;
  }

  lemma NothingIndexed()
    ensures Indexes(map[], []) && Ascending([], RowName)
  {
  }

  /** The members by path. */
  ghost predicate Collects(actual: map<Path, Entry>, members: seq<Entry>) {
    && (forall path :: path in actual ==> actual[path] in members && actual[path].path == path)
    && (forall e :: e in members ==> e.path in actual && actual[e.path] == e)
  }

  lemma {:induction false} MembersAppend(entries: seq<Entry>, e: Entry, excluded: Option<string>)
    ensures Members(entries + [e], excluded) == Members(entries, excluded) + (if Member(e, excluded) then [e] else [])
  {
    hide Member;
    if entries != [] {
      MembersAppend(entries[1..], e, excluded);
      assert (entries + [e])[1..] == entries[1..] + [e];
    } else {
      assert [] + [e] == [e];
    }
  }

  lemma Collected(actual: map<Path, Entry>, members: seq<Entry>, e: Entry)
    requires Collects(actual, members) && e.path !in actual
    ensures Collects(actual[e.path := e], members + [e])
  {
    forall x ensures x in members + [e] <==> x in members || x == e { }
  }

  lemma NewPath(entries: seq<Entry>, i: nat, excluded: Option<string>, actual: map<Path, Entry>)
    requires Walked(entries) && i < |entries| && Collects(actual, Members(entries[..i], excluded))
    ensures entries[i].path !in actual
  {
    forall e | e in Members(entries[..i], excluded) ensures e.path != entries[i].path { }
  }

  /** The two collections agree exactly when the members and the rows do. */
  lemma CollectionsAgree(c: Codec, site: Site, members: seq<Entry>, rows: seq<Row>,
                         actual: map<Path, Entry>, expected: map<Path, Object>)
    requires Collects(actual, members) && Indexes(expected, rows) && |members| <= MAX_ENTRIES
    requires forall e :: e in members ==> Safe(site, e)
    ensures Agrees(c, site, members, rows) <==>
            actual.Keys == expected.Keys && forall path :: path in actual ==> Matches(c, actual[path], expected[path])
  {
    hide Matches, Safe;
    if actual.Keys == expected.Keys && forall path :: path in actual ==> Matches(c, actual[path], expected[path]) {
      forall e | e in members ensures Described(c, rows, e) {
        var r := Row(e.path, expected[e.path]);
        assert r in rows && Matches(c, e, r.obj);
      }
      forall r | r in rows ensures Belongs(members, r) {
        assert r == Row(r.path, r.obj);
        EntryBelongs(members, actual[r.path], r);
      }
    }
    if Agrees(c, site, members, rows) {
      forall path ensures path in actual.Keys <==> path in expected.Keys {
        if path in actual { var r := DescribedRow(c, rows, actual[path]); assert r == Row(r.path, r.obj); }
        if path in expected { var e := BelongsTo(members, Row(path, expected[path])); }
      }
      forall path | path in actual ensures Matches(c, actual[path], expected[path]) {
        var r :| r in rows && r.path == path && Matches(c, actual[path], r.obj);
        assert r == Row(r.path, r.obj);
      }
    }
  }

  lemma UnsafeRefused(c: Codec, site: Site, entries: seq<Entry>, excluded: Option<string>, data: string, e: Entry)
    requires e in entries && Member(e, excluded) && !Safe(site, e)
    ensures !Accepts(c, site, entries, excluded, data)
  {
    hide Parse, Safe, Described, Belongs;
    assert e in Members(entries, excluded);
  }

  /** `_validate_tree`. */
  method Validate(c: Codec, site: Site, entries: seq<Entry>, excluded: Option<string>, data: string) returns (ok: bool)
    requires Walked(entries)
    ensures ok == Accepts(c, site, entries, excluded, data)
  {
    hide Parse, Indexes, Collects, Walked, Safe, Matches, Agrees, Members;
    var rows, expected := ReadManifest(c, data);
    if rows.None? { return false; }
    var actual: map<Path, Entry> := map[];
    assert Collects(actual, Members(entries[..0], excluded)) by { NothingCollected(); }
    assert |Members(entries[..0], excluded)| == 0 by { NothingCollected(); }
    for i := 0 to |entries|
      invariant Collects(actual, Members(entries[..i], excluded))
      invariant |actual| == |Members(entries[..i], excluded)|
      invariant forall e :: e in Members(entries[..i], excluded) ==> Safe(site, e)
    {
      var e := entries[i];
      assert entries[..i + 1] == entries[..i] + [e];
      MembersAppend(entries[..i], e, excluded);
      if Member(e, excluded) {
        if !Safe(site, e) {
          UnsafeRefused(c, site, entries, excluded, data, e);
          return false;
        }
        NewPath(entries, i, excluded, actual);
        Collected(actual, Members(entries[..i], excluded), e);
        actual := actual[e.path := e];
      } else {
        assert Members(entries[..i], excluded) + [] == Members(entries[..i], excluded);
      }
    }
    assert entries[..|entries|] == entries;
    if |actual| > MAX_ENTRIES {
      TooMany(c, site, entries, excluded, data);
      return false;
    }
    CollectionsAgree(c, site, Members(entries, excluded), rows.value, actual, expected);
    if actual.Keys != expected.Keys { return false; }
    var todo := actual.Keys;
    while todo != {}
      invariant todo <= actual.Keys
      invariant forall path :: path in actual && path !in todo ==> Matches(c, actual[path], expected[path])
      decreases todo
    {
      var path :| path in todo;
      if !Matches(c, actual[path], expected[path]) { return false; }
      todo := todo - {path};
    }
    return true;
  }

  lemma NothingCollected()
    ensures forall excluded, entries: seq<Entry> :: Members(entries[..0], excluded) == [] && Collects(map[], [])
  {
  }

  lemma TooMany(c: Codec, site: Site, entries: seq<Entry>, excluded: Option<string>, data: string)
    requires |Members(entries, excluded)| > MAX_ENTRIES
    ensures !Accepts(c, site, entries, excluded, data)
  {
    hide Parse, Safe, Described, Belongs;
  }

  /** `_tree_manifest_bytes`. */
  method Write(c: Codec, site: Site, entries: seq<Entry>, excluded: Option<string>) returns (data: Option<string>)
    ensures data == Written(c, site, entries, excluded)
  {
    hide Writable, RowOf, Members, Sorted, ShowAll, Lines;
    if |entries| > MAX_ENTRIES { return None; }
    var rows: seq<Row> := [];
    ghost var members: seq<Entry> := [];
    assert Members(entries[..0], excluded) == [] by { NothingCollected(); }
    for i := 0 to |entries|
      invariant members == Members(entries[..i], excluded) && rows == RowsOf(c, members)
      invariant forall e :: e in members ==> Writable(site, e)
    {
      var e := entries[i];
      assert entries[..i + 1] == entries[..i] + [e];
      MembersAppend(entries[..i], e, excluded);
      if Member(e, excluded) {
        if !Writable(site, e) {
          assert e in Members(entries, excluded);
          return None;
        }
        RowsAppend(c, members, e);
        members, rows := members + [e], rows + [RowOf(c, e)];
      }
    }
    assert entries[..|entries|] == entries;
    return Some(Lines(ShowAll(c, Sorted(rows, RowName))));
  }

  lemma RowsAppend(c: Codec, members: seq<Entry>, e: Entry)
    ensures RowsOf(c, members + [e]) == RowsOf(c, members) + [RowOf(c, e)]
  {
  }
}
