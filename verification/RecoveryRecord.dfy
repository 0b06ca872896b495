/**
 Recovery journals as text: one field a line. Parsing and printing are exact inverses, and rewriting a
 journal in sorted order keeps every field.
*/
module RecoveryRecord {
  import opened Options
  import opened Texts

  datatype Pair = Pair(key: string, value: string)

  predicate KeyChar(x: char) {
    'a' <= x <= 'z' || '0' <= x <= '9' || x == '_'
  }

  predicate ValueChar(x: char) {
    ' ' <= x <= '~'
  }

  predicate LegalKey(key: string) {
    key != "" && forall x :: x in key ==> KeyChar(x)
  }

  predicate LegalValue(value: string) {
    value != "" && forall x :: x in value ==> ValueChar(x)
  }

  predicate LegalPair(p: Pair) {
    LegalKey(p.key) && LegalValue(p.value)
  }

  function KeyOf(p: Pair): string { p.key }

  /** The records that a journal can hold: at least one field, no field twice. */
  predicate Legal(pairs: seq<Pair>) {
    pairs != [] && (forall p :: p in pairs ==> LegalPair(p)) && DistinctKeys(pairs, KeyOf)
  }

  function Show(p: Pair): string {
    p.key + "=" + p.value
  }

  function ShowAll(pairs: seq<Pair>): (lines: seq<string>)
    ensures |lines| == |pairs| && forall i :: 0 <= i < |pairs| ==> lines[i] == Show(pairs[i])
  {
    if pairs == [] then [] else [Show(pairs[0])] + ShowAll(pairs[1..])
  }

  /** `_serialize_pairs`. */
  function Print(pairs: seq<Pair>): string {
    Lines(ShowAll(pairs))
  }

  /** The first index of `sep`, or the length. */
  function Find(text: string, sep: char): (i: nat)
    ensures i <= |text| && sep !in text[..i] && (i < |text| ==> text[i] == sep)
  {
    if text == "" || text[0] == sep then 0 else 1 + Find(text[1..], sep)
  }

  /** One line: the key up to the first `=`, and the rest. */
  function Read(line: string): Option<Pair> {
    var i := Find(line, '=');
    if i == |line| then None
    else
      var p := Pair(line[..i], line[i + 1..]);
      if LegalPair(p) then Some(p) else None
  }

  function ReadAll(lines: seq<string>): Option<seq<Pair>> {
    if lines == [] then Some([])
    else
      match (Read(lines[0]), ReadAll(lines[1..]))
      case (Some(p), Some(pairs)) => Some([p] + pairs)
      case _ => None
  }

  predicate EndsOnce(data: string) {
    data != "" && data[|data| - 1] == '\n' && (|data| > 1 ==> data[|data| - 2] != '\n')
  }

  /** `_parse_generic`. */
  function Parse(data: string): Option<seq<Pair>> {
    if !EndsOnce(data) then None
    else
      match ReadAll(Split(data[..|data| - 1], '\n'))
      case None => None
      case Some(pairs) => if DistinctKeys(pairs, KeyOf) then Some(pairs) else None
  }

  // ---------------------------------------------------------------- inverses

  lemma {:induction false} FindAfter(key: string, rest: string)
    requires Free(key, '=')
    ensures Find(key + "=" + rest, '=') == |key|
  {
    if key != "" {
      FindAfter(key[1..], rest);
      assert (key + "=" + rest)[1..] == key[1..] + "=" + rest;
    }
  }

  lemma ReadShow(p: Pair)
    requires LegalPair(p)
    ensures Read(Show(p)) == Some(p) && Free(Show(p), '\n') && Show(p) != ""
  {
    FindAfter(p.key, p.value);
    var line := p.key + "=" + p.value;
    assert line[..|p.key|] == p.key && line[|p.key| + 1..] == p.value;
  }

  lemma ShowRead(line: string)
    requires Read(line).Some?
    ensures Show(Read(line).value) == line
  {
    var i := Find(line, '=');
    assert line == line[..i] + "=" + line[i + 1..];
  }

  lemma {:induction false} ReadAllShown(pairs: seq<Pair>)
    requires forall p :: p in pairs ==> LegalPair(p)
    ensures ReadAll(ShowAll(pairs)) == Some(pairs)
    ensures forall line :: line in ShowAll(pairs) ==> Free(line, '\n') && line != ""
  {
    hide Read, Show, LegalPair;
    if pairs != [] {
      ReadShow(pairs[0]);
      ReadAllShown(pairs[1..]);
      assert ShowAll(pairs)[1..] == ShowAll(pairs[1..]);
      assert [pairs[0]] + pairs[1..] == pairs;
    }
  }

  lemma {:induction false} ShownReadAll(lines: seq<string>)
    requires ReadAll(lines).Some?
    ensures ShowAll(ReadAll(lines).value) == lines
    ensures forall p :: p in ReadAll(lines).value ==> LegalPair(p)
  {
    hide Show, LegalPair, Find;
    if lines != [] {
      ShowRead(lines[0]);
      ShownReadAll(lines[1..]);
      var pairs := ReadAll(lines).value;
      assert pairs[1..] == ReadAll(lines[1..]).value;
      assert lines == [lines[0]] + lines[1..];
    }
  }

  lemma LegalParses(pairs: seq<Pair>)
    requires Legal(pairs)
    ensures Parse(Print(pairs)) == Some(pairs)
  {
    hide LegalPair, DistinctKeys;
    var lines := ShowAll(pairs);
    ReadAllShown(pairs);
    LinesJoin(lines);
    SplitJoin(lines, '\n');
    var body := Join(lines, '\n');
    assert Print(pairs)[..|Print(pairs)| - 1] == body;
    JoinEnds(lines);
    assert Print(pairs)[|body| - 1] == body[|body| - 1];
  }

  lemma {:induction false} JoinEnds(lines: seq<string>)
    requires lines != [] && forall line :: line in lines ==> line != "" && Free(line, '\n')
    ensures Join(lines, '\n') != "" && Join(lines, '\n')[|Join(lines, '\n')| - 1] != '\n'
  {
    if |lines| > 1 {
      assert forall line :: line in lines[1..] ==> line in lines;
      JoinEnds(lines[1..]);
    } else {
      assert lines[0] in lines && lines[0][|lines[0]| - 1] in lines[0];
    }
  }

  /** What can be parsed is what is printed for the pairs it is read as, in their order: nothing else is accepted. */
  lemma PrintParse(data: string)
    requires Parse(data).Some?
    ensures Print(Parse(data).value) == data && Legal(Parse(data).value)
  {
    hide LegalPair, DistinctKeys;
    var body := data[..|data| - 1];
    var lines := Split(body, '\n');
    JoinSplit(body, '\n');
    ShownReadAll(lines);
    LinesJoin(lines);
    assert data == body + "\n";
  }

  /** The fields that are read back unchanged from what is printed for them are exactly the legal ones. */
  lemma ParsePrint(pairs: seq<Pair>)
    ensures Parse(Print(pairs)) == Some(pairs) <==> Legal(pairs)
  {
    hide Legal, Parse, Print;
    if Legal(pairs) { LegalParses(pairs); }
    if Parse(Print(pairs)).Some? { PrintParse(Print(pairs)); }
  }

  // ----------------------------------------------------------------- rewrite

  /** The mapping that a record stands for. */
  function AsMap(pairs: seq<Pair>): map<string, string> {
    if pairs == [] then map[] else AsMap(pairs[..|pairs| - 1])[pairs[|pairs| - 1].key := pairs[|pairs| - 1].value]
  }

  predicate Holds(m: map<string, string>, p: Pair) {
    p.key in m && m[p.key] == p.value
  }

  lemma HoldsUpdated(m: map<string, string>, last: Pair, p: Pair)
    ensures Holds(m[last.key := last.value], p) <==> p == last || (p.key != last.key && Holds(m, p))
  {
  }

  lemma {:induction false} AsMapHolds(pairs: seq<Pair>, p: Pair)
    requires DistinctKeys(pairs, KeyOf)
    ensures Holds(AsMap(pairs), p) <==> p in pairs
  {
    hide Holds;
    if pairs == [] {
      assert !Holds(map[], p) by { NothingHeld(p); }
    } else {
      var front, last := pairs[..|pairs| - 1], pairs[|pairs| - 1];
      AsMapHolds(front, p);
      HoldsUpdated(AsMap(front), last, p);
      if p in front { LastIsNew(pairs, p); }
      assert pairs == front + [last];
    }
  }

  lemma NothingHeld(p: Pair)
    ensures !Holds(map[], p)
  {
  }

  lemma LastIsNew(pairs: seq<Pair>, p: Pair)
    requires pairs != [] && DistinctKeys(pairs, KeyOf) && p in pairs[..|pairs| - 1]
    ensures p.key != pairs[|pairs| - 1].key
  {
    var i :| 0 <= i < |pairs| - 1 && pairs[..|pairs| - 1][i] == p;
    assert KeyOf(pairs[i]) != KeyOf(pairs[|pairs| - 1]);
  }

  /** The order of the pairs does not matter to the mapping. */
  lemma SameMap(x: seq<Pair>, y: seq<Pair>)
    requires DistinctKeys(x, KeyOf) && DistinctKeys(y, KeyOf) && forall p :: p in x <==> p in y
    ensures AsMap(x) == AsMap(y)
  {
    forall p ensures Holds(AsMap(x), p) <==> Holds(AsMap(y), p) {
      AsMapHolds(x, p);
      AsMapHolds(y, p);
    }
    MapsEqual(AsMap(x), AsMap(y));
  }

  lemma MapsEqual(x: map<string, string>, y: map<string, string>)
    requires forall p :: Holds(x, p) <==> Holds(y, p)
    ensures x == y
  {
    forall key ensures key in x <==> key in y {
      if key in x { assert Holds(x, Pair(key, x[key])); }
      if key in y { assert Holds(y, Pair(key, y[key])); }
    }
    forall key | key in x ensures x[key] == y[key] { assert Holds(x, Pair(key, x[key])); }
  }

  /** `serialize_typed_recovery_rewrite`: the fields in the order of their keys. */
  function Rewritten(pairs: seq<Pair>): string {
    Print(Sorted(pairs, KeyOf))
  }

  lemma AscendingDistinct(pairs: seq<Pair>)
    requires Ascending(pairs, KeyOf)
    ensures DistinctKeys(pairs, KeyOf)
  {
    forall i, j | 0 <= i < j < |pairs| ensures KeyOf(pairs[i]) != KeyOf(pairs[j]) { LessTotal(KeyOf(pairs[i]), KeyOf(pairs[j])); }
  }

  lemma SortedLegal(pairs: seq<Pair>)
    requires Legal(pairs)
    ensures Legal(Sorted(pairs, KeyOf)) && Ascending(Sorted(pairs, KeyOf), KeyOf)
    ensures forall p :: p in Sorted(pairs, KeyOf) <==> p in pairs
  {
    SortedAscending(pairs, KeyOf);
    AscendingDistinct(Sorted(pairs, KeyOf));
  }

  /** Rewriting keeps every field and puts the keys in order. */
  lemma RewriteKeeps(pairs: seq<Pair>)
    requires Legal(pairs)
    ensures var parsed := Parse(Rewritten(pairs));
            parsed.Some? && Ascending(parsed.value, KeyOf) && AsMap(parsed.value) == AsMap(pairs)
  {
    SortedLegal(pairs);
    ParsePrint(Sorted(pairs, KeyOf));
    SameMap(Sorted(pairs, KeyOf), pairs);
  }

  /** Rewriting what was parsed gives the same bytes exactly if the fields were in order. */
  lemma RewriteIsIdentityOnSorted(data: string)
    requires Parse(data).Some?
    ensures Rewritten(Parse(data).value) == data <==> Ascending(Parse(data).value, KeyOf)
  {
    var pairs := Parse(data).value;
    PrintParse(data);
    SortedLegal(pairs);
    if Ascending(pairs, KeyOf) { AscendingUnique(pairs, Sorted(pairs, KeyOf), KeyOf); }
    if Rewritten(pairs) == data { ParsePrint(Sorted(pairs, KeyOf)); }
  }

  /** Two journals that hold the same fields are rewritten to the same bytes. */
  lemma RewriteCanonical(x: seq<Pair>, y: seq<Pair>)
    requires Legal(x) && Legal(y) && AsMap(x) == AsMap(y)
    ensures Rewritten(x) == Rewritten(y)
  {
    SortedLegal(x);
    SortedLegal(y);
    forall p ensures p in x <==> p in y {
      AsMapHolds(x, p);
      AsMapHolds(y, p);
    }
    AscendingUnique(Sorted(x, KeyOf), Sorted(y, KeyOf), KeyOf);
  }

  // ------------------------------------------------------------------ parser

  lemma ReadsOn(pairs: seq<Pair>, lines: seq<string>)
    requires lines != []
    ensures Continued(pairs, ReadAll(lines)) ==
            match Read(lines[0]) { case None => None case Some(p) => Continued(pairs + [p], ReadAll(lines[1..])) }
  {
    hide Read;
    if Read(lines[0]).Some? { ContinuedByOne(pairs, Read(lines[0]).value, ReadAll(lines[1..])); }
  }

  ghost predicate Seen(seen: set<string>, pairs: seq<Pair>) {
    forall key :: key in seen <==> exists i :: 0 <= i < |pairs| && pairs[i].key == key
  }

  lemma SeenTwice(pairs: seq<Pair>, p: Pair, rest: Option<seq<Pair>>, seen: set<string>)
    requires Seen(seen, pairs) && p.key in seen
    ensures match Continued(pairs + [p], rest) { case None => true case Some(all) => !DistinctKeys(all, KeyOf) }
  {
    if rest.Some? {
      var all := pairs + [p] + rest.value;
      var i :| 0 <= i < |pairs| && pairs[i].key == p.key;
      assert KeyOf(all[i]) == KeyOf(all[|pairs|]);
    }
  }

  lemma SeenOnce(pairs: seq<Pair>, p: Pair, seen: set<string>)
    requires Seen(seen, pairs) && p.key !in seen && DistinctKeys(pairs, KeyOf)
    ensures Seen(seen + {p.key}, pairs + [p]) && DistinctKeys(pairs + [p], KeyOf)
  {
    var all := pairs + [p];
    forall key ensures key in seen + {p.key} <==> exists i :: 0 <= i < |all| && all[i].key == key {
      if key == p.key { assert all[|pairs|].key == key; }
      if key in seen { var i :| 0 <= i < |pairs| && pairs[i].key == key; assert all[i].key == key; }
    }
  }

  /** The loop of `_parse_generic`. */
  method ParseRecord(data: string) returns (record: Option<seq<Pair>>)
    ensures record == Parse(data)
  {
    hide Read, Seen, DistinctKeys;
    if !EndsOnce(data) { return None; }
    var lines := Split(data[..|data| - 1], '\n');
    var pairs: seq<Pair> := [];
    var seen: set<string> := {};
    assert Seen(seen, pairs) && DistinctKeys(pairs, KeyOf) by { NothingSeen(); }
    assert lines[0..] == lines;
    if ReadAll(lines).Some? { assert [] + ReadAll(lines).value == ReadAll(lines).value; }
    var i := 0;
    while i < |lines|
      invariant i <= |lines| && Seen(seen, pairs) && DistinctKeys(pairs, KeyOf)
      invariant ReadAll(lines) == Continued(pairs, ReadAll(lines[i..]))
    {
      assert lines[i..][1..] == lines[i + 1..];
      ReadsOn(pairs, lines[i..]);
      var p := Read(lines[i]);
      if p.None? { return None; }
      if p.value.key in seen {
        SeenTwice(pairs, p.value, ReadAll(lines[i + 1..]), seen);
        return None;
      }
      SeenOnce(pairs, p.value, seen);
      pairs, seen := pairs + [p.value], seen + {p.value.key};
      i := i + 1;
    }
    assert ReadAll(lines[i..]) == Some([]);
    assert pairs + [] == pairs;
    return Some(pairs);
  }

  lemma NothingSeen()
    ensures Seen({}, []) && DistinctKeys([], KeyOf)
  {
  }

  // ------------------------------------------------------- cumulative copies

  /** The copies of the root database that a preparation makes, in the order in which it makes them. */
  const REQUIRED: seq<string> := [
    "root_stage_cert", "root_stage_index", "root_stage_index_backup", "root_stage_index_attr",
    "root_stage_index_attr_backup", "root_stage_serial", "root_stage_serial_backup",
    "root_stage_crlnumber", "root_stage_crlnumber_backup"]

  const OPTIONAL: seq<string> := [
    "root_stage_index_old_backup", "root_stage_index_attr_old_backup",
    "root_stage_serial_old_backup", "root_stage_crlnumber_old_backup"]

  /** `begun` are the copies with a recorded destination, `done` those with a recorded result. */
  datatype Copies = Copies(begun: set<string>, done: set<string>)

  function Kept(names: seq<string>, existing: set<string>): (kept: seq<string>)
    ensures forall n :: n in kept <==> n in names && n in existing
  {
    if names == [] then []
    else (if names[0] in existing then [names[0]] else []) + Kept(names[1..], existing)
  }

  /** The copy loop: the required files, then those of the older generation that exist. */
  function Loop(existing: set<string>): seq<string> {
    REQUIRED + Kept(OPTIONAL, existing)
  }

  function Names(names: seq<string>): set<string> {
    set n | n in names
  }

  /** The journal after `n` finished copies, and possibly with the next one begun. */
  function CopiesAfter(order: seq<string>, n: nat, pending: bool): Copies
    requires n <= |order|
  {
    Copies(Names(order[..if pending && n < |order| then n + 1 else n]), Names(order[..n]))
  }

  /** The last required copy that is done, as an index; -1 if none is. */
  method Latest(done: set<string>) returns (latest: int)
    ensures -1 <= latest < |REQUIRED|
    ensures latest >= 0 ==> REQUIRED[latest] in done
    ensures forall i :: latest < i < |REQUIRED| ==> REQUIRED[i] !in done
  {
    latest := -1;
    for i := 0 to |REQUIRED|
      invariant -1 <= latest < i
      invariant latest >= 0 ==> REQUIRED[latest] in done
      invariant forall j :: latest < j < i ==> REQUIRED[j] !in done
    {
      if REQUIRED[i] in done { latest := i; }
    }
  }

  /** Done copies are a prefix of the required ones, optional ones come after all of them, and each was begun. */
  predicate Cumulative(c: Copies) {
    && (forall i, j :: 0 <= i < j < |REQUIRED| && REQUIRED[j] in c.done ==> REQUIRED[i] in c.done)
    && (c.done - Names(REQUIRED) != {} ==> Names(REQUIRED) <= c.done)
    && c.done <= c.begun
  }

  /** The check of `_validate_rollover_prepare` on the copies. */
  method CheckCopies(c: Copies) returns (ok: bool)
    ensures ok == Cumulative(c)
  {
    var latest := Latest(c.done);
    var i := 0;
    while i <= latest
      invariant 0 <= i <= latest + 1
      invariant forall j :: 0 <= j < i ==> REQUIRED[j] in c.done
    {
      if REQUIRED[i] !in c.done {
        assert i < latest;
        return false;
      }
      i := i + 1;
    }
    if c.done - Names(REQUIRED) != {} && !(Names(REQUIRED) <= c.done) { return false; }
    return c.done <= c.begun;
  }

  /** Wherever the copy loop is interrupted, its journal passes the check, whatever older files exist. */
  lemma LoopIsCumulative(existing: set<string>, n: nat, pending: bool)
    requires n <= |Loop(existing)|
    ensures Cumulative(CopiesAfter(Loop(existing), n, pending))
  {
    var order := Loop(existing);
    var c := CopiesAfter(order, n, pending);
    forall i, j | 0 <= i < j < |REQUIRED| && REQUIRED[j] in c.done ensures REQUIRED[i] in c.done {
      if n >= |REQUIRED| {
        assert order[..n][i] == REQUIRED[i];
      } else {
        RequiredPrefix(order, n, j);
        assert order[..n][i] == REQUIRED[i];
      }
    }
    if x :| x in c.done - Names(REQUIRED) {
      var k :| 0 <= k < n && order[..n][k] == x;
      assert forall a :: 0 <= a < |REQUIRED| ==> order[a] == REQUIRED[a] && REQUIRED[a] in Names(REQUIRED);
      assert k >= |REQUIRED|;
      forall y | y in Names(REQUIRED) ensures y in c.done {
        var i :| 0 <= i < |REQUIRED| && REQUIRED[i] == y;
        assert order[..n][i] == y;
      }
    }
    forall x | x in c.done ensures x in c.begun {
      var k :| 0 <= k < n && order[..n][k] == x;
      assert order[..if pending && n < |order| then n + 1 else n][k] == x;
    }
  }

  lemma RequiredDistinct(i: nat, j: nat)
    requires i < j < |REQUIRED|
    ensures REQUIRED[i] != REQUIRED[j]
  {
  }

  lemma RequiredPrefix(order: seq<string>, n: nat, j: nat)
    requires n < |REQUIRED| && |order| >= |REQUIRED| && order[..|REQUIRED|] == REQUIRED && j < |REQUIRED|
    requires REQUIRED[j] in order[..n]
    ensures j < n
  {
    var k :| 0 <= k < n && order[..n][k] == REQUIRED[j];
    assert REQUIRED[k] == REQUIRED[j];
    if k < j { RequiredDistinct(k, j); }
  }
}
