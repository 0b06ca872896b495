/**
 Splitting and joining of text at a separator, and the order of texts.
*/
module Texts {
  import opened Options

  /** What was read already, continued by what the remaining lines read as. */
  function Continued<T>(done: seq<T>, rest: Option<seq<T>>): Option<seq<T>> {
    match rest
    case None => None
    case Some(more) => Some(done + more)
  }

  lemma ContinuedByOne<T>(done: seq<T>, next: T, rest: Option<seq<T>>)
    ensures Continued(done, Continued([next], rest)) == Continued(done + [next], rest)
  {
    if rest.Some? { assert done + ([next] + rest.value) == done + [next] + rest.value; }
  }

  /** Python's `split`: one part more than there are separators. */
  function Split(text: string, sep: char): (parts: seq<string>)
    ensures parts != []
  {
    if text == "" then [""]
    else
      var rest := Split(text[1..], sep);
      if text[0] == sep then [""] + rest else [[text[0]] + rest[0]] + rest[1..]
  }

  function Join(parts: seq<string>, sep: char): string {
    if parts == [] then "" else if |parts| == 1 then parts[0] else parts[0] + [sep] + Join(parts[1..], sep)
  }

  predicate Free(text: string, sep: char) {
    sep !in text
  }

  lemma {:induction false} SplitFree(text: string, sep: char)
    ensures forall part :: part in Split(text, sep) ==> Free(part, sep)
  {
    if text != "" {
      SplitFree(text[1..], sep);
      var rest := Split(text[1..], sep);
      forall part | part in Split(text, sep) ensures Free(part, sep) {
        assert Free(rest[0], sep) && forall r :: r in rest[1..] ==> r in rest;
        if text[0] == sep {
          assert part == "" || part in rest;
        } else {
          assert part == [text[0]] + rest[0] || part in rest[1..];
        }
      }
    }
  }

  lemma JoinCons(first: char, parts: seq<string>, sep: char)
    requires parts != []
    ensures Join([[first] + parts[0]] + parts[1..], sep) == [first] + Join(parts, sep)
  {
    if |parts| > 1 {
      assert ([[first] + parts[0]] + parts[1..])[1..] == parts[1..];
      assert [first] + (parts[0] + [sep] + Join(parts[1..], sep)) == [first] + parts[0] + [sep] + Join(parts[1..], sep);
    }
  }

  lemma {:induction false} JoinSplit(text: string, sep: char)
    ensures Join(Split(text, sep), sep) == text
  {
    if text != "" {
      var rest := Split(text[1..], sep);
      JoinSplit(text[1..], sep);
      if text[0] == sep {
        assert ([""] + rest)[1..] == rest;
      } else {
        JoinCons(text[0], rest, sep);
      }
    }
  }

  lemma {:induction false} SplitOne(text: string, sep: char)
    requires Free(text, sep)
    ensures Split(text, sep) == [text]
  {
    if text != "" {
      SplitOne(text[1..], sep);
      assert [text[0]] + text[1..] == text;
    }
  }

  /** The separator after a part that is free of it splits off exactly that part. */
  lemma {:induction false} SplitFirst(part: string, rest: string, sep: char)
    requires Free(part, sep)
    ensures Split(part + [sep] + rest, sep) == [part] + Split(rest, sep)
  {
    if part == "" {
      assert "" + [sep] + rest == [sep] + rest;
      assert ([sep] + rest)[1..] == rest;
    } else {
      var text := part + [sep] + rest;
      assert text[1..] == part[1..] + [sep] + rest;
      SplitFirst(part[1..], rest, sep);
      assert [part[0]] + part[1..] == part;
    }
  }

  lemma {:induction false} SplitJoin(parts: seq<string>, sep: char)
    requires parts != [] && forall part :: part in parts ==> Free(part, sep)
    ensures Split(Join(parts, sep), sep) == parts
  {
    if |parts| == 1 {
      SplitOne(parts[0], sep);
    } else {
      SplitJoin(parts[1..], sep);
      SplitFirst(parts[0], Join(parts[1..], sep), sep);
      assert parts == [parts[0]] + parts[1..];
    }
  }

  lemma {:induction false} JoinFree(parts: seq<string>, sep: char, other: char)
    requires other != sep && forall part :: part in parts ==> Free(part, other)
    ensures Free(Join(parts, sep), other)
  {
    if |parts| > 1 {
      JoinFree(parts[1..], sep, other);
      assert Free(parts[0], other) && Free([sep], other);
    }
  }

  /** Each text on a line of its own. */
  function Lines(texts: seq<string>): string {
    if texts == [] then "" else texts[0] + "\n" + Lines(texts[1..])
  }

  /** The lines of a text that is empty or ends with a newline. */
  function Unlines(text: string): Option<seq<string>> {
    if text == "" then Some([])
    else if text[|text| - 1] != '\n' then None
    else Some(Split(text[..|text| - 1], '\n'))
  }

  lemma {:induction false} LinesJoin(texts: seq<string>)
    requires texts != []
    ensures Lines(texts) == Join(texts, '\n') + "\n"
  {
    if |texts| > 1 {
      LinesJoin(texts[1..]);
      assert texts[0] + "\n" + (Join(texts[1..], '\n') + "\n") == texts[0] + "\n" + Join(texts[1..], '\n') + "\n";
    } else {
      assert Lines(texts[1..]) == "";
    }
  }

  lemma UnlinesLines(texts: seq<string>)
    requires forall t :: t in texts ==> Free(t, '\n')
    ensures Unlines(Lines(texts)) == Some(texts)
  {
    if texts != [] {
      LinesJoin(texts);
      SplitJoin(texts, '\n');
      assert Lines(texts)[..|Lines(texts)| - 1] == Join(texts, '\n');
    }
  }

  lemma LinesUnlines(text: string)
    requires Unlines(text).Some?
    ensures Lines(Unlines(text).value) == text
  {
    if text != "" {
      var body := text[..|text| - 1];
      JoinSplit(body, '\n');
      LinesJoin(Split(body, '\n'));
      assert text == body + "\n";
    }
  }

  predicate StartsWith(text: string, prefix: string) { prefix <= text }

  predicate EndsWith(text: string, suffix: string) {
    |suffix| <= |text| && text[|text| - |suffix|..] == suffix
  }

  predicate Contains(text: string, part: string) {
    exists i :: 0 <= i <= |text| && part <= text[i..]
  }

  // ------------------------------------------------------------------- order

  predicate Less(a: string, b: string) {
    if b == "" then false
    else if a == "" then true
    else a[0] < b[0] || (a[0] == b[0] && Less(a[1..], b[1..]))
  }

  lemma {:induction false} LessTrans(a: string, b: string, c: string)
    requires Less(a, b) && Less(b, c)
    ensures Less(a, c)
  {
    if a != "" && a[0] == b[0] && b[0] == c[0] { LessTrans(a[1..], b[1..], c[1..]); }
  }

  lemma {:induction false} LessTotal(a: string, b: string)
    ensures a == b || Less(a, b) || Less(b, a)
    ensures !(Less(a, b) && Less(b, a))
    ensures Less(a, b) ==> a != b
  {
    if a != "" && b != "" {
      LessTotal(a[1..], b[1..]);
      if a[1..] == b[1..] && a[0] == b[0] { assert a == [a[0]] + a[1..] && b == [b[0]] + b[1..]; }
    }
  }

  // ----------------------------------------------------------------- sorting

  /** Strictly ascending by key, so keys are distinct. */
  predicate Ascending<T>(xs: seq<T>, key: T -> string) {
    forall i, j :: 0 <= i < j < |xs| ==> Less(key(xs[i]), key(xs[j]))
  }

  predicate DistinctKeys<T>(xs: seq<T>, key: T -> string) {
    forall i, j :: 0 <= i < j < |xs| ==> key(xs[i]) != key(xs[j])
  }

  function Insert<T>(x: T, xs: seq<T>, key: T -> string): seq<T> {
    if xs == [] then [x]
    else if Less(key(x), key(xs[0])) then [x] + xs
    else [xs[0]] + Insert(x, xs[1..], key)
  }

  function Sorted<T>(xs: seq<T>, key: T -> string): seq<T> {
    if xs == [] then [] else Insert(xs[0], Sorted(xs[1..], key), key)
  }

  lemma {:induction false} InsertMembers<T(!new)>(x: T, xs: seq<T>, key: T -> string)
    ensures forall y :: y in Insert(x, xs, key) <==> y == x || y in xs
    ensures |Insert(x, xs, key)| == |xs| + 1
  {
    if xs != [] {
      InsertMembers(x, xs[1..], key);
      assert xs == [xs[0]] + xs[1..];
      if !Less(key(x), key(xs[0])) {
        forall y ensures y in Insert(x, xs, key) <==> y == x || y in xs {
          assert y in Insert(x, xs, key) <==> y == xs[0] || y in Insert(x, xs[1..], key);
        }
      }
    }
  }

  lemma {:induction false} InsertAscending<T(!new)>(x: T, xs: seq<T>, key: T -> string)
    requires Ascending(xs, key) && forall y :: y in xs ==> key(y) != key(x)
    ensures Ascending(Insert(x, xs, key), key)
  {
    if xs != [] {
      var first, rest := xs[0], xs[1..];
      if Less(key(x), key(first)) {
        forall y | y in xs ensures Less(key(x), key(y)) {
          if y != first { LessTrans(key(x), key(first), key(y)); }
        }
      } else {
        LessTotal(key(x), key(first));
        assert forall y :: y in rest ==> y in xs;
        InsertAscending(x, rest, key);
        InsertMembers(x, rest, key);
        forall y | y in Insert(x, rest, key) ensures Less(key(first), key(y)) {
          if y != x {
            assert y in rest;
            var i :| 0 <= i < |rest| && rest[i] == y;
            assert xs[i + 1] == y;
          }
        }
      }
    }
  }

  lemma {:induction false} SortedAscending<T(!new)>(xs: seq<T>, key: T -> string)
    requires DistinctKeys(xs, key)
    ensures Ascending(Sorted(xs, key), key) && |Sorted(xs, key)| == |xs| && forall x :: x in Sorted(xs, key) <==> x in xs
  {
    if xs != [] {
      SortedAscending(xs[1..], key);
      InsertMembers(xs[0], Sorted(xs[1..], key), key);
      forall y | y in Sorted(xs[1..], key) ensures key(y) != key(xs[0]) {
        assert y in xs[1..];
        var i :| 0 <= i < |xs[1..]| && xs[1..][i] == y;
        assert xs[i + 1] == y;
      }
      InsertAscending(xs[0], Sorted(xs[1..], key), key);
      assert xs == [xs[0]] + xs[1..];
    }
  }

  lemma LeastFirst<T(!new)>(xs: seq<T>, ys: seq<T>, key: T -> string)
    requires Ascending(xs, key) && Ascending(ys, key) && xs != [] && ys != []
    requires forall x :: x in xs <==> x in ys
    ensures xs[0] == ys[0]
  {
    assert xs[0] in xs && ys[0] in ys;
    var i :| 0 <= i < |ys| && ys[i] == xs[0];
    var j :| 0 <= j < |xs| && xs[j] == ys[0];
    LessTotal(key(xs[0]), key(ys[0]));
  }

  /** A set can be written in ascending order in one way only. */
  lemma {:induction false} AscendingUnique<T(!new)>(xs: seq<T>, ys: seq<T>, key: T -> string)
    requires Ascending(xs, key) && Ascending(ys, key) && forall x :: x in xs <==> x in ys
    ensures xs == ys
  {
    assert (xs != [] ==> xs[0] in xs) && (ys != [] ==> ys[0] in ys);
    if xs != [] {
      LeastFirst(xs, ys, key);
      forall x ensures x in xs[1..] <==> x in ys[1..] {
        TailMember(xs, x, key);
        TailMember(ys, x, key);
      }
      AscendingUnique(xs[1..], ys[1..], key);
      assert xs == [xs[0]] + xs[1..] && ys == [ys[0]] + ys[1..];
    }
  }

  lemma TailMember<T(!new)>(xs: seq<T>, x: T, key: T -> string)
    requires Ascending(xs, key) && xs != []
    ensures x in xs[1..] <==> x in xs && x != xs[0]
  {
    if x in xs[1..] {
      var i :| 0 <= i < |xs[1..]| && xs[1..][i] == x;
      LessTotal(key(xs[0]), key(xs[i + 1]));
    }
    if x in xs && x != xs[0] {
      var i :| 0 <= i < |xs| && xs[i] == x;
      assert xs[1..][i - 1] == x;
    }
  }

  /** Elements with equal keys of an ascending sequence are the same element. */
  lemma SameKey<T(!new)>(xs: seq<T>, x: T, y: T, key: T -> string)
    requires Ascending(xs, key) && x in xs && y in xs && key(x) == key(y)
    ensures x == y
  {
    var i :| 0 <= i < |xs| && xs[i] == x;
    var j :| 0 <= j < |xs| && xs[j] == y;
    LessTotal(key(x), key(y));
  }
}
