/**
 Counting the characters of a passphrase: a byte machine fed by reads of any size, and the UTF-8
 decoder (RFC 3629, section 4) that it implements.
*/
module Passphrase {
  type Byte = x: int | 0 <= x < 256

  const NEWLINE: Byte := 10
  const BUFFER := 65536
  const MINIMUM := 16

  // ---------------------------------------------------------------- encoding

  /** A Unicode scalar value. */
  predicate Scalar(cp: int) {
    0 <= cp < 0x110000 && !(0xD800 <= cp <= 0xDFFF)
  }

  function Encode(cp: int): (b: seq<Byte>)
    requires Scalar(cp)
    ensures 1 <= |b| <= 4
  {
    if cp < 0x80 then [cp]
    else if cp < 0x800 then [0xC0 + cp / 64, 0x80 + cp % 64]
    else if cp < 0x10000 then [0xE0 + cp / 4096, 0x80 + cp / 64 % 64, 0x80 + cp % 64]
    else [0xF0 + cp / 262144, 0x80 + cp / 4096 % 64, 0x80 + cp / 64 % 64, 0x80 + cp % 64]
  }

  function EncodeAll(text: seq<int>): seq<Byte>
    requires forall cp :: cp in text ==> Scalar(cp)
  {
    if text == [] then [] else Encode(text[0]) + EncodeAll(text[1..])
  }

  // ----------------------------------------------------------------- decoder

  datatype Token = Character(cp: int) | Malformed(bytes: seq<Byte>)

  predicate Continues(v: Byte) { 0x80 <= v <= 0xBF }

  /** How many continuation bytes a lead byte announces; 0 if it announces none. */
  function Announced(lead: Byte): nat {
    if 0xC2 <= lead <= 0xDF then 1 else if 0xE0 <= lead <= 0xEF then 2 else if 0xF0 <= lead <= 0xF4 then 3 else 0
  }

  function Payload(lead: Byte): nat {
    if Announced(lead) == 1 then lead % 32 else if Announced(lead) == 2 then lead % 16 else lead % 8
  }

  /** The least code point that needs as many bytes as the lead byte announces. */
  function Least(lead: Byte): nat {
    if Announced(lead) == 1 then 0x80 else if Announced(lead) == 2 then 0x800 else 0x10000
  }

  /** The continuation bytes at the front of `b`, at most `n`. */
  function Run(b: seq<Byte>, n: nat): (k: nat)
    ensures k <= n && k <= |b|
    ensures forall i :: 0 <= i < k ==> Continues(b[i])
    ensures k < n && k < |b| ==> !Continues(b[k])
  {
    if n == 0 || b == [] || !Continues(b[0]) then 0 else 1 + Run(b[1..], n - 1)
  }

  /** The code point spelled by a lead byte and its continuation bytes. */
  function Spelled(held: seq<Byte>): nat
    requires held != []
  {
    if |held| == 1 then Payload(held[0]) else Spelled(held[..|held| - 1]) * 64 + held[|held| - 1] % 64
  }

  /** The first token of a nonempty input, and how many bytes it takes. */
  function First(b: seq<Byte>): (r: (Token, nat))
    requires b != []
    ensures 1 <= r.1 <= |b| && r.1 <= 4
    ensures r.0.Malformed? ==> r.0.bytes == b[..r.1]
    ensures r.0.Character? ==> Scalar(r.0.cp)
  {
    if b[0] < 0x80 then (Character(b[0]), 1)
    else if Announced(b[0]) == 0 then (Malformed(b[..1]), 1)
    else
      var taken := 1 + Run(b[1..], Announced(b[0]));
      var cp := Spelled(b[..taken]);
      if taken == 1 + Announced(b[0]) && cp >= Least(b[0]) && Scalar(cp) then (Character(cp), taken) else (Malformed(b[..taken]), taken)
  }

  function Tokens(b: seq<Byte>): seq<Token> {
    if b == [] then [] else [First(b).0] + Tokens(b[First(b).1..])
  }

  function Spelling(t: Token): seq<Byte> {
    match t
    case Character(cp) => if Scalar(cp) then Encode(cp) else []
    case Malformed(bytes) => bytes
  }

  function Spellings(ts: seq<Token>): seq<Byte> {
    if ts == [] then [] else Spelling(ts[0]) + Spellings(ts[1..])
  }

  function Characters(text: seq<int>): seq<Token> {
    if text == [] then [] else [Character(text[0])] + Characters(text[1..])
  }

  // ------------------------------------------------------- what the decoder is

  /** The digits of a code point in base 64. */
  function Digits(a: int, b: int, c: int, d: int): int { ((a * 64 + b) * 64 + c) * 64 + d }

  lemma DigitsAreUnique(a: nat, b: nat, c: nat, d: nat)
    requires b < 64 && c < 64 && d < 64
    ensures var cp := Digits(a, b, c, d);
            cp / 262144 == a && cp / 4096 == a * 64 + b && cp / 4096 % 64 == b && cp / 64 % 64 == c && cp % 64 == d
            && cp / 64 == (a * 64 + b) * 64 + c
  {
  }

  lemma DigitsExist(cp: nat)
    ensures cp == Digits(cp / 262144, cp / 4096 % 64, cp / 64 % 64, cp % 64)
  {
  }

  lemma SpelledBy2(held: seq<Byte>)
    requires |held| == 2
    ensures Spelled(held) == Digits(0, 0, Payload(held[0]), held[1] % 64)
  {
    hide Payload;
    assert held[..1] == [held[0]];
  }

  lemma SpelledBy3(held: seq<Byte>)
    requires |held| == 3
    ensures Spelled(held) == Digits(0, Payload(held[0]), held[1] % 64, held[2] % 64)
  {
    hide Payload;
    SpelledBy2(held[..2]);
  }

  lemma SpelledBy4(held: seq<Byte>)
    requires |held| == 4
    ensures Spelled(held) == Digits(Payload(held[0]), held[1] % 64, held[2] % 64, held[3] % 64)
  {
    hide Payload;
    SpelledBy3(held[..3]);
  }

  lemma ContinuationDigit(v: Byte)
    requires Continues(v)
    ensures v == 0x80 + v % 64
  {
  }

  lemma LeadPayload(v: Byte)
    requires Announced(v) > 0
    ensures v == (if Announced(v) == 1 then 0xC0 else if Announced(v) == 2 then 0xE0 else 0xF0) + Payload(v)
    ensures Payload(v) < (if Announced(v) == 1 then 32 else if Announced(v) == 2 then 16 else 8)
  {
  }

  lemma Accepted2(held: seq<Byte>)
    requires |held| == 2 && Announced(held[0]) == 1 && Continues(held[1])
    ensures Scalar(Spelled(held)) && Encode(Spelled(held)) == held
  {
    hide Spelled, Payload, Announced, Digits;
    SpelledBy2(held);
    LeadPayload(held[0]);
    ContinuationDigit(held[1]);
    TwoDigits(held[0], held[1]);
  }

  lemma TwoDigits(lead: Byte, v: Byte)
    requires Announced(lead) == 1
    ensures 0x80 <= Digits(0, 0, Payload(lead), v % 64) < 0x800
    ensures Digits(0, 0, Payload(lead), v % 64) / 64 == Payload(lead) && Digits(0, 0, Payload(lead), v % 64) % 64 == v % 64
  {
  }

  lemma Accepted3(held: seq<Byte>)
    requires |held| == 3 && Announced(held[0]) == 2 && Continues(held[1]) && Continues(held[2])
    requires Spelled(held) >= 0x800 && Scalar(Spelled(held))
    ensures Encode(Spelled(held)) == held
  {
    hide Spelled, Payload, Announced, Digits;
    SpelledBy3(held);
    LeadPayload(held[0]);
    ContinuationDigit(held[1]);
    ContinuationDigit(held[2]);
    DigitsAreUnique(0, Payload(held[0]), held[1] % 64, held[2] % 64);
    assert Spelled(held) / 4096 < 16;
  }

  lemma Accepted4(held: seq<Byte>)
    requires |held| == 4 && Announced(held[0]) == 3 && Continues(held[1]) && Continues(held[2]) && Continues(held[3])
    requires Spelled(held) >= 0x10000 && Scalar(Spelled(held))
    ensures Encode(Spelled(held)) == held
  {
    hide Spelled, Payload, Announced, Digits;
    SpelledBy4(held);
    LeadPayload(held[0]);
    ContinuationDigit(held[1]);
    ContinuationDigit(held[2]);
    ContinuationDigit(held[3]);
    DigitsAreUnique(Payload(held[0]), held[1] % 64, held[2] % 64, held[3] % 64);
  }

  /** An accepted sequence is the encoding of its code point: only shortest forms are accepted. */
  lemma AcceptedIsEncoding(b: seq<Byte>)
    requires b != [] && First(b).0.Character?
    ensures Scalar(First(b).0.cp) && b[..First(b).1] == Encode(First(b).0.cp)
  {
    hide Spelled, Payload, Encode;
    if b[0] >= 0x80 {
      var held := b[..First(b).1];
      forall i | 1 <= i < |held| ensures Continues(held[i]) { assert held[i] == b[1..][i - 1]; }
      if |held| == 2 { Accepted2(held); } else if |held| == 3 { Accepted3(held); } else { Accepted4(held); }
    } else {
      assert b[..1] == Encode(b[0]) by { AsciiEncodes(b[0]); }
    }
  }

  lemma AsciiEncodes(v: Byte)
    requires v < 0x80
    ensures Scalar(v) && Encode(v) == [v]
  {
  }

  lemma {:induction false} RunAll(b: seq<Byte>, n: nat)
    requires n <= |b| && forall i :: 0 <= i < n ==> Continues(b[i])
    ensures Run(b, n) == n
  {
    if n > 0 { RunAll(b[1..], n - 1); }
  }

  lemma LeadOf(kind: nat, x: nat)
    requires (kind == 1 && 2 <= x < 32) || (kind == 2 && x < 16) || (kind == 3 && x < 5)
    ensures var lead := (if kind == 1 then 0xC0 else if kind == 2 then 0xE0 else 0xF0) + x;
            lead < 256 && Announced(lead) == kind && Payload(lead) == x
            && Least(lead) == if kind == 1 then 0x80 else if kind == 2 then 0x800 else 0x10000
  {
  }

  lemma DigitContinues(x: nat)
    ensures Continues(0x80 + x % 64) && (0x80 + x % 64) % 64 == x % 64
  {
  }

  lemma EncodingSpells(cp: int)
    requires Scalar(cp) && cp >= 0x80
    ensures var e := Encode(cp);
            && Announced(e[0]) == |e| - 1 && Least(e[0]) <= cp && Spelled(e) == cp
            && forall i :: 1 <= i < |e| ==> Continues(e[i])
  {
    hide Spelled, Digits, Announced, Payload, Least, Continues;
    var e := Encode(cp);
    DigitsExist(cp);
    DigitContinues(cp);
    DigitContinues(cp / 64);
    DigitContinues(cp / 4096);
    if cp < 0x800 {
      SpelledBy2(e);
      LeadOf(1, cp / 64);
      assert cp / 262144 == 0 && cp / 4096 % 64 == 0 && cp / 64 % 64 == cp / 64;
    } else if cp < 0x10000 {
      SpelledBy3(e);
      LeadOf(2, cp / 4096);
      assert cp / 262144 == 0 && cp / 4096 % 64 == cp / 4096;
    } else {
      SpelledBy4(e);
      LeadOf(3, cp / 262144);
    }
  }

  /** The encoding of a scalar value is read back, whatever follows. */
  lemma EncodingIsAccepted(cp: int, rest: seq<Byte>)
    requires Scalar(cp)
    ensures First(Encode(cp) + rest) == (Character(cp), |Encode(cp)|)
  {
    var e := Encode(cp);
    var b := e + rest;
    if cp >= 0x80 {
      EncodingSpells(cp);
      forall i | 0 <= i < |e| - 1 ensures Continues(b[1..][i]) { assert b[1..][i] == e[i + 1]; }
      RunAll(b[1..], |e| - 1);
      assert b[..|e|] == e;
    }
  }

  lemma FirstSpells(b: seq<Byte>)
    requires b != []
    ensures Spelling(First(b).0) == b[..First(b).1]
  {
    hide First, Encode;
    if First(b).0.Character? { AcceptedIsEncoding(b); }
  }

  /** No text is lost: the tokens spell the input. */
  lemma {:induction false} TokensSpell(b: seq<Byte>)
    ensures Spellings(Tokens(b)) == b
  {
    hide First, Spelling;
    if b != [] {
      var rest := b[First(b).1..];
      FirstSpells(b);
      TokensSpell(rest);
      assert Tokens(b)[1..] == Tokens(rest);
      assert b == b[..First(b).1] + rest;
    }
  }

  /** Where the decoder reports malformed bytes, no character is encoded. */
  lemma MalformedIsNoCharacter(b: seq<Byte>, cp: int)
    requires b != [] && First(b).0.Malformed? && Scalar(cp)
    ensures !(Encode(cp) <= b)
  {
    if Encode(cp) <= b {
      var rest := b[|Encode(cp)|..];
      assert b == Encode(cp) + rest;
      EncodingIsAccepted(cp, rest);
    }
  }

  /** Decoding inverts encoding. */
  lemma {:induction false} DecodesText(text: seq<int>)
    requires forall cp :: cp in text ==> Scalar(cp)
    ensures Tokens(EncodeAll(text)) == Characters(text)
  {
    if text != [] {
      var rest := EncodeAll(text[1..]);
      EncodingIsAccepted(text[0], rest);
      assert (Encode(text[0]) + rest)[|Encode(text[0])|..] == rest;
      DecodesText(text[1..]);
    }
  }

  // ------------------------------------------------------------- measurement

  datatype Measure = Measure(length: nat, text: bool)

  function Plus(a: Measure, b: Measure): Measure {
    Measure(a.length + b.length, a.text || b.text)
  }

  function Weight(t: Token, space: int -> bool): Measure {
    match t
    case Character(cp) => Measure(1, !space(cp))
    case Malformed(bytes) => Measure(|bytes|, false)
  }

  function Weights(ts: seq<Token>, space: int -> bool): Measure {
    if ts == [] then Measure(0, false) else Plus(Weight(ts[0], space), Weights(ts[1..], space))
  }

  predicate AsciiSpace(v: int) { v in [32, 9, 13, 11, 12] }

  /** In a locale that is not UTF-8 every byte is a character. */
  function ByteWeights(b: seq<Byte>): Measure {
    if b == [] then Measure(0, false) else Plus(Measure(1, !AsciiSpace(b[0])), ByteWeights(b[1..]))
  }

  function Measured(utf8: bool, b: seq<Byte>, space: int -> bool): Measure {
    if utf8 then Weights(Tokens(b), space) else ByteWeights(b)
  }

  function FirstLine(file: seq<Byte>): seq<Byte> {
    if file == [] || file[0] == NEWLINE then [] else [file[0]] + FirstLine(file[1..])
  }

  function Stripped(b: seq<Byte>): seq<Byte> {
    if b == [] then [] else (if b[0] == 0 then [] else [b[0]]) + Stripped(b[1..])
  }

  datatype Verdict = Fine | Empty | Blank | Short

  function Judge(m: Measure): Verdict {
    if m.length == 0 then Empty else if !m.text then Blank else if m.length < MINIMUM then Short else Fine
  }

  /** The count lies between a quarter of the bytes and all of them. */
  lemma {:induction false} CountBounds(b: seq<Byte>, space: int -> bool)
    ensures Weights(Tokens(b), space).length <= |b| <= 4 * Weights(Tokens(b), space).length
  {
    if b != [] {
      CountBounds(b[First(b).1..], space);
      assert Tokens(b)[1..] == Tokens(b[First(b).1..]);
    }
  }

  predicate HasText(text: seq<int>, space: int -> bool) {
    exists cp :: cp in text && !space(cp)
  }

  /** On encoded text the count is the number of characters, and the flag finds a character that is no space. */
  lemma {:induction false} CountsText(text: seq<int>, space: int -> bool)
    requires forall cp :: cp in text ==> Scalar(cp)
    ensures Weights(Tokens(EncodeAll(text)), space) == Measure(|text|, HasText(text, space))
  {
    DecodesText(text);
    WeighsCharacters(text, space);
  }

  lemma {:induction false} WeighsCharacters(text: seq<int>, space: int -> bool)
    ensures Weights(Characters(text), space) == Measure(|text|, HasText(text, space))
  {
    if text != [] {
      WeighsCharacters(text[1..], space);
      HasTextFirst(text, space);
      assert Characters(text)[1..] == Characters(text[1..]);
    }
  }

  lemma HasTextFirst(text: seq<int>, space: int -> bool)
    requires text != []
    ensures HasText(text, space) <==> !space(text[0]) || HasText(text[1..], space)
  {
    if cp :| cp in text[1..] && !space(cp) { assert cp in text; }
    assert text[0] in text && forall cp :: cp in text ==> cp == text[0] || cp in text[1..];
  }

  /** A passphrase is accepted exactly when it has 16 characters, one of which is no space. */
  lemma TextAccepted(text: seq<int>, space: int -> bool)
    requires forall cp :: cp in text ==> Scalar(cp)
    ensures Judge(Measured(true, EncodeAll(text), space)) == Fine <==> |text| >= MINIMUM && HasText(text, space)
  {
    CountsText(text, space);
  }

  // ------------------------------------------------------------ byte machine

  /** The loop's variables. `pending` continuation bytes are awaited; `sequence` bytes are held back. */
  datatype Scan = Scan(length: nat, text: bool, pending: nat, sequence: nat, codepoint: nat, minimum: nat)

  /** The bytes held back are an unfinished sequence, and the variables describe it. */
  ghost predicate Holds(scan: Scan, held: seq<Byte>) {
    if scan.pending == 0 then held == []
    else
      && held != [] && scan.sequence == |held| && Announced(held[0]) > 0
      && scan.pending == Announced(held[0]) + 1 - |held|
      && scan.codepoint == Spelled(held) && scan.minimum == Least(held[0])
      && forall i :: 1 <= i < |held| ==> Continues(held[i])
  }

  /** What the whole line will measure, given what is counted, what is held and what is still to come. */
  ghost function Ahead(utf8: bool, scan: Scan, held: seq<Byte>, rest: seq<Byte>, space: int -> bool): Measure {
    Plus(Measure(scan.length, scan.text), Measured(utf8, held + rest, space))
  }

  lemma {:induction false} RunStops(b: seq<Byte>, k: nat, n: nat)
    requires k <= n && k <= |b| && (forall i :: 0 <= i < k ==> Continues(b[i]))
    requires k < n ==> k == |b| || !Continues(b[k])
    ensures Run(b, n) == k
  {
    if k > 0 { RunStops(b[1..], k - 1, n - 1); }
  }

  /** A held sequence that meets the end of the line or a byte that does not continue it is malformed. */
  lemma HeldBreaks(scan: Scan, held: seq<Byte>, rest: seq<Byte>)
    requires Holds(scan, held) && scan.pending > 0 && (rest == [] || !Continues(rest[0]))
    ensures First(held + rest) == (Malformed(held), |held|)
  {
    hide Spelled, Payload, Least;
    var b := held + rest;
    forall i | 0 <= i < |held| - 1 ensures Continues(b[1..][i]) { assert b[1..][i] == held[i + 1]; }
    assert |held| <= |b[1..]| ==> b[1..][|held| - 1] == rest[0];
    RunStops(b[1..], |held| - 1, Announced(b[0]));
    assert b[..|held|] == held;
  }

  /** A complete sequence is one character, or malformed as a whole. */
  lemma HeldCompletes(scan: Scan, held: seq<Byte>, v: Byte, rest: seq<Byte>)
    requires Holds(scan, held) && scan.pending == 1 && Continues(v)
    ensures var whole, cp := held + [v], scan.codepoint * 64 + v % 64;
            First(whole + rest) == (if cp >= scan.minimum && Scalar(cp) then Character(cp) else Malformed(whole), |whole|)
  {
    hide Payload, Least;
    var whole := held + [v];
    var b := whole + rest;
    forall i | 0 <= i < |whole| - 1 ensures Continues(b[1..][i]) { assert b[1..][i] == whole[i + 1]; }
    RunStops(b[1..], |held|, |held|);
    assert b[..|whole|] == whole && whole[..|whole| - 1] == held;
  }

  lemma Splits(b: seq<Byte>, head: seq<Byte>, rest: seq<Byte>, space: int -> bool)
    requires b == head + rest && b != [] && First(b).1 == |head|
    ensures Weights(Tokens(b), space) == Plus(Weight(First(b).0, space), Weights(Tokens(rest), space))
  {
    hide First;
    assert b[|head|..] == rest;
    assert Tokens(b)[1..] == Tokens(rest);
  }

  lemma HeldWeighs(scan: Scan, held: seq<Byte>, v: Byte, rest: seq<Byte>, space: int -> bool)
    requires Holds(scan, held) && scan.pending == 1 && Continues(v)
    ensures var cp := scan.codepoint * 64 + v % 64;
            Weights(Tokens(held + [v] + rest), space) ==
            Plus(if cp >= scan.minimum && Scalar(cp) then Measure(1, !space(cp)) else Measure(|held| + 1, false),
                 Weights(Tokens(rest), space))
  {
    hide First, Tokens, Weights, Plus;
    HeldCompletes(scan, held, v, rest);
    Splits(held + [v] + rest, held + [v], rest, space);
  }

  lemma BreakWeighs(scan: Scan, held: seq<Byte>, v: Byte, rest: seq<Byte>, space: int -> bool)
    requires Holds(scan, held) && scan.pending > 0 && !Continues(v)
    ensures Weights(Tokens(held + ([v] + rest)), space) == Plus(Measure(|held|, false), Weights(Tokens([v] + rest), space))
  {
    hide First, Tokens, Weights, Plus;
    HeldBreaks(scan, held, [v] + rest);
    Splits(held + ([v] + rest), held, [v] + rest, space);
  }

  /** Feeding one byte changes nothing in what the line will measure. */
  method Feed(scan: Scan, value: Byte, space: int -> bool, ghost held: seq<Byte>, ghost rest: seq<Byte>)
    returns (next: Scan, ghost kept: seq<Byte>)
    requires Holds(scan, held)
    ensures Holds(next, kept)
    ensures Ahead(true, next, kept, rest, space) == Ahead(true, scan, held, [value] + rest, space)
  {
    hide First, Spelled, Payload, Least, Announced, Tokens, Weights;
    next, kept := scan, held;
    if next.pending > 0 {
      if 0x80 <= value <= 0xBF {
        next := next.(codepoint := next.codepoint * 64 + value % 64, pending := next.pending - 1, sequence := next.sequence + 1);
        assert held + ([value] + rest) == held + [value] + rest;
        if next.pending == 0 {
          HeldWeighs(scan, held, value, rest, space);
          if next.codepoint < next.minimum || 0xD800 <= next.codepoint <= 0xDFFF || next.codepoint > 0x10FFFF {
            next := next.(length := next.length + next.sequence);
          } else {
            next := next.(length := next.length + 1, text := next.text || !space(next.codepoint));
          }
          kept := [];
          assert kept + rest == rest;
        } else {
          kept := held + [value];
          HoldsMore(scan, held, value, next);
        }
        return;
      }
      BreakWeighs(scan, held, value, rest, space);
      next := next.(length := next.length + next.sequence, pending := 0, sequence := 0, codepoint := 0, minimum := 0);
      kept := [];
    }
    assert [] + ([value] + rest) == [value] + rest;
    next, kept := Lead(next, value, space, rest);
  }

  lemma HoldsMore(scan: Scan, held: seq<Byte>, v: Byte, next: Scan)
    requires Holds(scan, held) && scan.pending > 1 && Continues(v)
    requires next == scan.(codepoint := scan.codepoint * 64 + v % 64, pending := scan.pending - 1, sequence := scan.sequence + 1)
    ensures Holds(next, held + [v])
  {
    hide Payload, Least, Announced;
    assert (held + [v])[..|held|] == held;
  }

  /** A byte that is a character or malformed by itself. */
  lemma SingleWeighs(v: Byte, rest: seq<Byte>, space: int -> bool)
    requires v < 0x80 || Announced(v) == 0
    ensures Weights(Tokens([v] + rest), space) == Plus(if v < 0x80 then Measure(1, !space(v)) else Measure(1, false), Weights(Tokens(rest), space))
  {
    hide Tokens, Weights, Plus;
    Splits([v] + rest, [v], rest, space);
  }

  lemma LeadHolds(scan: Scan, v: Byte)
    requires Announced(v) > 0 && scan.pending == Announced(v) && scan.sequence == 1
    requires scan.codepoint == Payload(v) && scan.minimum == Least(v)
    ensures Holds(scan, [v])
  {
  }

  /** A byte with nothing held: an ASCII character, the start of a sequence, or malformed by itself. */
  method Lead(scan: Scan, value: Byte, space: int -> bool, ghost rest: seq<Byte>)
    returns (next: Scan, ghost kept: seq<Byte>)
    requires scan.pending == 0
    ensures Holds(next, kept)
    ensures Ahead(true, next, kept, rest, space) == Ahead(true, scan, [], [value] + rest, space)
  {
    hide Tokens, Weights, First, Spelled;
    next, kept := scan, [];
    assert [] + ([value] + rest) == [value] + rest && [] + rest == rest;
    if value < 0x80 {
      next := next.(length := next.length + 1, text := next.text || !space(value));
      SingleWeighs(value, rest, space);
    } else if 0xC2 <= value <= 0xDF {
      next, kept := next.(pending := 1, sequence := 1, codepoint := value % 32, minimum := 0x80), [value];
      LeadHolds(next, value);
    } else if 0xE0 <= value <= 0xEF {
      next, kept := next.(pending := 2, sequence := 1, codepoint := value % 16, minimum := 0x800), [value];
      LeadHolds(next, value);
    } else if 0xF0 <= value <= 0xF4 {
      next, kept := next.(pending := 3, sequence := 1, codepoint := value % 8, minimum := 0x10000), [value];
      LeadHolds(next, value);
    } else {
      next := next.(length := next.length + 1);
      SingleWeighs(value, rest, space);
    }
  }

  /** An open file. A read returns some prefix of what lies ahead, of a length the caller does not control. */
  class File {
    const content: seq<Byte>

    constructor (content: seq<Byte>)
      ensures this.content == content
    {
      this.content := content;
    }

    method Read(buffer: array<Byte>, offset: nat) returns (count: nat)
      modifies buffer
      ensures count <= buffer.Length
      ensures count == 0 <==> offset >= |content| || buffer.Length == 0
      ensures count > 0 ==> offset + count <= |content| && buffer[..count] == content[offset..offset + count]
      ensures forall i :: count <= i < buffer.Length ==> buffer[i] == old(buffer[i])
    {
      count := 0;
      if offset >= |content| || buffer.Length == 0 { return; }
      var limit := if buffer.Length <= |content| - offset then buffer.Length else |content| - offset;
      var granted :| 1 <= granted <= limit;
      while count < granted
        invariant count <= granted
        invariant buffer[..count] == content[offset..offset + count]
        invariant forall i :: count <= i < buffer.Length ==> buffer[i] == old(buffer[i])
      {
        buffer[count] := content[offset + count];
        count := count + 1;
      }
    }
  }

  lemma {:induction false} LineGoesOn(b: seq<Byte>, rest: seq<Byte>)
    requires forall i :: 0 <= i < |b| ==> b[i] != NEWLINE
    ensures FirstLine(b + rest) == b + FirstLine(rest)
  {
    if b == [] {
      assert b + rest == rest;
    } else {
      LineGoesOn(b[1..], rest);
      assert (b + rest)[1..] == b[1..] + rest;
    }
  }

  lemma {:induction false} StrippedAppends(a: seq<Byte>, b: seq<Byte>)
    ensures Stripped(a + b) == Stripped(a) + Stripped(b)
  {
    if a == [] {
      assert a + b == b;
    } else {
      var kept: seq<Byte> := if a[0] == 0 then [] else [a[0]];
      StrippedAppends(a[1..], b);
      StripsFirst(a);
      StripsFirst(a + b);
      assert (a + b)[0] == a[0] && (a + b)[1..] == a[1..] + b;
      assert kept + (Stripped(a[1..]) + Stripped(b)) == (kept + Stripped(a[1..])) + Stripped(b);
    }
  }

  lemma StripsFirst(a: seq<Byte>)
    requires a != []
    ensures Stripped(a) == (if a[0] == 0 then [] else [a[0]]) + Stripped(a[1..])
  {
  }

  /** What a chunk contributes to the line: everything before its first newline. */
  lemma ChunkOfLine(file: seq<Byte>, offset: nat, count: nat, selected: nat)
    requires offset + count <= |file| && selected <= count
    requires forall i :: offset <= i < offset + selected ==> file[i] != NEWLINE
    requires selected < count ==> file[offset + selected] == NEWLINE
    ensures Stripped(FirstLine(file[offset..]))
         == Stripped(file[offset..offset + selected])
            + (if selected < count then [] else Stripped(FirstLine(file[offset + count..])))
  {
    var chunk, beyond := file[offset..offset + selected], file[offset + selected..];
    assert file[offset..] == chunk + beyond;
    LineGoesOn(chunk, beyond);
    StrippedAppends(chunk, FirstLine(beyond));
  }

  /** The index of the first newline in the first `count` bytes, or `count`. */
  method Find(buffer: array<Byte>, count: nat) returns (selected: nat)
    requires count <= buffer.Length
    ensures selected <= count && forall i :: 0 <= i < selected ==> buffer[i] != NEWLINE
    ensures selected < count ==> buffer[selected] == NEWLINE
  {
    selected := 0;
    while selected < count && buffer[selected] != NEWLINE
      invariant selected <= count && forall i :: 0 <= i < selected ==> buffer[i] != NEWLINE
    {
      selected := selected + 1;
    }
  }

  method Wipe(buffer: array<Byte>, count: nat)
    requires count <= buffer.Length
    modifies buffer
    ensures forall i :: 0 <= i < buffer.Length ==> buffer[i] == if i < count then 0 else old(buffer[i])
  {
    for index := 0 to count
      invariant forall i :: 0 <= i < buffer.Length ==> buffer[i] == if i < index then 0 else old(buffer[i])
    {
      buffer[index] := 0;
    }
  }

  /** The bytes `from..to` of a chunk, fed one by one; NUL bytes are skipped. */
  method FeedChunk(utf8: bool, start: Scan, buffer: array<Byte>, selected: nat, space: int -> bool,
                   ghost held: seq<Byte>, ghost rest: seq<Byte>)
    returns (scan: Scan, ghost kept: seq<Byte>)
    requires selected <= buffer.Length && Holds(start, held) && (utf8 || held == [])
    ensures Holds(scan, kept) && (utf8 || kept == [])
    ensures Ahead(utf8, scan, kept, rest, space) == Ahead(utf8, start, held, Stripped(buffer[..selected]) + rest, space)
  {
    hide Tokens, Weights, ByteWeights, Plus;
    scan, kept := start, held;
    assert buffer[0..selected] == buffer[..selected];
    for index := 0 to selected
      invariant Holds(scan, kept) && (utf8 || kept == [])
      invariant Ahead(utf8, scan, kept, Stripped(buffer[index..selected]) + rest, space)
             == Ahead(utf8, start, held, Stripped(buffer[..selected]) + rest, space)
    {
      var value := buffer[index];
      ghost var beyond := Stripped(buffer[index + 1..selected]) + rest;
      assert buffer[index..selected][1..] == buffer[index + 1..selected];
      assert Stripped(buffer[index..selected]) + rest == (if value == 0 then [] else [value]) + beyond;
      assert [] + beyond == beyond;
      if value != 0 {
        if utf8 {
          scan, kept := Feed(scan, value, space, kept, beyond);
        } else {
          PlainByte(scan, value, beyond, space);
          scan := scan.(length := scan.length + 1, text := scan.text || !AsciiSpace(value));
        }
      }
    }
    assert Stripped(buffer[selected..selected]) + rest == rest;
  }

  lemma PlainByte(scan: Scan, value: Byte, rest: seq<Byte>, space: int -> bool)
    requires scan.pending == 0
    ensures Ahead(false, scan, [], [value] + rest, space)
         == Ahead(false, scan.(length := scan.length + 1, text := scan.text || !AsciiSpace(value)), [], rest, space)
  {
    assert [] + ([value] + rest) == [value] + rest && [] + rest == rest;
  }

  lemma NothingWeighs(utf8: bool, space: int -> bool)
    ensures Measured(utf8, [], space) == Measure(0, false)
  {
  }

  /** An unfinished sequence at the end of the line counts byte for byte. */
  lemma LineEnds(utf8: bool, scan: Scan, held: seq<Byte>, space: int -> bool)
    requires Holds(scan, held) && (utf8 || held == [])
    ensures Ahead(utf8, scan, held, [], space)
         == Measure(scan.length + (if scan.pending > 0 then scan.sequence else 0), scan.text)
  {
    hide First, Spelled, Payload, Announced, Least, Tokens, ByteWeights;
    assert held + [] == held;
    NothingWeighs(utf8, space);
    if scan.pending > 0 {
      HeldBreaks(scan, held, []);
      Splits(held, held, [], space);
    }
  }

  /** What lies beyond a chunk in which the line has not ended. */
  ghost function Beyond(content: seq<Byte>, end: nat, ended: bool): seq<Byte>
    requires end <= |content|
  {
    if ended then [] else Stripped(FirstLine(content[end..]))
  }

  /** Reads the next chunk and finds where the line ends in it. */
  method NextChunk(file: File, buffer: array<Byte>, offset: nat) returns (count: nat, selected: nat)
    requires offset <= |file.content| && buffer.Length > 0
    modifies buffer
    ensures selected <= count <= buffer.Length && offset + count <= |file.content|
    ensures count == 0 <==> offset == |file.content|
    ensures Stripped(FirstLine(file.content[offset..]))
         == Stripped(buffer[..selected]) + Beyond(file.content, offset + count, selected < count)
  {
    hide Stripped, FirstLine;
    count := file.Read(buffer, offset);
    selected := Find(buffer, count);
    if count == 0 {
      EndOfFile(file.content, offset);
    } else {
      assert forall i :: 0 <= i < count ==> buffer[i] == buffer[..count][i] == file.content[offset + i];
      ChunkOfLine(file.content, offset, count, selected);
    }
    assert buffer[..selected] == file.content[offset..offset + selected];
  }

  /** The measure of the first line of a file, whatever the sizes of the reads. */
  method MeasureFirstLine(file: File, utf8: bool, space: int -> bool) returns (m: Measure)
    ensures m == Measured(utf8, Stripped(FirstLine(file.content)), space)
  {
    hide Measured, Stripped, FirstLine, Holds, Ahead;
    var content := file.content;
    var buffer := new Byte[BUFFER];
    var offset: nat, complete := 0, false;
    var scan := Scan(0, false, 0, 0, 0, 0);
    ghost var held: seq<Byte> := [];
    ghost var whole := Stripped(FirstLine(content));
    assert content[0..] == content;
    Starts(utf8, whole, space);
    while !complete
      invariant offset <= |content| && Holds(scan, held) && (utf8 || held == [])
      invariant Ahead(utf8, scan, held, Beyond(content, offset, complete), space) == Measured(utf8, whole, space)
      decreases !complete, |content| - offset
    {
      var count, selected := NextChunk(file, buffer, offset);
      if count == 0 {
        EndOfFile(content, offset);
        break;
      }
      scan, held := FeedChunk(utf8, scan, buffer, selected, space, held, Beyond(content, offset + count, selected < count));
      offset := offset + count;
      complete := selected < count;
      Wipe(buffer, count);
    }
    LineEnds(utf8, scan, held, space);
    var length := scan.length;
    if scan.pending > 0 { length := length + scan.sequence; }
    Wipe(buffer, buffer.Length);
    return Measure(length, scan.text);
  }

  lemma Starts(utf8: bool, line: seq<Byte>, space: int -> bool)
    ensures Holds(Scan(0, false, 0, 0, 0, 0), [])
    ensures Ahead(utf8, Scan(0, false, 0, 0, 0, 0), [], line, space) == Measured(utf8, line, space)
  {
    assert [] + line == line;
  }

  lemma EndOfFile(content: seq<Byte>, offset: nat)
    requires offset == |content|
    ensures Stripped(FirstLine(content[offset..])) == [] == Stripped([])
  {
  }

  /** The verdict on a passphrase file. */
  method Validate(file: File, utf8: bool, space: int -> bool) returns (v: Verdict)
    ensures v == Judge(Measured(utf8, Stripped(FirstLine(file.content)), space))
  {
    var m := MeasureFirstLine(file, utf8, space);
    if m.length == 0 { return Empty; }
    if !m.text { return Blank; }
    if m.length < MINIMUM { return Short; }
    return Fine;
  }
}
