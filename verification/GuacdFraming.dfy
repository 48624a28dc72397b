/**
 What the framing promises: the parser accepts exactly the well-formed frames, its verdicts survive more text, and
 printing and parsing undo each other.
 */
module GuacdFraming {
  import opened Decimals
  import opened GuacdProtocol

  // -------------------------------------------------------------- the grammar

  // A length and a value, as they stand in the text.
  datatype Field = Field(digits: Text, value: Text)

  predicate WellFormedField(limit: nat, f: Field) {
    AllDigits(f.digits) && |f.digits| <= MAX_LENGTH_DIGITS && Number(f.digits) == |f.value| && |f.value| <= limit
  }

  ghost predicate WellFormedFrame(limit: nat, fields: seq<Field>, room: int) {
    1 <= |fields| <= room && forall i | 0 <= i < |fields| :: WellFormedField(limit, fields[i])
  }

  function Piece(f: Field): Text {
    f.digits + ['.'] + f.value
  }

  function Frame(fields: seq<Field>): Text {
    if fields == [] then []
    else if |fields| == 1 then Piece(fields[0]) + [';']
    else Piece(fields[0]) + [','] + Frame(fields[1..])
  }

  function Values(fields: seq<Field>): (es: Instruction)
    ensures |es| == |fields|
  {
    if fields == [] then [] else [fields[0].value] + Values(fields[1..])
  }

  lemma {:induction false} FindDot(d: Text, t: Text, i: nat)
    requires i <= |d| && forall j | 0 <= j < |d| :: d[j] != '.'
    ensures FindFrom(d + ['.'] + t, '.', i) == |d|
    decreases |d| - i
  {
    if i < |d| {
      FindDot(d, t, i + 1);
    }
  }

  lemma {:induction false} FoundFirst(s: Text, c: char, i: nat)
    requires i <= |s|
    ensures forall j | i <= j < FindFrom(s, c, i) :: s[j] != c
    ensures FindFrom(s, c, i) < |s| ==> s[FindFrom(s, c, i)] == c
    decreases |s| - i
  {
    if i < |s| && s[i] != c {
      FoundFirst(s, c, i + 1);
    }
  }

  lemma HeadOfField(limit: nat, f: Field, separator: char, tail: Text)
    requires WellFormedField(limit, f)
    ensures ReadHead(limit, Piece(f) + [separator] + tail) == Element(f.value, separator, tail)
  {
    var s := Piece(f) + [separator] + tail;
    var rest := f.value + [separator] + tail;
    assert s == f.digits + ['.'] + rest;
    FindDot(f.digits, rest, 0);
    var dot := |f.digits|;
    assert s[..dot] == f.digits;
    var end := dot + 1 + |f.value|;
    assert s[dot + 1..end] == f.value && s[end] == separator && s[end + 1..] == tail;
  }

  lemma ScanOfField(limit: nat, f: Field, separator: char, tail: Text, n: nat)
    requires WellFormedField(limit, f) && n < MAX_ELEMENTS
    ensures separator == ';' ==> Scan(limit, Piece(f) + [separator] + tail, n) == Complete([f.value], tail)
    ensures separator == ',' ==>
              Scan(limit, Piece(f) + [separator] + tail, n) == Prepend([f.value], Scan(limit, tail, n + 1))
  {
    HeadOfField(limit, f, separator, tail);
  }

  // The parser takes a well-formed frame whole and leaves exactly what follows it.
  lemma {:induction false} FrameScans(limit: nat, fields: seq<Field>, n: nat, suffix: Text)
    requires WellFormedFrame(limit, fields, MAX_ELEMENTS - n)
    ensures Scan(limit, Frame(fields) + suffix, n) == Complete(Values(fields), suffix)
    decreases |fields|
  {
    if |fields| == 1 {
      LastField(limit, fields, n, suffix);
    } else {
      FrameScans(limit, fields[1..], n + 1, suffix);
      FirstField(limit, fields, n, suffix);
    }
  }

  lemma LastField(limit: nat, fields: seq<Field>, n: nat, suffix: Text)
    requires |fields| == 1 && WellFormedField(limit, fields[0]) && n < MAX_ELEMENTS
    ensures Scan(limit, Frame(fields) + suffix, n) == Complete(Values(fields), suffix)
  {
    ScanOfField(limit, fields[0], ';', suffix, n);
    assert Values(fields) == [fields[0].value];
  }

  lemma FirstField(limit: nat, fields: seq<Field>, n: nat, suffix: Text)
    requires |fields| > 1 && WellFormedField(limit, fields[0]) && n < MAX_ELEMENTS
    ensures Scan(limit, Frame(fields) + suffix, n)
      == Prepend([fields[0].value], Scan(limit, Frame(fields[1..]) + suffix, n + 1))
  {
    var tail := Frame(fields[1..]) + suffix;
    assert Frame(fields) + suffix == Piece(fields[0]) + [','] + tail;
    ScanOfField(limit, fields[0], ',', tail, n);
  }

  lemma FieldOfHead(limit: nat, s: Text) returns (f: Field)
    requires ReadHead(limit, s).Element?
    ensures WellFormedField(limit, f) && f.value == ReadHead(limit, s).value
    ensures s == Piece(f) + [ReadHead(limit, s).separator] + ReadHead(limit, s).after
  {
    var dot := FindFrom(s, '.', 0);
    FoundFirst(s, '.', 0);
    var end := dot + 1 + Number(s[..dot]);
    f := Field(s[..dot], s[dot + 1..end]);
    assert s == s[..dot] + [s[dot]] + s[dot + 1..end] + [s[end]] + s[end + 1..];
  }

  // Whatever the parser takes was a well-formed frame of the elements it returns.
  lemma {:induction false} ScanIsFrame(limit: nat, s: Text, n: nat) returns (fields: seq<Field>)
    requires Scan(limit, s, n).Complete?
    ensures WellFormedFrame(limit, fields, MAX_ELEMENTS - n)
    ensures Values(fields) == Scan(limit, s, n).elements && s == Frame(fields) + Scan(limit, s, n).rest
    decreases |s|
  {
    var h := ReadHead(limit, s);
    var f := FieldOfHead(limit, s);
    if h.separator == ';' {
      fields := [f];
      assert Values(fields) == [f.value];
    } else {
      var more := ScanIsFrame(limit, h.after, n + 1);
      fields := [f] + more;
      assert fields[1..] == more;
    }
  }

  // ---- acceptance, in both directions

  ghost predicate Frames(limit: nat, s: Text, es: Instruction, rest: Text) {
    exists fields :: WellFormedFrame(limit, fields, MAX_ELEMENTS) && Values(fields) == es && s == Frame(fields) + rest
  }

  // The parser completes exactly on well-formed frames.
  lemma ParsesExactlyFrames(limit: nat, s: Text, es: Instruction, rest: Text)
    ensures Parse(limit, s) == Complete(es, rest) <==> Frames(limit, s, es, rest)
  {
    if Parse(limit, s) == Complete(es, rest) {
      var fields := ScanIsFrame(limit, s, 0);
    }
    if Frames(limit, s, es, rest) {
      var fields :| WellFormedFrame(limit, fields, MAX_ELEMENTS) && Values(fields) == es && s == Frame(fields) + rest;
      FrameScans(limit, fields, 0, rest);
    }
  }

  // ---- more text never changes a verdict

  lemma {:induction false} FindInPrefix(s: Text, more: Text, c: char, i: nat)
    requires i <= |s| && FindFrom(s, c, i) < |s|
    ensures FindFrom(s + more, c, i) == FindFrom(s, c, i)
    decreases |s| - i
  {
    if s[i] != c {
      FindInPrefix(s, more, c, i + 1);
    }
  }

  lemma {:induction false} FindBeyond(s: Text, more: Text, c: char, i: nat)
    requires i <= |s| && FindFrom(s, c, i) == |s|
    ensures FindFrom(s + more, c, i) >= |s|
    decreases |s| - i
  {
    if i < |s| {
      FindBeyond(s, more, c, i + 1);
    }
  }

  lemma HeadIsStable(limit: nat, s: Text, more: Text)
    ensures var h := ReadHead(limit, s);
            match h
            case NoHead => true
            case BadHead(flaw) => ReadHead(limit, s + more) == h
            case Element(value, separator, after) =>
              ReadHead(limit, s + more) == Element(value, separator, after + more)
  {
    var dot := FindFrom(s, '.', 0);
    if dot == |s| {
      FindBeyond(s, more, '.', 0);
    } else {
      FindInPrefix(s, more, '.', 0);
      assert (s + more)[..dot] == s[..dot];
      if ReadHead(limit, s).Element? {
        var end := dot + 1 + Number(s[..dot]);
        assert (s + more)[dot + 1..end] == s[dot + 1..end];
        assert (s + more)[end + 1..] == s[end + 1..] + more;
      }
    }
  }

  lemma {:induction false} ScanIsStable(limit: nat, s: Text, n: nat, more: Text)
    requires !Scan(limit, s, n).Incomplete?
    ensures match Scan(limit, s, n)
            case Complete(es, rest) => Scan(limit, s + more, n) == Complete(es, rest + more)
            case Bad(flaw) => Scan(limit, s + more, n) == Bad(flaw)
    decreases |s|
  {
    HeadIsStable(limit, s, more);
    var h := ReadHead(limit, s);
    if h.Element? && n + 1 <= MAX_ELEMENTS && h.separator == ',' {
      ScanIsStable(limit, h.after, n + 1, more);
    }
  }

  // Every strict prefix of a frame is incomplete: never an instruction, never an error.
  lemma StrictPrefixIsIncomplete(limit: nat, fields: seq<Field>, k: nat)
    requires WellFormedFrame(limit, fields, MAX_ELEMENTS) && k < |Frame(fields)|
    ensures Parse(limit, Frame(fields)[..k]) == Incomplete
  {
    var whole := Frame(fields);
    var p, more := whole[..k], whole[k..];
    assert whole == p + more && whole + [] == whole;
    FrameScans(limit, fields, 0, []);
    if !Parse(limit, p).Incomplete? {
      ScanIsStable(limit, p, 0, more);
    }
  }

  // ---- printing

  function Canonical(es: Instruction): (fields: seq<Field>)
    ensures |fields| == |es| && Values(fields) == es
  {
    if es == [] then [] else [Field(Decimal(|es[0]|), es[0])] + Canonical(es[1..])
  }

  lemma {:induction false} EncodingIsFrame(es: Instruction)
    requires es != []
    ensures EncodeElements(es) == Frame(Canonical(es))
    decreases |es|
  {
    if |es| > 1 {
      EncodingIsFrame(es[1..]);
      assert Canonical(es)[1..] == Canonical(es[1..]);
    }
  }

  // What the wire can carry.
  predicate Encodable(limit: nat, es: Instruction) {
    && 1 <= |es| <= MAX_ELEMENTS
    && forall i | 0 <= i < |es| :: |es[i]| <= limit && |es[i]| < Power10(MAX_LENGTH_DIGITS)
  }

  lemma {:induction false} CanonicalFields(limit: nat, es: Instruction)
    requires forall i | 0 <= i < |es| :: |es[i]| <= limit && |es[i]| < Power10(MAX_LENGTH_DIGITS)
    ensures forall i | 0 <= i < |es| :: WellFormedField(limit, Canonical(es)[i])
  {
    if es != [] {
      CanonicalFields(limit, es[1..]);
      NumberOfDecimal(|es[0]|);
      DecimalLength(|es[0]|, MAX_LENGTH_DIGITS);
    }
  }

  lemma {:induction false} NumberBelow(s: Text)
    requires forall i | 0 <= i < |s| :: IsDigit(s[i])
    ensures Number(s) < Power10(|s|)
  {
    if s != [] {
      NumberBelow(s[..|s| - 1]);
    }
  }

  lemma {:induction false} PowerGrows(a: nat, b: nat)
    requires a <= b
    ensures Power10(a) <= Power10(b)
  {
    if a < b {
      PowerGrows(a, b - 1);
    }
  }

  lemma {:induction false} ValuesAt(fields: seq<Field>, i: nat)
    requires i < |fields|
    ensures Values(fields)[i] == fields[i].value
  {
    if i > 0 {
      ValuesAt(fields[1..], i - 1);
    }
  }

  lemma FrameValuesEncodable(limit: nat, fields: seq<Field>)
    requires WellFormedFrame(limit, fields, MAX_ELEMENTS)
    ensures Encodable(limit, Values(fields))
  {
    var es := Values(fields);
    forall i | 0 <= i < |es|
      ensures |es[i]| <= limit && |es[i]| < Power10(MAX_LENGTH_DIGITS)
    {
      ValuesAt(fields, i);
      NumberBelow(fields[i].digits);
      PowerGrows(|fields[i].digits|, MAX_LENGTH_DIGITS);
    }
  }

  // Printing then parsing gives the elements back and leaves the suffix, exactly when the wire can carry them.
  lemma RoundTrip(limit: nat, es: Instruction, suffix: Text)
    ensures Parse(limit, EncodeElements(es) + suffix) == Complete(es, suffix) <==> Encodable(limit, es)
    ensures Encodable(limit, es) <==>
            1 <= |es| <= 256 && forall i | 0 <= i < |es| :: |es[i]| <= limit && |es[i]| < 10_000_000
  {
    assert Power10(4) == 10_000;
    assert Power10(7) == 10_000_000;
    if Encodable(limit, es) {
      EncodingIsFrame(es);
      CanonicalFields(limit, es);
      FrameScans(limit, Canonical(es), 0, suffix);
    }
    if Parse(limit, EncodeElements(es) + suffix) == Complete(es, suffix) {
      ParsedIsEncodable(limit, EncodeElements(es) + suffix);
    }
  }

  lemma ParsedIsEncodable(limit: nat, s: Text)
    requires Parse(limit, s).Complete?
    ensures Encodable(limit, Parse(limit, s).elements)
  {
    var fields := ScanIsFrame(limit, s, 0);
    FrameValuesEncodable(limit, fields);
  }

  lemma {:induction false} CanonicalIsShortest(limit: nat, fields: seq<Field>)
    requires forall i | 0 <= i < |fields| :: WellFormedField(limit, fields[i])
    ensures |Frame(Canonical(Values(fields)))| <= |Frame(fields)|
    decreases |fields|
  {
    if fields != [] {
      CanonicalIsShortest(limit, fields[1..]);
      DecimalIsShortest(fields[0].digits);
      assert Canonical(Values(fields))[1..] == Canonical(Values(fields[1..]));
    }
  }

  // Re-encoding what was parsed never takes more text than was consumed.
  lemma ReencodingIsNoLonger(limit: nat, s: Text)
    requires Parse(limit, s).Complete?
    ensures |EncodeElements(Parse(limit, s).elements)| + |Parse(limit, s).rest| <= |s|
  {
    var fields := ScanIsFrame(limit, s, 0);
    CanonicalIsShortest(limit, fields);
    EncodingIsFrame(Values(fields));
  }
}
