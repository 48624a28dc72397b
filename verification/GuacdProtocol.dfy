/**
 Guacamole instruction framing (backend/app/services/guacd_protocol.py): the printer, the incremental
 parser and what it means for the stream to arrive in pieces. Text is a sequence of code points.
 */
module GuacdProtocol {
  import opened Common
  import opened Decimals

  type Instruction = seq<Text>

  // -------------------------------------------------------------- printing

  function EncodeElements(elements: Instruction): Text {
    if elements == [] then [';']
    else
      Decimal(|elements[0]|) + ['.'] + elements[0]
      + if |elements| == 1 then [';'] else [','] + EncodeElements(elements[1..])
  }

  // -------------------------------------------------------------- parsing

  datatype Flaw = BadLength | ElementTooLong | TooManyElements | BadSeparator

  datatype Verdict = Incomplete | Complete(elements: Instruction, rest: Text) | Bad(flaw: Flaw)

  const MAX_ELEMENTS := 256
  const MAX_LENGTH_DIGITS := 7

  // `s.find(c, i)`, as an index or |s|.
  function FindFrom(s: Text, c: char, i: nat): (k: nat)
    requires i <= |s|
    ensures i <= k <= |s|
    decreases |s| - i
  {
    if i == |s| || s[i] == c then i else FindFrom(s, c, i + 1)
  }

  // One element at the head of the text.
  datatype Head = NoHead | BadHead(flaw: Flaw) | Element(value: Text, separator: char, after: Text)

  function ReadHead(limit: nat, s: Text): (h: Head)
    ensures h.Element? ==> |h.after| < |s|
  {
    var dot := FindFrom(s, '.', 0);
    if dot == |s| then
      if |s| > MAX_LENGTH_DIGITS then BadHead(BadLength) else NoHead
    else if !AllDigits(s[..dot]) || dot > MAX_LENGTH_DIGITS then BadHead(BadLength)
    else
      var count := Number(s[..dot]);
      var end := dot + 1 + count;
      if count > limit then BadHead(ElementTooLong)
      else if end >= |s| then NoHead
      else Element(s[dot + 1..end], s[end], s[end + 1..])
  }

  function Prepend(front: Instruction, v: Verdict): Verdict {
    if v.Complete? then Complete(front + v.elements, v.rest) else v
  }

  // The rest of an instruction of which `n` elements have been read.
  function Scan(limit: nat, s: Text, n: nat): (v: Verdict)
    ensures v.Complete? ==> |v.rest| < |s| && v.elements != []
    decreases |s|
  {
    match ReadHead(limit, s)
    case NoHead => Incomplete
    case BadHead(flaw) => Bad(flaw)
    case Element(value, separator, after) =>
      if n + 1 > MAX_ELEMENTS then Bad(TooManyElements)
      else if separator == ';' then Complete([value], after)
      else if separator != ',' then Bad(BadSeparator)
      else
        Prepend([value], Scan(limit, after, n + 1))
  }

  function Parse(limit: nat, s: Text): Verdict {
    Scan(limit, s, 0)
  }

  // `InstructionParser`
  class InstructionParser {
    const limit: nat
    var buffer: Text

    constructor (limit: nat)
      ensures this.limit == limit && buffer == []
    {
      this.limit := limit;
      buffer := [];
    }

    // The text is appended even when the limit is then found exceeded.
    method Feed(data: Text) returns (ok: bool)
      modifies this
      ensures buffer == old(buffer) + data
      ensures ok <==> |buffer| <= limit
    {
      buffer := buffer + data;
      ok := |buffer| <= limit;
    }

    // None for an incomplete instruction; a flaw leaves the buffer as it was.
    method Pop() returns (r: Result<Option<Instruction>, Flaw>)
      modifies this
      ensures match Parse(limit, old(buffer))
              case Incomplete => r == Ok(None) && buffer == old(buffer)
              case Bad(flaw) => r == Err(flaw) && buffer == old(buffer)
              case Complete(elements, rest) => r == Ok(Some(elements)) && buffer == rest
    {
      var verdict := ParseText(limit, buffer);
      match verdict
      case Incomplete => return Ok(None);
      case Bad(flaw) => return Err(flaw);
      case Complete(elements, rest) =>
        buffer := rest;
        return Ok(Some(elements));
    }
  }

  // The loop of `pop`.
  method ParseText(limit: nat, text: Text) returns (v: Verdict)
    ensures v == Parse(limit, text)
  {
    var offset, elements := 0, [];
    ScanOfSuffix(limit, text, 0, 0);
    assert text[0..] == text;
    while true
      invariant offset <= |text| && |elements| <= MAX_ELEMENTS
      invariant Parse(limit, text) == Prepend(elements, ScanFrom(limit, text, offset, |elements|))
      decreases |text| - offset
    {
      match TurnAt(limit, text, offset, |elements|) {
        case Over(verdict) =>
          return Prepend(elements, verdict);
        case More(value, next) =>
          PrependMore(elements, value, ScanFrom(limit, text, next, |elements| + 1));
          offset, elements := next, elements + [value];
      }
    }
  }

  lemma PrependMore(front: Instruction, x: Text, v: Verdict)
    ensures Prepend(front, Prepend([x], v)) == Prepend(front + [x], v)
  {
  }

  // Where the element that starts at `i` lies in the whole buffer.
  datatype Spot = NoSpot | BadSpot(flaw: Flaw) | Spot(start: nat, end: nat)

  function SpotFrom(limit: nat, s: Text, i: nat): (p: Spot)
    requires i <= |s|
    ensures p.Spot? ==> i < p.start <= p.end < |s|
  {
    var dot := FindFrom(s, '.', i);
    if dot == |s| then
      if |s| - i > MAX_LENGTH_DIGITS then BadSpot(BadLength) else NoSpot
    else if !AllDigits(s[i..dot]) || dot - i > MAX_LENGTH_DIGITS then BadSpot(BadLength)
    else
      var end := dot + 1 + Number(s[i..dot]);
      if Number(s[i..dot]) > limit then BadSpot(ElementTooLong)
      else if end >= |s| then NoSpot
      else Spot(dot + 1, end)
  }

  lemma SliceOfTail(s: Text, i: nat, a: nat, b: nat)
    requires i <= a <= b <= |s|
    ensures s[i..][a - i..b - i] == s[a..b]
    ensures b < |s| ==> s[i..][b - i] == s[b] && s[i..][b - i + 1..] == s[b + 1..]
  {
  }

  lemma SpotIsHead(limit: nat, s: Text, i: nat)
    requires i <= |s|
    ensures ReadHead(limit, s[i..]) ==
            match SpotFrom(limit, s, i)
            case NoSpot => NoHead
            case BadSpot(flaw) => BadHead(flaw)
            case Spot(start, end) => Element(s[start..end], s[end], s[end + 1..])
  {
    FindShifted(s, '.', i, i);
    var dot := FindFrom(s, '.', i);
    if dot < |s| {
      SliceOfTail(s, i, i, dot);
      if AllDigits(s[i..dot]) {
        var end := dot + 1 + Number(s[i..dot]);
        if end < |s| { SliceOfTail(s, i, dot + 1, end); }
      }
    }
  }

  // One turn of the loop of `pop`, after `n` elements: a verdict, or the next element and where the one after it
  // starts.
  datatype Turn = Over(verdict: Verdict) | More(value: Text, next: nat)

  function TurnAt(limit: nat, s: Text, i: nat, n: nat): (t: Turn)
    requires i <= |s|
    ensures t.More? ==> i < t.next <= |s| && n < MAX_ELEMENTS
  {
    match SpotFrom(limit, s, i)
    case NoSpot => Over(Incomplete)
    case BadSpot(flaw) => Over(Bad(flaw))
    case Spot(start, end) =>
      if n + 1 > MAX_ELEMENTS then Over(Bad(TooManyElements))
      else if s[end] == ';' then Over(Complete([s[start..end]], s[end + 1..]))
      else if s[end] != ',' then Over(Bad(BadSeparator))
      else More(s[start..end], end + 1)
  }

  // `Scan` by position in the whole buffer.
  function ScanFrom(limit: nat, s: Text, i: nat, n: nat): Verdict
    requires i <= |s|
    decreases |s| - i
  {
    match TurnAt(limit, s, i, n)
    case Over(verdict) => verdict
    case More(value, next) => Prepend([value], ScanFrom(limit, s, next, n + 1))
  }

  lemma TurnIsScan(limit: nat, s: Text, i: nat, n: nat)
    requires i <= |s|
    ensures var t := TurnAt(limit, s, i, n);
      Scan(limit, s[i..], n) == if t.Over? then t.verdict else Prepend([t.value], Scan(limit, s[t.next..], n + 1))
  {
    SpotIsHead(limit, s, i);
    ScanOfHead(limit, s[i..], n);
  }

  // What `Scan` makes of the head it reads.
  lemma ScanOfHead(limit: nat, s: Text, n: nat)
    ensures var h := ReadHead(limit, s);
      && (h.NoHead? ==> Scan(limit, s, n) == Incomplete)
      && (h.BadHead? ==> Scan(limit, s, n) == Bad(h.flaw))
      && (h.Element? ==>
            Scan(limit, s, n) ==
            if n + 1 > MAX_ELEMENTS then Bad(TooManyElements)
            else if h.separator == ';' then Complete([h.value], h.after)
            else if h.separator != ',' then Bad(BadSeparator)
            else Prepend([h.value], Scan(limit, h.after, n + 1)))
  {
  }

  lemma {:induction false} ScanOfSuffix(limit: nat, s: Text, i: nat, n: nat)
    requires i <= |s|
    ensures ScanFrom(limit, s, i, n) == Scan(limit, s[i..], n)
    decreases |s| - i
  {
    TurnIsScan(limit, s, i, n);
    var t := TurnAt(limit, s, i, n);
    if t.More? { ScanOfSuffix(limit, s, t.next, n + 1); }
  }

  lemma {:induction false} FindShifted(s: Text, c: char, i: nat, j: nat)
    requires i <= j <= |s|
    ensures FindFrom(s[i..], c, j - i) == FindFrom(s, c, j) - i
    decreases |s| - j
  {
    if j < |s| && s[j] != c {
      FindShifted(s, c, i, j + 1);
    }
  }
}
