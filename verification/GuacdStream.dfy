/**
 A stream of instructions that arrives in pieces: chunk independence, and the reader built on it.
 */
module GuacdStream {
  import opened Common
  import opened Decimals
  import opened GuacdProtocol
  import opened GuacdFraming

  // How a stream stops: text still waiting for more, a framing flaw, or `feed`'s limit.
  datatype Ending = Waiting(rest: Text) | Broken(flaw: Flaw) | Overflow

  datatype Stream = Stream(instructions: seq<Instruction>, ending: Ending)

  function Concat(chunks: seq<Text>): Text {
    if chunks == [] then [] else chunks[0] + Concat(chunks[1..])
  }

  // `pop` until it asks for more, then `feed` the next chunk.
  function Resume(limit: nat, s: Text, chunks: seq<Text>): Stream
    decreases |chunks|, |s|
  {
    match Parse(limit, s)
    case Bad(flaw) => Stream([], Broken(flaw))
    case Complete(es, rest) =>
      var more := Resume(limit, rest, chunks);
      Stream([es] + more.instructions, more.ending)
    case Incomplete =>
      if chunks == [] then Stream([], Waiting(s))
      else if |s + chunks[0]| > limit then Stream([], Overflow)
      else Resume(limit, s + chunks[0], chunks[1..])
  }

  // The same text in one piece, with no limit on feeding it.
  function Whole(limit: nat, s: Text): Stream {
    Resume(limit, s, [])
  }

  // However the text is cut, the instructions and the ending are those of the whole text; and when the
  // limit of `feed` is hit, what came out before is a prefix of what the whole text holds.
  lemma {:induction false} ChunkIndependence(limit: nat, s: Text, chunks: seq<Text>)
    ensures var st, whole := Resume(limit, s, chunks), Whole(limit, s + Concat(chunks));
            && (st.ending != Overflow ==> st == whole)
            && st.instructions <= whole.instructions
    decreases |chunks|, |s|
  {
    var tail := Concat(chunks);
    match Parse(limit, s)
    case Bad(flaw) =>
      ScanIsStable(limit, s, 0, tail);
    case Complete(es, rest) =>
      ScanIsStable(limit, s, 0, tail);
      ChunkIndependence(limit, rest, chunks);
    case Incomplete =>
      if chunks == [] {
        assert s + tail == s;
      } else if |s + chunks[0]| <= limit {
        assert s + tail == s + chunks[0] + Concat(chunks[1..]);
        ChunkIndependence(limit, s + chunks[0], chunks[1..]);
      }
  }

  // Two ways of cutting the same text cannot be told apart.
  lemma AnyTwoCuts(limit: nat, a: seq<Text>, b: seq<Text>)
    requires Concat(a) == Concat(b)
    requires Resume(limit, [], a).ending != Overflow && Resume(limit, [], b).ending != Overflow
    ensures Resume(limit, [], a) == Resume(limit, [], b)
  {
    ChunkIndependence(limit, [], a);
    ChunkIndependence(limit, [], b);
  }

  lemma {:induction false} StreamIsEncodable(limit: nat, s: Text, chunks: seq<Text>, i: nat)
    requires i < |Resume(limit, s, chunks).instructions|
    ensures Encodable(limit, Resume(limit, s, chunks).instructions[i])
    decreases |chunks|, |s|
  {
    match Parse(limit, s)
    case Complete(es, rest) =>
      ParsedIsEncodable(limit, s);
      if i > 0 { StreamIsEncodable(limit, rest, chunks, i - 1); }
    case Incomplete =>
      StreamIsEncodable(limit, s + chunks[0], chunks[1..], i);
  }

  function EncodeAll(instructions: seq<Instruction>): Text {
    if instructions == [] then [] else EncodeElements(instructions[0]) + EncodeAll(instructions[1..])
  }

  lemma {:induction false} EncodeAllAppend(a: seq<Instruction>, x: Instruction)
    ensures EncodeAll(a + [x]) == EncodeAll(a) + EncodeElements(x)
  {
    if a == [] {
      assert [x][1..] == [];
    } else {
      EncodeAllAppend(a[1..], x);
      assert (a + [x])[1..] == a[1..] + [x];
    }
  }

  // What was encoded parses back to exactly the same instructions, with nothing left over.
  lemma {:induction false} EncodedStreamParses(limit: nat, instructions: seq<Instruction>)
    requires forall i | 0 <= i < |instructions| :: Encodable(limit, instructions[i])
    ensures Whole(limit, EncodeAll(instructions)) == Stream(instructions, Waiting([]))
  {
    if instructions != [] {
      RoundTrip(limit, instructions[0], EncodeAll(instructions[1..]));
      EncodedStreamParses(limit, instructions[1..]);
    }
  }

  lemma {:induction false} StreamIsNoShorter(limit: nat, s: Text, chunks: seq<Text>)
    ensures |EncodeAll(Resume(limit, s, chunks).instructions)| <= |s| + |Concat(chunks)|
    decreases |chunks|, |s|
  {
    match Parse(limit, s)
    case Bad(flaw) =>
    case Complete(es, rest) =>
      ReencodingIsNoLonger(limit, s);
      StreamIsNoShorter(limit, rest, chunks);
    case Incomplete =>
      if chunks != [] && |s + chunks[0]| <= limit {
        StreamIsNoShorter(limit, s + chunks[0], chunks[1..]);
      }
  }

  // ---- InstructionReader

  datatype ReadError = Flawed(flaw: Flaw) | TooLong | EndOfStream

  // The bytes still to come from the socket, as the text the UTF-8 decoder makes of them.
  class InstructionReader {
    const parser: InstructionParser
    var incoming: seq<Text>

    constructor (limit: nat, incoming: seq<Text>)
      ensures parser.limit == limit && parser.buffer == [] && this.incoming == incoming && fresh(parser)
    {
      parser := new InstructionParser(limit);
      this.incoming := incoming;
    }

    function Ahead(): Stream
      reads this, parser
    {
      Resume(parser.limit, parser.buffer, incoming)
    }

    // Each read takes the next instruction off the stream, and fails only when there is none.
    method Read() returns (r: Result<Instruction, ReadError>)
      modifies this, parser
      ensures old(Ahead()).instructions != [] ==>
                && r == Ok(old(Ahead()).instructions[0])
                && Ahead() == Stream(old(Ahead()).instructions[1..], old(Ahead()).ending)
      ensures old(Ahead()).instructions == [] ==>
                r == Err(match old(Ahead()).ending
                         case Waiting(_) => EndOfStream
                         case Broken(flaw) => Flawed(flaw)
                         case Overflow => TooLong)
    {
      while true
        invariant Ahead() == old(Ahead())
        decreases |incoming|
      {
        var popped := parser.Pop();
        if popped.Err? { return Err(Flawed(popped.error)); }
        if popped.value.Some? { return Ok(popped.value.value); }
        if incoming == [] { return Err(EndOfStream); }
        var data := incoming[0];
        incoming := incoming[1..];
        var ok := parser.Feed(data);
        if !ok { return Err(TooLong); }
      }
    }
  }
}
