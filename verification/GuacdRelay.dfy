/**
 `validate_browser_instruction` and the `from_browser` relay (backend/app/services/guacamole_console.py):
 what reaches guacd is exactly what the browser was allowed to say.
 */
module GuacdRelay {
  import opened Common
  import opened Decimals
  import opened GuacdProtocol
  import opened GuacdFraming
  import opened GuacdStream

  // Python's `str.isdigit` and the decimal value `int` gives a character, both wider than ASCII.
  // A character can be a digit without having a decimal value.
  datatype Digits = Digits(isDigit: char -> bool, value: char -> Option<nat>)

  const MAX_INT_DIGITS := 4300

  predicate IsDigits(d: Digits, s: Text) {
    s != [] && forall i | 0 <= i < |s| :: d.isDigit(s[i])
  }

  function DecimalValue(d: Digits, s: Text): Option<nat> {
    if s == [] then Some(0)
    else
      match (DecimalValue(d, s[..|s| - 1]), d.value(s[|s| - 1]))
      case (Some(high), Some(low)) => Some(10 * high + low)
      case _ => None
  }

  // `lo <= int(s) <= hi`; a string `int` refuses, by content or by length, raises and so does not pass.
  predicate InRange(d: Digits, s: Text, lo: nat, hi: nat) {
    |s| <= MAX_INT_DIGITS && DecimalValue(d, s).Some? && lo <= DecimalValue(d, s).value <= hi
  }

  datatype Ruling = Echo | Forward | Hangup | Refuse

  predicate IsPing(d: Digits, es: Instruction) {
    |es| == 3 && es[..2] == ["", "ping"] && IsDigits(d, es[2])
  }

  // The instructions `validate_browser_instruction` passes on.
  predicate Permitted(d: Digits, es: Instruction)
    requires es != []
  {
    var opcode, args := es[0], es[1..];
    || (opcode == "nop" && args == [])
    || (opcode == "sync" && |args| == 1 && IsDigits(d, args[0]))
    || (opcode == "ack" && |args| == 3 && IsDigits(d, args[0]) && IsDigits(d, args[2]) && |args[1]| <= 256)
    || (opcode == "key" && |args| == 2 && IsDigits(d, args[0]) && InRange(d, args[0], 0, 0xFFFFFFFF)
        && args[1] in {"0", "1"})
    || (opcode == "mouse" && |args| in {3, 4} && (forall i | 0 <= i < |args| :: IsDigits(d, args[i]))
        && InRange(d, args[0], 0, 8192) && InRange(d, args[1], 0, 8192) && InRange(d, args[2], 0, 31))
    || (opcode == "size" && |args| == 2 && (forall i | 0 <= i < |args| :: IsDigits(d, args[i]))
        && (forall i | 0 <= i < |args| :: InRange(d, args[i], 200, 4096)))
  }

  function Judge(d: Digits, es: Instruction): Ruling
    requires es != []
  {
    if IsPing(d, es) then Echo
    else if es == ["disconnect"] then Hangup
    else if Permitted(d, es) then Forward
    else Refuse
  }

  datatype RelayEnd = Closed | Rejected | Malformed(flaw: Flaw) | TooMuch | BrowserGone

  // What goes to guacd, what goes back to the browser, and why the relay stops.
  datatype Route = Route(forward: seq<Instruction>, echo: seq<Instruction>, end: RelayEnd)

  function StreamEnd(ending: Ending): RelayEnd {
    match ending
    case Waiting(_) => BrowserGone
    case Broken(flaw) => Malformed(flaw)
    case Overflow => TooMuch
  }

  function RouteOf(d: Digits, instructions: seq<Instruction>, ending: Ending): Route {
    if instructions == [] then Route([], [], StreamEnd(ending))
    else if instructions[0] == [] then Route([], [], Rejected)
    else
      var es, more := instructions[0], RouteOf(d, instructions[1..], ending);
      match Judge(d, es)
      case Echo => more.(echo := [es] + more.echo)
      case Forward => more.(forward := [es] + more.forward)
      case Hangup => Route([], [], Closed)
      case Refuse => Route([], [], Rejected)
  }

  function Combine(forward: seq<Instruction>, echo: seq<Instruction>, r: Route): Route {
    Route(forward + r.forward, echo + r.echo, r.end)
  }

  function Routed(d: Digits, st: Stream): Route {
    RouteOf(d, st.instructions, st.ending)
  }

  lemma RouteNext(d: Digits, forward: seq<Instruction>, echo: seq<Instruction>, es: Instruction, more: Stream)
    requires es != []
    ensures var st := Stream([es] + more.instructions, more.ending);
            Combine(forward, echo, Routed(d, st)) ==
            match Judge(d, es)
            case Echo => Combine(forward, echo + [es], Routed(d, more))
            case Forward => Combine(forward + [es], echo, Routed(d, more))
            case Hangup => Route(forward, echo, Closed)
            case Refuse => Route(forward, echo, Rejected)
  {
  }

  const RELAY_LIMIT := 65536

  lemma RouteStops(d: Digits, forward: seq<Instruction>, echo: seq<Instruction>, ending: Ending)
    ensures Combine(forward, echo, Routed(d, Stream([], ending))) == Route(forward, echo, StreamEnd(ending))
  {
  }

  // What the loop has written so far, as text and as the instructions that text is.
  ghost predicate Written(text: Text, instructions: seq<Instruction>) {
    text == EncodeAll(instructions)
  }

  // The inner loop: everything the parser can give is answered, forwarded, or stops the relay.
  method Deliver(d: Digits, parser: InstructionParser, toGuacd0: Text, toBrowser0: Text, ghost later: seq<Text>,
                 ghost forward0: seq<Instruction>, ghost echo0: seq<Instruction>)
    returns (toGuacd: Text, toBrowser: Text, stop: Option<RelayEnd>, ghost forward: seq<Instruction>,
        ghost echo: seq<Instruction>)
    requires Written(toGuacd0, forward0) && Written(toBrowser0, echo0)
    modifies parser
    ensures Written(toGuacd, forward) && Written(toBrowser, echo)
    ensures var whole := Combine(forward0, echo0, Routed(d, Resume(parser.limit, old(parser.buffer), later)));
            if stop.Some? then whole == Route(forward, echo, stop.value)
            else Parse(parser.limit, parser.buffer) == Incomplete
                 && whole == Combine(forward, echo, Routed(d, Resume(parser.limit, parser.buffer, later)))
  {
    ghost var whole := Combine(forward0, echo0, Routed(d, Resume(parser.limit, parser.buffer, later)));
    toGuacd, toBrowser, forward, echo, stop := toGuacd0, toBrowser0, forward0, echo0, None;
    while true
      invariant Written(toGuacd, forward) && Written(toBrowser, echo) && stop == None
      invariant whole == Combine(forward, echo, Routed(d, Resume(parser.limit, parser.buffer, later)))
      decreases |parser.buffer|
    {
      var popped := parser.Pop();
      if popped.Err? {
        RouteStops(d, forward, echo, Broken(popped.error));
        stop := Some(Malformed(popped.error));
        return;
      }
      if popped.value.None? { return; }
      var es := popped.value.value;
      RouteNext(d, forward, echo, es, Resume(parser.limit, parser.buffer, later));
      match Judge(d, es) {
        case Echo =>
          EncodeAllAppend(echo, es);
          toBrowser, echo := toBrowser + EncodeElements(es), echo + [es];
        case Forward =>
          EncodeAllAppend(forward, es);
          toGuacd, forward := toGuacd + EncodeElements(es), forward + [es];
        case Hangup =>
          stop := Some(Closed);
          return;
        case Refuse =>
          stop := Some(Rejected);
          return;
      }
    }
  }

  // `from_browser`, over the messages the browser sends before it goes away.
  method FromBrowser(d: Digits, messages: seq<Text>) returns (toGuacd: Text, toBrowser: Text, end: RelayEnd)
    ensures var r := Routed(d, Resume(RELAY_LIMIT, [], messages));
            toGuacd == EncodeAll(r.forward) && toBrowser == EncodeAll(r.echo) && end == r.end
  {
    var parser := new InstructionParser(RELAY_LIMIT);
    ghost var whole := Routed(d, Resume(RELAY_LIMIT, [], messages));
    ghost var forward, echo: seq<Instruction> := [], [];
    var stop;
    toGuacd, toBrowser := [], [];
    assert messages[0..] == messages;
    for next := 0 to |messages|
      invariant parser.limit == RELAY_LIMIT && fresh(parser)
      invariant Written(toGuacd, forward) && Written(toBrowser, echo)
      invariant Parse(RELAY_LIMIT, parser.buffer) == Incomplete
      invariant whole == Combine(forward, echo, Routed(d, Resume(RELAY_LIMIT, parser.buffer, messages[next..])))
    {
      ghost var later := messages[next + 1..];
      assert messages[next..] == [messages[next]] + later;
      var ok := parser.Feed(messages[next]);
      if !ok {
        RouteStops(d, forward, echo, Overflow);
        return toGuacd, toBrowser, TooMuch;
      }
      toGuacd, toBrowser, stop, forward, echo := Deliver(d, parser, toGuacd, toBrowser, later, forward, echo);
      if stop.Some? { return toGuacd, toBrowser, stop.value; }
    }
    RouteStops(d, forward, echo, Waiting(parser.buffer));
    end := BrowserGone;
  }

  // ---- what the relay guarantees

  // The instructions judged `v`, in order.
  function Select(d: Digits, v: Ruling, instructions: seq<Instruction>): seq<Instruction> {
    if instructions == [] then []
    else if instructions[0] != [] && Judge(d, instructions[0]) == v then
      [instructions[0]] + Select(d, v, instructions[1..])
    else Select(d, v, instructions[1..])
  }

  // The relay stops before position `n`: at the end of the stream, at a disconnect or at a refused instruction.
  predicate StopsAt(d: Digits, st: Stream, n: nat, end: RelayEnd) {
    && n <= |st.instructions|
    && (forall i | 0 <= i < n :: st.instructions[i] != [] && Judge(d, st.instructions[i]) in {Echo, Forward})
    && if n == |st.instructions| then end == StreamEnd(st.ending)
       else if st.instructions[n] != [] && Judge(d, st.instructions[n]) == Hangup then end == Closed
       else end == Rejected && (st.instructions[n] == [] || Judge(d, st.instructions[n]) == Refuse)
  }

  lemma {:induction false} RouteIsCut(d: Digits, st: Stream) returns (n: nat)
    ensures StopsAt(d, st, n, Routed(d, st).end)
    ensures Routed(d, st).forward == Select(d, Forward, st.instructions[..n])
    ensures Routed(d, st).echo == Select(d, Echo, st.instructions[..n])
    decreases |st.instructions|
  {
    var all := st.instructions;
    if all == [] || all[0] == [] || Judge(d, all[0]) in {Hangup, Refuse} {
      n := 0;
    } else {
      var more := Stream(all[1..], st.ending);
      var m := RouteIsCut(d, more);
      n := m + 1;
      assert all[..n][1..] == all[1..][..m];
      forall i | 0 <= i < n
        ensures all[i] != [] && Judge(d, all[i]) in {Echo, Forward}
      {
        if i > 0 { assert all[i] == more.instructions[i - 1]; }
      }
    }
  }

  lemma {:induction false} SelectedAre(d: Digits, v: Ruling, instructions: seq<Instruction>, i: nat)
    requires i < |Select(d, v, instructions)|
    ensures var es := Select(d, v, instructions)[i]; es in instructions && es != [] && Judge(d, es) == v
  {
    if instructions[0] != [] && Judge(d, instructions[0]) == v {
      if i > 0 { SelectedAre(d, v, instructions[1..], i - 1); }
    } else {
      SelectedAre(d, v, instructions[1..], i);
    }
  }

  // For any messages, however cut: guacd parses exactly the browser's instructions, in order, without the pings,
  // up to the first disconnect or refusal, and every one of them is a permitted one.
  lemma RelayIsFaithful(d: Digits, messages: seq<Text>) returns (n: nat)
    ensures var st := Resume(RELAY_LIMIT, [], messages);
            var r := Routed(d, st);
            && StopsAt(d, st, n, r.end)
            && Whole(RELAY_LIMIT, EncodeAll(r.forward)) == Stream(Select(d, Forward, st.instructions[..n]), Waiting([]))
            && forall i | 0 <= i < |r.forward| :: r.forward[i] != [] && Permitted(d, r.forward[i])
  {
    var st := Resume(RELAY_LIMIT, [], messages);
    var r := Routed(d, st);
    n := RouteIsCut(d, st);
    forall i | 0 <= i < |r.forward|
      ensures r.forward[i] != [] && Permitted(d, r.forward[i]) && Encodable(RELAY_LIMIT, r.forward[i])
    {
      SelectedAre(d, Forward, st.instructions[..n], i);
      var j :| 0 <= j < n && st.instructions[j] == r.forward[i];
      StreamIsEncodable(RELAY_LIMIT, [], messages, j);
    }
    EncodedStreamParses(RELAY_LIMIT, r.forward);
  }

  // Where the browser cuts its messages changes nothing, unless a message overruns the parser's limit.
  lemma RelayIgnoresBoundaries(d: Digits, a: seq<Text>, b: seq<Text>)
    requires Concat(a) == Concat(b)
    requires Resume(RELAY_LIMIT, [], a).ending != Overflow && Resume(RELAY_LIMIT, [], b).ending != Overflow
    ensures Routed(d, Resume(RELAY_LIMIT, [], a)) == Routed(d, Resume(RELAY_LIMIT, [], b))
  {
    AnyTwoCuts(RELAY_LIMIT, a, b);
  }

  lemma EncodeAllCons(x: Instruction, a: seq<Instruction>)
    ensures |EncodeAll([x] + a)| == |EncodeElements(x)| + |EncodeAll(a)|
  {
  }

  lemma {:induction false} RouteIsNoLonger(d: Digits, instructions: seq<Instruction>, ending: Ending)
    ensures var r := RouteOf(d, instructions, ending);
            |EncodeAll(r.forward)| + |EncodeAll(r.echo)| <= |EncodeAll(instructions)|
  {
    if instructions != [] && instructions[0] != [] {
      var es, more := instructions[0], RouteOf(d, instructions[1..], ending);
      match Judge(d, es) {
        case Echo =>
          EncodeAllCons(es, more.echo);
          RouteIsNoLonger(d, instructions[1..], ending);
        case Forward =>
          EncodeAllCons(es, more.forward);
          RouteIsNoLonger(d, instructions[1..], ending);
        case _ =>
      }
    }
  }

  // The relay never writes more than the browser sent.
  lemma RelayIsNoLonger(d: Digits, messages: seq<Text>)
    ensures var r := Routed(d, Resume(RELAY_LIMIT, [], messages));
            |EncodeAll(r.forward)| + |EncodeAll(r.echo)| <= |Concat(messages)|
  {
    var st := Resume(RELAY_LIMIT, [], messages);
    RouteIsNoLonger(d, st.instructions, st.ending);
    StreamIsNoShorter(RELAY_LIMIT, [], messages);
  }
}
