/**
 The rules of `validate_browser_instruction`, read off the relay's own traffic: which single messages of the browser
 reach guacd, in terms of the numbers they carry.
 */
module GuacdRules {
  import opened Common
  import opened Decimals
  import opened GuacdProtocol
  import opened GuacdFraming
  import opened GuacdStream
  import opened GuacdRelay

  // Digits are those of ASCII and have their own values.
  ghost predicate Ascii(d: Digits) {
    forall c: char ::
      && d.isDigit(c) == IsDigit(c)
      && (IsDigit(c) ==> d.value(c) == Some(c as int - '0' as int))
  }

  function Sent(d: Digits, es: Instruction): Route {
    Routed(d, Resume(RELAY_LIMIT, [], [EncodeElements(es)]))
  }

  // Sent on its own, the instruction reaches guacd as it is, and the relay waits for more.
  predicate Passes(d: Digits, es: Instruction) {
    Sent(d, es) == Route([es], [], BrowserGone)
  }

  // Nothing is written to either side, and the relay ends with an error.
  predicate IsRefused(d: Digits, es: Instruction) {
    Sent(d, es) == Route([], [], Rejected)
  }

  // What the relay reads in one message; the limit is on its whole text.
  predicate FitsMessage(es: Instruction) {
    1 <= |es| <= 256 && |EncodeElements(es)| <= 65536
  }

  lemma {:induction false} ElementsFit(es: Instruction, i: nat)
    requires i < |es|
    ensures |es[i]| < |EncodeElements(es)|
  {
    if i > 0 { ElementsFit(es[1..], i - 1); }
  }

  lemma FittingIsEncodable(es: Instruction)
    requires FitsMessage(es)
    ensures Encodable(RELAY_LIMIT, es)
  {
    forall i | 0 <= i < |es|
      ensures |es[i]| <= RELAY_LIMIT
    {
      ElementsFit(es, i);
    }
    PowerGrows(5, MAX_LENGTH_DIGITS);
    assert Power10(5) == 100000;
  }

  lemma SentAlone(d: Digits, es: Instruction)
    requires FitsMessage(es)
    ensures Sent(d, es) ==
            match Judge(d, es)
            case Echo => Route([], [es], BrowserGone)
            case Forward => Route([es], [], BrowserGone)
            case Hangup => Route([], [], Closed)
            case Refuse => Route([], [], Rejected)
  {
    FeedsAtOnce(EncodeElements(es));
    ParsesAlone(es);
    assert [es] == [es] + [];
    RouteNext(d, [], [], es, Stream([], Waiting([])));
    RouteStops(d, [es], [], Waiting([]));
    RouteStops(d, [], [es], Waiting([]));
    assert Combine([], [], Sent(d, es)) == Sent(d, es);
  }

  lemma ParsesAlone(es: Instruction)
    requires FitsMessage(es)
    ensures Whole(RELAY_LIMIT, EncodeElements(es)) == Stream([es], Waiting([]))
  {
    FittingIsEncodable(es);
    EncodedStreamParses(RELAY_LIMIT, [es]);
    assert EncodeAll([es]) == EncodeElements(es);
  }

  lemma FeedsAtOnce(text: Text)
    ensures Resume(RELAY_LIMIT, [], [text]) ==
            if |text| > RELAY_LIMIT then Stream([], Overflow) else Whole(RELAY_LIMIT, text)
  {
    assert Parse(RELAY_LIMIT, []) == Incomplete;
    assert [] + text == text;
  }

  lemma {:induction false} DigitsHaveValues(d: Digits, s: Text)
    requires Ascii(d) && forall i | 0 <= i < |s| :: IsDigit(s[i])
    ensures DecimalValue(d, s) == Some(Number(s))
    decreases |s|
  {
    if s != [] { DigitsHaveValues(d, s[..|s| - 1]); }
  }

  // `int` refuses strings longer than this, whatever they say.
  predicate Reads(s: Text, lo: nat, hi: nat) {
    AllDigits(s) && |s| <= 4300 && lo <= Number(s) <= hi
  }

  lemma RangeIsRead(d: Digits, s: Text, lo: nat, hi: nat)
    requires Ascii(d)
    ensures IsDigits(d, s) <==> AllDigits(s)
    ensures IsDigits(d, s) && InRange(d, s, lo, hi) <==> Reads(s, lo, hi)
  {
    if AllDigits(s) { DigitsHaveValues(d, s); }
  }

  // A key is passed on exactly if its code has 32 bits and it goes up or down.
  lemma KeysPass(d: Digits, code: Text, flag: Text)
    requires Ascii(d) && FitsMessage(["key", code, flag])
    ensures if Reads(code, 0, 0xFFFFFFFF) && (flag == "0" || flag == "1") then Passes(d, ["key", code, flag])
            else IsRefused(d, ["key", code, flag])
  {
    RangeIsRead(d, code, 0, 0xFFFFFFFF);
    SentAlone(d, ["key", code, flag]);
  }

  // A mouse event is passed on exactly within the screen and the five buttons; a fourth number is not looked at.
  lemma MouseMovesPass(d: Digits, x: Text, y: Text, mask: Text, more: Instruction)
    requires Ascii(d) && |more| <= 1 && FitsMessage(["mouse", x, y, mask] + more)
    ensures if && Reads(x, 0, 8192) && Reads(y, 0, 8192) && Reads(mask, 0, 31)
               && (more != [] ==> AllDigits(more[0])) then
              Passes(d, ["mouse", x, y, mask] + more)
            else
              IsRefused(d, ["mouse", x, y, mask] + more)
  {
    var es := ["mouse", x, y, mask] + more;
    RangeIsRead(d, x, 0, 8192);
    RangeIsRead(d, y, 0, 8192);
    RangeIsRead(d, mask, 0, 31);
    if more != [] { RangeIsRead(d, more[0], 0, 0); }
    var args := es[1..];
    assert args == [x, y, mask] + more;
    assert (forall i | 0 <= i < |args| :: IsDigits(d, args[i])) <==>
           IsDigits(d, args[0]) && IsDigits(d, args[1]) && IsDigits(d, args[2])
           && (more != [] ==> IsDigits(d, args[3]));
    SentAlone(d, es);
  }

  // A size is passed on exactly between 200 and 4096 either way.
  lemma SizesPass(d: Digits, width: Text, height: Text)
    requires Ascii(d) && FitsMessage(["size", width, height])
    ensures if Reads(width, 200, 4096) && Reads(height, 200, 4096) then Passes(d, ["size", width, height])
            else IsRefused(d, ["size", width, height])
  {
    RangeIsRead(d, width, 200, 4096);
    RangeIsRead(d, height, 200, 4096);
    var args := ["size", width, height][1..];
    assert args == [width, height];
    assert (forall i | 0 <= i < |args| :: IsDigits(d, args[i])) <==> IsDigits(d, args[0]) && IsDigits(d, args[1]);
    assert (forall i | 0 <= i < |args| :: InRange(d, args[i], 200, 4096)) <==>
           InRange(d, args[0], 200, 4096) && InRange(d, args[1], 200, 4096);
    SentAlone(d, ["size", width, height]);
  }

  // The three signals of the protocol itself.
  lemma SignalsPass(d: Digits, a: Text, note: Text, b: Text)
    requires Ascii(d) && FitsMessage(["sync", a]) && FitsMessage(["ack", a, note, b])
    ensures Passes(d, ["nop"])
    ensures if AllDigits(a) then Passes(d, ["sync", a]) else IsRefused(d, ["sync", a])
    ensures if AllDigits(a) && AllDigits(b) && |note| <= 256 then Passes(d, ["ack", a, note, b])
            else IsRefused(d, ["ack", a, note, b])
  {
    RangeIsRead(d, a, 0, 0);
    RangeIsRead(d, b, 0, 0);
    SentAlone(d, ["nop"]);
    SentAlone(d, ["sync", a]);
    SentAlone(d, ["ack", a, note, b]);
  }

  // A ping goes back to the browser; a disconnect ends the relay.
  lemma PingsComeBack(d: Digits, at: Text)
    requires Ascii(d) && FitsMessage(["", "ping", at])
    ensures if AllDigits(at) then Sent(d, ["", "ping", at]) == Route([], [["", "ping", at]], BrowserGone)
            else IsRefused(d, ["", "ping", at])
    ensures Sent(d, ["disconnect"]) == Route([], [], Closed)
  {
    RangeIsRead(d, at, 0, 0);
    SentAlone(d, ["", "ping", at]);
    SentAlone(d, ["disconnect"]);
  }

  // How many elements an instruction may have that is passed on, opcode included.
  function Sizes(opcode: Text): set<nat> {
    if opcode == "nop" then {1}
    else if opcode == "sync" then {2}
    else if opcode == "ack" then {4}
    else if opcode == "key" || opcode == "size" then {3}
    else if opcode == "mouse" then {4, 5}
    else {}
  }

  // Anything else is refused, whatever digits are: `select`, `connect` and the streams of files among it.
  lemma OthersAreRefused(d: Digits, es: Instruction)
    requires FitsMessage(es) && |es| !in Sizes(es[0]) && es != ["disconnect"]
    requires |es| != 3 || es[..2] != ["", "ping"]
    ensures IsRefused(d, es)
  {
    SentAlone(d, es);
  }

  // Whatever the browser sends, in however many messages: guacd parses input and signals, and nothing else;
  // the browser gets pings.
  lemma OnlyInputArrives(d: Digits, messages: seq<Text>)
    ensures var r := Routed(d, Resume(RELAY_LIMIT, [], messages));
            forall es | es in Whole(RELAY_LIMIT, EncodeAll(r.forward)).instructions ::
              es != [] && |es| in Sizes(es[0]) && es[0] in {"nop", "sync", "ack", "key", "mouse", "size"}
  {
    var r := Routed(d, Resume(RELAY_LIMIT, [], messages));
    var n := RelayIsFaithful(d, messages);
    var parsed := Whole(RELAY_LIMIT, EncodeAll(r.forward)).instructions;
    n := RouteIsCut(d, Resume(RELAY_LIMIT, [], messages));
    assert parsed == r.forward;
    forall es | es in parsed
      ensures es != [] && |es| in Sizes(es[0]) && es[0] in {"nop", "sync", "ack", "key", "mouse", "size"}
    {
      PermittedSizes(d, es);
    }
  }

  lemma PermittedSizes(d: Digits, es: Instruction)
    requires es != [] && Permitted(d, es)
    ensures |es| in Sizes(es[0]) && es[0] in {"nop", "sync", "ack", "key", "mouse", "size"}
  {
  }

  // The browser gets nothing back but its pings.
  lemma OnlyPingsComeBack(d: Digits, messages: seq<Text>)
    ensures forall es | es in Routed(d, Resume(RELAY_LIMIT, [], messages)).echo :: |es| == 3 && es[..2] == ["", "ping"]
  {
    var st := Resume(RELAY_LIMIT, [], messages);
    var echo := Routed(d, st).echo;
    var n := RouteIsCut(d, st);
    forall es | es in echo
      ensures |es| == 3 && es[..2] == ["", "ping"]
    {
      var i :| 0 <= i < |echo| && echo[i] == es;
      SelectedAre(d, Echo, st.instructions[..n], i);
    }
  }

  // A message longer than the relay's limit ends it before anything in it is looked at.
  lemma LongMessageEndsRelay(d: Digits, message: Text)
    ensures |message| > 65536 ==> Routed(d, Resume(RELAY_LIMIT, [], [message])) == Route([], [], TooMuch)
  {
    FeedsAtOnce(message);
  }
}
