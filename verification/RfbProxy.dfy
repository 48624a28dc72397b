/**
 The console proxy's RFB handshakes (backend/app/services/rfb_auth.py): sections 7.1 to 7.3 of RFC 6143 towards
 the hypervisor and towards the browser, over a stream that arrives in arbitrary pieces.
 */
module RfbProxy {
  import opened Common

  type Byte = b: int | 0 <= b < 256

  // What `receive` yields next; the queue running out is the peer, or the time limit, ending the handshake.
  datatype Message = Data(bytes: seq<Byte>) | NotBytes

  datatype Fault = Invalid | TooLarge | Unsupported

  const STREAM_LIMIT := 1048576

  // The bytes that can still be read: an empty or non-binary message ends them.
  function Flat(messages: seq<Message>): seq<Byte> {
    if messages == [] || messages[0].NotBytes? || messages[0].bytes == [] then []
    else messages[0].bytes + Flat(messages[1..])
  }

  class ByteStream {
    var buffer: seq<Byte>
    var incoming: seq<Message>

    constructor (incoming: seq<Message>)
      ensures buffer == [] && this.incoming == incoming
    {
      buffer := [];
      this.incoming := incoming;
    }

    // Everything not handed out yet.
    function Content(): seq<Byte>
      reads this
    {
      buffer + Flat(incoming)
    }

    // Exactly `count` bytes, in order; what was received beyond them stays buffered.
    method Read(count: nat) returns (r: Result<seq<Byte>, Fault>)
      modifies this
      ensures r.Ok? ==>
                && count <= |old(Content())|
                && r.value == old(Content())[..count] && Content() == old(Content())[count..]
      ensures r.Err? ==>
                && Content() == old(Content())
                && if r.error == Invalid then |Content()| < count else r.error == TooLarge && |Content()| > 1_048_576
      // No more than the limit is ever held.
      ensures r.Ok? && |old(buffer)| <= 1_048_576 ==> |r.value| + |buffer| <= 1_048_576
    {
      while |buffer| < count
        invariant Content() == old(Content())
        invariant |old(buffer)| <= 1_048_576 ==> |buffer| <= 1_048_576
        decreases |incoming|
      {
        if incoming == [] { return Err(Invalid); }
        var message := incoming[0];
        if message.NotBytes? || message.bytes == [] { return Err(Invalid); }
        assert buffer + (message.bytes + Flat(incoming[1..])) == buffer + message.bytes + Flat(incoming[1..]);
        incoming := incoming[1..];
        buffer := buffer + message.bytes;
        if |buffer| > STREAM_LIMIT { return Err(TooLarge); }
      }
      var data := buffer[..count];
      assert Content()[..count] == data && Content()[count..] == buffer[count..] + Flat(incoming);
      buffer := buffer[count..];
      return Ok(data);
    }
  }

  // `user` and `ticket` as encoded bytes; `respond` is the DES answer to a challenge.
  datatype Credentials = Credentials(user: seq<Byte>, ticket: seq<Byte>, respond: seq<Byte> -> seq<Byte>)

  // The handshake as it reads off a byte string: what was answered up to its end, and what is left over.
  datatype Verdict = Starve(sent: seq<Byte>) | Reject(sent: seq<Byte>) | Done(sent: seq<Byte>, rest: seq<Byte>)

  const VERSION: seq<Byte> := [0x52, 0x46, 0x42, 0x20, 0x30, 0x30, 0x33, 0x2e, 0x30, 0x30, 0x38, 0x0a]
  const VNC_AUTH: Byte := 2
  const VENCRYPT: Byte := 19
  const PLAIN: seq<Byte> := [0, 0, 1, 0]

  function Be32(n: nat): seq<Byte>
    requires n < 0x1_0000_0000
  {
    [n / 0x100_0000, n / 0x1_0000 % 0x100, n / 0x100 % 0x100, n % 0x100]
  }

  // Some aligned word of `s` is the sub-type Plain (256).
  predicate OffersPlain(s: seq<Byte>)
    requires |s| % 4 == 0
  {
    s != [] && (s[..4] == PLAIN || OffersPlain(s[4..]))
  }

  // There is a user, and both lengths fit the 32 bits they are sent in.
  predicate Sendable(c: Credentials) {
    c.user != [] && Packable(c)
  }

  predicate Packable(c: Credentials) {
    |c.user| < 0x1_0000_0000 && |c.ticket| < 0x1_0000_0000
  }

  function PlainLogin(c: Credentials): seq<Byte>
    requires Sendable(c)
  {
    PLAIN + (Be32(|c.user|) + Be32(|c.ticket|) + c.user + c.ticket)
  }

  function SecurityResult(s: seq<Byte>, sent: seq<Byte>): Verdict {
    if |s| < 4 then Starve(sent) else if s[..4] != [0, 0, 0, 0] then Reject(sent) else Done(sent, s[4..])
  }

  // VeNCrypt: its version, its acknowledgement, the number of its sub-types, the sub-types.
  function VenCrypt(s: seq<Byte>, c: Credentials, sent: seq<Byte>): Verdict {
    if |s| < 2 then Starve(sent) else if s[..2] != [0, 2] then Reject(sent) else VenCryptAck(s[2..], c, sent + [0, 2])
  }

  function VenCryptAck(s: seq<Byte>, c: Credentials, sent: seq<Byte>): Verdict {
    if |s| < 1 then Starve(sent) else if s[..1] != [0] then Reject(sent) else VenCryptCount(s[1..], c, sent)
  }

  function VenCryptCount(s: seq<Byte>, c: Credentials, sent: seq<Byte>): Verdict {
    if |s| < 1 then Starve(sent) else VenCryptTypes(s[1..], c, sent, s[..1][0])
  }

  function VenCryptTypes(s: seq<Byte>, c: Credentials, sent: seq<Byte>, count: nat): Verdict {
    if |s| < 4 * count then Starve(sent)
    else if !OffersPlain(s[..4 * count]) || c.user == [] then Reject(sent)
    else if !Packable(c) then Reject(sent + PLAIN)
    else SecurityResult(s[4 * count..], sent + PlainLogin(c))
  }

  function VncAuth(s: seq<Byte>, c: Credentials, sent: seq<Byte>): Verdict {
    if |s| < 16 then Starve(sent) else SecurityResult(s[16..], sent + c.respond(s[..16]))
  }

  function SecurityCount(s: seq<Byte>, c: Credentials, sent: seq<Byte>): Verdict {
    if |s| < 1 then Starve(sent) else SecurityTypes(s[1..], c, sent, s[..1][0])
  }

  // VeNCrypt is preferred; no type without authentication is ever accepted.
  function SecurityTypes(s: seq<Byte>, c: Credentials, sent: seq<Byte>, count: nat): Verdict {
    if |s| < count then Starve(sent)
    else if VENCRYPT in s[..count] then VenCrypt(s[count..], c, sent + [VENCRYPT])
    else if VNC_AUTH in s[..count] then VncAuth(s[count..], c, sent + [VNC_AUTH])
    else Reject(sent)
  }

  function Upstream(s: seq<Byte>, c: Credentials): Verdict {
    if |s| < 12 then Starve([]) else if s[..12] != VERSION then Reject([]) else SecurityCount(s[12..], c, VERSION)
  }

  // A method's result, and what it sent, against the verdict on the bytes that were there to read. A stream that
  // overran its buffer limit has no verdict; it takes more than the limit to do so.
  ghost predicate Agrees(r: Result<(), Fault>, v: Verdict, sent: seq<Byte>, left: seq<Byte>) {
    match r
    case Ok(_) => v == Done(sent, left)
    case Err(Invalid) => v == Starve(sent)
    case Err(Unsupported) => v == Reject(sent)
    case Err(TooLarge) => true
  }

  // ---- `authenticate_upstream`

  method ReadResult(stream: ByteStream, sent0: seq<Byte>) returns (r: Result<(), Fault>, sent: seq<Byte>)
    modifies stream
    ensures Agrees(r, SecurityResult(old(stream.Content()), sent0), sent, stream.Content())
    ensures sent == sent0
    ensures r.Err? && r.error == TooLarge ==> |old(stream.Content())| > STREAM_LIMIT
    ensures |stream.Content()| <= |old(stream.Content())|
  {
    sent := sent0;
    var result := stream.Read(4);
    if result.Err? { return Err(result.error), sent; }
    return if result.value == [0, 0, 0, 0] then Ok(()) else Err(Unsupported), sent;
  }

  method ReadSubtypes(stream: ByteStream, c: Credentials, sent0: seq<Byte>)
    returns (r: Result<(), Fault>, sent: seq<Byte>)
    modifies stream
    ensures Agrees(r, VenCryptCount(old(stream.Content()), c, sent0), sent, stream.Content())
    ensures r.Err? && r.error == TooLarge ==> |old(stream.Content())| > STREAM_LIMIT
    ensures |stream.Content()| <= |old(stream.Content())|
  {
    sent := sent0;
    var count := stream.Read(1);
    if count.Err? { return Err(count.error), sent; }
    var subtypes := stream.Read(4 * (count.value[0] as int));
    if subtypes.Err? { return Err(subtypes.error), sent; }
    if !OffersPlain(subtypes.value) || c.user == [] { return Err(Unsupported), sent; }
    if !Packable(c) { return Err(Unsupported), sent + PLAIN; }
    sent := sent + PlainLogin(c);
    r, sent := ReadResult(stream, sent);
  }

  method SpeakVenCrypt(stream: ByteStream, c: Credentials, sent0: seq<Byte>)
    returns (r: Result<(), Fault>, sent: seq<Byte>)
    modifies stream
    ensures Agrees(r, VenCrypt(old(stream.Content()), c, sent0), sent, stream.Content())
    ensures r.Err? && r.error == TooLarge ==> |old(stream.Content())| > STREAM_LIMIT
    ensures |stream.Content()| <= |old(stream.Content())|
  {
    sent := sent0;
    var version := stream.Read(2);
    if version.Err? { return Err(version.error), sent; }
    if version.value != [0, 2] { return Err(Unsupported), sent; }
    sent := sent + [0, 2];
    var ack := stream.Read(1);
    if ack.Err? { return Err(ack.error), sent; }
    if ack.value != [0] { return Err(Unsupported), sent; }
    r, sent := ReadSubtypes(stream, c, sent);
  }

  method SpeakVncAuth(stream: ByteStream, c: Credentials, sent0: seq<Byte>)
    returns (r: Result<(), Fault>, sent: seq<Byte>)
    modifies stream
    ensures Agrees(r, VncAuth(old(stream.Content()), c, sent0), sent, stream.Content())
    ensures r.Err? && r.error == TooLarge ==> |old(stream.Content())| > STREAM_LIMIT
    ensures |stream.Content()| <= |old(stream.Content())|
  {
    sent := sent0;
    var challenge := stream.Read(16);
    if challenge.Err? { return Err(challenge.error), sent; }
    sent := sent + c.respond(challenge.value);
    r, sent := ReadResult(stream, sent);
  }

  method ChooseSecurity(stream: ByteStream, c: Credentials, sent0: seq<Byte>)
    returns (r: Result<(), Fault>, sent: seq<Byte>)
    modifies stream
    ensures Agrees(r, SecurityCount(old(stream.Content()), c, sent0), sent, stream.Content())
    ensures r.Err? && r.error == TooLarge ==> |old(stream.Content())| > STREAM_LIMIT
    ensures |stream.Content()| <= |old(stream.Content())|
  {
    sent := sent0;
    var count := stream.Read(1);
    if count.Err? { return Err(count.error), sent; }
    var security := stream.Read(count.value[0]);
    if security.Err? { return Err(security.error), sent; }
    if VENCRYPT in security.value {
      r, sent := SpeakVenCrypt(stream, c, sent + [VENCRYPT]);
    } else if VNC_AUTH in security.value {
      r, sent := SpeakVncAuth(stream, c, sent + [VNC_AUTH]);
    } else {
      r := Err(Unsupported);
    }
  }

  method AuthenticateUpstream(stream: ByteStream, c: Credentials) returns (r: Result<(), Fault>, sent: seq<Byte>)
    modifies stream
    ensures Agrees(r, Upstream(old(stream.Content()), c), sent, stream.Content())
    ensures r.Err? && r.error == TooLarge ==> |old(stream.Content())| > STREAM_LIMIT
    ensures |stream.Content()| <= |old(stream.Content())|
  {
    sent := [];
    var version := stream.Read(12);
    if version.Err? { return Err(version.error), sent; }
    if version.value != VERSION { return Err(Unsupported), sent; }
    r, sent := ChooseSecurity(stream, c, version.value);
  }

  // ---- `authenticate_browser`

  const GREETING: seq<Byte> := VERSION + [1, 1] + [0, 0, 0, 0]

  const NAME_LIMIT := 65536

  function Number32(s: seq<Byte>): nat
    requires |s| == 4
  {
    0x100_0000 * (s[0] as int) + 0x1_0000 * (s[1] as int) + 0x100 * (s[2] as int) + s[3] as int
  }

  // The browser's half: its version, its choice of no security, and ClientInit.
  predicate BrowserSpeaks(b: seq<Byte>) {
    |b| >= 14 && b[..12] == VERSION && b[12..][..1] == [1]
  }

  // ServerInit is there, with a name the proxy takes.
  predicate ServerInit(rest: seq<Byte>) {
    |rest| >= 24 && Number32(rest[..24][20..24]) <= 65536 && |rest| >= 24 + Number32(rest[..24][20..24])
  }

  method GreetBrowser(browser: ByteStream)
    returns (r: Result<seq<Byte>, Fault>, toBrowser: seq<Byte>)
    modifies browser
    ensures toBrowser <= GREETING
    ensures r.Ok? ==>
              && BrowserSpeaks(old(browser.Content())) && toBrowser == GREETING
              && r.value + browser.Content() == old(browser.Content())[13..]
              && r.value == old(browser.Content())[13..14]
    ensures r.Err? ==> r.error == TooLarge || !BrowserSpeaks(old(browser.Content()))
    ensures r == Err(Invalid) ==> |old(browser.Content())| < 14
    ensures r == Err(Unsupported) ==>
              var b := old(browser.Content());
              |b| >= 12 && (b[..12] != VERSION || (|b| > 12 && b[12] != 1))
    ensures r.Err? && r.error == TooLarge ==> |old(browser.Content())| > STREAM_LIMIT
  {
    ghost var b := browser.Content();
    toBrowser := VERSION;
    var version := browser.Read(12);
    if version.Err? { return Err(version.error), toBrowser; }
    if version.value != VERSION { return Err(Unsupported), toBrowser; }
    toBrowser := toBrowser + [1, 1];
    var choice := browser.Read(1);
    if choice.Err? { return Err(choice.error), toBrowser; }
    if choice.value != [1] { return Err(Unsupported), toBrowser; }
    toBrowser := toBrowser + [0, 0, 0, 0];
    assert browser.Content() == b[13..];
    r := browser.Read(1);
    if r.Ok? {
      assert r.value + browser.Content() == b[13..] && r.value == b[13..][..1] == b[13..14];
    }
  }

  // ServerInit, whole, out of what the hypervisor sent.
  method ReadServerInit(stream: ByteStream) returns (r: Result<seq<Byte>, Fault>)
    modifies stream
    ensures r.Ok? ==> ServerInit(old(stream.Content())) && r.value + stream.Content() == old(stream.Content())
    ensures r.Err? ==> r.error == TooLarge || !ServerInit(old(stream.Content()))
    ensures r == Err(Unsupported) <==>
              |old(stream.Content())| >= 24 && Number32(old(stream.Content())[..24][20..24]) > 65536 && r.Err?
              && r.error != TooLarge
    ensures r.Err? && r.error == TooLarge ==> |old(stream.Content())| > STREAM_LIMIT
  {
    var header := stream.Read(24);
    if header.Err? { return header; }
    var length := Number32(header.value[20..24]);
    if length > NAME_LIMIT { return Err(Unsupported); }
    var name := stream.Read(length);
    if name.Err? { return name; }
    return Ok(header.value + name.value);
  }

  // Both handshakes, then what is buffered on either side is handed over.
  method AuthenticateBrowser(fromUpstream: seq<Message>, fromBrowser: seq<Message>, c: Credentials)
    returns (r: Result<(), Fault>, toUpstream: seq<Byte>, toBrowser: seq<Byte>,
             upstreamLeft: seq<Message>, browserLeft: seq<Message>)
    // Byte conservation: with what is still to come, each side gets everything after the handshake exactly once.
    ensures r.Ok? ==>
              && Upstream(Flat(fromUpstream), c).Done?
              && BrowserSpeaks(Flat(fromBrowser))
              && ServerInit(Upstream(Flat(fromUpstream), c).rest)
              && toBrowser + Flat(upstreamLeft) == GREETING + Upstream(Flat(fromUpstream), c).rest
              && toUpstream + Flat(browserLeft) == Upstream(Flat(fromUpstream), c).sent + Flat(fromBrowser)[13..]
    // A failed handshake has shown the browser nothing but the fixed greeting, and nothing at all before the
    // hypervisor accepted.
    ensures r.Err? ==> toBrowser <= GREETING
    ensures r.Err? && !Upstream(Flat(fromUpstream), c).Done? ==> toBrowser == []
    // And the hypervisor has got only its own answers, and at most ClientInit from the browser.
    ensures r.Err? && r.error != TooLarge ==>
              var sent := Upstream(Flat(fromUpstream), c).sent;
              || toUpstream == sent
              || (&& Upstream(Flat(fromUpstream), c).Done? && |Flat(fromBrowser)| >= 14
                  && toUpstream == sent + Flat(fromBrowser)[13..14])
    // It fails only when one of the handshakes does, or when a side sends more than a stream takes.
    ensures r.Err? ==>
              if r.error == TooLarge then |Flat(fromUpstream)| > STREAM_LIMIT || |Flat(fromBrowser)| > STREAM_LIMIT
              else || !Upstream(Flat(fromUpstream), c).Done?
                   || !BrowserSpeaks(Flat(fromBrowser))
                   || !ServerInit(Upstream(Flat(fromUpstream), c).rest)
  {
    var stream := new ByteStream(fromUpstream);
    var browser := new ByteStream(fromBrowser);
    toBrowser, upstreamLeft, browserLeft := [], [], [];
    assert stream.Content() == Flat(fromUpstream) && browser.Content() == Flat(fromBrowser);
    ghost var verdict := Upstream(Flat(fromUpstream), c);
    r, toUpstream := AuthenticateUpstream(stream, c);
    if r.Err? { return; }
    assert verdict == Done(toUpstream, stream.Content());
    var init;
    init, toBrowser := GreetBrowser(browser);
    if init.Err? { r := Err(init.error); return; }
    toUpstream := toUpstream + init.value;
    var desktop := ReadServerInit(stream);
    if desktop.Err? { r := Err(desktop.error); return; }
    toBrowser := toBrowser + desktop.value;
    Append3(GREETING, desktop.value, stream.buffer, Flat(stream.incoming));
    Append3(verdict.sent, init.value, browser.buffer, Flat(browser.incoming));
    toBrowser := toBrowser + stream.buffer;
    toUpstream := toUpstream + browser.buffer;
    upstreamLeft, browserLeft := stream.incoming, browser.incoming;
  }

  lemma Append3(a: seq<Byte>, b: seq<Byte>, x: seq<Byte>, y: seq<Byte>)
    ensures a + b + x + y == a + (b + (x + y))
  {
  }
}
