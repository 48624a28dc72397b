/**
 Which byte strings the hypervisor's handshake accepts, said as a grammar, and what follows for the proxy.
 */
module RfbHandshake {
  import opened RfbProxy

  // A complete handshake: the security types offered and what the chosen one exchanges.
  datatype Handshake =
    | Plain(types: seq<Byte>, subtypes: seq<Byte>)
    | Des(types: seq<Byte>, challenge: seq<Byte>)

  predicate Accepted(h: Handshake, c: Credentials) {
    && |h.types| < 256
    && match h
       case Plain(types, subtypes) =>
         19 in types && |subtypes| % 4 == 0 && |subtypes| < 4 * 256 && OffersPlain(subtypes) && Sendable(c)
       case Des(types, challenge) =>
         19 !in types && 2 in types && |challenge| == 16
  }

  function Exchange(h: Handshake): seq<Byte>
    requires h.Plain? ==> |h.subtypes| < 4 * 256
  {
    match h
    case Plain(_, subtypes) => [0, 2] + ([0] + ([|subtypes| / 4] + subtypes))
    case Des(_, challenge) => challenge
  }

  // What the hypervisor sends, up to and including SecurityResult.
  function Wire(h: Handshake, rest: seq<Byte>): seq<Byte>
    requires |h.types| < 256 && (h.Plain? ==> |h.subtypes| < 4 * 256)
  {
    VERSION + ([|h.types|] + (h.types + (Exchange(h) + ([0, 0, 0, 0] + rest))))
  }

  // What the proxy answers.
  function Reply(h: Handshake, c: Credentials): seq<Byte>
    requires Accepted(h, c)
  {
    match h
    case Plain(_, _) => VERSION + [19] + [0, 2] + PlainLogin(c)
    case Des(_, challenge) => VERSION + [2] + c.respond(challenge)
  }

  // ---- what the fixed fields are

  lemma VersionIsText()
    ensures |VERSION| == 12 && forall i | 0 <= i < 12 :: VERSION[i] == "RFB 003.008\n"[i] as int
  {
  }

  // Numbers of 32 bits are sent with their greatest byte first.
  lemma NumbersAreBigEndian(n: nat, s: seq<Byte>)
    requires n < 0x1_0000_0000 && |s| == 4
    ensures Number32(Be32(n)) == n && Be32(Number32(s)) == s && Number32(s) < 0x1_0000_0000
    ensures Number32([0, 0, 1, 0]) == 256 && Number32([1, 0, 0, 0]) == 16_777_216
  {
    WordOf(n);
    BytesOf(s[0], s[1], s[2], s[3]);
  }

  lemma WordOf(n: nat)
    requires n < 0x1_0000_0000
    ensures Number32(Be32(n)) == n
  {
    var low, mid, high := n / 0x100, n / 0x100 / 0x100, n / 0x100 / 0x100 / 0x100;
    var b, c, d := mid % 0x100, low % 0x100, n % 0x100;
    assert mid == 0x100 * high + b && low == 0x100 * mid + c && n == 0x100 * low + d;
    Quotient(n, 0x1_0000, mid, 0x100 * c + d);
    Quotient(n, 0x100_0000, high, 0x1_0000 * b + 0x100 * c + d);
  }

  lemma BytesOf(a: Byte, b: Byte, c: Byte, d: Byte)
    ensures Be32(Number32([a, b, c, d])) == [a, b, c, d]
  {
    var n: int := Number32([a, b, c, d]);
    Quotient(n, 0x100_0000, a, 0x1_0000 * b + 0x100 * c + d);
    Quotient(n, 0x1_0000, 0x100 * a + b, 0x100 * c + d);
    Quotient(n, 0x100, 0x1_0000 * a + 0x100 * b + c, d);
    Quotient(0x100 * a + b, 0x100, a, b);
    Quotient(0x1_0000 * a + 0x100 * b + c, 0x100, 0x100 * a + b, c);
  }

  lemma Quotient(n: int, m: int, q: int, r: int)
    requires 0 <= r < m && n == m * q + r
    ensures n / m == q && n % m == r
  {
    var k := q - n / m;
    assert m * k == n % m - r;
    if k > 0 { Multiple(m, k); }
    if k < 0 { Multiple(m, -k); }
  }

  lemma {:induction false} Multiple(m: int, k: int)
    requires m > 0 && k > 0
    ensures m * k >= m
    decreases k
  {
    if k > 1 { Multiple(m, k - 1); }
  }

  // Plain is on offer exactly if one of the sub-types, read as a number, is 256.
  lemma {:induction false} PlainIsOffered(s: seq<Byte>)
    requires |s| % 4 == 0
    ensures OffersPlain(s) <==> exists i: nat :: 4 * i < |s| && WordAt(s, i) == 256
  {
    if s != [] {
      NumbersAreBigEndian(256, s[..4]);
      PlainIsOffered(s[4..]);
      forall i: nat | 4 * i + 4 < |s|
        ensures WordAt(s, i + 1) == WordAt(s[4..], i)
      {
        assert s[4..][4 * i..4 * i + 4] == s[4 * (i + 1)..4 * (i + 1) + 4];
      }
      if OffersPlain(s) && !OffersPlain(s[4..]) { assert WordAt(s, 0) == 256; }
      if i: nat :| 4 * i < |s| && WordAt(s, i) == 256 {
        if i > 0 { assert WordAt(s[4..], i - 1) == 256; }
      }
      if OffersPlain(s[4..]) {
        var i: nat :| 4 * i < |s[4..]| && WordAt(s[4..], i) == 256;
        assert WordAt(s, i + 1) == 256;
      }
    }
  }

  function WordAt(s: seq<Byte>, i: nat): nat
    requires |s| % 4 == 0 && 4 * i < |s|
  {
    Number32(s[4 * i..4 * i + 4])
  }

  // The login is the sub-type, the two lengths, the user and the ticket, in this order and nothing else.
  lemma LoginIsLaidOut(c: Credentials)
    requires Sendable(c)
    ensures var login, n := PlainLogin(c), |c.user|;
            && |login| == 12 + n + |c.ticket|
            && Number32(login[..4]) == 256 && Number32(login[4..8]) == n && Number32(login[8..12]) == |c.ticket|
            && login[12..12 + n] == c.user && login[12 + n..] == c.ticket
  {
    NumbersAreBigEndian(|c.user|, PLAIN);
    NumbersAreBigEndian(|c.ticket|, PLAIN);
    var login := PlainLogin(c);
    assert login[..4] == PLAIN && login[4..8] == Be32(|c.user|) && login[8..12] == Be32(|c.ticket|);
    assert login[12..] == c.user + c.ticket;
  }

  lemma Split(a: seq<Byte>, b: seq<Byte>)
    ensures (a + b)[..|a|] == a && (a + b)[|a|..] == b
  {
  }

  lemma Assoc(a: seq<Byte>, b: seq<Byte>, x: seq<Byte>)
    ensures (a + b) + x == a + (b + x)
  {
  }

  lemma WireIsDone(h: Handshake, c: Credentials, rest: seq<Byte>)
    requires Accepted(h, c)
    ensures Upstream(Wire(h, rest), c) == Done(Reply(h, c), rest)
  {
    var result := [0, 0, 0, 0] + rest;
    Split([0, 0, 0, 0], rest);
    var security := h.types + (Exchange(h) + result);
    Split(VERSION, [|h.types|] + security);
    Split([|h.types|], security);
    Split(h.types, Exchange(h) + result);
    match h {
      case Plain(types, subtypes) =>
        PlainIsDone(subtypes, c, VERSION + [VENCRYPT], result);
      case Des(types, challenge) =>
        Split(challenge, result);
    }
  }

  lemma CountThenTypes(n: Byte, subtypes: seq<Byte>, c: Credentials, sent: seq<Byte>, result: seq<Byte>)
    requires |subtypes| == 4 * (n as int) && OffersPlain(subtypes) && Sendable(c)
    ensures VenCryptCount([n] + (subtypes + result), c, sent) == SecurityResult(result, sent + PlainLogin(c))
  {
  }

  lemma VersionThenAck(s: seq<Byte>, c: Credentials, sent: seq<Byte>)
    ensures VenCrypt([0, 2] + ([0] + s), c, sent) == VenCryptCount(s, c, sent + [0, 2])
  {
  }

  lemma PlainIsDone(subtypes: seq<Byte>, c: Credentials, sent: seq<Byte>, result: seq<Byte>)
    requires |subtypes| % 4 == 0 && |subtypes| < 4 * 256 && OffersPlain(subtypes) && Sendable(c)
    ensures VenCrypt([0, 2] + ([0] + ([|subtypes| / 4] + subtypes)) + result, c, sent)
         == SecurityResult(result, sent + [0, 2] + PlainLogin(c))
  {
    var n: Byte := |subtypes| / 4;
    var s := [n] + (subtypes + result);
    Assoc([0, 2], [0] + ([n] + subtypes), result);
    Assoc([0], [n] + subtypes, result);
    Assoc([n], subtypes, result);
    VersionThenAck(s, c, sent);
    CountThenTypes(n, subtypes, c, sent + [0, 2], result);
  }

  // ---- and nothing else is accepted

  lemma ResultOfDone(s: seq<Byte>, sent: seq<Byte>)
    requires SecurityResult(s, sent).Done?
    ensures s == [0, 0, 0, 0] + SecurityResult(s, sent).rest && SecurityResult(s, sent).sent == sent
  {
  }

  lemma CountOfDone(s: seq<Byte>, c: Credentials, sent: seq<Byte>) returns (subtypes: seq<Byte>)
    requires VenCryptCount(s, c, sent).Done?
    ensures |subtypes| % 4 == 0 && |subtypes| < 4 * 256 && OffersPlain(subtypes) && Sendable(c)
    ensures var v := VenCryptCount(s, c, sent);
            && s == [|subtypes| / 4] + subtypes + ([0, 0, 0, 0] + v.rest)
            && v.sent == sent + PlainLogin(c)
  {
    var count := s[..1][0];
    var s1 := s[1..];
    subtypes := s1[..4 * (count as int)];
    ResultOfDone(s1[4 * (count as int)..], sent + PlainLogin(c));
    assert |subtypes| / 4 == count;
  }

  lemma VenCryptOfDone(s: seq<Byte>, c: Credentials, sent: seq<Byte>) returns (subtypes: seq<Byte>)
    requires VenCrypt(s, c, sent).Done?
    ensures |subtypes| % 4 == 0 && |subtypes| < 4 * 256 && OffersPlain(subtypes) && Sendable(c)
    ensures var v := VenCrypt(s, c, sent);
            && s == [0, 2] + ([0] + ([|subtypes| / 4] + subtypes)) + ([0, 0, 0, 0] + v.rest)
            && v.sent == sent + [0, 2] + PlainLogin(c)
  {
    var s2 := s[2..][1..];
    subtypes := CountOfDone(s2, c, sent + [0, 2]);
    assert s == [0, 2] + ([0] + s2);
    var result := [0, 0, 0, 0] + VenCrypt(s, c, sent).rest;
    Assoc([0, 2], [0] + ([|subtypes| / 4] + subtypes), result);
    Assoc([0], [|subtypes| / 4] + subtypes, result);
  }

  lemma TypesOfDone(s: seq<Byte>, c: Credentials, count: nat) returns (h: Handshake)
    requires count < 256 && SecurityTypes(s, c, VERSION, count).Done?
    ensures Accepted(h, c) && |h.types| == count
    ensures var v := SecurityTypes(s, c, VERSION, count);
            && s == h.types + (Exchange(h) + ([0, 0, 0, 0] + v.rest))
            && v.sent == Reply(h, c)
  {
    var types, after := s[..count], s[count..];
    assert s == types + after;
    if VENCRYPT in types {
      var subtypes := VenCryptOfDone(after, c, VERSION + [VENCRYPT]);
      h := Plain(types, subtypes);
    } else {
      var challenge := after[..16];
      assert after == challenge + after[16..];
      ResultOfDone(after[16..], VERSION + [VNC_AUTH] + c.respond(challenge));
      h := Des(types, challenge);
    }
  }

  lemma SecurityOfDone(s: seq<Byte>, c: Credentials) returns (h: Handshake)
    requires SecurityCount(s, c, VERSION).Done?
    ensures Accepted(h, c)
    ensures var v := SecurityCount(s, c, VERSION);
            && s == [|h.types|] + (h.types + (Exchange(h) + ([0, 0, 0, 0] + v.rest)))
            && v.sent == Reply(h, c)
  {
    var n, rest := s[..1][0], s[1..];
    assert s == [n] + rest;
    h := TypesOfDone(rest, c, n);
  }

  lemma WireAppend(h: Handshake, rest: seq<Byte>, more: seq<Byte>)
    requires |h.types| < 256 && (h.Plain? ==> |h.subtypes| < 4 * 256)
    ensures Wire(h, rest) + more == Wire(h, rest + more)
  {
  }

  // The proxy accepts exactly the handshakes of the grammar, answers each with its reply, and leaves every
  // byte after SecurityResult where it is.
  lemma AcceptsExactlyHandshakes(s: seq<Byte>, c: Credentials, sent: seq<Byte>, rest: seq<Byte>)
    ensures Upstream(s, c) == Done(sent, rest) <==>
            exists h :: Accepted(h, c) && s == Wire(h, rest) && sent == Reply(h, c)
  {
    if Upstream(s, c) == Done(sent, rest) {
      var h := SecurityOfDone(s[12..], c);
      assert s == VERSION + s[12..];
    }
    if h :| Accepted(h, c) && s == Wire(h, rest) && sent == Reply(h, c) {
      WireIsDone(h, c, rest);
    }
  }

  // Bytes that arrive later do not change an accepted handshake: they only join what is left over.
  lemma MoreBytesOnlyFollow(s: seq<Byte>, c: Credentials, more: seq<Byte>)
    requires Upstream(s, c).Done?
    ensures Upstream(s + more, c) == Done(Upstream(s, c).sent, Upstream(s, c).rest + more)
  {
    var v := Upstream(s, c);
    AcceptsExactlyHandshakes(s, c, v.sent, v.rest);
    var h :| Accepted(h, c) && s == Wire(h, v.rest) && v.sent == Reply(h, c);
    WireAppend(h, v.rest, more);
    WireIsDone(h, c, v.rest + more);
  }
}
