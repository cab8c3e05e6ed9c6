/**
 The canonical messages that relay requests and responses are signed over
 (crates/relay-control/src/signing.rs). Fields are joined with "|" although two of them, the method
 and the path, may contain that character themselves.
 */
module SigningMessages {
  import opened Text

  newtype Nibble = n: int | 0 <= n < 16

  const I64_MIN: int := -0x8000_0000_0000_0000
  const I64_MAX: int := 0x7fff_ffff_ffff_ffff

  type I64 = n: int | I64_MIN <= n <= I64_MAX

  /** A UUID as its 32 hexadecimal digits. */
  type Uuid = u: seq<Nibble> | |u| == 32 witness seq(32, _ => 0)

  function HexDigit(n: Nibble): (c: char)
    ensures c != '|' && c != '-'
  {
    if n < 10 then ('0' as int + n as int) as char else ('a' as int + (n as int - 10)) as char
  }

  function Hex(s: seq<Nibble>): (h: string)
    ensures |h| == |s| && forall i :: 0 <= i < |s| ==> h[i] == HexDigit(s[i])
  {
    seq(|s|, i requires 0 <= i < |s| => HexDigit(s[i]))
  }

  /** The hyphenated text form, 8-4-4-4-12. */
  function UuidText(u: Uuid): (text: string)
    ensures |text| == 36 && '|' !in text
    ensures text[8] == text[13] == text[18] == text[23] == '-'
  {
    Hex(u[..8]) + "-" + Hex(u[8..12]) + "-" + Hex(u[12..16]) + "-" + Hex(u[16..20]) + "-" + Hex(u[20..])
  }

  lemma HexInjective(a: seq<Nibble>, b: seq<Nibble>)
    requires Hex(a) == Hex(b)
    ensures a == b
  {
    forall i | 0 <= i < |a|
      ensures a[i] == b[i]
    {
      assert HexDigit(a[i]) == Hex(a)[i] == Hex(b)[i] == HexDigit(b[i]);
    }
  }

  lemma UuidTextInjective(u: Uuid, v: Uuid)
    requires UuidText(u) == UuidText(v)
    ensures u == v
  {
    var u1, u2, u3, u4 := Hex(u[..8]), Hex(u[8..12]), Hex(u[12..16]), Hex(u[16..20]);
    var v1, v2, v3, v4 := Hex(v[..8]), Hex(v[8..12]), Hex(v[12..16]), Hex(v[16..20]);
    LastCut(u1 + "-" + u2 + "-" + u3 + "-" + u4, Hex(u[20..]), v1 + "-" + v2 + "-" + v3 + "-" + v4, Hex(v[20..]), '-');
    LastCut(u1 + "-" + u2 + "-" + u3, u4, v1 + "-" + v2 + "-" + v3, v4, '-');
    LastCut(u1 + "-" + u2, u3, v1 + "-" + v2, v3, '-');
    LastCut(u1, u2, v1, v2, '-');
    HexInjective(u[..8], v[..8]);
    HexInjective(u[8..12], v[8..12]);
    HexInjective(u[12..16], v[12..16]);
    HexInjective(u[16..20], v[16..20]);
    HexInjective(u[20..], v[20..]);
    assert u == u[..8] + u[8..12] + u[12..16] + u[16..20] + u[20..];
    assert v == v[..8] + v[8..12] + v[12..16] + v[16..20] + v[20..];
  }

  function RequestMessage(timestamp: I64, method_: string, path: string, session: Uuid, nonce: Uuid, bodyHash: string): string {
    "v1|" + IntText(timestamp) + "|" + method_ + "|" + path + "|" + UuidText(session) + "|" + UuidText(nonce) + "|" + bodyHash
  }

  function ResponseMessage(timestamp: I64, status: nat, path: string, session: Uuid,
                           requestNonce: Uuid, responseNonce: Uuid, bodyHash: string): string
  {
    "v1|" + IntText(timestamp) + "|" + NatText(status) + "|" + path + "|" + UuidText(session) + "|" +
    UuidText(requestNonce) + "|" + UuidText(responseNonce) + "|" + bodyHash
  }

  /** Three bar-free fields at the end of a message can be read back from it. */
  lemma TailCut(x: string, a1: string, a2: string, a3: string, y: string, b1: string, b2: string, b3: string)
    requires '|' !in a1 && '|' !in a2 && '|' !in a3 && '|' !in b1 && '|' !in b2 && '|' !in b3
    requires x + "|" + a1 + "|" + a2 + "|" + a3 == y + "|" + b1 + "|" + b2 + "|" + b3
    ensures x == y && a1 == b1 && a2 == b2 && a3 == b3
  {
    LastCut(x + "|" + a1 + "|" + a2, a3, y + "|" + b1 + "|" + b2, b3, '|');
    LastCut(x + "|" + a1, a2, y + "|" + b1, b2, '|');
    LastCut(x, a1, y, b1, '|');
  }

  /** "v1|", a timestamp and a bar can be taken off the front. */
  lemma HeadCut(m: I64, x: string, n: I64, y: string)
    requires "v1|" + IntText(m) + "|" + x == "v1|" + IntText(n) + "|" + y
    ensures m == n && x == y
  {
    hide IntText;
    var a, b := IntText(m) + "|" + x, IntText(n) + "|" + y;
    assert "v1|" + IntText(m) + "|" + x == "v1|" + a && "v1|" + IntText(n) + "|" + y == "v1|" + b;
    assert ("v1|" + a)[3..] == a && ("v1|" + b)[3..] == b;
    IntTextPlain(m, '|');
    IntTextPlain(n, '|');
    FirstCut(IntText(m), x, IntText(n), y, '|');
    IntTextInjective(m, n);
  }

  /**
   Exactly when two requests have the same signing message: all bar-free fields agree and so does the
   text "method|path". The bar-free hash is the base64 alphabet's.
   */
  lemma RequestMessagesEqualExactlyWhen(t1: I64, m1: string, p1: string, s1: Uuid, n1: Uuid, h1: string,
                                        t2: I64, m2: string, p2: string, s2: Uuid, n2: Uuid, h2: string)
    requires '|' !in h1 && '|' !in h2
    ensures RequestMessage(t1, m1, p1, s1, n1, h1) == RequestMessage(t2, m2, p2, s2, n2, h2)
       <==> t1 == t2 && m1 + "|" + p1 == m2 + "|" + p2 && s1 == s2 && n1 == n2 && h1 == h2
  {
    hide UuidText, IntText;
    var x, y := m1 + "|" + p1, m2 + "|" + p2;
    var front1, front2 := "v1|" + IntText(t1) + "|" + x, "v1|" + IntText(t2) + "|" + y;
    assert RequestMessage(t1, m1, p1, s1, n1, h1) == front1 + "|" + UuidText(s1) + "|" + UuidText(n1) + "|" + h1;
    assert RequestMessage(t2, m2, p2, s2, n2, h2) == front2 + "|" + UuidText(s2) + "|" + UuidText(n2) + "|" + h2;
    if RequestMessage(t1, m1, p1, s1, n1, h1) == RequestMessage(t2, m2, p2, s2, n2, h2) {
      TailCut(front1, UuidText(s1), UuidText(n1), h1, front2, UuidText(s2), UuidText(n2), h2);
      HeadCut(t1, x, t2, y);
      UuidTextInjective(s1, s2);
      UuidTextInjective(n1, n2);
    }
  }

  /** With bar-free methods the message determines every field, although the path may contain bars. */
  lemma RequestMessageInjective(t1: I64, m1: string, p1: string, s1: Uuid, n1: Uuid, h1: string,
                                t2: I64, m2: string, p2: string, s2: Uuid, n2: Uuid, h2: string)
    requires '|' !in h1 && '|' !in h2 && '|' !in m1 && '|' !in m2
    requires RequestMessage(t1, m1, p1, s1, n1, h1) == RequestMessage(t2, m2, p2, s2, n2, h2)
    ensures t1 == t2 && m1 == m2 && p1 == p2 && s1 == s2 && n1 == n2 && h1 == h2
  {
    RequestMessagesEqualExactlyWhen(t1, m1, p1, s1, n1, h1, t2, m2, p2, s2, n2, h2);
    FirstCut(m1, p1, m2, p2, '|');
  }

  /** A method with a bar, which HTTP tokens allow, always collides with a shorter method and a longer path. */
  lemma BarInMethodCollides(t: I64, a: string, b: string, path: string, session: Uuid, nonce: Uuid, bodyHash: string)
    requires '|' !in bodyHash
    ensures RequestMessage(t, a + "|" + b, path, session, nonce, bodyHash)
         == RequestMessage(t, a, b + "|" + path, session, nonce, bodyHash)
  {
    assert (a + "|" + b) + "|" + path == a + "|" + (b + "|" + path);
    RequestMessagesEqualExactlyWhen(t, a + "|" + b, path, session, nonce, bodyHash,
                                    t, a, b + "|" + path, session, nonce, bodyHash);
  }

  /** A response message is laid out like a request whose method is the status and whose path ends in the session. */
  lemma ResponseLayout(t: I64, status: nat, path: string, s: Uuid, q: Uuid, r: Uuid, h: string)
    ensures ResponseMessage(t, status, path, s, q, r, h)
         == RequestMessage(t, NatText(status), path + "|" + UuidText(s), q, r, h)
  {
    var front := "v1|" + IntText(t) + "|" + NatText(status) + "|";
    assert front + path + "|" + UuidText(s) == front + (path + "|" + UuidText(s));
  }

  /** The response message determines every field without any hypothesis on the path. */
  lemma ResponseMessageInjective(t1: I64, c1: nat, p1: string, s1: Uuid, q1: Uuid, r1: Uuid, h1: string,
                                 t2: I64, c2: nat, p2: string, s2: Uuid, q2: Uuid, r2: Uuid, h2: string)
    requires '|' !in h1 && '|' !in h2
    requires ResponseMessage(t1, c1, p1, s1, q1, r1, h1) == ResponseMessage(t2, c2, p2, s2, q2, r2, h2)
    ensures t1 == t2 && c1 == c2 && p1 == p2 && s1 == s2 && q1 == q2 && r1 == r2 && h1 == h2
  {
    ResponseLayout(t1, c1, p1, s1, q1, r1, h1);
    ResponseLayout(t2, c2, p2, s2, q2, r2, h2);
    IntTextPlain(c1, '|');
    IntTextPlain(c2, '|');
    RequestMessageInjective(t1, NatText(c1), p1 + "|" + UuidText(s1), q1, r1, h1,
                            t2, NatText(c2), p2 + "|" + UuidText(s2), q2, r2, h2);
    LastCut(p1, UuidText(s1), p2, UuidText(s2), '|');
    UuidTextInjective(s1, s2);
    IntTextInjective(c1, c2);
  }

  // ---------------------------------------------------------------- the layout

  lemma SplitField(field: string, rest: string)
    requires '|' !in field
    ensures Split(field + "|" + rest, '|') == [field] + Split(rest, '|')
  {
    SplitAt(field, rest, '|');
    SplitPlain(field, '|');
    assert field + ['|'] + rest == field + "|" + rest;
  }

  lemma SplitTail(path: string, a: string, b: string, c: string)
    requires '|' !in a && '|' !in b && '|' !in c
    ensures Split(path + "|" + a + "|" + b + "|" + c, '|') == Split(path, '|') + [a, b, c]
  {
    var rest := a + "|" + (b + "|" + c);
    assert path + "|" + a + "|" + b + "|" + c == path + ['|'] + rest;
    SplitAt(path, rest, '|');
    SplitField(a, b + "|" + c);
    SplitField(b, c);
    SplitPlain(c, '|');
  }

  lemma RequestLayout(t: I64, method_: string, path: string, s: Uuid, n: Uuid, h: string)
    ensures RequestMessage(t, method_, path, s, n, h)
         == "v1" + "|" + (IntText(t) + "|" + (method_ + "|" + (path + "|" + UuidText(s) + "|" + UuidText(n) + "|" + h)))
  {
    hide IntText, UuidText;
  }

  /** Read at its bars, a request message has the version, the timestamp, the method, the path's parts, and three more fields. */
  lemma RequestFields(t: I64, method_: string, path: string, s: Uuid, n: Uuid, h: string)
    requires '|' !in method_ && '|' !in h
    ensures Split(RequestMessage(t, method_, path, s, n, h), '|')
         == ["v1", IntText(t), method_] + Split(path, '|') + [UuidText(s), UuidText(n), h]
  {
    IntTextPlain(t, '|');
    var tail := path + "|" + UuidText(s) + "|" + UuidText(n) + "|" + h;
    RequestLayout(t, method_, path, s, n, h);
    hide IntText, UuidText, Split, RequestMessage;
    SplitField("v1", IntText(t) + "|" + (method_ + "|" + tail));
    SplitField(IntText(t), method_ + "|" + tail);
    SplitField(method_, tail);
    SplitTail(path, UuidText(s), UuidText(n), h);
    FourParts("v1", IntText(t), method_, Split(path, '|') + [UuidText(s), UuidText(n), h]);
    FrontAndBack(["v1", IntText(t), method_], Split(path, '|'), [UuidText(s), UuidText(n), h]);
  }

  lemma FourParts(a: string, b: string, c: string, rest: seq<string>)
    ensures [a] + ([b] + ([c] + rest)) == [a, b, c] + rest
  {
  }

  lemma FrontAndBack(a: seq<string>, b: seq<string>, c: seq<string>)
    ensures a + (b + c) == a + b + c
  {
  }

  /** And a response message the version, the timestamp, the status, the path's parts, and four more fields. */
  lemma ResponseFields(t: I64, status: nat, path: string, s: Uuid, q: Uuid, r: Uuid, h: string)
    requires '|' !in h
    ensures Split(ResponseMessage(t, status, path, s, q, r, h), '|')
         == ["v1", IntText(t), NatText(status)] + Split(path, '|') + [UuidText(s), UuidText(q), UuidText(r), h]
  {
    ResponseLayout(t, status, path, s, q, r, h);
    IntTextPlain(status, '|');
    RequestFields(t, NatText(status), path + "|" + UuidText(s), q, r, h);
    hide IntText, UuidText, Split, RequestMessage, ResponseMessage;
    assert path + "|" + UuidText(s) == path + ['|'] + UuidText(s);
    SplitAt(path, UuidText(s), '|');
    SplitPlain(UuidText(s), '|');
  }
}
