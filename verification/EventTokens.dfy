/**
 * The waiter tokens of named events: the event's name and match criteria as base64 segments (section 4
 * of RFC 4648) between colons, followed by the run and position. Text is taken as its UTF-8 bytes.
 * Models packages/adonis/src/events.ts.
 */
module EventTokens {
  import opened Common

  type Byte = b: nat | b < 256 witness 0
  type Sextet = v: nat | v < 64 witness 0

  // ------------------------------------------------------------------------- base64

  function CharOf(v: Sextet): char {
    if v < 26 then 'A' + v as char
    else if v < 52 then 'a' + (v - 26) as char
    else if v < 62 then '0' + (v - 52) as char
    else if v == 62 then '+'
    else '/'
  }

  /** The value of a character; the decoder also reads the URL-safe alphabet. */
  function ValueOf(c: char): Option<Sextet> {
    if 'A' <= c <= 'Z' then Some((c - 'A') as nat)
    else if 'a' <= c <= 'z' then Some((c - 'a') as nat + 26)
    else if '0' <= c <= '9' then Some((c - '0') as nat + 52)
    else if c == '+' || c == '-' then Some(62)
    else if c == '/' || c == '_' then Some(63)
    else None
  }

  lemma CharValue(v: Sextet)
    ensures ValueOf(CharOf(v)) == Some(v) && CharOf(v) != '=' && CharOf(v) != ':'
  {
  }

  // The four six-bit parts of three bytes, and the bytes of such parts.

  function First(a: Byte): Sextet {
    a / 4
  }

  function Second(a: Byte, b: Byte): Sextet {
    (a % 4) * 16 + b / 16
  }

  function Third(b: Byte, c: Byte): Sextet {
    (b % 16) * 4 + c / 64
  }

  function Fourth(c: Byte): Sextet {
    c % 64
  }

  function Byte0(v: Sextet, w: Sextet): Byte {
    v * 4 + w / 16
  }

  function Byte1(w: Sextet, x: Sextet): Byte {
    (w % 16) * 16 + x / 4
  }

  function Byte2(x: Sextet, y: Sextet): Byte {
    (x % 4) * 64 + y
  }

  lemma PartsJoin(a: Byte, b: Byte, c: Byte)
    ensures Byte0(First(a), Second(a, b)) == a
    ensures Byte1(Second(a, b), Third(b, c)) == b
    ensures Byte2(Third(b, c), Fourth(c)) == c
  {
  }

  /** The bytes in groups of three, the last group padded to four characters. */
  function Encode(bytes: seq<Byte>): string {
    if |bytes| == 0 then ""
    else if |bytes| == 1 then [CharOf(First(bytes[0])), CharOf(Second(bytes[0], 0)), '=', '=']
    else if |bytes| == 2 then
      [CharOf(First(bytes[0])), CharOf(Second(bytes[0], bytes[1])), CharOf(Third(bytes[1], 0)), '=']
    else
      [CharOf(First(bytes[0])), CharOf(Second(bytes[0], bytes[1])),
       CharOf(Third(bytes[1], bytes[2])), CharOf(Fourth(bytes[2]))] + Encode(bytes[3..])
  }

  /** The values of the characters before any padding; others are skipped. */
  function Sextets(text: string): seq<Sextet> {
    if text == "" || text[0] == '=' then []
    else if ValueOf(text[0]).Some? then [ValueOf(text[0]).value] + Sextets(text[1..])
    else Sextets(text[1..])
  }

  /** Four parts make three bytes; a shorter last group makes the whole bytes it covers. */
  function Pack(v: seq<Sextet>): seq<Byte> {
    if |v| < 2 then []
    else if |v| == 2 then [Byte0(v[0], v[1])]
    else if |v| == 3 then [Byte0(v[0], v[1]), Byte1(v[1], v[2])]
    else [Byte0(v[0], v[1]), Byte1(v[1], v[2]), Byte2(v[2], v[3])] + Pack(v[4..])
  }

  function Decode(text: string): seq<Byte> {
    Pack(Sextets(text))
  }

  lemma SextetsStep(v: Sextet, rest: string)
    ensures Sextets([CharOf(v)] + rest) == [v] + Sextets(rest)
  {
    CharValue(v);
    assert ([CharOf(v)] + rest)[1..] == rest;
  }

  lemma SextetsOfTwo(a: Sextet, b: Sextet, rest: string)
    ensures Sextets([CharOf(a), CharOf(b)] + rest) == [a, b] + Sextets(rest)
  {
    hide Sextets;
    SextetsStep(b, rest);
    SextetsStep(a, [CharOf(b)] + rest);
    assert [CharOf(a), CharOf(b)] + rest == [CharOf(a)] + ([CharOf(b)] + rest);
    assert [a, b] + Sextets(rest) == [a] + ([b] + Sextets(rest));
  }

  lemma SextetsOfFour(a: Sextet, b: Sextet, c: Sextet, d: Sextet, rest: string)
    ensures Sextets([CharOf(a), CharOf(b), CharOf(c), CharOf(d)] + rest) == [a, b, c, d] + Sextets(rest)
  {
    hide *;
    var tail := [CharOf(c), CharOf(d)] + rest;
    SextetsOfTwo(c, d, rest);
    SextetsOfTwo(a, b, tail);
    assert [CharOf(a), CharOf(b), CharOf(c), CharOf(d)] + rest == [CharOf(a), CharOf(b)] + tail;
    var parts := Sextets(rest);
    assert [a, b] + ([c, d] + parts) == [a, b, c, d] + parts;
  }

  lemma PackShort(v: seq<Sextet>)
    ensures |v| == 0 ==> Pack(v) == []
    ensures |v| == 2 ==> Pack(v) == [Byte0(v[0], v[1])]
    ensures |v| == 3 ==> Pack(v) == [Byte0(v[0], v[1]), Byte1(v[1], v[2])]
  {
  }

  lemma EncodeOne(x: Byte)
    ensures Encode([x]) == [CharOf(First(x)), CharOf(Second(x, 0))] + "=="
  {
  }

  lemma EncodeTwo(x: Byte, y: Byte)
    ensures Encode([x, y]) == [CharOf(First(x)), CharOf(Second(x, y))] + ([CharOf(Third(y, 0))] + "=")
  {
  }

  lemma OneByte(x: Byte)
    ensures Pack(Sextets(Encode([x]))) == [x]
  {
    hide *;
    EncodeOne(x);
    SextetsOfTwo(First(x), Second(x, 0), "==");
    EndsSextets("==");
    PackShort([First(x), Second(x, 0)] + []);
    PartsJoin(x, 0, 0);
  }

  lemma TwoBytes(x: Byte, y: Byte)
    ensures Pack(Sextets(Encode([x, y]))) == [x, y]
  {
    hide *;
    EncodeTwo(x, y);
    SextetsOfTwo(First(x), Second(x, y), [CharOf(Third(y, 0))] + "=");
    SextetsStep(Third(y, 0), "=");
    EndsSextets("=");
    PackShort([First(x), Second(x, y)] + ([Third(y, 0)] + []));
    PartsJoin(x, y, 0);
  }

  lemma NoBytes()
    ensures Pack(Sextets(Encode([]))) == []
  {
  }

  lemma ShortRoundTrip(bytes: seq<Byte>)
    requires |bytes| < 3
    ensures Decode(Encode(bytes)) == bytes
  {
    hide Pack, Sextets, Encode;
    if |bytes| == 0 {
      NoBytes();
      assert bytes == [];
    } else if |bytes| == 1 {
      OneByte(bytes[0]);
      assert bytes == [bytes[0]];
    } else {
      TwoBytes(bytes[0], bytes[1]);
      assert bytes == [bytes[0], bytes[1]];
    }
  }

  lemma GroupSextets(bytes: seq<Byte>)
    requires |bytes| >= 3
    ensures Sextets(Encode(bytes))
            == [First(bytes[0]), Second(bytes[0], bytes[1]), Third(bytes[1], bytes[2]), Fourth(bytes[2])]
               + Sextets(Encode(bytes[3..]))
  {
    hide Sextets, CharOf, First, Second, Third, Fourth;
    SextetsOfFour(First(bytes[0]), Second(bytes[0], bytes[1]), Third(bytes[1], bytes[2]), Fourth(bytes[2]),
                  Encode(bytes[3..]));
  }

  /** Decoding recovers every byte sequence, whatever its length. */
  lemma {:induction false} RoundTrip(bytes: seq<Byte>)
    ensures Decode(Encode(bytes)) == bytes
    decreases |bytes|
  {
    if |bytes| < 3 {
      ShortRoundTrip(bytes);
    } else {
      RoundTrip(bytes[3..]);
      GroupSextets(bytes);
      PartsJoin(bytes[0], bytes[1], bytes[2]);
      hide Sextets, First, Second, Third, Fourth, Byte0, Byte1, Byte2, Encode;
      var v, rest := Sextets(Encode(bytes)), Sextets(Encode(bytes[3..]));
      assert |v| == 4 + |rest| && v[4..] == rest;
      assert Pack(v) == [bytes[0], bytes[1], bytes[2]] + Pack(rest);
    }
  }

  lemma EndsSextets(text: string)
    requires text == "" || text[0] == '='
    ensures Sextets(text) == []
  {
  }

  lemma {:induction false} NoColon(bytes: seq<Byte>)
    ensures ':' !in Encode(bytes)
    decreases |bytes|
  {
    forall v: Sextet { CharValue(v); }
    if |bytes| >= 3 {
      NoColon(bytes[3..]);
    }
    hide CharOf;
  }

  // ------------------------------------------------------------------------- tokens

  const EVENT := "event:"

  function EventPrefix(name: seq<Byte>): string {
    EVENT + Encode(name) + ":"
  }

  /** The waiter token of one `waitForEvent`; the criteria are their JSON text. */
  function EventToken(name: seq<Byte>, criteria: seq<Byte>, runId: string, position: nat): string {
    EventPrefix(name) + Encode(criteria) + ":" + runId + "#" + Digits(position)
  }

  /** The `k`-th colon-separated segment, empty beyond the last. */
  function Segment(text: string, k: nat): string
    decreases |text|
  {
    if text == "" then ""
    else if text[0] == ':' then (if k == 0 then "" else Segment(text[1..], k - 1))
    else if k == 0 then [text[0]] + Segment(text[1..], 0)
    else Segment(text[1..], k)
  }

  function EventNameOf(token: string): seq<Byte> {
    Decode(Segment(token, 1))
  }

  function EventMatchOf(token: string): seq<Byte> {
    Decode(Segment(token, 2))
  }

  lemma {:induction false} SegmentSkips(part: string, rest: string, k: nat)
    requires ':' !in part
    ensures Segment(part + ":" + rest, 0) == part
    ensures Segment(part + ":" + rest, k + 1) == Segment(rest, k)
    decreases |part|
  {
    var whole := part + ":" + rest;
    if part == "" {
      assert whole[1..] == rest;
    } else {
      assert whole[1..] == part[1..] + ":" + rest;
      assert part[0] in part;
      SegmentSkips(part[1..], rest, k);
    }
  }

  /** A token gives back the name and criteria it was made of, colons in the run id and all. */
  lemma TokenRecovers(name: seq<Byte>, criteria: seq<Byte>, runId: string, position: nat)
    ensures EventNameOf(EventToken(name, criteria, runId, position)) == name
    ensures EventMatchOf(EventToken(name, criteria, runId, position)) == criteria
  {
    hide Encode, Decode, Segment, Digits;
    var tail := runId + "#" + Digits(position);
    var token := EventToken(name, criteria, runId, position);
    NoColon(name);
    NoColon(criteria);
    RoundTrip(name);
    RoundTrip(criteria);
    var afterName := Encode(criteria) + ":" + tail;
    var afterEvent := Encode(name) + ":" + afterName;
    assert token == "event" + ":" + afterEvent;
    SegmentSkips("event", afterEvent, 0);
    SegmentSkips("event", afterEvent, 1);
    SegmentSkips(Encode(name), afterName, 0);
    SegmentSkips(Encode(criteria), tail, 0);
  }

  /** No two calls share a token: it tells apart the event, the criteria, the run and the position. */
  lemma TokensDistinct(n1: seq<Byte>, c1: seq<Byte>, r1: string, p1: nat, n2: seq<Byte>, c2: seq<Byte>, r2: string,
                       p2: nat)
    requires EventToken(n1, c1, r1, p1) == EventToken(n2, c2, r2, p2)
    ensures n1 == n2 && c1 == c2 && r1 == r2 && p1 == p2
  {
    TokenRecovers(n1, c1, r1, p1);
    TokenRecovers(n2, c2, r2, p2);
    var token, head := EventToken(n1, c1, r1, p1), EventPrefix(n1) + Encode(c1) + ":";
    hide Encode, EventNameOf, EventMatchOf, Digits;
    assert token == head + (r1 + "#" + Digits(p1)) == head + (r2 + "#" + Digits(p2));
    assert r1 + "#" + Digits(p1) == token[|head|..] == r2 + "#" + Digits(p2);
    DigitsAreDigits(p1);
    DigitsAreDigits(p2);
    LastHash(r1, Digits(p1), r2, Digits(p2));
    DigitsInjective(p1, p2);
  }

  lemma DigitsAreDigits(n: nat)
    ensures '#' !in Digits(n)
  {
  }

  lemma LastHash(a: string, d: string, b: string, e: string)
    requires a + "#" + d == b + "#" + e && '#' !in d && '#' !in e
    ensures a == b && d == e
  {
    var whole := a + "#" + d;
    assert whole[|a|] == '#' && whole[|b|] == '#';
    assert forall i | |a| < i < |whole| :: whole[i] == d[i - |a| - 1];
    assert forall i | |b| < i < |whole| :: whole[i] == e[i - |b| - 1];
    assert |a| == |b|;
    assert whole[..|a|] == a && whole[..|b|] == b;
    assert whole[|a| + 1..] == d && whole[|b| + 1..] == e;
  }

  /** A token starts with the prefix of an event exactly when it was made for that event. */
  lemma PrefixIffName(name: seq<Byte>, criteria: seq<Byte>, runId: string, position: nat, other: seq<Byte>)
    ensures EventPrefix(other) <= EventToken(name, criteria, runId, position) <==> other == name
  {
    hide Encode, Digits;
    var token := EventToken(name, criteria, runId, position);
    var rest := Encode(criteria) + ":" + runId + "#" + Digits(position);
    assert token == EventPrefix(name) + rest;
    if EventPrefix(other) <= token {
      var a, b := Encode(name), Encode(other);
      NoColon(name);
      NoColon(other);
      assert token[|EVENT| + |a|] == ':' && token[|EVENT| + |b|] == ':' by {
        assert EventPrefix(other)[|EVENT| + |b|] == ':';
        assert EventPrefix(name)[|EVENT| + |a|] == ':';
      }
      SameSegment(a, b, token);
      RoundTrip(name);
      RoundTrip(other);
    }
  }

  lemma SameSegment(a: string, b: string, token: string)
    requires ':' !in a && ':' !in b
    requires EVENT + a + ":" <= token && EVENT + b + ":" <= token
    ensures a == b
  {
    var n := |EVENT|;
    forall i | 0 <= i < |a| ensures token[n + i] == a[i] && token[n + i] != ':' {
      assert (EVENT + a + ":")[n + i] == a[i];
      assert a[i] in a;
    }
    forall i | 0 <= i < |b| ensures token[n + i] == b[i] && token[n + i] != ':' {
      assert (EVENT + b + ":")[n + i] == b[i];
      assert b[i] in b;
    }
    assert token[n + |a|] == ':' && token[n + |b|] == ':' by {
      assert (EVENT + a + ":")[n + |a|] == ':';
      assert (EVENT + b + ":")[n + |b|] == ':';
    }
  }
}
