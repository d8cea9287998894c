/** Identity tokens of backend/app/core/security.py: the base64url text of section 5 of RFC 4648
    without padding, and the time window in which an issued token is accepted. The signature and
    the JSON text are functions. */
module IdentityToken {
  import opened Dotted
  import opened Outcomes

  type byte = x: int | 0 <= x < 256

  type sextet = x: int | 0 <= x < 64

  // ---------------------------------------------------------------- the alphabet

  function Letter(n: sextet): char {
    if n < 26 then ('A' as int + n) as char
    else if n < 52 then ('a' as int + n - 26) as char
    else if n < 62 then ('0' as int + n - 52) as char
    else if n == 62 then '-'
    else '_'
  }

  /** Reading also takes the two letters of the standard alphabet. */
  function Value(c: char): Option<sextet> {
    if 'A' <= c <= 'Z' then Some(c as int - 'A' as int)
    else if 'a' <= c <= 'z' then Some(c as int - 'a' as int + 26)
    else if '0' <= c <= '9' then Some(c as int - '0' as int + 52)
    else if c == '-' || c == '+' then Some(62)
    else if c == '_' || c == '/' then Some(63)
    else None
  }

  lemma LetterReads(n: sextet)
    ensures Value(Letter(n)) == Some(n) && Letter(n) != '.'
  {
  }

  // ---------------------------------------------------------------- three bytes, four letters

  function Encode(b: seq<byte>): string
    decreases |b|
  {
    if b == [] then ""
    else if |b| == 1 then [Letter(b[0] / 4), Letter(b[0] % 4 * 16)]
    else if |b| == 2 then [Letter(b[0] / 4), Letter(b[0] % 4 * 16 + b[1] / 16), Letter(b[1] % 16 * 4)]
    else
      [Letter(b[0] / 4), Letter(b[0] % 4 * 16 + b[1] / 16), Letter(b[1] % 16 * 4 + b[2] / 64), Letter(b[2] % 64)]
      + Encode(b[3..])
  }

  function Sextets(s: string): Option<seq<sextet>>
    decreases |s|
  {
    if s == "" then Some([])
    else
      var first := Value(s[0]);
      var rest := Sextets(s[1..]);
      if first.Some? && rest.Some? then Some([first.value] + rest.value) else None
  }

  function First(v: sextet, w: sextet): byte { v as int * 4 + w as int / 16 }

  function Second(v: sextet, w: sextet): byte { w as int / 4 + v as int % 16 * 16 }

  function Third(v: sextet, w: sextet): byte { v as int % 4 * 64 + w as int }

  /** Whole groups of four give three bytes; a last group of two or three gives one or two. A last
      single letter cannot be padded to a group. */
  function Bytes(v: seq<sextet>): Option<seq<byte>>
    decreases |v|
  {
    if v == [] then Some([])
    else if |v| == 1 then None
    else if |v| == 2 then Some([First(v[0], v[1])])
    else if |v| == 3 then Some([First(v[0], v[1]), Second(v[1], v[2])])
    else
      var rest := Bytes(v[4..]);
      if rest.None? then None
      else Some([First(v[0], v[1]), Second(v[1], v[2]), Third(v[2], v[3])] + rest.value)
  }

  function Decode(s: string): Result<seq<byte>> {
    var v := Sextets(s);
    if v.None? then Failure(Conflict)
    else
      var b := Bytes(v.value);
      if b.None? then Failure(Conflict) else Success(b.value)
  }

  function Packed(b: seq<byte>): seq<sextet>
    decreases |b|
  {
    if b == [] then []
    else if |b| == 1 then [b[0] / 4, b[0] % 4 * 16]
    else if |b| == 2 then [b[0] / 4, b[0] % 4 * 16 + b[1] / 16, b[1] % 16 * 4]
    else [b[0] / 4, b[0] % 4 * 16 + b[1] / 16, b[1] % 16 * 4 + b[2] / 64, b[2] % 64] + Packed(b[3..])
  }

  function Text(v: seq<sextet>): string {
    if v == [] then "" else [Letter(v[0])] + Text(v[1..])
  }

  lemma {:induction false} TextReads(v: seq<sextet>)
    ensures Sextets(Text(v)) == Some(v)
  {
    if v != [] {
      LetterReads(v[0]);
      TextReads(v[1..]);
      hide Letter, Value;
      assert Text(v)[1..] == Text(v[1..]) && [v[0]] + v[1..] == v;
    }
  }

  lemma TextOfOneMore(x: sextet, rest: seq<sextet>)
    ensures Text([x] + rest) == [Letter(x)] + Text(rest)
  {
    hide Letter;
    assert ([x] + rest)[1..] == rest;
  }

  lemma TextOfFour(x: sextet, y: sextet, z: sextet, w: sextet, rest: seq<sextet>)
    ensures Text([x, y, z, w] + rest) == [Letter(x), Letter(y), Letter(z), Letter(w)] + Text(rest)
  {
    hide Letter, Text;
    TextOfOneMore(x, [y] + ([z] + ([w] + rest)));
    TextOfOneMore(y, [z] + ([w] + rest));
    TextOfOneMore(z, [w] + rest);
    TextOfOneMore(w, rest);
    assert [x, y, z, w] + rest == [x] + ([y] + ([z] + ([w] + rest)));
  }

  lemma TextOfFew(x: sextet, y: sextet, z: sextet)
    ensures Text([x, y]) == [Letter(x), Letter(y)]
    ensures Text([x, y, z]) == [Letter(x), Letter(y), Letter(z)]
  {
    hide Letter;
    TextOfOneMore(x, [y]);
    TextOfOneMore(x, [y, z]);
    TextOfOneMore(y, [z]);
    assert [x, y] == [x] + [y] && [x, y, z] == [x] + [y, z] && [y, z] == [y] + [z];
  }

  lemma {:induction false} EncodeIsText(b: seq<byte>)
    ensures Encode(b) == Text(Packed(b))
    decreases |b|
  {
    hide Letter, Text;
    if |b| == 1 {
      TextOfFew(b[0] / 4, b[0] % 4 * 16, 0);
    } else if |b| == 2 {
      TextOfFew(b[0] / 4, b[0] % 4 * 16 + b[1] / 16, b[1] % 16 * 4);
    } else if |b| >= 3 {
      EncodeIsText(b[3..]);
      TextOfFour(b[0] / 4, b[0] % 4 * 16 + b[1] / 16, b[1] % 16 * 4 + b[2] / 64, b[2] % 64, Packed(b[3..]));
    } else {
      NoText();
    }
  }

  lemma NoText()
    ensures Text([]) == ""
  {
  }

  lemma EncodedSextets(b: seq<byte>)
    ensures Sextets(Encode(b)) == Some(Packed(b))
  {
    EncodeIsText(b);
    TextReads(Packed(b));
  }

  lemma {:induction false} PackedBytes(b: seq<byte>)
    ensures Bytes(Packed(b)) == Some(b)
    decreases |b|
  {
    var v := Packed(b);
    if |b| >= 3 {
      PackedBytes(b[3..]);
      assert v[4..] == Packed(b[3..]);
      ThreeBytes(b[0], b[1], b[2]);
      assert [b[0], b[1], b[2]] + b[3..] == b;
    } else if |b| == 2 {
      ThreeBytes(b[0], b[1], 0);
      assert [b[0], b[1]] == b;
    } else if |b| == 1 {
      ThreeBytes(b[0], 0, 0);
      assert [b[0]] == b;
    }
  }

  lemma ThreeBytes(a: byte, b: byte, c: byte)
    ensures First(a / 4, a % 4 * 16 + b / 16) == a
    ensures Second(a % 4 * 16 + b / 16, b % 16 * 4 + c / 64) == b
    ensures Third(b % 16 * 4 + c / 64, c % 64) == c
  {
  }

  /** Decoding undoes encoding, for every byte string. */
  lemma DecodeUndoesEncode(b: seq<byte>)
    ensures Decode(Encode(b)) == Success(b)
  {
    EncodedSextets(b);
    PackedBytes(b);
  }

  lemma {:induction false} EncodingHasNoDot(b: seq<byte>)
    ensures '.' !in Encode(b)
    decreases |b|
  {
    if |b| >= 3 {
      EncodingHasNoDot(b[3..]);
    }
  }

  // ---------------------------------------------------------------- the table of RFC 4648

  const TABLE := "ABCDEFGHIJKLMNOPQRSTUVWXYZ" + "abcdefghijklmnopqrstuvwxyz" + "0123456789-_"

  /** The bits of a byte string, from the highest of its first byte on, with zeros after the last. */
  function Bit(b: seq<byte>, i: nat): (bit: int)
    ensures 0 <= bit <= 1
  {
    if i / 8 < |b| then b[i / 8] / Weight(i % 8) % 2 else 0
  }

  function Weight(place: nat): nat
    requires place < 8
    ensures Weight(place) > 0
  {
    [128, 64, 32, 16, 8, 4, 2, 1][place]
  }

  /** The `k`-th group of six bits. */
  function Group(b: seq<byte>, k: nat): (n: sextet) {
    32 * Bit(b, 6 * k) + 16 * Bit(b, 6 * k + 1) + 8 * Bit(b, 6 * k + 2)
    + 4 * Bit(b, 6 * k + 3) + 2 * Bit(b, 6 * k + 4) + Bit(b, 6 * k + 5)
  }

  lemma BitsLater(b: seq<byte>, i: nat)
    requires |b| >= 3
    ensures Bit(b, i + 24) == Bit(b[3..], i)
  {
    assert (i + 24) / 8 == i / 8 + 3 && (i + 24) % 8 == i % 8;
  }

  lemma GroupsLater(b: seq<byte>, k: nat)
    requires |b| >= 3
    ensures Group(b, k + 4) == Group(b[3..], k)
  {
    hide Bit;
    var i := 6 * k;
    assert 6 * (k + 4) == i + 24;
    BitsLater(b, i);
    BitsLater(b, i + 1);
    BitsLater(b, i + 2);
    BitsLater(b, i + 3);
    BitsLater(b, i + 4);
    BitsLater(b, i + 5);
  }

  /** A byte, or zero after the last. */
  function At(b: seq<byte>, i: nat): byte {
    if i < |b| then b[i] else 0
  }

  lemma BitsOfByte(b: seq<byte>, i: nat)
    ensures var x := At(b, i);
            && Bit(b, 8 * i) == x / 128 && Bit(b, 8 * i + 1) == x / 64 % 2 && Bit(b, 8 * i + 2) == x / 32 % 2
            && Bit(b, 8 * i + 3) == x / 16 % 2 && Bit(b, 8 * i + 4) == x / 8 % 2 && Bit(b, 8 * i + 5) == x / 4 % 2
            && Bit(b, 8 * i + 6) == x / 2 % 2 && Bit(b, 8 * i + 7) == x % 2
  {
    hide Bit, At;
    BitOfByte(b, i, 0);
    BitOfByte(b, i, 1);
    BitOfByte(b, i, 2);
    BitOfByte(b, i, 3);
    BitOfByte(b, i, 4);
    BitOfByte(b, i, 5);
    BitOfByte(b, i, 6);
    BitOfByte(b, i, 7);
  }

  lemma BitOfByte(b: seq<byte>, i: nat, place: nat)
    requires place < 8
    ensures Bit(b, 8 * i + place) == At(b, i) / Weight(place) % 2
  {
    assert (8 * i + place) / 8 == i && (8 * i + place) % 8 == place;
  }

  lemma BitsAddUp(x: byte)
    ensures x / 4 == 32 * (x / 128) + 16 * (x / 64 % 2) + 8 * (x / 32 % 2) + 4 * (x / 16 % 2)
                     + 2 * (x / 8 % 2) + x / 4 % 2
    ensures x / 16 == 8 * (x / 128) + 4 * (x / 64 % 2) + 2 * (x / 32 % 2) + x / 16 % 2
    ensures x / 64 == 2 * (x / 128) + x / 64 % 2
    ensures x % 4 == 2 * (x / 2 % 2) + x % 2
    ensures x % 16 == 8 * (x / 8 % 2) + 4 * (x / 4 % 2) + 2 * (x / 2 % 2) + x % 2
    ensures x % 64 == 32 * (x / 32 % 2) + 16 * (x / 16 % 2) + 8 * (x / 8 % 2)
                      + 4 * (x / 4 % 2) + 2 * (x / 2 % 2) + x % 2
  {
    assert x / 2 / 2 == x / 4 && x / 4 / 2 == x / 8 && x / 8 / 2 == x / 16;
    assert x / 16 / 2 == x / 32 && x / 32 / 2 == x / 64 && x / 64 / 2 == x / 128;
  }

  lemma FirstGroups(b: seq<byte>)
    ensures Group(b, 0) == At(b, 0) / 4 && Group(b, 1) == At(b, 0) % 4 * 16 + At(b, 1) / 16
    ensures Group(b, 2) == At(b, 1) % 16 * 4 + At(b, 2) / 64 && Group(b, 3) == At(b, 2) % 64
  {
    hide Bit, At, Group;
    FirstTwo(b);
    LastTwo(b);
  }

  lemma FirstTwo(b: seq<byte>)
    ensures Group(b, 0) == At(b, 0) / 4 && Group(b, 1) == At(b, 0) % 4 * 16 + At(b, 1) / 16
  {
    hide Bit, At;
    BitsOfByte(b, 0);
    BitsOfByte(b, 1);
    BitsAddUp(At(b, 0));
    BitsAddUp(At(b, 1));
  }

  lemma LastTwo(b: seq<byte>)
    ensures Group(b, 2) == At(b, 1) % 16 * 4 + At(b, 2) / 64 && Group(b, 3) == At(b, 2) % 64
  {
    hide Bit, At;
    BitsOfByte(b, 1);
    BitsOfByte(b, 2);
    BitsAddUp(At(b, 1));
    BitsAddUp(At(b, 2));
  }

  lemma {:induction false} PackedAreGroups(b: seq<byte>)
    ensures |Packed(b)| == (8 * |b| + 5) / 6
    ensures forall k :: 0 <= k < |Packed(b)| ==> Packed(b)[k] == Group(b, k)
    decreases |b|
  {
    hide Group;
    if b != [] {
      FirstGroups(b);
    }
    if |b| >= 3 {
      PackedAreGroups(b[3..]);
      forall k | 4 <= k < |Packed(b)| ensures Packed(b)[k] == Group(b, k) {
        GroupsLater(b, k - 4);
      }
    }
  }

  lemma {:induction false} TextAt(v: seq<sextet>)
    ensures |Text(v)| == |v| && forall k :: 0 <= k < |v| ==> Text(v)[k] == Letter(v[k])
  {
    hide Letter;
    if v != [] {
      TextAt(v[1..]);
    }
  }

  lemma LetterIsInTable(n: sextet)
    ensures |TABLE| == 64 && Letter(n) == TABLE[n]
  {
  }

  /** Table 2 of section 5 of RFC 4648: each letter of an encoding is the one that the table holds at
      its group of six bits, the last group filled up with zeros, and nothing is padded. */
  lemma EncodingIsByTheTable(b: seq<byte>)
    ensures |TABLE| == 64
    ensures |Encode(b)| == (8 * |b| + 5) / 6
    ensures forall k :: 0 <= k < |Encode(b)| ==> Encode(b)[k] == TABLE[Group(b, k)]
  {
    hide Letter;
    LetterIsInTable(0);
    EncodeIsText(b);
    PackedAreGroups(b);
    TextAt(Packed(b));
    forall k | 0 <= k < |Encode(b)| ensures Encode(b)[k] == TABLE[Group(b, k)] {
      LetterIsInTable(Group(b, k));
    }
  }

  /** Only letters, digits and the two safe signs are written; neither sign of the standard alphabet
      is, nor padding. */
  lemma EncodingIsUrlSafe(b: seq<byte>)
    ensures forall c :: c in Encode(b) ==>
              'A' <= c <= 'Z' || 'a' <= c <= 'z' || '0' <= c <= '9' || c == '-' || c == '_'
    ensures '+' !in Encode(b) && '/' !in Encode(b) && '=' !in Encode(b)
  {
    EncodeIsText(b);
    TextAt(Packed(b));
  }

  // ---------------------------------------------------------------- tokens

  datatype Claims = Claims(subject: string, issuedAt: int, expiresAt: int, kind: string, version: int)

  /** What the token code takes from its libraries. */
  datatype Library = Library(
    show: Claims -> seq<byte>,
    parse: seq<byte> -> Option<Claims>,
    sign: (string, string) -> seq<byte>)

  const KIND := "user"
  const MAX_SUBJECT := 64
  const MIN_SECRET := 32
  const CLOCK_SKEW := 60

  /** Whole seconds since the epoch, which the modelled instants follow. */
  function Seconds(ms: nat): nat { ms / 1000 }

  function Create(lib: Library, subject: string, secret: string, lifetimeMs: int, nowMs: nat): Result<string> {
    if subject == "" || |subject| > MAX_SUBJECT || |secret| < MIN_SECRET || lifetimeMs <= 0 then Failure(Conflict)
    else
      var claims := Claims(subject, Seconds(nowMs), Seconds(nowMs + lifetimeMs), KIND, 1);
      var payload := Encode(lib.show(claims));
      Success(payload + "." + Encode(lib.sign(secret, payload)))
  }

  function Accept(lib: Library, token: string, secret: string, nowMs: nat): Result<Claims> {
    var parts := Split(token);
    if |secret| < MIN_SECRET || |parts| != 2 then Failure(Conflict)
    else if Decode(parts[1]) != Success(lib.sign(secret, parts[0])) then Failure(Conflict)
    else
      var payload := Decode(parts[0]);
      if payload.Failure? || lib.parse(payload.value).None? then Failure(Conflict)
      else
        var claims := lib.parse(payload.value).value;
        if claims.subject == "" || |claims.subject| > MAX_SUBJECT || claims.kind != KIND || claims.version != 1
           || claims.issuedAt > Seconds(nowMs) + CLOCK_SKEW
           || claims.expiresAt <= Seconds(nowMs)
           || claims.expiresAt <= claims.issuedAt
        then Failure(Conflict)
        else Success(claims)
  }

  /** A token issued for its subject is accepted, as that subject's, in exactly the seconds from a
      minute before it was issued up to but excluding its expiry, if its lifetime reaches the next
      whole second; otherwise it is never accepted. */
  lemma TokenWindow(lib: Library, subject: string, secret: string, lifetimeMs: int, issued: nat, at: nat)
    requires forall c :: lib.parse(lib.show(c)) == Some(c)
    requires Create(lib, subject, secret, lifetimeMs, issued).Success?
    ensures var token := Create(lib, subject, secret, lifetimeMs, issued).value;
            var iat, exp := Seconds(issued), Seconds(issued + lifetimeMs);
            && (Accept(lib, token, secret, at).Success? <==> iat < exp && iat - 60 <= Seconds(at) < exp)
            && (Accept(lib, token, secret, at).Success? ==> Accept(lib, token, secret, at).value.subject == subject)
            && (lifetimeMs >= 1000 ==> iat < exp)
  {
    var claims := Claims(subject, Seconds(issued), Seconds(issued + lifetimeMs), KIND, 1);
    var payload := Encode(lib.show(claims));
    var signature := Encode(lib.sign(secret, payload));
    EncodingHasNoDot(lib.show(claims));
    EncodingHasNoDot(lib.sign(secret, payload));
    SplitAtDot(payload, signature);
    SplitPlain(signature);
    DecodeUndoesEncode(lib.show(claims));
    DecodeUndoesEncode(lib.sign(secret, payload));
  }

  /** What is accepted is a payload and its signature with one dot between them, from a secret that is
      long enough, for a subject that a token could be issued for. */
  lemma AcceptedIsSigned(lib: Library, token: string, secret: string, at: nat)
    requires Accept(lib, token, secret, at).Success?
    ensures |secret| >= 32
    ensures exists payload, signature ::
              && token == payload + "." + signature && '.' !in payload && '.' !in signature
              && Decode(signature) == Success(lib.sign(secret, payload))
              && Decode(payload).Success?
              && lib.parse(Decode(payload).value) == Some(Accept(lib, token, secret, at).value)
    ensures var claims := Accept(lib, token, secret, at).value;
            1 <= |claims.subject| <= 64 && claims.kind == "user" && claims.version == 1
  {
    var parts := Split(token);
    JoinUndoesSplit(token);
    PartsHaveNoDot(token);
    assert parts[1..] == [parts[1]];
    assert Join(parts) == parts[0] + "." + parts[1];
  }

  /** A token issued 100 milliseconds into a second, for half a second, is accepted at no time. */
  lemma ShortTokenIsNeverAccepted(lib: Library, subject: string, secret: string, at: nat)
    requires forall c :: lib.parse(lib.show(c)) == Some(c)
    requires Create(lib, subject, secret, 500, 100).Success?
    ensures Accept(lib, Create(lib, subject, secret, 500, 100).value, secret, at).Failure?
  {
    TokenWindow(lib, subject, secret, 500, 100, at);
  }
}
