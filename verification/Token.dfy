/** The signed tokens of Pattern 7. */
module Token {
  import opened Models
  import opened Converter

  type Byte = b: int | 0 <= b < 256

  // ---- base64url without padding, section 5 of RFC 4648 ----

  type Sextet = v: int | 0 <= v < 64

  function Letter(v: Sextet): (c: char)
    ensures c != '.' && c != '\n' && c != '\r'
  {
    if v < 26 then ('A' as int + v) as char
    else if v < 52 then ('a' as int + (v - 26)) as char
    else if v < 62 then ('0' as int + (v - 52)) as char
    else if v == 62 then '-' else '_'
  }

  function Value(c: char): Option<Sextet> {
    if 'A' <= c <= 'Z' then Some(c as int - 'A' as int)
    else if 'a' <= c <= 'z' then Some(c as int - 'a' as int + 26)
    else if '0' <= c <= '9' then Some(c as int - '0' as int + 52)
    else if c == '-' then Some(62)
    else if c == '_' then Some(63)
    else None
  }

  lemma ValueOfLetter(v: Sextet)
    ensures Value(Letter(v)) == Some(v)
  {
  }

  /** Three bytes become four six-bit values; one or two left over become two or three. */
  function Split(b: seq<Byte>): seq<Sextet> {
    if |b| == 0 then []
    else if |b| == 1 then [b[0] / 4, b[0] % 4 * 16]
    else if |b| == 2 then [b[0] / 4, b[0] % 4 * 16 + b[1] / 16, b[1] % 16 * 4]
    else [b[0] / 4, b[0] % 4 * 16 + b[1] / 16, b[1] % 16 * 4 + b[2] / 64, b[2] % 64] + Split(b[3..])
  }

  function Spell(s: seq<Sextet>): (text: string)
    ensures '.' !in text && '\n' !in text && '\r' !in text
  {
    if s == [] then [] else [Letter(s[0])] + Spell(s[1..])
  }

  function Encode(b: seq<Byte>): string {
    Spell(Split(b))
  }

  function Sextets(text: string): Option<seq<Sextet>> {
    if text == [] then Some([])
    else if Value(text[0]).None? || Sextets(text[1..]).None? then None
    else Some([Value(text[0]).value] + Sextets(text[1..]).value)
  }

  function Join(s: seq<Sextet>): Option<seq<Byte>> {
    if |s| == 0 then Some([])
    else if |s| == 1 then None
    else
      var v0: int, v1: int := s[0], s[1];
      if |s| == 2 then Some([v0 * 4 + v1 / 16])
      else
        var v2: int := s[2];
        if |s| == 3 then Some([v0 * 4 + v1 / 16, v1 % 16 * 16 + v2 / 4])
        else
          var v3: int, rest := s[3], Join(s[4..]);
          if rest.None? then None
          else Some([v0 * 4 + v1 / 16, v1 % 16 * 16 + v2 / 4, v2 % 4 * 64 + v3] + rest.value)
  }

  /** The decoder skips line breaks. */
  function Unbroken(text: string): string {
    if text == [] then []
    else (if text[0] == '\n' || text[0] == '\r' then [] else [text[0]]) + Unbroken(text[1..])
  }

  function Decode(text: string): Option<seq<Byte>> {
    var s := Sextets(Unbroken(text));
    if s.None? then None else Join(s.value)
  }

  lemma {:induction false} SextetsOfSpell(s: seq<Sextet>)
    ensures Sextets(Spell(s)) == Some(s)
  {
    hide Letter, Value;
    if s != [] {
      ValueOfLetter(s[0]);
      SextetsOfSpell(s[1..]);
      assert Spell(s)[0] == Letter(s[0]) && Spell(s)[1..] == Spell(s[1..]);
      assert [s[0]] + s[1..] == s;
    }
  }

  lemma JoinGroup(x: Byte, y: Byte, z: Byte)
    ensures x / 4 * 4 + (x % 4 * 16 + y / 16) / 16 == x
    ensures (x % 4 * 16 + y / 16) % 16 * 16 + (y % 16 * 4 + z / 64) / 4 == y
    ensures (y % 16 * 4 + z / 64) % 4 * 64 + z % 64 == z
  {
  }

  lemma JoinMore(b: seq<Byte>, rest: seq<Sextet>)
    requires |b| > 2 && Join(rest) == Some(b[3..])
    ensures Join([b[0] / 4, b[0] % 4 * 16 + b[1] / 16, b[1] % 16 * 4 + b[2] / 64, b[2] % 64] + rest) == Some(b)
  {
    JoinGroup(b[0], b[1], b[2]);
    var s: seq<Sextet> := [b[0] / 4, b[0] % 4 * 16 + b[1] / 16, b[1] % 16 * 4 + b[2] / 64, b[2] % 64] + rest;
    assert s[4..] == rest;
    assert [b[0], b[1], b[2]] + b[3..] == b;
  }

  lemma {:induction false} JoinOfSplit(b: seq<Byte>)
    ensures Join(Split(b)) == Some(b)
  {
    if |b| == 1 {
      JoinGroup(b[0], 0, 0);
      assert b == [b[0]];
    } else if |b| == 2 {
      JoinGroup(b[0], b[1], 0);
      assert b == [b[0], b[1]];
    } else if |b| > 2 {
      JoinOfSplit(b[3..]);
      JoinMore(b, Split(b[3..]));
    }
  }

  lemma {:induction false} UnbrokenSame(text: string)
    requires '\n' !in text && '\r' !in text
    ensures Unbroken(text) == text
  {
    if text != [] {
      assert text[0] in text;
      UnbrokenSame(text[1..]);
    }
  }

  /** Decoding undoes encoding. */
  lemma DecodeOfEncode(b: seq<Byte>)
    ensures Decode(Encode(b)) == Some(b)
  {
    hide Letter, Value, Split, Spell, Join, Sextets;
    UnbrokenSame(Encode(b));
    SextetsOfSpell(Split(b));
    JoinOfSplit(b);
  }

  // ---- what the encoding is ----

  /** Table 2 of RFC 4648: A to Z, a to z, 0 to 9, minus and underline, in this order. */
  lemma LettersOfTable(v: Sextet)
    ensures Letter(0) == 'A' && Letter(25) == 'Z' && Letter(26) == 'a' && Letter(51) == 'z'
    ensures Letter(52) == '0' && Letter(61) == '9' && Letter(62) == '-' && Letter(63) == '_'
    ensures v < 61 && v != 25 && v != 51 ==> Letter(v + 1) as int == Letter(v) as int + 1
  {
  }

  predicate IsLetter(c: char) {
    'A' <= c <= 'Z' || 'a' <= c <= 'z' || '0' <= c <= '9' || c == '-' || c == '_'
  }

  /** A number written in groups of eight or six bits. */
  function Bits(base: int, x: int, y: int, z: int): int { base * base * x + base * y + z }

  /** The bits of the bytes are the bits of the six-bit values, in order, filled up with zeros. */
  lemma {:induction false} SameBits(b: seq<Byte>, i: nat)
    requires 3 * i < |b|
    ensures var s, x := Split(b), b[3 * i..];
            if |x| >= 3 then
              4 * i + 3 < |s| &&
              Bits(256, x[0], x[1], x[2]) == Bits(64, Bits(64, 0, s[4 * i], s[4 * i + 1]), s[4 * i + 2], s[4 * i + 3])
            else if |x| == 2 then
              4 * i + 3 == |s| && Bits(256, 0, x[0], x[1]) * 4 == Bits(64, s[4 * i], s[4 * i + 1], s[4 * i + 2])
            else
              4 * i + 2 == |s| && Bits(256, 0, 0, x[0]) * 16 == Bits(64, 0, s[4 * i], s[4 * i + 1])
    decreases i
  {
    if i > 0 {
      SameBits(b[3..], i - 1);
      assert b[3..][3 * (i - 1)..] == b[3 * i..];
      assert forall j :: 4 <= j < |Split(b)| ==> Split(b)[j] == Split(b[3..])[j - 4];
    }
  }

  lemma {:induction false} SpellAt(s: seq<Sextet>)
    ensures |Spell(s)| == |s|
    ensures forall i :: 0 <= i < |s| ==> Spell(s)[i] == Letter(s[i])
  {
    if s != [] { SpellAt(s[1..]); }
  }

  /** The text spells those values, one letter each. */
  lemma EncodedLetters(b: seq<Byte>, i: nat)
    requires i < |Split(b)|
    ensures |Encode(b)| == |Split(b)| && Encode(b)[i] == Letter(Split(b)[i])
  {
    hide Split;
    SpellAt(Split(b));
  }

  ghost predicate AllLetters(text: string) {
    forall i :: 0 <= i < |text| ==> IsLetter(text[i])
  }

  lemma {:induction false} SextetsIff(text: string)
    ensures Sextets(text).Some? <==> AllLetters(text)
    ensures Sextets(text).Some? ==> |Sextets(text).value| == |text|
  {
    if text != [] {
      SextetsIff(text[1..]);
      assert AllLetters(text) <==> IsLetter(text[0]) && AllLetters(text[1..]);
    }
  }

  lemma {:induction false} JoinIff(s: seq<Sextet>)
    ensures Join(s).Some? <==> |s| % 4 != 1
  {
    if |s| > 3 { JoinIff(s[4..]); }
  }

  predicate IsBreak(c: char) { c == '\n' || c == '\r' }

  function LetterCount(text: string): nat {
    if text == [] then 0 else (if IsLetter(text[0]) then 1 else 0) + LetterCount(text[1..])
  }

  ghost predicate LettersAndBreaks(text: string) {
    forall i :: 0 <= i < |text| ==> IsLetter(text[i]) || IsBreak(text[i])
  }

  lemma LettersCons(c: char, rest: string)
    ensures AllLetters([c] + rest) <==> IsLetter(c) && AllLetters(rest)
  {
    var text := [c] + rest;
    assert text[0] == c && forall i :: 0 <= i < |rest| ==> text[i + 1] == rest[i];
    assert forall i :: 0 < i < |text| ==> text[i] == rest[i - 1];
  }

  lemma {:induction false} UnbrokenLetters(text: string)
    ensures AllLetters(Unbroken(text)) <==> LettersAndBreaks(text)
    ensures LettersAndBreaks(text) ==> |Unbroken(text)| == LetterCount(text)
  {
    if text != [] {
      UnbrokenLetters(text[1..]);
      assert LettersAndBreaks(text) <==> (IsLetter(text[0]) || IsBreak(text[0])) && LettersAndBreaks(text[1..]);
      var rest := Unbroken(text[1..]);
      if IsBreak(text[0]) {
        assert Unbroken(text) == [] + rest == rest;
      } else {
        assert Unbroken(text) == [text[0]] + rest;
        LettersCons(text[0], rest);
      }
    }
  }

  /** A text can be decoded exactly when it consists of letters of the table and line breaks, and the
      letters are not one more than a multiple of four. */
  lemma DecodesIff(text: string)
    ensures Decode(text).Some? <==> LettersAndBreaks(text) && LetterCount(text) % 4 != 1
  {
    hide Join, Sextets, Unbroken;
    UnbrokenLetters(text);
    SextetsIff(Unbroken(text));
    if Sextets(Unbroken(text)).Some? { JoinIff(Sextets(Unbroken(text)).value); }
  }

  lemma Assoc(a: string, b: string, c: string)
    ensures a + (b + c) == (a + b) + c
  {
  }

  lemma {:induction false} UnbrokenConcat(a: string, b: string)
    ensures Unbroken(a + b) == Unbroken(a) + Unbroken(b)
  {
    if a == [] {
      assert a + b == b && [] + Unbroken(b) == Unbroken(b);
    } else {
      UnbrokenConcat(a[1..], b);
      assert (a + b)[0] == a[0] && (a + b)[1..] == a[1..] + b;
      var head := if IsBreak(a[0]) then [] else [a[0]];
      assert Unbroken(a + b) == head + Unbroken(a[1..] + b);
      assert Unbroken(a) == head + Unbroken(a[1..]);
      hide Unbroken;
      Assoc(head, Unbroken(a[1..]), Unbroken(b));
    }
  }

  /** Line breaks make no difference, wherever they are. */
  lemma BreaksIgnored(a: string, c: char, b: string)
    requires IsBreak(c)
    ensures Decode(a + [c] + b) == Decode(a + b)
  {
    UnbrokenConcat(a + [c], b);
    UnbrokenConcat(a, [c]);
    UnbrokenConcat(a, b);
    assert Unbroken([c]) == [];
    assert Unbroken(a) + [] == Unbroken(a);
  }

  // ---- issue and validate ----

  datatype Claims = Claims(deviceCN: string, expiresAt: int)

  /** JSON and HMAC-SHA256 (section 2 of RFC 2104) as functions; nothing is assumed of the
      second and only that reading undoes writing of the first. */
  datatype Codec = Codec(
    marshal: Claims -> seq<Byte>,
    unmarshal: seq<Byte> -> Option<Claims>,
    hmac: (string, string) -> seq<Byte>)

  datatype Verdict = Valid(deviceCN: string) | Malformed | BadSignature | Undecodable | Expired

  function Sign(k: Codec, data: string, secret: string): string {
    Encode(k.hmac(data, secret))
  }

  function ClaimsAt(deviceCN: string, ttl: int, now: int): Claims {
    Claims(deviceCN, Unix(now + ttl))
  }

  /** The token and the time at which it expires. */
  function Issue(k: Codec, secret: string, ttl: int, deviceCN: string, now: int): (string, int) {
    var enc := Encode(k.marshal(ClaimsAt(deviceCN, ttl, now)));
    (enc + ['.'] + Sign(k, enc, secret), now + ttl)
  }

  /** The position of the first dot, or the length. */
  function FirstDot(text: string): (i: nat)
    ensures i <= |text| && '.' !in text[..i] && (i < |text| ==> text[i] == '.')
  {
    if text == [] || text[0] == '.' then 0 else
      var i := 1 + FirstDot(text[1..]);
      assert text[..i] == [text[0]] + text[1..][..i-1];
      i
  }

  function Validate(k: Codec, secret: string, token: string, now: int): Verdict {
    var i := FirstDot(token);
    if i == |token| then Malformed
    else
      var enc, sig := token[..i], token[i+1..];
      if Sign(k, enc, secret) != sig then BadSignature
      else
        var payload := Decode(enc);
        if payload.None? then Undecodable
        else
          var claims := k.unmarshal(payload.value);
          if claims.None? then Undecodable
          else if Unix(now) > claims.value.expiresAt then Expired
          else Valid(claims.value.deviceCN)
  }

  lemma {:induction false} FirstDotOf(enc: string, sig: string)
    requires '.' !in enc
    ensures FirstDot(enc + ['.'] + sig) == |enc|
  {
    if enc != [] {
      var token := enc + ['.'] + sig;
      assert token[0] == enc[0] && enc[0] in enc;
      assert token[1..] == enc[1..] + ['.'] + sig;
      FirstDotOf(enc[1..], sig);
    }
  }

  /** The token read as a payload and a signature, at the first dot. */
  ghost predicate Parts(token: string, enc: string, sig: string) {
    '.' !in enc && token == enc + ['.'] + sig
  }

  /** The payload is what was signed, and it says so of `claims`. */
  ghost predicate Says(k: Codec, enc: string, claims: Claims) {
    Decode(enc).Some? && k.unmarshal(Decode(enc).value) == Some(claims)
  }

  lemma PartsAt(token: string, enc: string, sig: string)
    requires Parts(token, enc, sig)
    ensures FirstDot(token) == |enc| < |token|
    ensures token[..|enc|] == enc && token[|enc|+1..] == sig
  {
    FirstDotOf(enc, sig);
  }

  lemma PartsOf(token: string) returns (enc: string, sig: string)
    requires FirstDot(token) < |token|
    ensures Parts(token, enc, sig) && enc == token[..FirstDot(token)] && sig == token[FirstDot(token)+1..]
  {
    var i := FirstDot(token);
    enc, sig := token[..i], token[i+1..];
    assert token == enc + ['.'] + sig;
  }

  /** For every text: it is malformed exactly when it has no dot. */
  lemma MalformedIff(k: Codec, secret: string, token: string, now: int)
    ensures Validate(k, secret, token, now).Malformed? <==> '.' !in token
  {
    hide Decode;
    var i := FirstDot(token);
    assert i == |token| ==> token[..i] == token;
  }

  /** For every text: its signature is found bad exactly when what follows its first dot is not the
      encoded HMAC of what precedes it. */
  lemma BadSignatureIff(k: Codec, secret: string, token: string, now: int)
    ensures Validate(k, secret, token, now).BadSignature? <==>
              exists enc, sig :: Parts(token, enc, sig) && sig != Encode(k.hmac(enc, secret))
  {
    hide Decode, Encode, FirstDot;
    if FirstDot(token) < |token| {
      var enc, sig := PartsOf(token);
    }
    forall enc, sig | Parts(token, enc, sig) ensures FirstDot(token) == |enc| < |token|
                                                  && token[..|enc|] == enc && token[|enc|+1..] == sig
    {
      PartsAt(token, enc, sig);
    }
  }

  /** For every text: it is accepted for a device exactly when it is a payload and its signature
      under this secret, and the payload's claims name the device and an expiry not yet past. */
  lemma ValidIff(k: Codec, secret: string, token: string, now: int, deviceCN: string)
    ensures Validate(k, secret, token, now) == Valid(deviceCN) <==>
              exists enc, sig, expiresAt ::
                && Parts(token, enc, sig) && sig == Encode(k.hmac(enc, secret))
                && Says(k, enc, Claims(deviceCN, expiresAt)) && Unix(now) <= expiresAt
  {
    hide Decode, Encode, FirstDot, Unix;
    if Validate(k, secret, token, now) == Valid(deviceCN) {
      var enc, sig := PartsOf(token);
      var claims := k.unmarshal(Decode(enc).value).value;
      assert Says(k, enc, Claims(deviceCN, claims.expiresAt));
    } else if enc, sig, expiresAt :| && Parts(token, enc, sig) && sig == Encode(k.hmac(enc, secret))
                                     && Says(k, enc, Claims(deviceCN, expiresAt)) && Unix(now) <= expiresAt {
      PartsAt(token, enc, sig);
      assert false;
    }
  }

  /** An issued token yields the device name exactly until the second in which it expires is over,
      and is reported expired from then on. */
  lemma IssuedTokenValidIff(k: Codec, secret: string, ttl: int, deviceCN: string, now: int, at: int)
    requires k.unmarshal(k.marshal(ClaimsAt(deviceCN, ttl, now))) == Some(ClaimsAt(deviceCN, ttl, now))
    ensures var (token, expiresAt) := Issue(k, secret, ttl, deviceCN, now);
            && expiresAt == now + ttl
            && Validate(k, secret, token, at) == if Unix(at) <= Unix(expiresAt) then Valid(deviceCN) else Expired
  {
    hide Split, Spell, Decode, FirstDot, Unix;
    var payload := k.marshal(ClaimsAt(deviceCN, ttl, now));
    var enc := Encode(payload);
    var sig := Sign(k, enc, secret);
    var token := enc + ['.'] + sig;
    FirstDotOf(enc, sig);
    assert token[..|enc|] == enc && token[|enc|+1..] == sig;
    DecodeOfEncode(payload);
  }

  /** In particular: accepted at every time up to the returned expiry, refused from one second after. */
  lemma IssuedTokenLifetime(k: Codec, secret: string, ttl: int, deviceCN: string, now: int, at: int)
    requires k.unmarshal(k.marshal(ClaimsAt(deviceCN, ttl, now))) == Some(ClaimsAt(deviceCN, ttl, now))
    ensures var (token, expiresAt) := Issue(k, secret, ttl, deviceCN, now);
            && (at <= expiresAt ==> Validate(k, secret, token, at) == Valid(deviceCN))
            && (at >= expiresAt + SECOND ==> Validate(k, secret, token, at) == Expired)
  {
    hide Split, Spell, Decode, FirstDot, Validate;
    IssuedTokenValidIff(k, secret, ttl, deviceCN, now, at);
  }
}
