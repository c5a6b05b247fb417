/** The signed cookie that proves a public link's password was given. */
module UnlockCookie {
  import opened Text

  type Byte = b: int | 0 <= b < 256

  // ---- base64url without padding, section 5 of RFC 4648 -----------------------------

  function Symbol(v: int): (c: char)
    requires 0 <= v < 64
    ensures Value(c) == Some(v) && c != '=' && c != '.'
  {
    if v < 26 then 'A' + v as char
    else if v < 52 then 'a' + (v - 26) as char
    else if v < 62 then '0' + (v - 52) as char
    else if v == 62 then '-' else '_'
  }

  /** The decoder reads both alphabets: '-' and '_' are translated to '+' and '/' first. */
  function Value(c: char): (v: Option<int>)
    ensures v.Some? ==> 0 <= v.value < 64
  {
    if 'A' <= c <= 'Z' then Some(c as int - 'A' as int)
    else if 'a' <= c <= 'z' then Some(c as int - 'a' as int + 26)
    else if '0' <= c <= '9' then Some(c as int - '0' as int + 52)
    else if c == '-' || c == '+' then Some(62)
    else if c == '_' || c == '/' then Some(63)
    else None
  }

  /** Padded base64url, four symbols for every three bytes. */
  function Padded(b: seq<Byte>): string {
    if b == [] then ""
    else if |b| == 1 then [Symbol(b[0] / 4), Symbol(b[0] % 4 * 16), '=', '=']
    else if |b| == 2 then [Symbol(b[0] / 4), Symbol(b[0] % 4 * 16 + b[1] / 16), Symbol(b[1] % 16 * 4), '=']
    else
      Group(b[0], b[1], b[2]) + Padded(b[3..])
  }

  function Group(x: Byte, y: Byte, z: Byte): (g: string)
    ensures |g| == 4 && forall i :: 0 <= i < 4 ==> IsSymbol(g[i])
  {
    [Symbol(x / 4), Symbol(x % 4 * 16 + y / 16), Symbol(y % 16 * 4 + z / 64), Symbol(z % 64)]
  }

  /** `rstrip("=")`. */
  function Unpad(s: string): string {
    if s != "" && s[|s| - 1] == '=' then Unpad(s[..|s| - 1]) else s
  }

  function Encode(b: seq<Byte>): string {
    Unpad(Padded(b))
  }

  function Equals(n: nat): string {
    if n == 0 then "" else "=" + Equals(n - 1)
  }

  /** The `-len % 4` rule. */
  function PadFor(s: string): string {
    Equals((4 - |s| % 4) % 4)
  }

  predicate IsAscii(s: string) {
    forall c :: c in s ==> c < '\U{80}'
  }

  /** None stands for the error the caller turns into "not unlocked". */
  function Decode(s: string): Option<seq<Byte>> {
    if IsAscii(s) then Read(s + PadFor(s), 0, 0, 0) else None
  }

  function Prepend(b: Byte, rest: Option<seq<Byte>>): Option<seq<Byte>> {
    if rest.None? then None else Some([b] + rest.value)
  }

  /** Bits of the last symbol that are waiting for the next one. */
  predicate Waiting(quad: int, left: int) {
    0 <= quad < 4 && 0 <= left < (if quad == 0 || quad == 1 then 64 else if quad == 2 then 16 else 4)
  }

  /** The decoder's loop: foreign characters are skipped, and enough padding ends the input. */
  function Read(s: string, quad: int, left: int, pads: nat): Option<seq<Byte>>
    requires Waiting(quad, left)
    decreases |s|
  {
    if s == "" then (if quad == 0 then Some([]) else None)
    else if s[0] == '=' then
      if quad >= 2 && quad + pads + 1 >= 4 then Some([])
      else Read(s[1..], quad, left, if quad >= 2 then pads + 1 else pads)
    else
      var v := Value(s[0]);
      if v.None? then Read(s[1..], quad, left, pads)
      else if quad == 0 then Read(s[1..], 1, v.value, 0)
      else if quad == 1 then Prepend(left * 4 + v.value / 16, Read(s[1..], 2, v.value % 16, 0))
      else if quad == 2 then Prepend(left * 16 + v.value / 4, Read(s[1..], 3, v.value % 4, 0))
      else Prepend(left * 64 + v.value, Read(s[1..], 0, 0, 0))
  }

  lemma {:induction false} ReadPadded(b: seq<Byte>)
    ensures Read(Padded(b), 0, 0, 0) == Some(b)
  {
    hide Read, Padded, Group;
    if b == [] {
      ReadNothing();
    } else if |b| == 1 {
      assert b == [b[0]];
      ReadOne(b[0]);
    } else if |b| == 2 {
      assert b == [b[0], b[1]];
      ReadTwo(b[0], b[1]);
    } else {
      assert b == [b[0], b[1], b[2]] + b[3..];
      PaddedStep(b);
      ReadPadded(b[3..]);
      ReadGroup(b[0], b[1], b[2], Padded(b[3..]));
    }
  }

  lemma ReadNothing()
    ensures Read(Padded([]), 0, 0, 0) == Some([])
  {
  }

  lemma PaddedStep(b: seq<Byte>)
    requires |b| > 2
    ensures Padded(b) == Group(b[0], b[1], b[2]) + Padded(b[3..])
  {
  }

  lemma ReadOne(c: Byte)
    ensures Read(Padded([c]), 0, 0, 0) == Some([c])
  {
    var s := Padded([c]);
    var x, y := c / 4, c % 4 * 16;
    assert s[1..] == [Symbol(y), '=', '='] && s[1..][1..] == "==" && "=="[1..] == "=";
    assert Read("=", 2, 0, 1) == Some([]) && Read("==", 2, 0, 0) == Some([]);
    assert y / 16 == c % 4 && y % 16 == 0;
    assert Read(s[1..], 1, x, 0) == Prepend(x * 4 + y / 16, Read("==", 2, 0, 0));
    assert x * 4 + y / 16 == c && [c] + [] == [c];
  }

  lemma ReadTwo(c: Byte, d: Byte)
    ensures Read(Padded([c, d]), 0, 0, 0) == Some([c, d])
  {
    var s := Padded([c, d]);
    var x, y, z := c / 4, c % 4 * 16 + d / 16, d % 16 * 4;
    var last := [Symbol(z), '='];
    assert s[1..] == [Symbol(y)] + last && s[1..][1..] == last && last[1..] == "=";
    assert y / 16 == c % 4 && y % 16 == d / 16 && z / 4 == d % 16 && z % 4 == 0;
    assert Read("=", 3, 0, 0) == Some([]);
    assert Read(last, 2, y % 16, 0) == Prepend(d, Some([]));
    assert Read(s[1..], 1, x, 0) == Prepend(c, Prepend(d, Some([])));
    assert [c] + ([d] + []) == [c, d];
  }

  /** Four symbols decode to their three bytes. */
  lemma ReadGroup(x: Byte, y: Byte, z: Byte, rest: string)
    requires Read(rest, 0, 0, 0).Some?
    ensures Read(Group(x, y, z) + rest, 0, 0, 0) == Some([x, y, z] + Read(rest, 0, 0, 0).value)
  {
    hide Symbol, Value;
    var a, b, c, d := Symbol(x / 4), Symbol(x % 4 * 16 + y / 16), Symbol(y % 16 * 4 + z / 64), Symbol(z % 64);
    var tail := Read(rest, 0, 0, 0).value;
    assert ([d] + rest)[1..] == rest;
    assert Read([d] + rest, 3, z / 64, 0) == Some([z] + tail);
    assert ([c, d] + rest)[1..] == [d] + rest;
    assert (y % 16 * 4 + z / 64) / 4 == y % 16 && (y % 16 * 4 + z / 64) % 4 == z / 64;
    assert Read([c, d] + rest, 2, y / 16, 0) == Some([y] + ([z] + tail));
    assert ([b, c, d] + rest)[1..] == [c, d] + rest;
    assert (x % 4 * 16 + y / 16) / 16 == x % 4 && (x % 4 * 16 + y / 16) % 16 == y / 16;
    assert Read([b, c, d] + rest, 1, x / 4, 0) == Some([x] + ([y] + ([z] + tail)));
    assert ([a, b, c, d] + rest)[1..] == [b, c, d] + rest;
    assert [x] + ([y] + ([z] + tail)) == [x, y, z] + tail;
  }

  /** Characters an unpadded encoding is made of. */
  predicate IsSymbol(c: char) {
    c != '=' && c != '.' && c < '\U{80}'
  }

  predicate AllSymbols(s: string) {
    forall i :: 0 <= i < |s| ==> IsSymbol(s[i])
  }

  lemma UnpadEquals(s: string, n: nat)
    requires AllSymbols(s)
    ensures Unpad(s + Equals(n)) == s
  {
    if n == 0 {
      assert s + Equals(0) == s;
    } else {
      EqualsBack(n);
      assert s + Equals(n) == (s + Equals(n - 1)) + "=";
      assert (s + Equals(n))[..|s + Equals(n)| - 1] == s + Equals(n - 1);
      UnpadEquals(s, n - 1);
    }
  }

  lemma EqualsBack(n: nat)
    requires n > 0
    ensures Equals(n) == Equals(n - 1) + "="
  {
    if n > 1 { EqualsBack(n - 1); }
  }

  /** A padded encoding is symbols, then exactly the padding their number calls for. */
  lemma {:induction false} PaddedShape(b: seq<Byte>) returns (symbols: string)
    ensures AllSymbols(symbols)
    ensures Padded(b) == symbols + PadFor(symbols)
  {
    if b == [] {
      symbols := "";
    } else if |b| == 1 {
      symbols := [Symbol(b[0] / 4), Symbol(b[0] % 4 * 16)];
      assert Equals(1) == "=" && PadFor(symbols) == "=" + Equals(1);
    } else if |b| == 2 {
      symbols := [Symbol(b[0] / 4), Symbol(b[0] % 4 * 16 + b[1] / 16), Symbol(b[1] % 16 * 4)];
      assert PadFor(symbols) == "=" + "";
    } else {
      var rest := PaddedShape(b[3..]);
      var group := Group(b[0], b[1], b[2]);
      symbols := group + rest;
      Regroup(group, rest);
    }
  }

  lemma Regroup(group: string, rest: string)
    requires |group| == 4 && AllSymbols(group) && AllSymbols(rest)
    ensures AllSymbols(group + rest)
    ensures group + (rest + PadFor(rest)) == (group + rest) + PadFor(group + rest)
  {
    assert |group + rest| % 4 == |rest| % 4;
  }

  /** The round trip, and the alphabet that keeps '.' free to be the separator. */
  lemma {:induction false} DecodeEncode(b: seq<Byte>)
    ensures Decode(Encode(b)) == Some(b)
    ensures AllSymbols(Encode(b))
  {
    var symbols := PaddedShape(b);
    UnpadEquals(symbols, (4 - |symbols| % 4) % 4);
    ReadPadded(b);
    assert IsAscii(symbols);
  }

  /** The alphabet: capitals, small letters, digits, and the two URL-safe symbols. */
  lemma AlphabetIs(v: int)
    requires 0 <= v < 64
    ensures v < 26 ==> Symbol(v) as int == 65 + v
    ensures 26 <= v < 52 ==> Symbol(v) as int == 97 + (v - 26)
    ensures 52 <= v < 62 ==> Symbol(v) as int == 48 + (v - 52)
    ensures v == 62 ==> Symbol(v) == '-'
    ensures v == 63 ==> Symbol(v) == '_'
  {
  }

  /** The first vectors of section 10 of RFC 4648 without their padding. */
  lemma EncodesVectors()
    ensures Encode([]) == "" && Encode([102]) == "Zg" && Encode([102, 111]) == "Zm8"
  {
    assert Padded([102]) == "Zg" + Equals(2) by { assert Equals(2) == "=" + Equals(1) && Equals(1) == "="; }
    assert Padded([102, 111]) == "Zm8" + Equals(1);
    UnpadEquals("Zg", 2);
    UnpadEquals("Zm8", 1);
  }

  /** Bytes that need the two URL-safe symbols. */
  lemma EncodesUrlSafe()
    ensures Encode([251, 255, 191]) == "-_-_"
  {
    assert Padded([251, 255, 191]) == Group(251, 255, 191) + Padded([]);
    assert Padded([251, 255, 191]) == "-_-_" + Equals(0);
    UnpadEquals("-_-_", 0);
  }

  /** What does not decode: a lone symbol, and any text that is not ASCII; characters outside the alphabet are skipped. */
  lemma DecodeRefuses(c: char, s: string)
    ensures Value(c).Some? ==> Decode([c]) == None
    ensures c in s && c >= '\U{80}' ==> Decode(s) == None
    ensures Value(c).None? && c != '=' ==> Read([c] + s, 0, 0, 0) == Read(s, 0, 0, 0)
  {
    assert ([c] + s)[1..] == s;
    if Value(c).Some? {
      LoneSymbol(c);
    }
  }

  lemma LoneSymbol(c: char)
    requires Value(c).Some?
    ensures Decode([c]) == None
  {
    var v := Value(c).value;
    assert PadFor([c]) == Equals(3) == "=" + ("=" + ("=" + ""));
    var s := [c] + PadFor([c]);
    assert s[1..] == "===" && "==="[1..] == "==" && "=="[1..] == "=" && "="[1..] == "";
    assert Read("", 1, v, 0) == None;
    assert Read("=", 1, v, 0) == None;
    assert Read("==", 1, v, 0) == None;
    assert Read("===", 1, v, 0) == None;
  }

  // ---- the cookie --------------------------------------------------------------------

  datatype Claims = Claims(linkId: string, exp: int)

  /** JSON and the keyed digest, whose inner workings play no part here. */
  datatype Codec = Codec(dumps: Claims -> seq<Byte>, loads: seq<Byte> -> Option<Claims>, mac: seq<Byte> -> seq<Byte>) {
    ghost predicate Sound() {
      forall c :: loads(dumps(c)) == Some(c)
    }
  }

  const UNLOCK_TTL_SEC: real := 86400.0

  /** Python's `int` of a float drops the fraction, towards zero. */
  function Truncate(t: real): int {
    if t >= 0.0 then t.Floor else -(-t).Floor
  }

  lemma TruncateIs(t: real)
    ensures t >= 0.0 ==> Truncate(t) >= 0 && Truncate(t) as real <= t < Truncate(t) as real + 1.0
    ensures t < 0.0 ==> Truncate(t) <= 0 && Truncate(t) as real - 1.0 < t <= Truncate(t) as real
  {
  }

  lemma TruncateMonotone(s: real, t: real)
    requires s <= t
    ensures Truncate(s) <= Truncate(t)
  {
  }

  lemma TruncateOrders(now: real, at: real)
    requires Truncate(now) < Truncate(at)
    ensures now < at
  {
  }

  function MakeUnlockCookie(codec: Codec, linkId: string, expiresAt: real): string {
    var payload := codec.dumps(Claims(linkId, Truncate(expiresAt)));
    Encode(payload) + "." + Encode(codec.mac(payload))
  }

  /** `value.split(".", 1)`: everything after the first '.' belongs to the signature. */
  function SplitAtDot(value: string): Option<(string, string)> {
    var k := FirstIndex(value, c => c == '.');
    if k == |value| then None else Some((value[..k], value[k + 1..]))
  }

  predicate VerifyUnlockCookie(codec: Codec, value: string, linkId: string, now: real) {
    match SplitAtDot(value)
    case None => false
    case Some((head, tail)) =>
      var payload, sig := Decode(head), Decode(tail);
      if payload.None? || sig.None? || codec.mac(payload.value) != sig.value then false
      else
        match codec.loads(payload.value)
        case None => false
        case Some(claims) => claims.linkId == linkId && claims.exp > Truncate(now)
  }

  lemma DotSplits(head: string, tail: string)
    requires AllSymbols(head)
    ensures SplitAtDot(head + "." + tail) == Some((head, tail))
  {
    var value := head + "." + tail;
    FirstIndexIs(value, c => c == '.', |head|);
    assert value[..|head|] == head && value[|head| + 1..] == tail;
  }

  /** Any payload under any signature: accepted exactly when the signature is the payload's own
      and the payload names this link and an expiry still to come. */
  lemma SignedCookie(codec: Codec, payload: seq<Byte>, sig: seq<Byte>, linkId: string, now: real)
    ensures VerifyUnlockCookie(codec, Encode(payload) + "." + Encode(sig), linkId, now)
        <==> sig == codec.mac(payload)
             && codec.loads(payload).Some?
             && codec.loads(payload).value.linkId == linkId
             && codec.loads(payload).value.exp > Truncate(now)
  {
    DecodeEncode(payload);
    DecodeEncode(sig);
    DotSplits(Encode(payload), Encode(sig));
  }

  /** A minted cookie opens its own link until the second its expiry falls in, and nothing else. */
  lemma MintedCookie(codec: Codec, minted: string, expiresAt: real, linkId: string, now: real)
    requires codec.Sound()
    ensures VerifyUnlockCookie(codec, MakeUnlockCookie(codec, minted, expiresAt), linkId, now)
        <==> minted == linkId && Truncate(now) < Truncate(expiresAt)
  {
    var claims := Claims(minted, Truncate(expiresAt));
    var payload := codec.dumps(claims);
    assert codec.loads(payload) == Some(claims);
    SignedCookie(codec, payload, codec.mac(payload), linkId, now);
  }

  // ---- unlocking a link ------------------------------------------------------------------

  /** A day from now, or the share's own end when that comes first. */
  function CookieExpiry(now: real, shareEnds: Option<real>): real {
    var base := now + UNLOCK_TTL_SEC;
    if shareEnds.Some? && shareEnds.value < base then shareEnds.value else base
  }

  predicate IsUnlocked(codec: Codec, hasPassword: bool, cookie: Option<string>, linkId: string, now: real) {
    if !hasPassword then true
    else if cookie.None? || cookie.value == "" then false
    else VerifyUnlockCookie(codec, cookie.value, linkId, now)
  }

  /** A link without a password is open; with one, no cookie, an empty one and one without a signature do not open it. */
  lemma LockedWithoutCookie(codec: Codec, cookie: Option<string>, linkId: string, now: real)
    ensures IsUnlocked(codec, false, cookie, linkId, now)
    ensures cookie == None || cookie == Some("") ==> !IsUnlocked(codec, true, cookie, linkId, now)
    ensures cookie.Some? && '.' !in cookie.value ==> !IsUnlocked(codec, true, cookie, linkId, now)
  {
    if cookie.Some? && '.' !in cookie.value {
      assert SplitAtDot(cookie.value).None?;
    }
  }

  /**
   * What the password buys: this link alone, until the whole second of the end of a day, or of the share's
   * own end when that comes first.
   */
  lemma UnlockIsExact(codec: Codec, minted: string, at: real, shareEnds: Option<real>, linkId: string, now: real)
    requires codec.Sound()
    ensures IsUnlocked(codec, true, Some(MakeUnlockCookie(codec, minted, CookieExpiry(at, shareEnds))), linkId, now)
        <==> && minted == linkId && Truncate(now) < Truncate(at + 86400.0)
             && (shareEnds.Some? ==> Truncate(now) < Truncate(shareEnds.value))
  {
    hide Truncate, MakeUnlockCookie, VerifyUnlockCookie;
    CookieHasText(codec, minted, CookieExpiry(at, shareEnds));
    MintedCookie(codec, minted, CookieExpiry(at, shareEnds), linkId, now);
    if shareEnds.Some? {
      TruncateMonotone(CookieExpiry(at, shareEnds), at + 86400.0);
      TruncateMonotone(CookieExpiry(at, shareEnds), shareEnds.value);
    }
  }

  lemma CookieHasText(codec: Codec, minted: string, expiresAt: real)
    ensures MakeUnlockCookie(codec, minted, expiresAt) != ""
  {
    hide Encode, Truncate;
  }

  /** So it never opens the link after a day, or past the share's end. */
  lemma UnlockIsBounded(codec: Codec, minted: string, at: real, shareEnds: Option<real>, linkId: string, now: real)
    requires codec.Sound()
    requires IsUnlocked(codec, true, Some(MakeUnlockCookie(codec, minted, CookieExpiry(at, shareEnds))), linkId, now)
    ensures minted == linkId
    ensures now < at + 86400.0
    ensures shareEnds.Some? ==> now < shareEnds.value
  {
    UnlockIsExact(codec, minted, at, shareEnds, linkId, now);
    TruncateOrders(now, CookieExpiry(at, shareEnds));
  }
}
