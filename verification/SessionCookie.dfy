/**
 The signed session cookie: two unpadded base64url segments (section 5 of RFC 4648)
 around one dot. JSON and HMAC are functions with stated laws; the decoder is the
 standard library's lenient one, which skips what it does not know.
 */
module SessionCookie {
  import opened Wrappers
  import opened Octets

  type Sextet = n: int | 0 <= n < 64

  // ------------------------------------------------------------------ alphabet

  function Digit(n: Sextet): char {
    if n < 26 then 'A' + n as char
    else if n < 52 then 'a' + (n - 26) as char
    else if n < 62 then '0' + (n - 52) as char
    else if n == 62 then '-' else '_'
  }

  // The decoding table, in which both alphabets have their place.
  function Value(c: char): Option<Sextet> {
    if 'A' <= c <= 'Z' then Some(c as int - 'A' as int)
    else if 'a' <= c <= 'z' then Some(c as int - 'a' as int + 26)
    else if '0' <= c <= '9' then Some(c as int - '0' as int + 52)
    else if c == '-' || c == '+' then Some(62)
    else if c == '_' || c == '/' then Some(63)
    else None
  }

  lemma ValueOfDigit(n: Sextet)
    ensures Value(Digit(n)) == Some(n) && Digit(n) != '=' && Digit(n) != '.'
  {
  }

  // ------------------------------------------------------------------ encoding

  // The four sextets of three bytes.
  function First(a: Byte): Sextet { a / 4 }

  function Second(a: Byte, b: Byte): Sextet { a % 4 * 16 + b / 16 }

  function Third(b: Byte, c: Byte): Sextet { b % 16 * 4 + c / 64 }

  function Fourth(c: Byte): Sextet { c % 64 }

  function Sextets(raw: Bytes): (s: seq<Sextet>)
    ensures |s| == 4 * (|raw| / 3) + (if |raw| % 3 == 0 then 0 else |raw| % 3 + 1)
  {
    if raw == [] then []
    else if |raw| == 1 then [First(raw[0]), Second(raw[0], 0)]
    else if |raw| == 2 then [First(raw[0]), Second(raw[0], raw[1]), Third(raw[1], 0)]
    else [First(raw[0]), Second(raw[0], raw[1]), Third(raw[1], raw[2]), Fourth(raw[2])] + Sextets(raw[3..])
  }

  function Letters(sextets: seq<Sextet>): string {
    if sextets == [] then "" else [Digit(sextets[0])] + Letters(sextets[1..])
  }

  function Pads(n: nat): string {
    if n == 0 then "" else "=" + Pads(n - 1)
  }

  function PadCount(raw: Bytes): nat {
    (3 - |raw| % 3) % 3
  }

  function Base64(raw: Bytes): string {
    Letters(Sextets(raw)) + Pads(PadCount(raw))
  }

  // rstrip("=").
  function StripPads(s: string): string {
    if s != [] && s[|s| - 1] == '=' then StripPads(s[..|s| - 1]) else s
  }

  function B64Url(raw: Bytes): string {
    StripPads(Base64(raw))
  }

  // ------------------------------------------------------------------ decoding

  datatype Problem = Malformed | BadSignature | NotJson // raised as AuthError
    | BinasciiError | UnicodeEncodeError                // and these are not

  // The decoder's registers: digits seen of a quad, their left-over bits, the pads
  // seen in a row, and the bytes put out.
  datatype Scanner = Scanner(quad: nat, left: int, pads: nat, out: Bytes)

  const START := Scanner(0, 0, 0, [])

  predicate Sound(s: Scanner) {
    && s.quad < 4
    && (s.quad == 0 ==> s.left == 0) && (s.quad == 1 ==> 0 <= s.left < 64)
    && (s.quad == 2 ==> 0 <= s.left < 16) && (s.quad == 3 ==> 0 <= s.left < 4)
  }

  function Take(s: Scanner, v: Sextet): (r: Scanner)
    requires Sound(s)
    ensures Sound(r)
  {
    if s.quad == 0 then Scanner(1, v, 0, s.out)
    else if s.quad == 1 then Scanner(2, v % 16, 0, s.out + [s.left * 4 + v / 16])
    else if s.quad == 2 then Scanner(3, v % 4, 0, s.out + [s.left * 16 + v / 4])
    else Scanner(0, 0, 0, s.out + [s.left * 64 + v])
  }

  function Scan(s: Scanner, text: string): Result<Bytes, Problem>
    requires Sound(s)
    decreases |text|
  {
    if text == [] then if s.quad != 0 then Err(BinasciiError) else Ok(s.out)
    else if text[0] == '=' then
      if s.quad >= 2 && s.quad + s.pads + 1 >= 4 then Ok(s.out)
      else Scan(if s.quad >= 2 then s.(pads := s.pads + 1) else s, text[1..])
    else
      match Value(text[0])
      case None => Scan(s, text[1..])
      case Some(v) => Scan(Take(s, v), text[1..])
  }

  predicate IsAscii(s: string) {
    forall i | 0 <= i < |s| :: s[i] < '\U{80}'
  }

  function Padded(data: string): string {
    var padding := 4 - |data| % 4;
    if padding != 4 then data + Pads(padding) else data
  }

  function B64UrlDecode(data: string): Result<Bytes, Problem> {
    if !IsAscii(Padded(data)) then Err(UnicodeEncodeError) else Scan(START, Padded(data))
  }

  // ------------------------------------------------------------------ the cookie

  datatype Codec<!P(==)> = Codec(
    dumps: P -> Bytes,
    loads: Bytes -> Option<P>,
    hmac: (string, Bytes) -> Bytes)

  ghost predicate LawfulJson<P(!new)>(k: Codec<P>) {
    forall p: P :: k.loads(k.dumps(p)) == Some(p)
  }

  function SignCookie<P>(k: Codec<P>, payload: P, secret: string): string {
    var body := k.dumps(payload);
    B64Url(body) + "." + B64Url(k.hmac(secret, body))
  }

  function Dots(s: string): nat {
    if s == [] then 0 else (if s[0] == '.' then 1 else 0) + Dots(s[1..])
  }

  // split(".", 1) of a text with a dot in it.
  function BeforeDot(s: string): string {
    if s == [] || s[0] == '.' then "" else [s[0]] + BeforeDot(s[1..])
  }

  function AfterDot(s: string): string {
    if s == [] then "" else if s[0] == '.' then s[1..] else AfterDot(s[1..])
  }

  function VerifyCookie<P>(k: Codec<P>, value: string, secret: string): Result<P, Problem> {
    if value == [] || Dots(value) != 1 then Err(Malformed)
    else
      match B64UrlDecode(BeforeDot(value))
      case Err(e) => Err(e)
      case Ok(body) =>
        match B64UrlDecode(AfterDot(value))
        case Err(e) => Err(e)
        case Ok(mac) =>
          if mac != k.hmac(secret, body) then Err(BadSignature)
          else
            match k.loads(body)
            case None => Err(NotJson)
            case Some(p) => Ok(p)
  }

  // ------------------------------------------------------- shape of the encoding

  ghost predicate AllDigits(s: string) {
    forall i | 0 <= i < |s| :: Value(s[i]).Some? && s[i] != '=' && s[i] != '.' && s[i] < '\U{80}'
  }

  lemma {:induction false} LettersAreDigits(sextets: seq<Sextet>)
    ensures |Letters(sextets)| == |sextets| && AllDigits(Letters(sextets))
  {
    if sextets != [] {
      ValueOfDigit(sextets[0]);
      LettersAreDigits(sextets[1..]);
    }
  }

  lemma {:induction false} PadsEnd(n: nat)
    ensures |Pads(n)| == n && IsAscii(Pads(n)) && (n > 0 ==> Pads(n) == Pads(n - 1) + "=")
  {
    if n > 0 { PadsEnd(n - 1); }
  }

  lemma {:induction false} StripsPads(s: string, n: nat)
    requires AllDigits(s)
    ensures StripPads(s + Pads(n)) == s
  {
    if n == 0 {
      assert s + "" == s;
    } else {
      StripsPads(s, n - 1);
      PadsEnd(n);
      assert (s + Pads(n))[..|s + Pads(n)| - 1] == s + Pads(n - 1);
    }
  }

  /** An encoding is made of digits alone: it has no dot and no pad. */
  lemma EncodingIsDigits(raw: Bytes)
    ensures B64Url(raw) == Letters(Sextets(raw)) && AllDigits(B64Url(raw))
  {
    hide AllDigits;
    LettersAreDigits(Sextets(raw));
    StripsPads(Letters(Sextets(raw)), PadCount(raw));
  }

  // ---------------------------------------------------------------- round trip

  function Feed(s: Scanner, sextets: seq<Sextet>): (r: Scanner)
    requires Sound(s)
    ensures Sound(r)
    decreases |sextets|
  {
    if sextets == [] then s else Feed(Take(s, sextets[0]), sextets[1..])
  }

  lemma ScanHead(s: Scanner, text: string, n: Sextet)
    requires Sound(s) && text != [] && text[0] == Digit(n)
    ensures Scan(s, text) == Scan(Take(s, n), text[1..])
  {
    ValueOfDigit(n);
  }

  lemma {:induction false} ScanLetters(s: Scanner, sextets: seq<Sextet>, rest: string)
    requires Sound(s)
    ensures Scan(s, Letters(sextets) + rest) == Scan(Feed(s, sextets), rest)
    decreases |sextets|
  {
    hide Digit, Take, Sound, Scan;
    if sextets == [] {
      assert "" + rest == rest;
    } else {
      var text := Letters(sextets) + rest;
      assert text[0] == Digit(sextets[0]) && text[1..] == Letters(sextets[1..]) + rest;
      hide Letters;
      ScanHead(s, text, sextets[0]);
      ScanLetters(Take(s, sextets[0]), sextets[1..], rest);
    }
  }

  lemma TakeFirstTwo(out: Bytes, a: Byte, b: Byte)
    ensures Take(Take(Scanner(0, 0, 0, out), First(a)), Second(a, b)) == Scanner(2, b / 16, 0, out + [a])
  {
  }

  lemma TakeThird(out: Bytes, b: Byte, c: Byte)
    ensures Take(Scanner(2, b / 16, 0, out), Third(b, c)) == Scanner(3, c / 64, 0, out + [b])
  {
  }

  lemma TakeFourth(out: Bytes, c: Byte)
    ensures Take(Scanner(3, c / 64, 0, out), Fourth(c)) == Scanner(0, 0, 0, out + [c])
  {
  }

  lemma FeedStep(s: Scanner, v: Sextet, rest: seq<Sextet>)
    requires Sound(s)
    ensures Feed(s, [v] + rest) == Feed(Take(s, v), rest)
  {
    assert ([v] + rest)[1..] == rest;
  }

  lemma FeedTwo(out: Bytes, a: Byte, b: Byte, rest: seq<Sextet>)
    ensures Feed(Scanner(0, 0, 0, out), [First(a), Second(a, b)] + rest) == Feed(Scanner(2, b / 16, 0, out + [a]), rest)
  {
    hide Feed, Take, First, Second;
    TakeFirstTwo(out, a, b);
    var s := Scanner(0, 0, 0, out);
    assert [First(a), Second(a, b)] + rest == [First(a)] + ([Second(a, b)] + rest);
    FeedStep(s, First(a), [Second(a, b)] + rest);
    FeedStep(Take(s, First(a)), Second(a, b), rest);
  }

  lemma FeedThree(out: Bytes, a: Byte, b: Byte, c: Byte, rest: seq<Sextet>)
    ensures Feed(Scanner(0, 0, 0, out), [First(a), Second(a, b), Third(b, c)] + rest)
         == Feed(Scanner(3, c / 64, 0, out + [a] + [b]), rest)
  {
    hide Feed, Take, First, Second, Third;
    TakeThird(out + [a], b, c);
    assert [First(a), Second(a, b), Third(b, c)] + rest == [First(a), Second(a, b)] + ([Third(b, c)] + rest);
    FeedTwo(out, a, b, [Third(b, c)] + rest);
    FeedStep(Scanner(2, b / 16, 0, out + [a]), Third(b, c), rest);
  }

  lemma FeedFour(out: Bytes, a: Byte, b: Byte, c: Byte, rest: seq<Sextet>)
    ensures Feed(Scanner(0, 0, 0, out), [First(a), Second(a, b), Third(b, c), Fourth(c)] + rest)
         == Feed(Scanner(0, 0, 0, out + [a, b, c]), rest)
  {
    hide Feed, Take, First, Second, Third, Fourth;
    TakeFourth(out + [a] + [b], c);
    assert [First(a), Second(a, b), Third(b, c), Fourth(c)] + rest == [First(a), Second(a, b), Third(b, c)]
        + ([Fourth(c)] + rest);
    assert out + [a] + [b] + [c] == out + [a, b, c];
    FeedThree(out, a, b, c, [Fourth(c)] + rest);
    FeedStep(Scanner(3, c / 64, 0, out + [a] + [b]), Fourth(c), rest);
  }

  // What the registers hold when every digit of an encoding has been read.
  lemma {:induction false} FeedSextets(out: Bytes, raw: Bytes)
    ensures Feed(Scanner(0, 0, 0, out), Sextets(raw)) ==
            Scanner(if |raw| % 3 == 0 then 0 else |raw| % 3 + 1, 0, 0, out + raw)
    decreases |raw|
  {
    hide First, Second, Third, Fourth, Take;
    if raw == [] {
      assert out + raw == out;
    } else if |raw| == 1 {
      FeedTwo(out, raw[0], 0, []);
      assert [First(raw[0]), Second(raw[0], 0)] + [] == Sextets(raw);
      assert [raw[0]] == raw;
    } else if |raw| == 2 {
      FeedThree(out, raw[0], raw[1], 0, []);
      assert [First(raw[0]), Second(raw[0], raw[1]), Third(raw[1], 0)] + [] == Sextets(raw);
      assert out + [raw[0]] + [raw[1]] == out + raw;
    } else {
      FeedFour(out, raw[0], raw[1], raw[2], Sextets(raw[3..]));
      FeedSextets(out + [raw[0], raw[1], raw[2]], raw[3..]);
      assert out + [raw[0], raw[1], raw[2]] + raw[3..] == out + raw;
    }
  }

  lemma ScanPads(s: Scanner, n: nat)
    requires s.pads == 0 && s.left == 0
        && ((s.quad == 0 && n == 0) || (s.quad == 2 && n == 2) || (s.quad == 3 && n == 1))
    ensures Scan(s, Pads(n)) == Ok(s.out)
  {
    assert Pads(n) == if n == 0 then "" else if n == 1 then "=" else "==";
    assert "=="[1..] == "=";
    if n == 2 { assert Scan(s, "==") == Scan(s.(pads := 1), "="); }
  }

  lemma JoinIsAscii(a: string, b: string)
    requires AllDigits(a) && IsAscii(b)
    ensures IsAscii(a + b)
  {
  }

  // The padding that was stripped is the padding that is put back.
  lemma PaddingRestored(raw: Bytes)
    ensures Padded(B64Url(raw)) == Base64(raw) && IsAscii(Base64(raw))
  {
    hide Letters, Sextets, AllDigits, IsAscii, StripPads;
    EncodingIsDigits(raw);
    LettersAreDigits(Sextets(raw));
    PadsEnd(PadCount(raw));
    var data := B64Url(raw);
    JoinIsAscii(data, Pads(PadCount(raw)));
    if |raw| % 3 == 0 { assert data + Pads(0) == data; }
  }

  lemma EncodingScans(raw: Bytes)
    ensures Scan(START, Base64(raw)) == Ok(raw)
  {
    hide Feed, Scan, Letters, Sextets, Pads;
    FeedSextets([], raw);
    assert [] + raw == raw;
    var s := Feed(START, Sextets(raw));
    ScanLetters(START, Sextets(raw), Pads(PadCount(raw)));
    ScanPads(s, PadCount(raw));
  }

  /** Decoding undoes encoding, for every byte string. */
  lemma DecodeUndoesEncode(raw: Bytes)
    ensures B64UrlDecode(B64Url(raw)) == Ok(raw)
  {
    hide Padded, B64Url, IsAscii, Base64, Scan;
    PaddingRestored(raw);
    EncodingScans(raw);
  }

  // ------------------------------------------------------------ which texts decode

  lemma {:induction false} FeedCounts(s: Scanner, sextets: seq<Sextet>)
    requires Sound(s)
    ensures Feed(s, sextets).quad == (s.quad + |sextets|) % 4
    ensures sextets != [] || s.pads == 0 ==> Feed(s, sextets).pads == 0
    decreases |sextets|
  {
    if sextets != [] {
      FeedCounts(Take(s, sextets[0]), sextets[1..]);
    }
  }

  function ReadAll(s: string): seq<Sextet>
    requires AllValues(s)
  {
    if s == [] then [] else [Value(s[0]).value] + ReadAll(s[1..])
  }

  predicate AllValues(s: string) {
    forall i | 0 <= i < |s| :: Value(s[i]).Some?
  }

  lemma {:induction false} ScanValues(s: Scanner, text: string, rest: string)
    requires Sound(s) && AllValues(text)
    ensures |ReadAll(text)| == |text| && Scan(s, text + rest) == Scan(Feed(s, ReadAll(text)), rest)
    decreases |text|
  {
    if text == [] {
      assert text + rest == rest;
    } else {
      assert (text + rest)[1..] == text[1..] + rest && text[0] != '=';
      hide Value, Take, Sound;
      ScanValues(Take(s, Value(text[0]).value), text[1..], rest);
    }
  }

  lemma ScanPadding(s: Scanner, n: nat)
    requires Sound(s) && s.pads == 0 && (s.quad + n) % 4 == 0 && n < 4
    ensures Scan(s, Pads(n)).Ok? <==> s.quad != 1
    ensures Scan(s, Pads(n)).Err? ==> Scan(s, Pads(n)) == Err(BinasciiError)
  {
    assert Pads(n) == if n == 0 then "" else if n == 1 then "=" else if n == 2 then "==" else "===";
    assert "=="[1..] == "=" && "==="[1..] == "==" && "="[1..] == "";
    if n == 2 { assert Scan(s, "==") == Scan(s.(pads := 1), "="); }
    if n == 3 { assert Scan(s, "===") == Scan(s, "==") == Scan(s, "=") == Scan(s, ""); }
  }

  /** A text of digits, of either alphabet, decodes unless its length leaves one
      digit over, and then the error is not the one the cookie code promises. */
  lemma DigitsDecodeUnlessOneOver(text: string)
    requires AllValues(text)
    ensures B64UrlDecode(text).Ok? <==> |text| % 4 != 1
    ensures B64UrlDecode(text).Err? ==> B64UrlDecode(text) == Err(BinasciiError)
  {
    ValuesAreAscii(text);
    var n := if |text| % 4 == 0 then 0 else 4 - |text| % 4;
    PadsEnd(n);
    assert Pads(0) == "" && text + "" == text;
    assert Padded(text) == text + Pads(n);
    assert IsAscii(text + Pads(n));
    hide Scan, Feed, Pads, Padded, AllValues, IsAscii;
    ScanValues(START, text, Pads(n));
    FeedCounts(START, ReadAll(text));
    ScanPadding(Feed(START, ReadAll(text)), n);
  }

  lemma ValuesAreAscii(text: string)
    requires AllValues(text)
    ensures IsAscii(text)
  {
  }

  // ------------------------------------------------------------------ the cookie

  lemma {:induction false} DotsJoin(a: string, b: string)
    requires AllDigits(a) && AllDigits(b)
    ensures Dots(a + "." + b) == 1 && BeforeDot(a + "." + b) == a && AfterDot(a + "." + b) == b
    decreases |a|
  {
    var s := a + "." + b;
    if a == [] {
      assert s[1..] == b;
      NoDots(b);
    } else {
      assert s[1..] == a[1..] + "." + b && s[0] == a[0];
      DotsJoin(a[1..], b);
    }
  }

  lemma {:induction false} NoDots(s: string)
    requires AllDigits(s)
    ensures Dots(s) == 0
  {
    if s != [] { NoDots(s[1..]); }
  }

  /** A cookie verifies, under the secret it was signed with, to its own payload. */
  lemma VerifyUndoesSign<P(!new)>(k: Codec<P>, payload: P, secret: string)
    requires LawfulJson(k)
    ensures VerifyCookie(k, SignCookie(k, payload, secret), secret) == Ok(payload)
  {
    var body := k.dumps(payload);
    var mac := k.hmac(secret, body);
    EncodingIsDigits(body);
    EncodingIsDigits(mac);
    DotsJoin(B64Url(body), B64Url(mac));
    DecodeUndoesEncode(body);
    DecodeUndoesEncode(mac);
    hide B64Url, B64UrlDecode, Dots, BeforeDot, AfterDot, AllDigits;
  }

  /** A signed cookie verifies under another secret exactly when the two secrets
      give the same signature to its body. */
  lemma OtherSecretIsRefused<P(!new)>(k: Codec<P>, payload: P, secret: string, other: string)
    requires LawfulJson(k)
    ensures var r := VerifyCookie(k, SignCookie(k, payload, secret), other);
            r == if k.hmac(secret, k.dumps(payload)) == k.hmac(other, k.dumps(payload)) then Ok(payload)
                else Err(BadSignature)
  {
    var body := k.dumps(payload);
    var mac := k.hmac(secret, body);
    EncodingIsDigits(body);
    EncodingIsDigits(mac);
    DotsJoin(B64Url(body), B64Url(mac));
    DecodeUndoesEncode(body);
    DecodeUndoesEncode(mac);
    hide B64Url, B64UrlDecode, Dots, BeforeDot, AfterDot, AllDigits;
  }

  // How many characters of either alphabet.
  function Digits(t: string): nat {
    if t == [] then 0
    else
      var n := |t| - 1;
      Digits(t[..n]) + (if Value(t[n]).Some? then 1 else 0)
  }

  // How many pads after the last of them.
  function PadsSince(t: string): nat {
    if t == [] then 0
    else
      var n := |t| - 1;
      if t[n] == '=' then 1 + PadsSince(t[..n]) else if Value(t[n]).Some? then 0 else PadsSince(t[..n])
  }

  // A quad that has at least two digits and is filled up by pads: whatever follows
  // is not read.
  predicate Completed(t: string) {
    Digits(t) % 4 >= 2 && Digits(t) % 4 + PadsSince(t) >= 4
  }

  predicate CompletedWithin(t: string, from: nat) {
    exists i | from < i <= |t| :: Completed(t[..i])
  }

  // What the registers say of the text read so far.
  ghost predicate HasRead(s: Scanner, seen: string) {
    s.quad == Digits(seen) % 4 && (if s.quad >= 2 then s.pads == PadsSince(seen) else s.pads == 0) && !Completed(seen)
  }

  lemma ReadOne(s: Scanner, seen: string, c: char)
    requires Sound(s) && HasRead(s, seen)
    ensures var seen' := seen + [c];
            if c == '=' then
              if s.quad >= 2 && s.quad + s.pads + 1 >= 4 then Completed(seen')
              else HasRead(if s.quad >= 2 then s.(pads := s.pads + 1) else s, seen')
            else if Value(c).Some? then HasRead(Take(s, Value(c).value), seen')
            else HasRead(s, seen')
  {
    hide Value;
    assert (seen + [c])[..|seen|] == seen;
    assert Value('=').None? by { PadIsNoDigit(); }
  }

  lemma PadIsNoDigit()
    ensures Value('=').None?
  {
  }

  lemma {:induction false} ScanSucceeds(s: Scanner, seen: string, text: string)
    requires Sound(s) && HasRead(s, seen)
    ensures Scan(s, text).Ok? <==> Digits(seen + text) % 4 == 0 || CompletedWithin(seen + text, |seen|)
    decreases |text|
  {
    hide Value, Take, Sound, Completed, Digits, HasRead;
    if text == [] {
      assert seen + text == seen;
      ReadAllOf(s, seen);
    } else {
      var c, whole := text[0], seen + text;
      ReadOne(s, seen, c);
      var seen' := seen + [c];
      assert whole[..|seen'|] == seen' && seen' + text[1..] == whole;
      if c == '=' && s.quad >= 2 && s.quad + s.pads + 1 >= 4 {
        assert CompletedWithin(whole, |seen|);
      } else {
        var s' := if c == '=' then (if s.quad >= 2 then s.(pads := s.pads + 1) else s)
                  else if Value(c).Some? then Take(s, Value(c).value) else s;
        assert HasRead(s', seen');
        OneScanned(s, text);
        ScanSucceeds(s', seen', text[1..]);
        NotYet(s', seen');
        assert CompletedWithin(whole, |seen|) <==> CompletedWithin(whole, |seen'|);
      }
    }
  }

  lemma NotYet(s: Scanner, seen: string)
    requires HasRead(s, seen)
    ensures !Completed(seen)
  {
  }

  lemma ReadAllOf(s: Scanner, seen: string)
    requires HasRead(s, seen)
    ensures s.quad == 0 <==> Digits(seen) % 4 == 0
  {
  }

  lemma OneScanned(s: Scanner, text: string)
    requires Sound(s) && text != [] && !(text[0] == '=' && s.quad >= 2 && s.quad + s.pads + 1 >= 4)
    ensures var c := text[0];
            var s' := if c == '=' then (if s.quad >= 2 then s.(pads := s.pads + 1) else s)
                      else if Value(c).Some? then Take(s, Value(c).value) else s;
            Sound(s') && Scan(s, text) == Scan(s', text[1..])
  {
    hide Value, Take;
  }

  // How many pads the verifier puts back.
  function Restored(data: string): nat {
    if |data| % 4 == 0 then 0 else 4 - |data| % 4
  }

  // Told from the characters: ASCII; and full quads of digits, or a quad of two or
  // three that pads complete, within the text or with those put back at its end.
  predicate Decodable(data: string) {
    && IsAscii(data)
    && (|| Digits(data) % 4 == 0 || CompletedWithin(data, 0)
        || (Digits(data) % 4 >= 2 && Digits(data) % 4 + PadsSince(data) + Restored(data) >= 4))
  }

  lemma {:induction false} PadsCount(data: string, n: nat)
    ensures Digits(data + Pads(n)) == Digits(data) && PadsSince(data + Pads(n)) == PadsSince(data) + n
    ensures |Pads(n)| == n
  {
    if n == 0 {
      assert data + Pads(0) == data;
    } else {
      PadsEnd(n);
      PadsCount(data, n - 1);
      PadIsNoDigit();
      assert (data + Pads(n))[..|data + Pads(n)| - 1] == data + Pads(n - 1);
    }
  }

  lemma PaddedIsRestored(data: string)
    ensures Padded(data) == data + Pads(Restored(data)) && (IsAscii(Padded(data)) <==> IsAscii(data))
  {
    PadsEnd(Restored(data));
    assert data + "" == data;
    if IsAscii(Padded(data)) {
      forall i | 0 <= i < |data| ensures data[i] < '\U{80}' { assert Padded(data)[i] == data[i]; }
    }
  }

  lemma CompletedByPads(data: string, n: nat)
    ensures CompletedWithin(data + Pads(n), 0) <==>
            CompletedWithin(data, 0) || (Digits(data) % 4 >= 2 && Digits(data) % 4 + PadsSince(data) + n >= 4)
  {
    hide Digits, PadsSince;
    var whole := data + Pads(n);
    PadsCount(data, n);
    forall i | 0 < i <= |data| ensures whole[..i] == data[..i] {}
    forall i | |data| < i <= |whole| ensures whole[..i] == data + Pads(i - |data|) {
      PadsPrefix(n, i - |data|);
    }
    if i :| 0 < i <= |data| && Completed(data[..i]) { assert Completed(whole[..i]); }
    if Digits(data) % 4 >= 2 && Digits(data) % 4 + PadsSince(data) + n >= 4 {
      assert whole[..|whole|] == whole && Completed(whole[..|whole|]);
      NothingToComplete();
    }
    if i :| 0 < i <= |whole| && Completed(whole[..i]) {
      if i > |data| { PadsCount(data, i - |data|); } else { assert Completed(data[..i]); }
    }
  }

  lemma NothingToComplete()
    ensures Digits("") == 0
  {
  }

  lemma {:induction false} PadsPrefix(n: nat, k: nat)
    requires k <= n
    ensures |Pads(n)| == n && Pads(n)[..k] == Pads(k)
  {
    PadsEnd(n);
    PadsEnd(k);
    if k < n {
      PadsPrefix(n - 1, k);
      PadsEnd(n - 1);
    }
  }

  /** Which texts decode, by their characters alone, and with which error the others
      end. */
  lemma DecodesIffDecodable(data: string)
    ensures B64UrlDecode(data).Ok? <==> Decodable(data)
    ensures B64UrlDecode(data).Err? ==>
              B64UrlDecode(data) == Err(if IsAscii(data) then BinasciiError else UnicodeEncodeError)
  {
    hide Scan, Pads, CompletedWithin, Padded, IsAscii, Digits, PadsSince;
    var n := Restored(data);
    PaddedIsRestored(data);
    PadsCount(data, n);
    CompletedByPads(data, n);
    NothingRead();
    assert [] + Padded(data) == Padded(data);
    ScanSucceeds(START, [], Padded(data));
    ScanErrors(START, Padded(data));
  }

  lemma NothingRead()
    ensures HasRead(START, [])
  {
  }

  /** A value can leave the verifier with an error other than the authentication
      error it documents: exactly when there is one dot and a segment is not one that
      decodes, by its characters. */
  lemma UndocumentedErrors<P(!new)>(k: Codec<P>, value: string, secret: string)
    ensures var r := VerifyCookie(k, value, secret);
            (r == Err(BinasciiError) || r == Err(UnicodeEncodeError)) <==>
            Dots(value) == 1 && !(Decodable(BeforeDot(value)) && Decodable(AfterDot(value)))
  {
    hide Dots, BeforeDot, AfterDot, Decodable, B64UrlDecode;
    DecodesIffDecodable(BeforeDot(value));
    DecodesIffDecodable(AfterDot(value));
    NoDotInNothing();
  }

  lemma NoDotInNothing()
    ensures Dots("") == 0
  {
  }

  lemma {:induction false} ScanErrors(s: Scanner, text: string)
    requires Sound(s)
    ensures Scan(s, text).Err? ==> Scan(s, text) == Err(BinasciiError)
    decreases |text|
  {
    if text != [] {
      ScanErrors(s, text[1..]);
      ScanErrors(s.(pads := s.pads + 1), text[1..]);
      if Value(text[0]).Some? { ScanErrors(Take(s, Value(text[0]).value), text[1..]); }
    }
  }

  // -------------------------------------------------------------- letter by letter

  // The number a letter of the url-safe alphabet stands for.
  predicate Stands(c: char, n: int) {
    || ('A' <= c <= 'Z' && n == c as int - 'A' as int)
    || ('a' <= c <= 'z' && n == 26 + (c as int - 'a' as int))
    || ('0' <= c <= '9' && n == 52 + (c as int - '0' as int))
    || (c == '-' && n == 62) || (c == '_' && n == 63)
  }

  lemma DigitStands(n: Sextet)
    ensures Stands(Digit(n), n)
  {
  }

  // Four letters and three bytes that stand for the same number.
  ghost predicate Quad(w: string, a: Byte, b: Byte, c: Byte) {
    && |w| == 4
    && exists p, q, r, s ::
         && Stands(w[0], p) && Stands(w[1], q) && Stands(w[2], r) && Stands(w[3], s)
         && 262144 * p + 4096 * q + 64 * r + s == 65536 * a + 256 * b + c
  }

  lemma QuadOf(a: Byte, b: Byte, c: Byte) returns (w: string)
    ensures w == [Digit(First(a)), Digit(Second(a, b)), Digit(Third(b, c)), Digit(Fourth(c))]
    ensures Quad(w, a, b, c)
  {
    hide Digit, Stands;
    var p, q, r, s := First(a), Second(a, b), Third(b, c), Fourth(c);
    w := [Digit(p), Digit(q), Digit(r), Digit(s)];
    DigitStands(p);
    DigitStands(q);
    DigitStands(r);
    DigitStands(s);
    BitsKept(a, b, c);
    assert Stands(w[0], p) && Stands(w[1], q) && Stands(w[2], r) && Stands(w[3], s);
  }

  lemma BitsKept(a: Byte, b: Byte, c: Byte)
    ensures 262144 * First(a) + 4096 * Second(a, b) + 64 * Third(b, c) + Fourth(c) == 65536 * a + 256 * b + c
  {
  }

  lemma LettersOfFour(p: Sextet, q: Sextet, r: Sextet, s: Sextet, more: seq<Sextet>)
    ensures Letters([p, q, r, s] + more) == [Digit(p), Digit(q), Digit(r), Digit(s)] + Letters(more)
    ensures Letters([p, q, r]) == [Digit(p), Digit(q), Digit(r)] && Letters([p, q]) == [Digit(p), Digit(q)]
  {
    hide Digit;
    LettersFrom(p, [q, r, s] + more);
    LettersFrom(q, [r, s] + more);
    LettersFrom(r, [s] + more);
    LettersFrom(s, more);
    LettersFrom(p, [q, r]);
    LettersFrom(q, [r]);
    LettersFrom(r, []);
    LettersFrom(p, [q]);
    LettersFrom(q, []);
    assert [p, q, r, s] + more == [p] + ([q, r, s] + more) && [q, r, s] + more == [q] + ([r, s] + more);
    assert [r, s] + more == [r] + ([s] + more) && [p, q, r] == [p] + [q, r] && [q, r] == [q] + [r];
    assert [r] + [] == [r] && [q] + [] == [q] && [p, q] == [p] + [q];
  }

  lemma LettersFrom(p: Sextet, more: seq<Sextet>)
    ensures Letters([p] + more) == [Digit(p)] + Letters(more) && Letters([]) == ""
  {
    assert ([p] + more)[1..] == more;
  }

  /** The encoding, three bytes at a time: four letters of the url-safe alphabet that
      stand for the same number; of what is left over, two or three of the four letters
      that it has with zeros after it. */
  lemma EncodingIsBase64(raw: Bytes)
    ensures |raw| == 0 ==> B64Url(raw) == ""
    ensures |raw| == 1 ==> exists w :: Quad(w, raw[0], 0, 0) && B64Url(raw) == w[..2]
    ensures |raw| == 2 ==> exists w :: Quad(w, raw[0], raw[1], 0) && B64Url(raw) == w[..3]
    ensures |raw| >= 3 ==> exists w :: Quad(w, raw[0], raw[1], raw[2]) && B64Url(raw) == w + B64Url(raw[3..])
  {
    hide Digit, First, Second, Third, Fourth, B64Url, AllDigits, Letters, Quad;
    EncodingIsDigits(raw);
    if raw == [] {
      LettersFrom(0, []);
    } else {
      var a, b, c := raw[0], if |raw| > 1 then raw[1] else 0, if |raw| > 2 then raw[2] else 0;
      var w := QuadOf(a, b, c);
      var more := if |raw| >= 3 then Sextets(raw[3..]) else [];
      LettersOfFour(First(a), Second(a, b), Third(b, c), Fourth(c), more);
      if |raw| >= 3 { EncodingIsDigits(raw[3..]); }
    }
  }

  // ------------------------------------------------------------ cookie by cookie

  /** A cookie is the encoded body, a dot, and the encoded signature of that body. */
  lemma CookieLayout<P>(k: Codec<P>, payload: P, secret: string)
    ensures var cookie := SignCookie(k, payload, secret);
            && Dots(cookie) == 1
            && B64UrlDecode(BeforeDot(cookie)) == Ok(k.dumps(payload))
            && B64UrlDecode(AfterDot(cookie)) == Ok(k.hmac(secret, k.dumps(payload)))
  {
    var body := k.dumps(payload);
    var mac := k.hmac(secret, body);
    EncodingIsDigits(body);
    EncodingIsDigits(mac);
    DotsJoin(B64Url(body), B64Url(mac));
    DecodeUndoesEncode(body);
    DecodeUndoesEncode(mac);
    hide B64Url, B64UrlDecode, Dots, BeforeDot, AfterDot, AllDigits;
  }

  lemma {:induction false} OneDotSplits(value: string)
    ensures Dots(value) == 1 ==> value == BeforeDot(value) + "." + AfterDot(value)
    ensures Dots(value) == 1 ==> '.' !in BeforeDot(value) && '.' !in AfterDot(value)
    ensures Dots(value) == 0 <==> '.' !in value
    decreases |value|
  {
    if value != [] {
      OneDotSplits(value[1..]);
      assert value == [value[0]] + value[1..];
      if value[0] == '.' && Dots(value) == 1 { assert value == "" + "." + value[1..]; }
    }
  }

  /** Which texts verify, and to what: two decodable segments around the only dot, the
      second the signature of the first, which is the JSON of the payload. */
  lemma VerifiesExactly<P(!new)>(k: Codec<P>, value: string, secret: string, payload: P)
    ensures VerifyCookie(k, value, secret) == Ok(payload) <==>
            exists a, b: string, body: Bytes ::
              && value == a + "." + b && '.' !in a && '.' !in b
              && B64UrlDecode(a) == Ok(body) && B64UrlDecode(b) == Ok(k.hmac(secret, body))
              && k.loads(body) == Some(payload)
    ensures VerifyCookie(k, value, secret) == Err(Malformed) <==> Dots(value) != 1
  {
    hide B64UrlDecode, Dots, BeforeDot, AfterDot;
    OneDotSplits(value);
    DecodesIffDecodable(BeforeDot(value));
    DecodesIffDecodable(AfterDot(value));
    NoDotInNothing();
    if VerifyCookie(k, value, secret) == Ok(payload) {
      var body := B64UrlDecode(BeforeDot(value)).value;
      assert value == BeforeDot(value) + "." + AfterDot(value);
    }
    if a, b: string, body: Bytes :|
      && value == a + "." + b && '.' !in a && '.' !in b
      && B64UrlDecode(a) == Ok(body) && B64UrlDecode(b) == Ok(k.hmac(secret, body))
      && k.loads(body) == Some(payload)
    {
      OneDot(a, b);
    }
  }

  lemma {:induction false} OneDot(a: string, b: string)
    requires '.' !in a && '.' !in b
    ensures var s := a + "." + b; Dots(s) == 1 && BeforeDot(s) == a && AfterDot(s) == b
    decreases |a|
  {
    var s := a + "." + b;
    if a == [] {
      assert s[1..] == b;
      OneDotSplits(b);
    } else {
      assert s[1..] == a[1..] + "." + b && s[0] == a[0];
      OneDot(a[1..], b);
    }
  }
}
