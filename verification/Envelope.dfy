/**
 The envelope of one encrypted value: a five-byte header, the wrapped data key, the
 nonce and the ciphertext. KMS and AES-GCM are functions with stated laws, and the
 random data key and nonce are parameters.
 */
module Envelope {
  import opened Wrappers
  import opened Octets

  type Context = map<string, string>

  const VERSION: Byte := 1
  const NONCE_LEN := 12
  const DEK_LEN := 32
  const HEADER_LEN := 5
  const TAG_LEN := 16

  datatype Problem =
    | EmptyPlaintext | KmsFailed | TooShort | UnsupportedVersion | BadNonceLength | Truncated | BadDekLength
    | InvalidTag
    | StructError // not a CryptoError: struct.pack refuses a length over 16 bits

  datatype Keys = Keys(
    wrap: (Bytes, Context) -> Option<Bytes>,
    unwrap: (Bytes, Context) -> Option<Bytes>,
    seal: (Bytes, Bytes, Bytes) -> Bytes,
    open: (Bytes, Bytes, Bytes) -> Option<Bytes>)
  {
    // What KMS wraps it unwraps under the same context and no other.
    ghost predicate LawfulKms() {
      forall dek: Bytes, c: Context :: wrap(dek, c).Some? ==>
        unwrap(wrap(dek, c).value, c) == Some(dek) && forall other: Context ::
            other != c ==> unwrap(wrap(dek, c).value, other).None?
    }

    // AES-GCM opens what it sealed, and appends its tag.
    ghost predicate LawfulAead() {
      forall dek: Bytes, nonce: Bytes, text: Bytes ::
        open(dek, nonce, seal(dek, nonce, text)) == Some(text) && |seal(dek, nonce, text)| == |text| + TAG_LEN
    }

    // What AES-GCM opens was sealed: the tag is checked.
    ghost predicate AuthenticAead() {
      forall dek: Bytes, nonce: Bytes, sealed: Bytes :: open(dek, nonce, sealed).Some? ==>
        sealed == seal(dek, nonce, open(dek, nonce, sealed).value)
    }
  }

  // -------------------------------------------------------------------- layout

  datatype Parts = Parts(wrapped: Bytes, nonce: Bytes, ciphertext: Bytes)

  // A big-endian unsigned short.
  function U16(n: nat): (r: Bytes)
    requires n < 65536
    ensures |r| == 2
  {
    [n / 256, n % 256]
  }

  function FromU16(b: Bytes): (n: nat)
    requires |b| == 2
    ensures n < 65536
  {
    var high: int, low: int := b[0], b[1];
    high * 256 + low
  }

  function Pack(p: Parts): Bytes
    requires |p.wrapped| < 65536 && |p.nonce| < 65536
  {
    [VERSION] + U16(|p.wrapped|) + U16(|p.nonce|) + p.wrapped + p.nonce + p.ciphertext
  }

  // b[from : from + len], which stops at the end of the bytes.
  function Slice(b: Bytes, from: nat, len: nat): Bytes {
    var lo := if from < |b| then from else |b|;
    var hi := if from + len < |b| then from + len else |b|;
    b[lo..hi]
  }

  function Parse(b: Bytes): Result<Parts, Problem> {
    if |b| < HEADER_LEN then Err(TooShort)
    else if b[0] != VERSION then Err(UnsupportedVersion)
    else
      var wrappedLen, nonceLen := FromU16(b[1..3]), FromU16(b[3..5]);
      if nonceLen != NONCE_LEN then Err(BadNonceLength)
      else
        var wrapped := Slice(b, HEADER_LEN, wrappedLen);
        var nonce := Slice(b, HEADER_LEN + wrappedLen, nonceLen);
        var rest := HEADER_LEN + wrappedLen + nonceLen;
        var ciphertext := if rest < |b| then b[rest..] else [];
        if |wrapped| != wrappedLen || |nonce| != nonceLen || ciphertext == [] then Err(Truncated)
        else Ok(Parts(wrapped, nonce, ciphertext))
  }

  // ---------------------------------------------------------------- the cipher

  function Encrypt(k: Keys, plaintext: Bytes, c: Context, dek: Bytes, nonce: Bytes): Result<Bytes, Problem>
    requires |dek| == DEK_LEN && |nonce| == NONCE_LEN
  {
    if plaintext == [] then Err(EmptyPlaintext)
    else
      var ciphertext := k.seal(dek, nonce, plaintext);
      match k.wrap(dek, c)
      case None => Err(KmsFailed)
      case Some(wrapped) =>
        if |wrapped| >= 65536 then Err(StructError) else Ok(Pack(Parts(wrapped, nonce, ciphertext)))
  }

  function Decrypt(k: Keys, b: Bytes, c: Context): Result<Bytes, Problem> {
    match Parse(b)
    case Err(e) => Err(e)
    case Ok(p) =>
      match k.unwrap(p.wrapped, c)
      case None => Err(KmsFailed)
      case Some(dek) =>
        if |dek| != DEK_LEN then Err(BadDekLength)
        else
          match k.open(dek, p.nonce, p.ciphertext)
          case None => Err(InvalidTag)
          case Some(text) => Ok(text)
  }

  // --------------------------------------------------------------------- laws

  predicate Fits(p: Parts) {
    |p.wrapped| < 65536 && |p.nonce| == NONCE_LEN && p.ciphertext != []
  }

  lemma ShortRoundTrip(n: nat)
    requires n < 65536
    ensures FromU16(U16(n)) == n
  {
  }

  lemma ShortRoundTripBack(b: Bytes)
    requires |b| == 2
    ensures U16(FromU16(b)) == b
  {
  }

  lemma PackedLayout(p: Parts)
    requires |p.wrapped| < 65536 && |p.nonce| == NONCE_LEN
    ensures var b, w := Pack(p), |p.wrapped|;
            && |b| == HEADER_LEN + w + NONCE_LEN + |p.ciphertext|
            && b[0] == VERSION && b[1..3] == U16(w) && b[3..5] == U16(NONCE_LEN)
            && b[5..5 + w] == p.wrapped && b[5 + w..17 + w] == p.nonce && b[17 + w..] == p.ciphertext
  {
    hide U16;
  }

  /** Parsing undoes packing. */
  lemma ParsePacked(p: Parts)
    requires Fits(p)
    ensures Parse(Pack(p)) == Ok(p)
  {
    PackedLayout(p);
    ShortRoundTrip(|p.wrapped|);
    ShortRoundTrip(NONCE_LEN);
    hide Pack, U16, FromU16;
  }

  /** Packing undoes parsing: an accepted blob is the concatenation of its parts. */
  lemma PackParsed(b: Bytes)
    requires Parse(b).Ok?
    ensures Fits(Parse(b).value) && Pack(Parse(b).value) == b
  {
    var p := Parse(b).value;
    ShortRoundTripBack(b[1..3]);
    ShortRoundTripBack(b[3..5]);
    var w := FromU16(b[1..3]);
    hide U16, FromU16;
    assert p.wrapped == b[5..5 + w] && p.nonce == b[5 + w..17 + w] && p.ciphertext == b[17 + w..];
    assert b == [b[0]] + b[1..3] + b[3..5] + b[5..5 + w] + b[5 + w..17 + w] + b[17 + w..];
  }

  /** Exactly the packed blobs parse. */
  lemma ParsesIffPacked(b: Bytes)
    ensures Parse(b).Ok? <==> exists p | Fits(p) :: Pack(p) == b
  {
    if Parse(b).Ok? { PackParsed(b); }
    if p :| Fits(p) && Pack(p) == b { ParsePacked(p); }
  }

  /** A cut blob parses exactly when at least one ciphertext byte is left. */
  lemma CutsAreRejected(p: Parts, n: nat)
    requires Fits(p) && n <= |Pack(p)|
    ensures Parse(Pack(p)[..n]).Ok? <==> n > HEADER_LEN + |p.wrapped| + NONCE_LEN
  {
    PackedLayout(p);
    ShortRoundTrip(|p.wrapped|);
    ShortRoundTrip(NONCE_LEN);
    var b, cut := Pack(p), Pack(p)[..n];
    hide Pack, U16, FromU16;
    if n >= HEADER_LEN { assert cut[1..3] == b[1..3] && cut[3..5] == b[3..5]; }
  }

  /** Encryption succeeds exactly for non-empty plaintexts whose key KMS wraps in
      under 65536 bytes, and then decryption under the same context gives the
      plaintext back. */
  lemma DecryptUndoesEncrypt(k: Keys, plaintext: Bytes, c: Context, dek: Bytes, nonce: Bytes)
    requires |dek| == DEK_LEN && |nonce| == NONCE_LEN && k.LawfulKms() && k.LawfulAead()
    ensures var r := Encrypt(k, plaintext, c, dek, nonce);
            && (r.Ok? <==> plaintext != [] && k.wrap(dek, c).Some? && |k.wrap(dek, c).value| < 65536)
            && (r.Ok? ==> Decrypt(k, r.value, c) == Ok(plaintext))
  {
    hide Pack, Parse;
    if plaintext != [] && k.wrap(dek, c).Some? && |k.wrap(dek, c).value| < 65536 {
      var ciphertext := k.seal(dek, nonce, plaintext);
      assert |ciphertext| == |plaintext| + TAG_LEN;
      ParsePacked(Parts(k.wrap(dek, c).value, nonce, ciphertext));
    }
  }

  /** A blob opens under its own context and under no other: moved to another row,
      and so read under another context, it is refused by KMS. */
  lemma ContextDecides(k: Keys, plaintext: Bytes, c: Context, other: Context, dek: Bytes, nonce: Bytes)
    requires |dek| == DEK_LEN && |nonce| == NONCE_LEN && k.LawfulKms() && k.LawfulAead()
    requires Encrypt(k, plaintext, c, dek, nonce).Ok?
    ensures Decrypt(k, Encrypt(k, plaintext, c, dek, nonce).value, other) ==
            if other == c then Ok(plaintext) else Err(KmsFailed)
  {
    hide Pack, Parse;
    var ciphertext := k.seal(dek, nonce, plaintext);
    assert |ciphertext| == |plaintext| + TAG_LEN;
    ParsePacked(Parts(k.wrap(dek, c).value, nonce, ciphertext));
  }

  // The parts seal this text under the key KMS gives back for them.
  predicate Seals(k: Keys, p: Parts, c: Context, text: Bytes) {
    && Fits(p) && k.unwrap(p.wrapped, c).Some? && |k.unwrap(p.wrapped, c).value| == DEK_LEN
    && p.ciphertext == k.seal(k.unwrap(p.wrapped, c).value, p.nonce, text)
  }

  /** Which blobs decrypt, and to what: exactly the packed ones whose ciphertext is the
      sealed text under the key KMS unwraps for the context. A blob changed anywhere
      decrypts only if it is another such blob. */
  lemma DecryptsExactlyTheSealed(k: Keys, b: Bytes, c: Context, text: Bytes)
    requires k.LawfulAead() && k.AuthenticAead()
    ensures Decrypt(k, b, c) == Ok(text) <==> exists p :: Seals(k, p, c, text) && b == Pack(p)
  {
    hide Pack, Parse;
    if Decrypt(k, b, c) == Ok(text) {
      PackParsed(b);
      var p := Parse(b).value;
      var dek := k.unwrap(p.wrapped, c).value;
      assert k.open(dek, p.nonce, p.ciphertext) == Some(text);
      assert Seals(k, p, c, text);
    }
    if p :| Seals(k, p, c, text) && b == Pack(p) {
      ParsePacked(p);
    }
  }

  // ------------------------------------------------------------- byte by byte

  /** The layout of a blob: the version byte, the two lengths high byte first, the
      wrapped key, the twelve bytes of the nonce, the ciphertext. */
  lemma BlobLayout(k: Keys, plaintext: Bytes, c: Context, dek: Bytes, nonce: Bytes)
    requires |dek| == DEK_LEN && |nonce| == NONCE_LEN
    ensures |dek| == 32 && |nonce| == 12
    ensures Encrypt(k, plaintext, c, dek, nonce) ==
            if plaintext == [] then Err(EmptyPlaintext)
            else match k.wrap(dek, c)
                 case None => Err(KmsFailed)
                 case Some(w) =>
                   if |w| >= 65536 then Err(StructError)
                   else Ok([1, |w| / 256, |w| % 256, 0, 12] + w + nonce + k.seal(dek, nonce, plaintext))
  {
    if plaintext != [] && k.wrap(dek, c).Some? && |k.wrap(dek, c).value| < 65536 {
      var w := k.wrap(dek, c).value;
      assert [VERSION] + U16(|w|) + U16(|nonce|) == [1, |w| / 256, |w| % 256, 0, 12];
    }
  }

  // What the header says of the wrapped key's length.
  function Announced(b: Bytes): nat
    requires |b| >= 5
  {
    var high: int, low: int := b[1], b[2];
    256 * high + low
  }

  /** Which error a blob ends in, first things first. */
  lemma DecryptErrors(k: Keys, b: Bytes, c: Context)
    ensures var r := Decrypt(k, b, c);
            if |b| < 5 then r == Err(TooShort)
            else if b[0] != 1 then r == Err(UnsupportedVersion)
            else if b[3] != 0 || b[4] != 12 then r == Err(BadNonceLength)
            else if |b| <= 17 + Announced(b) then r == Err(Truncated)
            else
              var n := Announced(b);
              match k.unwrap(b[5..5 + n], c)
              case None => r == Err(KmsFailed)
              case Some(dek) =>
                if |dek| != 32 then r == Err(BadDekLength)
                else
                  match k.open(dek, b[5 + n..17 + n], b[17 + n..])
                  case None => r == Err(InvalidTag)
                  case Some(text) => r == Ok(text)
  {
    if |b| >= 5 {
      assert b[1..3][0] == b[1] && b[1..3][1] == b[2] && b[3..5][0] == b[3] && b[3..5][1] == b[4];
      assert FromU16(b[1..3]) == Announced(b);
    }
  }
}
