/**
 * `encrypt_password` and `to_base64_str` (src/fusion_solar_py/encryption.py): the framing
 * of the RSA-encrypted password. The percent-encoded password is cut into chunks of 270
 * characters, each chunk is encrypted, and the base64 texts of the ciphertexts are joined
 * with "00000001" and followed by the key's version string.
 *
 * Loading the PEM public key and RSA-OAEP encryption are the parameters `loadKey` and
 * `encrypt`: partial functions the model leaves opaque (None is the exception they raise).
 */
module Encryption {
  import opened Wrappers
  import opened Values
  import opened Encoding

  const ChunkSize: nat := 270
  const Separator: string := "00000001"
  const InvalidKeyDataMsg: string := "Invalid 'key_data' parameter passed."
  const LoadKeyFailedMsg: string := "Failed to load public key for encryption."
  const EncryptFailedMsg: string := "Failed to encrypt password."

  function Min(a: nat, b: nat): nat {
    if a <= b then a else b
  }

  // ---------------------------------------------------------------- chunking

  /** Python's `s[lo:hi]` for 0 <= lo <= hi: both bounds are clamped to the length. */
  function Slice(s: string, lo: nat, hi: nat): (r: string)
    requires lo <= hi
    ensures |r| <= hi - lo
    ensures hi <= |s| ==> r == s[lo..hi]
  {
    s[Min(lo, |s|)..Min(hi, |s|)]
  }

  /** The i-th chunk, `value_encode[i * 270:(i + 1) * 270]`. */
  function Chunk(s: string, i: nat): string {
    Slice(s, i * ChunkSize, (i + 1) * ChunkSize)
  }

  /** The chunks the loop visits: `len(s) // 270 + 1` of them. */
  function Chunks(s: string): seq<string> {
    seq(|s| / ChunkSize + 1, i requires 0 <= i => Chunk(s, i))
  }

  /** The concatenation of a sequence of strings. */
  function Concat(parts: seq<string>): string {
    if parts == [] then "" else Concat(parts[..|parts| - 1]) + parts[|parts| - 1]
  }

  /**
   * There are `len // 270 + 1` chunks; all but the last hold exactly 270 characters and the
   * last holds the remainder, so it is empty exactly when the length is a multiple of 270.
   */
  lemma ChunksShape(s: string)
    ensures |Chunks(s)| == |s| / ChunkSize + 1
    ensures forall i :: 0 <= i < |Chunks(s)| ==> |Chunks(s)[i]| <= ChunkSize
    ensures forall i :: 0 <= i < |Chunks(s)| - 1 ==> |Chunks(s)[i]| == ChunkSize
    ensures |Chunks(s)[|Chunks(s)| - 1]| == |s| % ChunkSize
    ensures Chunks(s)[|Chunks(s)| - 1] == "" <==> |s| % ChunkSize == 0
  {
    var cs := Chunks(s);
    var n := |s| / ChunkSize;
    forall i | 0 <= i < |cs| - 1
      ensures |cs[i]| == ChunkSize
    {
      assert (i + 1) * ChunkSize <= n * ChunkSize <= |s|;
    }
    assert n * ChunkSize <= |s| < (n + 1) * ChunkSize;
  }

  /** An empty password, or one whose encoding is a multiple of 270 long, still gets a final empty chunk. */
  lemma EmptyEncodingIsOneEmptyChunk()
    ensures Chunks("") == [""]
  {
    assert |Chunks("")| == 1;
  }

  lemma {:induction false} ConcatChunksPrefix(s: string, k: nat)
    requires k <= |Chunks(s)|
    ensures Concat(Chunks(s)[..k]) == s[..Min(k * ChunkSize, |s|)]
  {
    if k > 0 {
      var cs := Chunks(s);
      assert cs[..k][..k - 1] == cs[..k - 1];
      ConcatChunksPrefix(s, k - 1);
      var lo, hi := Min((k - 1) * ChunkSize, |s|), Min(k * ChunkSize, |s|);
      assert cs[k - 1] == s[lo..hi];
      assert s[..lo] + s[lo..hi] == s[..hi];
    }
  }

  /** The chunks concatenate back to the encoded password. */
  lemma ChunksConcat(s: string)
    ensures Concat(Chunks(s)) == s
  {
    var cs := Chunks(s);
    ConcatChunksPrefix(s, |cs|);
    assert cs[..|cs|] == cs;
    assert |s| < |cs| * ChunkSize;
  }

  /** The quoted password is ASCII, so each chunk encodes to one byte per character: at most 270 bytes. */
  lemma ChunkBytes(password: string, i: nat)
    requires i < |Chunks(Quote(password))|
    ensures var c := Chunks(Quote(password))[i];
      |Utf8Of(c)| == |c| <= ChunkSize
      && forall k :: 0 <= k < |c| ==> Utf8Of(c)[k] == c[k] as int
  {
    var q := Quote(password);
    QuoteRoundTrip(password);
    var c := Chunks(q)[i];
    assert IsAscii(c) by {
      var lo := Min(i * ChunkSize, |q|);
      forall k | 0 <= k < |c|
        ensures c[k] as int < 128
      {
        assert c[k] == q[lo + k];
      }
    }
  }

  // ---------------------------------------------------------------- joining

  /**
   * The loop's accumulation: each base64 text is appended, preceded by "00000001" unless
   * nothing has been accumulated yet.
   */
  function Joined(parts: seq<string>): string {
    if parts == [] then ""
    else
      var acc := Joined(parts[..|parts| - 1]);
      (if acc != "" then acc + Separator else acc) + parts[|parts| - 1]
  }

  /** Python's `"00000001".join(parts)`: the separator between each two neighbouring parts. */
  function JoinWith(parts: seq<string>): string {
    if parts == [] then ""
    else if |parts| == 1 then parts[0]
    else JoinWith(parts[..|parts| - 1]) + Separator + parts[|parts| - 1]
  }

  /** The number of empty parts the sequence starts with. */
  function LeadingEmpty(parts: seq<string>): (n: nat)
    ensures n <= |parts|
    ensures forall i :: 0 <= i < n ==> parts[i] == ""
    ensures n < |parts| ==> parts[n] != ""
  {
    if parts == [] || parts[0] != "" then 0 else 1 + LeadingEmpty(parts[1..])
  }

  lemma {:induction false} LeadingEmptySnoc(parts: seq<string>, p: string)
    ensures LeadingEmpty(parts) < |parts| ==> LeadingEmpty(parts + [p]) == LeadingEmpty(parts)
    ensures LeadingEmpty(parts) == |parts| ==>
      LeadingEmpty(parts + [p]) == |parts| + (if p == "" then 1 else 0)
  {
    if parts != [] {
      assert (parts + [p])[1..] == parts[1..] + [p];
      LeadingEmptySnoc(parts[1..], p);
    }
  }

  lemma {:induction false} JoinWithNonEmpty(parts: seq<string>)
    requires parts != [] && parts[0] != ""
    ensures JoinWith(parts) != ""
  {
    if |parts| > 1 {
      JoinWithNonEmpty(parts[..|parts| - 1]);
    }
  }

  /**
   * The accumulation is `"00000001".join` of the parts after the leading empty ones: a
   * separator is only left out while nothing has been accumulated.
   */
  lemma {:induction false} JoinedIsJoin(parts: seq<string>)
    ensures Joined(parts) == JoinWith(parts[LeadingEmpty(parts)..])
  {
    if parts != [] {
      var init, last := parts[..|parts| - 1], parts[|parts| - 1];
      assert parts == init + [last];
      JoinedIsJoin(init);
      LeadingEmptySnoc(init, last);
      var k := LeadingEmpty(init);
      if k == |init| {
        assert init[k..] == [];
        if last == "" {
          assert parts[|parts|..] == [];
        } else {
          assert parts[k..] == [last];
        }
      } else {
        assert parts[k..][..|parts[k..]| - 1] == init[k..];
        JoinWithNonEmpty(init[k..]);
      }
    }
  }

  /** With no empty part, the accumulation is exactly `"00000001".join(parts)`. */
  lemma JoinedNonEmptyParts(parts: seq<string>)
    requires forall i :: 0 <= i < |parts| ==> parts[i] != ""
    ensures Joined(parts) == JoinWith(parts)
  {
    JoinedIsJoin(parts);
    assert parts[0..] == parts;
  }

  /**
   * Cutting a text back into parts of length `len`, from the end: the last `len` characters
   * are a part, the eight before them a separator, and what precedes is cut the same way.
   */
  function Split(s: string, len: nat): seq<string>
    decreases |s|
  {
    if |s| < len + |Separator| then [s]
    else Split(s[..|s| - len - |Separator|], len) + [s[|s| - len..]]
  }

  /** Parts of one common length are recovered from their join, whatever characters they hold. */
  lemma {:induction false} SplitJoin(parts: seq<string>, len: nat)
    requires parts != []
    requires forall i :: 0 <= i < |parts| ==> |parts[i]| == len
    ensures |JoinWith(parts)| >= len
    ensures Split(JoinWith(parts), len) == parts
  {
    if |parts| > 1 {
      var init := parts[..|parts| - 1];
      var j := JoinWith(init);
      SplitJoin(init, len);
      var whole := j + Separator + parts[|parts| - 1];
      assert whole[..|whole| - len - |Separator|] == j;
      assert whole[|whole| - len..] == parts[|parts| - 1];
      assert parts == init + [parts[|parts| - 1]];
    }
  }

  // ---------------------------------------------------------------- encryption

  /** `to_base64_str` applied to every ciphertext. */
  function Base64s(cs: seq<seq<byte>>): (r: seq<string>)
    ensures |r| == |cs|
    ensures forall i :: 0 <= i < |cs| ==> r[i] == Base64(cs[i])
  {
    seq(|cs|, i requires 0 <= i < |cs| => Base64(cs[i]))
  }

  /**
   * The ciphertexts of the chunks, in chunk order; the first chunk whose encryption raises
   * ends the loop, so either every chunk is encrypted or there is no result at all.
   */
  function Ciphers<K>(key: K, chunks: seq<string>, encrypt: (K, seq<byte>) -> Option<seq<byte>>)
    : (r: Option<seq<seq<byte>>>)
    ensures r.Some? <==> forall i :: 0 <= i < |chunks| ==> encrypt(key, Utf8Of(chunks[i])).Some?
    ensures r.Some? ==> (|r.value| == |chunks|
      && forall i :: 0 <= i < |chunks| ==> r.value[i] == encrypt(key, Utf8Of(chunks[i])).value)
  {
    if chunks == [] then Some([])
    else
      match Ciphers(key, chunks[..|chunks| - 1], encrypt)
      case None => None
      case Some(cs) =>
        match encrypt(key, Utf8Of(chunks[|chunks| - 1]))
        case None => None
        case Some(c) => Some(cs + [c])
  }

  /** The base64 texts of the chunks' ciphertexts, in chunk order. */
  function Texts<K>(key: K, chunks: seq<string>, encrypt: (K, seq<byte>) -> Option<seq<byte>>): (r: seq<string>)
    requires forall i :: 0 <= i < |chunks| ==> encrypt(key, Utf8Of(chunks[i])).Some?
    ensures |r| == |chunks|
    ensures forall i :: 0 <= i < |chunks| ==> r[i] == Base64(encrypt(key, Utf8Of(chunks[i])).value)
  {
    seq(|chunks|, i requires 0 <= i < |chunks| => Base64(encrypt(key, Utf8Of(chunks[i])).value))
  }

  /** `key_data['pubKey'].encode()` handed to the PEM loader; a pubKey that is not a string
      has no encode() and raises like a failed load. */
  function PublicKey<K>(pubKey: Json, loadKey: seq<byte> -> Option<K>): Option<K> {
    if pubKey.JStr? then loadKey(Utf8Of(pubKey.s)) else None
  }

  /** `encrypt_password(key_data, password)`. */
  function EncryptPasswordSpec<K>(keyData: map<string, Json>, password: string,
                                  loadKey: seq<byte> -> Option<K>,
                                  encrypt: (K, seq<byte>) -> Option<seq<byte>>): Result<string, Error>
  {
    if "enableEncrypt" !in keyData || "pubKey" !in keyData || "version" !in keyData then
      Err(FusionSolarError(InvalidKeyDataMsg))
    else if !Truthy(keyData["enableEncrypt"]) then
      Ok(password)
    else
      match PublicKey(keyData["pubKey"], loadKey)
      case None => Err(FusionSolarError(LoadKeyFailedMsg))
      case Some(key) =>
        match Ciphers(key, Chunks(Quote(password)), encrypt)
        case None => Err(FusionSolarError(EncryptFailedMsg))
        case Some(cs) =>
          // `str + version` raises TypeError, caught as a failed encryption, unless version is a string
          if keyData["version"].JStr? then Ok(Joined(Base64s(cs)) + keyData["version"].s)
          else Err(FusionSolarError(EncryptFailedMsg))
  }

  /** One more encrypted chunk: its ciphertext is appended. */
  lemma CiphersSnoc<K>(key: K, chunks: seq<string>, i: nat, cs: seq<seq<byte>>, c: seq<byte>,
                       encrypt: (K, seq<byte>) -> Option<seq<byte>>)
    requires i < |chunks| && Ciphers(key, chunks[..i], encrypt) == Some(cs)
    requires encrypt(key, Utf8Of(chunks[i])) == Some(c)
    ensures Ciphers(key, chunks[..i + 1], encrypt) == Some(cs + [c])
  {
    assert chunks[..i + 1][..i] == chunks[..i];
  }

  /** One more part accumulated: the separator if something precedes it, then the part. */
  lemma JoinedAppend(parts: seq<string>, p: string)
    ensures var acc := Joined(parts);
      Joined(parts + [p]) == (if acc != "" then acc + Separator else acc) + p
  {
    assert (parts + [p])[..|parts|] == parts;
  }

  lemma Base64sSnoc(cs: seq<seq<byte>>, c: seq<byte>)
    ensures Base64s(cs + [c]) == Base64s(cs) + [Base64(c)]
  {
  }

  /** One more ciphertext accumulated: the separator if something precedes it, then its base64 text. */
  lemma JoinedSnoc(cs: seq<seq<byte>>, c: seq<byte>)
    ensures var acc := Joined(Base64s(cs));
      Joined(Base64s(cs + [c])) == (if acc != "" then acc + Separator else acc) + Base64(c)
  {
    Base64sSnoc(cs, c);
    JoinedAppend(Base64s(cs), Base64(c));
  }

  /**
   * The loop of `encrypt_password`: encrypt chunk after chunk and accumulate the base64
   * texts; None as soon as one encryption fails.
   */
  method EncryptChunks<K>(key: K, encoded: string, encrypt: (K, seq<byte>) -> Option<seq<byte>>)
    returns (r: Option<string>)
    ensures r == match Ciphers(key, Chunks(encoded), encrypt)
      case None => None
      case Some(cs) => Some(Joined(Base64s(cs)))
  {
    var value := "";
    ghost var cs: seq<seq<byte>> := [];
    ghost var chunks := Chunks(encoded);
    for i := 0 to |encoded| / ChunkSize + 1
      invariant Ciphers(key, chunks[..i], encrypt) == Some(cs)
      invariant value == Joined(Base64s(cs))
    {
      var current := Slice(encoded, i * ChunkSize, (i + 1) * ChunkSize);
      assert current == chunks[i];
      var c := encrypt(key, Utf8Of(current));
      if c.None? {
        return None;
      }
      if value != "" {
        value := value + Separator;
      }
      value := value + Base64(c.value);
      CiphersSnoc(key, chunks, i, cs, c.value, encrypt);
      JoinedSnoc(cs, c.value);
      cs := cs + [c.value];
    }
    assert chunks[..|chunks|] == chunks;
    r := Some(value);
  }

  /** `encrypt_password(key_data, password)`. */
  method EncryptPassword<K>(keyData: map<string, Json>, password: string,
                            loadKey: seq<byte> -> Option<K>,
                            encrypt: (K, seq<byte>) -> Option<seq<byte>>)
    returns (r: Result<string, Error>)
    ensures r == EncryptPasswordSpec(keyData, password, loadKey, encrypt)
  {
    if "enableEncrypt" !in keyData || "pubKey" !in keyData || "version" !in keyData {
      return Err(FusionSolarError(InvalidKeyDataMsg));
    }
    if !Truthy(keyData["enableEncrypt"]) {
      return Ok(password);
    }
    var loaded := PublicKey(keyData["pubKey"], loadKey);
    if loaded.None? {
      return Err(FusionSolarError(LoadKeyFailedMsg));
    }
    var value := EncryptChunks(loaded.value, Quote(password), encrypt);
    if value.None? || !keyData["version"].JStr? {
      return Err(FusionSolarError(EncryptFailedMsg));
    }
    r := Ok(value.value + keyData["version"].s);
  }

  // ---------------------------------------------------------------- properties

  /** A key_data lacking "enableEncrypt", "pubKey" or "version" is refused before anything else. */
  lemma MissingKeyDataRefused<K>(keyData: map<string, Json>, password: string,
                                 loadKey: seq<byte> -> Option<K>,
                                 encrypt: (K, seq<byte>) -> Option<seq<byte>>)
    requires "enableEncrypt" !in keyData || "pubKey" !in keyData || "version" !in keyData
    ensures EncryptPasswordSpec(keyData, password, loadKey, encrypt) == Err(FusionSolarError(InvalidKeyDataMsg))
  {
  }

  /** With a falsy enableEncrypt the password comes back as it is, and no key is loaded. */
  lemma DisabledEncryptionPassesThrough<K>(keyData: map<string, Json>, password: string,
                                           loadKey: seq<byte> -> Option<K>,
                                           encrypt: (K, seq<byte>) -> Option<seq<byte>>)
    requires "enableEncrypt" in keyData && "pubKey" in keyData && "version" in keyData
    requires !Truthy(keyData["enableEncrypt"])
    ensures EncryptPasswordSpec(keyData, password, loadKey, encrypt) == Ok(password)
  {
  }

  /**
   * With encryption enabled, the call fails exactly when the key does not load, some chunk's
   * encryption fails, or the version is not a string; a failure carries the message of the
   * step that failed and never a partly built ciphertext.
   */
  lemma EnabledEncryptionOutcome<K>(keyData: map<string, Json>, password: string,
                                    loadKey: seq<byte> -> Option<K>,
                                    encrypt: (K, seq<byte>) -> Option<seq<byte>>)
    requires "enableEncrypt" in keyData && "pubKey" in keyData && "version" in keyData
    requires Truthy(keyData["enableEncrypt"])
    ensures var r := EncryptPasswordSpec(keyData, password, loadKey, encrypt);
      && (PublicKey(keyData["pubKey"], loadKey).None? ==> r == Err(FusionSolarError(LoadKeyFailedMsg)))
      && (PublicKey(keyData["pubKey"], loadKey).Some? ==>
            var key := PublicKey(keyData["pubKey"], loadKey).value;
            var chunks := Chunks(Quote(password));
            && (r.Ok? <==> keyData["version"].JStr?
                           && forall i :: 0 <= i < |chunks| ==> encrypt(key, Utf8Of(chunks[i])).Some?)
            && (r.Err? ==> r == Err(FusionSolarError(EncryptFailedMsg))))
  {
  }

  /**
   * A successful encryption is the base64 texts of the chunks' ciphertexts, in chunk order,
   * joined by "00000001", followed by the version; there is one text per chunk.
   */
  lemma EncryptedPasswordLayout<K>(keyData: map<string, Json>, password: string,
                                   loadKey: seq<byte> -> Option<K>,
                                   encrypt: (K, seq<byte>) -> Option<seq<byte>>)
    requires "enableEncrypt" in keyData && "pubKey" in keyData && "version" in keyData
    requires Truthy(keyData["enableEncrypt"])
    requires EncryptPasswordSpec(keyData, password, loadKey, encrypt).Ok?
    ensures var key := PublicKey(keyData["pubKey"], loadKey).value;
      var chunks := Chunks(Quote(password));
      var texts := Texts(key, chunks, encrypt);
      && |texts| == |Quote(password)| / ChunkSize + 1
      && EncryptPasswordSpec(keyData, password, loadKey, encrypt).value
           == JoinWith(texts[LeadingEmpty(texts)..]) + keyData["version"].s
  {
    var key := PublicKey(keyData["pubKey"], loadKey).value;
    var chunks := Chunks(Quote(password));
    var cs := Ciphers(key, chunks, encrypt).value;
    var texts := Texts(key, chunks, encrypt);
    assert Base64s(cs) == texts;
    JoinedIsJoin(texts);
  }

  /** Ciphertexts are never empty in practice; then the result is exactly the join. */
  lemma EncryptedPasswordIsJoin<K>(keyData: map<string, Json>, password: string,
                                   loadKey: seq<byte> -> Option<K>,
                                   encrypt: (K, seq<byte>) -> Option<seq<byte>>)
    requires "enableEncrypt" in keyData && "pubKey" in keyData && "version" in keyData
    requires Truthy(keyData["enableEncrypt"])
    requires EncryptPasswordSpec(keyData, password, loadKey, encrypt).Ok?
    requires forall bs :: encrypt(PublicKey(keyData["pubKey"], loadKey).value, bs).Some? ==>
      encrypt(PublicKey(keyData["pubKey"], loadKey).value, bs).value != []
    ensures var key := PublicKey(keyData["pubKey"], loadKey).value;
      var chunks := Chunks(Quote(password));
      EncryptPasswordSpec(keyData, password, loadKey, encrypt).value
        == JoinWith(Texts(key, chunks, encrypt))
           + keyData["version"].s
  {
    var key := PublicKey(keyData["pubKey"], loadKey).value;
    var chunks := Chunks(Quote(password));
    var texts := Texts(key, chunks, encrypt);
    EncryptedPasswordLayout(keyData, password, loadKey, encrypt);
    assert LeadingEmpty(texts) == 0 by {
      assert |texts[0]| > 0;
    }
    assert texts[0..] == texts;
  }

  /** An empty password is still encrypted: one empty chunk, one ciphertext, then the version. */
  lemma EmptyPasswordEncryptsOneChunk<K>(keyData: map<string, Json>,
                                         loadKey: seq<byte> -> Option<K>,
                                         encrypt: (K, seq<byte>) -> Option<seq<byte>>)
    requires "enableEncrypt" in keyData && "pubKey" in keyData && "version" in keyData
    requires Truthy(keyData["enableEncrypt"])
    requires EncryptPasswordSpec(keyData, "", loadKey, encrypt).Ok?
    ensures var key := PublicKey(keyData["pubKey"], loadKey).value;
      EncryptPasswordSpec(keyData, "", loadKey, encrypt).value
        == Base64(encrypt(key, []).value) + keyData["version"].s
  {
    assert Quote("") == "";
    EmptyEncodingIsOneEmptyChunk();
    assert Utf8Of("") == [];
    var key := PublicKey(keyData["pubKey"], loadKey).value;
    var cs := Ciphers(key, [""], encrypt).value;
    var text := Base64(encrypt(key, []).value);
    assert Base64s(cs) == [text];
    assert [text][..0] == [];
    assert Joined([text]) == text;
  }

  /** `to_base64_str`: 4 * ceil(n / 3) characters, empty only for no bytes, and decodable back. */
  lemma ToBase64Str(b: seq<byte>)
    ensures |Base64(b)| == 4 * ((|b| + 2) / 3)
    ensures Base64(b) == "" <==> b == []
    ensures Base64Decode(Base64(b)) == Some(b)
  {
    Base64RoundTrip(b);
  }

  // ---------------------------------------------------------------- decryption

  /** Bytes read back as text, one character per byte. */
  function CharsOf(bytes: seq<byte>): (r: string)
    ensures |r| == |bytes| && forall i :: 0 <= i < |bytes| ==> r[i] as int == bytes[i]
  {
    seq(|bytes|, i requires 0 <= i < |bytes| => bytes[i] as char)
  }

  /** One base64 text opened: decoded, then decrypted. */
  function Open(text: string, decrypt: seq<byte> -> Option<seq<byte>>): Option<seq<byte>> {
    match Base64Decode(text)
    case None => None
    case Some(c) => decrypt(c)
  }

  /** The plaintexts of the base64 texts, concatenated in order. */
  function Plaintext(texts: seq<string>, decrypt: seq<byte> -> Option<seq<byte>>): Option<seq<byte>> {
    if texts == [] then Some([])
    else
      match Plaintext(texts[..|texts| - 1], decrypt)
      case None => None
      case Some(init) =>
        match Open(texts[|texts| - 1], decrypt)
        case None => None
        case Some(m) => Some(init + m)
  }

  /** The password in a decrypted plaintext: percent-decoded, then read as UTF-8. */
  function PlainPassword(bytes: seq<byte>): Option<string> {
    match Unquote(CharsOf(bytes))
    case None => None
    case Some(raw) => Utf8Decode(raw)
  }

  /**
   * What the holder of the private key does with an encrypted password: drop the version,
   * cut the rest into base64 texts of the known length, open each, and percent-decode the
   * concatenated plaintext as UTF-8.
   */
  function DecryptPassword(text: string, version: string, textLen: nat,
                           decrypt: seq<byte> -> Option<seq<byte>>): Option<string>
  {
    if |text| < |version| || text[|text| - |version|..] != version then None
    else
      match Plaintext(Split(text[..|text| - |version|], textLen), decrypt)
      case None => None
      case Some(bytes) => PlainPassword(bytes)
  }

  lemma {:induction false} Utf8Append(a: string, b: string)
    ensures Utf8Of(a + b) == Utf8Of(a) + Utf8Of(b)
  {
    if a == [] {
      assert a + b == b;
    } else {
      assert (a + b)[0] == a[0] && (a + b)[1..] == a[1..] + b;
      Utf8Append(a[1..], b);
    }
  }

  lemma {:induction false} PlaintextConcat(texts: seq<string>, chunks: seq<string>,
                                           decrypt: seq<byte> -> Option<seq<byte>>)
    requires |texts| == |chunks|
    requires forall i :: 0 <= i < |texts| ==> Open(texts[i], decrypt) == Some(Utf8Of(chunks[i]))
    ensures Plaintext(texts, decrypt) == Some(Utf8Of(Concat(chunks)))
  {
    if texts != [] {
      var n := |texts| - 1;
      PlaintextConcat(texts[..n], chunks[..n], decrypt);
      Utf8Append(Concat(chunks[..n]), chunks[n]);
    }
  }

  /** Decrypting a join of equally long texts, each opening to the encoding of a chunk. */
  lemma DecryptJoined(texts: seq<string>, chunks: seq<string>, version: string, len: nat,
                      decrypt: seq<byte> -> Option<seq<byte>>)
    requires texts != [] && |texts| == |chunks|
    requires forall i :: 0 <= i < |texts| ==> |texts[i]| == len
    requires forall i :: 0 <= i < |texts| ==> Open(texts[i], decrypt) == Some(Utf8Of(chunks[i]))
    ensures DecryptPassword(JoinWith(texts) + version, version, len, decrypt)
         == PlainPassword(Utf8Of(Concat(chunks)))
  {
    var text := JoinWith(texts) + version;
    assert text[|text| - |version|..] == version && text[..|text| - |version|] == JoinWith(texts);
    SplitJoin(texts, len);
    PlaintextConcat(texts, chunks, decrypt);
  }

  /** The chunks of a quoted password, put together again and percent-decoded. */
  lemma QuotedChunksDecode(password: string)
    ensures Unquote(CharsOf(Utf8Of(Concat(Chunks(Quote(password)))))) == Some(Utf8Of(password))
  {
    var q := Quote(password);
    ChunksConcat(q);
    QuoteRoundTrip(password);
    assert CharsOf(Utf8Of(q)) == q;
  }

  /** Ciphertexts of a fixed length n have base64 texts of one length, which open to the chunks. */
  lemma TextsOpen<K>(key: K, chunks: seq<string>, encrypt: (K, seq<byte>) -> Option<seq<byte>>,
                     decrypt: seq<byte> -> Option<seq<byte>>, n: nat)
    requires forall i :: 0 <= i < |chunks| ==> encrypt(key, Utf8Of(chunks[i])).Some?
    requires forall bs :: encrypt(key, bs).Some? ==> |encrypt(key, bs).value| == n && decrypt(encrypt(key, bs).value) == Some(bs)
    ensures var texts := Texts(key, chunks, encrypt);
      && (forall i :: 0 <= i < |texts| ==> |texts[i]| == 4 * ((n + 2) / 3))
      && (forall i :: 0 <= i < |texts| ==> Open(texts[i], decrypt) == Some(Utf8Of(chunks[i])))
  {
    var texts := Texts(key, chunks, encrypt);
    forall i | 0 <= i < |texts|
      ensures Open(texts[i], decrypt) == Some(Utf8Of(chunks[i]))
    {
      Base64RoundTrip(encrypt(key, Utf8Of(chunks[i])).value);
    }
  }

  /**
   * With ciphertexts of one fixed length n (an RSA modulus' length) and a decryption that
   * inverts the encryption, decrypting the encrypted password yields the original password,
   * however many chunks it took.
   */
  lemma EncryptedPasswordDecrypts<K>(keyData: map<string, Json>, password: string,
                                     loadKey: seq<byte> -> Option<K>,
                                     encrypt: (K, seq<byte>) -> Option<seq<byte>>,
                                     decrypt: seq<byte> -> Option<seq<byte>>, n: nat)
    requires "enableEncrypt" in keyData && "pubKey" in keyData && "version" in keyData
    requires Truthy(keyData["enableEncrypt"])
    requires EncryptPasswordSpec(keyData, password, loadKey, encrypt).Ok?
    requires n > 0
    requires forall bs :: encrypt(PublicKey(keyData["pubKey"], loadKey).value, bs).Some? ==>
      |encrypt(PublicKey(keyData["pubKey"], loadKey).value, bs).value| == n
      && decrypt(encrypt(PublicKey(keyData["pubKey"], loadKey).value, bs).value) == Some(bs)
    ensures DecryptPassword(EncryptPasswordSpec(keyData, password, loadKey, encrypt).value,
                            keyData["version"].s, 4 * ((n + 2) / 3), decrypt) == Some(password)
  {
    var key := PublicKey(keyData["pubKey"], loadKey).value;
    var chunks := Chunks(Quote(password));
    EncryptedPasswordIsJoin(keyData, password, loadKey, encrypt);
    TextsOpen(key, chunks, encrypt, decrypt, n);
    DecryptJoined(Texts(key, chunks, encrypt), chunks, keyData["version"].s, 4 * ((n + 2) / 3), decrypt);
    QuotedChunksDecode(password);
    Utf8RoundTrip(password);
  }
}
