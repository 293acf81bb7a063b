/** app/core/crypto.py: versioned field encryption. The AEAD is any pair of functions that undo each other
    under the same key, nonce and associated data. Plaintexts are their UTF-8 bytes. */
module Crypto {
  import opened Results
  import opened Base64

  const IV_BYTES: nat := 12
  const KEY_BYTES: nat := 32
  const TAG_BYTES: nat := 16

  type Bytes = seq<Byte>

  /** key, nonce, text, associated data. */
  datatype Aead = Aead(seal: (Bytes, Bytes, Bytes, string) -> Bytes,
      open: (Bytes, Bytes, Bytes, string) -> Option<Bytes>)

  ghost predicate Correct(aead: Aead) {
    forall key: Bytes, iv: Bytes, text: Bytes, aad: string {:trigger aead.seal(key, iv, text, aad)} ::
      && |aead.seal(key, iv, text, aad)| == |text| + TAG_BYTES
      && aead.open(key, iv, aead.seal(key, iv, text, aad), aad) == Some(text)
  }

  datatype CryptoError = BadKeyLength | BadVersion | NoActiveKey | NotBase64 | TooShort | NoKey | BadTag

  datatype Outcome<+T> = Done(value: T) | Failed(error: CryptoError)

  datatype FieldCipher = FieldCipher(aead: Aead, keys: map<int, Bytes>, active: int)
  {
    /** What the constructor insists on. */
    ghost predicate Valid() {
      && (forall v :: v in keys ==> |keys[v]| == KEY_BYTES && 0 <= v < 256)
      && active in keys
    }

    /** `iv` is the fresh nonce. */
    function Encrypt(text: Bytes, aad: string, iv: Bytes): string
      requires active in keys && 0 <= active < 256
    {
      Base64.Encode([active as Byte] + iv + aead.seal(keys[active], iv, text, aad))
    }

    function Decrypt(blob64: string, aad: string): Outcome<Bytes> {
      var decoded := Base64.Decode(blob64);
      if decoded.None? then Failed(NotBase64)
      else
        var blob := decoded.value;
        if |blob| < 1 + IV_BYTES + TAG_BYTES then Failed(TooShort)
        else
          var version := blob[0] as int;
          if version !in keys then Failed(NoKey)
          else
            var text := aead.open(keys[version], blob[1..1 + IV_BYTES], blob[1 + IV_BYTES..], aad);
            if text.None? then Failed(BadTag) else Done(text.value)
    }
  }

  function BlobVersion(blob64: string): Outcome<int> {
    var decoded := Base64.Decode(blob64);
    if decoded.None? then Failed(NotBase64)
    else if |decoded.value| < 1 then Failed(TooShort)
    else Done(decoded.value[0] as int)
  }

  function BuildAad(table: string, column: string, id: string): string {
    table + ":" + column + ":" + id
  }

  /** What one cipher wrote, every cipher that still carries that key version reads back, under the same
      associated data; and the blob names the version it was written under. */
  lemma DecryptEncrypt(writer: FieldCipher, reader: FieldCipher, text: Bytes, aad: string, iv: Bytes)
    requires writer.Valid() && Correct(writer.aead) && |iv| == IV_BYTES
    requires reader.aead == writer.aead && writer.active in reader.keys
    requires reader.keys[writer.active] == writer.keys[writer.active]
    ensures reader.Decrypt(writer.Encrypt(text, aad, iv), aad) == Done(text)
    ensures BlobVersion(writer.Encrypt(text, aad, iv)) == Done(writer.active)
  {
    hide Base64.Encode, Base64.Decode;
    var ct := writer.aead.seal(writer.keys[writer.active], iv, text, aad);
    var blob := [writer.active as Byte] + iv + ct;
    DecodeEncode(blob);
    assert |ct| == |text| + TAG_BYTES;
    assert blob[1..1 + IV_BYTES] == iv && blob[1 + IV_BYTES..] == ct;
  }

  /** The AEAD refuses a text under other associated data than it was sealed with. */
  ghost predicate Binding(aead: Aead) {
    forall key: Bytes, iv: Bytes, text: Bytes, aad: string, other: string
      {:trigger aead.open(key, iv, aead.seal(key, iv, text, aad), other)} ::
      aad != other ==> aead.open(key, iv, aead.seal(key, iv, text, aad), other) == None
  }

  /** A ciphertext moved to another cell is not read there. */
  lemma MovedBlobIsRejected(
      cipher: FieldCipher, text: Bytes, iv: Bytes, table: string, column: string, id: string, table': string,
      column': string, id': string)
    requires cipher.Valid() && Correct(cipher.aead) && Binding(cipher.aead) && |iv| == IV_BYTES
    requires ':' !in table && ':' !in column && ':' !in table' && ':' !in column'
    requires (table, column, id) != (table', column', id')
    ensures cipher.Decrypt(cipher.Encrypt(text, BuildAad(table, column, id), iv), BuildAad(table', column', id'))
         == Failed(BadTag)
  {
    hide Base64.Encode, Base64.Decode, BuildAad;
    var aad := BuildAad(table, column, id);
    if aad == BuildAad(table', column', id') {
      AadBindsCell(table, column, id, table', column', id');
    }
    var ct := cipher.aead.seal(cipher.keys[cipher.active], iv, text, aad);
    var blob := [cipher.active as Byte] + iv + ct;
    DecodeEncode(blob);
    assert |ct| == |text| + TAG_BYTES;
    assert blob[1..1 + IV_BYTES] == iv && blob[1 + IV_BYTES..] == ct;
  }

  /** The text before the first colon can be told from the text after it. */
  lemma FirstColon(a: string, b: string, s: string, t: string)
    requires ':' !in a && ':' !in b && a + ":" + s == b + ":" + t
    ensures a == b && s == t
  {
    var u, v := a + ":" + s, b + ":" + t;
    assert forall i :: 0 <= i < |a| ==> u[i] == a[i] && a[i] in a;
    assert forall i :: 0 <= i < |b| ==> v[i] == b[i] && b[i] in b;
    assert u[|a|] == ':' && v[|b|] == ':';
    assert a == u[..|a|] && b == v[..|b|] && s == u[|a| + 1..] && t == v[|b| + 1..];
  }

  /** Two cells share associated data only if they are the same cell, as long as table and column names have no
      colon. */
  lemma AadBindsCell(table: string, column: string, id: string, table': string, column': string, id': string)
    requires ':' !in table && ':' !in column && ':' !in table' && ':' !in column'
    requires BuildAad(table, column, id) == BuildAad(table', column', id')
    ensures table == table' && column == column' && id == id'
  {
    assert BuildAad(table, column, id) == table + ":" + (column + ":" + id);
    assert BuildAad(table', column', id') == table' + ":" + (column' + ":" + id');
    FirstColon(table, table', column + ":" + id, column' + ":" + id');
    FirstColon(column, column', id, id');
  }
}
