/** The protocol packet of `packet.rs`: a flag byte, a header byte and the payload. */
module Packets {
  import opened Bytes
  import opened Crypto

  const HEADER_SIZE: nat := 2

  datatype Wire = Wire(encrypted: bool, header: Byte, payload: ByteString)

  function Serialize(w: Wire): ByteString {
    [if w.encrypted then 1 else 0, w.header] + w.payload
  }

  /** Any non-zero flag byte reads as encrypted; fewer than two bytes are no packet. */
  function Parse(bytes: ByteString): Option<Wire> {
    if |bytes| < HEADER_SIZE then None
    else Some(Wire(bytes[0] != 0, bytes[1], bytes[HEADER_SIZE..]))
  }

  lemma ParseUndoesSerialize(w: Wire)
    ensures Parse(Serialize(w)) == Some(w)
  {
    assert Serialize(w)[HEADER_SIZE..] == w.payload;
  }

  /** The other way round holds exactly for canonical flag bytes. */
  lemma SerializeUndoesParse(bytes: ByteString)
    requires Parse(bytes).Some?
    ensures Serialize(Parse(bytes).value) == bytes <==> bytes[0] <= 1
  {
    var back := Serialize(Parse(bytes).value);
    assert |back| == |bytes| && back[1..] == bytes[1..];
    if bytes[0] <= 1 {
      assert back[0] == bytes[0];
      assert back == [back[0]] + back[1..] && bytes == [bytes[0]] + bytes[1..];
    }
  }

  /** A packet whose payload is encrypted and decrypted in place. */
  class Packet {
    var encrypted: bool
    const header: Byte
    var payload: ByteString

    ghost function Value(): Wire
      reads this
    {
      Wire(encrypted, header, payload)
    }

    constructor (header: Byte, payload: ByteString)
      ensures Value() == Wire(false, header, payload)
    {
      this.encrypted := false;
      this.header := header;
      this.payload := payload;
    }

    constructor FromWire(w: Wire)
      ensures Value() == w
    {
      this.encrypted := w.encrypted;
      this.header := w.header;
      this.payload := w.payload;
    }

    /** Encrypting twice is a caller's bug. */
    method Encrypt(crypto: CryptoHandler)
      requires crypto.Valid() && !encrypted
      modifies this, crypto.nonce
      ensures crypto.nonce[..] == Incremented(old(crypto.nonce[..]))
      ensures Value() == Wire(true, header, crypto.box.seal(crypto.nonce[..], old(payload)))
    {
      payload := crypto.Encrypt(payload);
      encrypted := true;
    }

    /** A failed decryption leaves the packet as it was. */
    method Decrypt(crypto: CryptoHandler) returns (ok: bool)
      requires crypto.Valid() && encrypted
      modifies this, crypto.nonce
      ensures crypto.nonce[..] ==
              if |old(payload)| < MAC_BYTES then old(crypto.nonce[..])
              else Incremented(old(crypto.nonce[..]))
      ensures ok <==> |old(payload)| >= MAC_BYTES &&
                      crypto.box.open(crypto.nonce[..], old(payload)).Some?
      ensures Value() ==
              if ok then Wire(false, header, crypto.box.open(crypto.nonce[..], old(payload)).value)
              else old(Value())
    {
      var plain := crypto.Decrypt(payload);
      if plain == None {
        return false;
      }
      payload := plain.value;
      encrypted := false;
      ok := true;
    }

    method ToBytes() returns (out: ByteString)
      ensures out == Serialize(Value())
    {
      out := [if encrypted then 1 else 0];
      out := out + [header];
      out := out + payload;
    }
  }
}
