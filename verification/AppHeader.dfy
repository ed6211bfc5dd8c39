/**
 QKDAppHeader: the header in front of every data packet, and the key ids it carries.
 Strings and packets are sequences of bytes.
 */
module AppHeader {
  import opened UInt32
  import opened Text

  const DASH: Byte := 45  // '-'
  const FIELD: nat := 32
  const HEADER_SIZE: nat := 106

  datatype Header = Header(
    length: nat, messageId: nat, encrypted: nat, authenticated: nat,
    encryptionKeyId: Bytes, authenticationKeyId: Bytes, authTag: Bytes)

  /** What fits the wire: two uint32_t, two uint8_t and three fields of 32 bytes. */
  predicate Valid(h: Header) {
    && Numbered(h)
    && |h.encryptionKeyId| == FIELD && |h.authenticationKeyId| == FIELD && |h.authTag| == FIELD
  }

  // ----- Wire format

  /** Network byte order. */
  function U32(n: nat): Bytes
    requires n < UINT32_RANGE
  {
    [n / 0x100_0000, n / 0x1_0000 % 256, n / 256 % 256, n % 256]
  }

  function FromU32(b: Bytes): nat
    requires |b| == 4
  {
    (b[0] as int) * 0x100_0000 + (b[1] as int) * 0x1_0000 + (b[2] as int) * 256 + b[3] as int
  }

  lemma U32RoundTrip(n: nat)
    requires n < UINT32_RANGE
    ensures FromU32(U32(n)) == n
  {
    assert n / 0x1_0000 == n / 0x100_0000 * 256 + n / 0x1_0000 % 256;
    assert n / 256 == n / 0x1_0000 * 256 + n / 256 % 256;
  }

  lemma FromU32RoundTrip(b: Bytes)
    requires |b| == 4
    ensures FromU32(b) < UINT32_RANGE && U32(FromU32(b)) == b
  {
    LeadingBytes(FromU32(b), b[0], b[1], b[2], b[3]);
  }

  lemma LeadingBytes(n: int, b0: int, b1: int, b2: int, b3: int)
    requires 0 <= b0 < 256 && 0 <= b1 < 256 && 0 <= b2 < 256 && 0 <= b3 < 256
    requires n == b0 * 0x100_0000 + b1 * 0x1_0000 + b2 * 256 + b3
    ensures n / 0x100_0000 == b0 && n / 0x1_0000 % 256 == b1 && n / 256 % 256 == b2 && n % 256 == b3
  {
    assert n / 256 == b0 * 0x1_0000 + b1 * 256 + b2;
    assert n / 0x1_0000 == b0 * 256 + b1;
  }

  /** Numbers of the width they are declared with. */
  predicate Numbered(h: Header) {
    h.length < UINT32_RANGE && h.messageId < UINT32_RANGE && h.encrypted < 256 && h.authenticated < 256
  }

  /** Serialize writes each field as long as it is. */
  function Encode(h: Header): Bytes
    requires Numbered(h)
  {
    U32(h.length) + U32(h.messageId) + [h.encrypted, h.authenticated]
    + h.encryptionKeyId + h.authenticationKeyId + h.authTag
  }

  /** Deserialize reads fixed widths. */
  function Decode(b: Bytes): Header
    requires |b| >= HEADER_SIZE
  {
    Header(FromU32(b[0..4]), FromU32(b[4..8]), b[8], b[9], b[10..42], b[42..74], b[74..106])
  }

  /** What is deserialized is what was serialized exactly if every field has its width. */
  lemma DecodeEncodeIff(h: Header, more: Bytes)
    requires Numbered(h) && |Encode(h) + more| >= HEADER_SIZE
    ensures Decode(Encode(h) + more) == h <==> Valid(h)
  {
    var b := Encode(h) + more;
    if Valid(h) {
      assert b[0..4] == U32(h.length) && b[4..8] == U32(h.messageId);
      U32RoundTrip(h.length);
      U32RoundTrip(h.messageId);
      assert b[10..42] == h.encryptionKeyId && b[42..74] == h.authenticationKeyId && b[74..106] == h.authTag;
    }
  }

  lemma EncodeDecode(b: Bytes)
    requires |b| == HEADER_SIZE
    ensures Valid(Decode(b)) && Encode(Decode(b)) == b
  {
    FromU32RoundTrip(b[0..4]);
    FromU32RoundTrip(b[4..8]);
    assert b == b[0..4] + b[4..8] + [b[8], b[9]] + b[10..42] + b[42..74] + b[74..106];
  }

  // ----- The bytes on the wire

  /** What one digit of a number written in base 256 counts. */
  function Weight(i: nat): nat
    requires i < 4
  {
    if i == 0 then 0x100_0000 else if i == 1 then 0x1_0000 else if i == 2 then 0x100 else 1
  }

  /** Most significant byte first: i-th byte of a 32-bit number. */
  predicate InNetworkOrder(b: Bytes, start: nat, n: nat) {
    start + 4 <= |b| && forall i :: 0 <= i < 4 ==> b[start + i] == n / Weight(i) % 256
  }

  /** Where every field of the header lies, from the start of the buffer on. */
  predicate LaidOut(b: Bytes, h: Header) {
    var id, auth := 10 + |h.encryptionKeyId|, 10 + |h.encryptionKeyId| + |h.authenticationKeyId|;
    && InNetworkOrder(b, 0, h.length) && InNetworkOrder(b, 4, h.messageId)
    && auth + |h.authTag| <= |b| && b[8] == h.encrypted && b[9] == h.authenticated
    && b[10..id] == h.encryptionKeyId && b[id..auth] == h.authenticationKeyId
    && b[auth..auth + |h.authTag|] == h.authTag
  }

  lemma EncodeLayout(h: Header)
    requires Numbered(h)
    ensures LaidOut(Encode(h), h)
    ensures |Encode(h)| == 10 + |h.encryptionKeyId| + |h.authenticationKeyId| + |h.authTag|
  {
    var b := Encode(h);
    U32Layout(h.length);
    U32Layout(h.messageId);
    assert b[0..4] == U32(h.length) && b[4..8] == U32(h.messageId);
    forall i | 0 <= i < 4
      ensures b[0 + i] == h.length / Weight(i) % 256 && b[4 + i] == h.messageId / Weight(i) % 256
    {
      assert b[0 + i] == b[0..4][i] && b[4 + i] == b[4..8][i];
    }
    var front := U32(h.length) + U32(h.messageId) + [h.encrypted, h.authenticated];
    var id, auth := 10 + |h.encryptionKeyId|, 10 + |h.encryptionKeyId| + |h.authenticationKeyId|;
    assert b == front + h.encryptionKeyId + h.authenticationKeyId + h.authTag && |front| == 10;
    assert b[8] == front[8] && b[9] == front[9];
    assert b[10..id] == h.encryptionKeyId && b[id..auth] == h.authenticationKeyId;
    assert b[auth..auth + |h.authTag|] == h.authTag;
  }

  lemma U32Layout(n: nat)
    requires n < UINT32_RANGE
    ensures forall i :: 0 <= i < 4 ==> U32(n)[i] == n / Weight(i) % 256
  {
    var b := U32(n);
    var top := n / 0x100_0000;
    assert top < 256 && top % 256 == top;
    assert b[0] == n / Weight(0) % 256 && b[1] == n / Weight(1) % 256;
    assert b[2] == n / Weight(2) % 256 && b[3] == n / Weight(3) % 256;
  }

  lemma DecodeLayout(b: Bytes)
    requires |b| >= HEADER_SIZE
    ensures LaidOut(b, Decode(b)) && Decode(b).length < UINT32_RANGE && Decode(b).messageId < UINT32_RANGE
    ensures |Decode(b).encryptionKeyId| == |Decode(b).authenticationKeyId| == |Decode(b).authTag| == 32
  {
    FromU32RoundTrip(b[0..4]);
    FromU32RoundTrip(b[4..8]);
    U32Layout(FromU32(b[0..4]));
    U32Layout(FromU32(b[4..8]));
    forall i | 0 <= i < 4
      ensures b[0 + i] == Decode(b).length / Weight(i) % 256 && b[4 + i] == Decode(b).messageId / Weight(i) % 256
    {
      assert b[0 + i] == b[0..4][i] && b[4 + i] == b[4..8][i];
    }
  }

  // ----- Fields

  function Zeros(n: nat): Bytes {
    seq(n, i => ZERO)
  }

  /** The setters pad short values with zeros on the left. */
  function Padded(value: Bytes): (field: Bytes)
    requires |value| <= FIELD
    ensures |field| == 32 && field[32 - |value|..] == value
    ensures forall i :: 0 <= i < 32 - |value| ==> field[i] == 48
  {
    Zeros(FIELD - |value|) + value
  }

  // ----- The header object

  function Overwritten(data: Bytes, position: nat, b: Bytes): (r: Bytes)
    requires position + |b| <= |data|
    ensures |r| == |data|
  {
    data[..position] + b + data[position + |b|..]
  }

  lemma OverwrittenTwice(data: Bytes, position: nat, a: Bytes, b: Bytes)
    requires position + |a| + |b| <= |data|
    ensures Overwritten(Overwritten(data, position, a), position + |a|, b) == Overwritten(data, position, a + b)
  {
  }

  /** The layout does not depend on what follows, nor on where it starts. */
  lemma LaidOutAt(data: Bytes, position: nat, h: Header, r: Bytes)
    requires Numbered(h) && position + |Encode(h)| <= |data| && r == Overwritten(data, position, Encode(h))
    ensures LaidOut(r[position..], h)
  {
    EncodeLayout(h);
    var b, e := r[position..], Encode(h);
    assert b == e + data[position + |e|..];
    var id, auth := 10 + |h.encryptionKeyId|, 10 + |h.encryptionKeyId| + |h.authenticationKeyId|;
    assert b[10..id] == e[10..id] && b[id..auth] == e[id..auth];
    assert b[auth..auth + |h.authTag|] == e[auth..auth + |h.authTag|];
    forall i | 0 <= i < 4
      ensures b[0 + i] == h.length / Weight(i) % 256 && b[4 + i] == h.messageId / Weight(i) % 256
    {
      assert b[0 + i] == e[0 + i] && b[4 + i] == e[4 + i];
    }
  }

  /** An ns-3 buffer iterator over a buffer that is large enough. */
  class Iterator {
    var data: Bytes
    var position: nat

    constructor (data: Bytes)
      ensures this.data == data && position == 0
    {
      this.data, position := data, 0;
    }

    method Write(b: Bytes)
      requires position + |b| <= |data|
      modifies this
      ensures position == old(position) + |b|
      ensures data == Overwritten(old(data), old(position), b)
    {
      data := data[..position] + b + data[position + |b|..];
      position := position + |b|;
    }

    method Read(n: nat) returns (b: Bytes)
      requires position + n <= |data|
      modifies this`position
      ensures position == old(position) + n && b == data[old(position)..old(position) + n]
    {
      b := data[position..position + n];
      position := position + n;
    }
  }

  class QKDAppHeader {
    var m_length: nat
    var m_messageId: nat
    var m_encryped: nat
    var m_authenticated: nat
    var m_encryptionKeyId: Bytes
    var m_authenticationKeyId: Bytes
    var m_authTag: Bytes

    constructor ()
      ensures View() == Header(0, 0, 0, 0, [], [], [])
    {
      m_length, m_messageId, m_encryped, m_authenticated := 0, 0, 0, 0;
      m_encryptionKeyId, m_authenticationKeyId, m_authTag := [], [], [];
    }

    function View(): Header
      reads this
    {
      Header(m_length, m_messageId, m_encryped, m_authenticated, m_encryptionKeyId, m_authenticationKeyId, m_authTag)
    }

    /** A uint8_t field. */
    method SetEncrypted(value: nat)
      modifies this`m_encryped
      ensures m_encryped == value % 256
    {
      m_encryped := value % 256;
    }

    method SetAuthenticated(value: nat)
      modifies this`m_authenticated
      ensures m_authenticated == value % 256
    {
      m_authenticated := value % 256;
    }

    method SetLength(value: nat)
      modifies this`m_length
      ensures m_length == value
    {
      m_length := value;
    }

    method SetMessageId(value: nat)
      modifies this`m_messageId
      ensures m_messageId == value
    {
      m_messageId := value;
    }

    method SetEncryptionKeyId(value: Bytes)
      requires |value| <= FIELD
      modifies this`m_encryptionKeyId
      ensures m_encryptionKeyId == Padded(value)
    {
      if |value| < FIELD {
        m_encryptionKeyId := Zeros(FIELD - |value|) + value;
      } else {
        m_encryptionKeyId := value;
      }
    }

    method SetAuthenticationKeyId(value: Bytes)
      requires |value| <= FIELD
      modifies this`m_authenticationKeyId
      ensures m_authenticationKeyId == Padded(value)
    {
      if |value| < FIELD {
        m_authenticationKeyId := Zeros(FIELD - |value|) + value;
      } else {
        m_authenticationKeyId := value;
      }
    }

    method SetAuthTag(value: Bytes)
      requires |value| <= FIELD
      modifies this`m_authTag
      ensures m_authTag == Padded(value)
    {
      if |value| < FIELD {
        m_authTag := Zeros(FIELD - |value|) + value;
      } else {
        m_authTag := value;
      }
    }

    method Serialize(i: Iterator)
      requires Numbered(View()) && i.position + |Encode(View())| <= |i.data|
      modifies i
      ensures i.position == old(i.position) + |Encode(View())|
      ensures i.data == Overwritten(old(i.data), old(i.position), Encode(View()))
      ensures LaidOut(i.data[old(i.position)..], View())
    {
      ghost var data, start := i.data, i.position;
      WriteNumbers(i);
      ghost var numbers := U32(m_length) + U32(m_messageId) + [m_encryped, m_authenticated];
      i.Write(m_encryptionKeyId);
      OverwrittenTwice(data, start, numbers, m_encryptionKeyId);
      i.Write(m_authenticationKeyId);
      OverwrittenTwice(data, start, numbers + m_encryptionKeyId, m_authenticationKeyId);
      i.Write(m_authTag);
      OverwrittenTwice(data, start, numbers + m_encryptionKeyId + m_authenticationKeyId, m_authTag);
      LaidOutAt(data, start, View(), i.data);
    }

    method WriteNumbers(i: Iterator)
      requires m_length < UINT32_RANGE && m_messageId < UINT32_RANGE && m_encryped < 256 && m_authenticated < 256
      requires i.position + 10 <= |i.data|
      modifies i
      ensures i.position == old(i.position) + 10
      ensures i.data == Overwritten(old(i.data), old(i.position),
                                    U32(m_length) + U32(m_messageId) + [m_encryped, m_authenticated])
    {
      ghost var data, start := i.data, i.position;
      i.Write(U32(m_length));
      i.Write(U32(m_messageId));
      OverwrittenTwice(data, start, U32(m_length), U32(m_messageId));
      i.Write([m_encryped]);
      OverwrittenTwice(data, start, U32(m_length) + U32(m_messageId), [m_encryped]);
      i.Write([m_authenticated]);
      OverwrittenTwice(data, start, U32(m_length) + U32(m_messageId) + [m_encryped], [m_authenticated]);
      assert [m_encryped] + [m_authenticated] == [m_encryped, m_authenticated];
      assert U32(m_length) + U32(m_messageId) + [m_encryped] + [m_authenticated]
          == U32(m_length) + U32(m_messageId) + [m_encryped, m_authenticated];
    }

    method Deserialize(i: Iterator)
      requires i.position + HEADER_SIZE <= |i.data|
      modifies this, i`position
      ensures i.position == old(i.position) + HEADER_SIZE
      ensures View() == Decode(i.data[old(i.position)..])
      ensures LaidOut(i.data[old(i.position)..], View()) && m_length < UINT32_RANGE && m_messageId < UINT32_RANGE
    {
      ghost var from := i.data[i.position..];
      var b := i.Read(4);
      m_length := FromU32(b);
      b := i.Read(4);
      m_messageId := FromU32(b);
      b := i.Read(1);
      m_encryped := b[0];
      b := i.Read(1);
      m_authenticated := b[0];
      m_encryptionKeyId := i.Read(FIELD);
      m_authenticationKeyId := i.Read(FIELD);
      m_authTag := i.Read(FIELD);
      DecodeLayout(from);
    }
  }
}
