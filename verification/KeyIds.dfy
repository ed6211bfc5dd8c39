/**
 Key ids in header fields: UUIDs without their dashes (QKDApp014), key indices as padded
 decimals (QKDApp004).
 */
module KeyIds {
  import opened Options
  import opened UInt32
  import opened Text
  import opened AppHeader

  // ----- UUIDs

  function WithoutDashes(s: Bytes): Bytes {
    if s == [] then []
    else WithoutDashes(s[..|s| - 1]) + if s[|s| - 1] == DASH then [] else [s[|s| - 1]]
  }

  predicate NoDash(s: Bytes) {
    forall i :: 0 <= i < |s| ==> s[i] != DASH
  }

  /** std::string::insert; beyond the end it throws. */
  function Inserted(s: Bytes, position: nat): Bytes
    requires position <= |s|
  {
    s[..position] + [DASH] + s[position..]
  }

  function Dashed(s: Bytes): Bytes
    requires |s| >= 20
  {
    Inserted(Inserted(Inserted(Inserted(s, 8), 13), 18), 23)
  }

  /** How many of the first k bytes are no dashes. */
  function Kept(s: Bytes, k: nat): nat
    requires k <= |s|
  {
    if k == 0 then 0 else Kept(s, k - 1) + if s[k - 1] == 45 then 0 else 1
  }

  /** Byte k of s is a dash or stands in field behind the kept bytes before it. */
  predicate InPlace(s: Bytes, field: Bytes, k: nat)
    requires k < |s|
  {
    s[k] != 45 ==> Kept(s, k) < |field| && field[Kept(s, k)] == s[k]
  }

  /** field is s without its dashes: every other byte is there, in its place. */
  predicate Undashed(s: Bytes, field: Bytes) {
    && |field| == Kept(s, |s|)
    && forall k: nat :: k < |s| ==> InPlace(s, field, k)
  }

  lemma {:induction false} KeptAlike(s: Bytes, t: Bytes, k: nat)
    requires k <= |s| && k <= |t| && s[..k] == t[..k]
    ensures Kept(s, k) == Kept(t, k)
  {
    if k > 0 {
      assert s[k - 1] == s[..k][k - 1] == t[..k][k - 1] == t[k - 1] && s[..k - 1] == s[..k][..k - 1] == t[..k - 1];
      KeptAlike(s, t, k - 1);
    }
  }

  lemma StaysInPlace(s: Bytes, field: Bytes, longer: Bytes, k: nat)
    requires k < |s| - 1 && InPlace(s[..|s| - 1], field, k)
    requires |field| <= |longer| && field == longer[..|field|]
    ensures InPlace(s, longer, k)
  {
    KeptAlike(s, s[..|s| - 1], k);
  }

  lemma {:induction false} WithoutDashesIs(s: Bytes)
    ensures Undashed(s, WithoutDashes(s))
  {
    if s != [] {
      var n := |s| - 1;
      var field := WithoutDashes(s[..n]);
      WithoutDashesIs(s[..n]);
      KeptAlike(s, s[..n], n);
      forall k: nat | k < n ensures InPlace(s, WithoutDashes(s), k) {
        assert InPlace(s[..n], field, k);
        StaysInPlace(s, field, WithoutDashes(s), k);
      }
      assert InPlace(s, WithoutDashes(s), n);
    }
  }

  method CreateKeyIdField(keyId: Bytes) returns (field: Bytes)
    ensures field == WithoutDashes(keyId) && Undashed(keyId, field)
  {
    field := [];
    for i := 0 to |keyId|
      invariant field == WithoutDashes(keyId[..i])
    {
      assert keyId[..i + 1][..i] == keyId[..i];
      if keyId[i] != DASH {
        field := field + [keyId[i]];
      }
    }
    assert keyId[..|keyId|] == keyId;
    WithoutDashesIs(keyId);
  }

  method ReadKeyIdField(field: Bytes) returns (keyId: Bytes)
    requires |field| >= 20
    ensures keyId == Dashed(field)
    ensures keyId == field[..8] + [45] + field[8..12] + [45] + field[12..16] + [45] + field[16..20] + [45] + field[20..]
  {
    keyId := field;
    keyId := keyId[..8] + [DASH] + keyId[8..];
    keyId := keyId[..13] + [DASH] + keyId[13..];
    keyId := keyId[..18] + [DASH] + keyId[18..];
    keyId := keyId[..23] + [DASH] + keyId[23..];
    DashedIs(field);
  }

  /** The layout of a UUID: dashes at four places and nowhere else. */
  predicate Uuid(s: Bytes) {
    |s| >= 24 && forall i :: 0 <= i < |s| ==> (s[i] == DASH <==> i == 8 || i == 13 || i == 18 || i == 23)
  }

  lemma {:induction false} WithoutDashesAppend(a: Bytes, b: Bytes)
    ensures WithoutDashes(a + b) == WithoutDashes(a) + WithoutDashes(b)
  {
    if b == [] {
      assert a + b == a;
    } else {
      var front := b[..|b| - 1];
      WithoutDashesAppend(a, front);
      assert (a + b)[..|a + b| - 1] == a + front;
    }
  }

  lemma {:induction false} WithoutDashesNone(s: Bytes)
    requires NoDash(s)
    ensures WithoutDashes(s) == s
  {
    if s != [] {
      WithoutDashesNone(s[..|s| - 1]);
    }
  }

  lemma {:induction false} WithoutDashesHasNone(s: Bytes)
    ensures NoDash(WithoutDashes(s))
  {
    if s != [] {
      WithoutDashesHasNone(s[..|s| - 1]);
    }
  }

  lemma DashedIs(t: Bytes)
    requires |t| >= 20
    ensures Dashed(t) == t[..8] + [DASH] + t[8..12] + [DASH] + t[12..16] + [DASH] + t[16..20] + [DASH] + t[20..]
  {
    var a := Inserted(t, 8);
    var b := Inserted(a, 13);
    assert b == t[..8] + [DASH] + t[8..12] + [DASH] + t[12..];
    var c := Inserted(b, 18);
    assert c == t[..8] + [DASH] + t[8..12] + [DASH] + t[12..16] + [DASH] + t[16..];
  }

  lemma {:induction false} DropDash(a: Bytes, b: Bytes)
    requires NoDash(b)
    ensures WithoutDashes(a + [DASH] + b) == WithoutDashes(a) + b
  {
    var ad := a + [DASH];
    WithoutDashesAppend(ad, b);
    assert WithoutDashes(ad) == WithoutDashes(a) by {
      assert ad[..|ad| - 1] == a;
    }
    WithoutDashesNone(b);
  }

  function Joined(p0: Bytes, p1: Bytes, p2: Bytes, p3: Bytes, p4: Bytes): Bytes {
    p0 + [DASH] + p1 + [DASH] + p2 + [DASH] + p3 + [DASH] + p4
  }

  lemma JoinedWithoutDashes(p0: Bytes, p1: Bytes, p2: Bytes, p3: Bytes, p4: Bytes)
    requires NoDash(p0) && NoDash(p1) && NoDash(p2) && NoDash(p3) && NoDash(p4)
    ensures WithoutDashes(Joined(p0, p1, p2, p3, p4)) == p0 + p1 + p2 + p3 + p4
  {
    WithoutDashesNone(p0);
    DropDash(p0, p1);
    var a := p0 + [DASH] + p1;
    DropDash(a, p2);
    var b := a + [DASH] + p2;
    DropDash(b, p3);
    var c := b + [DASH] + p3;
    DropDash(c, p4);
  }

  lemma FieldRoundTrip(t: Bytes)
    requires |t| >= 20 && NoDash(t)
    ensures Uuid(Dashed(t)) && WithoutDashes(Dashed(t)) == t
  {
    DashedIs(t);
    JoinedWithoutDashes(t[..8], t[8..12], t[12..16], t[16..20], t[20..]);
    assert t == t[..8] + t[8..12] + t[12..16] + t[16..20] + t[20..];
  }

  lemma {:induction false} UuidFieldIs(s: Bytes)
    requires Uuid(s)
    ensures WithoutDashes(s) == s[..8] + s[9..13] + s[14..18] + s[19..23] + s[24..]
  {
    JoinedWithoutDashes(s[..8], s[9..13], s[14..18], s[19..23], s[24..]);
    assert s == Joined(s[..8], s[9..13], s[14..18], s[19..23], s[24..]);
  }

  lemma DashedPieces(p0: Bytes, p1: Bytes, p2: Bytes, p3: Bytes, p4: Bytes)
    requires |p0| == 8 && |p1| == 4 && |p2| == 4 && |p3| == 4
    ensures Dashed(p0 + p1 + p2 + p3 + p4) == Joined(p0, p1, p2, p3, p4)
  {
    var t := p0 + p1 + p2 + p3 + p4;
    DashedIs(t);
    assert t[..8] == p0 && t[8..12] == p1 && t[12..16] == p2 && t[16..20] == p3 && t[20..] == p4;
  }

  lemma {:induction false} UuidReadBack(s: Bytes)
    requires Uuid(s)
    ensures |WithoutDashes(s)| >= 20 && Dashed(WithoutDashes(s)) == s
  {
    UuidFieldIs(s);
    DashedPieces(s[..8], s[9..13], s[14..18], s[19..23], s[24..]);
    assert s == Joined(s[..8], s[9..13], s[14..18], s[19..23], s[24..]);
  }

  /** A key id that leaves enough bytes in the field is read back exactly if it is laid
      out as a UUID. */
  lemma {:induction false} KeyIdRoundTripIff(s: Bytes)
    requires |WithoutDashes(s)| >= 20
    ensures Dashed(WithoutDashes(s)) == s <==> Uuid(s)
  {
    WithoutDashesHasNone(s);
    FieldRoundTrip(WithoutDashes(s));
    if Uuid(s) {
      UuidReadBack(s);
    }
  }

  /** A UUID of 36 characters travels through the header. */
  lemma {:induction false} KeyIdTravels(h: Header, id: Bytes, more: Bytes)
    requires Valid(h) && Uuid(id) && |id| == 36
    ensures |WithoutDashes(id)| == FIELD && Padded(WithoutDashes(id)) == WithoutDashes(id)
    ensures var sent := h.(encryptionKeyId := WithoutDashes(id));
            Dashed(Decode(Encode(sent) + more).encryptionKeyId) == id
    ensures var sent := h.(authenticationKeyId := WithoutDashes(id));
            Dashed(Decode(Encode(sent) + more).authenticationKeyId) == id
  {
    UuidFieldIs(id);
    assert Zeros(0) + WithoutDashes(id) == WithoutDashes(id);
    KeyIdRoundTripIff(id);
    DecodeEncodeIff(h.(encryptionKeyId := WithoutDashes(id)), more);
    DecodeEncodeIff(h.(authenticationKeyId := WithoutDashes(id)), more);
  }

  // ----- Indices

  /** std::stoi of a field of digits: None stands for std::out_of_range. */
  function Stoi(b: Bytes): Option<nat>
    requires Digits(b)
  {
    if Value(b) < 0x8000_0000 then Some(Value(b)) else None
  }

  lemma {:induction false} DecimalLength(n: nat, digits: nat, limit: nat)
    requires n < limit && limit == Power10(digits) && digits > 0
    ensures |Decimal(n)| <= digits
  {
    if n >= 10 {
      DecimalLength(n / 10, digits - 1, limit / 10);
    }
  }

  lemma {:induction false} ZerosValue(k: nat, b: Bytes)
    requires Digits(b)
    ensures Digits(Zeros(k) + b) && Value(Zeros(k) + b) == Value(b)
  {
    if b == [] {
      if k > 0 {
        ZerosValue(k - 1, b);
        assert (Zeros(k) + b)[..k - 1] == Zeros(k - 1) + b;
      }
    } else {
      ZerosValue(k, b[..|b| - 1]);
      assert (Zeros(k) + b)[..|Zeros(k) + b| - 1] == Zeros(k) + b[..|b| - 1];
    }
  }

  /** A key index is read back exactly if it fits an int. */
  lemma {:induction false} IndexRoundTrip(n: nat)
    requires n < UINT32_RANGE
    ensures |Decimal(n)| <= FIELD && Digits(Padded(Decimal(n)))
    ensures Stoi(Padded(Decimal(n))) == if n < 0x8000_0000 then Some(n) else None
  {
    DecimalValue(n);
    assert Power10(10) == 10_000_000_000 by {
      assert Power10(5) == 100_000;
      assert Power10(8) == 100_000_000;
    }
    DecimalLength(n, 10, 10_000_000_000);
    ZerosValue(FIELD - |Decimal(n)|, Decimal(n));
  }
}
