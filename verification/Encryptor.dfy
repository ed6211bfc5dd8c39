/**
 QKDEncryptor: one-time pad on bytes (OTP), on 64 printable characters (COTP), and the
 choice between the modes.  AES is a pair of functions the class is given.
 */
module Encryptor {
  import opened Options
  import opened UInt32
  import opened Text
  import opened Division

  // ----- Exclusive or

  function Xor(a: nat, b: nat): nat
    decreases a + b
  {
    if a == 0 && b == 0 then 0 else 2 * Xor(a / 2, b / 2) + if a % 2 != b % 2 then 1 else 0
  }

  function Power2(bits: nat): (p: nat)
    ensures p > 0
  {
    if bits == 0 then 1 else 2 * Power2(bits - 1)
  }

  lemma {:induction false} XorFits(a: nat, b: nat, bits: nat)
    requires a < Power2(bits) && b < Power2(bits)
    ensures Xor(a, b) < Power2(bits)
    decreases bits
  {
    if bits > 0 {
      XorFits(a / 2, b / 2, bits - 1);
    }
  }

  lemma {:induction false} XorTwice(a: nat, b: nat)
    ensures Xor(a, Xor(a, b)) == b
    decreases a + b
  {
    if a != 0 || b != 0 {
      XorTwice(a / 2, b / 2);
      var x := Xor(a, b);
      assert x / 2 == Xor(a / 2, b / 2) && x % 2 == if a % 2 != b % 2 then 1 else 0;
      if a == 0 && x == 0 {
      } else {
        assert Xor(a, x) == 2 * Xor(a / 2, x / 2) + if a % 2 != x % 2 then 1 else 0;
      }
    }
  }

  lemma {:induction false} XorSelf(a: nat)
    ensures Xor(a, a) == 0
  {
    if a > 0 {
      XorSelf(a / 2);
    }
  }

  /** With all ones: the complement. */
  lemma {:induction false} XorOnes(v: nat, bits: nat)
    requires v < Power2(bits)
    ensures Xor(Power2(bits) - 1, v) == Power2(bits) - 1 - v
    ensures Xor(v, Power2(bits) - 1) == Power2(bits) - 1 - v
    decreases bits
  {
    if bits > 0 {
      XorOnes(v / 2, bits - 1);
      var n := Power2(bits - 1);
      OnesUp(n - 1, v / 2, v % 2);
      assert 2 * (n - 1) + 1 == Power2(bits) - 1 && 2 * (v / 2) + v % 2 == v;
    }
  }

  lemma OnesUp(ones: nat, h: nat, q: nat)
    requires h <= ones && q < 2 && Xor(ones, h) == ones - h && Xor(h, ones) == ones - h
    ensures Xor(2 * ones + 1, 2 * h + q) == 2 * ones + 1 - (2 * h + q)
    ensures Xor(2 * h + q, 2 * ones + 1) == 2 * ones + 1 - (2 * h + q)
  {
    XorStep(ones, 1, h, q);
    XorStep(h, q, ones, 1);
  }

  lemma {:induction false} XorStep(a: nat, p: nat, b: nat, q: nat)
    requires p < 2 && q < 2
    ensures Xor(2 * a + p, 2 * b + q) == 2 * Xor(a, b) + if p != q then 1 else 0
  {
    var x, y := 2 * a + p, 2 * b + q;
    assert x / 2 == a && x % 2 == p && y / 2 == b && y % 2 == q;
  }

  /** The bit of a number that counts Power2(i). */
  function BitOf(n: nat, i: nat): nat {
    n / Power2(i) % 2
  }

  /** A bit of the result is set exactly where the two numbers differ. */
  lemma {:induction false} XorBits(a: nat, b: nat, i: nat)
    ensures BitOf(Xor(a, b), i) == 1 <==> BitOf(a, i) != BitOf(b, i)
    decreases i
  {
    var x := Xor(a, b);
    assert x / 2 == Xor(a / 2, b / 2) && x % 2 == if a % 2 != b % 2 then 1 else 0;
    if i > 0 {
      XorBits(a / 2, b / 2, i - 1);
      HigherBit(a, i);
      HigherBit(b, i);
      HigherBit(x, i);
    }
  }

  lemma HigherBit(n: nat, i: nat)
    requires i > 0
    ensures BitOf(n, i) == BitOf(n / 2, i - 1)
  {
    DivideTwice(n, 2, Power2(i - 1));
  }

  // ----- OTP

  /** Every bit of out says whether key and text differ there. */
  predicate BitsDiffer(key: Byte, text: Byte, out: Byte) {
    forall i :: 0 <= i < 8 ==> (BitOf(out, i) == 1 <==> BitOf(key, i) != BitOf(text, i))
  }

  lemma XorByteBits(a: Byte, b: Byte)
    ensures BitsDiffer(a, b, XorByte(a, b))
  {
    forall i | 0 <= i < 8 ensures BitOf(XorByte(a, b), i) == 1 <==> BitOf(a, i) != BitOf(b, i) {
      XorBits(a, b, i);
    }
  }

  function XorByte(a: Byte, b: Byte): Byte {
    XorFits(a, b, 8);
    assert Power2(8) == 256 by { assert Power2(4) == 16; }
    Xor(a, b)
  }

  /** None: key and text differ in length, which is fatal. */
  function Otp(key: Bytes, text: Bytes): Option<Bytes> {
    if |key| != |text| then None else Some(seq(|text|, i requires 0 <= i < |text| => XorByte(key[i], text[i])))
  }

  lemma OtpTwice(key: Bytes, text: Bytes)
    requires |key| == |text|
    ensures Otp(key, Otp(key, text).value) == Some(text)
  {
    var once := Otp(key, text).value;
    var twice := Otp(key, once).value;
    forall i | 0 <= i < |text| ensures twice[i] == text[i] {
      XorTwice(key[i], text[i]);
    }
    assert twice == text;
  }

  lemma {:induction false} XorSwaps(a: nat, b: nat)
    ensures Xor(a, b) == Xor(b, a)
    decreases a + b
  {
    if a != 0 || b != 0 {
      XorSwaps(a / 2, b / 2);
    }
  }

  /** Every ciphertext of its length comes from a text under exactly one key, so that
      without the key it says nothing about the text; the zero key changes nothing. */
  lemma OnePadKey(key: Bytes, text: Bytes, cipher: Bytes)
    requires |key| == |text| == |cipher|
    ensures Otp(key, text) == Some(cipher) <==> Otp(text, cipher) == Some(key)
    ensures Otp(key, text) == Otp(text, key)
    ensures Otp(key, text) == Some(text) <==> forall i :: 0 <= i < |key| ==> key[i] == 0
  {
    var a, b := Otp(key, text).value, Otp(text, cipher).value;
    forall i | 0 <= i < |text|
      ensures (a[i] == cipher[i] <==> b[i] == key[i]) && XorByte(key[i], text[i]) == XorByte(text[i], key[i])
      ensures a[i] == text[i] <==> key[i] == 0
    {
      XorSwaps(key[i], text[i]);
      XorTwice(text[i], key[i]);
      XorTwice(text[i], cipher[i]);
      XorTwice(text[i], 0);
      XorZero(text[i]);
    }
    assert a == cipher <==> b == key;
    assert a == Otp(text, key).value;
    assert a == text <==> forall i :: 0 <= i < |key| ==> a[i] == text[i];
  }

  lemma {:induction false} XorZero(a: nat)
    ensures Xor(a, 0) == a && Xor(0, a) == a
  {
    if a > 0 {
      XorZero(a / 2);
    }
  }

  /** The loop of OTP. */
  method OTP(key: Bytes, cipherText: Bytes) returns (output: Option<Bytes>)
    ensures output == Otp(key, cipherText)
    ensures output.None? <==> |key| != |cipherText|
    ensures output.Some? ==> |output.value| == |cipherText|
                             && forall j :: 0 <= j < |cipherText| ==> BitsDiffer(key[j], cipherText[j], output.value[j])
  {
    if |key| != |cipherText| {
      return None;
    }
    var text: Bytes := [];
    for i := 0 to |cipherText|
      invariant |text| == i && forall k :: 0 <= k < i ==> text[k] == XorByte(key[k], cipherText[k])
    {
      text := text + [XorByte(key[i], cipherText[i])];
    }
    assert text == Otp(key, cipherText).value;
    forall j | 0 <= j < |cipherText| ensures BitsDiffer(key[j], cipherText[j], text[j]) {
      XorByteBits(key[j], cipherText[j]);
    }
    output := Some(text);
  }

  // ----- COTP

  const NO_VALUE: nat := 0xFFFF_FFFF  // -1 as unsigned int

  function ValueOf(c: Byte): nat {
    if 48 <= c <= 57 then c - 48              // 0-9
    else if 97 <= c <= 122 then c - 97 + 10   // a-z
    else if 65 <= c <= 90 then c - 65 + 36    // A-Z
    else if c == 42 then 62                   // *
    else if c == 36 then 63                   // $
    else NO_VALUE
  }

  /** The table COTP takes its output from. */
  function CharOf(v: nat): Byte
    requires v < 64
  {
    if v < 10 then 48 + v
    else if v < 36 then 97 + (v - 10)
    else if v < 62 then 65 + (v - 36)
    else if v == 62 then 42 else 36
  }

  predicate InAlphabet(c: Byte) {
    ValueOf(c) < 64
  }

  lemma CharsAndValues(c: Byte, v: nat)
    requires v < 64
    ensures ValueOf(CharOf(v)) == v
    ensures InAlphabet(c) ==> CharOf(ValueOf(c)) == c
    ensures !InAlphabet(c) ==> ValueOf(c) == NO_VALUE
  {
  }

  const NUMERALS := "0123456789"
  const LOWER := "abcdefghijklmnopqrstuvwxyz"
  const UPPER := "ABCDEFGHIJKLMNOPQRSTUVWXYZ"
  const SPECIAL := "*$"

  const ALPHABET: string := NUMERALS + LOWER + UPPER + SPECIAL

  lemma NumeralIs(v: nat)
    requires v < 10
    ensures |NUMERALS| == 10 && NUMERALS[v] as int == 48 + v
  {
  }

  lemma LowerIs(v: nat)
    requires v < 26
    ensures |LOWER| == 26 && LOWER[v] as int == 97 + v
  {
  }

  lemma UpperIs(v: nat)
    requires v < 26
    ensures |UPPER| == 26 && UPPER[v] as int == 65 + v
  {
  }

  lemma PartOf(n: string, l: string, u: string, x: string, v: nat)
    requires |n| == 10 && |l| == 26 && |u| == 26 && |x| == 2 && v < 64
    ensures |n + l + u + x| == 64
    ensures (n + l + u + x)[v] ==
            if v < 10 then n[v] else if v < 36 then l[v - 10] else if v < 62 then u[v - 36] else x[v - 62]
  {
  }

  /** The table is that alphabet. */
  lemma AlphabetIs(v: nat)
    requires v < 64
    ensures |ALPHABET| == 64 && ALPHABET[v] as int == CharOf(v) && ValueOf(ALPHABET[v] as int) == v
  {
    NumeralIs(if v < 10 then v else 0);
    LowerIs(if 10 <= v < 36 then v - 10 else 0);
    UpperIs(if 36 <= v < 62 then v - 36 else 0);
    PartOf(NUMERALS, LOWER, UPPER, SPECIAL, v);
    CharsAndValues(CharOf(v), v);
  }

  /** One character: None when the assertion on the index fails. */
  function CotpChar(key: Byte, c: Byte): Option<Byte> {
    var v := Xor(ValueOf(key), ValueOf(c));
    if v < 64 then Some(CharOf(v)) else None
  }

  lemma CotpCharOf(key: Byte, c: Byte, v: nat)
    requires v < 64 && Xor(ValueOf(key), ValueOf(c)) == v
    ensures CotpChar(key, c) == Some(CharOf(v))
  {
  }

  lemma CotpCharInside(key: Byte, c: Byte)
    requires InAlphabet(key) && InAlphabet(c)
    ensures CotpChar(key, c).Some? && InAlphabet(CotpChar(key, c).value)
    ensures CotpChar(key, CotpChar(key, c).value) == Some(c)
  {
    var a, b := ValueOf(key), ValueOf(c);
    Powers();
    XorFits(a, b, 6);
    var v := Xor(a, b);
    XorTwice(a, b);
    CotpCharOf(key, c, v);
    CharsAndValues(c, v);
    CotpCharOf(key, CharOf(v), b);
  }

  /** An index is found exactly for two characters of the alphabet, or for two that are
      both outside it; the latter give '0', so that only the former can be decrypted. */
  lemma CotpCharIff(key: Byte, c: Byte)
    ensures CotpChar(key, c).Some? <==> (InAlphabet(key) <==> InAlphabet(c))
    ensures InAlphabet(key) && InAlphabet(c) ==>
              InAlphabet(CotpChar(key, c).value) && CotpChar(key, CotpChar(key, c).value) == Some(c)
    ensures !InAlphabet(key) && !InAlphabet(c) ==>
              CotpChar(key, c) == Some(ZERO) && CotpChar(key, ZERO).None?
  {
    var a, b := ValueOf(key), ValueOf(c);
    Powers();
    CharsAndValues(key, 0);
    CharsAndValues(c, 0);
    if InAlphabet(key) && InAlphabet(c) {
      CotpCharInside(key, c);
    } else if InAlphabet(key) {
      XorOnes(a, 32);
    } else if InAlphabet(c) {
      XorOnes(b, 32);
    } else {
      XorSelf(NO_VALUE);
      XorOnes(0, 32);
    }
  }

  lemma Powers()
    ensures Power2(6) == 64 && Power2(32) == UINT32_RANGE
  {
    assert Power2(6) == 64;
    assert Power2(12) == 4096;
    assert Power2(18) == 0x4_0000;
    assert Power2(24) == 0x100_0000;
    assert Power2(28) == 0x1000_0000;
  }

  function CotpFrom(key: Bytes, text: Bytes): Option<Bytes>
    requires |key| == |text|
  {
    if text == [] then Some([])
    else
      match CotpFrom(key[..|key| - 1], text[..|text| - 1])
      case None => None
      case Some(front) =>
        match CotpChar(key[|key| - 1], text[|text| - 1])
        case None => None
        case Some(c) => Some(front + [c])
  }

  function Cotp(key: Bytes, text: Bytes): Option<Bytes> {
    if |key| != |text| then None else CotpFrom(key, text)
  }

  /** c is the v-th character of the alphabet. */
  predicate IsChar(c: Byte, v: nat) {
    v < |ALPHABET| && ALPHABET[v] as int == c
  }

  lemma InAlphabetIff(c: Byte)
    ensures InAlphabet(c) <==> exists v :: 0 <= v < 64 && IsChar(c, v)
  {
    if InAlphabet(c) {
      CharsAndValues(c, ValueOf(c));
      AlphabetIs(ValueOf(c));
      assert IsChar(c, ValueOf(c));
    }
    forall v | 0 <= v < 64 && IsChar(c, v) ensures InAlphabet(c) {
      AlphabetIs(v);
    }
  }

  /** One of the two characters is in the alphabet and the other is not. */
  predicate Mixed(key: Bytes, text: Bytes, j: nat) {
    j < |key| && j < |text| && InAlphabet(key[j]) != InAlphabet(text[j])
  }

  /** COTP fails exactly for different lengths and at mixed characters. */
  lemma {:induction false} CotpFailsIff(key: Bytes, text: Bytes)
    ensures Cotp(key, text).None? <==> |key| != |text| || exists j :: Mixed(key, text, j)
    decreases |text|
  {
    if |key| == |text| && text != [] {
      var last := |text| - 1;
      CotpFailsIff(key[..last], text[..last]);
      CotpCharIff(key[last], text[last]);
      MixedFront(key, text, last);
    }
  }

  lemma MixedFront(key: Bytes, text: Bytes, last: nat)
    requires |key| == |text| == last + 1
    ensures (exists j :: Mixed(key, text, j)) <==>
              (exists j :: Mixed(key[..last], text[..last], j)) || InAlphabet(key[last]) != InAlphabet(text[last])
  {
    forall j: nat ensures j < last ==> (Mixed(key, text, j) <==> Mixed(key[..last], text[..last], j)) {
    }
    assert Mixed(key, text, last) <==> InAlphabet(key[last]) != InAlphabet(text[last]);
    if j :| Mixed(key, text, j) {
      assert j == last || Mixed(key[..last], text[..last], j);
    }
    if j :| Mixed(key[..last], text[..last], j) {
      assert Mixed(key, text, j);
    }
  }

  /** The position of out in the alphabet has its bits where those of key and c differ. */
  predicate PositionsDiffer(key: Byte, c: Byte, out: Byte) {
    exists u, v, w :: 0 <= u < 64 && 0 <= v < 64 && 0 <= w < 64 && IsChar(key, u) && IsChar(c, v) && IsChar(out, w)
                      && forall i :: 0 <= i < 6 ==> (BitOf(w, i) == 1 <==> BitOf(u, i) != BitOf(v, i))
  }

  lemma CotpCharBits(key: Byte, c: Byte)
    requires InAlphabet(key) && InAlphabet(c)
    ensures CotpChar(key, c).Some? && PositionsDiffer(key, c, CotpChar(key, c).value)
  {
    var u, v := ValueOf(key), ValueOf(c);
    var w := Xor(u, v);
    Powers();
    XorFits(u, v, 6);
    CharsAndValues(key, u);
    CharsAndValues(c, v);
    AlphabetIs(u);
    AlphabetIs(v);
    AlphabetIs(w);
    forall i | 0 <= i < 6 ensures BitOf(w, i) == 1 <==> BitOf(u, i) != BitOf(v, i) {
      XorBits(u, v, i);
    }
    assert IsChar(key, u) && IsChar(c, v) && IsChar(CharOf(w), w);
  }

  /** COTP of two strings of the alphabet is the exclusive or of positions. */
  lemma {:induction false} CotpBits(key: Bytes, text: Bytes, out: Bytes)
    requires |key| == |text| && Printable(key) && Printable(text) && Cotp(key, text) == Some(out)
    ensures AllDiffer(key, text, out)
  {
    if text != [] {
      var last := |text| - 1;
      var front := CotpFrom(key[..last], text[..last]).value;
      CotpBits(key[..last], text[..last], front);
      CotpCharBits(key[last], text[last]);
      OneMoreDiffers(key, text, out, front);
    }
  }

  predicate AllDiffer(key: Bytes, text: Bytes, out: Bytes) {
    |out| == |text| == |key| && forall j :: 0 <= j < |text| ==> PositionsDiffer(key[j], text[j], out[j])
  }

  lemma OneMoreDiffers(key: Bytes, text: Bytes, out: Bytes, front: Bytes)
    requires |key| == |text| == |out| > 0 && front == out[..|out| - 1]
    requires AllDiffer(key[..|key| - 1], text[..|text| - 1], front)
    requires PositionsDiffer(key[|key| - 1], text[|text| - 1], out[|out| - 1])
    ensures AllDiffer(key, text, out)
  {
    var k, t := key[..|key| - 1], text[..|text| - 1];
    forall j | 0 <= j < |text| - 1 ensures PositionsDiffer(key[j], text[j], out[j]) {
      assert PositionsDiffer(k[j], t[j], front[j]);
    }
  }

  method COTP(key: Bytes, input: Bytes) returns (output: Option<Bytes>)
    ensures output == Cotp(key, input)
  {
    if |key| != |input| {
      return None;
    }
    var text: Bytes := [];
    for i := 0 to |input|
      invariant CotpFrom(key[..i], input[..i]) == Some(text)
    {
      assert key[..i + 1][..i] == key[..i] && input[..i + 1][..i] == input[..i];
      var v := Xor(ValueOf(key[i]), ValueOf(input[i]));
      if v >= 64 {
        CotpFails(key, input, i + 1);
        return None;
      }
      text := text + [CharOf(v)];
    }
    assert key[..|input|] == key && input[..|input|] == input;
    output := Some(text);
  }

  lemma {:induction false} CotpFails(key: Bytes, text: Bytes, n: nat)
    requires |key| == |text| && n <= |text| && CotpFrom(key[..n], text[..n]).None?
    ensures CotpFrom(key, text).None?
    decreases |text|
  {
    if n == |text| {
      assert key[..n] == key && text[..n] == text;
    } else {
      assert key[..|key| - 1][..n] == key[..n] && text[..|text| - 1][..n] == text[..n];
      CotpFails(key[..|key| - 1], text[..|text| - 1], n);
    }
  }

  predicate Printable(s: Bytes) {
    forall i :: 0 <= i < |s| ==> InAlphabet(s[i])
  }

  /** COTP is closed on its alphabet and undoes itself. */
  lemma {:induction false} CotpTwice(key: Bytes, text: Bytes)
    requires |key| == |text| && Printable(key) && Printable(text)
    ensures Cotp(key, text).Some? && Printable(Cotp(key, text).value) && |Cotp(key, text).value| == |text|
    ensures Cotp(key, Cotp(key, text).value) == Some(text)
  {
    if text != [] {
      var k, t := key[..|key| - 1], text[..|text| - 1];
      CotpTwice(k, t);
      CotpCharIff(key[|key| - 1], text[|text| - 1]);
      var once := Cotp(key, text).value;
      assert once[..|once| - 1] == Cotp(k, t).value;
      assert text == t + [text[|text| - 1]];
    }
  }

  /** The last character by itself. */
  lemma CotpLast(key: Bytes, text: Bytes, n: nat)
    requires |key| == |text| == n + 1 && Cotp(key, text).Some?
    ensures var front := Cotp(key[..n], text[..n]);
            && front.Some? && CotpChar(key[n], text[n]).Some?
            && Cotp(key, text).value == front.value + [CotpChar(key[n], text[n]).value]
  {
  }

  lemma {:induction false} CotpLength(key: Bytes, text: Bytes)
    requires Cotp(key, text).Some?
    ensures |Cotp(key, text).value| == |text| == |key|
    decreases |text|
  {
    if text != [] {
      CotpLast(key, text, |text| - 1);
      CotpLength(key[..|text| - 1], text[..|text| - 1]);
    }
  }

  /** What can be decrypted was in the alphabet, and so was its key. */
  lemma {:induction false} CotpNeedsAlphabet(key: Bytes, text: Bytes, once: Bytes)
    requires Cotp(key, text) == Some(once) && Cotp(key, once).Some?
    ensures Printable(key) && Printable(text)
    decreases |text|
  {
    CotpLength(key, text);
    if text != [] {
      var n := |text| - 1;
      CotpLast(key, text, n);
      CotpLast(key, once, n);
      var front := Cotp(key[..n], text[..n]).value;
      CotpLength(key[..n], text[..n]);
      assert once[..n] == front && once[n] == CotpChar(key[n], text[n]).value;
      CotpNeedsAlphabet(key[..n], text[..n], front);
      CotpCharIff(key[n], text[n]);
      PrintableLast(key, n);
      PrintableLast(text, n);
    }
  }

  lemma PrintableLast(s: Bytes, n: nat)
    requires |s| == n + 1 && Printable(s[..n]) && InAlphabet(s[n])
    ensures Printable(s)
  {
    forall i | 0 <= i < |s| ensures InAlphabet(s[i]) {
      if i < n {
        assert s[i] == s[..n][i];
      }
    }
  }

  /** COTP can be undone with the same key exactly if key and text are in the alphabet. */
  lemma CotpRoundTripIff(key: Bytes, text: Bytes)
    requires |key| == |text|
    ensures Printable(key) && Printable(text) <==>
              Cotp(key, text).Some? && Cotp(key, Cotp(key, text).value) == Some(text)
  {
    if Printable(key) && Printable(text) {
      CotpTwice(key, text);
    }
    if Cotp(key, text).Some? && Cotp(key, Cotp(key, text).value) == Some(text) {
      CotpNeedsAlphabet(key, text, Cotp(key, text).value);
    }
  }

  /** What has been sent over the hops, and what arrives behind the last. */
  datatype Relay = Relay(sent: seq<Bytes>, received: Bytes)

  /** Trusted-node relay: each hop encrypts with its own key, the next node decrypts. */
  function Relayed(keys: seq<Bytes>, message: Bytes): Option<Relay> {
    if keys == [] then Some(Relay([], message))
    else
      match Cotp(keys[0], message)
      case None => None
      case Some(sent) =>
        match Cotp(keys[0], sent)
        case None => None
        case Some(received) =>
          match Relayed(keys[1..], received)
          case None => None
          case Some(rest) => Some(Relay([sent] + rest.sent, rest.received))
  }

  /** The message after encryption with each of the keys in turn. */
  function Wrapped(keys: seq<Bytes>, message: Bytes): Option<Bytes> {
    if keys == [] then Some(message)
    else
      match Cotp(keys[0], message)
      case None => None
      case Some(sent) => Wrapped(keys[1..], sent)
  }

  predicate HopKeys(keys: seq<Bytes>, length: nat) {
    forall i :: 0 <= i < |keys| ==> |keys[i]| == length && Printable(keys[i])
  }

  /** Over any number of hops, with any printable hop keys of its length, a printable
      message arrives as it was sent, and every hop carries it under its own key. */
  lemma {:induction false} RelayReturnsMessage(keys: seq<Bytes>, message: Bytes)
    requires Printable(message) && HopKeys(keys, |message|)
    ensures Relayed(keys, message).Some? && Relayed(keys, message).value.received == message
    ensures var sent := Relayed(keys, message).value.sent;
            |sent| == |keys| && forall i :: 0 <= i < |keys| ==> AllDiffer(keys[i], message, sent[i])
  {
    if keys != [] {
      CotpTwice(keys[0], message);
      CotpBits(keys[0], message, Cotp(keys[0], message).value);
      RelayReturnsMessage(keys[1..], message);
    }
  }

  lemma {:induction false} WrappedAppend(keys: seq<Bytes>, more: seq<Bytes>, message: Bytes)
    requires Wrapped(keys, message).Some?
    ensures Wrapped(keys + more, message) == Wrapped(more, Wrapped(keys, message).value)
  {
    if keys == [] {
      assert keys + more == more;
    } else {
      assert (keys + more)[1..] == keys[1..] + more;
      WrappedAppend(keys[1..], more, Cotp(keys[0], message).value);
    }
  }

  /** The last key goes on last. */
  lemma {:induction false} LastLayer(keys: seq<Bytes>, key: Bytes, message: Bytes)
    requires Wrapped(keys, message).Some?
    ensures Wrapped(keys + [key], message) == Cotp(key, Wrapped(keys, message).value)
  {
    WrappedAppend(keys, [key], message);
    assert [key][1..] == [];
  }

  function Reversed(keys: seq<Bytes>): seq<Bytes> {
    if keys == [] then [] else Reversed(keys[1..]) + [keys[0]]
  }

  /** Layers of COTP come off in reverse order. */
  lemma {:induction false} UnwrapReturnsMessage(keys: seq<Bytes>, message: Bytes)
    requires Printable(message) && HopKeys(keys, |message|)
    ensures Wrapped(keys, message).Some?
    ensures Wrapped(Reversed(keys), Wrapped(keys, message).value) == Some(message)
  {
    if keys != [] {
      CotpTwice(keys[0], message);
      var once := Cotp(keys[0], message).value;
      UnwrapReturnsMessage(keys[1..], once);
      WrappedAppend(Reversed(keys[1..]), [keys[0]], Wrapped(keys[1..], once).value);
      assert Wrapped([keys[0]], once) == Wrapped([], message);
    }
  }

  // ----- Modes

  datatype Authentication = Unauthenticated | Vmac | Md5 | Sha1

  /** UNENCRYPTED, QKDCRYPTO_OTP, QKDCRYPTO_AES. */
  datatype Mode = Unencrypted | OneTimePad | Aes

  /** The one-time pad of both directions: a key that is too long is cut, a key that is
      too short is fatal. */
  function PadWith(key: Bytes, input: Bytes): Option<Bytes> {
    if |key| > |input| then Otp(key[..|input|], input) else Otp(key, input)
  }

  class QKDEncryptor {
    var m_encryptionType: Mode
    var m_authenticationType: Authentication
    var m_authenticationTagLengthInBits: nat
    const aesEncrypt: (Bytes, Bytes) -> Bytes
    const aesDecrypt: (Bytes, Bytes) -> Bytes

    constructor (mode: Mode, authentication: Authentication, aesEncrypt: (Bytes, Bytes) -> Bytes,
                 aesDecrypt: (Bytes, Bytes) -> Bytes)
      ensures m_encryptionType == mode && m_authenticationType == authentication
      ensures m_authenticationTagLengthInBits == 256
      ensures this.aesEncrypt == aesEncrypt && this.aesDecrypt == aesDecrypt
    {
      m_encryptionType, m_authenticationType, m_authenticationTagLengthInBits := mode, authentication, 256;
      this.aesEncrypt, this.aesDecrypt := aesEncrypt, aesDecrypt;
    }

    /** The tag length is 128 or 256 bits; anything else is fatal and sets nothing. */
    method ChangeSettings(mode: Mode, authentication: Authentication, authTagLength: nat) returns (fatal: bool)
      modifies this
      ensures fatal <==> authTagLength != 128 && authTagLength != 256
      ensures fatal ==> m_encryptionType == old(m_encryptionType) && m_authenticationType == old(m_authenticationType)
                        && m_authenticationTagLengthInBits == old(m_authenticationTagLengthInBits)
      ensures !fatal ==> m_encryptionType == mode && m_authenticationType == authentication
                         && m_authenticationTagLengthInBits == authTagLength
    {
      fatal := authTagLength != 128 && authTagLength != 256;
      if !fatal {
        m_encryptionType, m_authenticationType := mode, authentication;
        m_authenticationTagLengthInBits := authTagLength;
      }
    }

    function Encrypted(input: Bytes, key: Bytes): Option<Bytes>
      reads this
    {
      match m_encryptionType
      case Unencrypted => Some(input)
      case OneTimePad => PadWith(key, input)
      case Aes => Some(aesEncrypt(key, input))
    }

    function Decrypted(input: Bytes, key: Bytes): Option<Bytes>
      reads this
    {
      match m_encryptionType
      case Unencrypted => Some(input)
      case OneTimePad => PadWith(key, input)
      case Aes => Some(aesDecrypt(key, input))
    }

    method EncryptMsg(input: Bytes, key: Bytes) returns (output: Option<Bytes>)
      ensures output == Encrypted(input, key)
      ensures m_encryptionType == Unencrypted ==> output == Some(input)
      ensures m_encryptionType == Aes ==> output == Some(aesEncrypt(key, input))
      ensures m_encryptionType == OneTimePad ==> (output.None? <==> |key| < |input|)
      ensures m_encryptionType == OneTimePad && output.Some? ==>
                |output.value| == |input|
                && forall j :: 0 <= j < |input| ==> BitsDiffer(key[j], input[j], output.value[j])
    {
      match m_encryptionType
      case Unencrypted =>
        output := Some(input);
      case OneTimePad =>
        if |key| > |input| {
          output := OTP(key[..|input|], input);
        } else {
          output := OTP(key, input);
        }
      case Aes =>
        output := Some(aesEncrypt(key, input));
    }

    method DecryptMsg(input: Bytes, key: Bytes) returns (output: Option<Bytes>)
      ensures output == Decrypted(input, key)
      ensures m_encryptionType == Unencrypted ==> output == Some(input)
      ensures m_encryptionType == Aes ==> output == Some(aesDecrypt(key, input))
      ensures m_encryptionType == OneTimePad ==> (output.None? <==> |key| < |input|)
      ensures m_encryptionType == OneTimePad && output.Some? ==>
                |output.value| == |input|
                && forall j :: 0 <= j < |input| ==> BitsDiffer(key[j], input[j], output.value[j])
    {
      match m_encryptionType
      case Unencrypted =>
        output := Some(input);
      case OneTimePad =>
        if |key| > |input| {
          output := OTP(key[..|input|], input);
        } else {
          output := OTP(key, input);
        }
      case Aes =>
        output := Some(aesDecrypt(key, input));
    }

    /** DecryptMsg undoes EncryptMsg: always without encryption, with one-time pad exactly
        for keys at least as long as the message, with AES as far as AES does. */
    lemma DecryptUndoesEncryptIff(input: Bytes, key: Bytes)
      ensures m_encryptionType == Unencrypted ==>
                Encrypted(input, key) == Some(input) && Decrypted(input, key) == Some(input)
      ensures m_encryptionType == OneTimePad ==>
                (Encrypted(input, key).Some? && Decrypted(Encrypted(input, key).value, key) == Some(input)
                 <==> |key| >= |input|)
      ensures m_encryptionType == OneTimePad && |key| < |input| ==> Encrypted(input, key) == None
      ensures m_encryptionType == Aes && aesDecrypt(key, aesEncrypt(key, input)) == input ==>
                Decrypted(Encrypted(input, key).value, key) == Some(input)
    {
      if m_encryptionType == OneTimePad && |key| >= |input| {
        assert key[..|input|] == if |key| > |input| then key[..|input|] else key;
        OtpTwice(key[..|input|], input);
      }
    }
  }
}
