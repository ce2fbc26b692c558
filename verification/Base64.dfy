/** The tolerant base64 decoder for logs carried over a noisy serial console, against
    the encoding of section 4 of RFC 4648.
 */
module Base64 {
  import opened Wrappers
  import opened Bytes

  type Sextet = x: int | 0 <= x < 64

  const PAD: Byte := 61

  // ---- The alphabet -------------------------------------------------------

  function CharOf(v: Sextet): Byte {
    if v < 26 then 65 + v
    else if v < 52 then 71 + v
    else if v < 62 then v - 4
    else if v == 62 then 43
    else 47
  }

  predicate InAlphabet(c: Byte) {
    65 <= c <= 90 || 97 <= c <= 122 || 48 <= c <= 57 || c == 43 || c == 47
  }

  function ValueOf(c: Byte): (v: Sextet)
    requires InAlphabet(c)
    ensures CharOf(v) == c
  {
    if 65 <= c <= 90 then c - 65
    else if 97 <= c <= 122 then c - 71
    else if 48 <= c <= 57 then c + 4
    else if c == 43 then 62
    else 63
  }

  /** Sixteen groups in a row, as characters. */
  function Row(v: Sextet): string
    requires v <= 48
  {
    [CharOf(v) as char, CharOf(v + 1) as char, CharOf(v + 2) as char, CharOf(v + 3) as char,
     CharOf(v + 4) as char, CharOf(v + 5) as char, CharOf(v + 6) as char, CharOf(v + 7) as char,
     CharOf(v + 8) as char, CharOf(v + 9) as char, CharOf(v + 10) as char, CharOf(v + 11) as char,
     CharOf(v + 12) as char, CharOf(v + 13) as char, CharOf(v + 14) as char, CharOf(v + 15) as char]
  }

  /** The 64 groups are written as table 1 of RFC 4648 says. */
  lemma AlphabetIsTheTable()
    ensures Row(0) == "ABCDEFGHIJKLMNOP" && Row(16) == "QRSTUVWXYZabcdef"
    ensures Row(32) == "ghijklmnopqrstuv" && Row(48) == "wxyz0123456789+/"
  {
  }

  /** The three bytes of a quantum of four groups. */
  function First(a: Sextet, b: Sextet): Byte {
    var hi: int, lo: int := a, b;
    hi * 4 + lo / 16
  }

  function Second(b: Sextet, c: Sextet): Byte {
    var hi: int, lo: int := b, c;
    hi % 16 * 16 + lo / 4
  }

  function Third(c: Sextet, d: Sextet): Byte {
    var hi: int, lo: int := c, d;
    hi % 4 * 64 + lo
  }

  // ---- Encoding -----------------------------------------------------------

  /** The 6-bit groups of a byte string, the last one filled with zero bits. */
  function Sextets(s: seq<Byte>): (v: seq<Sextet>)
    ensures |v| == (|s| * 4 + 2) / 3
  {
    if |s| == 0 then []
    else if |s| == 1 then [s[0] / 4, s[0] % 4 * 16]
    else if |s| == 2 then [s[0] / 4, s[0] % 4 * 16 + s[1] / 16, s[1] % 16 * 4]
    else [s[0] / 4, s[0] % 4 * 16 + s[1] / 16, s[1] % 16 * 4 + s[2] / 64, s[2] % 64] + Sextets(s[3..])
  }

  function Chars(v: seq<Sextet>): (c: seq<Byte>)
    ensures |c| == |v| && forall i | 0 <= i < |c| :: c[i] == CharOf(v[i]) && InAlphabet(c[i])
  {
    seq(|v|, i requires 0 <= i < |v| => CharOf(v[i]))
  }

  /** The padding that fills the last quantum. */
  function Padding(len: nat): seq<Byte> {
    if len % 3 == 0 then [] else if len % 3 == 1 then [PAD, PAD] else [PAD]
  }

  function Encode(s: seq<Byte>): seq<Byte> {
    Chars(Sextets(s)) + Padding(|s|)
  }

  // ---- The tolerant decoder -----------------------------------------------

  /** Keep only alphabet bytes. */
  function Compact(raw: seq<Byte>): (c: seq<Byte>)
    ensures forall i | 0 <= i < |c| :: InAlphabet(c[i])
  {
    if raw == [] then []
    else if InAlphabet(raw[0]) then [raw[0]] + Compact(raw[1..])
    else Compact(raw[1..])
  }

  /** A padded base64 decoder: whole quanta, padding only in the last one. */
  function DecodePadded(c: seq<Byte>): Option<seq<Byte>> {
    if c == [] then Some([])
    else if |c| < 4 || !InAlphabet(c[0]) || !InAlphabet(c[1]) then None
    else
      var first := First(ValueOf(c[0]), ValueOf(c[1]));
      if |c| == 4 && c[2] == PAD && c[3] == PAD then Some([first])
      else if !InAlphabet(c[2]) then None
      else
        var second := Second(ValueOf(c[1]), ValueOf(c[2]));
        if |c| == 4 && c[3] == PAD then Some([first, second])
        else if !InAlphabet(c[3]) then None
        else
          var rest := DecodePadded(c[4..]);
          if rest.None? then None
          else Some([first, second, Third(ValueOf(c[2]), ValueOf(c[3]))] + rest.value)
  }

  /** Cut a lone trailing character, or pad to a whole quantum. */
  function Repad(compact: seq<Byte>): seq<Byte> {
    var rem := |compact| % 4;
    if rem == 1 then compact[..|compact| - 1]
    else if rem == 2 then compact + [PAD, PAD]
    else if rem == 3 then compact + [PAD]
    else compact
  }

  function DecodeTolerant(raw: seq<Byte>): seq<Byte> {
    var padded := Repad(Compact(raw));
    if padded == [] then []
    else match DecodePadded(padded)
         case Some(bytes) => bytes
         case None => []
  }

  // ---- What the decoder computes ------------------------------------------

  function Values(c: seq<Byte>): (v: seq<Sextet>)
    requires forall i | 0 <= i < |c| :: InAlphabet(c[i])
    ensures |v| == |c| && forall i | 0 <= i < |v| :: v[i] == ValueOf(c[i])
  {
    seq(|c|, i requires 0 <= i < |c| => ValueOf(c[i]))
  }

  /** The whole bytes contained in a run of 6-bit groups. */
  function WholeBytes(v: seq<Sextet>): (s: seq<Byte>)
    ensures |s| == |v| * 3 / 4
  {
    if |v| < 2 then []
    else if |v| == 2 then [First(v[0], v[1])]
    else if |v| == 3 then [First(v[0], v[1]), Second(v[1], v[2])]
    else [First(v[0], v[1]), Second(v[1], v[2]), Third(v[2], v[3])] + WholeBytes(v[4..])
  }

  lemma LastQuantumDecodes(c: seq<Byte>)
    requires |c| < 4 && forall i | 0 <= i < |c| :: InAlphabet(c[i])
    ensures DecodePadded(Repad(c)) == Some(WholeBytes(Values(c)))
  {
    var padded := Repad(c);
    assert |c| >= 2 ==> |padded| == 4 && padded[..|c|] == c;
  }

  lemma QuantumDecodes(c: seq<Byte>, tail: seq<Byte>)
    requires |c| == 4 && forall i | 0 <= i < |c| :: InAlphabet(c[i])
    ensures DecodePadded(c + tail) ==
            match DecodePadded(tail)
            case None => None
            case Some(rest) => Some(WholeBytes(Values(c)) + rest)
  {
    var both := c + tail;
    assert both[4..] == tail;
    assert forall i | 0 <= i < 4 :: both[i] == c[i];
    var v := Values(c);
    assert WholeBytes(v[4..]) == [];
    assert WholeBytes(v) == [First(v[0], v[1]), Second(v[1], v[2]), Third(v[2], v[3])];
  }

  /** Decoding never fails on alphabet bytes, however many there are, and yields their
      whole bytes. */
  lemma {:induction false} RepaddedDecodes(c: seq<Byte>)
    requires forall i | 0 <= i < |c| :: InAlphabet(c[i])
    ensures DecodePadded(Repad(c)) == Some(WholeBytes(Values(c)))
  {
    if |c| < 4 {
      LastQuantumDecodes(c);
    } else {
      var tail := c[4..];
      RepaddedDecodes(tail);
      RepadStep(c);
      QuantumDecodes(c[..4], Repad(tail));
      WholeBytesAppend(Values(c[..4]), Values(tail));
      assert Values(c) == Values(c[..4]) + Values(tail);
    }
  }

  lemma RepadStep(c: seq<Byte>)
    requires |c| >= 4
    ensures Repad(c) == c[..4] + Repad(c[4..])
  {
    assert |c[4..]| % 4 == |c| % 4;
    assert c == c[..4] + c[4..];
  }

  lemma WholeBytesAppend(q: seq<Sextet>, rest: seq<Sextet>)
    requires |q| == 4
    ensures WholeBytes(q + rest) == WholeBytes(q) + WholeBytes(rest)
  {
    assert (q + rest)[4..] == rest;
    assert WholeBytes(q[4..]) == [];
  }

  /** For any bytes at all, the decoder returns the whole bytes of the alphabet bytes. */
  lemma TolerantDecodes(raw: seq<Byte>)
    ensures DecodePadded(Repad(Compact(raw))).Some?
    ensures DecodeTolerant(raw) == WholeBytes(Values(Compact(raw)))
  {
    RepaddedDecodes(Compact(raw));
  }

  // ---- Round trip ---------------------------------------------------------

  /** Regrouping bits loses nothing. */
  lemma TripleRoundTrip(a: Byte, b: Byte, c: Byte)
    ensures First(a / 4, a % 4 * 16 + b / 16) == a
    ensures First(a / 4, a % 4 * 16) == a
    ensures Second(a % 4 * 16 + b / 16, b % 16 * 4 + c / 64) == b
    ensures Second(a % 4 * 16 + b / 16, b % 16 * 4) == b
    ensures Third(b % 16 * 4 + c / 64, c % 64) == c
  {
  }

  /** Fewer than four leading groups. */
  lemma ShortPrefix(s: seq<Byte>, k: nat)
    requires k <= |Sextets(s)| && k < 4
    ensures k * 3 / 4 <= |s| && WholeBytes(Sextets(s)[..k]) == s[..k * 3 / 4]
  {
    var v := Sextets(s);
    var a := if |s| > 0 then s[0] else 0;
    var b := if |s| > 1 then s[1] else 0;
    var c := if |s| > 2 then s[2] else 0;
    TripleRoundTrip(a, b, c);
    if k == 2 {
      assert v[..2] == [v[0], v[1]];
    } else if k == 3 {
      assert v[..3] == [v[0], v[1], v[2]];
    }
  }

  /** Any number of leading groups of an encoding hold exactly the corresponding leading
      bytes. */
  lemma {:induction false} PrefixRoundTrip(s: seq<Byte>, k: nat)
    requires k <= |Sextets(s)|
    ensures k * 3 / 4 <= |s|
    ensures WholeBytes(Sextets(s)[..k]) == s[..k * 3 / 4]
  {
    if k < 4 {
      ShortPrefix(s, k);
    } else {
      var tail := s[3..];
      var rest := Sextets(tail)[..k - 4];
      PrefixRoundTrip(tail, k - 4);
      var q := FirstQuad(s, k);
      WholeBytesAppend(q, rest);
      assert k * 3 / 4 == 3 + (k - 4) * 3 / 4;
      assert s[..k * 3 / 4] == s[..3] + tail[..(k - 4) * 3 / 4];
    }
  }

  lemma FirstQuad(s: seq<Byte>, k: nat) returns (q: seq<Sextet>)
    requires |s| >= 3 && 4 <= k <= |Sextets(s)|
    ensures |q| == 4 && Sextets(s)[..k] == q + Sextets(s[3..])[..k - 4] && WholeBytes(q) == s[..3]
  {
    var v := Sextets(s);
    q := v[..4];
    assert v == q + Sextets(s[3..]);
    TripleRoundTrip(s[0], s[1], s[2]);
    WholeBytesOfQuad(v[0], v[1], v[2], v[3]);
    assert q == [v[0], v[1], v[2], v[3]];
  }

  lemma WholeBytesOfQuad(a: Sextet, b: Sextet, c: Sextet, d: Sextet)
    ensures WholeBytes([a, b, c, d]) == [First(a, b), Second(b, c), Third(c, d)]
  {
    assert WholeBytes([a, b, c, d][4..]) == [];
  }

  lemma ValuesOfChars(v: seq<Sextet>)
    ensures Values(Chars(v)) == v
  {
    forall x: Sextet ensures ValueOf(CharOf(x)) == x {
    }
  }

  lemma {:induction false} CompactAppend(a: seq<Byte>, b: seq<Byte>)
    ensures Compact(a + b) == Compact(a) + Compact(b)
  {
    if a == [] {
      assert a + b == b;
    } else {
      assert (a + b)[1..] == a[1..] + b;
      CompactAppend(a[1..], b);
    }
  }

  lemma {:induction false} CompactKeepsAlphabet(c: seq<Byte>)
    requires forall i | 0 <= i < |c| :: InAlphabet(c[i])
    ensures Compact(c) == c
  {
    if c != [] {
      CompactKeepsAlphabet(c[1..]);
    }
  }

  /** `raw` is `clean` with non-alphabet bytes inserted anywhere. */
  predicate Noisy(clean: seq<Byte>, raw: seq<Byte>) {
    if raw == [] then clean == []
    else
      || (!InAlphabet(raw[0]) && Noisy(clean, raw[1..]))
      || (clean != [] && clean[0] == raw[0] && Noisy(clean[1..], raw[1..]))
  }

  lemma {:induction false} NoiseDisappears(clean: seq<Byte>, raw: seq<Byte>)
    requires Noisy(clean, raw)
    ensures Compact(raw) == Compact(clean)
  {
    if raw != [] {
      if !InAlphabet(raw[0]) && Noisy(clean, raw[1..]) {
        NoiseDisappears(clean, raw[1..]);
      } else {
        NoiseDisappears(clean[1..], raw[1..]);
      }
    }
  }

  /** The alphabet bytes of a cut encoding. */
  lemma CompactOfCut(s: seq<Byte>, k: nat, kept: nat)
    requires k <= |Encode(s)| && kept == if k <= |Sextets(s)| then k else |Sextets(s)|
    ensures Compact(Encode(s)[..k]) == Chars(Sextets(s)[..kept])
  {
    var c := Chars(Sextets(s));
    var pad := Padding(|s|)[..k - kept];
    assert Encode(s)[..k] == c[..kept] + pad;
    PaddingDisappears(pad);
    CompactAppend(c[..kept], pad);
    CompactKeepsAlphabet(c[..kept]);
    assert c[..kept] == Chars(Sextets(s)[..kept]);
  }

  /** Cut an encoding after any `k` characters, bury it in any non-alphabet bytes: the
      decoder still returns the bytes that fit the kept characters, and nothing else. */
  lemma CutRoundTrip(s: seq<Byte>, k: nat, raw: seq<Byte>)
    requires k <= |Encode(s)| && Noisy(Encode(s)[..k], raw)
    ensures var kept := if k <= |Sextets(s)| then k else |Sextets(s)|;
            kept * 3 / 4 <= |s| && DecodeTolerant(raw) == s[..kept * 3 / 4]
  {
    var kept := if k <= |Sextets(s)| then k else |Sextets(s)|;
    CompactOfCut(s, k, kept);
    NoiseDisappears(Encode(s)[..k], raw);
    TolerantDecodes(raw);
    ValuesOfChars(Sextets(s)[..kept]);
    PrefixRoundTrip(s, kept);
  }

  lemma {:induction false} PaddingDisappears(pad: seq<Byte>)
    requires forall i | 0 <= i < |pad| :: pad[i] == PAD
    ensures Compact(pad) == []
  {
    if pad != [] {
      PaddingDisappears(pad[1..]);
    }
  }

  /** Encode, wrap with any non-alphabet bytes, decode: the original bytes come back. */
  lemma RoundTrip(s: seq<Byte>, raw: seq<Byte>)
    requires Noisy(Encode(s), raw)
    ensures DecodeTolerant(raw) == s
  {
    assert Encode(s)[..|Encode(s)|] == Encode(s);
    CutRoundTrip(s, |Encode(s)|, raw);
    assert s[..|s|] == s;
  }
}
