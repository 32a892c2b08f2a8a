/** The packed form of a bitmap and its way back. */
module BitmapCodec {

  import opened Common
  import opened Bitmap

  const DIGITS := "0123456789abcdef"

  /** The eight bytes of a word, least significant first. */
  function Octets(w: Word): (r: seq<Octet>)
    ensures |r| == 8
  {
    [w[0..8], w[8..16], w[16..24], w[24..32], w[32..40], w[40..48], w[48..56], w[56..64]]
  }

  function PackedBytes(bits: seq<Word>): (r: seq<Octet>)
    ensures |r| == 8 * |bits|
  {
    if bits == [] then [] else Octets(bits[0]) + PackedBytes(bits[1..])
  }

  /** The byte shifted left by 8 * j, or-ed into w. */
  function OrInto(w: Word, b: Octet, j: nat): Word
    requires j < 8
  {
    seq(64, i requires 0 <= i < 64 => w[i] || (8 * j <= i < 8 * j + 8 && b[i - 8 * j]))
  }

  /** The words after or-ing in bytes n.. of raw; bytes past the last word are ignored. */
  function OrAll(words: seq<Word>, raw: seq<Octet>, n: nat): seq<Word>
    requires n <= |raw|
    decreases |raw| - n
  {
    if n == |raw| || n / 8 >= |words| then words
    else OrAll(words[n / 8 := OrInto(words[n / 8], raw[n], n % 8)], raw, n + 1)
  }

  function Unpack(raw: seq<Octet>, total: nat): seq<Word> {
    OrAll(seq(WordCount(total), _ => ZERO), raw, 0)
  }

  function Nibble(b: seq<bool>): (n: nat)
    requires |b| == 4
    ensures n < 16
  {
    (if b[0] then 1 else 0) + (if b[1] then 2 else 0) + (if b[2] then 4 else 0) + (if b[3] then 8 else 0)
  }

  function Bits(n: nat): (b: seq<bool>)
    requires n < 16
    ensures |b| == 4
  {
    [n % 2 == 1, n / 2 % 2 == 1, n / 4 % 2 == 1, n / 8 % 2 == 1]
  }

  function DigitValue(c: char): Option<nat> {
    if '0' <= c <= '9' then Some(c as nat - '0' as nat)
    else if 'a' <= c <= 'f' then Some(c as nat - 'a' as nat + 10)
    else if 'A' <= c <= 'F' then Some(c as nat - 'A' as nat + 10)
    else None
  }

  /** Two digits per byte, the high half first. */
  function HexEncode(raw: seq<Octet>): (s: string)
    ensures |s| == 2 * |raw|
  {
    if raw == [] then ""
    else [DIGITS[Nibble(raw[0][4..])], DIGITS[Nibble(raw[0][..4])]] + HexEncode(raw[1..])
  }

  function HexDecode(s: string): Option<seq<Octet>> {
    if s == "" then Some([])
    else if |s| == 1 then None
    else
      var hi, lo, rest := DigitValue(s[0]), DigitValue(s[1]), HexDecode(s[2..]);
      if hi.None? || lo.None? || hi.value >= 16 || lo.value >= 16 || rest.None? then None
      else Some([Bits(lo.value) + Bits(hi.value)] + rest.value)
  }

  /** The text of a bitmap. */
  function Packed(bits: seq<Word>): string {
    HexEncode(PackedBytes(bits))
  }

  /** The words a text stands for, in a bitmap of `total` bits. */
  function Decoded(s: string, total: nat): Option<seq<Word>> {
    var raw := HexDecode(s);
    if raw.None? then None else Some(Unpack(raw.value, total))
  }

  lemma NibbleBack(b: seq<bool>)
    requires |b| == 4
    ensures Bits(Nibble(b)) == b
    ensures DigitValue(DIGITS[Nibble(b)]) == Some(Nibble(b))
  {
  }

  /** Two hexadecimal digits are one byte. */
  lemma HexPair(b: Octet, rest: string)
    ensures HexDecode(HexEncode([b]) + rest) == if HexDecode(rest).None? then None
      else Some([b] + HexDecode(rest).value)
  {
    NibbleBack(b[4..]);
    NibbleBack(b[..4]);
    assert b == b[..4] + b[4..];
    assert (HexEncode([b]) + rest)[2..] == rest;
  }

  lemma HexFirst(raw: seq<Octet>)
    requires raw != []
    ensures HexEncode(raw) == HexEncode([raw[0]]) + HexEncode(raw[1..]) && |HexEncode([raw[0]])| == 2
  {
    assert [raw[0]][1..] == [] && HexEncode([]) == "";
  }

  lemma CutAfter(a: string, b: string, m: nat)
    requires |a| == 2 && 2 <= m <= 2 + |b|
    ensures (a + b)[..m] == a + b[..m - 2]
  {
  }

  lemma HexShort(raw: seq<Octet>, m: nat)
    requires m < 2 && m <= 2 * |raw|
    ensures HexDecode(HexEncode(raw)[..m]) == if m == 1 then None else Some([])
  {
  }

  lemma FirstBytes(raw: seq<Octet>, n: nat)
    requires 0 < n <= |raw|
    ensures raw[..n] == [raw[0]] + raw[1..][..n - 1]
  {
  }

  /** Cut text decodes to whole bytes only. */
  lemma {:induction false} HexTruncates(raw: seq<Octet>, m: nat)
    requires m <= 2 * |raw|
    ensures HexDecode(HexEncode(raw)[..m]) == if m % 2 == 1 then None else Some(raw[..m / 2])
  {
    hide HexDecode, HexEncode;
    if m < 2 {
      HexShort(raw, m);
    } else {
      HexFirst(raw);
      var a, b := HexEncode([raw[0]]), HexEncode(raw[1..]);
      CutAfter(a, b, m);
      HexTruncates(raw[1..], m - 2);
      HexPair(raw[0], b[..m - 2]);
      FirstBytes(raw, m / 2);
    }
  }

  lemma HexRoundTrip(raw: seq<Octet>)
    ensures HexDecode(HexEncode(raw)) == Some(raw)
  {
    HexTruncates(raw, 2 * |raw|);
    assert HexEncode(raw)[..2 * |raw|] == HexEncode(raw) && raw[..|raw|] == raw;
  }

  /** The bit at position i after or-ing bytes n.. into the words. */
  lemma {:induction false} OrAllAt(words: seq<Word>, raw: seq<Octet>, n: nat, w: nat, i: nat)
    requires n <= |raw| && w < |words| && i < 64
    ensures |OrAll(words, raw, n)| == |words|
    ensures OrAll(words, raw, n)[w][i] <==> words[w][i] || (n <= 8 * w + i / 8 < |raw| && raw[8 * w + i / 8][i % 8])
    decreases |raw| - n
  {
    if n < |raw| && n / 8 < |words| {
      var next := words[n / 8 := OrInto(words[n / 8], raw[n], n % 8)];
      OrAllAt(next, raw, n + 1, w, i);
      if w == n / 8 {
        assert next[w][i] <==> words[w][i] || (8 * (n % 8) <= i < 8 * (n % 8) + 8 && raw[n][i - 8 * (n % 8)]);
        assert n % 8 == i / 8 <==> 8 * (n % 8) <= i < 8 * (n % 8) + 8;
      } else {
        assert n != 8 * w + i / 8;
      }
    }
  }

  lemma {:induction false} PackedAt(bits: seq<Word>, w: nat, i: nat)
    requires w < |bits| && i < 64
    ensures PackedBytes(bits)[8 * w + i / 8][i % 8] == bits[w][i]
  {
    if w == 0 {
      OctetsAt(bits[0], i);
    } else {
      PackedAt(bits[1..], w - 1, i);
      assert PackedBytes(bits)[8 * w + i / 8] == PackedBytes(bits[1..])[8 * (w - 1) + i / 8];
    }
  }

  lemma OctetsAt(w: Word, i: nat)
    requires i < 64
    ensures Octets(w)[i / 8][i % 8] == w[i]
  {
    var j := i / 8;
    assert Octets(w)[j] == w[8 * j..8 * j + 8];
  }

  lemma UnpackAt(raw: seq<Octet>, total: nat, i: nat)
    requires i < total
    ensures |Unpack(raw, total)| == WordCount(total)
    ensures Has(Unpack(raw, total), i) <==> i / 8 < |raw| && raw[i / 8][i % 8]
  {
    var words := seq(WordCount(total), _ => ZERO);
    OrAllAt(words, raw, 0, i / 64, i % 64);
    assert 8 * (i / 64) + (i % 64) / 8 == i / 8 && (i % 64) % 8 == i % 8;
  }

  /** Decoding the text of a bitmap gives the bitmap back, word for word. */
  lemma CodecRoundTrip(bits: seq<Word>, total: nat)
    requires |bits| == WordCount(total)
    ensures Decoded(Packed(bits), total) == Some(bits)
  {
    var raw := PackedBytes(bits);
    HexRoundTrip(raw);
    var words := seq(WordCount(total), _ => ZERO);
    var back := Unpack(raw, total);
    if bits == [] {
      assert back == bits;
    } else {
      OrAllAt(words, raw, 0, 0, 0);
      forall w | 0 <= w < |bits| ensures back[w] == bits[w] {
        forall i | 0 <= i < 64 ensures back[w][i] == bits[w][i] {
          OrAllAt(words, raw, 0, w, i);
          PackedAt(bits, w, i);
        }
      }
      assert back == bits;
    }
  }

  /** A text cut short anywhere is refused or claims a subset of the bitmap. */
  lemma TruncationUnderclaims(bits: seq<Word>, total: nat, m: nat)
    requires |bits| == WordCount(total) && m <= |Packed(bits)|
    ensures var d := Decoded(Packed(bits)[..m], total);
            d.Some? ==> Present(d.value, total) <= Present(bits, total)
    ensures Decoded(Packed(bits)[..m], total).Some? <==> m % 2 == 0
  {
    var raw := PackedBytes(bits);
    HexTruncates(raw, m);
    var cut := raw[..m / 2];
    forall i | 0 <= i < total && Has(Unpack(cut, total), i) ensures Has(bits, i) {
      UnpackAt(cut, total, i);
      PackedAt(bits, i / 64, i % 64);
      assert 8 * (i / 64) + (i % 64) / 8 == i / 8 && (i % 64) % 8 == i % 8;
    }
  }

  /** The loop that fills an empty bitmap from raw bytes and counts its bits. */
  method UnpackBits(raw: seq<Octet>, total: nat) returns (bits: seq<Word>, have: nat)
    ensures bits == Unpack(raw, total)
    ensures have == |Present(bits, total)|
  {
    bits := seq(WordCount(total), _ => ZERO);
    var n := 0;
    while n < |raw| && n / 8 < |bits|
      invariant n <= |raw| && |bits| == WordCount(total)
      invariant OrAll(bits, raw, n) == Unpack(raw, total)
    {
      bits := bits[n / 8 := OrInto(bits[n / 8], raw[n], n % 8)];
      n := n + 1;
    }
    have := 0;
    ghost var seen: set<nat> := {};
    for i := 0 to total
      invariant seen == Present(bits, i) && have == |seen|
    {
      if Has(bits, i) {
        have := have + 1;
        seen := seen + {i};
      }
      assert seen == Present(bits, i + 1);
    }
  }
}
