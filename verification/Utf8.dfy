/**
 * Byte-bounded truncation of text (agent_collab/daemon.py, `_truncate_text`).
 * Text is a sequence of Unicode scalar values; `Encode` and `DecodeIgnore` are the UTF-8
 * codec of RFC 3629, section 3, the decoder with Python's errors="ignore" recovery.
 */
module Utf8 {
  import opened Decimals

  type Byte = b: int | 0 <= b < 256

  function EncodeChar(c: char): (b: seq<Byte>)
    ensures 1 <= |b| <= 4
  {
    var n := c as int;
    if n < 0x80 then [n]
    else if n < 0x800 then [0xC0 + n / 64, 0x80 + n % 64]
    else if n < 0x1_0000 then [0xE0 + n / 4096, 0x80 + n / 64 % 64, 0x80 + n % 64]
    else [0xF0 + n / 262144, 0x80 + n / 4096 % 64, 0x80 + n / 64 % 64, 0x80 + n % 64]
  }

  function Encode(s: string): seq<Byte> {
    if s == [] then [] else EncodeChar(s[0]) + Encode(s[1..])
  }

  predicate Continuation(b: Byte) { 0x80 <= b < 0xC0 }

  /** Second bytes that rule out overlong forms, surrogates and values past U+10FFFF. */
  predicate SecondByte(lead: Byte, b: Byte) {
    && Continuation(b)
    && (lead == 0xE0 ==> 0xA0 <= b)
    && (lead == 0xED ==> b < 0xA0)
    && (lead == 0xF0 ==> 0x90 <= b)
    && (lead == 0xF4 ==> b < 0x90)
  }

  function Value2(b0: int, b1: int): int { (b0 - 0xC0) * 64 + (b1 - 0x80) }

  function Value3(b0: int, b1: int, b2: int): int { (b0 - 0xE0) * 4096 + (b1 - 0x80) * 64 + (b2 - 0x80) }

  function Value4(b0: int, b1: int, b2: int, b3: int): int {
    (b0 - 0xF0) * 262144 + (b1 - 0x80) * 4096 + (b2 - 0x80) * 64 + (b3 - 0x80)
  }

  /** One decoding step: a character with its width, or a malformed stretch to drop. */
  datatype Step = Decoded(c: char, width: nat) | Dropped(width: nat)

  function DecodeStep(b: seq<Byte>): (r: Step)
    requires b != []
    ensures 1 <= r.width <= |b|
  {
    var lead := b[0];
    if lead < 0x80 then Decoded(lead as char, 1)
    else if lead < 0xC2 || 0xF4 < lead then Dropped(1)
    else if |b| == 1 then Dropped(1)
    else if !SecondByte(lead, b[1]) then Dropped(1)
    else if lead < 0xE0 then Decoded(Value2(lead, b[1]) as char, 2)
    else if |b| == 2 then Dropped(2)
    else if !Continuation(b[2]) then Dropped(2)
    else if lead < 0xF0 then Decoded(Value3(lead, b[1], b[2]) as char, 3)
    else if |b| == 3 then Dropped(3)
    else if !Continuation(b[3]) then Dropped(3)
    else Decoded(Value4(lead, b[1], b[2], b[3]) as char, 4)
  }

  function DecodeIgnore(b: seq<Byte>): string {
    if b == [] then []
    else
      match DecodeStep(b)
      case Decoded(c, width) => [c] + DecodeIgnore(b[width..])
      case Dropped(width) => DecodeIgnore(b[width..])
  }

  lemma Split4(n: nat)
    requires 0x1_0000 <= n < 0x11_0000
    ensures var h, m, l := n / 262144, n / 4096 % 64, n / 64 % 64;
            && 0 <= h <= 4 && (h == 0 ==> 16 <= m) && (h == 4 ==> m < 16)
            && n == h * 262144 + m * 4096 + l * 64 + n % 64
  {
    assert n / 4096 / 64 == n / 262144 && n / 64 / 64 == n / 4096;
  }

  lemma Split3(n: nat)
    requires 0x800 <= n < 0x1_0000
    ensures var h, m := n / 4096, n / 64 % 64;
            && 0 <= h <= 15 && (h == 0 ==> 32 <= m) && n == h * 4096 + m * 64 + n % 64
    ensures n < 0xD800 || 0xE000 <= n ==> n / 4096 == 13 ==> n / 64 % 64 < 32
  {
    assert n / 64 / 64 == n / 4096;
  }

  /** A whole character decodes to itself; a proper prefix of one is a single dropped stretch. */
  lemma DecodeOneChar(c: char, rest: seq<Byte>)
    ensures DecodeStep(EncodeChar(c) + rest) == Decoded(c, |EncodeChar(c)|)
  {
    var n := c as int;
    var head := EncodeChar(c);
    var b := head + rest;
    assert forall i :: 0 <= i < |head| ==> b[i] == head[i];
    if 0x800 <= n < 0x1_0000 {
      Split3(n);
    } else if 0x1_0000 <= n {
      Split4(n);
    }
  }

  lemma DecodePartialChar(c: char, k: nat)
    requires k < |EncodeChar(c)|
    ensures DecodeIgnore(EncodeChar(c)[..k]) == []
  {
    var n := c as int;
    var b := EncodeChar(c)[..k];
    if 0x800 <= n < 0x1_0000 {
      Split3(n);
    } else if 0x1_0000 <= n {
      Split4(n);
    }
    if k > 0 {
      assert b[0] == EncodeChar(c)[0];
      assert 0xC2 <= b[0] <= 0xF4;
      if k > 1 {
        assert b[1] == EncodeChar(c)[1];
        assert SecondByte(b[0], b[1]);
      }
      assert DecodeStep(b) == Dropped(k);
      assert b[k..] == [];
    }
  }

  lemma DecodeOneMore(c: char, rest: seq<Byte>)
    ensures DecodeIgnore(EncodeChar(c) + rest) == [c] + DecodeIgnore(rest)
  {
    hide EncodeChar, DecodeStep;
    DecodeOneChar(c, rest);
    assert (EncodeChar(c) + rest)[|EncodeChar(c)|..] == rest;
  }

  /** Decoding undoes encoding. */
  lemma {:induction false} RoundTrip(s: string)
    ensures DecodeIgnore(Encode(s)) == s
  {
    if s != [] {
      DecodeOneMore(s[0], Encode(s[1..]));
      RoundTrip(s[1..]);
    }
  }

  /** How many leading characters fit into `limit` bytes. */
  function KeptChars(s: string, limit: nat): (k: nat)
    ensures k <= |s|
  {
    if s == [] || |EncodeChar(s[0])| > limit then 0
    else 1 + KeptChars(s[1..], limit - |EncodeChar(s[0])|)
  }

  /** The kept prefix is the longest that fits, and at most three bytes go unused. */
  lemma {:induction false} KeptIsLongestFit(s: string, limit: nat)
    requires |Encode(s)| > limit
    ensures forall j :: 0 <= j <= |s| ==> (|Encode(s[..j])| <= limit <==> j <= KeptChars(s, limit))
    ensures limit - |Encode(s[..KeptChars(s, limit)])| <= 3
  {
    var width := |EncodeChar(s[0])|;
    forall j | 0 < j <= |s| ensures |Encode(s[..j])| == width + |Encode(s[1..][..j - 1])| {
      assert s[..j][0] == s[0] && s[..j][1..] == s[1..][..j - 1];
    }
    if width <= limit {
      KeptIsLongestFit(s[1..], limit - width);
    }
  }

  lemma {:induction false} DecodeCut(s: string, limit: nat)
    requires limit <= |Encode(s)|
    ensures DecodeIgnore(Encode(s)[..limit]) == s[..KeptChars(s, limit)]
  {
    hide EncodeChar, DecodeStep;
    if s != [] {
      var head, tail := EncodeChar(s[0]), Encode(s[1..]);
      if |head| > limit {
        assert Encode(s)[..limit] == head[..limit];
        DecodePartialChar(s[0], limit);
      } else {
        var cut := tail[..limit - |head|];
        assert Encode(s)[..limit] == head + cut;
        DecodeOneMore(s[0], cut);
        DecodeCut(s[1..], limit - |head|);
      }
    }
  }

  const NOTICE_TAIL := " bytes truncated, see transcript file"

  function Truncate(text: string, limit: nat): string {
    var encoded := Encode(text);
    if |encoded| <= limit then text
    else DecodeIgnore(encoded[..limit]) + "\n+" + Show(|encoded| - limit) + NOTICE_TAIL
  }

  /**
   * What a caller of the truncation gets: fitting text untouched; otherwise the longest
   * character prefix that fits, at most three bytes short of the limit, followed by a
   * notice whose number is the encoded length beyond the limit.
   */
  lemma TruncateRespectsCharacters(text: string, limit: nat)
    ensures |Encode(text)| <= limit ==> Truncate(text, limit) == text
    ensures |Encode(text)| > limit ==>
              exists k, omitted ::
                && 0 <= k <= |text|
                && Truncate(text, limit) == text[..k] + "\n+" + omitted + NOTICE_TAIL
                && Read(omitted) == |Encode(text)| - limit
                && (forall j :: 0 <= j <= |text| ==> (|Encode(text[..j])| <= limit <==> j <= k))
                && limit - 3 <= |Encode(text[..k])| <= limit
  {
    if |Encode(text)| > limit {
      var k := KeptChars(text, limit);
      var omitted := Show(|Encode(text)| - limit);
      DecodeCut(text, limit);
      KeptIsLongestFit(text, limit);
      ReadShow(|Encode(text)| - limit);
      assert Truncate(text, limit) == text[..k] + "\n+" + omitted + NOTICE_TAIL;
    }
  }
}
