/**
 The gateway body codec: every code point of the clear text is xored with a one-byte mask and printed in
 decimal, comma separated, in square brackets. A clear text is a sequence of Unicode scalar values; its
 UTF-8 bytes are not modelled.
 */
module GwCodec {
  import opened Common

  type Scalar = r: nat | r < 0xD800 || 0xE000 <= r <= 0x10FFFF

  predicate IsScalar(r: int) { 0 <= r < 0xD800 || 0xE000 <= r <= 0x10FFFF }

  type Mask = m: nat | m < 256

  const REPLACEMENT: Scalar := 0xFFFD

  // ----- exclusive or on unbounded naturals and on two's complement integers -----

  function Xor(a: nat, b: nat): (x: nat) {
    if a == 0 then b
    else if b == 0 then a
    else 2 * Xor(a / 2, b / 2) + (if a % 2 == b % 2 then 0 else 1)
  }

  /** `n ^ mask` for a possibly negative `n`: the complement of the complement's exclusive or. */
  function XorInt(n: int, m: nat): int { if n >= 0 then Xor(n, m) else -1 - Xor(-1 - n, m) }

  lemma {:induction false} XorHalves(a: nat, b: nat)
    ensures Xor(a, b) / 2 == Xor(a / 2, b / 2) && Xor(a, b) % 2 == (if a % 2 == b % 2 then 0 else 1)
  {
    if a != 0 && b != 0 {
      var h := Xor(a / 2, b / 2);
      assert Xor(a, b) == 2 * h + (if a % 2 == b % 2 then 0 else 1);
    }
  }

  lemma {:induction false} XorSymmetric(a: nat, b: nat)
    ensures Xor(a, b) == Xor(b, a)
  {
    if a != 0 && b != 0 { XorSymmetric(a / 2, b / 2); }
  }

  /** Masking twice restores the number. */
  lemma {:induction false} XorCancels(a: nat, b: nat)
    ensures Xor(Xor(a, b), b) == a
    decreases a + b
  {
    if a == 0 && b == 0 {
    } else {
      var x := Xor(a, b);
      XorHalves(a, b);
      XorHalves(x, b);
      XorCancels(a / 2, b / 2);
    }
  }

  lemma XorInjective(a: nat, b: nat, c: nat)
    requires Xor(a, b) == Xor(a, c)
    ensures b == c
  {
    XorSymmetric(a, b);
    XorSymmetric(a, c);
    XorCancels(b, a);
    XorCancels(c, a);
  }

  /** `n >> k` */
  function Shift(n: nat, k: nat): nat { if k == 0 then n else Shift(n / 2, k - 1) }

  /** A mask of `k` bits leaves everything above them alone. */
  lemma {:induction false} XorKeepsHighBits(a: nat, b: nat, k: nat)
    requires Shift(b, k) == 0
    ensures Shift(Xor(a, b), k) == Shift(a, k)
  {
    if k == 0 {
      XorSymmetric(a, b);
    } else {
      XorHalves(a, b);
      XorKeepsHighBits(a / 2, b / 2, k - 1);
    }
  }

  lemma ShiftByEight(n: nat)
    ensures Shift(n, 8) == n / 256
  {
    assert n / 2 / 2 == n / 4 && Shift(n, 8) == Shift(n / 2, 7) == Shift(n / 4, 6);
    assert n / 4 / 2 == n / 8 && n / 8 / 2 == n / 16 && Shift(n / 4, 6) == Shift(n / 8, 5) == Shift(n / 16, 4);
    assert n / 16 / 2 == n / 32 && n / 32 / 2 == n / 64 && Shift(n / 16, 4) == Shift(n / 32, 3) == Shift(n / 64, 2);
    assert n / 64 / 2 == n / 128 && n / 128 / 2 == n / 256 && Shift(n / 64, 2) == Shift(n / 128, 1) == Shift(n / 256, 0);
  }

  lemma MaskKeepsBlock(a: nat, mask: Mask)
    ensures Xor(a, mask) / 256 == a / 256
  {
    ShiftByEight(mask);
    XorKeepsHighBits(a, mask, 8);
    ShiftByEight(a);
    ShiftByEight(Xor(a, mask));
  }

  // ----- decimal numerals -----

  function DigitChar(d: nat): char
    requires d < 10
  {
    '0' + d as char
  }

  predicate IsDigit(c: char) { '0' <= c <= '9' }

  function Digits(n: nat): (s: string)
    ensures s != [] && forall c :: c in s ==> IsDigit(c)
  {
    if n < 10 then [DigitChar(n)] else Digits(n / 10) + [DigitChar(n % 10)]
  }

  /** `strconv.Itoa` */
  function Itoa(n: int): string { if n < 0 then "-" + Digits(-n) else Digits(n) }

  function Magnitude(s: string): Option<nat> {
    if s == [] then None
    else
      var c := s[|s| - 1];
      if !IsDigit(c) then None
      else if |s| == 1 then Some((c - '0') as nat)
      else
        var front := Magnitude(s[..|s| - 1]);
        if front.None? then None else Some(10 * front.value + (c - '0') as nat)
  }

  predicate IsInt64(n: int) { -0x8000_0000_0000_0000 <= n <= 0x7FFF_FFFF_FFFF_FFFF }

  /** `strconv.Atoi` on a 64-bit platform: an optional sign, decimal digits only, in range. */
  function Atoi(s: string): Option<int> {
    var signed := s != [] && (s[0] == '+' || s[0] == '-');
    var m := Magnitude(if signed then s[1..] else s);
    if m.None? then None
    else
      var n := m.value * (if signed && s[0] == '-' then -1 else 1);
      if IsInt64(n) then Some(n) else None
  }

  lemma {:induction false} MagnitudeOfDigits(n: nat)
    ensures Magnitude(Digits(n)) == Some(n)
  {
    if n >= 10 {
      var s := Digits(n);
      assert s[..|s| - 1] == Digits(n / 10);
      MagnitudeOfDigits(n / 10);
    }
  }

  /** Reading back what was printed, for every integer the platform can hold. */
  lemma AtoiOfItoa(n: int)
    requires IsInt64(n)
    ensures Atoi(Itoa(n)) == Some(n)
  {
    if n < 0 {
      MagnitudeOfDigits(-n);
      assert Itoa(n)[1..] == Digits(-n);
    } else {
      MagnitudeOfDigits(n);
      assert IsDigit(Digits(n)[0]);
    }
  }

  // ----- strings -----

  /** `unicode.IsSpace` */
  predicate IsSpace(c: char) {
    || '\t' <= c <= '\r' || c == ' ' || c == '\U{85}' || c == '\U{A0}' || c == '\U{1680}'
    || '\U{2000}' <= c <= '\U{200A}' || c == '\U{2028}' || c == '\U{2029}' || c == '\U{202F}'
    || c == '\U{205F}' || c == '\U{3000}'
  }

  function TrimLeft(s: string): string { if s != [] && IsSpace(s[0]) then TrimLeft(s[1..]) else s }

  function TrimSpace(s: string): string
    decreases |s|
  {
    if s != [] && IsSpace(s[|s| - 1]) then TrimSpace(s[..|s| - 1]) else TrimLeft(s)
  }

  /** `TrimPrefix` of an opening and `TrimSuffix` of a closing bracket, each at most once. */
  function TrimBrackets(s: string): string {
    var t := if s != [] && s[0] == '[' then s[1..] else s;
    if t != [] && t[|t| - 1] == ']' then t[..|t| - 1] else t
  }

  function Join(parts: seq<string>): string {
    if |parts| == 0 then ""
    else if |parts| == 1 then parts[0]
    else parts[0] + "," + Join(parts[1..])
  }

  /** `strings.Split` at commas: always at least one field. */
  function Split(s: string): (parts: seq<string>)
    ensures |parts| > 0
  {
    if s == [] then [""]
    else
      var rest := Split(s[1..]);
      if s[0] == ',' then [""] + rest else [[s[0]] + rest[0]] + rest[1..]
  }

  lemma {:induction false} SplitField(field: string, rest: string)
    requires ',' !in field
    ensures Split(field) == [field]
    ensures Split(field + "," + rest) == [field] + Split(rest)
  {
    if field == [] {
      assert field + "," + rest == [','] + rest;
    } else {
      SplitField(field[1..], rest);
      assert (field + "," + rest)[1..] == field[1..] + "," + rest;
      assert [field[0]] + field[1..] == field;
    }
  }

  lemma {:induction false} SplitOfJoin(parts: seq<string>)
    requires |parts| > 0 && forall p :: p in parts ==> ',' !in p
    ensures Split(Join(parts)) == parts
  {
    if |parts| == 1 {
      SplitField(parts[0], "");
    } else {
      SplitOfJoin(parts[1..]);
      SplitField(parts[0], Join(parts[1..]));
    }
  }

  // ----- the codec -----

  function Numerals(clear: seq<Scalar>, mask: Mask): seq<string> {
    if clear == [] then [] else [Itoa(Xor(clear[0], mask))] + Numerals(clear[1..], mask)
  }

  function Encode(clear: seq<Scalar>, mask: Mask): string { "[" + Join(Numerals(clear, mask)) + "]" }

  /** Conversion of a 64-bit integer to `rune`. */
  function ToInt32(n: int): int { (n + 0x8000_0000) % 0x1_0000_0000 - 0x8000_0000 }

  /** What one rune becomes when runes are turned into a string. */
  function Stringed(r: int): Scalar { if IsScalar(r) then r else REPLACEMENT }

  /** The clear text, or the first field that is no integer. */
  datatype Decoded = Clear(runes: seq<Scalar>) | BadInt(field: string)

  function DecodeFields(parts: seq<string>, mask: Mask): Decoded {
    if parts == [] then Clear([])
    else
      var raw := TrimSpace(parts[0]);
      if raw == "" then DecodeFields(parts[1..], mask)
      else
        var n := Atoi(raw);
        if n.None? then BadInt(raw)
        else
          var rest := DecodeFields(parts[1..], mask);
          if rest.Clear? then Clear([Stringed(ToInt32(XorInt(n.value, mask)))] + rest.runes) else rest
  }

  function Decode(encoded: string, mask: Mask): Decoded {
    var s := TrimBrackets(TrimSpace(encoded));
    if s == "" then Clear([]) else DecodeFields(Split(s), mask)
  }

  lemma NumeralIsPlain(n: nat)
    ensures ',' !in Itoa(n) && TrimSpace(Itoa(n)) == Itoa(n) != ""
  {
    var s := Digits(n);
    assert IsDigit(s[0]) && IsDigit(s[|s| - 1]);
  }

  /** What a mask and another mask make of each code point. */
  function Remasked(clear: seq<Scalar>, mask: Mask, other: Mask): (out: seq<Scalar>)
    ensures |out| == |clear|
    ensures forall i :: 0 <= i < |clear| ==> out[i] == Stringed(Xor(Xor(clear[i], mask), other))
  {
    if clear == [] then []
    else [Stringed(Xor(Xor(clear[0], mask), other))] + Remasked(clear[1..], mask, other)
  }

  lemma MaskedBound(a: nat, mask: Mask)
    requires a <= 0x10FFFF
    ensures Xor(a, mask) <= 0x10FFFF && ToInt32(Xor(a, mask)) == Xor(a, mask)
  {
    MaskKeepsBlock(a, mask);
  }

  lemma FieldOfScalar(r: Scalar, mask: Mask, other: Mask)
    ensures var raw := Itoa(Xor(r, mask));
            && ',' !in raw && TrimSpace(raw) == raw != "" && Atoi(raw) == Some(Xor(r, mask))
            && ToInt32(XorInt(Xor(r, mask), other)) == Xor(Xor(r, mask), other)
  {
    var n := Xor(r, mask);
    hide Xor;
    MaskedBound(r, mask);
    MaskedBound(n, other);
    NumeralIsPlain(n);
    AtoiOfItoa(n);
  }

  lemma {:induction false} DecodeNumerals(clear: seq<Scalar>, mask: Mask, other: Mask)
    ensures DecodeFields(Numerals(clear, mask), other) == Clear(Remasked(clear, mask, other))
    ensures forall p :: p in Numerals(clear, mask) ==> ',' !in p && p != ""
  {
    if clear != [] {
      var n := Xor(clear[0], mask);
      FieldOfScalar(clear[0], mask, other);
      DecodeNumerals(clear[1..], mask, other);
      assert Numerals(clear, mask)[1..] == Numerals(clear[1..], mask);
    }
  }

  lemma BracketsComeOff(body: string)
    ensures TrimBrackets(TrimSpace("[" + body + "]")) == body
  {
    var s := "[" + body + "]";
    assert s[0] == '[' && s[|s| - 1] == ']';
    assert TrimSpace(s) == s;
    assert s[1..] == body + "]";
    assert (body + "]")[..|body|] == body;
  }

  lemma JoinNonEmpty(parts: seq<string>)
    requires |parts| > 0 && parts[0] != ""
    ensures Join(parts) != ""
  {
  }

  lemma DecodeOfEncode(clear: seq<Scalar>, mask: Mask, other: Mask)
    ensures Decode(Encode(clear, mask), other) == Clear(Remasked(clear, mask, other))
  {
    var parts := Numerals(clear, mask);
    BracketsComeOff(Join(parts));
    DecodeNumerals(clear, mask, other);
    if clear != [] {
      assert parts[0] in parts;
      JoinNonEmpty(parts);
      SplitOfJoin(parts);
    }
  }

  /** For every clear text and mask, empty ones included, decoding what was encoded gives it back. */
  lemma RoundTrip(clear: seq<Scalar>, mask: Mask)
    ensures Decode(Encode(clear, mask), mask) == Clear(clear)
  {
    DecodeOfEncode(clear, mask, mask);
    forall i | 0 <= i < |clear| ensures Remasked(clear, mask, mask)[i] == clear[i] {
      XorCancels(clear[i], mask);
    }
    assert Remasked(clear, mask, mask) == clear;
  }

  /** Only the right mask restores a non-empty clear text. */
  lemma WrongMaskNeverRestores(clear: seq<Scalar>, mask: Mask, other: Mask)
    ensures Decode(Encode(clear, mask), other) == Clear(clear) <==> clear == [] || mask == other
  {
    DecodeOfEncode(clear, mask, other);
    RoundTrip(clear, mask);
    if clear != [] && mask != other {
      var b := Xor(clear[0], mask);
      MaskKeepsBlock(clear[0], mask);
      MaskKeepsBlock(b, other);
      XorCancels(clear[0], mask);
      if Xor(b, other) == clear[0] { XorInjective(b, other, mask); }
      assert Remasked(clear, mask, other)[0] != clear[0];
    }
  }

  /** Different clear texts have different encodings under one mask. */
  lemma EncodeInjective(one: seq<Scalar>, two: seq<Scalar>, mask: Mask)
    requires Encode(one, mask) == Encode(two, mask)
    ensures one == two
  {
    RoundTrip(one, mask);
    RoundTrip(two, mask);
  }

  /** The field is not blank and not the numeral of a 64-bit integer. */
  predicate Unreadable(field: string) { TrimSpace(field) != "" && Atoi(TrimSpace(field)).None? }

  /** Blank fields are skipped; decoding fails exactly if some other field is no integer. */
  lemma {:induction false} FieldsFailExactly(parts: seq<string>, mask: Mask)
    ensures DecodeFields(parts, mask).BadInt? <==> exists i :: 0 <= i < |parts| && Unreadable(parts[i])
    ensures DecodeFields(parts, mask).Clear? ==> |DecodeFields(parts, mask).runes| <= |parts|
  {
    if parts != [] {
      FieldsFailExactly(parts[1..], mask);
      if exists i :: 0 <= i < |parts[1..]| && Unreadable(parts[1..][i]) {
        var i :| 0 <= i < |parts[1..]| && Unreadable(parts[1..][i]);
        assert Unreadable(parts[i + 1]);
      }
      if exists i :: 0 <= i < |parts| && Unreadable(parts[i]) {
        var i :| 0 <= i < |parts| && Unreadable(parts[i]);
        if i > 0 { assert Unreadable(parts[1..][i - 1]); }
      }
    }
  }

  /** What is split at the commas: the body without surrounding space and brackets. */
  function Body(encoded: string): string { TrimBrackets(TrimSpace(encoded)) }

  /**
   Decoding a body fails exactly if some field between its commas is neither blank nor the numeral of a 64-bit
   integer. An empty body, or one of blank fields only, decodes to the empty text.
   */
  lemma DecodeFailsExactly(encoded: string, mask: Mask)
    ensures Decode(encoded, mask).BadInt? <==>
              exists i :: 0 <= i < |Split(Body(encoded))| && Unreadable(Split(Body(encoded))[i])
    ensures (forall i :: 0 <= i < |Split(Body(encoded))| ==> TrimSpace(Split(Body(encoded))[i]) == "") <==>
              Decode(encoded, mask) == Clear([])
  {
    FieldsFailExactly(Split(Body(encoded)), mask);
    BlankFieldsVanish(Split(Body(encoded)), mask);
    assert Body(encoded) == "" ==> Split(Body(encoded)) == [""] && TrimSpace("") == "";
  }

  lemma {:induction false} BlankFieldsVanish(parts: seq<string>, mask: Mask)
    ensures DecodeFields(parts, mask) == Clear([]) <==> forall i :: 0 <= i < |parts| ==> TrimSpace(parts[i]) == ""
  {
    if parts != [] {
      BlankFieldsVanish(parts[1..], mask);
      assert forall i :: 0 < i < |parts| ==> parts[i] == parts[1..][i - 1];
    }
  }

  // ----- as it is computed -----

  lemma {:induction false} NumeralsAppend(clear: seq<Scalar>, last: Scalar, mask: Mask)
    ensures Numerals(clear + [last], mask) == Numerals(clear, mask) + [Itoa(Xor(last, mask))]
  {
    if clear == [] {
    } else {
      assert (clear + [last])[1..] == clear[1..] + [last];
      NumeralsAppend(clear[1..], last, mask);
    }
  }

  method GWEncode(runes: seq<Scalar>, mask: Mask) returns (encoded: string)
    ensures encoded == Encode(runes, mask)
  {
    var parts: seq<string> := [];
    for i := 0 to |runes|
      invariant parts == Numerals(runes[..i], mask)
    {
      NumeralsAppend(runes[..i], runes[i], mask);
      assert runes[..i + 1] == runes[..i] + [runes[i]];
      parts := parts + [Itoa(Xor(runes[i], mask))];
    }
    assert runes[..|runes|] == runes;
    encoded := "[" + Join(parts) + "]";
  }

  /** Put code points already decoded in front of what the remaining fields give. */
  function Prepended(done: seq<Scalar>, rest: Decoded): Decoded {
    if rest.Clear? then Clear(done + rest.runes) else rest
  }

  lemma PrependedField(done: seq<Scalar>, parts: seq<string>, mask: Mask)
    requires parts != []
    ensures var raw := TrimSpace(parts[0]);
            var n := Atoi(raw);
            Prepended(done, DecodeFields(parts, mask)) ==
              if raw == "" then Prepended(done, DecodeFields(parts[1..], mask))
              else if n.None? then BadInt(raw)
              else Prepended(done + [Stringed(ToInt32(XorInt(n.value, mask)))], DecodeFields(parts[1..], mask))
  {
    var rest := DecodeFields(parts[1..], mask);
    var n := Atoi(TrimSpace(parts[0]));
    if rest.Clear? && n.Some? {
      var r := Stringed(ToInt32(XorInt(n.value, mask)));
      assert done + ([r] + rest.runes) == done + [r] + rest.runes;
    }
  }

  method GWDecode(encoded: string, mask: Mask) returns (decoded: Decoded)
    ensures decoded == Decode(encoded, mask)
  {
    var s := TrimBrackets(TrimSpace(encoded));
    if s == "" { return Clear([]); }
    var parts := Split(s);
    var clear: seq<Scalar> := [];
    assert parts[0..] == parts;
    for i := 0 to |parts|
      invariant Prepended(clear, DecodeFields(parts[i..], mask)) == DecodeFields(parts, mask)
    {
      PrependedField(clear, parts[i..], mask);
      assert parts[i..][1..] == parts[i + 1..];
      var raw := TrimSpace(parts[i]);
      if raw == "" { continue; }
      var n := Atoi(raw);
      if n.None? { return BadInt(raw); }
      clear := clear + [Stringed(ToInt32(XorInt(n.value, mask)))];
    }
    return Clear(clear);
  }
}
