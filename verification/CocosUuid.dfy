/**
 The asset name decoder: a 22-symbol packed identifier holds two literal characters and ten pairs of base-64
 symbols, each pair three hexadecimal digits of a UUID. A string stands for its bytes, one character each.
 */
module CocosUuid {
  import opened Common

  /** The two digit tables; every property below holds for any tables with distinct entries. */
  datatype Tables = Tables(alphabet: string, hex: string)

  predicate Good(t: Tables) {
    && |t.alphabet| == 64 && Distinct(t.alphabet) && '@' !in t.alphabet && '-' !in t.alphabet
    && |t.hex| == 16 && Distinct(t.hex)
  }

  const UPPER := "ABCDEFGHIJKLMNOPQRSTUVWXYZ"
  const LOWER := "abcdefghijklmnopqrstuvwxyz"
  const DECIMAL := "0123456789"
  const COCOS := Tables(UPPER + LOWER + DECIMAL + "+/", DECIMAL + "abcdef")

  lemma AlphabetIsGood()
    ensures |COCOS.alphabet| == 64 && Distinct(COCOS.alphabet) && '@' !in COCOS.alphabet && '-' !in COCOS.alphabet
  {
    assert |UPPER| == 26 && |LOWER| == 26 && |DECIMAL| == 10;
    assert forall i :: 0 <= i < 26 ==> UPPER[i] == 'A' + i as char;
    assert forall i :: 0 <= i < 26 ==> LOWER[i] == 'a' + i as char;
    assert forall i :: 0 <= i < 10 ==> DECIMAL[i] == '0' + i as char;
    assert forall i :: 0 <= i < 64 ==>
      COCOS.alphabet[i] == (if i < 26 then 'A' + i as char else if i < 52 then 'a' + (i - 26) as char
                            else if i < 62 then '0' + (i - 52) as char else if i == 62 then '+' else '/');
  }

  lemma CocosIsGood()
    ensures Good(COCOS)
  {
    AlphabetIsGood();
    assert |DECIMAL| == 10 && |"abcdef"| == 6;
    assert forall i :: 0 <= i < 10 ==> DECIMAL[i] == '0' + i as char;
    assert forall i :: 0 <= i < 6 ==> "abcdef"[i] == 'a' + i as char;
  }

  /** `strings.IndexByte` */
  function IndexByte(s: string, c: char): (i: int)
    ensures -1 <= i < |s|
    ensures i >= 0 ==> s[i] == c
    ensures i < 0 <==> c !in s
  {
    if s == "" then -1
    else if s[0] == c then 0
    else
      var i := IndexByte(s[1..], c);
      if i < 0 then -1 else i + 1
  }

  // ----- what is computed -----

  function Index(t: Tables, c: char): (i: nat)
    requires Good(t) && c in t.alphabet
    ensures i < 64 && t.alphabet[i] == c
  {
    IndexByte(t.alphabet, c)
  }

  function HexValue(t: Tables, c: char): (i: nat)
    requires Good(t) && c in t.hex
    ensures i < 16 && t.hex[i] == c
  {
    IndexByte(t.hex, c)
  }

  /**
   The third `w` of the twelve bits of two symbols: `hi>>2`, `(hi&3)<<2 | lo>>4` or `lo&15`.
   */
  function Nibble(hi: nat, lo: nat, w: nat): (d: nat)
    requires hi < 64 && lo < 64 && w < 3
    ensures d < 16
  {
    if w == 0 then hi / 4 else if w == 1 then hi % 4 * 4 + lo / 16 else lo % 16
  }

  /** Base 64 to base 16: three hexadecimal digits write the number the two symbols write. */
  lemma SameNumber(hi: nat, lo: nat)
    requires hi < 64 && lo < 64
    ensures 256 * Nibble(hi, lo, 0) + 16 * Nibble(hi, lo, 1) + Nibble(hi, lo, 2) == 64 * hi + lo
  {
  }

  lemma NumberSplits(d0: nat, d1: nat, d2: nat)
    requires d0 < 16 && d1 < 16 && d2 < 16
    ensures var n := 256 * d0 + 16 * d1 + d2;
            && n / 64 < 64
            && Nibble(n / 64, n % 64, 0) == d0 && Nibble(n / 64, n % 64, 1) == d1 && Nibble(n / 64, n % 64, 2) == d2
  {
  }

  predicate IsHyphen(i: int) { i == 8 || i == 13 || i == 18 || i == 23 }

  /** The position of the k-th place that is no hyphen. */
  function SlotAt(k: nat): (i: nat)
    requires k < 32
    ensures i < 36 && !IsHyphen(i) && RankOf(i) == k
  {
    k + (if k < 8 then 0 else if k < 12 then 1 else if k < 16 then 2 else if k < 20 then 3 else 4)
  }

  /** How many places before `i` are no hyphens. */
  function RankOf(i: nat): (k: nat)
    requires i < 36 && !IsHyphen(i)
    ensures k < 32 && (i < 2 ==> k == i)
  {
    i - (if i < 8 then 0 else if i < 13 then 1 else if i < 18 then 2 else if i < 23 then 3 else 4)
  }

  function BeforeAt(value: string): string {
    if value == "" || value[0] == '@' then "" else [value[0]] + BeforeAt(value[1..])
  }

  predicate AllSymbols(t: Tables, packed: string) {
    |packed| == 22 && forall i :: 2 <= i < 22 ==> packed[i] in t.alphabet
  }

  predicate IsLiteral(c: char) { c != '@' && c != '-' }

  predicate WellPacked(t: Tables, packed: string) {
    AllSymbols(t, packed) && IsLiteral(packed[0]) && IsLiteral(packed[1])
  }

  /** The digit a packed identifier puts into slot `k`. */
  function DigitOf(t: Tables, packed: string, k: nat): char
    requires Good(t) && WellPacked(t, packed) && k < 32
  {
    if k < 2 then packed[k]
    else
      var i := 2 + (k - 2) / 3 * 2;
      t.hex[Nibble(Index(t, packed[i]), Index(t, packed[i + 1]), (k - 2) % 3)]
  }

  function Unpacked(t: Tables, packed: string): (uuid: string)
    requires Good(t) && WellPacked(t, packed)
    ensures |uuid| == 36
    ensures forall i :: 0 <= i < 36 ==>
              uuid[i] == if IsHyphen(i) then '-' else DigitOf(t, packed, RankOf(i))
  {
    seq(36, i requires 0 <= i < 36 => if IsHyphen(i) then '-' else DigitOf(t, packed, RankOf(i)))
  }

  /** A decoded name, or the run-time panic of an index out of range. */
  datatype Outcome = Name(uuid: string) | IndexPanic

  /**
   The slots are counted after the two literal characters went into the buffer, so a hyphen among those takes
   a slot away and the last digits have no place to go.
   */
  function Decode(t: Tables, value: string): Outcome
    requires Good(t)
  {
    var packed := BeforeAt(value);
    if !AllSymbols(t, packed) then Name(value)
    else if packed[0] == '-' || packed[1] == '-' then IndexPanic
    else if WellPacked(t, packed) then Name(Unpacked(t, packed))
    else Name(value)
  }

  // ----- the inverse -----

  /** The shape of a decoded name: two literal characters, thirty hexadecimal digits, four hyphens. */
  predicate WellFormed(t: Tables, uuid: string) {
    && |uuid| == 36 && IsLiteral(uuid[0]) && IsLiteral(uuid[1])
    && forall i :: 2 <= i < 36 ==> if IsHyphen(i) then uuid[i] == '-' else uuid[i] in t.hex
  }

  function HexAt(t: Tables, uuid: string, k: nat): (d: nat)
    requires Good(t) && WellFormed(t, uuid) && 2 <= k < 32
    ensures d < 16 && t.hex[d] == uuid[SlotAt(k)]
  {
    HexValue(t, uuid[SlotAt(k)])
  }

  /** The number in the three digits of pair `j`. */
  function NumberAt(t: Tables, uuid: string, j: nat): (n: nat)
    requires Good(t) && WellFormed(t, uuid) && j < 10
    ensures n < 4096
  {
    256 * HexAt(t, uuid, 2 + 3 * j) + 16 * HexAt(t, uuid, 3 + 3 * j) + HexAt(t, uuid, 4 + 3 * j)
  }

  function SymbolAt(t: Tables, uuid: string, i: nat): char
    requires Good(t) && WellFormed(t, uuid) && i < 22
  {
    if i < 2 then uuid[i]
    else
      var n := NumberAt(t, uuid, (i - 2) / 2);
      t.alphabet[if i % 2 == 0 then n / 64 else n % 64]
  }

  /** The explicit inverse: every three hexadecimal digits as two symbols. */
  function Pack(t: Tables, uuid: string): (packed: string)
    requires Good(t) && WellFormed(t, uuid)
    ensures |packed| == 22 && forall i :: 0 <= i < 22 ==> packed[i] == SymbolAt(t, uuid, i)
  {
    seq(22, i requires 0 <= i < 22 => SymbolAt(t, uuid, i))
  }

  lemma UnpackedIsWellFormed(t: Tables, packed: string)
    requires Good(t) && WellPacked(t, packed)
    ensures WellFormed(t, Unpacked(t, packed))
  {
  }

  lemma IndexOfSymbol(t: Tables, i: nat)
    requires Good(t) && i < 64
    ensures Index(t, t.alphabet[i]) == i
  {
  }

  lemma ValueOfHex(t: Tables, d: nat)
    requires Good(t) && d < 16
    ensures HexValue(t, t.hex[d]) == d
  {
  }

  lemma PairOf(j: nat, w: nat)
    requires j < 10 && w < 3
    ensures (2 + 3 * j + w - 2) / 3 == j && (2 + 3 * j + w - 2) % 3 == w
  {
  }

  lemma HexOfUnpacked(t: Tables, packed: string, j: nat, w: nat)
    requires Good(t) && WellPacked(t, packed) && j < 10 && w < 3 && WellFormed(t, Unpacked(t, packed))
    ensures HexAt(t, Unpacked(t, packed), 2 + 3 * j + w)
            == Nibble(Index(t, packed[2 + 2 * j]), Index(t, packed[3 + 2 * j]), w)
  {
    hide IndexByte, Nibble;
    PairOf(j, w);
    ValueOfHex(t, Nibble(Index(t, packed[2 + 2 * j]), Index(t, packed[3 + 2 * j]), w));
  }

  lemma NumberOfUnpacked(t: Tables, packed: string, j: nat)
    requires Good(t) && WellPacked(t, packed) && j < 10 && WellFormed(t, Unpacked(t, packed))
    ensures NumberAt(t, Unpacked(t, packed), j) == 64 * Index(t, packed[2 + 2 * j]) + Index(t, packed[3 + 2 * j])
  {
    hide HexAt, Index, Unpacked, Nibble;
    HexOfUnpacked(t, packed, j, 0);
    HexOfUnpacked(t, packed, j, 1);
    HexOfUnpacked(t, packed, j, 2);
    SameNumber(Index(t, packed[2 + 2 * j]), Index(t, packed[3 + 2 * j]));
  }

  lemma SymbolOfUnpacked(t: Tables, packed: string, i: nat)
    requires Good(t) && WellPacked(t, packed) && i < 22 && WellFormed(t, Unpacked(t, packed))
    ensures SymbolAt(t, Unpacked(t, packed), i) == packed[i]
  {
    hide Index, NumberAt;
    if i >= 2 {
      var j := (i - 2) / 2;
      NumberOfUnpacked(t, packed, j);
      assert i == 2 + 2 * j + i % 2;
    }
  }

  lemma PackOfUnpacked(t: Tables, packed: string)
    requires Good(t) && WellPacked(t, packed)
    ensures WellFormed(t, Unpacked(t, packed)) && Pack(t, Unpacked(t, packed)) == packed
  {
    UnpackedIsWellFormed(t, packed);
    hide SymbolAt, Unpacked;
    forall i | 0 <= i < 22 ensures Pack(t, Unpacked(t, packed))[i] == packed[i] {
      SymbolOfUnpacked(t, packed, i);
    }
  }

  lemma SymbolsOfPack(t: Tables, uuid: string, j: nat)
    requires Good(t) && WellFormed(t, uuid) && WellPacked(t, Pack(t, uuid)) && j < 10
    ensures var n := NumberAt(t, uuid, j);
            Index(t, Pack(t, uuid)[2 + 2 * j]) == n / 64 && Index(t, Pack(t, uuid)[3 + 2 * j]) == n % 64
  {
    hide Index, NumberAt;
    var n := NumberAt(t, uuid, j);
    IndexOfSymbol(t, n / 64);
    IndexOfSymbol(t, n % 64);
  }

  lemma NibbleOfNumber(t: Tables, uuid: string, j: nat, w: nat)
    requires Good(t) && WellFormed(t, uuid) && j < 10 && w < 3
    ensures Nibble(NumberAt(t, uuid, j) / 64, NumberAt(t, uuid, j) % 64, w) == HexAt(t, uuid, 2 + 3 * j + w)
  {
    hide HexAt, Nibble;
    NumberSplits(HexAt(t, uuid, 2 + 3 * j), HexAt(t, uuid, 3 + 3 * j), HexAt(t, uuid, 4 + 3 * j));
  }

  lemma DigitOfPack(t: Tables, uuid: string, j: nat, w: nat)
    requires Good(t) && WellFormed(t, uuid) && WellPacked(t, Pack(t, uuid)) && j < 10 && w < 3
    ensures DigitOf(t, Pack(t, uuid), 2 + 3 * j + w) == uuid[SlotAt(2 + 3 * j + w)]
  {
    hide Index, HexAt, Nibble, Pack, SlotAt, NumberAt, WellFormed;
    SymbolsOfPack(t, uuid, j);
    NibbleOfNumber(t, uuid, j, w);
    PairOf(j, w);
  }

  lemma UnpackedOfPack(t: Tables, uuid: string)
    requires Good(t) && WellFormed(t, uuid)
    ensures WellPacked(t, Pack(t, uuid)) && Unpacked(t, Pack(t, uuid)) == uuid
  {
    var packed := Pack(t, uuid);
    var back := Unpacked(t, packed);
    forall i | 0 <= i < 36 ensures back[i] == uuid[i] {
      if !IsHyphen(i) && i >= 2 {
        var k := RankOf(i);
        DigitOfPack(t, uuid, (k - 2) / 3, (k - 2) % 3);
        assert SlotAt(k) == i && k == 2 + 3 * ((k - 2) / 3) + (k - 2) % 3;
      }
    }
  }

  lemma {:induction false} BeforeAtPlain(value: string)
    requires '@' !in value
    ensures BeforeAt(value) == value
  {
    if value != "" { BeforeAtPlain(value[1..]); }
  }

  lemma {:induction false} BeforeAtIsPrefix(value: string)
    ensures '@' !in BeforeAt(value) && BeforeAt(value) <= value
  {
    if value != "" && value[0] != '@' { BeforeAtIsPrefix(value[1..]); }
  }

  /**
   A valid identifier becomes a well-formed UUID that keeps its two literal characters, with thirty hexadecimal
   digits behind them, and packing that gives the identifier back without its suffix.
   */
  lemma PackOfDecode(t: Tables, value: string)
    requires Good(t) && WellPacked(t, BeforeAt(value))
    ensures Decode(t, value).Name? && WellFormed(t, Decode(t, value).uuid)
    ensures Decode(t, value).uuid[..2] == BeforeAt(value)[..2]
    ensures Pack(t, Decode(t, value).uuid) == BeforeAt(value)
  {
    PackOfUnpacked(t, BeforeAt(value));
  }

  /** Every well-formed UUID is what its packed form decodes to. */
  lemma DecodeOfPack(t: Tables, uuid: string)
    requires Good(t) && WellFormed(t, uuid)
    ensures WellPacked(t, Pack(t, uuid)) && Decode(t, Pack(t, uuid)) == Name(uuid)
  {
    UnpackedOfPack(t, uuid);
    BeforeAtPlain(Pack(t, uuid));
  }

  /** Two valid identifiers decode alike exactly when they agree up to the suffix. */
  lemma DecodeInjective(t: Tables, one: string, two: string)
    requires Good(t) && WellPacked(t, BeforeAt(one)) && WellPacked(t, BeforeAt(two))
    ensures Decode(t, one) == Decode(t, two) <==> BeforeAt(one) == BeforeAt(two)
  {
    PackOfDecode(t, one);
    PackOfDecode(t, two);
  }

  /** Whatever is not 22 characters with twenty valid symbols comes back unchanged, and nothing else does. */
  lemma UnchangedExactly(t: Tables, value: string)
    requires Good(t)
    ensures Decode(t, value) == Name(value) <==> !AllSymbols(t, BeforeAt(value))
  {
    BeforeAtIsPrefix(value);
    if AllSymbols(t, BeforeAt(value)) {
      assert value[8] in t.alphabet;
      assert BeforeAt(value)[0] in BeforeAt(value) && BeforeAt(value)[1] in BeforeAt(value);
    }
  }

  /** The decoder fails on some inputs: exactly those with twenty valid symbols after two characters one of which is a hyphen. */
  lemma PanicsExactly(t: Tables, value: string)
    requires Good(t)
    ensures Decode(t, value) == IndexPanic <==>
              AllSymbols(t, BeforeAt(value)) && !WellPacked(t, BeforeAt(value))
  {
    BeforeAtIsPrefix(value);
    if AllSymbols(t, BeforeAt(value)) {
      assert BeforeAt(value)[0] in BeforeAt(value) && BeforeAt(value)[1] in BeforeAt(value);
    }
  }

  lemma HyphenPanics(t: Tables) returns (value: string)
    requires Good(t)
    ensures |value| == 22 && Decode(t, value) == IndexPanic
  {
    value := ['-'] + seq(21, _ => t.alphabet[0]);
    BeforeAtPlain(value);
  }

  // ----- as it is computed -----

  const BLANK := "00000000-0000-0000-0000-000000000000"

  method BlankUuid() returns (uuid: array<char>)
    ensures fresh(uuid) && uuid.Length == 36 && forall i :: 0 <= i < 36 ==> (uuid[i] == '-' <==> IsHyphen(i))
  {
    assert |BLANK| == 36 && forall i :: 0 <= i < 36 ==> BLANK[i] == if IsHyphen(i) then '-' else '0';
    uuid := new char[36](i requires 0 <= i < 36 => BLANK[i]);
  }

  /** The positions that hold no hyphen, in order. */
  method Slots(uuid: array<char>) returns (slots: seq<nat>)
    requires uuid.Length == 36 && forall i :: 2 <= i < 36 ==> (uuid[i] == '-' <==> IsHyphen(i))
    ensures var lost := (if uuid[0] == '-' then 1 else 0) + (if uuid[1] == '-' then 1 else 0);
            && |slots| == 32 - lost
            && (forall k :: 0 <= k < |slots| ==> slots[k] < 36)
            && (lost == 0 ==> forall k :: 0 <= k < 32 ==> slots[k] == SlotAt(k))
  {
    slots := [];
    ghost var lost := 0;
    for i := 0 to 36
      invariant lost == (if i > 0 && uuid[0] == '-' then 1 else 0) + (if i > 1 && uuid[1] == '-' then 1 else 0)
      invariant |slots| + lost == i - (if i <= 8 then 0 else if i <= 13 then 1 else if i <= 18 then 2 else if i <= 23 then 3 else 4)
      invariant forall k :: 0 <= k < |slots| ==> slots[k] < 36
      invariant lost == 0 ==> forall k :: 0 <= k < |slots| && k < 32 ==> slots[k] == SlotAt(k)
    {
      if uuid[i] != '-' { slots := slots + [i]; } else if i < 2 { lost := lost + 1; }
    }
  }

  /** `DigitOf` for a digit whose two symbols are known to be valid. */
  predicate IsDigitOf(t: Tables, packed: string, k: nat, c: char)
    requires Good(t) && |packed| == 22 && k < 32
  {
    if k < 2 then c == packed[k]
    else
      var i := 2 + (k - 2) / 3 * 2;
      && packed[i] in t.alphabet && packed[i + 1] in t.alphabet
      && c == t.hex[Nibble(Index(t, packed[i]), Index(t, packed[i + 1]), (k - 2) % 3)]
  }

  predicate AllDigitsOf(t: Tables, packed: string, digits: string)
    requires Good(t) && |packed| == 22 && |digits| <= 32
  {
    forall k :: 0 <= k < |digits| ==> IsDigitOf(t, packed, k, digits[k])
  }

  /** The buffer holds the digits in their slots and its hyphens. */
  predicate Holds(name: string, digits: string) {
    && |name| == 36 && |digits| <= 32
    && (forall i :: 0 <= i < 36 && IsHyphen(i) ==> name[i] == '-')
    && (forall k :: 0 <= k < |digits| ==> name[SlotAt(k)] == digits[k])
  }

  lemma DigitsComplete(t: Tables, packed: string, name: string, digits: string)
    requires Good(t) && WellPacked(t, packed) && |digits| == 32
    requires Holds(name, digits) && AllDigitsOf(t, packed, digits)
    ensures name == Unpacked(t, packed)
  {
    forall i | 0 <= i < 36 ensures name[i] == Unpacked(t, packed)[i] {
      if !IsHyphen(i) {
        var k := RankOf(i);
        assert SlotAt(k) == i && IsDigitOf(t, packed, k, digits[k]);
      }
    }
  }

  /** The three digits of the pair at `i`. */
  function PairDigits(t: Tables, packed: string, i: nat): (d: string)
    requires Good(t) && |packed| == 22 && 2 <= i < 22 && i % 2 == 0
    requires packed[i] in t.alphabet && packed[i + 1] in t.alphabet
    ensures |d| == 3
  {
    var hi, lo := Index(t, packed[i]), Index(t, packed[i + 1]);
    [t.hex[Nibble(hi, lo, 0)], t.hex[Nibble(hi, lo, 1)], t.hex[Nibble(hi, lo, 2)]]
  }

  lemma PairDigitsAre(t: Tables, packed: string, i: nat, digits: string)
    requires Good(t) && |packed| == 22 && 2 <= i < 22 && i % 2 == 0
    requires packed[i] in t.alphabet && packed[i + 1] in t.alphabet
    requires |digits| == 2 + (i - 2) / 2 * 3 && AllDigitsOf(t, packed, digits)
    ensures |digits| + 3 <= 32 && AllDigitsOf(t, packed, digits + PairDigits(t, packed, i))
  {
    var longer := digits + PairDigits(t, packed, i);
    var j := (i - 2) / 2;
    hide Nibble, Index;
    forall k | 0 <= k < |longer| ensures IsDigitOf(t, packed, k, longer[k]) {
      if k < |digits| {
        assert longer[k] == digits[k];
      } else {
        PairOf(j, k - |digits|);
        assert longer[k] == PairDigits(t, packed, i)[k - |digits|];
      }
    }
  }

  /** Writes three digits to three consecutive slots. */
  method WriteTriple(uuid: array<char>, slots: seq<nat>, slot: nat, d: string, ghost digits: string)
    requires uuid.Length == 36 && |slots| == 32 && forall k :: 0 <= k < 32 ==> slots[k] == SlotAt(k)
    requires |d| == 3 && slot + 3 <= 32 && |digits| == slot && Holds(uuid[..], digits)
    modifies uuid
    ensures Holds(uuid[..], digits + d)
  {
    uuid[slots[slot]] := d[0];
    uuid[slots[slot + 1]] := d[1];
    uuid[slots[slot + 2]] := d[2];
  }

  /** The pairs of an identifier without hyphens among its literal characters, over the buffer and its 32 slots. */
  method FillSlots(t: Tables, packed: string, uuid: array<char>, slots: seq<nat>) returns (ok: bool)
    requires Good(t) && |packed| == 22 && IsLiteral(packed[0]) && IsLiteral(packed[1])
    requires |slots| == 32 && forall k :: 0 <= k < 32 ==> slots[k] == SlotAt(k)
    requires uuid.Length == 36 && Holds(uuid[..], packed[..2])
    modifies uuid
    ensures ok <==> AllSymbols(t, packed)
    ensures ok ==> uuid[..] == Unpacked(t, packed)
  {
    var i, slot := 2, 2;
    ghost var digits := packed[..2];
    assert AllDigitsOf(t, packed, digits);
    hide AllDigitsOf, Holds, Unpacked, SlotAt;
    while i < 22
      invariant 2 <= i <= 22 && i % 2 == 0 && slot == |digits| == 2 + (i - 2) / 2 * 3
      invariant forall j :: 2 <= j < i ==> packed[j] in t.alphabet
      invariant Holds(uuid[..], digits) && AllDigitsOf(t, packed, digits)
    {
      var hi, lo := IndexByte(t.alphabet, packed[i]), IndexByte(t.alphabet, packed[i + 1]);
      if hi < 0 || lo < 0 { return false; }
      var d := [t.hex[hi / 4], t.hex[hi % 4 * 4 + lo / 16], t.hex[lo % 16]];
      assert d == PairDigits(t, packed, i);
      PairDigitsAre(t, packed, i, digits);
      WriteTriple(uuid, slots, slot, d, digits);
      digits := digits + d;
      slot := slot + 3;
      i := i + 2;
    }
    DigitsComplete(t, packed, uuid[..], digits);
    return true;
  }

  /** With a slot lost to a hyphen the same loop ends in an index out of range, unless a symbol is invalid first. */
  method FillTooFewSlots(t: Tables, packed: string, slots: seq<nat>) returns (panics: bool)
    requires Good(t) && |packed| == 22 && 30 <= |slots| < 32
    ensures panics <==> AllSymbols(t, packed)
  {
    var i, slot := 2, 2;
    while true
      invariant 2 <= i < 22 && i % 2 == 0 && slot == 2 + (i - 2) / 2 * 3
      invariant forall j :: 2 <= j < i ==> packed[j] in t.alphabet
      decreases 22 - i
    {
      var hi, lo := IndexByte(t.alphabet, packed[i]), IndexByte(t.alphabet, packed[i + 1]);
      if hi < 0 || lo < 0 { return false; }
      if |slots| <= slot + 2 { return true; }
      slot := slot + 3;
      i := i + 2;
    }
  }

  method DecodeWith(t: Tables, value: string) returns (outcome: Outcome)
    requires Good(t)
    ensures outcome == Decode(t, value)
  {
    var packed := BeforeAt(value);
    BeforeAtIsPrefix(value);
    if |packed| != 22 { return Name(value); }
    assert packed[0] in packed && packed[1] in packed;
    var uuid := BlankUuid();
    uuid[0] := value[0];
    uuid[1] := value[1];
    var slots := Slots(uuid);
    if |slots| < 32 {
      var panics := FillTooFewSlots(t, packed, slots);
      return if panics then IndexPanic else Name(value);
    }
    assert Holds(uuid[..], packed[..2]);
    var ok := FillSlots(t, packed, uuid, slots);
    return if ok then Name(uuid[..]) else Name(value);
  }

  /** `decodeCocosUUID` */
  method DecodeCocosUUID(value: string) returns (outcome: Outcome)
    ensures Good(COCOS) && outcome == Decode(COCOS, value)
    ensures outcome == Name(value) <==> !AllSymbols(COCOS, BeforeAt(value))
    ensures outcome == IndexPanic <==> AllSymbols(COCOS, BeforeAt(value)) && !WellPacked(COCOS, BeforeAt(value))
  {
    CocosIsGood();
    outcome := DecodeWith(COCOS, value);
    UnchangedExactly(COCOS, value);
    PanicsExactly(COCOS, value);
  }
}
