/**
 * Base32 as section 6 of RFC 4648 defines it, over the alphabet Kubernetes names allow, and
 * with the padding trimmed (storage/kubernetes/client.go). The trimmed encoding is injective.
 */
module Base32 {

  type Byte = x: int | 0 <= x < 256

  type Bytes = seq<Byte>

  const ALPHABET := "abcdefghijklmnopqrstuvwxyz234567"

  // ---------------------------------------------------------------- bits

  function Power(n: nat): (p: int)
    ensures 0 < p
  {
    if n == 0 then 1 else 2 * Power(n - 1)
  }

  /** The low `n` bits of `x`, most significant first. */
  function BitsOf(x: int, n: nat): (bits: seq<bool>)
    ensures |bits| == n
    decreases n, x
  {
    if n == 0 then [] else BitsOf(x / 2, n - 1) + [x % 2 == 1]
  }

  function Number(bits: seq<bool>): (x: int)
    ensures 0 <= x < Power(|bits|)
  {
    if bits == [] then 0
    else 2 * Number(bits[..|bits| - 1]) + (if bits[|bits| - 1] then 1 else 0)
  }

  lemma {:induction false} NumberOfBits(x: int, n: nat)
    requires 0 <= x < Power(n)
    ensures Number(BitsOf(x, n)) == x
    decreases n
  {
    if n != 0 {
      NumberOfBits(x / 2, n - 1);
      assert BitsOf(x, n)[..n - 1] == BitsOf(x / 2, n - 1);
    }
  }

  lemma {:induction false} BitsOfNumber(bits: seq<bool>)
    ensures BitsOf(Number(bits), |bits|) == bits
  {
    if bits != [] {
      BitsOfNumber(bits[..|bits| - 1]);
      assert bits == bits[..|bits| - 1] + [bits[|bits| - 1]];
    }
  }

  function Bits(bytes: Bytes): (bits: seq<bool>)
    ensures |bits| == 8 * |bytes|
  {
    if bytes == [] then [] else BitsOf(bytes[0], 8) + Bits(bytes[1..])
  }

  lemma EightBits()
    ensures Power(8) == 256
  {
    assert Power(4) == 16;
  }

  lemma {:induction false} BitsInjective(a: Bytes, b: Bytes)
    requires Bits(a) == Bits(b)
    ensures a == b
  {
    if a != [] {
      assert Bits(a)[..8] == BitsOf(a[0], 8) && Bits(b)[..8] == BitsOf(b[0], 8);
      assert Bits(a)[8..] == Bits(a[1..]) && Bits(b)[8..] == Bits(b[1..]);
      EightBits();
      NumberOfBits(a[0], 8);
      NumberOfBits(b[0], 8);
      BitsInjective(a[1..], b[1..]);
    }
  }

  // ---------------------------------------------------------------- symbols

  /** A group of five bits, filled up with zero bits. */
  function Group(bits: seq<bool>): (g: seq<bool>)
    requires |bits| <= 5
    ensures |g| == 5
  {
    bits + seq(5 - |bits|, _ => false)
  }

  lemma FiveBits()
    ensures Power(5) == 32
  {
    assert Power(3) == 8;
  }

  function Symbol(bits: seq<bool>): char
    requires |bits| == 5
  {
    FiveBits();
    ALPHABET[Number(bits)]
  }

  lemma SymbolInjective(a: seq<bool>, b: seq<bool>)
    requires |a| == |b| == 5 && Symbol(a) == Symbol(b)
    ensures a == b
  {
    FiveBits();
    AlphabetDistinct(Number(a), Number(b));
    BitsOfNumber(a);
    BitsOfNumber(b);
  }

  lemma AlphabetDistinct(i: int, j: int)
    requires 0 <= i < 32 && 0 <= j < 32 && ALPHABET[i] == ALPHABET[j]
    ensures i == j
  {
    assert forall k :: 0 <= k < 26 ==> ALPHABET[k] == 'a' + k as char;
    assert forall k :: 26 <= k < 32 ==> ALPHABET[k] == '2' + (k - 26) as char;
  }

  /** The encoding without padding: one symbol for every five bits begun. */
  function Symbols(bits: seq<bool>): (s: string)
    ensures |s| == (|bits| + 4) / 5
  {
    if bits == [] then []
    else if |bits| <= 5 then [Symbol(Group(bits))]
    else [Symbol(bits[..5])] + Symbols(bits[5..])
  }

  lemma {:induction false} SymbolsInjective(a: seq<bool>, b: seq<bool>)
    requires |a| == |b| && Symbols(a) == Symbols(b)
    ensures a == b
  {
    if 5 < |a| {
      assert Symbols(a)[0] == Symbol(a[..5]) && Symbols(b)[0] == Symbol(b[..5]);
      assert Symbols(a)[1..] == Symbols(a[5..]) && Symbols(b)[1..] == Symbols(b[5..]);
      SymbolInjective(a[..5], b[..5]);
      SymbolsInjective(a[5..], b[5..]);
      assert a == a[..5] + a[5..] && b == b[..5] + b[5..];
    } else if a != [] {
      assert Symbols(a)[0] == Symbols(b)[0];
      SymbolInjective(Group(a), Group(b));
      assert a == Group(a)[..|a|] && b == Group(b)[..|b|];
    }
  }

  // ---------------------------------------------------------------- padding

  function Padding(n: nat): string {
    if n == 0 then "" else Padding(n - 1) + "="
  }

  /** What is missing to a multiple of eight. */
  function PadCount(n: nat): (pads: nat)
    ensures pads < 8 && (n + pads) % 8 == 0
  {
    if n % 8 == 0 then 0 else 8 - n % 8
  }

  /** The padded encoding: whole blocks of eight characters. */
  function Encode(bytes: Bytes): string {
    var s := Symbols(Bits(bytes));
    s + Padding(PadCount(|s|))
  }

  function TrimRight(s: string): string {
    if s != [] && s[|s| - 1] == '=' then TrimRight(s[..|s| - 1]) else s
  }

  predicate IsNameCharacter(c: char) {
    'a' <= c <= 'z' || '2' <= c <= '7'
  }

  lemma SymbolIsNameCharacter(bits: seq<bool>)
    requires |bits| == 5
    ensures IsNameCharacter(Symbol(bits))
  {
    FiveBits();
    assert forall k :: 0 <= k < 32 ==> IsNameCharacter(ALPHABET[k]);
  }

  lemma {:induction false} SymbolsAreNameCharacters(bits: seq<bool>)
    ensures forall c :: c in Symbols(bits) ==> IsNameCharacter(c)
  {
    if 5 < |bits| {
      SymbolIsNameCharacter(bits[..5]);
      SymbolsAreNameCharacters(bits[5..]);
    } else if bits != [] {
      SymbolIsNameCharacter(Group(bits));
    }
  }

  lemma {:induction false} TrimmingPads(s: string, pads: nat)
    requires '=' !in s
    ensures TrimRight(s + Padding(pads)) == s
  {
    var padded := s + Padding(pads);
    if pads == 0 {
      assert padded == s;
    } else {
      assert padded[..|padded| - 1] == s + Padding(pads - 1);
      TrimmingPads(s, pads - 1);
    }
  }

  lemma {:induction false} PaddingLength(n: nat)
    ensures |Padding(n)| == n && forall k :: 0 <= k < n ==> Padding(n)[k] == '='
  {
    if n != 0 {
      PaddingLength(n - 1);
    }
  }

  /** Trimming the padded encoding leaves the symbols, all of them fit for a Kubernetes name. */
  lemma TrimmedEncoding(bytes: Bytes)
    ensures TrimRight(Encode(bytes)) == Symbols(Bits(bytes))
    ensures forall c :: c in TrimRight(Encode(bytes)) ==> IsNameCharacter(c)
  {
    var s := Symbols(Bits(bytes));
    SymbolsAreNameCharacters(Bits(bytes));
    assert '=' !in s;
    TrimmingPads(s, PadCount(|s|));
  }

  /** The padded encoding comes in blocks of eight. */
  lemma EncodedInBlocks(bytes: Bytes)
    ensures |Encode(bytes)| % 8 == 0 && |TrimRight(Encode(bytes))| <= |Encode(bytes)| < |TrimRight(Encode(bytes))| + 8
    ensures forall k :: |TrimRight(Encode(bytes))| <= k < |Encode(bytes)| ==> Encode(bytes)[k] == '='
  {
    PaddingLength(PadCount(|Symbols(Bits(bytes))|));
    TrimmedEncoding(bytes);
  }

  // ---------------------------------------------------------------- which bits a letter stands for

  /** `x` shifted right by `n`. */
  function Halved(x: int, n: nat): int
    decreases n, x
  {
    if n == 0 then x else Halved(x / 2, n - 1)
  }

  /** Bit `j` of a byte, from the most significant one on. */
  function BitOfByte(x: Byte, j: nat): int
    requires j < 8
  {
    Halved(x, 7 - j) % 2
  }

  /** Bit `k` of a byte string, byte by byte; 0 past its end. */
  function BitAt(bytes: Bytes, k: nat): int {
    if k < 8 * |bytes| then BitOfByte(bytes[k / 8], k % 8) else 0
  }

  /** Five bits from bit `k` on, as a number. */
  function FiveBitsAt(bytes: Bytes, k: nat): int {
    16 * BitAt(bytes, k) + 8 * BitAt(bytes, k + 1) + 4 * BitAt(bytes, k + 2) + 2 * BitAt(bytes, k + 3)
    + BitAt(bytes, k + 4)
  }

  function Letter(v: int): char {
    if 0 <= v < 26 then 'a' + v as char else if 26 <= v < 32 then '2' + (v - 26) as char else '='
  }

  lemma {:induction false} BitsOfHalve(x: int, n: nat, j: nat)
    requires j < n
    ensures BitsOf(x, n)[j] <==> Halved(x, n - 1 - j) % 2 == 1
    decreases n
  {
    if j < n - 1 {
      BitsOfHalve(x / 2, n - 1, j);
    }
  }

  lemma {:induction false} BitsByByte(bytes: Bytes, i: nat, j: nat, n: nat)
    requires i < |bytes| && j < n == 8
    ensures Bits(bytes)[8 * i + j] == BitsOf(bytes[i], n)[j]
  {
    if i != 0 {
      BitsByByte(bytes[1..], i - 1, j, n);
      assert bytes[1..][i - 1] == bytes[i];
      assert 8 * (i - 1) + j == 8 * i + j - 8;
    }
  }

  lemma BitsSpell(bytes: Bytes, i: nat, j: nat, n: nat)
    requires i < |bytes| && j < n == 8
    ensures Bits(bytes)[8 * i + j] <==> BitOfByte(bytes[i], j) == 1
  {
    BitsByByte(bytes, i, j, n);
    BitsOfHalve(bytes[i], n, j);
  }

  function One(bits: seq<bool>, k: nat): int {
    if k < |bits| && bits[k] then 1 else 0
  }

  lemma OneOrZero(x: Byte, j: nat)
    requires j < 8
    ensures BitOfByte(x, j) == 0 || BitOfByte(x, j) == 1
  {
  }

  lemma BitsSpellAt(bytes: Bytes, k: nat)
    ensures BitAt(bytes, k) == One(Bits(bytes), k)
  {
    if k < 8 * |bytes| {
      var i, j := k / 8, k % 8;
      assert k == 8 * i + j;
      BitsSpell(bytes, i, j, 8);
      OneOrZero(bytes[i], j);
    }
  }

  function FiveAt(bits: seq<bool>, k: nat): int {
    16 * One(bits, k) + 8 * One(bits, k + 1) + 4 * One(bits, k + 2) + 2 * One(bits, k + 3) + One(bits, k + 4)
  }

  lemma NumberOfFive(bits: seq<bool>)
    requires |bits| == 5
    ensures Number(bits) == FiveAt(bits, 0)
  {
    assert bits[..4][..3] == bits[..3] && bits[..3][..2] == bits[..2] && bits[..2][..1] == bits[..1];
    assert bits[..1][..0] == [];
    assert Number(bits[..1]) == One(bits, 0);
    assert Number(bits[..2]) == 2 * Number(bits[..1]) + One(bits, 1);
    assert Number(bits[..3]) == 2 * Number(bits[..2]) + One(bits, 2);
    assert Number(bits[..4]) == 2 * Number(bits[..3]) + One(bits, 3);
  }

  lemma SymbolSpells(bits: seq<bool>)
    requires |bits| == 5
    ensures Symbol(bits) == Letter(FiveAt(bits, 0))
  {
    FiveBits();
    NumberOfFive(bits);
    assert forall k :: 0 <= k < 26 ==> ALPHABET[k] == 'a' + k as char;
    assert forall k :: 26 <= k < 32 ==> ALPHABET[k] == '2' + (k - 26) as char;
  }

  lemma FiveOfGroup(bits: seq<bool>)
    requires |bits| <= 5
    ensures FiveAt(Group(bits), 0) == FiveAt(bits, 0)
  {
    assert forall k :: 0 <= k < 5 ==> One(Group(bits), k) == One(bits, k);
  }

  lemma FiveOfFirst(bits: seq<bool>)
    requires 5 <= |bits|
    ensures FiveAt(bits[..5], 0) == FiveAt(bits, 0)
  {
    assert forall k :: 0 <= k < 5 ==> One(bits[..5], k) == One(bits, k);
  }

  lemma FiveOfRest(bits: seq<bool>, k: nat)
    requires 5 <= |bits|
    ensures FiveAt(bits[5..], k) == FiveAt(bits, k + 5)
  {
    assert forall i: nat :: k <= i < k + 5 ==> One(bits[5..], i) == One(bits, i + 5);
  }

  lemma {:induction false} SymbolsSpell(bits: seq<bool>, j: nat)
    requires j < |Symbols(bits)|
    ensures Symbols(bits)[j] == Letter(FiveAt(bits, 5 * j))
  {
    if |bits| <= 5 {
      SymbolSpells(Group(bits));
      FiveOfGroup(bits);
    } else if j == 0 {
      SymbolSpells(bits[..5]);
      FiveOfFirst(bits);
    } else {
      SymbolsSpell(bits[5..], j - 1);
      FiveOfRest(bits, 5 * (j - 1));
      assert 5 * (j - 1) + 5 == 5 * j;
    }
  }

  lemma FiveSpell(bytes: Bytes, k: nat)
    ensures FiveBitsAt(bytes, k) == FiveAt(Bits(bytes), k)
  {
    BitsSpellAt(bytes, k);
    BitsSpellAt(bytes, k + 1);
    BitsSpellAt(bytes, k + 2);
    BitsSpellAt(bytes, k + 3);
    BitsSpellAt(bytes, k + 4);
  }

  /**
   * Section 6 of RFC 4648, spelled out: the letters of the encoding without padding are one for every five
   * bits begun, each standing for its five bits.
   */
  lemma TrimmedSpells(bytes: Bytes, j: nat)
    ensures |TrimRight(Encode(bytes))| == (8 * |bytes| + 4) / 5
    ensures j < |TrimRight(Encode(bytes))| ==> TrimRight(Encode(bytes))[j] == Letter(FiveBitsAt(bytes, 5 * j))
  {
    TrimmedEncoding(bytes);
    if j < |TrimRight(Encode(bytes))| {
      SymbolsSpell(Bits(bytes), j);
      FiveSpell(bytes, 5 * j);
    }
  }

  /** The number of symbols gives the number of bytes away. */
  lemma SymbolCountsDiffer(m: int, n: int)
    ensures (8 * m + 4) / 5 == (8 * n + 4) / 5 ==> m == n
  {
  }

  /** Even without padding, no two byte strings have the same encoding. */
  lemma TrimmedEncodingInjective(a: Bytes, b: Bytes)
    ensures TrimRight(Encode(a)) == TrimRight(Encode(b)) <==> a == b
  {
    if TrimRight(Encode(a)) == TrimRight(Encode(b)) {
      TrimmedEncoding(a);
      TrimmedEncoding(b);
      SymbolCountsDiffer(|a|, |b|);
      SymbolsInjective(Bits(a), Bits(b));
      BitsInjective(a, b);
    }
  }
}
