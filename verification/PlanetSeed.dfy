// The 48-bit galaxy seed of planet.cpp: its byte-wise twist, the planet name drawn
// from it, and the two pseudo-random byte generators that share one seed record.
module PlanetSeed {

  type Byte = x: nat | x < 256

  datatype GalaxySeed = GalaxySeed(a: Byte, b: Byte, c: Byte, d: Byte, e: Byte, f: Byte)

  // ---------------------------------------------------------------------------
  // waggle_galaxy
  // ---------------------------------------------------------------------------

  const WORD: nat := 0x1_0000

  function Word(lo: nat, hi: nat): nat {
    lo + 256 * hi
  }

  ghost function Words(s: GalaxySeed): (nat, nat, nat) {
    (Word(s.a, s.b), Word(s.c, s.d), Word(s.e, s.f))
  }

  // struct galaxy_seed passed by pointer.
  class SeedCell {
    var seed: GalaxySeed

    constructor (seed: GalaxySeed)
      ensures this.seed == seed
    {
      this.seed := seed;
    }

    // The byte-by-byte additions with carries amount to one step of a three-term
    // recurrence on 16-bit words: (w0, w1, w2) becomes (w1, w2, w0 + w1 + w2).
    method Waggle() returns (carryFlag: bool)
      modifies this
      ensures seed == Twist(old(seed))
      ensures var (w0, w1, w2) := Words(old(seed));
              carryFlag <==> AddWords(w0, w1) + w2 >= WORD
    {
      ghost var was := seed;
      var x := seed.a + seed.c;
      var y := seed.b + seed.d;
      if x > 0xFF {
        y := y + 1;
      }
      x := Low8(x);
      y := Low8(y);
      ByteAdd(was.a, was.b, was.c, was.d);
      ghost var x1, y1 := x, y;
      seed := seed.(a := seed.c, b := seed.d, c := seed.e, d := seed.f);
      x := x + seed.c;
      y := y + seed.d;
      if x > 0xFF {
        y := y + 1;
      }
      carryFlag := y > 0xFF;
      x := Low8(x);
      y := Low8(y);
      ByteAdd(x1, y1, was.e, was.f);
      TwistBytes(was, x1, y1, x, y);
      seed := seed.(e := x, f := y);
    }
  }

  // x & 0xFF for the two-byte sums that occur here.
  function Low8(x: nat): (r: Byte)
    requires x < 512
    ensures r == x % 256
  {
    if x < 256 then x else x - 256
  }

  // 16-bit addition with wrap-around.
  function AddWords(u: nat, v: nat): (w: nat)
    requires u < WORD && v < WORD
    ensures w < WORD && w == (u + v) % WORD
  {
    if u + v < WORD then u + v else u + v - WORD
  }

  function SubWords(u: nat, v: nat): (w: nat)
    requires u < WORD && v < WORD
    ensures w < WORD && w == (u - v) % WORD
  {
    if u >= v then u - v else u - v + WORD
  }

  // Adding two words byte by byte with a carry is adding them modulo 2^16.
  lemma ByteAdd(lo1: Byte, hi1: Byte, lo2: Byte, hi2: Byte)
    ensures var y := hi1 + hi2 + (if lo1 + lo2 > 0xFF then 1 else 0);
            && Word(Low8(lo1 + lo2), Low8(y)) == AddWords(Word(lo1, hi1), Word(lo2, hi2))
            && (y > 0xFF <==> Word(lo1, hi1) + Word(lo2, hi2) >= WORD)
            && SeedBytes(AddWords(Word(lo1, hi1), Word(lo2, hi2))) == (Low8(lo1 + lo2), Low8(y))
  {
    var y := hi1 + hi2 + (if lo1 + lo2 > 0xFF then 1 else 0);
    BytesOfWord(Low8(lo1 + lo2), Low8(y));
  }

  // The low and high byte of a word.
  function SeedBytes(w: nat): (r: (Byte, Byte))
    requires w < WORD
    ensures Word(r.0, r.1) == w
  {
    (w % 256, w / 256)
  }

  lemma BytesOfWord(lo: Byte, hi: Byte)
    ensures Word(lo, hi) < WORD && SeedBytes(Word(lo, hi)) == (lo, hi)
  {
  }

  // The twist, stated on words.
  function Twist(s: GalaxySeed): GalaxySeed {
    var (lo, hi) := SeedBytes(AddWords(AddWords(Word(s.a, s.b), Word(s.c, s.d)), Word(s.e, s.f)));
    GalaxySeed(s.c, s.d, s.e, s.f, lo, hi)
  }

  // The bytes of the sum of the first two words, and of that sum and the third.
  lemma TwistBytes(s: GalaxySeed, lo1: Byte, hi1: Byte, lo: Byte, hi: Byte)
    requires Word(lo1, hi1) == AddWords(Word(s.a, s.b), Word(s.c, s.d))
    requires SeedBytes(AddWords(Word(lo1, hi1), Word(s.e, s.f))) == (lo, hi)
    ensures Twist(s) == GalaxySeed(s.c, s.d, s.e, s.f, lo, hi)
  {
  }

  function Untwist(s: GalaxySeed): GalaxySeed {
    var (lo, hi) := SeedBytes(SubWords(SubWords(Word(s.e, s.f), Word(s.c, s.d)), Word(s.a, s.b)));
    GalaxySeed(lo, hi, s.a, s.b, s.c, s.d)
  }

  lemma AddSubWords(u: nat, v: nat)
    requires u < WORD && v < WORD
    ensures SubWords(AddWords(u, v), v) == u && AddWords(SubWords(u, v), v) == u
  {
  }

  // No two seeds twist to the same seed, and every seed is some twist: walking the
  // galaxy permutes the 2^48 seeds.
  lemma TwistIsBijective(s: GalaxySeed)
    ensures Untwist(Twist(s)) == s
    ensures Twist(Untwist(s)) == s
  {
    var w0, w1, w2 := Word(s.a, s.b), Word(s.c, s.d), Word(s.e, s.f);
    AddSubWords(AddWords(w0, w1), w2);
    AddSubWords(w0, w1);
    BytesOfWord(s.a, s.b);
    AddSubWords(w2, w1);
    AddSubWords(SubWords(w2, w1), w0);
    BytesOfWord(s.e, s.f);
    assert AddWords(AddWords(SubWords(SubWords(w2, w1), w0), w0), w1) == w2;
  }

  // ---------------------------------------------------------------------------
  // name_planet
  // ---------------------------------------------------------------------------

  predicate Letterful(t: string) {
    forall i :: 0 <= i < |t| ==> t[i] != '\0'
  }

  // Letter pairs; every result below holds for any table of 44 of them.
  type DigramTable = t: string | |t| == 88 && Letterful(t) witness seq(88, i => 'A')

  const DIGRAMS: DigramTable :=
    var q1 := "ABOUSEITILETSTONLONUTH";
    var q2 := "NOALLEXEGEZACEBISOUSES";
    var q3 := "ARMAINDIREA?ERATENBERA";
    var q4 := "LAVETIEDORQUANTEISRION";
    assert |q1| == 22 && Letterful(q1) && |q2| == 22 && Letterful(q2);
    assert |q3| == 22 && Letterful(q3) && |q4| == 22 && Letterful(q4);
    q1 + q2 + q3 + q4

  // The letters one seed contributes: none when its low five bits are zero, a single
  // letter for a '?' digram, otherwise two.
  function Syllable(digrams: DigramTable, f: Byte): (s: string)
    ensures |s| <= 2
  {
    var x := f % 32;
    if x == 0 then ""
    else
      var i := (x + 12) * 2;
      [digrams[i]] + (if digrams[i + 1] != '?' then [digrams[i + 1]] else "")
  }

  function Syllables(digrams: DigramTable, s: GalaxySeed, n: nat): (name: string)
    ensures |name| <= 2 * n
    decreases n
  {
    if n == 0 then "" else Syllable(digrams, s.f) + Syllables(digrams, Twist(s), n - 1)
  }

  function NameSize(s: GalaxySeed): nat {
    if (s.a / 64) % 2 == 0 then 3 else 4
  }

  function Name(digrams: DigramTable, s: GalaxySeed): (name: string)
    ensures |name| <= 8
  {
    Syllables(digrams, s, NameSize(s))
  }

  // name_planet works on its own copy of the seed and a caller-owned buffer.
  method NamePlanet(digrams: DigramTable, gname: array<char>, glx: GalaxySeed) returns (gp: nat)
    requires gname.Length >= 9
    modifies gname
    ensures gp == |Name(digrams, glx)| && gp < gname.Length
    ensures gname[..gp] == Name(digrams, glx) && gname[gp] == '\0'
  {
    var cell := new SeedCell(glx);
    gp := 0;
    var size := NameSize(glx);
    ghost var name := Name(digrams, glx);
    var i := 0;
    while i < size
      invariant 0 <= i <= size && gp <= 2 * i && gp <= |name|
      invariant forall j :: 0 <= j < gp ==> gname[j] == name[j]
      invariant Syllables(digrams, cell.seed, size - i) == name[gp..]
    {
      SplitSuffix(name, gp, Syllable(digrams, cell.seed.f), Syllables(digrams, Twist(cell.seed), size - i - 1));
      gp := AppendSyllable(digrams, gname, gp, cell.seed.f);
      var _ := cell.Waggle();
      i := i + 1;
    }
    gname[gp] := '\0';
  }

  lemma SplitSuffix(s: string, at: nat, x: string, y: string)
    requires at <= |s| && s[at..] == x + y
    ensures at + |x| <= |s| && s[at + |x|..] == y
    ensures forall j :: 0 <= j < |x| ==> s[at + j] == x[j]
  {
    assert s[at + |x|..] == s[at..][|x|..];
    forall j | 0 <= j < |x|
      ensures s[at + j] == x[j]
    {
      assert s[at..][j] == (x + y)[j];
    }
  }

  // The body of name_planet's loop.
  method AppendSyllable(digrams: DigramTable, gname: array<char>, start: nat, f: Byte) returns (gp: nat)
    requires start + 2 <= gname.Length
    modifies gname
    ensures start <= gp <= start + 2
    ensures forall j :: 0 <= j < start ==> gname[j] == old(gname[j])
    ensures gp == start + |Syllable(digrams, f)|
    ensures forall j :: start <= j < gp ==> gname[j] == Syllable(digrams, f)[j - start]
  {
    gp := start;
    var x := f % 32;
    if x != 0 {
      x := (x + 12) * 2;
      gname[gp] := digrams[x];
      gp := gp + 1;
      if digrams[x + 1] != '?' {
        gname[gp] := digrams[x + 1];
        gp := gp + 1;
      }
    }
  }

  lemma {:induction false} NoNulInSyllables(digrams: DigramTable, s: GalaxySeed, n: nat)
    ensures '\0' !in Syllables(digrams, s, n)
    decreases n
  {
    if n > 0 {
      NoNulInSyllables(digrams, Twist(s), n - 1);
      var x := (s.f % 32 + 12) * 2;
      assert digrams[x] in digrams && digrams[x + 1] in digrams;
    }
  }

  // The name is empty exactly when no seed it is drawn from selects a digram.
  ghost predicate NoDigram(s: GalaxySeed, n: nat)
    decreases n
  {
    n == 0 || (s.f % 32 == 0 && NoDigram(Twist(s), n - 1))
  }

  lemma {:induction false} SyllablesEmpty(digrams: DigramTable, s: GalaxySeed, n: nat)
    ensures Syllables(digrams, s, n) == "" <==> NoDigram(s, n)
    decreases n
  {
    if n > 0 {
      SyllablesEmpty(digrams, Twist(s), n - 1);
    }
  }

  // Such seeds exist: the all-zero seed has no name.
  lemma ZeroSeedHasNoName(digrams: DigramTable)
    ensures Name(digrams, GalaxySeed(0, 0, 0, 0, 0, 0)) == ""
  {
    var z := GalaxySeed(0, 0, 0, 0, 0, 0);
    assert Twist(z) == z by {
      assert AddWords(AddWords(0, 0), 0) == 0;
      BytesOfWord(0, 0);
    }
    assert NoDigram(z, 0) && NoDigram(z, 1) && NoDigram(z, 2) && NoDigram(z, 3);
    SyllablesEmpty(digrams, z, 3);
  }

  function Lower(c: char): char {
    if 'A' <= c <= 'Z' then c - 'A' + 'a' else c
  }

  function Upper(c: char): char {
    if 'a' <= c <= 'z' then c - 'a' + 'A' else c
  }

  function LowerAll(s: string): (r: string)
    ensures |r| == |s| && forall i :: 0 <= i < |s| ==> r[i] == Lower(s[i])
  {
    seq(|s|, i requires 0 <= i < |s| => Lower(s[i]))
  }

  function Capitalised(s: string): (r: string)
    ensures |r| == |s|
  {
    if s == "" then "" else [Upper(s[0])] + LowerAll(s[1..])
  }

  // capitalise_name rewrites a NUL-terminated string in place.
  method CapitaliseName(name: array<char>, ghost len: nat)
    requires len < name.Length && name[len] == '\0'
    requires forall i :: 0 <= i < len ==> name[i] != '\0'
    modifies name
    ensures forall i :: 0 <= i < len ==> name[i] == Capitalised(old(name[..len]))[i]
    ensures name[len] == '\0'
  {
    ghost var want := Capitalised(name[..len]);
    var ptr := 0;
    if name[ptr] == '\0' {
      return;
    }
    name[ptr] := Upper(name[ptr]);
    ptr := ptr + 1;
    while name[ptr] != '\0'
      invariant 1 <= ptr <= len
      invariant forall i :: 0 <= i < ptr ==> name[i] == want[i]
      invariant forall i :: ptr <= i < len ==> name[i] == old(name[i]) && want[i] == Lower(old(name[i]))
      invariant name[len] == '\0'
      decreases len - ptr
    {
      name[ptr] := Lower(name[ptr]);
      ptr := ptr + 1;
    }
  }

  // ---------------------------------------------------------------------------
  // The shared random seed: gen_rnd_number (6502) and gen_msx_rnd_number
  // ---------------------------------------------------------------------------

  datatype Rnd = Rnd(a: int, b: int, c: int, d: int)

  // What the code really keeps: a and c are bytes, but the MSX generator can leave
  // 256 (not 0) in d, and from there in b.
  predicate RndOk(r: Rnd) {
    0 <= r.a < 256 && 0 <= r.c < 256 && 0 <= r.b <= 256 && 0 <= r.d <= 256
  }

  function Rotate(a: int): int {
    (a * 2) % 256 + (if a > 127 then 1 else 0)
  }

  function GenRnd(r: Rnd): (Rnd, int) {
    var sum := Rotate(r.a) + r.c;
    var b := (sum / 256 + r.b + r.d) % 256;
    (Rnd(sum % 256, b, (r.a * 2) % 256, r.b), b)
  }

  function GenMsx(r: Rnd): (Rnd, int) {
    var lo := r.a + r.c;
    var hi := (r.b + r.d) % 256 + (if lo > 255 then 1 else 0);
    (Rnd(r.c, r.d, lo % 256, hi), (lo % 256) / 0x34)
  }

  lemma RndStaysOk(r: Rnd)
    requires RndOk(r)
    ensures RndOk(GenRnd(r).0) && 0 <= GenRnd(r).1 < 256
    ensures RndOk(GenMsx(r).0) && 0 <= GenMsx(r).1 < 5
  {
  }

  // Read modulo 256, the MSX generator is a Fibonacci recurrence on 16-bit words; the
  // stray 256 never shows.
  lemma MsxIsWordFibonacci(r: Rnd)
    requires RndOk(r)
    ensures var n := GenMsx(r).0;
            && RndOk(n)
            && Word(n.a, Wrapped(n.b)) == Word(r.c, Wrapped(r.d))
            && Word(n.c, Wrapped(n.d)) == AddWords(Word(r.a, Wrapped(r.b)), Word(r.c, Wrapped(r.d)))
  {
    RndStaysOk(r);
    ByteAdd(r.a, Wrapped(r.b), r.c, Wrapped(r.d));
    MsxHighByte(r.b, r.d, if r.a + r.c > 255 then 1 else 0);
  }

  // The byte an int that may have run over to 256 stands for.
  function Wrapped(x: int): (r: Byte)
    requires 0 <= x <= 256
    ensures r == x % 256
  {
    if x == 256 then 0 else x
  }

  lemma MsxHighByte(b: int, d: int, carry: int)
    requires 0 <= b <= 256 && 0 <= d <= 256 && 0 <= carry <= 1
    ensures 0 <= (b + d) % 256 + carry <= 256
    ensures Wrapped((b + d) % 256 + carry) == Low8(Wrapped(b) + Wrapped(d) + carry)
  {
    var t := Wrapped(b) + Wrapped(d);
    assert (b + d) % 256 == if t < 256 then t else t - 256;
  }

  // The low bytes carry into a high byte that is already full.
  predicate Overflows(r: Rnd) {
    r.a + r.c > 255 && (r.b + r.d) % 256 == 255
  }

  // One step leaves 256 in d exactly then.
  lemma MsxOverflowsExactly(r: Rnd)
    requires RndOk(r)
    ensures GenMsx(r).0.d == 256 <==> Overflows(r)
  {
  }

  ghost predicate AllBytes(r: Rnd) {
    0 <= r.a < 256 && 0 <= r.b < 256 && 0 <= r.c < 256 && 0 <= r.d < 256
  }

  ghost function MsxRun(r: Rnd, n: nat): Rnd {
    if n == 0 then r else GenMsx(MsxRun(r, n - 1)).0
  }

  // The step i steps before the n-th overflowed.
  ghost predicate OverflowedAgo(r: Rnd, n: nat, i: nat) {
    n >= i && Overflows(MsxRun(r, n - i))
  }

  // From a byte-valued seed the state is byte-valued again after n steps exactly unless one of
  // the last two steps overflowed: the last one shows in d, the one before it in b.
  lemma {:induction false} MsxByteRangeExactly(r: Rnd, n: nat)
    requires AllBytes(r)
    ensures RndOk(MsxRun(r, n))
    ensures MsxRun(r, n).d == 256 <==> OverflowedAgo(r, n, 1)
    ensures MsxRun(r, n).b == 256 <==> OverflowedAgo(r, n, 2)
    ensures AllBytes(MsxRun(r, n)) <==> !OverflowedAgo(r, n, 1) && !OverflowedAgo(r, n, 2)
  {
    if n > 0 {
      MsxByteRangeExactly(r, n - 1);
      RndStaysOk(MsxRun(r, n - 1));
      MsxOverflowsExactly(MsxRun(r, n - 1));
    }
  }

  // It really occurs: a byte-valued seed one step away from d == 256.
  lemma MsxLeavesByteRange()
    ensures GenMsx(Rnd(255, 255, 1, 0)).0 == Rnd(1, 0, 0, 256)
  {
  }
}
