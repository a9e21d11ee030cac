// expand_description and describe_planet as they run: a character-by-character scan of
// C strings, a 32-character scratch buffer, and output through a pointer into a
// 300-character buffer. Every write is in bounds and the text is the one Expand gives.
module PlanetDescriber {
  import Bits
  import opened PlanetSeed
  import opened PlanetDescription
  import Decimal

  // The source text of a production.
  function RenderPiece(p: Piece): string {
    match p
    case Text(s) => s
    case Symbol(n) => "<" + Decimal.ToString(n) + ">"
    case HomeName => "%H"
    case NativeName => "%I"
    case RandomName => "%R"
  }

  function Render(ps: Pieces): string {
    match ps
    case End => ""
    case Then(p, rest) => RenderPiece(p) + Render(rest)
  }

  // The first character tells what follows.
  lemma HeadCharacter(ps: Pieces, k: nat)
    requires Below(ps, k) && AllPlain(ps)
    ensures ps.End? <==> Render(ps) == ""
    ensures ps.Then? ==> |Render(ps)| > 0
    ensures ps.Then? ==> (Render(ps)[0] == '<' <==> ps.head.Symbol?)
    ensures ps.Then? ==> (Render(ps)[0] == '%' <==> ps.head.HomeName? || ps.head.NativeName? || ps.head.RandomName?)
    ensures ps.Then? && Render(ps)[0] == '%' ==>
              |Render(ps)| > 1 && Render(ps)[2..] == Render(ps.tail)
              && Render(ps)[1] == (if ps.head.HomeName? then 'H' else if ps.head.NativeName? then 'I' else 'R')
  {
    match ps
    case End =>
    case Then(Text(s), rest) =>
      assert Render(ps)[0] == s[0];
    case Then(Symbol(n), rest) =>
      assert Render(ps)[0] == '<';
    case Then(HomeName, rest) =>
      assert Render(ps)[2..] == Render(rest);
    case Then(NativeName, rest) =>
      assert Render(ps)[2..] == Render(rest);
    case Then(RandomName, rest) =>
      assert Render(ps)[2..] == Render(rest);
  }

  lemma SymbolDigits(n: nat)
    requires n < 36
    ensures 1 <= |Decimal.ToString(n)| <= 2
  {
  }

  // Copying one character of a text piece.
  ghost function DropChar(ps: Pieces): Pieces
    requires ps.Then? && ps.head.Text? && |ps.head.s| > 0
  {
    if |ps.head.s| == 1 then ps.tail else Then(Text(ps.head.s[1..]), ps.tail)
  }

  lemma CopyOneText(ps: Pieces, k: nat)
    requires Below(ps, k) && AllPlain(ps) && ps.Then? && ps.head.Text?
    ensures var rest := DropChar(ps);
            && Below(rest, k) && AllPlain(rest)
            && Render(ps)[0] == ps.head.s[0] && Render(ps)[1..] == Render(rest)
            && MaxLength(rest) + 1 == MaxLength(ps)
  {
    var s := ps.head.s;
    if |s| == 1 {
      assert Render(ps)[1..] == Render(ps.tail);
    } else {
      assert Render(ps)[1..] == s[1..] + Render(ps.tail);
      assert forall i :: 0 <= i < |s[1..]| ==> s[1..][i] == s[i + 1];
    }
  }

  lemma CopyOneExpand(cfg: Config, ps: Pieces, k: nat, o: Out)
    requires Usable(cfg) && Below(ps, k) && RndOk(o.rnd) && ps.Then? && ps.head.Text?
    requires Below(DropChar(ps), k)
    ensures Expand(cfg, ps, k, o) == Expand(cfg, DropChar(ps), k, o.(text := o.text + [ps.head.s[0]]))
  {
    var s := ps.head.s;
    var o1 := o.(text := o.text + [s[0]]);
    if |s| == 1 {
      assert o.text + s == o1.text;
    } else {
      assert o.text + s == o1.text + s[1..];
      var rest := Then(Text(s[1..]), ps.tail);
      assert Expand(cfg, rest, k, o1) == Expand(cfg, ps.tail, k, o1.(text := o1.text + s[1..]));
    }
  }

  lemma Bracketed(digits: string, slice: string)
    requires slice == "<" + digits + ">" && forall c :: c in digits ==> Decimal.IsDigit(c)
    ensures slice[|digits| + 1] == '>'
    ensures forall i :: 0 <= i < |digits| ==> slice[i + 1] == digits[i] && digits[i] != '>'
  {
    forall i | 0 <= i < |digits|
      ensures slice[i + 1] == digits[i] && digits[i] != '>'
    {
      assert digits[i] in digits;
    }
  }

  lemma NoNulInName(digrams: DigramTable, planet: GalaxySeed)
    ensures |Name(digrams, planet)| <= 8
    ensures forall i :: 0 <= i < |Name(digrams, planet)| ==>
              Name(digrams, planet)[i] != '\0' && Capitalised(Name(digrams, planet))[i] != '\0'
  {
    NoNulInSyllables(digrams, planet, NameSize(planet));
    var name := Name(digrams, planet);
    forall i | 0 <= i < |name|
      ensures name[i] != '\0' && Capitalised(name)[i] != '\0'
    {
      assert name[i] in name;
    }
  }

  // The whole description, from the opening symbol on.
  ghost function Described(cfg: Config, r: Rnd): string
    requires Usable(cfg) && RndOk(r)
  {
    OpeningFits();
    Expand(cfg, Opening(), 9, Out("", r)).text
  }

  class Describer {
    const hoopyCasinos: bool
    const hyperspacePlanet: GalaxySeed
    const digrams: DigramTable
    const grammar: seq<Productions>
    const buffer: array<char>
    var rndSeed: Rnd
    var descPtr: nat
    ghost var text: string    // what has been written so far

    constructor (hoopyCasinos: bool, hyperspacePlanet: GalaxySeed, digrams: DigramTable, grammar: seq<Productions>)
      ensures Valid() && fresh(buffer)
      ensures this.hoopyCasinos == hoopyCasinos && this.hyperspacePlanet == hyperspacePlanet
      ensures this.digrams == digrams && this.grammar == grammar
    {
      this.hoopyCasinos := hoopyCasinos;
      this.hyperspacePlanet := hyperspacePlanet;
      this.digrams := digrams;
      this.grammar := grammar;
      buffer := new char[300];
      rndSeed := Rnd(0, 0, 0, 0);
      descPtr := 0;
      text := "";
    }

    ghost predicate Valid()
      reads this, buffer
    {
      && buffer.Length == 300 && RndOk(rndSeed)
      && descPtr == |text| < 300
      && forall i :: 0 <= i < descPtr ==> buffer[i] == text[i]
    }

    ghost function Cfg(): (cfg: Config)
    {
      Config(hoopyCasinos, Capitalised(Name(digrams, hyperspacePlanet)), digrams, grammar)
    }

    ghost function Current(): Out
      reads this
    {
      Out(text, rndSeed)
    }

    method GenRndNumber() returns (v: int)
      requires RndOk(rndSeed)
      modifies this`rndSeed
      ensures (rndSeed, v) == GenRnd(old(rndSeed))
    {
      var x := (rndSeed.a * 2) % 256;
      var a := x + rndSeed.c;
      if rndSeed.a > 127 {
        a := a + 1;
      }
      rndSeed := rndSeed.(a := a % 256, c := x);
      a := a / 256;
      x := rndSeed.b;
      a := (a + x + rndSeed.d) % 256;
      rndSeed := rndSeed.(b := a, d := x);
      v := a;
    }

    method GenMsxRndNumber() returns (v: int)
      requires RndOk(rndSeed)
      modifies this`rndSeed
      ensures (rndSeed, v) == GenMsx(old(rndSeed))
    {
      var a := rndSeed.a;
      var b := rndSeed.b;
      rndSeed := rndSeed.(a := rndSeed.c, b := rndSeed.d);
      a := a + rndSeed.c;
      b := (b + rndSeed.d) % 256;
      if a > 255 {
        a := a % 256;
        b := b + 1;
      }
      rndSeed := rndSeed.(c := a, d := b);
      v := rndSeed.c / 0x34;
    }

    method ChooseOption() returns (option: int)
      requires RndOk(rndSeed)
      modifies this`rndSeed
      ensures (rndSeed, option) == Choose(hoopyCasinos, old(rndSeed))
      ensures 0 <= option < 5 && RndOk(rndSeed)
    {
      ghost var chosen := Choose(hoopyCasinos, rndSeed);
      if hoopyCasinos {
        option := GenMsxRndNumber();
      } else {
        var rnd := GenRndNumber();
        option := 0;
        if rnd >= 0x33 { option := option + 1; }
        if rnd >= 0x66 { option := option + 1; }
        if rnd >= 0x99 { option := option + 1; }
        if rnd >= 0xCC { option := option + 1; }
      }
    }

    // *desc_ptr++ = c
    method Put(c: char)
      requires Valid() && descPtr < 299
      modifies buffer, this`descPtr, this`text
      ensures Valid() && text == old(text) + [c]
    {
      buffer[descPtr] := c;
      descPtr := descPtr + 1;
      text := text + [c];
    }

    // name_planet, capitalise_name and the copy loop shared by "%H" and "%I".
    method PutName()
      requires Valid() && descPtr + 8 < 300
      modifies buffer, this`descPtr, this`text
      ensures Valid() && text == old(text) + Cfg().name
    {
      var str := new char[32];
      ghost var len := ReadName(str);
      ghost var name := Cfg().name;
      var ptr := 0;
      while str[ptr] != '\0'
        invariant 0 <= ptr <= len && Valid()
        invariant forall i :: 0 <= i < len ==> str[i] == name[i] && str[i] != '\0'
        invariant str[len] == '\0'
        invariant text == old(text) + name[..ptr]
        modifies buffer, this`descPtr, this`text
        decreases len - ptr
      {
        Put(str[ptr]);
        ptr := ptr + 1;
      }
      assert name[..ptr] == name;
    }

    method ReadName(str: array<char>) returns (ghost len: nat)
      requires str.Length == 32
      modifies str
      ensures len == |Cfg().name| && len <= 8 && str[len] == '\0'
      ensures forall i :: 0 <= i < len ==> str[i] == Cfg().name[i] && str[i] != '\0'
    {
      ghost var name := Name(digrams, hyperspacePlanet);
      len := NamePlanet(digrams, str, hyperspacePlanet);
      NoNulInName(digrams, hyperspacePlanet);
      forall i | 0 <= i < len
        ensures str[i] != '\0'
      {
        assert str[..len][i] == name[i];
      }
      assert str[..len] == name;
      CapitaliseName(str, len);
    }

    // "%I": step back over the last character and write "ian" with its terminator.
    method PutNative()
      requires Valid() && descPtr + 10 < 300 && descPtr > 0
      modifies buffer, this`descPtr, this`text
      ensures Valid() && text == Native(old(text) + Cfg().name)
    {
      PutName();
      ghost var was := text;
      descPtr := descPtr - 1;
      text := was[..|was| - 1];
      Put('i');
      Put('a');
      Put('n');
      buffer[descPtr] := '\0';
      assert text == Native(was);
    }

    // "%R": one to four letter pairs.
    method PutRandomName()
      requires Valid() && descPtr + 8 < 300
      modifies buffer, this`descPtr, this`text, this`rndSeed
      ensures Valid()
      ensures var (word, rnd) := RandomWord(digrams, old(rndSeed));
              Current() == Out(old(text) + word, rnd)
    {
      ghost var (word, end) := RandomWord(digrams, rndSeed);
      RndStaysOk(rndSeed);
      var len := GenRndNumber();
      len := len % 4;
      var i := 0;
      while i <= len
        invariant 0 <= i <= len + 1 <= 4 && Valid()
        invariant |word| == 2 * (len + 1) && |text| == |old(text)| + 2 * i
        invariant old(text) + word == text + Letters(digrams, rndSeed, len + 1 - i, i == 0).0
        invariant end == Letters(digrams, rndSeed, len + 1 - i, i == 0).1
        modifies buffer, this`descPtr, this`text, this`rndSeed
      {
        PutPair(i == 0, len + 1 - i);
        i := i + 1;
      }
    }

    method PutPair(first: bool, ghost left: nat)
      requires Valid() && descPtr + 2 < 300 && left > 0
      modifies buffer, this`descPtr, this`text, this`rndSeed
      ensures Valid() && |text| == |old(text)| + 2
      ensures old(text) + Letters(digrams, old(rndSeed), left, first).0 == text + Letters(digrams, rndSeed, left - 1, false).0
      ensures Letters(digrams, old(rndSeed), left, first).1 == Letters(digrams, rndSeed, left - 1, false).1
    {
      RndStaysOk(rndSeed);
      ghost var start := text;
      var x := GenRndNumber();
      x := (x % 64) / 2 * 2;
      ghost var rest := Letters(digrams, rndSeed, left - 1, false).0;
      if first {
        Put(digrams[x]);
      } else {
        Put(Lower(digrams[x]));
      }
      Put(Lower(digrams[x + 1]));
      Rejoin(start, Pair(digrams, x, first)[0], Pair(digrams, x, first)[1], rest);
    }

    // The digits between '<' and '>', copied to a scratch string and read by atoi.
    method ReadSymbol(source: string, start: nat, ghost n: nat) returns (num: nat, next: nat)
      requires n < 36 && start < |source| && source[start] == '<'
      requires start + |Decimal.ToString(n)| + 2 <= |source|
      requires source[start..start + |Decimal.ToString(n)| + 2] == "<" + Decimal.ToString(n) + ">"
      ensures num == n && next == start + |Decimal.ToString(n)| + 2
    {
      ghost var digits := Decimal.ToString(n);
      SymbolDigits(n);
      ghost var slice := source[start..start + |digits| + 2];
      Bracketed(digits, slice);
      forall at | start < at < start + |digits| + 2
        ensures source[at] == slice[at - start]
      {
      }
      var str := new char[32];
      var at := start + 1;
      var ptr := 0;
      while source[at] != '>'
        invariant 0 <= ptr <= |digits| && at == start + 1 + ptr
        invariant forall i :: 0 <= i < ptr ==> str[i] == digits[i]
        decreases |digits| - ptr
      {
        str[ptr] := source[at];
        ptr := ptr + 1;
        at := at + 1;
      }
      assert ptr == |digits|;
      str[ptr] := '\0';
      assert forall i :: 0 <= i < ptr ==> str[..ptr][i] == digits[i];
      assert str[..ptr] == digits;
      Decimal.AtoiOfToString(n);
      num := Decimal.Atoi(str[..ptr]);
      next := at + 1;
    }

    method ExpandDescription(source: string, ghost ps: Pieces, ghost k: nat)
      requires Valid() && WellFormed(grammar) && source == Render(ps)
      requires Below(ps, k) && AllPlain(ps)
      requires text != "" || Leads(ps)
      requires |text| + MaxLength(ps) < 300
      modifies buffer, this`descPtr, this`text, this`rndSeed
      ensures Valid() && Current() == Expand(Cfg(), ps, k, old(Current()))
      ensures buffer[descPtr] == '\0'
      decreases k, 2
    {
      ghost var whole := Expand(Cfg(), ps, k, Current());
      ghost var rest := ps;
      var i := 0;
      while i < |source|
        invariant Scanning(source, i, rest, k, whole)
        modifies buffer, this`descPtr, this`text, this`rndSeed
        decreases |source| - i
      {
        i, rest := ScanOn(source, i, rest, k, whole);
      }
      HeadCharacter(rest, k);
      buffer[descPtr] := '\0';
    }

    // Midway through the scan: `rest` is still to come, and will complete the expansion.
    ghost predicate Scanning(source: string, i: nat, rest: Pieces, k: nat, whole: Out)
      reads this, buffer
    {
      && Valid() && WellFormed(grammar)
      && i <= |source| && source[i..] == Render(rest)
      && Below(rest, k) && AllPlain(rest)
      && (text != "" || Leads(rest))
      && |text| + MaxLength(rest) < 300
      && Expand(Cfg(), rest, k, Current()) == whole
    }

    // One turn of the scan.
    method ScanOn(source: string, i: nat, ghost rest: Pieces, ghost k: nat, ghost whole: Out)
      returns (next: nat, ghost rest': Pieces)
      requires Scanning(source, i, rest, k, whole) && i < |source|
      modifies buffer, this`descPtr, this`text, this`rndSeed
      ensures Scanning(source, next, rest', k, whole) && i < next
      decreases k, 1
    {
      HeadCharacter(rest, k);
      if source[i] == '<' {
        next := ExpandSymbol(source, i, rest, k);
        rest' := rest.tail;
      } else if source[i] == '%' {
        next := ExpandMarkup(source, i, rest, k);
        rest' := rest.tail;
      } else {
        CopyCharacter(source, i, rest, k);
        next := i + 1;
        rest' := DropChar(rest);
      }
    }

    // An ordinary character.
    method CopyCharacter(source: string, i: nat, ghost ps: Pieces, ghost k: nat)
      requires Valid() && WellFormed(grammar) && Below(ps, k) && AllPlain(ps)
      requires i < |source| && source[i..] == Render(ps) && ps.Then? && ps.head.Text?
      requires |text| + MaxLength(ps) < 300
      modifies buffer, this`descPtr, this`text
      ensures Valid() && text != ""
      ensures Below(DropChar(ps), k) && AllPlain(DropChar(ps)) && source[i + 1..] == Render(DropChar(ps))
      ensures |text| + MaxLength(DropChar(ps)) < 300
      ensures Expand(Cfg(), DropChar(ps), k, Current()) == Expand(Cfg(), ps, k, old(Current()))
    {
      CopyOneText(ps, k);
      CopyOneExpand(Cfg(), ps, k, Current());
      assert source[i + 1..] == source[i..][1..];
      Put(source[i]);
    }

    // The '<' branch of the scan.
    method ExpandSymbol(source: string, i: nat, ghost ps: Pieces, ghost k: nat) returns (next: nat)
      requires Valid() && WellFormed(grammar) && Below(ps, k) && AllPlain(ps)
      requires i < |source| && source[i..] == Render(ps) && ps.Then? && ps.head.Symbol?
      requires text != "" || Leads(ps)
      requires |text| + MaxLength(ps) < 300
      modifies buffer, this`descPtr, this`text, this`rndSeed
      ensures Valid() && i < next <= |source| && source[next..] == Render(ps.tail)
      ensures text != "" || Leads(ps.tail)
      ensures |text| + MaxLength(ps.tail) < 300
      ensures Expand(Cfg(), ps.tail, k, Current()) == Expand(Cfg(), ps, k, old(Current()))
      decreases k, 0
    {
      ghost var cfg := Cfg();
      ghost var before := Current();
      ghost var digits := Decimal.ToString(ps.head.n);
      SplitRender(source, i, "<" + digits + ">", Render(ps.tail));
      var num, at := ReadSymbol(source, i, ps.head.n);
      var option := ChooseOption();
      PickFits(grammar, num, option);
      ghost var inner := grammar[num].Pick(option);
      ExpandDescription(Render(grammar[num].Pick(option)), inner, Rank(num));
      next := at;
    }

    // The '%' branch of the scan.
    method ExpandMarkup(source: string, i: nat, ghost ps: Pieces, ghost k: nat) returns (next: nat)
      requires Valid() && WellFormed(grammar) && Below(ps, k) && AllPlain(ps)
      requires i < |source| && source[i..] == Render(ps) && source[i] == '%'
      requires text != "" || Leads(ps)
      requires |text| + MaxLength(ps) < 300
      modifies buffer, this`descPtr, this`text, this`rndSeed
      ensures ps.Then?
      ensures Valid() && i < next <= |source| && source[next..] == Render(ps.tail)
      ensures text != "" || Leads(ps.tail)
      ensures |text| + MaxLength(ps.tail) < 300
      ensures Expand(Cfg(), ps.tail, k, Current()) == Expand(Cfg(), ps, k, old(Current()))
    {
      HeadCharacter(ps, k);
      assert source[i..][1] == source[i + 1];
      assert source[i + 2..] == source[i..][2..];
      next := i + 1;
      if source[next] == 'H' {
        PutName();
      } else if source[next] == 'I' {
        PutNative();
      } else if source[next] == 'R' {
        PutRandomName();
      }
      next := next + 1;
    }

    method SeedFrom(planet: GalaxySeed)
      modifies this`rndSeed
      ensures rndSeed == SeedFor(planet, hoopyCasinos)
    {
      rndSeed := Rnd(planet.c, planet.d, planet.e, planet.f);
      if hoopyCasinos {
        rndSeed := rndSeed.(a := XorByte(planet.c, planet.a));
        rndSeed := rndSeed.(b := XorByte(planet.d, planet.b));
        rndSeed := rndSeed.(c := XorByte(planet.e, rndSeed.a));
        rndSeed := rndSeed.(d := XorByte(planet.f, rndSeed.b));
      }
    }

    // describe_planet: for every planet and in both modes, the text and its terminator
    // fit the 300 characters with room to spare.
    method DescribePlanet(planet: GalaxySeed)
      requires Valid() && WellFormed(grammar)
      modifies buffer, this`descPtr, this`text, this`rndSeed
      ensures Valid()
      ensures text == Described(Cfg(), SeedFor(planet, hoopyCasinos))
      ensures |text| <= 225 && buffer[..|text|] == text && buffer[|text|] == '\0'
    {
      SeedFrom(planet);
      descPtr := 0;
      text := "";
      OpeningFits();
      ghost var start := Current();
      ghost var end := Expand(Cfg(), Opening(), 9, start);
      ExpandDescription("<14> is <22>.", Opening(), 9);
      assert text == end.text;
    }
  }

  // ^ on bytes
  function XorByte(x: Byte, y: Byte): Byte {
    assert Bits.Pow2(4) == 16 && Bits.Pow2(8) == 256;
    Bits.XorBelow(x, y, 8);
    Bits.Xor(x, y)
  }

  function SeedFor(p: GalaxySeed, hoopyCasinos: bool): (r: Rnd)
    ensures RndOk(r)
  {
    if hoopyCasinos then
      var a: Byte := XorByte(p.c, p.a);
      var b: Byte := XorByte(p.d, p.b);
      Rnd(a, b, XorByte(p.e, a), XorByte(p.f, b))
    else
      Rnd(p.c, p.d, p.e, p.f)
  }

  function Opening(): Pieces {
    Then(Symbol(14), Then(Text(" is "), Then(Symbol(22), Then(Text("."), End))))
  }

  lemma OpeningFits()
    ensures Below(Opening(), 9) && AllPlain(Opening()) && Leads(Opening())
    ensures MaxLength(Opening()) == 225
    ensures Render(Opening()) == "<14> is <22>."
  {
    assert Decimal.ToString(1) == "1" && Decimal.ToString(2) == "2";
    assert Decimal.ToString(14) == "14" && Decimal.ToString(22) == "22";
    assert Render(End) == "" && Render(Then(Text("."), End)) == ".";
    assert Render(Then(Symbol(22), Then(Text("."), End))) == "<22>.";
    assert Render(Then(Text(" is "), Then(Symbol(22), Then(Text("."), End)))) == " is <22>.";
  }

  lemma Rejoin(s: string, a: char, b: char, rest: string)
    ensures s + ([a, b] + rest) == ((s + [a]) + [b]) + rest
  {
  }

  lemma SplitRender(s: string, at: nat, x: string, y: string)
    requires at <= |s| && s[at..] == x + y
    ensures at + |x| <= |s| && s[at..at + |x|] == x && s[at + |x|..] == y
  {
    assert s[at + |x|..] == s[at..][|x|..];
    assert s[at..at + |x|] == s[at..][..|x|];
  }
}
