// The recursive description expander of planet.cpp, for any grammar that is ranked
// and short enough (PlanetGrammar shows that desc_list is).
module PlanetDescription {
  import opened PlanetSeed

  // One element of a grammar string: "<n>" expands symbol n, "%H" is the home planet's
  // name, "%I" its adjective, "%R" a random name; the rest is copied.
  datatype Piece = Text(s: string) | Symbol(n: nat) | HomeName | NativeName | RandomName

  datatype Pieces = End | Then(head: Piece, tail: Pieces)

  // One row of desc_list.
  datatype Productions = Productions(p0: Pieces, p1: Pieces, p2: Pieces, p3: Pieces, p4: Pieces) {
    function Pick(option: nat): Pieces
      requires option < 5
    {
      match option
      case 0 => p0
      case 1 => p1
      case 2 => p2
      case 3 => p3
      case _ => p4
    }
  }

  // ---------------------------------------------------------------------------
  // Ranks and lengths
  // ---------------------------------------------------------------------------

  // Every symbol only mentions symbols of smaller rank, so expansion terminates.
  function Rank(n: nat): nat {
    if n == 22 then 8
    else if n == 9 then 7
    else if n == 4 then 6
    else if n == 5 then 5
    else if n == 13 then 4
    else if n == 32 then 3
    else if n == 3 || n == 8 || n == 11 then 2
    else if n == 2 || n == 23 || n == 24 || n == 25 || n == 29 then 1
    else 0
  }

  // The longest text a symbol can produce, when a name has at most eight letters.
  function Longest(n: nat): nat {
    if n == 22 then 201
    else if n == 9 then 85
    else if n == 4 then 56
    else if n == 3 || n == 5 || n == 13 then 44
    else if n == 32 then 42
    else if n == 8 then 33
    else if n == 11 then 26
    else if n == 14 || n == 29 then 19
    else if n == 34 then 16
    else if n == 10 || n == 24 || n == 27 then 15
    else if n == 15 then 14
    else if n == 16 || n == 18 || n == 21 then 13
    else if n == 6 || n == 19 || n == 28 then 12
    else if n == 25 then 11
    else if n == 0 || n == 1 then 10
    else if n == 2 || n == 7 || n == 12 || n == 17 || n == 20 || n == 23 then 8
    else if n == 26 || n == 31 || n == 33 || n == 35 then 7
    else 5
  }

  function PieceLength(p: Piece): nat {
    match p
    case Text(s) => |s|
    case Symbol(n) => Longest(n)
    case HomeName => 8
    case NativeName => 10
    case RandomName => 8
  }

  function MaxLength(ps: Pieces): nat {
    match ps
    case End => 0
    case Then(p, rest) => PieceLength(p) + MaxLength(rest)
  }

  predicate Plain(c: char) {
    c != '<' && c != '%' && c != '\0'
  }

  // Copied text holds no markup and no terminator.
  predicate AllPlain(ps: Pieces) {
    match ps
    case End => true
    case Then(Text(s), rest) => (forall i :: 0 <= i < |s| ==> Plain(s[i])) && AllPlain(rest)
    case Then(_, rest) => AllPlain(rest)
  }

  // Every symbol mentioned has rank below k, and no copied text is empty.
  predicate Below(ps: Pieces, k: nat) {
    match ps
    case End => true
    case Then(Text(s), rest) => |s| > 0 && Below(rest, k)
    case Then(Symbol(n), rest) => n < 36 && Rank(n) < k && Below(rest, k)
    case Then(_, rest) => Below(rest, k)
  }

  // Nothing that looks back at the preceding character ("%I" does) comes before the
  // first character that is certainly written.
  predicate Leads(ps: Pieces) {
    match ps
    case End => true
    case Then(Text(_), _) => true
    case Then(Symbol(n), rest) => n == 14 && Leads(rest)
    case Then(NativeName, _) => false
    case Then(_, rest) => Leads(rest)
  }

  predicate Fits(ps: Pieces, n: nat) {
    && Below(ps, Rank(n))
    && MaxLength(ps) <= Longest(n)
    && (n == 14 ==> Leads(ps))
  }

  predicate RowFits(row: Productions, n: nat) {
    Fits(row.p0, n) && Fits(row.p1, n) && Fits(row.p2, n) && Fits(row.p3, n) && Fits(row.p4, n)
  }

  predicate RowPlain(row: Productions) {
    AllPlain(row.p0) && AllPlain(row.p1) && AllPlain(row.p2) && AllPlain(row.p3) && AllPlain(row.p4)
  }

  predicate WellFormed(g: seq<Productions>) {
    |g| == 36 && forall n :: 0 <= n < 36 ==> RowFits(g[n], n) && RowPlain(g[n])
  }

  lemma PickFits(g: seq<Productions>, n: nat, option: nat)
    requires WellFormed(g) && n < 36 && option < 5
    ensures Fits(g[n].Pick(option), n) && AllPlain(g[n].Pick(option))
  {
    assert RowFits(g[n], n) && RowPlain(g[n]);
  }

  // ---------------------------------------------------------------------------
  // What an expansion computes
  // ---------------------------------------------------------------------------

  datatype Config = Config(hoopyCasinos: bool, name: string, digrams: DigramTable,
                           grammar: seq<Productions>)

  datatype Out = Out(text: string, rnd: Rnd)

  ghost predicate Usable(cfg: Config) {
    WellFormed(cfg.grammar) && |cfg.name| <= 8
  }

  // The production number: in MSX mode a byte divided by 52, otherwise the number of
  // thresholds the byte reaches.
  function Choose(hoopyCasinos: bool, r: Rnd): (c: (Rnd, nat))
    requires RndOk(r)
    ensures RndOk(c.0) && c.1 < 5
  {
    RndStaysOk(r);
    if hoopyCasinos then GenMsx(r)
    else
      var (next, rnd) := GenRnd(r);
      (next, Thresholds(rnd))
  }

  function Thresholds(rnd: int): nat {
    (if rnd >= 0x33 then 1 else 0) + (if rnd >= 0x66 then 1 else 0) +
    (if rnd >= 0x99 then 1 else 0) + (if rnd >= 0xCC then 1 else 0)
  }

  // rnd & 0x3e
  function EvenIndex(rnd: int): (x: nat)
    requires 0 <= rnd < 256
    ensures x <= 62 && x % 2 == 0
  {
    (rnd % 64) / 2 * 2
  }

  function Pair(digrams: DigramTable, x: nat, first: bool): (s: string)
    requires x <= 62
    ensures |s| == 2
  {
    [if first then digrams[x] else Lower(digrams[x]), Lower(digrams[x + 1])]
  }

  // n letter pairs of a random name.
  function Letters(digrams: DigramTable, r: Rnd, n: nat, first: bool): (c: (string, Rnd))
    requires RndOk(r)
    ensures RndOk(c.1) && |c.0| == 2 * n
    decreases n
  {
    if n == 0 then ("", r)
    else
      RndStaysOk(r);
      var (r1, v) := GenRnd(r);
      var (rest, r2) := Letters(digrams, r1, n - 1, false);
      (Pair(digrams, EvenIndex(v), first) + rest, r2)
  }

  // Between one and four pairs.
  function RandomWord(digrams: DigramTable, r: Rnd): (c: (string, Rnd))
    requires RndOk(r)
    ensures RndOk(c.1) && 2 <= |c.0| <= 8
  {
    RndStaysOk(r);
    var (r1, v) := GenRnd(r);
    Letters(digrams, r1, v % 4 + 1, true)
  }

  // "%I" drops the last character written so far and appends "ian".
  function Native(text: string): string
    requires text != ""
  {
    text[..|text| - 1] + "ian"
  }

  function Expand(cfg: Config, ps: Pieces, k: nat, o: Out): (r: Out)
    requires Usable(cfg) && Below(ps, k) && RndOk(o.rnd)
    requires o.text != "" || Leads(ps)
    ensures RndOk(r.rnd)
    ensures |r.text| <= |o.text| + MaxLength(ps)
    ensures o.text != "" ==> r.text != ""
    decreases k, ps
  {
    match ps
    case End => o
    case Then(Text(s), rest) => Expand(cfg, rest, k, o.(text := o.text + s))
    case Then(Symbol(n), rest) =>
      var (rnd, option) := Choose(cfg.hoopyCasinos, o.rnd);
      PickFits(cfg.grammar, n, option);
      Expand(cfg, rest, k, Expand(cfg, cfg.grammar[n].Pick(option), Rank(n), o.(rnd := rnd)))
    case Then(HomeName, rest) => Expand(cfg, rest, k, o.(text := o.text + cfg.name))
    case Then(NativeName, rest) => Expand(cfg, rest, k, o.(text := Native(o.text + cfg.name)))
    case Then(RandomName, rest) =>
      var (word, rnd) := RandomWord(cfg.digrams, o.rnd);
      Expand(cfg, rest, k, Out(o.text + word, rnd))
  }
}
