// The expander as a sentence generator: what it writes is always a sentence of the
// grammar, whichever random numbers are drawn.
module PlanetLanguage {
  import opened PlanetSeed
  import opened PlanetDescription

  function Body(g: seq<Productions>, n: nat, option: nat): (ps: Pieces)
    requires WellFormed(g) && n < 36 && option < 5
    ensures Below(ps, Rank(n)) && MaxLength(ps) <= Longest(n)
  {
    PickFits(g, n, option);
    g[n].Pick(option)
  }

  ghost predicate IsPair(digrams: DigramTable, w: string, first: bool) {
    exists x: nat :: x <= 62 && x % 2 == 0 && w == Pair(digrams, x, first)
  }

  ghost predicate IsLetters(digrams: DigramTable, w: string, n: nat, first: bool)
    decreases n
  {
    |w| == 2 * n && (n == 0 || (IsPair(digrams, w[..2], first) && IsLetters(digrams, w[2..], n - 1, false)))
  }

  // w can be read off ps: an independent definition that mentions no random numbers.
  ghost predicate Derives(cfg: Config, ps: Pieces, k: nat, w: string)
    requires WellFormed(cfg.grammar) && Below(ps, k) && cfg.name != ""
    decreases k, ps
  {
    match ps
    case End => w == ""
    case Then(Text(s), rest) => s <= w && Derives(cfg, rest, k, w[|s|..])
    case Then(Symbol(n), rest) =>
      exists option: nat, cut: nat ::
        && option < 5 && cut <= |w|
        && Derives(cfg, Body(cfg.grammar, n, option), Rank(n), w[..cut])
        && Derives(cfg, rest, k, w[cut..])
    case Then(HomeName, rest) => cfg.name <= w && Derives(cfg, rest, k, w[|cfg.name|..])
    case Then(NativeName, rest) =>
      Native(cfg.name) <= w && Derives(cfg, rest, k, w[|Native(cfg.name)|..])
    case Then(RandomName, rest) =>
      exists pairs: nat ::
        && 1 <= pairs <= 4 && 2 * pairs <= |w|
        && IsLetters(cfg.digrams, w[..2 * pairs], pairs, true)
        && Derives(cfg, rest, k, w[2 * pairs..])
  }

  lemma {:induction false} LettersAreLetters(digrams: DigramTable, r: Rnd, n: nat, first: bool)
    requires RndOk(r)
    ensures IsLetters(digrams, Letters(digrams, r, n, first).0, n, first)
    decreases n
  {
    if n > 0 {
      RndStaysOk(r);
      var (r1, v) := GenRnd(r);
      LettersAreLetters(digrams, r1, n - 1, false);
      var w := Letters(digrams, r, n, first).0;
      var x := EvenIndex(v);
      assert w[..2] == Pair(digrams, x, first);
      assert w[2..] == Letters(digrams, r1, n - 1, false).0;
    }
  }

  // What a fixed piece contributes, when it does not depend on random numbers.
  function Fixed(cfg: Config, p: Piece): string
    requires cfg.name != "" && !p.Symbol? && !p.RandomName?
  {
    match p
    case Text(s) => s
    case HomeName => cfg.name
    case NativeName => Native(cfg.name)
  }

  lemma DeriveFixed(cfg: Config, p: Piece, rest: Pieces, k: nat, tail: string)
    requires WellFormed(cfg.grammar) && cfg.name != "" && Below(Then(p, rest), k)
    requires !p.Symbol? && !p.RandomName?
    requires Derives(cfg, rest, k, tail)
    ensures Derives(cfg, Then(p, rest), k, Fixed(cfg, p) + tail)
  {
    var w := Fixed(cfg, p) + tail;
    assert w[|Fixed(cfg, p)|..] == tail;
  }

  lemma DeriveSymbol(cfg: Config, n: nat, option: nat, rest: Pieces, k: nat, head: string, tail: string)
    requires WellFormed(cfg.grammar) && cfg.name != "" && Below(Then(Symbol(n), rest), k) && option < 5
    requires Derives(cfg, Body(cfg.grammar, n, option), Rank(n), head)
    requires Derives(cfg, rest, k, tail)
    ensures Derives(cfg, Then(Symbol(n), rest), k, head + tail)
  {
    var w := head + tail;
    assert w[..|head|] == head && w[|head|..] == tail;
  }

  lemma DeriveRandom(cfg: Config, rest: Pieces, k: nat, pairs: nat, word: string, tail: string)
    requires WellFormed(cfg.grammar) && cfg.name != "" && Below(rest, k)
    requires 1 <= pairs <= 4 && IsLetters(cfg.digrams, word, pairs, true)
    requires Derives(cfg, rest, k, tail)
    ensures Derives(cfg, Then(RandomName, rest), k, word + tail)
  {
    var w := word + tail;
    assert w[..2 * pairs] == word && w[2 * pairs..] == tail;
  }

  // Expansion without looking back: with a nonempty name, the text written by ps does
  // not depend on what was written before.
  function Written(cfg: Config, ps: Pieces, k: nat, r: Rnd): (c: (string, Rnd))
    requires WellFormed(cfg.grammar) && cfg.name != "" && Below(ps, k) && RndOk(r)
    ensures RndOk(c.1)
    decreases k, ps
  {
    match ps
    case End => ("", r)
    case Then(Symbol(n), rest) =>
      var (r1, option) := Choose(cfg.hoopyCasinos, r);
      var (head, r2) := Written(cfg, Body(cfg.grammar, n, option), Rank(n), r1);
      var (tail, r3) := Written(cfg, rest, k, r2);
      (head + tail, r3)
    case Then(RandomName, rest) =>
      var (word, r1) := RandomWord(cfg.digrams, r);
      var (tail, r2) := Written(cfg, rest, k, r1);
      (word + tail, r2)
    case Then(p, rest) =>
      var (tail, r1) := Written(cfg, rest, k, r);
      (Fixed(cfg, p) + tail, r1)
  }

  lemma Associative(a: string, b: string, c: string)
    ensures (a + b) + c == a + (b + c)
  {
  }

  lemma NativeAppends(text: string, name: string)
    requires name != ""
    ensures Native(text + name) == text + Native(name)
  {
  }

  lemma {:induction false} ExpandAppends(cfg: Config, ps: Pieces, k: nat, o: Out)
    requires Usable(cfg) && Below(ps, k) && RndOk(o.rnd) && cfg.name != ""
    requires o.text != "" || Leads(ps)
    ensures var (w, r) := Written(cfg, ps, k, o.rnd); Expand(cfg, ps, k, o) == Out(o.text + w, r)
    decreases k, ps
  {
    match ps
    case End =>
    case Then(Symbol(n), rest) =>
      var (r1, option) := Choose(cfg.hoopyCasinos, o.rnd);
      PickFits(cfg.grammar, n, option);
      var body := Body(cfg.grammar, n, option);
      ExpandAppends(cfg, body, Rank(n), o.(rnd := r1));
      var (head, r2) := Written(cfg, body, Rank(n), r1);
      ExpandAppends(cfg, rest, k, Out(o.text + head, r2));
      Associative(o.text, head, Written(cfg, rest, k, r2).0);
    case Then(RandomName, rest) =>
      var (word, r1) := RandomWord(cfg.digrams, o.rnd);
      ExpandAppends(cfg, rest, k, Out(o.text + word, r1));
      Associative(o.text, word, Written(cfg, rest, k, r1).0);
    case Then(p, rest) =>
      NativeAppends(o.text, cfg.name);
      ExpandAppends(cfg, rest, k, o.(text := o.text + Fixed(cfg, p)));
      Associative(o.text, Fixed(cfg, p), Written(cfg, rest, k, o.rnd).0);
  }

  lemma {:induction false} WrittenIsDerived(cfg: Config, ps: Pieces, k: nat, r: Rnd)
    requires WellFormed(cfg.grammar) && cfg.name != "" && Below(ps, k) && RndOk(r)
    ensures Derives(cfg, ps, k, Written(cfg, ps, k, r).0)
    decreases k, ps
  {
    match ps
    case End =>
    case Then(Symbol(n), rest) =>
      var (r1, option) := Choose(cfg.hoopyCasinos, r);
      var body := Body(cfg.grammar, n, option);
      WrittenIsDerived(cfg, body, Rank(n), r1);
      var (head, r2) := Written(cfg, body, Rank(n), r1);
      WrittenIsDerived(cfg, rest, k, r2);
      DeriveSymbol(cfg, n, option, rest, k, head, Written(cfg, rest, k, r2).0);
    case Then(RandomName, rest) =>
      var (word, r1) := RandomWord(cfg.digrams, r);
      var pairs := RandomWordIsLetters(cfg.digrams, r);
      WrittenIsDerived(cfg, rest, k, r1);
      DeriveRandom(cfg, rest, k, pairs, word, Written(cfg, rest, k, r1).0);
    case Then(p, rest) =>
      WrittenIsDerived(cfg, rest, k, r);
      DeriveFixed(cfg, p, rest, k, Written(cfg, rest, k, r).0);
  }

  lemma RandomWordIsLetters(digrams: DigramTable, r: Rnd) returns (pairs: nat)
    requires RndOk(r)
    ensures 1 <= pairs <= 4 && IsLetters(digrams, RandomWord(digrams, r).0, pairs, true)
  {
    RndStaysOk(r);
    var (r1, v) := GenRnd(r);
    pairs := v % 4 + 1;
    LettersAreLetters(digrams, r1, pairs, true);
  }

  // Every description of a named planet is a sentence of the grammar, in both modes,
  // and no more than 225 characters long.
  lemma DescriptionIsASentence(cfg: Config, opening: Pieces, r: Rnd)
    requires Usable(cfg) && cfg.name != "" && RndOk(r)
    requires Below(opening, 9) && Leads(opening)
    ensures Derives(cfg, opening, 9, Expand(cfg, opening, 9, Out("", r)).text)
    ensures |Expand(cfg, opening, 9, Out("", r)).text| <= MaxLength(opening)
  {
    ExpandAppends(cfg, opening, 9, Out("", r));
    WrittenIsDerived(cfg, opening, 9, r);
    var w := Written(cfg, opening, 9, r).0;
    assert "" + w == w;
  }

  // The one escape from the grammar: "%I" keeps the text before it exactly when the name is
  // nonempty or that text ends in the letter it would put there; otherwise an empty name
  // makes it swallow the preceding character.
  lemma NativeKeepsText(cfg: Config, k: nat, o: Out)
    requires Usable(cfg) && RndOk(o.rnd) && o.text != ""
    ensures o.text <= Expand(cfg, Then(NativeName, End), k, o).text <==> cfg.name != "" || o.text[|o.text| - 1] == 'i'
    ensures cfg.name == "" ==> Expand(cfg, Then(NativeName, End), k, o).text == o.text[..|o.text| - 1] + "ian"
  {
    var o1 := o.(text := Native(o.text + cfg.name));
    assert Expand(cfg, End, k, o1) == o1;
    if cfg.name != "" {
      assert o1.text == o.text + Native(cfg.name);
    } else {
      assert o.text + cfg.name == o.text;
      assert o1.text[|o.text| - 1] == 'i';
    }
  }
}
