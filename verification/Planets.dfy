// The shipped grammar and digrams, put together.
module Planets {
  import opened PlanetSeed
  import opened PlanetDescription
  import opened PlanetDescriber
  import opened PlanetGrammar
  import opened PlanetLanguage

  // The shipped grammar, with the hyperspace target at `here`.
  ghost function Shipped(here: GalaxySeed, hoopyCasinos: bool): Config {
    Config(hoopyCasinos, Capitalised(Name(DIGRAMS, here)), DIGRAMS, DescList())
  }

  // Every planet of every galaxy, in both modes: a sentence of the grammar, at most 225
  // characters long, as long as the target has a name at all.
  lemma ShippedDescriptions(here: GalaxySeed, planet: GalaxySeed, hoopyCasinos: bool)
    requires !NoDigram(here, NameSize(here))
    ensures var cfg := Shipped(here, hoopyCasinos);
            && Usable(cfg) && Below(Opening(), 9)
            && Derives(cfg, Opening(), 9, Described(cfg, SeedFor(planet, hoopyCasinos)))
            && |Described(cfg, SeedFor(planet, hoopyCasinos))| <= 225
  {
    DescListWellFormed();
    OpeningFits();
    SyllablesEmpty(DIGRAMS, here, NameSize(here));
    DescriptionIsASentence(Shipped(here, hoopyCasinos), Opening(), SeedFor(planet, hoopyCasinos));
  }
}
