// desc_list of planet.cpp, transcribed row by row, with the check that every row is
// ranked and short enough. The symbol numbers are the array's row numbers.
module PlanetGrammar {
  import opened PlanetDescription

  // Production 3 of row 22.
  function EventfulReputation(): Pieces {
    Then(Symbol(1), Then(Text(" "), Then(Symbol(0), Then(Text(" for "), Then(Symbol(9), Then(Text(" but "), Then(Symbol(7), Then(Text(" by "), Then(Symbol(8), End)))))))))
  }

  lemma EventfulReputationFits()
    ensures Fits(EventfulReputation(), 22)
  {
  }

  lemma EventfulReputationPlain()
    ensures AllPlain(EventfulReputation())
  {
  }

  function EventfulFor(): Pieces {
    Then(Symbol(1), Then(Text(" "), Then(Symbol(0), Then(Text(" for "), Then(Symbol(9), End)))))
  }

  lemma EventfulForOk()
    ensures Fits(EventfulFor(), 22) && AllPlain(EventfulFor())
  {
  }

  function EventfulForBoth(): Pieces {
    Then(Symbol(1), Then(Text(" "), Then(Symbol(0), Then(Text(" for "), Then(Symbol(9), Then(Text(" and "), Then(Symbol(9), End)))))))
  }

  lemma EventfulForBothOk()
    ensures Fits(EventfulForBoth(), 22) && AllPlain(EventfulForBoth())
  {
  }

  function NativeCuisine(): Pieces {
    Then(NativeName, Then(Text(" "), Then(Symbol(30), Then(Text(" "), Then(Symbol(33), End)))))
  }

  lemma NativeCuisineOk()
    ensures Fits(NativeCuisine(), 32) && AllPlain(NativeCuisine())
  {
  }

  function ItsCuisine(): Pieces {
    Then(Text("its "), Then(Symbol(12), Then(Text(" "), Then(Symbol(31), Then(Text(" "), Then(Symbol(33), End))))))
  }

  lemma ItsCuisineOk()
    ensures Fits(ItsCuisine(), 32) && AllPlain(ItsCuisine())
  {
  }

  function TheNativeBeast(): Pieces {
    Then(Text("the "), Then(NativeName, Then(Text(" "), Then(Symbol(23), Then(Text(" "), Then(Symbol(24), End))))))
  }

  lemma TheNativeBeastOk()
    ensures Fits(TheNativeBeast(), 9) && AllPlain(TheNativeBeast())
  {
  }

  function ItsAncient(): Pieces {
    Then(Text("its "), Then(Symbol(2), Then(Text(" "), Then(Symbol(3), End))))
  }

  lemma ItsAncientOk()
    ensures Fits(ItsAncient(), 9) && AllPlain(ItsAncient())
  {
  }

  function ItsInhabitants(): Pieces {
    Then(Text("its inhabitants' "), Then(Symbol(25), Then(Text(" "), Then(Symbol(4), End))))
  }

  lemma ItsInhabitantsOk()
    ensures Fits(ItsInhabitants(), 9) && AllPlain(ItsInhabitants())
  {
  }

  function Row0(): Productions {
    Productions(
      Then(Text("fabled"), End),
      Then(Text("notable"), End),
      Then(Text("well known"), End),
      Then(Text("famous"), End),
      Then(Text("noted"), End))
  }

  lemma Row0Ok()
    ensures RowFits(Row0(), 0) && RowPlain(Row0())
  {
  }

  function Row1(): Productions {
    Productions(
      Then(Text("very"), End),
      Then(Text("mildly"), End),
      Then(Text("most"), End),
      Then(Text("reasonably"), End),
      End)
  }

  lemma Row1Ok()
    ensures RowFits(Row1(), 1) && RowPlain(Row1())
  {
  }

  function Row2(): Productions {
    Productions(
      Then(Text("ancient"), End),
      Then(Symbol(20), End),
      Then(Text("great"), End),
      Then(Text("vast"), End),
      Then(Text("pink"), End))
  }

  lemma Row2Ok()
    ensures RowFits(Row2(), 2) && RowPlain(Row2())
  {
  }

  function Row3(): Productions {
    Productions(
      Then(Symbol(29), Then(Text(" "), Then(Symbol(28), Then(Text(" plantations"), End)))),
      Then(Text("mountains"), End),
      Then(Symbol(27), End),
      Then(Symbol(19), Then(Text(" forests"), End)),
      Then(Text("oceans"), End))
  }

  lemma Row3Fits()
    ensures RowFits(Row3(), 3)
  {
  }

  lemma Row3Plain()
    ensures RowPlain(Row3())
  {
  }

  function Row4(): Productions {
    Productions(
      Then(Text("shyness"), End),
      Then(Text("silliness"), End),
      Then(Text("mating traditions"), End),
      Then(Text("loathing of "), Then(Symbol(5), End)),
      Then(Text("love for "), Then(Symbol(5), End)))
  }

  lemma Row4Fits()
    ensures RowFits(Row4(), 4)
  {
  }

  lemma Row4Plain()
    ensures RowPlain(Row4())
  {
  }

  function Row5(): Productions {
    Productions(
      Then(Text("food blenders"), End),
      Then(Text("tourists"), End),
      Then(Text("poetry"), End),
      Then(Text("discos"), End),
      Then(Symbol(13), End))
  }

  lemma Row5Ok()
    ensures RowFits(Row5(), 5) && RowPlain(Row5())
  {
  }

  function Row6(): Productions {
    Productions(
      Then(Text("talking tree"), End),
      Then(Text("crab"), End),
      Then(Text("bat"), End),
      Then(Text("lobst"), End),
      Then(RandomName, End))
  }

  lemma Row6Ok()
    ensures RowFits(Row6(), 6) && RowPlain(Row6())
  {
  }

  function Row7(): Productions {
    Productions(
      Then(Text("beset"), End),
      Then(Text("plagued"), End),
      Then(Text("ravaged"), End),
      Then(Text("cursed"), End),
      Then(Text("scourged"), End))
  }

  lemma Row7Ok()
    ensures RowFits(Row7(), 7) && RowPlain(Row7())
  {
  }

  function Row8(): Productions {
    Productions(
      Then(Symbol(21), Then(Text(" civil war"), End)),
      Then(Symbol(26), Then(Text(" "), Then(Symbol(23), Then(Text(" "), Then(Symbol(24), Then(Text("s"), End)))))),
      Then(Text("a "), Then(Symbol(26), Then(Text(" disease"), End))),
      Then(Symbol(21), Then(Text(" earthquakes"), End)),
      Then(Symbol(21), Then(Text(" solar activity"), End)))
  }

  lemma Row8Fits()
    ensures RowFits(Row8(), 8)
  {
  }

  lemma Row8Plain()
    ensures RowPlain(Row8())
  {
  }

  function Row9(): Productions {
    Productions(
      ItsAncient(),
      TheNativeBeast(),
      ItsInhabitants(),
      Then(Symbol(32), End),
      Then(Text("its "), Then(Symbol(12), Then(Text(" "), Then(Symbol(13), End)))))
  }

  lemma Row9Ok()
    ensures RowFits(Row9(), 9) && RowPlain(Row9())
  {
    TheNativeBeastOk();
    ItsAncientOk();
    ItsInhabitantsOk();
  }

  function Row10(): Productions {
    Productions(
      Then(Text("juice"), End),
      Then(Text("brandy"), End),
      Then(Text("water"), End),
      Then(Text("brew"), End),
      Then(Text("gargle blasters"), End))
  }

  lemma Row10Ok()
    ensures RowFits(Row10(), 10) && RowPlain(Row10())
  {
  }

  function Row11(): Productions {
    Productions(
      Then(RandomName, End),
      Then(NativeName, Then(Text(" "), Then(Symbol(24), End))),
      Then(NativeName, Then(Text(" "), Then(RandomName, End))),
      Then(NativeName, Then(Text(" "), Then(Symbol(26), End))),
      Then(Symbol(26), Then(Text(" "), Then(RandomName, End))))
  }

  lemma Row11Ok()
    ensures RowFits(Row11(), 11) && RowPlain(Row11())
  {
  }

  function Row12(): Productions {
    Productions(
      Then(Text("fabulous"), End),
      Then(Text("exotic"), End),
      Then(Text("hoopy"), End),
      Then(Text("unusual"), End),
      Then(Text("exciting"), End))
  }

  lemma Row12Ok()
    ensures RowFits(Row12(), 12) && RowPlain(Row12())
  {
  }

  function Row13(): Productions {
    Productions(
      Then(Text("cuisine"), End),
      Then(Text("night life"), End),
      Then(Text("casinos"), End),
      Then(Text("sit coms"), End),
      Then(Text(" "), Then(Symbol(32), Then(Text(" "), End))))
  }

  lemma Row13Ok()
    ensures RowFits(Row13(), 13) && RowPlain(Row13())
  {
  }

  function Row14(): Productions {
    Productions(
      Then(HomeName, End),
      Then(Text("The planet "), Then(HomeName, End)),
      Then(Text("The world "), Then(HomeName, End)),
      Then(Text("This planet"), End),
      Then(Text("This world"), End))
  }

  lemma Row14Fits()
    ensures RowFits(Row14(), 14)
  {
  }

  lemma Row14Ok()
    ensures RowFits(Row14(), 14) && RowPlain(Row14())
  {
    Row14Fits();
  }

  function Row15(): Productions {
    Productions(
      Then(Text("n unremarkable"), End),
      Then(Text(" boring"), End),
      Then(Text(" dull"), End),
      Then(Text(" tedious"), End),
      Then(Text(" revolting"), End))
  }

  lemma Row15Ok()
    ensures RowFits(Row15(), 15) && RowPlain(Row15())
  {
  }

  function Row16(): Productions {
    Productions(
      Then(Text("planet"), End),
      Then(Text("world"), End),
      Then(Text("place"), End),
      Then(Text("little planet"), End),
      Then(Text("dump"), End))
  }

  lemma Row16Ok()
    ensures RowFits(Row16(), 16) && RowPlain(Row16())
  {
  }

  function Row17(): Productions {
    Productions(
      Then(Text("wasp"), End),
      Then(Text("moth"), End),
      Then(Text("grub"), End),
      Then(Text("ant"), End),
      Then(RandomName, End))
  }

  lemma Row17Ok()
    ensures RowFits(Row17(), 17) && RowPlain(Row17())
  {
  }

  function Row18(): Productions {
    Productions(
      Then(Text("poet"), End),
      Then(Text("arts graduate"), End),
      Then(Text("yak"), End),
      Then(Text("snail"), End),
      Then(Text("slug"), End))
  }

  lemma Row18Ok()
    ensures RowFits(Row18(), 18) && RowPlain(Row18())
  {
  }

  function Row19(): Productions {
    Productions(
      Then(Text("tropical"), End),
      Then(Text("dense"), End),
      Then(Text("rain"), End),
      Then(Text("impenetrable"), End),
      Then(Text("exuberant"), End))
  }

  lemma Row19Ok()
    ensures RowFits(Row19(), 19) && RowPlain(Row19())
  {
  }

  function Row20(): Productions {
    Productions(
      Then(Text("funny"), End),
      Then(Text("wierd"), End),
      Then(Text("unusual"), End),
      Then(Text("strange"), End),
      Then(Text("peculiar"), End))
  }

  lemma Row20Ok()
    ensures RowFits(Row20(), 20) && RowPlain(Row20())
  {
  }

  function Row21(): Productions {
    Productions(
      Then(Text("frequent"), End),
      Then(Text("occasional"), End),
      Then(Text("unpredictable"), End),
      Then(Text("dreadful"), End),
      Then(Text("deadly"), End))
  }

  lemma Row21Fits()
    ensures RowFits(Row21(), 21)
  {
  }

  lemma Row21LongPlain()
    ensures AllPlain(Then(Text("unpredictable"), End)) && AllPlain(Then(Text("occasional"), End))
  {
  }

  lemma Row21Plain()
    ensures RowPlain(Row21())
  {
    Row21LongPlain();
  }

  function Row22(): Productions {
    Productions(
      EventfulFor(),
      EventfulForBoth(),
      Then(Symbol(7), Then(Text(" by "), Then(Symbol(8), End))),
      EventfulReputation(),
      Then(Text(" a"), Then(Symbol(15), Then(Text(" "), Then(Symbol(16), End)))))
  }

  lemma Row22ShortOk()
    ensures var cause := Then(Symbol(7), Then(Text(" by "), Then(Symbol(8), End)));
            var a := Then(Text(" a"), Then(Symbol(15), Then(Text(" "), Then(Symbol(16), End))));
            Fits(cause, 22) && AllPlain(cause) && Fits(a, 22) && AllPlain(a)
  {
  }

  lemma Row22Ok()
    ensures RowFits(Row22(), 22) && RowPlain(Row22())
  {
    Row22ShortOk();
    EventfulReputationFits();
    EventfulReputationPlain();
    EventfulForOk();
    EventfulForBothOk();
  }

  function Row23(): Productions {
    Productions(
      Then(Symbol(26), End),
      Then(Text("mountain"), End),
      Then(Text("edible"), End),
      Then(Text("tree"), End),
      Then(Text("spotted"), End))
  }

  lemma Row23Ok()
    ensures RowFits(Row23(), 23) && RowPlain(Row23())
  {
  }

  function Row24(): Productions {
    Productions(
      Then(Symbol(30), End),
      Then(Symbol(31), End),
      Then(Symbol(6), Then(Text("oid"), End)),
      Then(Symbol(18), End),
      Then(Symbol(17), End))
  }

  lemma Row24Ok()
    ensures RowFits(Row24(), 24) && RowPlain(Row24())
  {
  }

  function Row25(): Productions {
    Productions(
      Then(Text("ancient"), End),
      Then(Text("exceptional"), End),
      Then(Text("eccentric"), End),
      Then(Text("ingrained"), End),
      Then(Symbol(20), End))
  }

  lemma Row25Ok()
    ensures RowFits(Row25(), 25) && RowPlain(Row25())
  {
  }

  function Row26(): Productions {
    Productions(
      Then(Text("killer"), End),
      Then(Text("deadly"), End),
      Then(Text("evil"), End),
      Then(Text("lethal"), End),
      Then(Text("vicious"), End))
  }

  lemma Row26Ok()
    ensures RowFits(Row26(), 26) && RowPlain(Row26())
  {
  }

  function Row27(): Productions {
    Productions(
      Then(Text("parking meters"), End),
      Then(Text("dust clouds"), End),
      Then(Text("ice bergs"), End),
      Then(Text("rock formations"), End),
      Then(Text("volcanoes"), End))
  }

  lemma Row27Fits()
    ensures RowFits(Row27(), 27)
  {
  }

  lemma Row27LongPlain()
    ensures AllPlain(Then(Text("parking meters"), End)) && AllPlain(Then(Text("rock formations"), End))
  {
  }

  lemma Row27Plain()
    ensures RowPlain(Row27())
  {
    Row27LongPlain();
  }

  function Row28(): Productions {
    Productions(
      Then(Text("plant"), End),
      Then(Text("tulip"), End),
      Then(Text("banana"), End),
      Then(Text("corn"), End),
      Then(RandomName, Then(Text("weed"), End)))
  }

  lemma Row28Ok()
    ensures RowFits(Row28(), 28) && RowPlain(Row28())
  {
  }

  function Row29(): Productions {
    Productions(
      Then(RandomName, End),
      Then(NativeName, Then(Text(" "), Then(RandomName, End))),
      Then(NativeName, Then(Text(" "), Then(Symbol(26), End))),
      Then(Text("inhabitant"), End),
      Then(NativeName, Then(Text(" "), Then(RandomName, End))))
  }

  lemma Row29Ok()
    ensures RowFits(Row29(), 29) && RowPlain(Row29())
  {
  }

  function Row30(): Productions {
    Productions(
      Then(Text("shrew"), End),
      Then(Text("beast"), End),
      Then(Text("bison"), End),
      Then(Text("snake"), End),
      Then(Text("wolf"), End))
  }

  lemma Row30Ok()
    ensures RowFits(Row30(), 30) && RowPlain(Row30())
  {
  }

  function Row31(): Productions {
    Productions(
      Then(Text("leopard"), End),
      Then(Text("cat"), End),
      Then(Text("monkey"), End),
      Then(Text("goat"), End),
      Then(Text("fish"), End))
  }

  lemma Row31Ok()
    ensures RowFits(Row31(), 31) && RowPlain(Row31())
  {
  }

  function Row32(): Productions {
    Productions(
      Then(Symbol(11), Then(Text(" "), Then(Symbol(10), End))),
      NativeCuisine(),
      ItsCuisine(),
      Then(Symbol(34), Then(Text(" "), Then(Symbol(35), End))),
      Then(Symbol(11), Then(Text(" "), Then(Symbol(10), End))))
  }

  lemma Row32Ok()
    ensures RowFits(Row32(), 32) && RowPlain(Row32())
  {
    NativeCuisineOk();
    ItsCuisineOk();
  }

  function Row33(): Productions {
    Productions(
      Then(Text("meat"), End),
      Then(Text("cutlet"), End),
      Then(Text("steak"), End),
      Then(Text("burgers"), End),
      Then(Text("soup"), End))
  }

  lemma Row33Ok()
    ensures RowFits(Row33(), 33) && RowPlain(Row33())
  {
  }

  function Row34(): Productions {
    Productions(
      Then(Text("ice"), End),
      Then(Text("mud"), End),
      Then(Text("Zero-G"), End),
      Then(Text("vacuum"), End),
      Then(NativeName, Then(Text(" ultra"), End)))
  }

  lemma Row34Ok()
    ensures RowFits(Row34(), 34) && RowPlain(Row34())
  {
  }

  function Row35(): Productions {
    Productions(
      Then(Text("hockey"), End),
      Then(Text("cricket"), End),
      Then(Text("karate"), End),
      Then(Text("polo"), End),
      Then(Text("tennis"), End))
  }

  lemma Row35Ok()
    ensures RowFits(Row35(), 35) && RowPlain(Row35())
  {
  }

  function DescList(): seq<Productions> {
    [Row0(), Row1(), Row2(), Row3(), Row4(), Row5(), Row6(), Row7(), Row8(),
     Row9(), Row10(), Row11(), Row12(), Row13(), Row14(), Row15(), Row16(), Row17(),
     Row18(), Row19(), Row20(), Row21(), Row22(), Row23(), Row24(), Row25(), Row26(),
     Row27(), Row28(), Row29(), Row30(), Row31(), Row32(), Row33(), Row34(), Row35()]
  }

  lemma Rows0To5Ok(n: nat)
    requires 0 <= n < 6
    ensures RowFits(DescList()[n], n) && RowPlain(DescList()[n])
  {
    Row0Ok();
    Row1Ok();
    Row2Ok();
    Row3Fits();
    Row3Plain();
    Row4Fits();
    Row4Plain();
    Row5Ok();
  }

  lemma Rows6To11Ok(n: nat)
    requires 6 <= n < 12
    ensures RowFits(DescList()[n], n) && RowPlain(DescList()[n])
  {
    Row6Ok();
    Row7Ok();
    Row8Fits();
    Row8Plain();
    Row9Ok();
    Row10Ok();
    Row11Ok();
  }

  lemma Rows12To17Ok(n: nat)
    requires 12 <= n < 18
    ensures RowFits(DescList()[n], n) && RowPlain(DescList()[n])
  {
    Row12Ok();
    Row13Ok();
    Row14Ok();
    Row15Ok();
    Row16Ok();
    Row17Ok();
  }

  lemma Rows18To23Ok(n: nat)
    requires 18 <= n < 24
    ensures RowFits(DescList()[n], n) && RowPlain(DescList()[n])
  {
    Row18Ok();
    Row19Ok();
    Row20Ok();
    Row21Fits();
    Row21Plain();
    Row22Ok();
    Row23Ok();
  }

  lemma Rows24To29Ok(n: nat)
    requires 24 <= n < 30
    ensures RowFits(DescList()[n], n) && RowPlain(DescList()[n])
  {
    Row24Ok();
    Row25Ok();
    Row26Ok();
    Row27Fits();
    Row27Plain();
    Row28Ok();
    Row29Ok();
  }

  lemma Rows30To35Ok(n: nat)
    requires 30 <= n < 36
    ensures RowFits(DescList()[n], n) && RowPlain(DescList()[n])
  {
    Row30Ok();
    Row31Ok();
    Row32Ok();
    Row33Ok();
    Row34Ok();
    Row35Ok();
  }

  // The grammar the game ships satisfies everything the expander needs.
  lemma DescListWellFormed()
    ensures WellFormed(DescList())
  {
    forall n: nat | n < 36
      ensures RowFits(DescList()[n], n) && RowPlain(DescList()[n])
    {
      if n < 6 {
        Rows0To5Ok(n);
      } else if n < 12 {
        Rows6To11Ok(n);
      } else if n < 18 {
        Rows12To17Ok(n);
      } else if n < 24 {
        Rows18To23Ok(n);
      } else if n < 30 {
        Rows24To29Ok(n);
      } else {
        Rows30To35Ok(n);
      }
    }
  }
}
