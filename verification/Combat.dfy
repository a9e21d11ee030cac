// Damage, shields and recharge: Combat.h and the parts of CombatSystem.h every damage
// source shares.
module Combat {
  import opened Ecs
  import SpatialGrid

  const TEAM_PLAYER: int := 0
  const TEAM_PIRATE: int := 1
  const TEAM_POLICE: int := 2
  const TEAM_STATION: int := 3
  const TEAM_TRADER: int := 4

  const MAX_SHIELD: int := 255
  const MAX_ENERGY: int := 255

  datatype Combatant = Combatant(team: int, energy: int, laserStrength: int, range: int, autoEngage: bool,
                                 fireInterval: int, fireTimer: int, invulnTicks: int, focus: Option<nat>)

  datatype Shields = Shields(front: int, aft: int)

  datatype Kill = Kill(victim: EntityId, killer: nat)

  type FrontTest = (nat, SpatialGrid.Vec) -> bool   // HitOnFront(victim, attacker position)

  ghost predicate Killed(kills: seq<Kill>, index: nat) {
    exists k :: 0 <= k < |kills| && kills[k].victim.index == index
  }

  // ---------------------------------------------------------------------------
  // One hit
  // ---------------------------------------------------------------------------

  datatype ShieldState = ShieldState(frontShield: int, aftShield: int, energy: int)

  function ApplyDamageToShields(state: ShieldState, damage: int, hitFront: bool): (ShieldState, bool) {
    if damage <= 0 then (state, false)
    else
      var left := (if hitFront then state.frontShield else state.aftShield) - damage;
      var shield := if left < 0 then 0 else left;
      var energy := if left < 0 then state.energy + left else state.energy;
      (if hitFront then ShieldState(shield, state.aftShield, energy) else ShieldState(state.frontShield, shield, energy),
       energy <= 0)
  }

  function Total(s: ShieldState): int {
    s.frontShield + s.aftShield + s.energy
  }

  // No damage is lost or invented: shields and bank together give up exactly the damage,
  // the facing shield first, the other shield never.
  lemma DamageIsConserved(s: ShieldState, damage: int, hitFront: bool)
    requires damage > 0 && s.frontShield >= 0 && s.aftShield >= 0
    ensures var (r, destroyed) := ApplyDamageToShields(s, damage, hitFront);
            && Total(r) == Total(s) - damage
            && r.frontShield >= 0 && r.aftShield >= 0
            && (if hitFront then r.aftShield == s.aftShield else r.frontShield == s.frontShield)
            && (r.energy < s.energy ==> (if hitFront then r.frontShield else r.aftShield) == 0)
            && r.energy <= s.energy
            && (destroyed <==> r.energy <= 0)
  {
  }

  // Two hits on the same face land like one hit of their sum.
  lemma HitsAdd(s: ShieldState, first: int, second: int, hitFront: bool)
    requires first > 0 && second > 0 && s.frontShield >= 0 && s.aftShield >= 0
    ensures ApplyDamageToShields(ApplyDamageToShields(s, first, hitFront).0, second, hitFront)
         == ApplyDamageToShields(s, first + second, hitFront)
  {
  }

  // ---------------------------------------------------------------------------
  // The hull pools
  // ---------------------------------------------------------------------------

  datatype Hulls = Hulls(combatant: map<nat, Combatant>, shields: map<nat, Shields>)

  // One hull, in two states of the pools.
  ghost predicate SameHull(h: Hulls, h': Hulls, index: nat) {
    && index in h.combatant && index in h'.combatant && h'.combatant[index] == h.combatant[index]
    && (index in h.shields <==> index in h'.shields)
    && (index in h.shields ==> h'.shields[index] == h.shields[index])
  }

  // ApplyDamage; `front` is the outcome of HitOnFront.
  function ApplyDamage(h: Hulls, target: nat, damage: int, front: bool): (Hulls, bool) {
    if target !in h.combatant then (h, false)
    else
      var c := h.combatant[target];
      if target !in h.shields then
        var hit := c.(energy := c.energy - damage);
        (h.(combatant := h.combatant[target := hit]), hit.energy <= 0)
      else
        var sh := h.shields[target];
        var (r, destroyed) := ApplyDamageToShields(ShieldState(sh.front, sh.aft, c.energy), damage, front);
        (Hulls(h.combatant[target := c.(energy := r.energy)], h.shields[target := Shields(r.frontShield, r.aftShield)]),
         destroyed)
  }

  // A hit changes nothing but the energy and shields of its target.
  lemma ApplyDamageTouchesOne(h: Hulls, target: nat, damage: int, front: bool)
    ensures var h' := ApplyDamage(h, target, damage, front).0;
            && h'.combatant.Keys == h.combatant.Keys && h'.shields.Keys == h.shields.Keys
            && (forall i :: i in h.combatant && i != target ==> h'.combatant[i] == h.combatant[i])
            && (forall i :: i in h.shields && i != target ==> h'.shields[i] == h.shields[i])
            && (forall i :: i in h.combatant ==>
                  h'.combatant[i].(energy := 0) == h.combatant[i].(energy := 0))
  {
  }

  // ---------------------------------------------------------------------------
  // Recharge
  // ---------------------------------------------------------------------------

  function Regen(s: ShieldState): ShieldState {
    var charged := s.energy > MAX_ENERGY / 2;
    var f := if charged && s.frontShield < MAX_SHIELD then 1 else 0;
    var a := if charged && s.aftShield < MAX_SHIELD then 1 else 0;
    var energy := s.energy - f - a + 1;
    ShieldState(s.frontShield + f, s.aftShield + a, if energy > MAX_ENERGY then MAX_ENERGY else energy)
  }

  predicate InRange(s: ShieldState) {
    0 <= s.frontShield <= MAX_SHIELD && 0 <= s.aftShield <= MAX_SHIELD && s.energy <= MAX_ENERGY
  }

  const FULL: ShieldState := ShieldState(MAX_SHIELD, MAX_SHIELD, MAX_ENERGY)

  ghost function RegenN(s: ShieldState, n: nat): ShieldState {
    if n == 0 then s else Regen(RegenN(s, n - 1))
  }

  // Each step moves the total up by exactly one point until everything is full, and never
  // drains a bank below half.
  lemma RegenStep(s: ShieldState)
    requires InRange(s)
    ensures InRange(Regen(s))
    ensures Total(Regen(s)) == if s == FULL then Total(s) else Total(s) + 1
    ensures Regen(s).energy >= (if s.energy > MAX_ENERGY / 2 then MAX_ENERGY / 2 else s.energy)
    ensures s.frontShield <= Regen(s).frontShield && s.aftShield <= Regen(s).aftShield
  {
  }

  // So a ship is fully recharged after exactly as many steps as points are missing.
  lemma {:induction false} RechargeTime(s: ShieldState, n: nat)
    requires InRange(s)
    ensures InRange(RegenN(s, n))
    ensures Total(RegenN(s, n)) == if n <= Total(FULL) - Total(s) then Total(s) + n else Total(FULL)
    ensures RegenN(s, n) == FULL <==> n >= Total(FULL) - Total(s)
  {
    if n > 0 {
      RechargeTime(s, n - 1);
      RegenStep(RegenN(s, n - 1));
    }
  }
}
