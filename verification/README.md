# Verified model of the authoritative server rules

This project models the server side of Deepspace Outpost, a multiplayer space game, and two of its legacy routines,
and proves what they are meant to guarantee. Where the C++ changes state step by step, the model is a class or a
method doing the same, proved equal to a function of the old state; the properties are then lemmas about that
function, over every input, every reachable state or every run.

What is modelled:

* **Sessions** (`SessionModel`, `SessionInvariant`, `SessionSafety`, `SessionNames`, `SessionInputs`,
  `SessionBudgets`, `SessionEviction`, `ServerSessions`, `SessionServer`, with `Names`, `Ecs` and the limiters). The
  session table, token index, rate records, ownership index and entity world as one state machine; an invariant over
  every run; isolation between sessions; an exact reaper; when names are distinct; and the in-place server driven by
  any list of commands is such a run.
* **Limiters** (`WindowLimiter`, `RateLimiter`, `ChatModeration`). Bounds over every window of ticks, and when the
  eviction of rate records can be observed.
* **Grid narrowing** (`SpatialGrid`, `Broadphase`, `CollisionSystem`, `CollisionOutcome`, `CollisionToll`,
  `Combat`, `CombatSystem`, `LootSystem`). The gridded sweeps end in exactly the state of the full scans, and what
  those scans mean.
* **Belts and mining** (`RegenStagger`, `RegenPhase`, `SceneSystem`, `SceneLoader`, `BeltOre`, `MiningSystem`,
  `MiningLedger`, `MiningTicks`, `StaleRocks`, with `MapSums`). Loading, rock upkeep, staggered regeneration, and when
  ore is conserved over a run.
* **Rings, placement, trade** (`TransformHistory` with `Doubles`, `SceneTemplates`, `StationServices`, `Cargo`).
* **Legacy routines** (`PlanetSeed`, `PlanetDescription`, `PlanetDescriber`, `PlanetGrammar`, `PlanetLanguage`,
  `Planets`, `Decimal`, `Random`). The planet grammar expander with its fixed buffer, and the minimal-standard generator.

`dafny verify dfyconfig.toml` checks everything.

## Reading the model

* Ticks, ids, counters, coordinates and credits are unbounded integers and ticks never run backwards. Width is
  explicit where it is the point: `Random`, the bytes of the planet code, the 64-bit hash stream of `SceneTemplates`.
* Hashes are arbitrary functions. Entity slots are any free slots in the mining model, and fresh handles in the session
  model, where `Ecs.Registry` supplies them. Hash containers may be visited in any order.
* A session token from the injected source is assumed not to be in use and not to be one the fallback counter has yet
  to hand out, and fewer than 2^32 fallback tokens to be minted. The hello mode is constant over a run.
* Commander names arrive sanitised and datagrams decoded; what a session sends is an append-only outbox.
* `LagCompTicks` takes the two values floating point computed. `Doubles` says what those are: IEEE 754 binary64, each
  operation rounded to nearest, ties to even.
* `Integers`, `Bits` and `Sequences` hold what several modules share.
* "Hit lands on front" is an arbitrary predicate of victim and attacker position.

## Where the code and its promises differ

Each point has a lemma; the code was kept as it is.

* `UniqueName` can return a taken name once 999 others are connected (`Names.UniqueExactly`). The placeholder of an
  unnamed commander is not checked against other names at all, so two players can share one
  (`SessionNames.NamesCollide`). `SessionNames.NamesDistinctExactly` says when names are distinct, for any crowd.
* The chat cap is 6 lines in fixed windows, so 300 consecutive ticks can carry 11 (`ChatModeration.ChatBoundIsTight`).
* A rate record is muted up to but not including `mutedUntil`, not through it (`RateLimiter.MuteEnds`).
* Rate-record eviction is observable for shell timeouts below 29 ticks (`RateLimiter.EvictionInvisibleExactly`). The
  server uses 300 (Server/ServerConfig.h:28).
* Granting an entity another player owns breaks the promise that a reap touches no survivor's entities
  (`SessionSafety.GrantThenReapExactly`, `SessionSafety.ReapTakesFromSurvivor`). Accepting a session directly while it
  is parked for a load breaks the token index (`SessionSafety.MixedModesExactly`).
* A session whose accepted inputs all carry sequence 0 never stores their ack
  (`SessionInputs.ZeroSequencesNeverAck`, and a run of it, `SessionInputs.ZeroSequenceIsLost`).
* Units are conserved per belt in every run (`MiningLedger.PoolsConserved`), but which ore they are only as long as no
  unit keeps cutting a slot that was recycled into another belt's rock: `MiningLedger.OwnOreExactly` and
  `MiningLedger.OreConservedExactly` say exactly when, over whole runs, and `StaleRocks.StaleRockMixesOres` is a run in
  which it happens.
* A belt of negative radius spawns rocks it never counts (`SceneSystem.MaintainedCount`); one with a baseline under 24
  can promise more than its pool (`BeltOre.NeverOverpromisesExactly`); a pool mined dry reloads full
  (`SceneLoader.RestartExactly`).
* Round trips of 500 and 700 ms are half way between two ticks and rewind one tick less than rounding to nearest
  would; every other one rewinds what it should (`TransformHistory.LagCompExactly`).
* Staggering regeneration by exclusive-or gives belts 0 to 3 a fixed phase within the interval and no other belt
  (`RegenPhase.PhaseExactly`). Once or twice per aligned 512 ticks is what it gives all of them.
* A spec whose `countMin` exceeds its `countMax` can place more than `countMax` (`SceneTemplates.CountInBounds`). No
  shipped template has one.
* The MSX planet generator lets a byte reach 256; `PlanetSeed.MsxByteRangeExactly` says after which steps.
* A target planet without a name makes `%I` swallow a character (`PlanetLanguage.NativeKeepsText`).

## Model

| member | source | states |
|---|---|---|
| SessionInvariant.RunKeepsInv | GameLogic/ServerSessions.h:139-349 | In every reachable state (any interleaving of inputs, datagrams, hellos, loads, reaps, grants and other spawns and deaths, ticks monotone, one hello mode per run) the whole representation invariant holds: each session sits under its own endpoint's key, live = tokened = has a player id, tokens and player ids are pairwise distinct, the token index and the table are inverse, ownership lists hold each live session's ship and no handle twice |
| SessionInvariant.StepKeepsInv | GameLogic/ServerSessions.h:150-349 | Each single entry point keeps that invariant from any state that satisfies it, for any later tick |
| SessionInvariant.IndexesAreInverse | GameLogic/ServerSessions.h:709-710 | Under the invariant the token index maps t to key k exactly when the session at k holds the nonzero token t |
| SessionInvariant.TokensDistinct | GameLogic/ServerSessions.h:99-103 | Two sessions with the same nonzero token are the same session |
| SessionInvariant.AuthenticateNeverHeals | GameLogic/ServerSessions.h:535-553 | Neither desync branch of Authenticate is ever taken: authentication never removes a token, and every indexed token has a session behind it |
| SessionInvariant.RebindKeepsInv | GameLogic/ServerSessions.h:526-545 | Migrating a session to a new endpoint key moves its index entry along and keeps the invariant |
| SessionInvariant.AcceptKeepsInv | GameLogic/ServerSessions.h:263-278 | The accept path (player id, spawn, name, token, index) keeps the invariant |
| SessionInvariant.HelloKeepsInv | GameLogic/ServerSessions.h:226-279 | OnHello keeps the invariant in all four of its outcomes |
| SessionInvariant.SpawnLoadedKeepsInv | GameLogic/ServerSessions.h:287-307 | Finishing a deferred load keeps it, whether or not the endpoint is still loading |
| SessionInvariant.ReapKeepsInv | GameLogic/ServerSessions.h:313-360 | Reaping any set of sessions at once keeps it |
| SessionInvariant.GrantKeepsInv | GameLogic/ServerSessions.h:502-508 | Granting any entity to any player id keeps it |
| SessionInvariant.MintedTokenIsFresh | GameLogic/ServerSessions.h:580-589 | The next token is nonzero and unused: by assumption for the injected source, by the counter for the fallback |
| SessionModel.EndpointKeyInjective | GameLogic/ServerSessions.h:65-68 | Two endpoints with the same 48-bit key are the same endpoint |
| SessionSafety.ForeignInputIsHarmless | GameLogic/ServerSessions.h:150-175 | An input whose token is zero, unknown or another session's leaves every field of a live session, and its place, unchanged |
| SessionSafety.ForeignReliableIsHarmless | GameLogic/ServerSessions.h:186-207 | The same for a reliable datagram, from any address including the session's own |
| SessionSafety.UnknownTokenChangesNothing | GameLogic/ServerSessions.h:517-523 | A token nobody holds changes nothing at all in the server |
| SessionSafety.RebindFollowsClient | GameLogic/ServerSessions.h:526-555 | The right token from any address moves the session there with everything but endpoint and last-seen tick intact, and changes nothing when that address is already another session's |
| SessionSafety.SafetyNetIsEmpty | GameLogic/ServerSessions.h:336-340 | A session's ship is always on its player's list, so the reaper's safety net never destroys anything |
| SessionSafety.ReapIsComplete | GameLogic/ServerSessions.h:313-344 | A reaped session leaves no key, no token, no ownership entry and no valid entity |
| SessionSafety.ReapSparesTheRest | GameLogic/ServerSessions.h:326-343 | When Owner components and the index agree, a valid entity survives a reap exactly when its owner was not reaped, and keeps its owner |
| SessionSafety.SparesExactly | GameLogic/ServerSessions.h:313-344 | From any state of the invariant, a reap leaves every live entity on every surviving session's list alive if and only if no live entity is claimed by a reaped session and a surviving one |
| SessionSafety.ReapSparesSurvivors | GameLogic/ServerSessions.h:326-343 | Where Owner components and the index agree, nothing is so claimed: a surviving session and everything live on its list are untouched |
| SessionSafety.GrantExactly | GameLogic/ServerSessions.h:502-508 | A grant keeps that agreement if and only if it does not take an entity another player already owns |
| SessionSafety.GrantThenReapExactly | GameLogic/ServerSessions.h:313-344 | From agreement, a grant followed by any reap spares the survivors if and only if the grant takes nothing or, of its player and the previous owner, the reap does not take one and leave the other |
| SessionSafety.ReapTakesFromSurvivor | GameLogic/ServerSessions.h:326-343 | The run that shows it: a player is granted another's ship and keeps playing; the reap of the other destroys the ship, which is live and on the survivor's list |
| SessionSafety.RunKeepsAgreement | GameLogic/ServerSessions.h:498-508 | Over every run whose grants take nothing, Owner components and the ownership index agree |
| SessionSafety.MixedModesExactly | GameLogic/ServerSessions.h:219-261 | A hello sent to a server that has parked sessions keeps the invariant if and only if it does not accept, without deferring, a session that is still loading |
| SessionSafety.MixedModesBreakTheIndex | GameLogic/ServerSessions.h:287-303 | The run that shows it: a parked session accepted directly and then loaded gets two ships and two tokens, the first token indexed to a session that no longer holds it |
| SessionNames.ChosenIsFree | GameLogic/ServerSessions.h:677-695 | With at most 998 other sessions the name chosen for a commander, on acceptance or on a rename, is nobody else's |
| SessionNames.NamesDistinctExactly | GameLogic/ServerSessions.h:242-269 | In any run, of however many sessions, live sessions have distinct names in every state if and only if no event admits a commander without a name while a live session holds his placeholder, or names one while all candidates are taken and a live session holds the name itself |
| SessionNames.SharedNames | GameLogic/ServerSessions.h:242-269 | In any run of at most 999 sessions, of two live sessions that share a name at least one goes by its placeholder, so two that named themselves never do; two placeholders are alike only if their ships' slots are the same and one of the ships is gone |
| SessionNames.NamesCollide | GameLogic/ServerSessions.h:268 | The run that shows it: a client calls himself Commander-1 and the next, unnamed one gets slot 1 |
| SessionInputs.InputCap | GameLogic/ServerSessions.h:157-167 | Over any run at most 8 inputs of one player are accepted in one tick, across rebinds |
| SessionInputs.AckOfHighestSequence | GameLogic/ServerSessions.h:169-173 | A live session's stored sequence is the highest one accepted from its player, and its stored ack is the one carried by the first input with that sequence |
| SessionInputs.ZeroSequencesNeverAck | GameLogic/ServerSessions.h:169-173 | In any run, a live session whose accepted inputs all carry sequence 0 has no ack stored, whatever they acknowledged |
| SessionInputs.ZeroSequenceIsLost | GameLogic/ServerSessions.h:169-173 | The run that shows it: a hello, then an input with sequence 0 and any ack, which is accepted and not kept |
| SessionInputs.SequenceNeverFalls | GameLogic/ServerSessions.h:169-173 | The stored sequence of a player never falls, wherever the session moves meanwhile |
| SessionBudgets.EntryIsRun | GameLogic/ServerSessions.h:560-576 | After any run an endpoint's rate record is the one its own token-less datagrams and the sweeps alone produce: no other event touches it |
| SessionBudgets.ServerBudgetBound | GameLogic/ServerSessions.h:81-82 | Over any run that sweeps with a shell timeout of at least 29 ticks, any 30 consecutive ticks admit at most 240 token-less datagrams of one endpoint |
| SessionBudgets.NextVerdict | GameLogic/ServerSessions.h:188-192 | The verdict on the next token-less datagram is the one that endpoint's own history determines |
| SessionBudgets.MutedEndpointIsIgnored | GameLogic/ServerSessions.h:560-576 | Over any run, from the datagram that trips an endpoint's cap on, each of its token-less datagrams in the next 300 ticks leaves the whole server as it is, whatever happens in between |
| SessionEviction.EvictionUnseen | GameLogic/ServerSessions.h:350-358 | For any run whose sweeps time out after at least 29 ticks, a server that never drops a rate record takes the same events to states that differ in nothing but those records |
| ServerSessionsClass.ServerSessions.Authenticate | GameLogic/ServerSessions.h:517-556 | The in-place method computes the model's step on all five state components and returns the authenticated key |
| ServerSessionsClass.ServerSessions.OnInput | GameLogic/ServerSessions.h:150-175 | Same, with the accepted entity |
| ServerSessionsClass.ServerSessions.OnReliable | GameLogic/ServerSessions.h:186-207 | Same, for token-less and tokened datagrams |
| ServerSessionsClass.ServerSessions.RateLimited | GameLogic/ServerSessions.h:560-576 | Charges exactly one datagram against the endpoint's record, creating it if absent |
| ServerSessionsClass.ServerSessions.OnHello | GameLogic/ServerSessions.h:226-279 | Same, with all four outcomes; the spawned handle was never handed out before |
| ServerSessionsClass.ServerSessions.SpawnLoaded | GameLogic/ServerSessions.h:287-307 | Same, finishing the load only of a session that is loading |
| ServerSessionsClass.ServerSessions.GrantOwnership | GameLogic/ServerSessions.h:502-508 | Same, a no-op for player 0 and for a stale handle |
| ServerSessionsClass.ServerSessions.Reap | GameLogic/ServerSessions.h:313-360 | The erase-while-iterating loop, in whatever order the table is visited, ends in the one simultaneous step of the model, and reports exactly the destroyed slots, each once |
| ServerSessionsClass.ServerSessions.UniqueName | GameLogic/ServerSessions.h:677-695 | Returns the model's name against the names of the other sessions only |
| SessionServer.Serve | GameLogic/ServerSessions.h:139-360 | A fresh server, given any commands at ticks that never run backwards and a token source that never repeats itself, ends in the last state of a run that performs exactly those commands: every statement about runs holds of the in-place server |
| Names.UniqueName | GameLogic/ServerSessions.h:677-695 | The search loop returns the first free of the base name and its suffixes -2 .. -999, or the base name |
| Names.CandidatesDistinct | GameLogic/ServerSessions.h:688-693 | The 999 candidates are pairwise distinct, decimal suffixes being injective |
| Names.FreeUnlessExhausted | GameLogic/ServerSessions.h:677-695 | The result is free exactly unless every candidate is taken, and then it is the base name |
| Names.UniqueWithFewOthers | GameLogic/ServerSessions.h:677-695 | With at most 998 taken names the result is free, by pigeonhole |
| Names.UniqueExactly | GameLogic/ServerSessions.h:688-694 | 998 is exact: the guarantee holds for all name sets of size at most n if and only if n <= 998 |
| Decimal.AtoiOfToString | DeepspaceOutpost/planet.cpp:358-364 | atoi of a printed number is that number |
| Decimal.ToStringInjective | GameLogic/ServerSessions.h:690 | to_string never prints two numbers alike |
| RateLimiter.EvictionInvisibleExactly | GameLogic/ServerSessions.h:350-358 | Dropping rate records never changes a verdict, in any history, if and only if the shell timeout is at least RATE_WINDOW_TICKS - 1 |
| RateLimiter.RunsAgree | GameLogic/ServerSessions.h:350-358 | With such timeouts the table with eviction and the table that keeps every record give the same verdicts and admit the same datagrams, one by one |
| RateLimiter.LeakIsVisible | GameLogic/ServerSessions.h:352-358 | With any shorter timeout a history of 120 datagrams, one sweep and one more shows the difference |
| RateLimiter.UnauthBound | GameLogic/ServerSessions.h:560-576 | Any 30 consecutive ticks admit at most 240 token-less datagrams, with sweeps anywhere in between |
| RateLimiter.MuteHolds | GameLogic/ServerSessions.h:570-574 | From the datagram that trips the cap on, every datagram of the next 300 ticks (the tripping tick included) is refused and the record stays as it is |
| RateLimiter.MuteEnds | GameLogic/ServerSessions.h:563-574 | The first datagram 300 ticks after the tripping one is admitted: the mute runs up to mutedUntil, not through it |
| ChatModeration.ChatLimiter.ChatAllowed | GameLogic/ChatModeration.h:32-44 | The in-place limiter computes the model's window and verdict |
| ChatModeration.ChatBound | GameLogic/ChatModeration.h:32-44 | Over any run any 300 consecutive ticks admit at most 11 chat lines |
| ChatModeration.ChatBoundIsTight | GameLogic/ChatModeration.h:17-18 | 11 is reached: the windows are fixed, not rolling |
| WindowLimiter.LedgerOpen | GameLogic/ChatModeration.h:34-39 | Opening a fresh window one width after the last keeps every span of one width within the budget plus what one window may carry past its first tick |
| WindowLimiter.LedgerAdmit | GameLogic/ChatModeration.h:40-43 | So does one more admission within the window's budget |
| Ecs.Registry.Create | NeuronCore/ECS.h:133-149 | A recycled slot gets a handle that was never handed out before |
| Ecs.Registry.Destroy | NeuronCore/ECS.h:169-181 | Kills exactly that handle and its components, and is a no-op for a stale one |
| Ecs.Registry.ViewOk | NeuronCore/ECS.h:151-156 | A handle is valid exactly when it is live, at most one per slot, and only live slots carry an Owner |
| SpatialGrid.FloorDivIsFloor | NeuronCore/SpatialGrid.h:112-119 | The truncating division with its correction is the floor, negative coordinates included |
| SpatialGrid.Grid.Insert | NeuronCore/SpatialGrid.h:62-65 | Adds the id to the bucket of its cell and nothing else |
| SpatialGrid.Grid.Rebuild | GameLogic/CollisionSystem.h:117-120 | Afterwards the grid holds every index exactly in the cell of its point |
| SpatialGrid.Grid.QueryNear | NeuronCore/SpatialGrid.h:88-99 | Yields exactly the indices whose cell is in the cube, each once, whatever order buckets are walked in |
| Broadphase.CubeCoversRange | GameLogic/Broadphase.h:54-57 | Whatever is within Chebyshev range lies in the cube of CellsForRange(range) cells, for every range (also zero and negative) and all coordinates |
| Broadphase.Sort | GameLogic/Broadphase.h:50 | The result is sorted and a permutation |
| Broadphase.NeighboursAre | GameLogic/Broadphase.h:42-44 | The scan-order candidates are ascending and are exactly the indices in the cube |
| Broadphase.QuerySortedNeighbours | GameLogic/Broadphase.h:45-51 | Whatever order the grid yields, the sorted candidates are the full scan order minus the indices outside the cube |
| CollisionSystem.Collisions.StepCollisions | GameLogic/CollisionSystem.h:104-190 | For any hulls at any coordinates the grid-narrowed sweep ends with the same energies, shields, dead set and kill list, in the same order, as the full i < j sweep followed by the planet pass |
| CollisionSystem.Collisions.SweepRow | GameLogic/CollisionSystem.h:125-165 | The walk over one unit's sorted candidates equals the full row of partners |
| CollisionSystem.Collisions.Pair | GameLogic/CollisionSystem.h:134-164 | One candidate pair: station scrape, ship ram in both directions, or nothing, as the full sweep does it |
| CollisionSystem.FarPairsSkip | GameLogic/CollisionSystem.h:113-116 | A pair the grid does not offer is one the exact tests would have skipped |
| CollisionSystem.Collisions.PlanetPass | GameLogic/CollisionSystem.h:169-188 | The planet loop zeroes exactly the units the model crashes, against the first planet in range |
| CollisionSystem.Collisions.DamageHull | GameLogic/CombatSystem.h:209-228 | In place, what ApplyDamage is specified to do |
| CollisionOutcome.CollisionOutcome | GameLogic/CollisionSystem.h:104-190 | For every unit of the full sweep: each victim is reported once; a hull that had energy is reported exactly when it ends without any; stations and hulls in grace lose nothing; nothing but energy and shields changes |
| CollisionOutcome.AtmosphereIsLethal | GameLogic/CollisionSystem.h:176-188 | Every unit that may be hurt and is within a planet's kill radius is reported and ends without energy |
| CollisionToll.SurvivorsPayPerContact | GameLogic/CollisionSystem.h:113-165 | An exposed ship that is not reported has lost exactly 100 points per ship and 200 per station in contact, off shields and bank together: each contact once, whatever the order of the sweep |
| CollisionToll.RowsShareIs | GameLogic/CollisionSystem.h:123-129 | The i < j sweep meets every unordered pair exactly once: what its rows cost one face of a unit is that face's toll over all other units |
| CollisionToll.DeathExactly | GameLogic/CollisionSystem.h:107-165 | A ship with energy, clear of the planets, is destroyed if and only if what its front contacts get past the front shield and its aft contacts past the aft shield together come to its energy |
| CollisionToll.ContactsDestroy | GameLogic/CollisionSystem.h:107-165 | A ship with energy, clear of the planets, is destroyed only by contacts worth its bank, and always by contacts worth its bank and shields |
| CollisionToll.UnshieldedDeathExactly | GameLogic/CollisionSystem.h:107-165 | Without shields it is destroyed if and only if its contacts are worth its energy |
| CollisionToll.KillersWereThere | GameLogic/CollisionSystem.h:107-111 | Every kill is of a ship, to the credit of a unit in contact with it or a planet it was inside of |
| Combat.DamageIsConserved | GameLogic/Combat.h:36-58 | A hit takes exactly its damage out of facing shield and bank together, the facing shield first, the other shield never; destroyed means the bank is empty |
| Combat.HitsAdd | GameLogic/Combat.h:36-58 | Two hits on one face are one hit of their sum |
| Combat.ApplyDamageTouchesOne | GameLogic/CombatSystem.h:209-228 | A hit changes nothing but energy and shields of its target |
| Combat.RegenStep | GameLogic/CombatSystem.h:238-245 | One recharge step adds exactly one point to shields and bank together until all are full, and never drains a bank below half |
| Combat.RechargeTime | GameLogic/CombatSystem.h:234-247 | A ship is fully charged after exactly as many steps as points were missing, and not before |
| CombatSystem.Fight.StepShieldRegen | GameLogic/CombatSystem.h:234-247 | Every hull with shields gets exactly one such step, every other hull none |
| CombatSystem.NearestIsNearest | GameLogic/CombatSystem.h:326-354 | The scan picks a unit if and only if it is a legal target that no legal target precedes by (squared distance, position in the scan); it picks none only if there is none |
| CombatSystem.PickIsLegal | GameLogic/CombatSystem.h:310-354 | Whoever is shot at is an enemy in range that target discipline allows, focus or not; whoever has such a target shoots |
| CombatSystem.FocusWins | GameLogic/CombatSystem.h:313-324 | A remembered target that may be shot at is the one shot at, however far |
| CombatSystem.Fight.NearestOf | GameLogic/CombatSystem.h:326-354 | The walk over the sorted grid candidates picks the target of the full scan, ties included, for any range |
| CombatSystem.Fight.FireUnit | GameLogic/CombatSystem.h:285-363 | One shooter's turn: cooldown, target and booking, against the state the tick began in |
| CombatSystem.Fight.FirePass | GameLogic/CombatSystem.h:285-363 | After the firing loop the three ledger maps hold, for every unit, the summed strength, the last attacker and its position of exactly the shots aimed at it, and every timer has moved |
| CombatSystem.BookedEqualsFired | GameLogic/CombatSystem.h:356-362 | Damage booked over all victims equals the strengths of all units that fired |
| CombatSystem.BookedBy | GameLogic/CombatSystem.h:358-360 | A victim is booked exactly when somebody shot at it, to the credit of the last who did |
| CombatSystem.CombatOutcome | GameLogic/CombatSystem.h:367-384 | For every unit: grace runs down and nothing else, or it takes one hit of everything booked, through the shield facing its last attacker, as if it alone had been resolved; it is reported exactly when that hit destroys it |
| CombatSystem.Fight.StepCombat | GameLogic/CombatSystem.h:254-387 | The narrowed in-place tick ends in the hulls and kill list of the full-scan tick |
| LootSystem.Scoop.ScoopSystem | GameLogic/LootSystem.h:198-274 | The narrowed sweep ends in the holds and claims of the full one; the destroy list names the consumed canisters; the returned players are those who scooped something, once each, in order |
| LootSystem.Scoop.SweepPlayer | GameLogic/LootSystem.h:235-264 | One player's walk over the sorted candidates equals a walk over every canister |
| LootSystem.ClaimedWhenReached | GameLogic/LootSystem.h:237-264 | A canister is consumed exactly when some undocked player with a hold is in range of it |
| LootSystem.FirstComeFirstServed | GameLogic/LootSystem.h:240-263 | It is consumed once, by the first such player |
| LootSystem.ScoopConserves | GameLogic/LootSystem.h:253-259 | Each hold gains, per commodity, exactly the units of the canisters its player scooped |
| LootSystem.ScoopKeepsCapacity | GameLogic/LootSystem.h:252-259 | No hold ends fuller than it was unless within its capacity |
| Cargo.TotalTonnage | GameLogic/StationServices.h:88-95 | The loop sums the commodities that count as tonnage |
| Cargo.LoadedTonnage | GameLogic/StationServices.h:83-95 | Loading weighs exactly what is loaded, and weightless goods nothing |
| StationServices.BuyCommodity | GameLogic/StationServices.h:107-153 | In place, with every refusal in the source's order and the resulting credits and cargo reported |
| StationServices.SellCommodity | GameLogic/StationServices.h:157-189 | Same for selling |
| StationServices.SellUndoesBuy | GameLogic/StationServices.h:107-189 | Selling what was just bought restores credits, hold and stock, if and only if the hold did not owe units before |
| StationServices.BuyUndoesSell | GameLogic/StationServices.h:107-189 | Buying back what was just sold does, if and only if stock and credits were not negative and a hold that counts was not overloaded |
| StationServices.TradingConserves | GameLogic/StationServices.h:104-189 | Under any interleaving of orders by any number of players: units in holds plus stock are constant per commodity, each player's credits plus cargo at the station's prices are constant, prices never move |
| StationServices.TradingStaysSound | GameLogic/StationServices.h:104-189 | From a state without debts, credits, stock and holds stay non-negative and no hold within capacity leaves it |
| BeltOre.RefillAddsOre | GameLogic/SceneSystem.h:121-150 | A refill adds to the ore in a belt's rocks, summed over the rocks, exactly the missing rocks times the belt's share |
| BeltOre.FieldFits | GameLogic/SceneSystem.h:136-142 | The rocks of a belt scattered from empty hold no more ore than its pool exactly when the pool holds at least one unit per rock |
| BeltOre.NeverOverpromisesExactly | GameLogic/SceneSystem.h:61-74 | No first field of any belt with a given baseline, however depleted, holds more ore in its rocks than in its pool, if and only if the baseline is at least BELT_MAX_ROCKS |
| SceneSystem.FullBeltFullField | GameLogic/SceneSystem.h:61-69 | A belt at baseline shows the full cap |
| SceneSystem.SceneWorld.SpawnBeltRock | GameLogic/SceneSystem.h:75-100 | Adds one rock in a free slot and nothing else, its chunk capped at what it is given |
| SceneSystem.SceneWorld.CountBeltRocks | GameLogic/SceneSystem.h:104-115 | The number of rocks in the box, whatever order they are visited in |
| SceneSystem.SceneWorld.MaintainBeltRocks | GameLogic/SceneSystem.h:121-150 | Only ever adds rocks, of the belt's ore and share, exactly as many as the count in the box was short of the target; every old rock stays as it was |
| SceneSystem.MaintainedCount | GameLogic/SceneSystem.h:143-149 | Afterwards the box counts the larger of the previous count and the target, if and only if the radius is not negative or the target is zero |
| SceneLoader.MaterializeScenePoi | GameLogic/SceneSystem.h:157-193 | In place: adds one anchor with its row's place and data and, for a belt, its pool and first field as an upkeep from that field leaves it; rocks stay of their belts' ore and on live anchors |
| SceneLoader.LoadedBeltIsMaterialized | GameLogic/SceneSystem.h:166-174 | A belt loaded where no rock lies starts with exactly a first field, so what is said of first fields holds of it |
| SceneLoader.LoadScenes | Server/WorldBuilder.cpp:95-125 | Every enabled row, in order, ends with an anchor of its own that is as its row was loaded, untouched by the rows after it |
| SceneLoader.RestartExactly | Server/WorldBuilder.cpp:95-125 | Load the scenes, let the belts run, save their pools and load again: a belt's pool comes back as it was if and only if it had not been mined dry or has no baseline |
| SceneSystem.SceneWorld.StepSceneRegen | GameLogic/SceneSystem.h:198-212 | Every due pool moves one step towards its baseline, no other pool and no hold, order or old rock changes |
| RegenStagger.DueInEveryBlock | GameLogic/SceneSystem.h:202-204 | Each belt is due at least once in every aligned block of 512 ticks, for every id |
| RegenStagger.DueAtMostTwice | GameLogic/SceneSystem.h:202-204 | And at most twice |
| RegenPhase.PhaseExactly | GameLogic/SceneSystem.h:195-204 | A belt regenerates on a phase of its own within the interval, or even just one interval after each of its steps, if and only if its id is below 4 |
| RegenPhase.FirstBeltsOnPhase | GameLogic/SceneSystem.h:202-204 | Belts 0 to 3 are due exactly at the ticks that are their id modulo 300 |
| RegenStagger.StaggerIsNotPeriodic | GameLogic/SceneSystem.h:202-204 | The first belt without a phase, belt 4: it steps at ticks 4 and 296, not at 304 |
| MiningTicks.PoolRecovers | GameLogic/SceneSystem.h:198-212 | In any run whose regeneration steps carry consecutive ticks, the pool of a belt no unit draws on is exactly what its regeneration clock makes of the initial units |
| MiningTicks.BeltRecovers | GameLogic/SceneSystem.h:198-212 | So it is at its baseline once the run has seen (missing / 2, rounded up, plus one) times 512 regeneration steps, from whatever tick they start |
| MiningSystem.NearestRock | GameLogic/MiningSystem.h:76-98 | A live rock of the belt at least Chebyshev distance, or none only if there is none; for a standalone rock that rock itself |
| MiningSystem.Retarget | GameLogic/MiningSystem.h:152-182 | Keeps a live cached rock; otherwise takes the nearest, first refilling a belt that has none but has ore in its pool |
| MiningSystem.RetargetFindsOwn | GameLogic/MiningSystem.h:152-182 | A rock found that way carries the belt's own ore |
| MiningSystem.YieldOf | GameLogic/MiningSystem.h:221-230 | The clamps of one cycle, in the source's order |
| MiningSystem.CutRock | GameLogic/MiningSystem.h:184-250 | In place: hold station, fly, charge or extract, exactly as specified |
| MiningSystem.CutDrainsRock | GameLogic/MiningSystem.h:233-245 | The rock loses exactly what the event says and is destroyed exactly when nothing is left; no other rock changes |
| MiningSystem.CutOk | GameLogic/MiningSystem.h:213-249 | Hold and pool move by exactly the event's units, pools and rocks stay non-negative, no hold is overfilled |
| MiningSystem.MineTurn | GameLogic/MiningSystem.h:111-250 | One unit's whole turn, in place: one of the outcomes the turn relation allows, and hold and pool move by its event and nothing else |
| MiningSystem.MayTurnOk | GameLogic/MiningSystem.h:111-250 | Every turn that relation allows keeps the field sound and moves hold and pool by its event alone |
| MiningSystem.TurnOreExactly | GameLogic/MiningSystem.h:145-152 | What a unit extracts is the ordered belt's own ore if and only if it did not begin the turn with a cached rock that is live but of another ore |
| MiningTicks.StepMining | GameLogic/MiningSystem.h:106-257 | A whole tick of any number of units is a run of the ledger: one turn each, in order, then one refill for each spent rock's belt, in order; the events returned are the run's |
| MiningTicks.RunSchedule | Server/GameServer.cpp:817-838 | Any number of server ticks (mining, flight, the next tick's regeneration) performed in place is one run of the ledger, with the events returned and consecutive regeneration ticks, so every statement about runs holds of it |
| MiningLedger.PoolsConserved | GameLogic/MiningSystem.h:8-10 | Over any run of turns, refills, regeneration and everything else that leaves pools alone, trading, scooping and death included: initial pool + units regrown = current pool + units mined, per belt; every pool stays in 0 .. baseline |
| MiningLedger.HoldsConserved | GameLogic/MiningSystem.h:233-249 | Over runs in which only mining fills holds, each hold gains exactly its unit's events, per commodity, and none is overfilled |
| MiningLedger.OwnOreExactly | GameLogic/MiningSystem.h:233-237 | Over any run from a field whose rocks are of their belts' ore, what a belt loses is mined as its own ore if and only if no unit began a turn in which it drew on the belt with a stale rock |
| MiningLedger.OreConservedExactly | GameLogic/MiningSystem.h:233-237 | Over any run from such a field in which only mining fills holds, the sum over all holds and all pools changes by regrowth only, for every commodity and at every point of the run, if and only if every extraction is by a unit whose order resolves to a belt with a pool and that did not begin its turn with a stale rock |
| MiningLedger.CutConservesExactly | GameLogic/MiningSystem.h:233-235 | For one cut, pool and hold together keep every commodity if and only if the rock is of the belt's ore |
| StaleRocks.StaleRockMixesOres | GameLogic/MiningSystem.h:145-152 | A run that breaks it, from a field without stale rocks: a shared rock is spent, the regeneration of a belt 100000 units away reuses its slot, and the second unit flies there, charges its beam for 120 turns and brings up that belt's ore at its own belt's expense |
| TransformHistory.History.Sample | GameLogic/TransformHistory.h:87-105 | After any captures, deaths and reuses of an index: exactly the lookup in the unbounded log of that index, at min(back, count - 1) from the end |
| TransformHistory.History.Capture | GameLogic/TransformHistory.h:64-81 | Appends each tracked entity's frame to the log of its index, in order |
| TransformHistory.RecordedHolds | GameLogic/TransformHistory.h:68-79 | Overwriting the head slot keeps the ring equal to the newest 15 entries of the log |
| TransformHistory.CaptureAppends | GameLogic/TransformHistory.h:64-81 | A capture of distinct entities adds to each index its own frame and nothing to any other |
| TransformHistory.LookupIsOwn | GameLogic/TransformHistory.h:99-104 | Whatever is found was recorded for that very generation, within the last 15 captures |
| TransformHistory.RecycledIndex | GameLogic/TransformHistory.h:18-20 | A new tenant's history is found exactly as far back as it reaches; past that the old tenant's frames are refused |
| TransformHistory.LagCompExactly | GameLogic/TransformHistory.h:49-56 | With every operation rounded as IEEE 754 double precision does, for every 32-bit round trip the rewind is half of it plus one tick, to the nearest tick and capped at 14, except that 500 and 700 ms rewind one tick less |
| TransformHistory.LagCompIsBounded | GameLogic/TransformHistory.h:49-56 | With any arithmetic that stays within 1/200 tick the rewind is 1 .. 14 and is that nearest tick, capped, except at 100, 300, 500 and 700 ms, where it may be one less |
| TransformHistory.EvaluationExists | GameLogic/TransformHistory.h:49-56 | Every 32-bit round trip has such an evaluation |
| TransformHistory.MsPerTickIs | GameLogic/TransformHistory.h:38-45 | The constant the model divides by is the double nearest to 1000 / 30 |
| TransformHistory.HalfFallsShort | GameLogic/TransformHistory.h:49-56 | At 500 ms, 8.5 ticks, the doubles come to just under 9 and rewind 8 |
| TransformHistory.LagCompLands | GameLogic/TransformHistory.h:46-56 | With a full ring the rewind for any 32-bit round trip lands on the capture it names |
| SceneTemplates.MatchTemplate | GameLogic/SceneTemplates.h:100-113 | The result is in the table, matches (or is the floor), and no matching template outranks it |
| SceneTemplates.ShippedIsSound | GameLogic/SceneTemplates.h:66-95 | Over the shipped table: the floor matches every generated system, no two templates tie, and every spec has its bounds in order |
| SceneTemplates.PlaceScene | GameLogic/SceneTemplates.h:147-210 | For every seed, template, centres and avoid list all points lie in the shell of their own centre, clear of every avoid point and of each other, and carry their spec's data |
| SceneTemplates.SceneIsWellPlaced | GameLogic/SceneTemplates.h:161-208 | The same for every prefix of the recipe and every attempt cap |
| SceneTemplates.SeekFindsFirst | GameLogic/SceneTemplates.h:171-207 | A slot takes the first of its attempts that fits and is dropped only if none does; the hash stream advances by the attempts made |
| SceneTemplates.TryPlace | GameLogic/SceneTemplates.h:171-205 | The attempt loop ends where that search ends |
| SceneTemplates.IsClear | GameLogic/SceneTemplates.h:184-191 | Clear exactly when at least the separation from every prior point and every avoid point |
| SceneTemplates.CountInBounds | GameLogic/SceneTemplates.h:164-166 | The rolled count is at least countMin, and at most countMax if and only if the bounds are in order |
| SceneTemplates.SpecsContribute | GameLogic/SceneTemplates.h:161-208 | No spec contributes more points than it rolled |
| SceneTemplates.WithinCountMax | GameLogic/SceneTemplates.h:161-208 | A spec with its bounds in order places at most countMax points |
| PlanetSeed.SeedCell.Waggle | DeepspaceOutpost/planet.cpp:150-188 | The byte-wise update is the 16-bit word recurrence, and the carry flag is the carry out of the second addition |
| PlanetSeed.TwistIsBijective | DeepspaceOutpost/planet.cpp:150-188 | The galaxy step has an inverse on all seeds |
| PlanetSeed.NamePlanet | DeepspaceOutpost/planet.cpp:260-291 | Writes the name of at most 8 characters and its terminator into a 9-character buffer |
| PlanetSeed.SyllablesEmpty | DeepspaceOutpost/planet.cpp:270-289 | A planet has no name exactly when none of its digram draws is nonzero |
| PlanetSeed.ZeroSeedHasNoName | DeepspaceOutpost/planet.cpp:260-291 | Such planets exist: the all-zero seed |
| PlanetSeed.CapitaliseName | DeepspaceOutpost/planet.cpp:294-309 | First character upper, the rest lower, in place, terminator kept |
| PlanetSeed.RndStaysOk | DeepspaceOutpost/planet.cpp:99-147 | Both generators keep their state in range for ever (up to 256 in the high bytes) and return 0..255 and 0..4 |
| PlanetSeed.MsxIsWordFibonacci | DeepspaceOutpost/planet.cpp:125-147 | The MSX generator adds two 16-bit words, Fibonacci fashion |
| PlanetSeed.MsxOverflowsExactly | DeepspaceOutpost/planet.cpp:125-147 | A step of the MSX generator leaves 256 in its high byte if and only if the low bytes carry and the high bytes add up to 255 modulo 256 |
| PlanetSeed.MsxByteRangeExactly | DeepspaceOutpost/planet.cpp:125-147 | From any byte-valued seed, after any number of steps: d is 256 exactly if the last step did so, b exactly if the step before did, and otherwise all four are bytes again |
| PlanetSeed.MsxLeavesByteRange | DeepspaceOutpost/planet.cpp:125-147 | It occurs: (255, 255, 1, 0) steps to (1, 0, 0, 256) |
| PlanetDescriber.Describer.ExpandDescription | DeepspaceOutpost/planet.cpp:345-430 | The recursive expander appends exactly the specified expansion, for any rendered source text, within the buffer |
| PlanetDescriber.Describer.DescribePlanet | DeepspaceOutpost/planet.cpp:434-454 | For every planet seed in both modes the text is at most 225 characters and fits the 300-character buffer with its terminator |
| PlanetDescriber.Describer.ChooseOption | DeepspaceOutpost/planet.cpp:366-378 | The production index is always 0..4 |
| PlanetDescriber.Describer.PutPair | DeepspaceOutpost/planet.cpp:408-416 | Appends one random digram, lower-casing as the source does |
| PlanetGrammar.DescListWellFormed | DeepspaceOutpost/planet.cpp:47-85 | Every production of the shipped grammar only names symbols of lower rank and is no longer than its symbol's bound, so expansion terminates |
| PlanetLanguage.DescriptionIsASentence | DeepspaceOutpost/planet.cpp:345-454 | With a nonempty target name the text is a sentence of the grammar, derived independently of the expander |
| PlanetLanguage.NativeKeepsText | DeepspaceOutpost/planet.cpp:396-404 | %I keeps the text before it if and only if the target has a name or that text ends in the letter i; otherwise it swallows a character |
| Planets.ShippedDescriptions | DeepspaceOutpost/planet.cpp:434-454 | For the shipped grammar, every target with a name, every planet and both modes: a sentence of at most 225 characters |
| Random.Generator.RandInt | DeepspaceOutpost/random.cpp:22-34 | For every 32-bit seed the result is 16807 * seed mod 2^31 - 1, with every intermediate in 32-bit range |
| Random.SchrageStep | DeepspaceOutpost/random.cpp:25-31 | Schrage's split equals the product minus a multiple of the modulus and stays within it |
| Random.HealthyExactly | DeepspaceOutpost/random.cpp:22-34 | The next state is in 1 .. 2^31-2 exactly when the seed is not a multiple of the modulus; otherwise it is 0 |
| Random.Bijection | DeepspaceOutpost/random.cpp:14-34 | The step is a bijection on 1 .. 2^31-2 with multiplier 1407677000 as inverse |
| Random.RunClosedForm | DeepspaceOutpost/random.cpp:22-34 | After n steps the state is 16807^n * seed mod 2^31 - 1 |

## Left out

- Rendering, HUD, windows, input polling, sockets, message encoding, reliable channels and snapshot streams: presentation or plumbing.
- Steering, flight, AI, missiles and `ResolvePlayerFire`: floating point whose rounding is the point. In `MiningSystem` positions change arbitrarily between ticks, and `FlightIntent` and the rocks' drift are not modelled.
- Hyperspace fuel, market generation, equipment purchases, wanted decay, despawn diffs, name and chat sanitising: single-step facts.
- Fixed-width overflow of ids, ticks and credits: unbounded integers, as said above. The `int` cast in `CellsForRange` is therefore exact for every range.
- Candidate-pair metrics, scratch storage, spawn positions, scores, round-trip times and the chat field of a session: no modelled rule reads them.
- `SafeParkSilent`, `Broadcast`, `ApplyName` and roster building: they read the table or write one field.
- Removal and movement of grid entries: every modelled system rebuilds its grid each tick.
- Strength of the hash as a hash and unpredictability of tokens: assumptions, not claims.
- `OwnershipIndex::Remove`: none of the modelled entry points calls it.
- In the combat, loot and mining models the component pools are maps keyed by slot; only the session and history models carry generations. Belt anchors are never destroyed in `MiningLedger` runs, and rocks may only be moved there as far as they keep their belt's ore.
- MiningLedger.PoolsConserved: counts units per belt for every kind of Mine order, but a unit ordered onto a specific rock whose belt cannot be resolved drains that rock alone, so such units draw from no pool; after that rock dies its order completes.
- MiningTicks.RunSchedule: between mining and regeneration a tick only moves ships and rocks; orders given, docking and everything else the server does there is the ledger's step that leaves pools alone.
- MiningLedger.HoldsConserved: its runs, and those of `OreConservedExactly`, exclude trading, scooping and death, which change holds by their own rules in their own modules.
- TransformHistory.LagCompExactly: other rounding modes and extended precision are not modelled.
- SceneLoader.MaterializeScenePoi: the scene index, the visible beacon type and the encounter definition are not modelled; a row's commodity is one of the seventeen, and its system and kind beyond "belt or not" are left out.
- PlanetDescriber.Describer.ExpandDescription: takes the source text with its parsed form, so text outside the grammar's markup (an unclosed `<`, a `%` with another letter) is not covered.
- SceneTemplates.PlaceScene: takes the scene seed as given instead of deriving it from galaxy seed and system id, which is one more application of the arbitrary hash.
- `describe_inhabitants`, `find_planet`, `find_planet_number` and `generate_planet_data`: direct computations on a seed.
