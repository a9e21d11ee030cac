// The connection table of ServerSessions.h as a state machine: what each entry point does
// to the session table, the token index, the rate budgets, the ownership index and the
// entity world.
module SessionModel {
  import opened Ecs
  import opened RateLimiter
  import Decimal
  import Names

  const MAX_INPUTS_PER_TICK: nat := 8
  const DEFAULT_TOKEN_BASE: nat := 0xA5A5_A5A5_0000_0000
  const FALLBACK_TOKENS: nat := 0x1_0000_0000     // fallback tokens share their high 32 bits

  // ---------------------------------------------------------------------------
  // Endpoints
  // ---------------------------------------------------------------------------

  type Address = x: nat | x < 0x1_0000_0000
  type Port = x: nat | x < 0x1_0000

  datatype Endpoint = Endpoint(address: Address, port: Port)

  // (address << 16) | port
  function EndpointKey(ep: Endpoint): nat {
    ep.address * 0x1_0000 + ep.port
  }

  lemma EndpointKeyInjective(a: Endpoint, b: Endpoint)
    requires EndpointKey(a) == EndpointKey(b)
    ensures a == b
  {
  }

  // ---------------------------------------------------------------------------
  // State
  // ---------------------------------------------------------------------------

  type Payload = seq<nat>

  datatype Message = HelloReject | HelloAck(token: nat, playerId: nat, entityIndex: nat)

  datatype Session = Session(
    endpoint: Endpoint,
    entity: Option<EntityId>,
    name: string,
    token: nat,
    playerId: nat,
    lastInputSeq: nat,
    lastSeenTick: nat,
    inputWindowTick: nat,
    inputsThisWindow: nat,
    ackedSnapshotTick: nat,
    loading: bool,
    inbox: seq<Payload>,
    outbox: seq<Message>)
  {
    predicate Live() {
      entity.Some?
    }
  }

  // A value-initialised Session.
  const EmptySession := Session(Endpoint(0, 0), None, "", 0, 0, 0, 0, 0, 0, 0, false, [], [])

  datatype Server = Server(
    sessions: map<nat, Session>,
    byToken: map<nat, nat>,
    rate: map<nat, RateInfo>,
    owned: map<nat, seq<EntityId>>,
    world: World,
    nextPlayerId: nat,
    tokenCounter: nat)

  const EmptyServer := Server(map[], map[], map[], map[], World({}, {}, map[]), 1, 0)

  ghost predicate ValidEntity(s: Server, e: Option<EntityId>) {
    e.Some? && e.value in s.world.live
  }

  // ---------------------------------------------------------------------------
  // Authentication and input
  // ---------------------------------------------------------------------------

  // Authenticate, with both of its index-healing branches. The second component is the
  // key of the authenticated session.
  function Authenticate(s: Server, ep: Endpoint, token: nat, tick: nat): (Server, Option<nat>) {
    if token == 0 || token !in s.byToken then (s, None)
    else
      var newKey := EndpointKey(ep);
      var oldKey := s.byToken[token];
      if oldKey != newKey then
        if newKey in s.sessions then (s, None)
        else if oldKey !in s.sessions then (s.(byToken := s.byToken - {token}), None)
        else
          var moved := s.sessions[oldKey].(endpoint := ep, lastSeenTick := tick);
          (s.(sessions := (s.sessions - {oldKey})[newKey := moved], byToken := s.byToken[token := newKey]), Some(newKey))
      else if newKey !in s.sessions then (s.(byToken := s.byToken - {token}), None)
      else
        (s.(sessions := s.sessions[newKey := s.sessions[newKey].(lastSeenTick := tick)]), Some(newKey))
  }

  // The part of OnInput after authentication: the cadence cap and the latest-wins rule.
  function ApplyInput(se: Session, sequence: nat, ack: nat, tick: nat): (Session, bool) {
    var w := if tick != se.inputWindowTick then se.(inputWindowTick := tick, inputsThisWindow := 0) else se;
    if w.inputsThisWindow >= MAX_INPUTS_PER_TICK then (w, false)
    else
      var c := w.(inputsThisWindow := w.inputsThisWindow + 1);
      (if sequence > c.lastInputSeq then c.(lastInputSeq := sequence, ackedSnapshotTick := ack) else c, true)
  }

  ghost function OnInput(s: Server, ep: Endpoint, token: nat, sequence: nat, ack: nat, tick: nat)
    : (r: (Server, Option<EntityId>))
  {
    var (a, key) := Authenticate(s, ep, token, tick);
    if key.None? || key.value !in a.sessions || !ValidEntity(a, a.sessions[key.value].entity) then (a, None)
    else
      var (se, accepted) := ApplyInput(a.sessions[key.value], sequence, ack, tick);
      (a.(sessions := a.sessions[key.value := se]), if accepted then se.entity else None)
  }

  // m_rate[EndpointKey(ep)], charged with one datagram.
  function RateLimited(s: Server, key: nat, tick: nat): (Server, bool)
    requires RateEntry(s.rate, key).Info().windowStart <= tick
  {
    var (ri, drop) := Charge(RateEntry(s.rate, key).Info(), tick);
    (s.(rate := s.rate[key := ri]), drop)
  }

  function RateEntry(rate: map<nat, RateInfo>, key: nat): Entry {
    if key in rate then Present(rate[key]) else Absent
  }

  function Lookup(s: Server, key: nat): Session {
    if key in s.sessions then s.sessions[key] else EmptySession
  }

  function OnReliable(s: Server, ep: Endpoint, token: nat, payload: Payload, tick: nat): Server
    requires RateEntry(s.rate, EndpointKey(ep)).Info().windowStart <= tick
  {
    var key := EndpointKey(ep);
    if token == 0 then
      var (r, drop) := RateLimited(s, key, tick);
      if drop then r
      else if key in r.sessions && r.sessions[key].Live() then r
      else
        var se := Lookup(r, key);
        r.(sessions := r.sessions[key := se.(endpoint := ep, lastSeenTick := tick, inbox := se.inbox + [payload])])
    else
      var (a, found) := Authenticate(s, ep, token, tick);
      if found.None? || found.value !in a.sessions then a
      else
        var se := a.sessions[found.value];
        a.(sessions := a.sessions[found.value := se.(inbox := se.inbox + [payload])])
  }

  // ---------------------------------------------------------------------------
  // Hello, deferred spawn, ownership
  // ---------------------------------------------------------------------------

  // NextToken, given what the injected source returned (0 when unset).
  function NextToken(counter: nat, source: nat): (nat, nat) {
    if source != 0 then (source, counter) else (DEFAULT_TOKEN_BASE + counter + 1, counter + 1)
  }

  // OwnershipIndex::Add
  function AddOwned(owned: map<nat, seq<EntityId>>, playerId: nat, e: EntityId): map<nat, seq<EntityId>> {
    if playerId == 0 then owned
    else
      var mine := if playerId in owned then owned[playerId] else [];
      owned[playerId := if e in mine then mine else mine + [e]]
  }

  ghost function OthersNames(sessions: map<nat, Session>, selfKey: nat): set<string> {
    set k | k in sessions && k != selfKey :: sessions[k].name
  }

  ghost function UniqueName(s: Server, base: string, selfKey: nat): string {
    Names.FirstFree(base, OthersNames(s.sessions, selfKey), 1)
  }

  datatype HelloResult = Rejected | Accepted | Resumed | Loading
  datatype HelloOutcome = HelloOutcome(result: HelloResult, entity: Option<EntityId>, nameChanged: bool)

  // A ClientHello after decoding: whether its version matches, its sanitised name.
  datatype Hello = Hello(versionOk: bool, name: string)

  // The accept path shared by OnHello and SpawnLoaded for the session `se` at `key`: new
  // player id, spawned and owned entity `spawned`, name, token, HelloAck.
  ghost function Accept(s: Server, key: nat, se: Session, cleanName: string, source: nat, spawned: EntityId): Server {
    var pid := s.nextPlayerId;
    var (token, counter) := NextToken(s.tokenCounter, source);
    var name := if cleanName == "" then "Commander-" + Decimal.ToString(spawned.index) else UniqueName(s, cleanName, key);
    var live := se.(playerId := pid, entity := Some(spawned), name := name, token := token,
                    outbox := se.outbox + [HelloAck(token, pid, spawned.index)]);
    var created := Created(s.world, spawned);
    s.(sessions := s.sessions[key := live], byToken := s.byToken[token := key],
       owned := AddOwned(s.owned, pid, spawned),
       world := created.(owner := created.owner[spawned.index := pid]),
       nextPlayerId := pid + 1, tokenCounter := counter)
  }

  ghost function OnHello(s: Server, ep: Endpoint, hello: Hello, tick: nat, deferSpawn: bool,
                         source: nat, spawned: EntityId): (Server, HelloOutcome)
  {
    var key := EndpointKey(ep);
    var se := Lookup(s, key).(endpoint := ep, lastSeenTick := tick);
    if !hello.versionOk then
      (s.(sessions := s.sessions[key := se.(outbox := se.outbox + [HelloReject])]), HelloOutcome(Rejected, None, false))
    else if se.Live() then
      var name := if hello.name == "" then se.name else UniqueName(s, hello.name, key);
      var acked := se.(name := name, outbox := se.outbox + [HelloAck(se.token, se.playerId, se.entity.value.index)]);
      (s.(sessions := s.sessions[key := acked]), HelloOutcome(Resumed, se.entity, name != se.name))
    else if deferSpawn then
      (s.(sessions := s.sessions[key := se.(loading := true, name := hello.name)]), HelloOutcome(Loading, None, false))
    else
      (Accept(s, key, se, hello.name, source, spawned), HelloOutcome(Accepted, Some(spawned), true))
  }

  ghost function SpawnLoaded(s: Server, ep: Endpoint, tick: nat, source: nat, spawned: EntityId)
    : (Server, Option<EntityId>)
  {
    var key := EndpointKey(ep);
    if key !in s.sessions || !s.sessions[key].loading then (s, None)
    else
      var se := s.sessions[key].(loading := false, lastSeenTick := tick);
      (Accept(s, key, se, se.name, source, spawned), Some(spawned))
  }

  ghost function GrantOwnership(s: Server, playerId: nat, e: EntityId): Server {
    if playerId == 0 || e !in s.world.live then s
    else s.(world := s.world.(owner := s.world.owner[e.index := playerId]), owned := AddOwned(s.owned, playerId, e))
  }

  // ---------------------------------------------------------------------------
  // Reap
  // ---------------------------------------------------------------------------

  predicate Expired(se: Session, tick: nat, shellTicks: nat, graceTicks: nat)
    requires se.lastSeenTick <= tick
  {
    tick - se.lastSeenTick > if se.Live() || se.loading then graceTicks else shellTicks
  }

  ghost predicate SeenBy(s: Server, now: nat) {
    && (forall k :: k in s.sessions ==> s.sessions[k].lastSeenTick <= now)
    && (forall k :: k in s.rate ==> s.rate[k].windowStart <= now)
  }

  ghost function ExpiredKeys(s: Server, tick: nat, shellTicks: nat, graceTicks: nat): set<nat>
    requires SeenBy(s, tick)
  {
    set k | k in s.sessions && Expired(s.sessions[k], tick, shellTicks, graceTicks)
  }

  ghost function OwnedBy(s: Server, playerId: nat): seq<EntityId> {
    if playerId in s.owned then s.owned[playerId] else []
  }

  // Everything one session takes with it: all its player owns, and its primary entity.
  ghost function Belongings(s: Server, se: Session): set<EntityId> {
    (if se.playerId != 0 then set e | e in OwnedBy(s, se.playerId) else {})
    + (if se.entity.Some? then {se.entity.value} else {})
  }

  ghost function AllBelongings(s: Server, keys: set<nat>): set<EntityId>
    requires keys <= s.sessions.Keys
  {
    set k, e | k in keys && e in Belongings(s, s.sessions[k]) :: e
  }

  // One erased session.
  ghost function Drop(s: Server, key: nat): Server
    requires key in s.sessions
  {
    var se := s.sessions[key];
    s.(sessions := s.sessions - {key},
       byToken := if se.token != 0 then s.byToken - {se.token} else s.byToken,
       owned := if se.playerId != 0 then s.owned - {se.playerId} else s.owned,
       world := Destroyed(s.world, Belongings(s, se)))
  }

  // The whole call, as one simultaneous step.
  ghost function Reap(s: Server, tick: nat, shellTicks: nat, graceTicks: nat): Server
    requires SeenBy(s, tick)
  {
    var gone := ExpiredKeys(s, tick, shellTicks, graceTicks);
    s.(sessions := s.sessions - gone,
       byToken := s.byToken - (set k | k in gone && s.sessions[k].token != 0 :: s.sessions[k].token),
       owned := s.owned - (set k | k in gone && s.sessions[k].playerId != 0 :: s.sessions[k].playerId),
       world := Destroyed(s.world, AllBelongings(s, gone)),
       rate := FreshRates(s.rate, tick, shellTicks))
  }

  ghost function FreshRates(rate: map<nat, RateInfo>, tick: nat, shellTicks: nat): map<nat, RateInfo>
    requires forall k :: k in rate ==> rate[k].windowStart <= tick
  {
    map k | k in rate && !Stale(rate[k], tick, shellTicks) :: rate[k]
  }

  // ---------------------------------------------------------------------------
  // Runs
  // ---------------------------------------------------------------------------

  datatype Event =
    | Input(ep: Endpoint, token: nat, sequence: nat, ack: nat)
    | Reliable(ep: Endpoint, token: nat, payload: Payload)
    | ClientHello(ep: Endpoint, hello: Hello, source: nat, spawned: EntityId)
    | LoadDone(ep: Endpoint, source: nat, spawned: EntityId)
    | ReapAll(shellTicks: nat, graceTicks: nat)
    | Grant(playerId: nat, entity: EntityId)
    | OtherSpawn(spawned: EntityId)       // NPCs, canisters, ...
    | OtherDestroy(entity: EntityId)    // combat, collisions, ...

  ghost function Apply(s: Server, deferSpawn: bool, ev: Event, tick: nat): Server
    requires SeenBy(s, tick)
  {
    match ev
    case Input(ep, token, sequence, ack) => OnInput(s, ep, token, sequence, ack, tick).0
    case Reliable(ep, token, payload) => OnReliable(s, ep, token, payload, tick)
    case ClientHello(ep, hello, source, spawned) => OnHello(s, ep, hello, tick, deferSpawn, source, spawned).0
    case LoadDone(ep, source, spawned) => SpawnLoaded(s, ep, tick, source, spawned).0
    case ReapAll(shellTicks, graceTicks) => Reap(s, tick, shellTicks, graceTicks)
    case Grant(playerId, e) => GrantOwnership(s, playerId, e)
    case OtherSpawn(spawned) => s.(world := Created(s.world, spawned))
    case OtherDestroy(e) => s.(world := Destroyed(s.world, {e}))
  }

  // What the surroundings guarantee: the registry hands out fresh handles; a token from the
  // injected source is not in use and is not one the fallback counter has yet to hand out;
  // and fewer than 2^32 fallback tokens are ever minted. Nothing else is assumed of the
  // fallback.
  ghost predicate Allowed(s: Server, ev: Event) {
    match ev
    case ClientHello(_, _, source, spawned) => FreshHandle(s.world, spawned) && FreshSource(s, source)
    case LoadDone(_, source, spawned) => FreshHandle(s.world, spawned) && FreshSource(s, source)
    case OtherSpawn(spawned) => FreshHandle(s.world, spawned)
    case _ => true
  }

  ghost predicate FreshSource(s: Server, source: nat) {
    if source != 0 then source !in s.byToken && !Reserved(source, s.tokenCounter)
    else s.tokenCounter + 1 < FALLBACK_TOKENS
  }

  // A token the fallback counter may still hand out.
  predicate Reserved(token: nat, counter: nat) {
    DEFAULT_TOKEN_BASE + counter < token < DEFAULT_TOKEN_BASE + FALLBACK_TOKENS
  }
}
