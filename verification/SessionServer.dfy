// A server that carries out one command after another in place: whatever it is sent, what
// happens to it is a run of SessionModel, so everything said about runs holds of it.
module SessionServer {
  import opened Ecs
  import opened SessionModel
  import opened SessionInvariant
  import opened ServerSessionsClass

  // What the rest of the server program may call. Unlike an event, a command does not say
  // which handle the registry will spawn.
  datatype Command =
    | TakeInput(ep: Endpoint, token: nat, sequence: nat, ack: nat)
    | TakeReliable(ep: Endpoint, token: nat, payload: Payload)
    | TakeHello(ep: Endpoint, hello: Hello, source: nat)
    | FinishLoad(ep: Endpoint, source: nat)
    | ReapNow(shellTicks: nat, graceTicks: nat)
    | GrantTo(playerId: nat, entity: EntityId)
    | Spawn
    | Despawn(entity: EntityId)

  ghost predicate Performs(c: Command, ev: Event) {
    match c
    case TakeInput(ep, token, sequence, ack) => ev == Input(ep, token, sequence, ack)
    case TakeReliable(ep, token, payload) => ev == Reliable(ep, token, payload)
    case TakeHello(ep, hello, source) => ev.ClientHello? && ev == ClientHello(ep, hello, source, ev.spawned)
    case FinishLoad(ep, source) => ev.LoadDone? && ev == LoadDone(ep, source, ev.spawned)
    case ReapNow(shellTicks, graceTicks) => ev == ReapAll(shellTicks, graceTicks)
    case GrantTo(playerId, entity) => ev == Grant(playerId, entity)
    case Spawn => ev.OtherSpawn?
    case Despawn(entity) => ev == OtherDestroy(entity)
  }

  datatype Order = Order(tick: nat, command: Command)

  // ---------------------------------------------------------------------------
  // Token sources
  // ---------------------------------------------------------------------------

  // What the token source returns for a command; 0 where it is not asked or not set.
  function SourceOf(c: Command): nat {
    if c.TakeHello? || c.FinishLoad? then c.source else 0
  }

  predicate FallbackToken(t: nat) {
    DEFAULT_TOKEN_BASE < t < DEFAULT_TOKEN_BASE + FALLBACK_TOKENS
  }

  // The source never repeats itself, and never returns one of the fallback's tokens.
  ghost predicate SourcesDistinct(orders: seq<Order>) {
    && (forall i :: 0 <= i < |orders| ==> !FallbackToken(SourceOf(orders[i].command)))
    && (forall i, j :: 0 <= i < j < |orders| && SourceOf(orders[i].command) != 0 ==>
          SourceOf(orders[i].command) != SourceOf(orders[j].command))
  }

  // Every token in use came from the first n orders' sources or from the fallback.
  ghost predicate TokensFrom(s: Server, orders: seq<Order>, n: nat)
    requires n <= |orders|
  {
    s.tokenCounter <= n && forall t :: t in s.byToken ==> FallbackToken(t) || Sourced(orders, n, t)
  }

  ghost predicate Sourced(orders: seq<Order>, n: nat, t: nat)
    requires n <= |orders|
  {
    t != 0 && exists i :: 0 <= i < n && SourceOf(orders[i].command) == t
  }

  lemma NextSourceIsFresh(s: Server, orders: seq<Order>, n: nat)
    requires n < |orders| && SourcesDistinct(orders) && TokensFrom(s, orders, n) && |orders| < FALLBACK_TOKENS
    ensures FreshSource(s, SourceOf(orders[n].command))
  {
    var source := SourceOf(orders[n].command);
    if source != 0 {
      assert !Sourced(orders, n, source);
    }
  }

  lemma AuthenticateMintsNothing(s: Server, deferSpawn: bool, now: nat, ep: Endpoint, token: nat, tick: nat)
    requires Inv(s, deferSpawn, now)
    ensures var a := Authenticate(s, ep, token, tick).0;
            a.byToken.Keys == s.byToken.Keys && a.tokenCounter == s.tokenCounter
  {
    AuthenticateNeverHeals(s, deferSpawn, now, ep, token);
  }

  lemma InputMintsNothing(s: Server, deferSpawn: bool, now: nat, ep: Endpoint, token: nat, sequence: nat, ack: nat, tick: nat)
    requires Inv(s, deferSpawn, now)
    ensures var r := OnInput(s, ep, token, sequence, ack, tick).0;
            r.byToken.Keys == s.byToken.Keys && r.tokenCounter == s.tokenCounter
  {
    AuthenticateMintsNothing(s, deferSpawn, now, ep, token, tick);
    var a, key, r := InputTouchesOne(s, ep, token, sequence, ack, tick);
  }

  lemma ReliableMintsNothing(s: Server, deferSpawn: bool, now: nat, ep: Endpoint, token: nat, payload: Payload, tick: nat)
    requires Inv(s, deferSpawn, now) && SeenBy(s, tick)
    ensures var r := OnReliable(s, ep, token, payload, tick);
            r.byToken.Keys == s.byToken.Keys && r.tokenCounter == s.tokenCounter
  {
    if token != 0 {
      AuthenticateMintsNothing(s, deferSpawn, now, ep, token, tick);
    }
  }

  // At most one token is minted per command: the source's, or the fallback's next.
  ghost predicate MintsAtMost(s: Server, s': Server, source: nat) {
    && s'.tokenCounter <= s.tokenCounter + 1
    && forall t :: t in s'.byToken && t !in s.byToken ==> t == NextToken(s.tokenCounter, source).0
  }

  lemma HelloMints(s: Server, ep: Endpoint, hello: Hello, now: nat, deferSpawn: bool, source: nat, spawned: EntityId)
    ensures MintsAtMost(s, OnHello(s, ep, hello, now, deferSpawn, source, spawned).0, source)
  {
  }

  lemma ReapMintsNothing(s: Server, now: nat, shellTicks: nat, graceTicks: nat)
    requires SeenBy(s, now)
    ensures var r := Reap(s, now, shellTicks, graceTicks);
            r.byToken.Keys <= s.byToken.Keys && r.tokenCounter == s.tokenCounter
  {
  }

  lemma StepMints(s: Server, deferSpawn: bool, before: nat, now: nat, c: Command, ev: Event)
    requires Inv(s, deferSpawn, before) && SeenBy(s, now) && Performs(c, ev)
    ensures MintsAtMost(s, Apply(s, deferSpawn, ev, now), SourceOf(c))
  {
    match ev
    case Input(ep, token, sequence, ack) => InputMintsNothing(s, deferSpawn, before, ep, token, sequence, ack, now);
    case Reliable(ep, token, payload) => ReliableMintsNothing(s, deferSpawn, before, ep, token, payload, now);
    case ClientHello(ep, hello, source, spawned) => HelloMints(s, ep, hello, now, deferSpawn, source, spawned);
    case LoadDone(ep, source, spawned) =>
    case ReapAll(shellTicks, graceTicks) => ReapMintsNothing(s, now, shellTicks, graceTicks);
    case Grant(_, _) =>
    case OtherSpawn(_) =>
    case OtherDestroy(_) =>
  }

  lemma TokensAfter(s: Server, s': Server, orders: seq<Order>, n: nat)
    requires n < |orders| && TokensFrom(s, orders, n) && |orders| < FALLBACK_TOKENS
    requires MintsAtMost(s, s', SourceOf(orders[n].command))
    ensures TokensFrom(s', orders, n + 1)
  {
    forall t | t in s'.byToken && !FallbackToken(t)
      ensures Sourced(orders, n + 1, t)
    {
      if t in s.byToken {
        assert Sourced(orders, n, t);
      } else {
        assert SourceOf(orders[n].command) == t;
      }
    }
  }

  // ---------------------------------------------------------------------------
  // Handles
  // ---------------------------------------------------------------------------

  lemma {:induction false} SlotAbove(es: set<EntityId>) returns (n: nat)
    ensures forall e :: e in es ==> e.index < n
    decreases |es|
  {
    n := 0;
    if es != {} {
      var e :| e in es;
      var m := SlotAbove(es - {e});
      n := if m <= e.index then e.index + 1 else m;
      forall d | d in es
        ensures d.index < n
      {
        assert d == e || d in es - {e};
      }
    }
  }

  lemma FreshHandleExists(w: World) returns (e: EntityId)
    requires w.live <= w.issued
    ensures FreshHandle(w, e)
  {
    var n := SlotAbove(w.issued);
    e := EntityId(n, 0);
  }

  lemma UnusedHandle(s: Server, ep: Endpoint, hello: Hello, tick: nat, deferSpawn: bool, source: nat, e: EntityId, d: EntityId)
    requires OnHello(s, ep, hello, tick, deferSpawn, source, e).1.result != Accepted
    ensures OnHello(s, ep, hello, tick, deferSpawn, source, d) == OnHello(s, ep, hello, tick, deferSpawn, source, e)
  {
  }

  // ---------------------------------------------------------------------------
  // Carrying out commands
  // ---------------------------------------------------------------------------

  // `ev` is what happened to the server, from s on.
  ghost predicate Happened(s: Server, s': Server, deferSpawn: bool, tick: nat, c: Command, ev: Event) {
    SeenBy(s, tick) && Allowed(s, ev) && s' == Apply(s, deferSpawn, ev, tick) && Performs(c, ev)
  }

  lemma StillSeen(s: Server, deferSpawn: bool, before: nat, now: nat)
    requires Inv(s, deferSpawn, before) && before <= now
    ensures SeenBy(s, now) && s.nextPlayerId != 0 && s.world.live <= s.world.issued
    ensures forall key: nat :: RateEntry(s.rate, key).Info().windowStart <= now
  {
  }

  method Greet(server: ServerSessions, world: Registry, c: Command, tick: nat, deferSpawn: bool, ghost before: nat)
    returns (ghost ev: Event)
    requires c.TakeHello? && world.Valid() && Inv(server.View(world), deferSpawn, before) && before <= tick
    requires FreshSource(server.View(world), c.source)
    modifies server, world
    ensures world.Valid() && Happened(old(server.View(world)), server.View(world), deferSpawn, tick, c, ev)
  {
    ghost var s := server.View(world);
    StillSeen(s, deferSpawn, before, tick);
    ghost var spare := FreshHandleExists(s.world);
    var outcome := server.OnHello(world, c.ep, c.hello, tick, deferSpawn, c.source);
    if outcome.result == Accepted {
      ev := ClientHello(c.ep, c.hello, c.source, outcome.entity.value);
    } else {
      UnusedHandle(s, c.ep, c.hello, tick, deferSpawn, c.source, EntityId(0, 0), spare);
      ev := ClientHello(c.ep, c.hello, c.source, spare);
    }
  }

  method Finish(server: ServerSessions, world: Registry, c: Command, tick: nat, deferSpawn: bool, ghost before: nat)
    returns (ghost ev: Event)
    requires c.FinishLoad? && world.Valid() && Inv(server.View(world), deferSpawn, before) && before <= tick
    requires FreshSource(server.View(world), c.source)
    modifies server, world
    ensures world.Valid() && Happened(old(server.View(world)), server.View(world), deferSpawn, tick, c, ev)
  {
    ghost var s := server.View(world);
    StillSeen(s, deferSpawn, before, tick);
    ghost var spare := FreshHandleExists(s.world);
    var entity := server.SpawnLoaded(world, c.ep, tick, c.source);
    ev := LoadDone(c.ep, c.source, if entity.Some? then entity.value else spare);
  }

  method CarryOut(server: ServerSessions, world: Registry, c: Command, tick: nat, deferSpawn: bool, ghost before: nat)
    returns (ghost ev: Event)
    requires world.Valid() && Inv(server.View(world), deferSpawn, before) && before <= tick
    requires FreshSource(server.View(world), SourceOf(c))
    modifies server, world
    ensures world.Valid() && Happened(old(server.View(world)), server.View(world), deferSpawn, tick, c, ev)
  {
    StillSeen(server.View(world), deferSpawn, before, tick);
    match c
    case TakeInput(ep, token, sequence, ack) =>
      var _ := server.OnInput(world, ep, token, sequence, ack, tick);
      ev := Input(ep, token, sequence, ack);
    case TakeReliable(ep, token, payload) =>
      server.OnReliable(ep, token, payload, tick, world);
      ev := Reliable(ep, token, payload);
    case TakeHello(_, _, _) => ev := Greet(server, world, c, tick, deferSpawn, before);
    case FinishLoad(_, _) => ev := Finish(server, world, c, tick, deferSpawn, before);
    case ReapNow(shellTicks, graceTicks) =>
      var _ := server.Reap(world, tick, shellTicks, graceTicks, deferSpawn, before);
      ev := ReapAll(shellTicks, graceTicks);
    case GrantTo(playerId, entity) =>
      server.GrantOwnership(world, playerId, entity);
      ev := Grant(playerId, entity);
    case Spawn =>
      var e := world.Create();
      ev := OtherSpawn(e);
    case Despawn(entity) =>
      world.Destroy(entity);
      ev := OtherDestroy(entity);
  }

  ghost predicate TicksInOrder(orders: seq<Order>) {
    forall i, j :: 0 <= i <= j < |orders| ==> orders[i].tick <= orders[j].tick
  }

  // The events are what the first n orders did.
  ghost predicate Served(orders: seq<Order>, n: nat, states: seq<Server>, events: seq<Timed>, deferSpawn: bool)
    requires n <= |orders|
  {
    && IsRun(states, events, deferSpawn) && |events| == n
    && forall i :: 0 <= i < n ==> events[i].tick == orders[i].tick && Performs(orders[i].command, events[i].ev)
  }

  lemma ServedNext(orders: seq<Order>, n: nat, states: seq<Server>, events: seq<Timed>, deferSpawn: bool, s': Server, ev: Event)
    returns (states': seq<Server>, events': seq<Timed>)
    requires n < |orders| && Served(orders, n, states, events, deferSpawn) && TicksInOrder(orders)
    requires Happened(states[n], s', deferSpawn, orders[n].tick, orders[n].command, ev)
    ensures Served(orders, n + 1, states', events', deferSpawn) && states'[n + 1] == s'
  {
    assert n > 0 ==> events[n - 1].tick == orders[n - 1].tick;
    states', events' := RunOn(states, events, deferSpawn, ev, orders[n].tick);
  }

  method Start() returns (server: ServerSessions, world: Registry)
    ensures world.Valid() && server.View(world) == EmptyServer && fresh(server) && fresh(world)
  {
    server := new ServerSessions();
    world := new Registry();
  }

  // A fresh server, any commands at ticks that never run backwards.
  method Serve(server: ServerSessions, world: Registry, orders: seq<Order>, deferSpawn: bool)
    returns (ghost states: seq<Server>, ghost events: seq<Timed>)
    requires world.Valid() && server.View(world) == EmptyServer
    requires TicksInOrder(orders) && SourcesDistinct(orders) && |orders| < FALLBACK_TOKENS
    modifies server, world
    ensures world.Valid() && Served(orders, |orders|, states, events, deferSpawn) && states[|orders|] == server.View(world)
  {
    states, events := [EmptyServer], [];
    EmptyRun(deferSpawn);
    var i := 0;
    while i < |orders|
      invariant 0 <= i <= |orders| && world.Valid()
      invariant Served(orders, i, states, events, deferSpawn) && states[i] == server.View(world)
      invariant TokensFrom(server.View(world), orders, i)
    {
      states, events := ServeNext(server, world, orders, i, deferSpawn, states, events);
      i := i + 1;
    }
  }

  method ServeNext(server: ServerSessions, world: Registry, orders: seq<Order>, i: nat, deferSpawn: bool,
                   ghost states: seq<Server>, ghost events: seq<Timed>)
    returns (ghost states': seq<Server>, ghost events': seq<Timed>)
    requires i < |orders| && world.Valid() && TicksInOrder(orders) && SourcesDistinct(orders) && |orders| < FALLBACK_TOKENS
    requires Served(orders, i, states, events, deferSpawn) && states[i] == server.View(world)
    requires TokensFrom(server.View(world), orders, i)
    modifies server, world
    ensures world.Valid() && Served(orders, i + 1, states', events', deferSpawn) && states'[i + 1] == server.View(world)
    ensures TokensFrom(server.View(world), orders, i + 1)
  {
    ghost var s := server.View(world);
    ghost var before := TickAfter(events, i);
    RunKeepsInv(states, events, deferSpawn, i);
    assert i > 0 ==> events[i - 1].tick == orders[i - 1].tick;
    NextSourceIsFresh(s, orders, i);
    ghost var ev := CarryOut(server, world, orders[i].command, orders[i].tick, deferSpawn, before);
    StepMints(s, deferSpawn, before, orders[i].tick, orders[i].command, ev);
    TokensAfter(s, server.View(world), orders, i);
    states', events' := ServedNext(orders, i, states, events, deferSpawn, server.View(world), ev);
  }
}
