// Commander names over whole runs: when two players can end up with the same one.
module SessionNames {
  import opened Ecs
  import opened SessionModel
  import opened SessionInvariant
  import Names
  import Decimal

  // What an event does to names: nothing, a rename of a live session, or a new live session.
  datatype Change = Keep | Rename(key: nat, name: string) | Admit(key: nat, name: string, spawned: EntityId)

  function ChangeOf(s: Server, deferSpawn: bool, ev: Event): Change {
    match ev
    case ClientHello(ep, hello, _, spawned) =>
      var key := EndpointKey(ep);
      if !hello.versionOk then Keep
      else if Lookup(s, key).Live() then if hello.name == "" then Keep else Rename(key, hello.name)
      else if deferSpawn then Keep
      else Admit(key, hello.name, spawned)
    case LoadDone(ep, _, spawned) =>
      var key := EndpointKey(ep);
      if key in s.sessions && s.sessions[key].loading then Admit(key, s.sessions[key].name, spawned) else Keep
    case _ => Keep
  }

  function Placeholder(e: EntityId): string {
    "Commander-" + Decimal.ToString(e.index)
  }

  predicate LiveAt(s: Server, k: nat) {
    k in s.sessions && s.sessions[k].Live()
  }

  predicate SameName(se: Session, se': Session) {
    se'.entity == se.entity && se'.name == se.name && se'.playerId == se.playerId
  }

  ghost predicate CameFrom(s: Server, s': Server, k': nat)
    requires LiveAt(s', k')
  {
    exists k :: LiveAt(s, k) && SameName(s.sessions[k], s'.sessions[k'])
  }

  ghost predicate Changed(s: Server, s': Server, c: Change) {
    && s.nextPlayerId <= s'.nextPlayerId
    && match c
       case Keep => forall k' :: LiveAt(s', k') ==> CameFrom(s, s', k')
       case Rename(k, name) =>
         && name != "" && LiveAt(s, k) && LiveAt(s', k) && s'.sessions == s.sessions[k := s'.sessions[k]]
         && SameName(s.sessions[k].(name := UniqueName(s, name, k)), s'.sessions[k])
       case Admit(k, name, spawned) =>
         && !LiveAt(s, k) && LiveAt(s', k) && s'.sessions == s.sessions[k := s'.sessions[k]]
         && FreshHandle(s.world, spawned)
         && s'.sessions[k].entity == Some(spawned) && s'.sessions[k].playerId == s.nextPlayerId < s'.nextPlayerId
         && s'.sessions[k].name == if name == "" then Placeholder(spawned) else UniqueName(s, name, k)
  }

  // ---------------------------------------------------------------------------
  // Every event is such a change
  // ---------------------------------------------------------------------------

  lemma AuthenticateKeepsNames(s: Server, deferSpawn: bool, now: nat, ep: Endpoint, token: nat, tick: nat)
    requires Inv(s, deferSpawn, now)
    ensures Changed(s, Authenticate(s, ep, token, tick).0, Keep)
  {
    var a := Authenticate(s, ep, token, tick).0;
    forall k | LiveAt(a, k)
      ensures CameFrom(s, a, k)
    {
      if !(k in s.sessions && SameName(s.sessions[k], a.sessions[k])) {
        assert LiveAt(s, s.byToken[token]);
      }
    }
  }

  // Sessions may change anything else in place.
  lemma InPlace(s: Server, a: Server, s': Server)
    requires Changed(s, a, Keep) && a.nextPlayerId <= s'.nextPlayerId
    requires forall k :: LiveAt(s', k) ==> LiveAt(a, k) && SameName(a.sessions[k], s'.sessions[k])
    ensures Changed(s, s', Keep)
  {
    forall k | LiveAt(s', k)
      ensures CameFrom(s, s', k)
    {
      assert CameFrom(s, a, k);
    }
  }

  lemma NothingChanges(s: Server)
    ensures Changed(s, s, Keep)
  {
    forall k | LiveAt(s, k)
      ensures CameFrom(s, s, k)
    {
      assert SameName(s.sessions[k], s.sessions[k]);
    }
  }

  lemma InputKeepsNames(s: Server, deferSpawn: bool, before: nat, now: nat, ep: Endpoint, token: nat, sequence: nat, ack: nat)
    requires Inv(s, deferSpawn, before)
    ensures Changed(s, OnInput(s, ep, token, sequence, ack, now).0, Keep)
  {
    AuthenticateKeepsNames(s, deferSpawn, before, ep, token, now);
    var a, key, r := InputTouchesOne(s, ep, token, sequence, ack, now);
    forall k | LiveAt(r, k)
      ensures LiveAt(a, k) && SameName(a.sessions[k], r.sessions[k])
    {
      InputKeepsName(a.sessions[k], sequence, ack, now);
    }
    InPlace(s, a, r);
  }

  lemma InputKeepsName(se: Session, sequence: nat, ack: nat, now: nat)
    ensures SameName(se, ApplyInput(se, sequence, ack, now).0)
  {
  }

  lemma TokenlessKeepsNames(s: Server, now: nat, ep: Endpoint, payload: Payload)
    requires SeenBy(s, now)
    ensures Changed(s, OnReliable(s, ep, 0, payload, now), Keep)
  {
    NothingChanges(s);
    InPlace(s, s, OnReliable(s, ep, 0, payload, now));
  }

  lemma ReliableKeepsNames(s: Server, deferSpawn: bool, before: nat, now: nat, ep: Endpoint, token: nat, payload: Payload)
    requires Inv(s, deferSpawn, before) && SeenBy(s, now)
    ensures Changed(s, OnReliable(s, ep, token, payload, now), Keep)
  {
    if token == 0 {
      TokenlessKeepsNames(s, now, ep, payload);
    } else {
      var a := Authenticate(s, ep, token, now).0;
      AuthenticateKeepsNames(s, deferSpawn, before, ep, token, now);
      InPlace(s, a, OnReliable(s, ep, token, payload, now));
    }
  }

  lemma HelloInPlace(s: Server, deferSpawn: bool, ev: Event, tick: nat, k: nat)
    requires SeenBy(s, tick) && ev.ClientHello? && ChangeOf(s, deferSpawn, ev).Keep?
    ensures var s' := Apply(s, deferSpawn, ev, tick);
            LiveAt(s', k) ==> LiveAt(s, k) && SameName(s.sessions[k], s'.sessions[k])
  {
  }

  lemma HelloKeeps(s: Server, deferSpawn: bool, ev: Event, tick: nat)
    requires SeenBy(s, tick) && ev.ClientHello? && ChangeOf(s, deferSpawn, ev).Keep?
    ensures Changed(s, Apply(s, deferSpawn, ev, tick), Keep)
  {
    forall k: nat
      ensures var s' := Apply(s, deferSpawn, ev, tick);
              LiveAt(s', k) ==> LiveAt(s, k) && SameName(s.sessions[k], s'.sessions[k])
    {
      HelloInPlace(s, deferSpawn, ev, tick, k);
    }
    NothingChanges(s);
    InPlace(s, s, Apply(s, deferSpawn, ev, tick));
  }

  lemma HelloRenames(s: Server, deferSpawn: bool, ev: Event, tick: nat)
    requires SeenBy(s, tick) && ev.ClientHello? && ChangeOf(s, deferSpawn, ev).Rename?
    ensures Changed(s, Apply(s, deferSpawn, ev, tick), ChangeOf(s, deferSpawn, ev))
  {
  }

  lemma HelloAdmits(s: Server, deferSpawn: bool, ev: Event, tick: nat)
    requires SeenBy(s, tick) && Allowed(s, ev) && ev.ClientHello? && ChangeOf(s, deferSpawn, ev).Admit?
    ensures Changed(s, Apply(s, deferSpawn, ev, tick), ChangeOf(s, deferSpawn, ev))
  {
  }

  lemma HelloChangesNames(s: Server, deferSpawn: bool, ev: Event, tick: nat)
    requires SeenBy(s, tick) && Allowed(s, ev) && ev.ClientHello?
    ensures Changed(s, Apply(s, deferSpawn, ev, tick), ChangeOf(s, deferSpawn, ev))
  {
    match ChangeOf(s, deferSpawn, ev)
    case Keep => HelloKeeps(s, deferSpawn, ev, tick);
    case Rename(_, _) => HelloRenames(s, deferSpawn, ev, tick);
    case Admit(_, _, _) => HelloAdmits(s, deferSpawn, ev, tick);
  }

  lemma LoadChangesNames(s: Server, deferSpawn: bool, now: nat, ev: Event, tick: nat)
    requires Inv(s, deferSpawn, now) && SeenBy(s, tick) && Allowed(s, ev) && ev.LoadDone?
    ensures Changed(s, Apply(s, deferSpawn, ev, tick), ChangeOf(s, deferSpawn, ev))
  {
    if ChangeOf(s, deferSpawn, ev).Keep? {
      NothingChanges(s);
    }
  }

  lemma StepChangesNames(s: Server, deferSpawn: bool, before: nat, ev: Event, tick: nat)
    requires Inv(s, deferSpawn, before) && SeenBy(s, tick) && Allowed(s, ev)
    ensures Changed(s, Apply(s, deferSpawn, ev, tick), ChangeOf(s, deferSpawn, ev))
  {
    match ev
    case Input(ep, token, sequence, ack) => InputKeepsNames(s, deferSpawn, before, tick, ep, token, sequence, ack);
    case Reliable(ep, token, payload) => ReliableKeepsNames(s, deferSpawn, before, tick, ep, token, payload);
    case ClientHello(_, _, _, _) => HelloChangesNames(s, deferSpawn, ev, tick);
    case LoadDone(_, _, _) => LoadChangesNames(s, deferSpawn, before, ev, tick);
    case ReapAll(_, _) => NothingChanges(s); InPlace(s, s, Apply(s, deferSpawn, ev, tick));
    case Grant(_, _) => NothingChanges(s); InPlace(s, s, Apply(s, deferSpawn, ev, tick));
    case OtherSpawn(_) => NothingChanges(s); InPlace(s, s, Apply(s, deferSpawn, ev, tick));
    case OtherDestroy(_) => NothingChanges(s); InPlace(s, s, Apply(s, deferSpawn, ev, tick));
  }

  // ---------------------------------------------------------------------------
  // Shared names
  // ---------------------------------------------------------------------------

  predicate Shared(s: Server, j: nat, k: nat) {
    LiveAt(s, j) && LiveAt(s, k) && j != k && s.sessions[j].name == s.sessions[k].name
  }

  // No two live sessions share a name, players in `blank` aside.
  ghost predicate Distinct(s: Server, blank: set<nat>) {
    forall j, k :: Shared(s, j, k) ==> s.sessions[j].playerId in blank || s.sessions[k].playerId in blank
  }

  ghost predicate PlayersApart(s: Server) {
    forall j, k :: LiveAt(s, j) && LiveAt(s, k) && j != k ==> s.sessions[j].playerId != s.sessions[k].playerId
  }

  lemma OriginsDiffer(s: Server, s': Server, j': nat, k': nat) returns (j: nat, k: nat)
    requires Changed(s, s', Keep) && PlayersApart(s') && LiveAt(s', j') && LiveAt(s', k') && j' != k'
    ensures LiveAt(s, j) && LiveAt(s, k) && j != k
    ensures SameName(s.sessions[j], s'.sessions[j']) && SameName(s.sessions[k], s'.sessions[k'])
  {
    assert CameFrom(s, s', j') && CameFrom(s, s', k');
    j :| LiveAt(s, j) && SameName(s.sessions[j], s'.sessions[j']);
    k :| LiveAt(s, k) && SameName(s.sessions[k], s'.sessions[k']);
  }

  lemma KeepDistinct(s: Server, s': Server, blank: set<nat>)
    requires Changed(s, s', Keep) && PlayersApart(s') && Distinct(s, blank)
    ensures Distinct(s', blank)
  {
    forall j', k' | Shared(s', j', k')
      ensures s'.sessions[j'].playerId in blank || s'.sessions[k'].playerId in blank
    {
      var j, k := OriginsDiffer(s, s', j', k');
      assert Shared(s, j, k);
    }
  }

  lemma {:induction false} FewNames(sessions: map<nat, Session>, keys: set<nat>)
    requires keys <= sessions.Keys
    ensures |set k | k in keys :: sessions[k].name| <= |keys|
    decreases |keys|
  {
    var names := set k | k in keys :: sessions[k].name;
    if keys == {} {
      assert names == {};
    } else {
      var k :| k in keys;
      FewNames(sessions, keys - {k});
      var fewer := set j | j in keys - {k} :: sessions[j].name;
      assert names == fewer + {sessions[k].name};
    }
  }

  // With at most 998 other sessions the name chosen is nobody else's.
  lemma ChosenIsFree(s: Server, name: string, k: nat)
    requires |s.sessions.Keys - {k}| <= 998
    ensures UniqueName(s, name, k) !in OthersNames(s.sessions, k)
  {
    var others := s.sessions.Keys - {k};
    FewNames(s.sessions, others);
    assert OthersNames(s.sessions, k) == set j | j in others :: s.sessions[j].name;
    Names.UniqueWithFewOthers(name, OthersNames(s.sessions, k));
  }

  const CROWD: nat := 999

  lemma OthersFew(s: Server, s': Server, k: nat)
    requires k in s'.sessions && s'.sessions == s.sessions[k := s'.sessions[k]] && |s'.sessions| <= CROWD
    ensures |s.sessions.Keys - {k}| <= 998
  {
    assert s.sessions.Keys - {k} == s'.sessions.Keys - {k};
    assert |s'.sessions.Keys| == |s'.sessions|;
  }

  // One session changed; every shared pair it is not part of was there before.
  lemma OneChanged(s: Server, s': Server, k: nat, blank: set<nat>, blank': set<nat>)
    requires k in s'.sessions && s'.sessions == s.sessions[k := s'.sessions[k]] && Distinct(s, blank)
    requires forall j :: LiveAt(s, j) && j != k && s.sessions[j].playerId in blank ==> s.sessions[j].playerId in blank'
    requires s'.sessions[k].playerId in blank' || forall j :: Shared(s', j, k) ==> s'.sessions[j].playerId in blank'
    ensures Distinct(s', blank')
  {
    forall i, j | Shared(s', i, j)
      ensures s'.sessions[i].playerId in blank' || s'.sessions[j].playerId in blank'
    {
      if i != k && j != k {
        assert Shared(s, i, j);
      } else {
        assert Shared(s', j, i);
      }
    }
  }

  lemma ChosenShares(s: Server, s': Server, k: nat, name: string)
    requires k in s'.sessions && s'.sessions == s.sessions[k := s'.sessions[k]] && |s'.sessions| <= CROWD
    requires s'.sessions[k].name == UniqueName(s, name, k)
    ensures forall j :: !Shared(s', j, k)
  {
    OthersFew(s, s', k);
    ChosenIsFree(s, name, k);
    forall j
      ensures !Shared(s', j, k)
    {
      if j in s'.sessions && j != k {
        assert s.sessions[j].name in OthersNames(s.sessions, k);
      }
    }
  }

  // ---------------------------------------------------------------------------
  // Placeholders
  // ---------------------------------------------------------------------------

  ghost predicate HeldByOther(s: Server, k: nat, name: string) {
    exists j :: LiveAt(s, j) && j != k && s.sessions[j].name == name
  }

  // UniqueName has nothing left to offer but the name itself, which a live session has.
  ghost predicate Exhausted(s: Server, k: nat, name: string) {
    Names.AllTaken(name, OthersNames(s.sessions, k), 1) && HeldByOther(s, k, name)
  }

  // A commander is admitted without a name although a live session holds the placeholder, or
  // named although all candidates for the name are taken.
  ghost predicate Clashes(s: Server, c: Change) {
    match c
    case Keep => false
    case Rename(k, name) => Exhausted(s, k, name)
    case Admit(k, name, spawned) =>
      if name == "" then HeldByOther(s, k, Placeholder(spawned)) else Exhausted(s, k, name)
  }

  ghost predicate AllDistinct(s: Server) {
    Distinct(s, {})
  }

  lemma SharesExactly(s: Server, s': Server, k: nat, name: string)
    requires LiveAt(s', k) && s'.sessions == s.sessions[k := s'.sessions[k]] && s'.sessions[k].name == name
    ensures (exists j :: Shared(s', j, k)) <==> HeldByOther(s, k, name)
  {
    forall j | j != k
      ensures Shared(s', j, k) <==> LiveAt(s, j) && s.sessions[j].name == name
    {
    }
  }

  // The name UniqueName chooses is held by another live session exactly then.
  lemma ChosenHeldExactly(s: Server, k: nat, name: string)
    ensures HeldByOther(s, k, UniqueName(s, name, k)) <==> Exhausted(s, k, name)
  {
    var others := OthersNames(s.sessions, k);
    Names.FreeUnlessExhausted(name, others, 1);
    if j :| LiveAt(s, j) && j != k && s.sessions[j].name == UniqueName(s, name, k) {
      assert s.sessions[j].name in others;
    }
  }

  lemma OneChangedExactly(s: Server, s': Server, k: nat, name: string)
    requires LiveAt(s', k) && s'.sessions == s.sessions[k := s'.sessions[k]] && s'.sessions[k].name == name && AllDistinct(s)
    ensures AllDistinct(s') <==> !HeldByOther(s, k, name)
  {
    SharesExactly(s, s', k, name);
    if HeldByOther(s, k, name) {
      var j :| Shared(s', j, k);
    } else {
      OneChanged(s, s', k, {}, {});
    }
  }

  lemma StepDistinctExactly(s: Server, s': Server, c: Change)
    requires Changed(s, s', c) && PlayersApart(s') && AllDistinct(s)
    ensures AllDistinct(s') <==> !Clashes(s, c)
  {
    match c
    case Keep => KeepDistinct(s, s', {});
    case Rename(k, name) =>
      ChosenHeldExactly(s, k, name);
      OneChangedExactly(s, s', k, UniqueName(s, name, k));
    case Admit(k, name, spawned) =>
      ChosenHeldExactly(s, k, name);
      OneChangedExactly(s, s', k, s'.sessions[k].name);
  }

  ghost predicate SmallCrowd(states: seq<Server>) {
    forall i :: 0 <= i < |states| ==> |states[i].sessions| <= CROWD
  }

  lemma InvApart(s: Server, deferSpawn: bool, now: nat)
    requires Inv(s, deferSpawn, now)
    ensures PlayersApart(s)
  {
    forall j, k | LiveAt(s, j) && LiveAt(s, k) && j != k
      ensures s.sessions[j].playerId != s.sessions[k].playerId
    {
      assert IdentityOk(s.sessions[j], deferSpawn, s.nextPlayerId);
    }
  }

  lemma RunChange(states: seq<Server>, events: seq<Timed>, deferSpawn: bool, i: nat)
    returns (s: Server, s': Server, c: Change)
    requires IsRun(states, events, deferSpawn) && i < |events|
    ensures s == states[i] && s' == states[i + 1] && c == ChangeOf(s, deferSpawn, events[i].ev)
    ensures Changed(s, s', c) && PlayersApart(s') && EntitiesIssued(s)
  {
    var ev, before, now;
    s, s', ev, before, now := RunAt(states, events, deferSpawn, i);
    c := ChangeOf(s, deferSpawn, ev);
    RunKeepsInv(states, events, deferSpawn, i + 1);
    StepChangesNames(s, deferSpawn, before, ev, now);
    InvApart(s', deferSpawn, now);
    InvIssued(s, deferSpawn, before);
  }

  // Event i brings a name into use a second time.
  ghost predicate Clash(states: seq<Server>, events: seq<Timed>, deferSpawn: bool, i: nat)
    requires i < |events| < |states|
  {
    Clashes(states[i], ChangeOf(states[i], deferSpawn, events[i].ev))
  }

  lemma RunStepDistinct(states: seq<Server>, events: seq<Timed>, deferSpawn: bool, i: nat)
    requires IsRun(states, events, deferSpawn) && i < |events| && AllDistinct(states[i])
    ensures AllDistinct(states[i + 1]) <==> !Clash(states, events, deferSpawn, i)
  {
    var s, s', c := RunChange(states, events, deferSpawn, i);
    StepDistinctExactly(s, s', c);
  }

  // A chain that breaks exactly at its marked steps.
  lemma {:induction false} Unbroken(good: seq<bool>, bad: seq<bool>)
    requires |good| == |bad| + 1 && good[0]
    requires forall i: nat :: i < |bad| && good[i] ==> (good[i + 1] <==> !bad[i])
    ensures (forall m: nat :: m < |good| ==> good[m]) <==> (forall i: nat :: i < |bad| ==> !bad[i])
  {
    if bad != [] {
      var last := |bad| - 1;
      var (g, b) := (good[..last + 1], bad[..last]);
      forall i: nat | i < |b| && g[i]
        ensures g[i + 1] <==> !b[i]
      {
        assert good[i] && b[i] == bad[i];
      }
      Unbroken(g, b);
      assert good[last + 1] == good[|bad|] && (forall m: nat :: m < |g| ==> g[m]) ==> good[last];
    }
  }

  ghost predicate DistinctAt(states: seq<Server>, m: nat)
    requires m < |states|
  {
    AllDistinct(states[m])
  }

  // In any run, of however many sessions, live sessions always have distinct names exactly when
  // no commander without a name is admitted while his placeholder is taken and none is named
  // while all candidates for his name are.
  lemma NamesDistinctExactly(states: seq<Server>, events: seq<Timed>, deferSpawn: bool)
    requires IsRun(states, events, deferSpawn)
    ensures (forall m: nat :: m < |states| ==> DistinctAt(states, m))
       <==> (forall i: nat :: i < |events| ==> !Clash(states, events, deferSpawn, i))
  {
    var good := seq(|states|, (m: nat) requires m < |states| => DistinctAt(states, m));
    var bad := seq(|events|, (i: nat) requires i < |events| < |states| => Clash(states, events, deferSpawn, i));
    forall i: nat | i < |bad| && good[i]
      ensures good[i + 1] <==> !bad[i]
    {
      RunStepDistinct(states, events, deferSpawn, i);
    }
    Unbroken(good, bad);
    assert forall m: nat :: m < |states| ==> good[m] == DistinctAt(states, m);
    assert forall i: nat :: i < |events| ==> bad[i] == Clash(states, events, deferSpawn, i);
  }

  // ---------------------------------------------------------------------------
  // Who shares
  // ---------------------------------------------------------------------------

  // The players who go by a placeholder.
  ghost function BlankAfter(s: Server, c: Change, blank: set<nat>): set<nat> {
    match c
    case Keep => blank
    case Rename(k, _) => if k in s.sessions then blank - {s.sessions[k].playerId} else blank
    case Admit(_, name, _) => if name == "" then blank + {s.nextPlayerId} else blank
  }

  ghost function Blank(states: seq<Server>, events: seq<Timed>, deferSpawn: bool, n: nat): set<nat>
    requires n <= |events| < |states|
  {
    if n == 0 then {}
    else BlankAfter(states[n - 1], ChangeOf(states[n - 1], deferSpawn, events[n - 1].ev),
                    Blank(states, events, deferSpawn, n - 1))
  }

  ghost predicate EntitiesIssued(s: Server) {
    forall k :: LiveAt(s, k) ==> s.sessions[k].entity.value in s.world.issued && s.sessions[k].playerId < s.nextPlayerId
  }

  lemma InvIssued(s: Server, deferSpawn: bool, now: nat)
    requires Inv(s, deferSpawn, now)
    ensures EntitiesIssued(s)
  {
    forall k | LiveAt(s, k)
      ensures s.sessions[k].entity.value in s.world.issued && s.sessions[k].playerId < s.nextPlayerId
    {
      assert IdentityOk(s.sessions[k], deferSpawn, s.nextPlayerId);
      assert s.sessions[k].entity.value in OwnedBy(s, s.sessions[k].playerId);
    }
  }

  // Placeholders name their own ship, and no two sessions have the same ship.
  ghost predicate BlanksOk(s: Server, blank: set<nat>) {
    && (forall p :: p in blank ==> p < s.nextPlayerId)
    && (forall k :: LiveAt(s, k) && s.sessions[k].playerId in blank ==>
          s.sessions[k].name == Placeholder(s.sessions[k].entity.value))
    && (forall j, k :: LiveAt(s, j) && LiveAt(s, k) && j != k ==> s.sessions[j].entity != s.sessions[k].entity)
  }

  lemma KeepBlanks(s: Server, s': Server, blank: set<nat>)
    requires Changed(s, s', Keep) && PlayersApart(s') && BlanksOk(s, blank)
    ensures BlanksOk(s', blank)
  {
    forall k' | LiveAt(s', k') && s'.sessions[k'].playerId in blank
      ensures s'.sessions[k'].name == Placeholder(s'.sessions[k'].entity.value)
    {
      assert CameFrom(s, s', k');
    }
    forall j', k' | LiveAt(s', j') && LiveAt(s', k') && j' != k'
      ensures s'.sessions[j'].entity != s'.sessions[k'].entity
    {
      var j, k := OriginsDiffer(s, s', j', k');
    }
  }

  lemma StepBlanks(s: Server, s': Server, c: Change, blank: set<nat>)
    requires Changed(s, s', c) && PlayersApart(s') && EntitiesIssued(s) && BlanksOk(s, blank)
    ensures BlanksOk(s', BlankAfter(s, c, blank))
  {
    match c
    case Keep => KeepBlanks(s, s', blank);
    case Rename(k, name) =>
      assert forall j :: LiveAt(s', j) && j != k ==> LiveAt(s, j) && s'.sessions[j] == s.sessions[j];
    case Admit(k, name, spawned) =>
      assert forall j :: LiveAt(s', j) && j != k ==> LiveAt(s, j) && s'.sessions[j] == s.sessions[j];
  }

  lemma StepDistinct(s: Server, s': Server, c: Change, blank: set<nat>)
    requires Changed(s, s', c) && PlayersApart(s') && EntitiesIssued(s) && |s'.sessions| <= CROWD
    requires Distinct(s, blank) && BlanksOk(s, blank)
    ensures Distinct(s', BlankAfter(s, c, blank))
  {
    match c
    case Keep => KeepDistinct(s, s', blank);
    case Rename(k, name) =>
      ChosenShares(s, s', k, name);
      assert forall j :: LiveAt(s', j) && j != k ==> LiveAt(s, j) && s'.sessions[j] == s.sessions[j];
      OneChanged(s, s', k, blank, BlankAfter(s, c, blank));
    case Admit(k, name, spawned) =>
      if name != "" {
        ChosenShares(s, s', k, name);
      }
      OneChanged(s, s', k, blank, BlankAfter(s, c, blank));
  }

  lemma RunStepNames(states: seq<Server>, events: seq<Timed>, deferSpawn: bool, i: nat, blank: set<nat>)
    requires IsRun(states, events, deferSpawn) && i < |events| && SmallCrowd(states)
    requires Distinct(states[i], blank) && BlanksOk(states[i], blank)
    ensures var blank' := BlankAfter(states[i], ChangeOf(states[i], deferSpawn, events[i].ev), blank);
            Distinct(states[i + 1], blank') && BlanksOk(states[i + 1], blank')
  {
    var s, s', c := RunChange(states, events, deferSpawn, i);
    StepDistinct(s, s', c, blank);
    StepBlanks(s, s', c, blank);
  }

  lemma {:induction false} RunNames(states: seq<Server>, events: seq<Timed>, deferSpawn: bool, n: nat) returns (blank: set<nat>)
    requires IsRun(states, events, deferSpawn) && n <= |events| && SmallCrowd(states)
    ensures blank == Blank(states, events, deferSpawn, n) && Distinct(states[n], blank) && BlanksOk(states[n], blank)
    decreases n
  {
    blank := {};
    if n > 0 {
      var was := RunNames(states, events, deferSpawn, n - 1);
      RunStepNames(states, events, deferSpawn, n - 1, was);
      blank := BlankAfter(states[n - 1], ChangeOf(states[n - 1], deferSpawn, events[n - 1].ev), was);
    }
  }

  // In a run of at most 999 sessions, whoever shares a name with another live session shares
  // it with a placeholder; and two placeholders are alike only if the ships' slots are, one
  // ship being gone already.
  lemma SharedNames(states: seq<Server>, events: seq<Timed>, deferSpawn: bool, n: nat, j: nat, k: nat)
    requires IsRun(states, events, deferSpawn) && n <= |events| && SmallCrowd(states) && Shared(states[n], j, k)
    ensures var blank := Blank(states, events, deferSpawn, n);
            var (a, b) := (states[n].sessions[j], states[n].sessions[k]);
            && (a.playerId in blank || b.playerId in blank)
            && (a.playerId in blank ==> a.name == Placeholder(a.entity.value))
            && (b.playerId in blank ==> b.name == Placeholder(b.entity.value))
            && (a.playerId in blank && b.playerId in blank ==>
                  a.entity.value.index == b.entity.value.index
                  && !(a.entity.value in states[n].world.live && b.entity.value in states[n].world.live))
  {
    var blank := RunNames(states, events, deferSpawn, n);
    RunKeepsInv(states, events, deferSpawn, n);
    var (a, b) := (states[n].sessions[j], states[n].sessions[k]);
    if a.playerId in blank && b.playerId in blank {
      SamePlaceholder(a.entity.value, b.entity.value);
    }
  }

  lemma SamePlaceholder(a: EntityId, b: EntityId)
    requires Placeholder(a) == Placeholder(b)
    ensures a.index == b.index
  {
    assert Decimal.ToString(a.index) == Placeholder(a)[10..];
    assert Decimal.ToString(b.index) == Placeholder(b)[10..];
    Decimal.ToStringInjective(a.index, b.index);
  }

  // Such a pair can come about: a client calls himself what the next unnamed one is called.
  lemma NamesCollide(a: Endpoint, b: Endpoint) returns (states: seq<Server>, events: seq<Timed>)
    requires a != b
    ensures IsRun(states, events, false) && SmallCrowd(states) && |events| == 2
    ensures Shared(states[2], EndpointKey(a), EndpointKey(b))
    ensures states[2].sessions[EndpointKey(a)].name == "Commander-1"
  {
    if EndpointKey(a) == EndpointKey(b) {
      EndpointKeyInjective(a, b);
    }
    var first := ClientHello(a, Hello(true, "Commander-1"), 0, EntityId(0, 0));
    var second := ClientHello(b, Hello(true, ""), 0, EntityId(1, 0));
    EmptyRun(false);
    var s1 := Named(a);
    states, events := RunOn([EmptyServer], [], false, first, 1);
    states, events := RunOn(states, events, false, second, 1);
    Collided(s1, a, b, states[2]);
  }

  lemma Collided(s: Server, a: Endpoint, b: Endpoint, s': Server)
    requires EndpointKey(a) != EndpointKey(b) && s.sessions.Keys == {EndpointKey(a)} && s.sessions[EndpointKey(a)].Live()
    requires s.sessions[EndpointKey(a)].name == "Commander-1" && SeenBy(s, 1)
    requires s' == Apply(s, false, ClientHello(b, Hello(true, ""), 0, EntityId(1, 0)), 1)
    ensures Shared(s', EndpointKey(a), EndpointKey(b)) && s'.sessions.Keys == {EndpointKey(a), EndpointKey(b)}
    ensures s'.sessions[EndpointKey(a)].name == "Commander-1" && |s'.sessions| == 2
  {
    assert Placeholder(EntityId(1, 0)) == "Commander-1";
    assert |s'.sessions.Keys| == |s'.sessions|;
  }

  lemma Named(a: Endpoint) returns (s: Server)
    ensures s == Apply(EmptyServer, false, ClientHello(a, Hello(true, "Commander-1"), 0, EntityId(0, 0)), 1)
    ensures Allowed(EmptyServer, ClientHello(a, Hello(true, "Commander-1"), 0, EntityId(0, 0)))
    ensures s.sessions.Keys == {EndpointKey(a)} && s.sessions[EndpointKey(a)].Live()
    ensures s.sessions[EndpointKey(a)].name == "Commander-1" && s.sessions[EndpointKey(a)].lastSeenTick == 1
    ensures s.world.issued == {EntityId(0, 0)} == s.world.live && s.rate == map[] && s.tokenCounter == 1
  {
    s := Apply(EmptyServer, false, ClientHello(a, Hello(true, "Commander-1"), 0, EntityId(0, 0)), 1);
    assert OthersNames(EmptyServer.sessions, EndpointKey(a)) == {};
    assert Names.FirstFree("Commander-1", {}, 1) == "Commander-1";
  }
}
