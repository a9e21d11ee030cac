// Entity handles and the slot allocator of NeuronCore/ECS.h, with the Owner component.
module Ecs {

  datatype Option<+T> = None | Some(value: T)

  datatype EntityId = EntityId(index: nat, generation: nat)

  // What the rest of the server can observe of a registry: the handles handed out so
  // far, the ones still valid, and the Owner component of each live slot.
  datatype World = World(issued: set<EntityId>, live: set<EntityId>, owner: map<nat, nat>)

  ghost predicate WorldOk(w: World) {
    && w.live <= w.issued
    && (forall d, e :: d in w.live && e in w.live && d.index == e.index ==> d == e)
    && (forall i :: i in w.owner ==> exists e :: e in w.live && e.index == i)
  }

  // A handle a registry may return from Create.
  ghost predicate FreshHandle(w: World, e: EntityId) {
    e !in w.issued && forall d :: d in w.live ==> d.index != e.index
  }

  ghost function Created(w: World, e: EntityId): World {
    w.(issued := w.issued + {e}, live := w.live + {e})
  }

  ghost function Destroyed(w: World, es: set<EntityId>): World {
    var dead := es * w.live;
    w.(live := w.live - dead, owner := w.owner - (set e | e in dead :: e.index))
  }

  class Registry {
    var generations: seq<nat>
    var alive: seq<bool>
    var free: seq<nat>
    var owner: map<nat, nat>          // the Owner pool, keyed by slot
    ghost var issued: set<EntityId>

    ghost predicate Valid()
      reads this
    {
      && |alive| == |generations|
      && (forall k :: 0 <= k < |free| ==> free[k] < |alive| && !alive[free[k]])
      && (forall j, k :: 0 <= j < k < |free| ==> free[j] != free[k])
      && (forall e :: e in issued <==>
            e.index < |generations|
            && (e.generation < generations[e.index] || (e.generation == generations[e.index] && alive[e.index])))
      && (forall i :: i in owner ==> i < |alive| && alive[i])
    }

    constructor ()
      ensures Valid() && View() == World({}, {}, map[])
    {
      generations, alive, free, owner, issued := [], [], [], map[], {};
    }

    predicate IsValid(e: EntityId)
      requires |alive| == |generations|
      reads this
    {
      e.index < |generations| && alive[e.index] && generations[e.index] == e.generation
    }

    ghost function View(): World
      requires |alive| == |generations|
      reads this
    {
      World(issued, (set e | e in issued && IsValid(e)), owner)
    }

    lemma ViewOk()
      requires Valid()
      ensures WorldOk(View())
      ensures forall e :: IsValid(e) <==> e in View().live
    {
      forall e | IsValid(e)
        ensures e in View().live
      {
        assert e in issued;
      }
      forall i | i in owner
        ensures exists e :: e in View().live && e.index == i
      {
        assert IsValid(EntityId(i, generations[i]));
      }
    }

    // A slot is recycled under a new generation, so a handle is never handed out twice.
    method Create() returns (e: EntityId)
      requires Valid()
      modifies this
      ensures Valid()
      ensures FreshHandle(old(View()), e) && View() == Created(old(View()), e)
    {
      ghost var was := View();
      var index;
      if |free| > 0 {
        index := free[|free| - 1];
        free := free[..|free| - 1];
      } else {
        index := |generations|;
        generations := generations + [0];
        alive := alive + [false];
      }
      alive := alive[index := true];
      e := EntityId(index, generations[index]);
      issued := issued + {e};
      assert forall d :: d in was.live ==> d.index != e.index;
      assert View().live == was.live + {e};
    }

    method Destroy(e: EntityId)
      requires Valid()
      modifies this
      ensures Valid() && View() == Destroyed(old(View()), {e})
    {
      ghost var was := View();
      if !IsValid(e) {
        assert {e} * was.live == {};
        assert View() == Destroyed(was, {e});
        return;
      }
      assert e in was.issued;
      assert {e} * was.live == {e};
      owner := owner - {e.index};
      alive := alive[e.index := false];
      generations := generations[e.index := generations[e.index] + 1];
      free := free + [e.index];
      assert forall d :: d in issued && d != e && d.index == e.index ==> d !in was.live;
      assert View().live == was.live - {e};
      assert (set d | d in {e} :: d.index) == {e.index};
    }

    // Add<Owner>
    method AddOwner(e: EntityId, playerId: nat)
      requires Valid() && IsValid(e)
      modifies this
      ensures Valid() && View() == old(View()).(owner := old(owner)[e.index := playerId])
    {
      owner := owner[e.index := playerId];
    }
  }

  // Creation and destruction keep the observable world well formed, and a stale handle
  // never becomes valid again.
  lemma CreatedOk(w: World, e: EntityId)
    requires WorldOk(w) && FreshHandle(w, e)
    ensures WorldOk(Created(w, e))
    ensures forall d :: d in w.issued && d !in w.live ==> d !in Created(w, e).live
  {
    forall i | i in w.owner
      ensures exists d :: d in Created(w, e).live && d.index == i
    {
      var d :| d in w.live && d.index == i;
      assert d in Created(w, e).live;
    }
  }

  lemma DestroyedOk(w: World, es: set<EntityId>)
    requires WorldOk(w)
    ensures WorldOk(Destroyed(w, es))
    ensures forall e :: e in Destroyed(w, es).live <==> e in w.live && e !in es
    ensures forall e :: e in w.live && e !in es && e.index in w.owner ==>
              e.index in Destroyed(w, es).owner && Destroyed(w, es).owner[e.index] == w.owner[e.index]
  {
    var w' := Destroyed(w, es);
    forall i | i in w'.owner
      ensures exists e :: e in w'.live && e.index == i
    {
      var e :| e in w.live && e.index == i;
      assert e in w'.live;
    }
  }
}
