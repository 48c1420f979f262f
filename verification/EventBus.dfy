/** Subscriptions on the event bus and the handles that own them. */
module EventBuses {
  import opened Seqs

  /** A type index and a listener matter only by their identity. */
  datatype EventType = TypeIndex(code: int)
  datatype Listener = Listener(code: int)
  type SubscriptionId = nat

  datatype Slot = Slot(listener: Listener, id: SubscriptionId)

  function Without(slots: seq<Slot>, id: SubscriptionId): (r: seq<Slot>)
    ensures forall s :: s in r <==> s in slots && s.id != id
  {
    if slots == [] then [] else (if slots[0].id == id then [] else [slots[0]]) + Without(slots[1..], id)
  }

  /** Slots are in the order of their ids, which is the order of subscription. */
  ghost predicate Ascending(slots: seq<Slot>) {
    forall i, j :: 0 <= i < j < |slots| ==> slots[i].id < slots[j].id
  }

  lemma {:induction false} WithoutAscending(slots: seq<Slot>, id: SubscriptionId)
    requires Ascending(slots)
    ensures Ascending(Without(slots, id))
  {
    if slots != [] {
      var rest := Without(slots[1..], id);
      WithoutAscending(slots[1..], id);
      forall j | 0 <= j < |rest| ensures slots[0].id < rest[j].id {
        assert rest[j] in rest;
        var k :| 0 <= k < |slots[1..]| && slots[1..][k] == rest[j];
        assert slots[k + 1] == rest[j];
      }
    }
  }

  type Registry = map<EventType, seq<Slot>>

  function Subscribed(r: Registry, t: EventType, slot: Slot): Registry {
    r[t := (if t in r then r[t] else []) + [slot]]
  }

  function Unsubscribed(r: Registry, id: SubscriptionId): Registry {
    map t | t in r :: Without(r[t], id)
  }

  ghost predicate LiveIn(r: Registry, t: EventType, id: SubscriptionId) {
    t in r && exists s <- r[t] :: s.id == id
  }

  /**
   * `home` tells which bucket each live id is in; the slots of a bucket are in the order in which their ids were given
   * out, so an id has exactly one slot.
   */
  ghost predicate WellFormed(r: Registry, nextId: SubscriptionId, home: map<SubscriptionId, EventType>) {
    && nextId >= 1
    && (forall t <- r :: Ascending(r[t]))
    && (forall t: EventType, id: SubscriptionId :: LiveIn(r, t, id) <==> id in home && home[id] == t)
    && (forall id <- home :: 0 < id < nextId)
  }

  lemma SubscribeLive(r: Registry, slot: Slot, t: EventType, u: EventType, id: SubscriptionId)
    ensures LiveIn(Subscribed(r, t, slot), u, id) <==> LiveIn(r, u, id) || (u == t && id == slot.id)
  {
    var slots: seq<Slot> := if t in r then r[t] else [];
    assert slot in slots + [slot];
    assert forall s <- slots :: s in slots + [slot];
  }

  lemma SubscribeKeeps(r: Registry, nextId: SubscriptionId, home: map<SubscriptionId, EventType>, t: EventType,
                       listener: Listener)
    requires WellFormed(r, nextId, home)
    ensures WellFormed(Subscribed(r, t, Slot(listener, nextId)), nextId + 1, home[nextId := t]) && nextId !in home
  {
    var slot := Slot(listener, nextId);
    var slots: seq<Slot> := if t in r then r[t] else [];
    forall i | 0 <= i < |slots| ensures slots[i].id < nextId {
      assert slots[i] in slots;
      assert LiveIn(r, t, slots[i].id);
    }
    forall u: EventType, id: SubscriptionId
      ensures LiveIn(Subscribed(r, t, slot), u, id) <==> LiveIn(r, u, id) || (u == t && id == nextId)
    {
      SubscribeLive(r, slot, t, u, id);
    }
  }

  lemma UnsubscribeKeeps(r: Registry, nextId: SubscriptionId, home: map<SubscriptionId, EventType>, id: SubscriptionId)
    requires WellFormed(r, nextId, home)
    ensures WellFormed(Unsubscribed(r, id), nextId, home - {id})
  {
    var r' := Unsubscribed(r, id);
    forall t <- r ensures Ascending(r'[t]) { WithoutAscending(r[t], id); }
    forall t: EventType, x: SubscriptionId ensures LiveIn(r', t, x) <==> LiveIn(r, t, x) && x != id {}
  }

  /** What a listener does to the bus while it is called. */
  datatype Reaction = Quiet | Subscribes(on: EventType, listener: Listener) | Resets(handle: ScopedSubscription)

  class EventBus {
    var registry: Registry
    var nextId: SubscriptionId
    /** The handle that owns each live subscription, and the bucket its slot is in. */
    ghost var owner: map<SubscriptionId, ScopedSubscription>
    ghost var home: map<SubscriptionId, EventType>

    ghost predicate Filed()
      reads `registry, `nextId, `home
    { WellFormed(registry, nextId, home) }

    /** Each live slot is owned by exactly one handle, which names it. */
    ghost predicate Valid()
      reads this, owner.Values
    {
      && Filed() && owner.Keys == home.Keys
      && (forall id <- owner :: owner[id].bus == this && owner[id].id == id)
    }

    constructor ()
      ensures Valid() && registry == map[] && owner == map[]
    {
      registry, nextId := map[], 1;
      owner, home := map[], map[];
    }

    method SubscribeErased(t: EventType, listener: Listener) returns (h: ScopedSubscription)
      requires Valid()
      modifies this
      ensures Valid() && fresh(h) && h.Sound()
      ensures h.bus == this && h.id == old(nextId) && nextId == old(nextId) + 1
      ensures registry == Subscribed(old(registry), t, Slot(listener, h.id))
      ensures owner == old(owner)[h.id := h] && home == old(home)[h.id := t]
      ensures forall g: ScopedSubscription :: old(allocated(g)) && old(g.Sound()) ==> g.Sound()
    {
      SubscribeKeeps(registry, nextId, home, t, listener);
      var slots := if t in registry then registry[t] else [];
      var id := nextId;
      nextId := nextId + 1;
      registry := registry[t := slots + [Slot(listener, id)]];
      h := new ScopedSubscription(this, id);
      owner, home := owner[id := h], home[id := t];
    }

    /** Removes the id from every bucket. */
    method Unsubscribe(id: SubscriptionId)
      modifies this`registry
      ensures registry == Unsubscribed(old(registry), id)
    {
      ghost var was := registry;
      var rest := registry.Keys;
      while rest != {}
        invariant rest <= registry.Keys && registry.Keys == was.Keys
        invariant forall t <- was :: registry[t] == if t in rest then was[t] else Without(was[t], id)
      {
        var t :| t in rest;
        rest := rest - {t};
        registry := registry[t := Without(registry[t], id)];
      }
      assert registry == Unsubscribed(was, id);
    }

    /**
     * Exactly the slots of the type at the snapshot are called, once each, in subscription order, whatever the
     * listeners do to the bus meanwhile; `mine` are the handles they reset and `made` the ones they get.
     */
    method DispatchSync(t: EventType, react: Slot -> Reaction, ghost mine: set<ScopedSubscription>)
      returns (called: seq<Slot>, made: seq<ScopedSubscription>)
      requires Valid() && forall h <- mine :: h.Sound() && h.bus in {null, this}
      requires forall s :: react(s).Resets? ==> react(s).handle in mine
      modifies this, mine
      ensures called == if t in old(registry) then old(registry)[t] else []
      ensures Ascending(called) && Distinct(called) && forall s <- called :: s.id in old(owner)
      ensures Valid() && (forall h <- mine :: h.Sound()) && (forall h <- made :: fresh(h) && h.Sound())
      ensures (forall s :: react(s) == Quiet) ==> registry == old(registry) && owner == old(owner)
    {
      called, made := [], [];
      if t !in registry { return; }
      var snapshot := registry[t];
      forall s <- snapshot ensures s.id in owner { assert LiveIn(registry, t, s.id); }
      for i := 0 to |snapshot|
        invariant called == snapshot[..i] && Valid()
        invariant forall h <- mine :: h.Sound() && h.bus in {null, this}
        invariant forall h <- made :: fresh(h) && h.Sound()
        invariant (forall s :: react(s) == Quiet) ==> registry == old(registry) && owner == old(owner)
      {
        called := called + [snapshot[i]];
        match react(snapshot[i])
        case Quiet =>
        case Subscribes(on, listener) =>
          var h := SubscribeErased(on, listener);
          made := made + [h];
        case Resets(h) =>
          h.Reset();
      }
    }
  }

  class ScopedSubscription {
    var bus: EventBus?
    var id: SubscriptionId

    /** A handle is empty, or it is the owner of the subscription it names. */
    ghost predicate Sound()
      reads this, bus, if bus == null then {} else bus.owner.Values
    {
      && (bus == null <==> id == 0)
      && (bus != null ==> bus.Valid() && id in bus.owner && bus.owner[id] == this)
    }

    /** The handle a subscription is returned in. */
    constructor (bus: EventBus?, id: SubscriptionId)
      ensures this.bus == bus && this.id == id
    {
      this.bus, this.id := bus, id;
    }

    /** Default construction: a handle that owns nothing. */
    constructor Empty()
      ensures bus == null && id == 0 && Sound()
    {
      bus, id := null, 0;
    }

    method Reset()
      requires Sound()
      modifies this, bus
      ensures bus == null && id == 0
      ensures var b := old(bus);
              b != null ==> b.Valid() && b.registry == Unsubscribed(old(b.registry), old(id))
                            && b.nextId == old(b.nextId)
                            && b.home == old(b.home) - {old(id)} && b.owner == old(b.owner) - {old(id)}
      ensures forall g: ScopedSubscription :: g != this && old(allocated(g)) && old(g.Sound()) ==> g.Sound()
    {
      if bus != null && id != 0 {
        UnsubscribeKeeps(bus.registry, bus.nextId, bus.home, id);
        bus.Unsubscribe(id);
        bus.owner, bus.home := bus.owner - {id}, bus.home - {id};
        bus := null;
        id := 0;
      }
    }

    /** Move construction: the new handle takes the subscription over. */
    constructor MoveFrom(o: ScopedSubscription)
      requires o.Sound()
      modifies o, (if o.bus == null then {} else {o.bus})`owner
      ensures Sound() && bus == old(o.bus) && id == old(o.id) && o.bus == null && o.id == 0
      ensures bus != null ==> bus.registry == old(o.bus.registry) && bus.home == old(o.bus.home)
                              && bus.nextId == old(o.bus.nextId)
                              && bus.owner == old(o.bus.owner)[id := this]
      ensures forall g: ScopedSubscription :: g != o && old(allocated(g)) && old(g.Sound()) ==> g.Sound()
    {
      bus, id := o.bus, o.id;
      new;
      o.bus := null;
      o.id := 0;
      if bus != null { bus.owner := bus.owner[id := this]; }
      forall g: ScopedSubscription | g != o && old(allocated(g)) && old(g.Sound()) ensures g.Sound() {
        if g.bus != null && g.bus != bus { assert forall x <- g.bus.owner :: g.bus.owner[x] != o; }
      }
    }

    /**
     * Move assignment: what this handle owned is released first; assigning a handle to itself does nothing. The two
     * handles may be empty, and may belong to different buses.
     */
    method MoveAssign(o: ScopedSubscription)
      requires Sound() && o.Sound()
      modifies this, o, bus, o.bus
      ensures Sound() && o.Sound() && bus == old(o.bus) && id == old(o.id)
      ensures o != this ==> o.bus == null && o.id == 0
      ensures var b := old(bus);
              b != null ==>
                && b.Valid()
                && b.registry == if o == this then old(b.registry) else Unsubscribed(old(b.registry), old(id))
      ensures var b := old(o.bus); b != null && b != old(bus) ==> b.Valid() && b.registry == old(b.registry)
      ensures forall g: ScopedSubscription :: g != this && g != o && old(allocated(g)) && old(g.Sound()) ==> g.Sound()
    {
      if this != o {
        Reset();
        TakeOver(o);
      }
    }

    method TakeOver(o: ScopedSubscription)
      requires bus == null && id == 0 && o.Sound() && this != o
      modifies this, o, (if o.bus == null then {} else {o.bus})`owner
      ensures Sound() && bus == old(o.bus) && id == old(o.id) && o.bus == null && o.id == 0
      ensures bus != null ==> bus.registry == old(o.bus.registry) && bus.home == old(o.bus.home)
                              && bus.owner == old(o.bus.owner)[id := this]
      ensures forall g: ScopedSubscription :: g != this && g != o && old(allocated(g)) && old(g.Sound()) ==> g.Sound()
    {
      bus, id := o.bus, o.id;
      o.bus := null;
      o.id := 0;
      if bus != null {
        bus.owner := bus.owner[id := this];
        assert bus.Valid();
      }
      forall g: ScopedSubscription | g != this && g != o && old(allocated(g)) && old(g.Sound()) ensures g.Sound() {
        if g.bus != null && g.bus != bus {
          assert forall x <- g.bus.owner :: g.bus.owner[x] != this && g.bus.owner[x] != o;
        }
      }
    }
  }

  /** How an observer subscribes: the new subscription is assigned to a handle it holds, empty at first. */
  method Observe(h: ScopedSubscription, bus: EventBus, t: EventType, listener: Listener)
    requires h.Sound() && bus.Valid()
    modifies h, h.bus, bus
    ensures h.Sound() && h.bus == bus && h.id == old(bus.nextId)
    ensures var added := Subscribed(old(bus.registry), t, Slot(listener, h.id));
            bus.registry == if old(h.bus) == bus then Unsubscribed(added, old(h.id)) else added
    ensures forall g: ScopedSubscription :: g != h && old(allocated(g)) && old(g.Sound()) ==> g.Sound()
  {
    var s := bus.SubscribeErased(t, listener);
    h.MoveAssign(s);
  }
}
