/** The requests the heartbeat has accepted and not yet finished. */
module Pendings {
  import opened Messages
  import opened Seqs

  datatype PendingState = AwaitingSession | Streaming | Complete | Failed | Cancelled

  datatype Pending = Pending(session: Id, state: PendingState, audio: seq<Byte>, cumulativeBytes: int,
                             sampleRate: int, channels: int, format: AudioFormat, usageCharacters: int,
                             statusCode: int, statusMsg: string, finalReceived: bool)
  {
    predicate ReadyToEmit() { state == Streaming && finalReceived }
    predicate Terminal() { state == Failed || state == Cancelled }
  }

  type Store = map<Id, Pending>

  function WithState(store: Store, id: Id, s: PendingState): Store {
    if id !in store then store else store[id := store[id].(state := s)]
  }

  function WithSession(store: Store, id: Id, session: Id): Store {
    if id !in store then store else store[id := store[id].(session := session, state := Streaming)]
  }

  function WithChunk(store: Store, id: Id, bytes: seq<Byte>, isFinal: bool, usage: int): Store {
    if id !in store then store
    else
      var p := store[id];
      store[id := p.(audio := p.audio + bytes, cumulativeBytes := p.cumulativeBytes + |bytes|,
                     usageCharacters := usage, finalReceived := p.finalReceived || isFinal)]
  }

  function BySession(store: Store, session: Id): set<Id> {
    set id | id in store && store[id].session == session
  }

  /** Every request of the session fails, with the status the upstream reported. */
  function FailSession(store: Store, session: Id, code: int, msg: string): Store {
    map id | id in store ::
      if store[id].session == session then store[id].(state := Failed, statusCode := code, statusMsg := msg)
      else store[id]
  }

  /** Every request of the session fails; the status is left as it was. */
  function LoseSession(store: Store, session: Id): Store {
    map id | id in store :: if store[id].session == session then store[id].(state := Failed) else store[id]
  }

  function ReadySet(store: Store): set<Id> { set id | id in store && store[id].ReadyToEmit() }
  function TerminalSet(store: Store): set<Id> { set id | id in store && store[id].Terminal() }

  class PendingRequestStore {
    var store: Store

    constructor ()
      ensures store == map[]
    {
      store := map[];
    }

    method Add(id: Id, p: Pending)
      modifies this
      ensures store == old(store)[id := p]
    {
      store := store[id := p];
    }

    method Remove(id: Id)
      modifies this
      ensures store == old(store) - {id}
    {
      store := store - {id};
    }

    method SetState(id: Id, s: PendingState)
      modifies this
      ensures store == WithState(old(store), id, s)
    {
      if id !in store { return; }
      store := store[id := store[id].(state := s)];
    }

    method BindSession(id: Id, session: Id)
      modifies this
      ensures store == WithSession(old(store), id, session)
    {
      if id !in store { return; }
      store := store[id := store[id].(session := session)];
      store := store[id := store[id].(state := Streaming)];
    }

    method AppendChunk(id: Id, bytes: seq<Byte>, isFinal: bool, usage: int) returns (found: bool)
      modifies this
      ensures store == WithChunk(old(store), id, bytes, isFinal, usage) && found == (id in old(store))
    {
      if id !in store { return false; }
      var p := store[id];
      p := p.(audio := p.audio + bytes);
      p := p.(cumulativeBytes := p.cumulativeBytes + |bytes|);
      p := p.(usageCharacters := usage);
      if isFinal { p := p.(finalReceived := true); }
      store := store[id := p];
      return true;
    }

    /** Writes to the record that `get` returns. */
    method SetStatus(id: Id, code: int, msg: string)
      requires id in store
      modifies this
      ensures store == old(store)[id := old(store)[id].(statusCode := code, statusMsg := msg)]
    {
      store := store[id := store[id].(statusCode := code)];
      store := store[id := store[id].(statusMsg := msg)];
    }

    method FindReadyToEmit() returns (out: seq<Id>)
      ensures Enumerates(out, ReadySet(store))
    {
      out := [];
      var rest := store.Keys;
      while rest != {}
        invariant rest <= store.Keys && Distinct(out)
        invariant forall id :: id in out <==> id in store && id !in rest && store[id].ReadyToEmit()
      {
        var id :| id in rest;
        rest := rest - {id};
        if store[id].state == Streaming && store[id].finalReceived { out := out + [id]; }
      }
    }

    method CollectBySession(session: Id) returns (out: seq<Id>)
      ensures Enumerates(out, BySession(store, session))
    {
      out := [];
      var rest := store.Keys;
      while rest != {}
        invariant rest <= store.Keys && Distinct(out)
        invariant forall id :: id in out <==> id in store && id !in rest && store[id].session == session
      {
        var id :| id in rest;
        rest := rest - {id};
        if store[id].session == session { out := out + [id]; }
      }
    }

    method CollectTerminal() returns (out: seq<Id>)
      ensures Enumerates(out, TerminalSet(store))
    {
      out := [];
      var rest := store.Keys;
      while rest != {}
        invariant rest <= store.Keys && Distinct(out)
        invariant forall id :: id in out <==> id in store && id !in rest && store[id].Terminal()
      {
        var id :| id in rest;
        rest := rest - {id};
        if store[id].state == Failed || store[id].state == Cancelled { out := out + [id]; }
      }
    }
  }
}
