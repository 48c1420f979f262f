/** The pool of upstream sessions: records by id beside a list from most to least recently used. */
module Sessions {
  import opened Messages
  import opened Seqs

  datatype SessionState = Cold | Connecting | Ready | Streaming | Draining | Closed | Errored

  datatype Session = Session(state: SessionState, createdAt: Time, lastActiveAt: Time,
                             currentRequest: Id, lastError: string)

  /** The front of `lru` is the most recently used session. */
  datatype Pool = Pool(sessions: map<Id, Session>, lru: seq<Id>, maxSize: nat, idleTimeout: int, maxLifetime: int) {

    predicate Full() { |sessions| >= maxSize }

    predicate IsReady(id: Id) { id in sessions && sessions[id].state == Ready }

    /** A record under an id that is already present is replaced, and the id is listed again. */
    function Add(id: Id, s: Session): Pool
    {
      if Full() then this else this.(sessions := sessions[id := s], lru := [id] + lru)
    }

    function Front(id: Id, s: Session): Pool {
      this.(sessions := sessions[id := s], lru := [id] + Drop(lru, {id}))
    }

    function TouchActive(id: Id, now: Time): Pool {
      if id !in sessions then this else Front(id, sessions[id].(lastActiveAt := now))
    }

    function MarkActive(id: Id, now: Time): Pool {
      if id !in sessions then this else Front(id, sessions[id].(state := Streaming, lastActiveAt := now))
    }

    function MarkReady(id: Id, now: Time): Pool {
      if id !in sessions then this else Front(id, sessions[id].(state := Ready, lastActiveAt := now))
    }

    function MarkIdle(id: Id, now: Time): Pool {
      if id !in sessions then this
      else Front(id, sessions[id].(state := Ready, currentRequest := "", lastActiveAt := now))
    }

    function MarkDraining(id: Id): Pool {
      if id !in sessions then this else this.(sessions := sessions[id := sessions[id].(state := Draining)])
    }

    function MarkErrored(id: Id, reason: string): Pool {
      if id !in sessions then this
      else this.(sessions := sessions[id := sessions[id].(state := Errored, lastError := reason)])
    }

    function SetCurrent(id: Id, rid: Id): Pool {
      if id !in sessions then this else this.(sessions := sessions[id := sessions[id].(currentRequest := rid)])
    }

    function RemoveAll(gone: set<Id>): Pool {
      this.(sessions := sessions - gone, lru := Drop(lru, gone))
    }

    function MarkClosed(id: Id): Pool { RemoveAll({id}) }

    predicate LifetimeExpired(id: Id, now: Time)
      requires id in sessions
    { now - sessions[id].createdAt >= maxLifetime }

    predicate IdleExpired(id: Id, now: Time)
      requires id in sessions
    { sessions[id].state == Ready && now - sessions[id].lastActiveAt >= idleTimeout }

    /** The list and the map hold the same ids, each once, and no more than the maximum. */
    ghost predicate Consistent() {
      Distinct(lru) && (forall id :: id in lru <==> id in sessions) && |sessions| <= maxSize
    }

    /** The list and the map hold the same ids, and a ready session is listed once. */
    ghost predicate Listed() {
      (forall id :: id in lru <==> id in sessions) && ReadyOnce(this, lru)
    }

    /** Reading the list from the front, ready sessions are met in order of falling activity time. */
    ghost predicate Chronological() {
      forall i, j :: 0 <= i < j < |lru| && IsReady(lru[i]) && IsReady(lru[j])
        ==> sessions[lru[i]].lastActiveAt >= sessions[lru[j]].lastActiveAt
    }

    /** No ready session has been active after `now`. */
    ghost predicate ActiveBy(now: Time) {
      forall id :: IsReady(id) ==> sessions[id].lastActiveAt <= now
    }
  }

  ghost predicate ReadyOnce(p: Pool, lru: seq<Id>) {
    forall i, j :: 0 <= i < j < |lru| && p.IsReady(lru[i]) ==> lru[i] != lru[j]
  }

  /** The ready session nearest to the end of the list. */
  function LastReady(p: Pool, lru: seq<Id>): Option<Id> {
    if lru == [] then None
    else if p.IsReady(lru[|lru| - 1]) then Some(lru[|lru| - 1])
    else LastReady(p, lru[..|lru| - 1])
  }

  /** The idle-expired sessions of a list, read from its end. */
  function IdleFromBack(p: Pool, lru: seq<Id>, now: Time): seq<Id> {
    if lru == [] then []
    else
      var last := lru[|lru| - 1];
      (if last in p.sessions && p.IdleExpired(last, now) then [last] else []) + IdleFromBack(p, lru[..|lru| - 1], now)
  }

  /** The ready sessions of a list, read from its end. */
  ghost function ReadyFromBack(p: Pool, lru: seq<Id>): seq<Id> {
    if lru == [] then []
    else
      var last := lru[|lru| - 1];
      (if p.IsReady(last) then [last] else []) + ReadyFromBack(p, lru[..|lru| - 1])
  }

  // ---- what each operation keeps -------------------------------------------------------------

  lemma FrontConsistent(p: Pool, id: Id, s: Session)
    requires p.Consistent() && id in p.sessions
    ensures p.Front(id, s).Consistent()
  {
    DropDistinct(p.lru, {id});
    assert p.sessions[id := s].Keys == p.sessions.Keys;
  }

  lemma AddedTwice(lru: seq<Id>, id: Id)
    requires id in lru
    ensures !Distinct([id] + lru)
  {
    var k :| 0 <= k < |lru| && lru[k] == id;
    assert ([id] + lru)[0] == ([id] + lru)[k + 1];
  }

  lemma AddNew(p: Pool, id: Id, s: Session)
    requires p.Consistent() && !p.Full() && id !in p.sessions
    ensures p.Add(id, s).Consistent()
  {
    assert p.sessions[id := s].Keys == p.sessions.Keys + {id};
    assert forall x :: x in [id] + p.lru <==> x == id || x in p.lru;
  }

  /** Adding keeps the pool consistent exactly when there is no room or the id is new. */
  lemma AddConsistent(p: Pool, id: Id, s: Session)
    requires p.Consistent()
    ensures p.Add(id, s).Consistent() <==> p.Full() || id !in p.sessions
  {
    if !p.Full() {
      if id in p.sessions { AddedTwice(p.lru, id); } else { AddNew(p, id, s); }
    }
  }

  /** Changing the record of a known session keeps list and map in agreement. */
  lemma QuietConsistent(p: Pool, id: Id, s: Session)
    requires p.Consistent() && id in p.sessions
    ensures p.(sessions := p.sessions[id := s]).Consistent()
  {
    assert p.sessions[id := s].Keys == p.sessions.Keys;
  }

  lemma RemoveConsistent(p: Pool, gone: set<Id>)
    requires p.Consistent()
    ensures p.RemoveAll(gone).Consistent()
  {
    DropDistinct(p.lru, gone);
    var q := p.RemoveAll(gone);
    assert q.sessions.Keys == p.sessions.Keys - gone;
    SubsetCardinality(q.sessions.Keys, p.sessions.Keys);
  }

  lemma RemoveTwice(p: Pool, a: set<Id>, b: set<Id>)
    ensures p.RemoveAll(a).RemoveAll(b) == p.RemoveAll(a + b)
  {
    DropTwice(p.lru, a, b);
    assert p.sessions - a - b == p.sessions - (a + b);
  }

  lemma RemoveNothing(p: Pool)
    ensures p.RemoveAll({}) == p
  {
    DropNothing(p.lru, {});
    assert p.sessions - {} == p.sessions;
  }

  // ---- agreement without distinct names ------------------------------------------------------

  lemma {:induction false} DropOnce(p: Pool, lru: seq<Id>, gone: set<Id>)
    requires ReadyOnce(p, lru)
    ensures ReadyOnce(p, Drop(lru, gone))
  {
    if lru != [] {
      var rest := lru[1..];
      assert forall i :: 0 <= i < |rest| ==> rest[i] == lru[i + 1];
      DropOnce(p, rest, gone);
      if p.IsReady(lru[0]) { assert lru[0] !in rest; }
    }
  }

  /** What is ready stays listed once when nothing more becomes ready. */
  lemma FewerReady(p: Pool, q: Pool, lru: seq<Id>)
    requires ReadyOnce(p, lru) && forall id :: q.IsReady(id) ==> p.IsReady(id)
    ensures ReadyOnce(q, lru)
  {
  }

  lemma FrontListed(p: Pool, id: Id, s: Session)
    requires p.Listed() && id in p.sessions
    ensures p.Front(id, s).Listed()
  {
    var q, d := p.Front(id, s), Drop(p.lru, {id});
    DropOnce(p, p.lru, {id});
    forall i, j | 0 <= i < j < |q.lru| && q.IsReady(q.lru[i]) ensures q.lru[i] != q.lru[j] {
      assert q.lru[j] == d[j - 1] && d[j - 1] in d;
      if i > 0 { assert q.lru[i] == d[i - 1] && d[i - 1] in d; }
    }
  }

  /** A session that is not ready may be added under any id, even one that is pooled already. */
  lemma AddListed(p: Pool, id: Id, s: Session)
    requires p.Listed() && s.state != Ready
    ensures p.Add(id, s).Listed()
  {
    if !p.Full() {
      var q := p.Add(id, s);
      forall i, j | 0 <= i < j < |q.lru| && q.IsReady(q.lru[i]) ensures q.lru[i] != q.lru[j] {
        assert q.lru[i] == p.lru[i - 1] && q.lru[j] == p.lru[j - 1];
      }
    }
  }

  lemma QuietListed(p: Pool, id: Id, s: Session)
    requires p.Listed() && id in p.sessions && (s.state == Ready ==> p.IsReady(id))
    ensures p.(sessions := p.sessions[id := s]).Listed()
  {
    FewerReady(p, p.(sessions := p.sessions[id := s]), p.lru);
  }

  lemma RemoveListed(p: Pool, gone: set<Id>)
    requires p.Listed()
    ensures p.RemoveAll(gone).Listed()
  {
    DropOnce(p, p.lru, gone);
    FewerReady(p, p.RemoveAll(gone), Drop(p.lru, gone));
  }

  lemma SubsetCardinality<T>(a: set<T>, b: set<T>)
    requires a <= b
    ensures |a| <= |b|
  {
    assert b == a + (b - a);
  }

  lemma {:induction false} DropChronological(p: Pool, lru: seq<Id>, gone: set<Id>)
    requires p.(lru := lru).Chronological()
    ensures p.(lru := Drop(lru, gone)).Chronological()
  {
    if lru != [] {
      var rest := lru[1..];
      DropChronological(p, rest, gone);
      var d := Drop(rest, gone);
      forall j | 0 <= j < |d| && p.IsReady(lru[0]) && p.IsReady(d[j])
        ensures p.sessions[lru[0]].lastActiveAt >= p.sessions[d[j]].lastActiveAt
      {
        assert d[j] in rest;
        var k :| 0 <= k < |rest| && rest[k] == d[j];
        assert lru[k + 1] == d[j];
      }
    }
  }

  /** Moving a session to the front with the newest time keeps the order, ready or not. */
  lemma FrontChronological(p: Pool, id: Id, s: Session)
    requires p.Chronological() && p.ActiveBy(s.lastActiveAt)
    ensures p.Front(id, s).Chronological() && p.Front(id, s).ActiveBy(s.lastActiveAt)
  {
    DropChronological(p, p.lru, {id});
    var q := p.Front(id, s);
    var d := Drop(p.lru, {id});
    forall i, j | 0 <= i < j < |q.lru| && q.IsReady(q.lru[i]) && q.IsReady(q.lru[j])
      ensures q.sessions[q.lru[i]].lastActiveAt >= q.sessions[q.lru[j]].lastActiveAt
    {
      assert q.lru[j] == d[j - 1] && d[j - 1] in d;
      assert p.IsReady(q.lru[j]);
      if i > 0 {
        assert q.lru[i] == d[i - 1] && d[i - 1] in d;
      }
    }
  }

  lemma AddChronological(p: Pool, id: Id, s: Session, now: Time)
    requires p.Chronological() && p.ActiveBy(now) && s.state != Ready
    ensures p.Add(id, s).Chronological() && p.Add(id, s).ActiveBy(now)
  {
    var q := p.Add(id, s);
    if !p.Full() {
      forall i, j | 0 <= i < j < |q.lru| && q.IsReady(q.lru[i]) && q.IsReady(q.lru[j])
        ensures q.sessions[q.lru[i]].lastActiveAt >= q.sessions[q.lru[j]].lastActiveAt
      {
        assert q.lru[j] == p.lru[j - 1];
        assert i > 0 ==> q.lru[i] == p.lru[i - 1];
      }
    }
  }

  /** Changes that leave times alone and make nothing ready keep the order. */
  lemma QuietChronological(p: Pool, id: Id, s: Session, now: Time)
    requires p.Chronological() && p.ActiveBy(now) && id in p.sessions
    requires s.state == Ready ==> p.IsReady(id) && s.lastActiveAt == p.sessions[id].lastActiveAt
    ensures p.(sessions := p.sessions[id := s]).Chronological()
    ensures p.(sessions := p.sessions[id := s]).ActiveBy(now)
  {
    var q := p.(sessions := p.sessions[id := s]);
    assert forall x :: q.IsReady(x) ==> p.IsReady(x) && q.sessions[x].lastActiveAt == p.sessions[x].lastActiveAt;
  }

  lemma RemoveChronological(p: Pool, gone: set<Id>, now: Time)
    requires p.Chronological() && p.ActiveBy(now)
    ensures p.RemoveAll(gone).Chronological() && p.RemoveAll(gone).ActiveBy(now)
  {
    DropChronological(p, p.lru, gone);
    var q := p.RemoveAll(gone);
    assert forall x :: q.IsReady(x) ==> p.IsReady(x) && q.sessions[x].lastActiveAt == p.sessions[x].lastActiveAt;
  }

  /** The pool's representation invariant together with the order of activity, as of `now`. */
  ghost predicate Healthy(p: Pool, now: Time) {
    p.Consistent() && p.Chronological() && p.ActiveBy(now)
  }

  // ---- the list refines the timestamps -------------------------------------------------------

  /** The place of the last ready session of a list. */
  ghost predicate LastReadyAt(p: Pool, lru: seq<Id>, k: int) {
    0 <= k < |lru| && p.IsReady(lru[k]) && forall j :: k < j < |lru| ==> !p.IsReady(lru[j])
  }

  lemma {:induction false} LastReadyFound(p: Pool, lru: seq<Id>)
    ensures match LastReady(p, lru)
            case None => forall id <- lru :: !p.IsReady(id)
            case Some(id) => p.IsReady(id) && id in lru && exists k :: LastReadyAt(p, lru, k) && lru[k] == id
  {
    if lru != [] {
      var n := |lru| - 1;
      if p.IsReady(lru[n]) {
        assert LastReadyAt(p, lru, n) && lru[n] in lru;
      } else {
        LastReadyFound(p, lru[..n]);
        if LastReady(p, lru).Some? {
          var id := LastReady(p, lru).value;
          var k :| LastReadyAt(p, lru[..n], k) && lru[..n][k] == id;
          forall j | k < j < |lru| ensures !p.IsReady(lru[j]) { assert j < n ==> lru[..n][j] == lru[j]; }
          assert LastReadyAt(p, lru, k) && lru[k] == id;
        } else {
          forall id | id in lru ensures !p.IsReady(id) { assert id in lru[..n] || id == lru[n]; }
        }
      }
    }
  }

  lemma LastIsOldest(p: Pool, k: int, x: Id)
    requires p.Chronological() && LastReadyAt(p, p.lru, k) && x in p.lru && p.IsReady(x)
    ensures p.sessions[p.lru[k]].lastActiveAt <= p.sessions[x].lastActiveAt
  {
    var i :| 0 <= i < |p.lru| && p.lru[i] == x;
    assert i <= k;
  }

  /** The session picked for reuse is ready and no ready session has an earlier activity time. */
  lemma LeastRecentlyUsed(p: Pool)
    requires p.Listed() && p.Chronological()
    ensures match LastReady(p, p.lru)
            case None => forall id :: !p.IsReady(id)
            case Some(id) => p.IsReady(id)
                             && forall x :: p.IsReady(x) ==> p.sessions[id].lastActiveAt <= p.sessions[x].lastActiveAt
  {
    LastReadyFound(p, p.lru);
    if LastReady(p, p.lru).Some? {
      var id := LastReady(p, p.lru).value;
      var k :| LastReadyAt(p, p.lru, k) && p.lru[k] == id;
      forall x | p.IsReady(x) ensures p.sessions[id].lastActiveAt <= p.sessions[x].lastActiveAt {
        LastIsOldest(p, k, x);
      }
    }
  }

  lemma {:induction false} IdleMembers(p: Pool, lru: seq<Id>, now: Time)
    ensures forall id :: id in IdleFromBack(p, lru, now) <==> id in lru && id in p.sessions && p.IdleExpired(id, now)
  {
    if lru != [] {
      var n := |lru| - 1;
      IdleMembers(p, lru[..n], now);
      assert lru == lru[..n] + [lru[n]];
    }
  }

  lemma {:induction false} IdleDistinct(p: Pool, lru: seq<Id>, now: Time)
    requires ReadyOnce(p, lru)
    ensures Distinct(IdleFromBack(p, lru, now))
  {
    if lru != [] {
      var n := |lru| - 1;
      IdleDistinct(p, lru[..n], now);
      if p.IsReady(lru[n]) {
        assert lru[n] !in lru[..n];
        IdleMembers(p, lru[..n], now);
        assert lru[n] !in IdleFromBack(p, lru[..n], now);
      }
    }
  }

  lemma IdleFromBackSound(p: Pool, lru: seq<Id>, now: Time)
    requires ReadyOnce(p, lru)
    ensures Distinct(IdleFromBack(p, lru, now))
    ensures forall id :: id in IdleFromBack(p, lru, now) <==> id in lru && id in p.sessions && p.IdleExpired(id, now)
  {
    IdleMembers(p, lru, now);
    IdleDistinct(p, lru, now);
  }

  /** Each session has been active no later than the ones after it. */
  ghost predicate OldestFirst(p: Pool, ids: seq<Id>) {
    && (forall id <- ids :: id in p.sessions)
    && forall i, j :: 0 <= i < j < |ids| ==> p.sessions[ids[i]].lastActiveAt <= p.sessions[ids[j]].lastActiveAt
  }

  lemma {:induction false} ReadyFromBackMembers(p: Pool, lru: seq<Id>)
    ensures forall id :: id in ReadyFromBack(p, lru) <==> id in lru && p.IsReady(id)
  {
    if lru != [] {
      var n := |lru| - 1;
      ReadyFromBackMembers(p, lru[..n]);
      assert lru == lru[..n] + [lru[n]];
    }
  }

  lemma {:induction false} ReadyOldestFirst(p: Pool, lru: seq<Id>)
    requires p.(lru := lru).Chronological()
    ensures OldestFirst(p, ReadyFromBack(p, lru))
  {
    if lru != [] {
      var n := |lru| - 1;
      var rest := lru[..n];
      assert p.(lru := rest).Chronological();
      ReadyOldestFirst(p, rest);
      if p.IsReady(lru[n]) {
        var newer := ReadyFromBack(p, rest);
        forall j | 0 <= j < |newer| ensures p.sessions[lru[n]].lastActiveAt <= p.sessions[newer[j]].lastActiveAt {
          ReadyFromBackMembers(p, rest);
          assert newer[j] in newer;
          var k :| 0 <= k < n && rest[k] == newer[j];
          assert lru[k] == newer[j];
        }
      }
    }
  }

  /** Idle expiry takes an initial segment of the ready sessions read from the back, and those run from old to new. */
  lemma IdleIsOldestFirst(p: Pool, lru: seq<Id>, now: Time)
    requires p.(lru := lru).Chronological()
    ensures IdleFromBack(p, lru, now) <= ReadyFromBack(p, lru)
    ensures OldestFirst(p, ReadyFromBack(p, lru)) && OldestFirst(p, IdleFromBack(p, lru, now))
  {
    IdlePrefix(p, lru, now);
    ReadyOldestFirst(p, lru);
    PrefixOldestFirst(p, IdleFromBack(p, lru, now), ReadyFromBack(p, lru));
  }

  lemma PrefixOldestFirst(p: Pool, ids: seq<Id>, more: seq<Id>)
    requires ids <= more && OldestFirst(p, more)
    ensures OldestFirst(p, ids)
  {
    assert forall i :: 0 <= i < |ids| ==> ids[i] == more[i] && more[i] in more;
  }

  lemma {:induction false} IdlePrefix(p: Pool, lru: seq<Id>, now: Time)
    requires p.(lru := lru).Chronological()
    ensures IdleFromBack(p, lru, now) <= ReadyFromBack(p, lru)
  {
    if lru != [] {
      var n := |lru| - 1;
      var rest := lru[..n];
      assert p.(lru := rest).Chronological();
      IdlePrefix(p, rest, now);
      if p.IsReady(lru[n]) && !p.IdleExpired(lru[n], now) {
        forall i | 0 <= i < n && rest[i] in p.sessions ensures !p.IdleExpired(rest[i], now) {
          assert lru[i] == rest[i];
        }
        NoneIdle(p, rest, now);
      }
    }
  }

  /** Idle expiry finds exactly the expired ready sessions, oldest first. */
  lemma IdleExpiry(p: Pool, now: Time)
    ensures p.Listed() ==>
              Enumerates(IdleFromBack(p, p.lru, now),
                         set id | id in p.sessions && p.sessions[id].state == Ready
                                  && now - p.sessions[id].lastActiveAt >= p.idleTimeout)
    ensures p.Chronological() ==> IdleFromBack(p, p.lru, now) <= ReadyFromBack(p, p.lru)
    ensures p.Chronological() ==> OldestFirst(p, IdleFromBack(p, p.lru, now))
  {
    if p.Listed() { IdleFromBackSound(p, p.lru, now); }
    if p.Chronological() { IdleIsOldestFirst(p, p.lru, now); }
  }

  lemma IdleStep(p: Pool, lru: seq<Id>, i: nat, out: seq<Id>, now: Time)
    requires i < |lru|
    ensures out + IdleFromBack(p, lru[..i + 1], now)
            == (if lru[i] in p.sessions && p.IdleExpired(lru[i], now) then out + [lru[i]] else out)
               + IdleFromBack(p, lru[..i], now)
  {
    assert lru[..i + 1][..i] == lru[..i];
    Associative(out, [lru[i]], IdleFromBack(p, lru[..i], now));
  }

  lemma {:induction false} NoneIdle(p: Pool, lru: seq<Id>, now: Time)
    requires forall i :: 0 <= i < |lru| && lru[i] in p.sessions ==> !p.IdleExpired(lru[i], now)
    ensures IdleFromBack(p, lru, now) == []
  {
    if lru != [] { NoneIdle(p, lru[..|lru| - 1], now); }
  }

  // ---- the pool as the program holds it ------------------------------------------------------

  class SessionPool {
    const maxSize: nat
    const idleTimeout: int
    const maxLifetime: int
    var sessions: map<Id, Session>
    var lru: seq<Id>

    ghost function View(): Pool
      reads this
    { Pool(sessions, lru, maxSize, idleTimeout, maxLifetime) }

    constructor (maxSize: nat, idleTimeout: int, maxLifetime: int)
      ensures View() == Pool(map[], [], maxSize, idleTimeout, maxLifetime)
    {
      this.maxSize, this.idleTimeout, this.maxLifetime := maxSize, idleTimeout, maxLifetime;
      sessions, lru := map[], [];
    }

    method Add(id: Id, s: Session) returns (added: bool)
      modifies this
      ensures View() == old(View()).Add(id, s) && added == !old(View()).Full()
    {
      if |sessions| >= maxSize { return false; }
      lru := [id] + lru;
      sessions := sessions[id := s];
      return true;
    }

    method MoveToFront(id: Id)
      modifies this`lru
      ensures lru == [id] + Drop(old(lru), {id})
    {
      lru := Drop(lru, {id});
      lru := [id] + lru;
    }

    method TouchActive(id: Id, now: Time)
      modifies this
      ensures View() == old(View()).TouchActive(id, now)
      ensures if id !in old(sessions) then View() == old(View())
              else sessions == old(sessions)[id := old(sessions)[id].(lastActiveAt := now)]
                   && lru == [id] + Drop(old(lru), {id})
    {
      if id !in sessions { return; }
      sessions := sessions[id := sessions[id].(lastActiveAt := now)];
      MoveToFront(id);
    }

    method MarkActive(id: Id, now: Time)
      modifies this
      ensures View() == old(View()).MarkActive(id, now)
    {
      if id !in sessions { return; }
      sessions := sessions[id := sessions[id].(state := Streaming)];
      sessions := sessions[id := sessions[id].(lastActiveAt := now)];
      MoveToFront(id);
    }

    method MarkReady(id: Id, now: Time)
      modifies this
      ensures View() == old(View()).MarkReady(id, now)
    {
      if id !in sessions { return; }
      sessions := sessions[id := sessions[id].(state := Ready)];
      sessions := sessions[id := sessions[id].(lastActiveAt := now)];
      MoveToFront(id);
    }

    method MarkIdle(id: Id, now: Time)
      modifies this
      ensures View() == old(View()).MarkIdle(id, now)
      ensures if id !in old(sessions) then View() == old(View())
              else var s := old(sessions)[id].(state := Ready, currentRequest := "", lastActiveAt := now);
                   sessions == old(sessions)[id := s] && lru == [id] + Drop(old(lru), {id})
    {
      if id !in sessions { return; }
      sessions := sessions[id := sessions[id].(state := Ready, currentRequest := "")];
      sessions := sessions[id := sessions[id].(lastActiveAt := now)];
      MoveToFront(id);
    }

    method MarkDraining(id: Id)
      modifies this`sessions
      ensures View() == old(View()).MarkDraining(id)
    {
      if id !in sessions { return; }
      sessions := sessions[id := sessions[id].(state := Draining)];
    }

    method MarkErrored(id: Id, reason: string)
      modifies this`sessions
      ensures View() == old(View()).MarkErrored(id, reason)
    {
      if id !in sessions { return; }
      sessions := sessions[id := sessions[id].(state := Errored)];
      sessions := sessions[id := sessions[id].(lastError := reason)];
    }

    /** A write to the record that `get` returns. */
    method SetCurrentRequest(id: Id, rid: Id)
      modifies this`sessions
      ensures View() == old(View()).SetCurrent(id, rid)
    {
      if id in sessions { sessions := sessions[id := sessions[id].(currentRequest := rid)]; }
    }

    method MarkClosed(id: Id)
      modifies this
      ensures View() == old(View()).MarkClosed(id)
    {
      sessions := sessions - {id};
      lru := Drop(lru, {id});
    }

    method FindIdleLeastRecentlyUsed() returns (found: Option<Id>)
      ensures found == LastReady(View(), lru)
      ensures View().Listed() && View().Chronological() ==>
                match found
                case None => forall id :: !View().IsReady(id)
                case Some(id) => View().IsReady(id)
                                 && forall x :: View().IsReady(x) ==>
                                      sessions[id].lastActiveAt <= sessions[x].lastActiveAt
    {
      if View().Listed() && View().Chronological() { LeastRecentlyUsed(View()); }
      assert lru[..|lru|] == lru;
      var i := |lru|;
      while i > 0
        invariant 0 <= i <= |lru| && LastReady(View(), lru) == LastReady(View(), lru[..i])
      {
        assert lru[..i][..i - 1] == lru[..i - 1];
        i := i - 1;
        if lru[i] in sessions && sessions[lru[i]].state == Ready { return Some(lru[i]); }
      }
      return None;
    }

    method CollectIdleExpired(now: Time) returns (out: seq<Id>)
      ensures out == IdleFromBack(View(), lru, now)
      ensures View().Listed() ==>
                Enumerates(out, set id | id in sessions && sessions[id].state == Ready
                                         && now - sessions[id].lastActiveAt >= idleTimeout)
    {
      IdleExpiry(View(), now);
      out := [];
      assert lru[..|lru|] == lru;
      var i := |lru|;
      while i > 0
        invariant 0 <= i <= |lru| && IdleFromBack(View(), lru, now) == out + IdleFromBack(View(), lru[..i], now)
      {
        i := i - 1;
        IdleStep(View(), lru, i, out, now);
        if lru[i] in sessions && sessions[lru[i]].state == Ready {
          if now - sessions[lru[i]].lastActiveAt >= idleTimeout {
            out := out + [lru[i]];
          }
        }
      }
    }

    /** The hash map is walked in some order of its own. */
    method CollectLifetimeExpired(now: Time) returns (out: seq<Id>)
      ensures Enumerates(out, set id | id in sessions && now - sessions[id].createdAt >= maxLifetime)
    {
      out := [];
      var rest := sessions.Keys;
      while rest != {}
        invariant rest <= sessions.Keys && Distinct(out)
        invariant forall id :: id in out <==> id in sessions && id !in rest && View().LifetimeExpired(id, now)
      {
        var id :| id in rest;
        rest := rest - {id};
        if now - sessions[id].createdAt >= maxLifetime { out := out + [id]; }
      }
    }
  }
}
