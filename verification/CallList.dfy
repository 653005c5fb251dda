/** The list of calls: what a change to one call, and the sweep over all of them, leave of the
    others. */
module CallList {
  import opened Domain
  import opened Trace
  import opened CallMachine
  import opened Bridge

  predicate Listed(calls: seq<CallV>, id: nat) {
    exists i | 0 <= i < |calls| :: calls[i].id == id
  }

  predicate DistinctIds(calls: seq<CallV>) {
    forall i, j | 0 <= i < |calls| && 0 <= j < |calls| && calls[i].id == calls[j].id :: i == j
  }

  // The call with this id came out as y: it is listed as that and not otherwise, or it is gone.
  predicate Lands(r: State, id: nat, y: Ctx) {
    && y.call.id == id && TraceOf(r, id) == y.log
    && (!y.call.Gone() ==> y.call in r.calls)
    && forall c | c in r.calls && c.id == id :: c == y.call && !y.call.Gone()
  }

  lemma ListedLands(s: State, i: nat)
    requires DistinctIds(s.calls) && i < |s.calls| && !s.calls[i].Gone()
    ensures Lands(s, s.calls[i].id, At(s, i))
  {
  }

  // ---------------------------------------------------------------- changes to the list

  lemma ActIds(s: State, i: nat, y: Ctx)
    requires i < |s.calls| && DistinctIds(s.calls) && y.call.id == s.calls[i].id
    ensures var calls := Relist(s.calls, i, y.call);
            && DistinctIds(calls)
            && (forall id | Listed(s.calls, id) && id != y.call.id :: Listed(calls, id))
            && (Listed(calls, y.call.id) <==> !y.call.Gone())
  {
    var calls := Relist(s.calls, i, y.call);
    forall id | Listed(s.calls, id) && id != y.call.id ensures Listed(calls, id) {
      var j :| 0 <= j < |s.calls| && s.calls[j].id == id;
      assert calls[if y.call.Gone() && j > i then j - 1 else j].id == id;
    }
    if !y.call.Gone() {
      assert calls[i].id == y.call.id;
    }
  }

  lemma ActLands(s: State, i: nat, y: Ctx)
    requires DistinctIds(s.calls) && i < |s.calls| && y.call.id == s.calls[i].id
    ensures Lands(Act(s, i, y), y.call.id, y)
  {
    var r := Act(s, i, y);
    if y.call.Gone() {
      assert forall k | 0 <= k < |r.calls| :: r.calls[k] == s.calls[if k < i then k else k + 1];
    }
  }

  lemma ActSpares(s: State, i: nat, y: Ctx, id: nat, z: Ctx)
    requires i < |s.calls| && y.call.id == s.calls[i].id != id && Lands(s, id, z)
    ensures Lands(Act(s, i, y), id, z)
  {
    var r := Act(s, i, y);
    forall c | c in r.calls && c.id == id ensures c == z.call && !z.call.Gone() {
      assert c in s.calls;
    }
    if !z.call.Gone() {
      var k :| 0 <= k < |s.calls| && s.calls[k] == z.call;
      assert r.calls[if y.call.Gone() && k > i then k - 1 else k] == z.call;
    }
  }

  lemma AddSpares(s: State, y: Ctx, id: nat, z: Ctx)
    requires y.call.id != id && Lands(s, id, z)
    ensures Lands(Add(s, y), id, z)
  {
  }

  // ---------------------------------------------------------------- the sweep

  lemma ReleaseKeepsId(x: Ctx, sl: Slot)
    ensures ReleaseIfAny(x, sl, false).call.id == x.call.id
  {
    hide DigestOf, Advance;
  }

  lemma DisconnectKeepsId(x: Ctx)
    ensures OnDisconnect(x).call.id == x.call.id
  {
    hide ReleaseIfAny;
    ReleaseKeepsId(x, Initial);
    ReleaseKeepsId(ReleaseIfAny(x, Initial, false), Remote);
  }

  // A call before the position, or not listed, is not visited.
  lemma {:induction false} SweepSpares(s: State, j: nat, id: nat, z: Ctx)
    requires j <= |s.calls| && Lands(s, id, z) && forall k | j <= k < |s.calls| :: s.calls[k].id != id
    ensures Lands(Sweep(s, j), id, z)
    decreases |s.calls| - j
  {
    hide OnDisconnect, Act, Lands;
    if j < |s.calls| {
      if !s.calls[j].HasMncc() {
        SweepSpares(s, j + 1, id, z);
      } else {
        var y := OnDisconnect(At(s, j));
        DisconnectKeepsId(At(s, j));
        ActSpares(s, j, y, id, z);
        ActMovesTail(s, j, y);
        SweepSpares(Act(s, j, y), if y.call.Gone() then j else j + 1, id, z);
      }
    }
  }

  // What is listed after the position stays so in order.
  lemma ActMovesTail(s: State, j: nat, y: Ctx)
    requires j < |s.calls|
    ensures Act(s, j, y).calls[if y.call.Gone() then j else j + 1..] == s.calls[j + 1..]
  {
  }

  // No call of the tail has the id of the call in front of it.
  lemma TailIsDistinct(calls: seq<CallV>, j: nat, rest: seq<CallV>, next: nat)
    requires DistinctIds(calls) && j < |calls| && next <= |rest| && rest[next..] == calls[j + 1..]
    ensures forall k | next <= k < |rest| :: rest[k].id != calls[j].id
  {
    forall k | next <= k < |rest| ensures rest[k].id != calls[j].id {
      assert rest[k] == rest[next..][k - next] == calls[j + 1 + (k - next)];
    }
  }

  // The call whose turn it is.
  lemma SweepVisits(s: State, j: nat)
    requires DistinctIds(s.calls) && j < |s.calls| && Lands(s, s.calls[j].id, At(s, j))
    ensures var x := At(s, j); Lands(Sweep(s, j), x.call.id, if x.call.HasMncc() then OnDisconnect(x) else x)
  {
    hide OnDisconnect, Act, Lands, DistinctIds;
    var y := OnDisconnect(At(s, j));
    if s.calls[j].HasMncc() {
      var s1, next := Act(s, j, y), if y.call.Gone() then j else j + 1;
      DisconnectKeepsId(At(s, j));
      ActMovesTail(s, j, y);
      ActLands(s, j, y);
      TailIsDistinct(s.calls, j, s1.calls, next);
      SweepSpares(s1, next, y.call.id, y);
    } else {
      TailIsDistinct(s.calls, j, s.calls, j + 1);
      SweepSpares(s, j + 1, s.calls[j].id, At(s, j));
    }
  }

  // One turn before it.
  lemma ActPasses(s: State, j: nat, k: nat, y: Ctx)
    requires DistinctIds(s.calls) && j < k < |s.calls| && Lands(s, s.calls[k].id, At(s, k))
    requires y.call.id == s.calls[j].id
    ensures var s1, k' := Act(s, j, y), if y.call.Gone() then k - 1 else k;
            && DistinctIds(s1.calls) && k' < |s1.calls| && At(s1, k') == At(s, k)
            && Lands(s1, s1.calls[k'].id, At(s1, k'))
  {
    hide Lands, DistinctIds;
    ActIds(s, j, y);
    IdsDiffer(s.calls, j, k);
    assert Act(s, j, y).calls[if y.call.Gone() then k - 1 else k] == s.calls[k];
    ActSpares(s, j, y, s.calls[k].id, At(s, k));
  }

  lemma IdsDiffer(calls: seq<CallV>, j: nat, k: nat)
    requires DistinctIds(calls) && j < |calls| && k < |calls| && j != k
    ensures calls[j].id != calls[k].id
  {
  }

  lemma {:induction false} SweepReaches(s: State, j: nat, k: nat)
    requires DistinctIds(s.calls) && j <= k < |s.calls| && Lands(s, s.calls[k].id, At(s, k))
    ensures var x := At(s, k); Lands(Sweep(s, j), x.call.id, if x.call.HasMncc() then OnDisconnect(x) else x)
    decreases |s.calls| - j
  {
    hide OnDisconnect, Act, Lands, DistinctIds;
    if k == j {
      SweepVisits(s, j);
    } else if s.calls[j].HasMncc() {
      var y := OnDisconnect(At(s, j));
      DisconnectKeepsId(At(s, j));
      ActPasses(s, j, k, y);
      SweepReaches(Act(s, j, y), if y.call.Gone() then j else j + 1, if y.call.Gone() then k - 1 else k);
    } else {
      SweepReaches(s, j + 1, k);
    }
  }

  // Whatever it is, a call before the position plays no part.
  lemma {:induction false} SweepIgnoresHead(s: State, c: CallV, j: nat)
    requires 0 < j <= |s.calls|
    ensures var r := Sweep(s, j);
            r.calls != [] && Sweep(s.(calls := s.calls[0 := c]), j) == r.(calls := r.calls[0 := c])
    decreases |s.calls| - j
  {
    hide OnDisconnect, Act;
    if j < |s.calls| {
      if !s.calls[j].HasMncc() {
        SweepIgnoresHead(s, c, j + 1);
      } else {
        var y := OnDisconnect(At(s, j));
        ActIgnoresHead(s, c, j, y);
        SweepIgnoresHead(Act(s, j, y), c, if y.call.Gone() then j else j + 1);
      }
    }
  }

  lemma ActIgnoresHead(s: State, c: CallV, j: nat, y: Ctx)
    requires 0 < j < |s.calls|
    ensures var r := Act(s, j, y);
            r.calls != [] && Act(s.(calls := s.calls[0 := c]), j, y) == r.(calls := r.calls[0 := c])
  {
  }

  // No call appears.
  lemma {:induction false} SweepAddsNone(s: State, j: nat, id: nat)
    requires j <= |s.calls| && !Listed(s.calls, id)
    ensures !Listed(Sweep(s, j).calls, id)
    decreases |s.calls| - j
  {
    hide OnDisconnect;
    if j < |s.calls| {
      if !s.calls[j].HasMncc() {
        SweepAddsNone(s, j + 1, id);
      } else {
        var y := OnDisconnect(At(s, j));
        DisconnectKeepsId(At(s, j));
        SweepAddsNone(Act(s, j, y), if y.call.Gone() then j else j + 1, id);
      }
    }
  }

  // A sweep changes only calls and traces.
  lemma {:induction false} SweepFrame(s: State, j: nat)
    requires j <= |s.calls|
    ensures var r := Sweep(s, j); r == s.(calls := r.calls, traces := r.traces)
    decreases |s.calls| - j
  {
    hide OnDisconnect;
    if j < |s.calls| {
      if !s.calls[j].HasMncc() {
        SweepFrame(s, j + 1);
      } else {
        var y := OnDisconnect(At(s, j));
        SweepFrame(Act(s, j, y), if y.call.Gone() then j else j + 1);
      }
    }
  }

  // Closing an open connection disconnects and arms the reconnect timer; a closed one stays as it is.
  lemma CloseFrame(s: State)
    ensures var r := CloseConnection(s);
            r == if s.fdOpen then State(r.calls, r.traces, s.lastId, Disconnected, false, true) else s
  {
    hide Sweep;
    if s.fdOpen {
      SweepFrame(s.(conn := Disconnected, fdOpen := false, reconnect := true), 0);
    }
  }
}
