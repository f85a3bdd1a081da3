/** What a board save does to one panel id, and to the trace as a whole, for
    every iteration order of the two dicts (jia/jia/views.py:128-175). */
module ReconcileProps {
  import opened Wrappers
  import opened Panels
  import opened Reconcile

  /** The calls of `calls` made with a panel whose id is `id`, in order. */
  function CallsFor(calls: seq<Call>, id: string): (r: seq<Call>)
    ensures |r| <= |calls|
  {
    if calls == [] then []
    else
      var last := |calls| - 1;
      CallsFor(calls[..last], id) + (if calls[last].panel.id == Some(id) then [calls[last]] else [])
  }

  lemma {:induction false} CallsForAppend(a: seq<Call>, b: seq<Call>, id: string)
    ensures CallsFor(a + b, id) == CallsFor(a, id) + CallsFor(b, id)
    decreases |b|
  {
    if b == [] {
      assert a + b == a;
    } else {
      var last := |b| - 1;
      CallsForAppend(a, b[..last], id);
      assert (a + b)[..|a + b| - 1] == a + b[..last];
      assert (a + b)[|a + b| - 1] == b[last];
    }
  }

  /** Calls all made with panels of id `k` belong to `id` exactly when `k` is `id`. */
  lemma {:induction false} CallsForOwn(calls: seq<Call>, k: string, id: string)
    requires forall i :: 0 <= i < |calls| ==> calls[i].panel.id == Some(k)
    ensures CallsFor(calls, id) == if k == id then calls else []
  {
    if calls != [] {
      var last := |calls| - 1;
      CallsForOwn(calls[..last], k, id);
      assert calls[..last] + [calls[last]] == calls;
    }
  }


  /** One turn of a loop, seen from one id: the id's calls so far, then the
      turn's own calls when the turn is the id's. */
  lemma CallsForStep(whole: seq<Call>, prev: seq<Call>, turn: seq<Call>, k: string, id: string,
                     before: bool, mine: seq<Call>)
    requires whole == prev + turn
    requires CallsFor(prev, id) == if before then mine else []
    requires CallsFor(turn, id) == if k == id then turn else []
    requires k == id ==> !before && turn == mine
    ensures CallsFor(whole, id) == if before || k == id then mine else []
  {
    CallsForAppend(prev, turn, id);
  }

  /** An iteration order visits exactly the keys it enumerates. */
  lemma {:induction false} EnumeratesMembers(order: seq<string>, keys: set<string>)
    requires Enumerates(order, keys)
    ensures forall k :: k in order <==> k in keys
  {
    if order != [] {
      var last := |order| - 1;
      EnumeratesMembers(order[..last], keys - {order[last]});
      assert order == order[..last] + [order[last]];
    }
  }

  /** The first loop issues, for id `id`, what `FirstLoopCalls` gives for the
      stored panel with that id, and nothing for an id it does not visit. */
  lemma {:induction false} FirstPassFor(stored: map<string, Panel>, list: seq<Panel>, ix: map<string, nat>,
                                        order: seq<string>, keys: set<string>, id: string)
    requires WellKeyed(stored) && keys <= stored.Keys && Enumerates(order, keys)
    ensures CallsFor(FirstPass(stored, list, ix, order), id)
         == if id in keys then FirstLoopCalls(stored[id], Incoming(list, ix, id)) else []
  {
    if order != [] {
      var last := |order| - 1;
      var k := order[last];
      var prev := FirstPass(stored, list, ix, order[..last]);
      var turn := FirstLoopCalls(stored[k], Incoming(list, ix, k));
      assert FirstPass(stored, list, ix, order) == prev + turn;
      assert CallsFor(turn, id) == if k == id then turn else [] by {
        CallsForOwn(turn, k, id);
      }
      var mine := if id in stored then FirstLoopCalls(stored[id], Incoming(list, ix, id)) else [];
      assert CallsFor(prev, id) == if id in keys - {k} then mine else [] by {
        FirstPassFor(stored, list, ix, order[..last], keys - {k}, id);
      }
      CallsForStep(FirstPass(stored, list, ix, order), prev, turn, k, id, id in keys - {k}, mine);
    }
  }

  /** `FirstPassFor` over all the stored ids. */
  lemma FirstPassForAll(stored: map<string, Panel>, list: seq<Panel>, ix: map<string, nat>,
                        order: seq<string>, id: string)
    requires WellKeyed(stored) && Enumerates(order, stored.Keys)
    ensures var o := Lookup(stored, id);
            CallsFor(FirstPass(stored, list, ix, order), id)
              == if o.Some? then FirstLoopCalls(o.value, Incoming(list, ix, id)) else []
  {
    FirstPassFor(stored, list, ix, order, stored.Keys, id);
  }

  /** Position `i` of `list` is the one the incoming dict keeps for an id of `keys`. */
  ghost predicate KeptFor(list: seq<Panel>, ix: map<string, nat>, keys: set<string>, i: int)
    requires 0 <= i < |list|
  {
    list[i].id.Some? && list[i].id.value in keys && list[i].id.value in ix && ix[list[i].id.value] == i
  }

  /** The second loop writes only at the positions the dict keeps for the ids
      it has visited. */
  lemma {:induction false} SecondPassUntouched(stored: map<string, Panel>, list: seq<Panel>, ix: map<string, nat>,
                                              order: seq<string>, keys: set<string>, base: nat)
    requires IsLastIndex(list, ix) && keys <= ix.Keys && Enumerates(order, keys)
    ensures var r := SecondPass(stored, list, ix, order, base);
            forall i :: 0 <= i < |list| && !KeptFor(list, ix, keys, i) ==> r.list[i] == list[i]
  {
    if order != [] {
      var last := |order| - 1;
      var k := order[last];
      SecondPassUntouched(stored, list, ix, order[..last], keys - {k}, base);
      var prev := SecondPass(stored, list, ix, order[..last], base);
      var r := SecondPass(stored, list, ix, order, base);
      forall i | 0 <= i < |list| && !KeptFor(list, ix, keys, i)
        ensures r.list[i] == list[i]
      {
        assert i != ix[k];
        assert !KeptFor(list, ix, keys - {k}, i);
      }
    }
  }

  /** A key the second loop has not visited still shows its incoming panel. */
  lemma UnvisitedUntouched(stored: map<string, Panel>, list: seq<Panel>, ix: map<string, nat>,
                           order: seq<string>, keys: set<string>, base: nat, k: string)
    requires IsLastIndex(list, ix) && keys <= ix.Keys && Enumerates(order, keys)
    requires k in ix && k !in keys
    ensures SecondPass(stored, list, ix, order, base).list[ix[k]] == list[ix[k]]
  {
    SecondPassUntouched(stored, list, ix, order, keys, base);
    assert !KeptFor(list, ix, keys, ix[k]);
  }

  /** The calls one turn of the second loop makes all carry the turn's id. */
  lemma SecondLoopCallsOwn(stored: map<string, Panel>, incoming: Panel, k: string)
    requires WellKeyed(stored) && incoming.id == Some(k)
    ensures var calls := SecondLoopCalls(incoming, Lookup(stored, k));
            forall i :: 0 <= i < |calls| ==> calls[i].panel.id == Some(k)
  {
  }

  /** A turn appends the calls the loop makes for the panel it reads. */
  lemma TurnCalls(stored: map<string, Panel>, ix: map<string, nat>, base: nat, prev: Pass, k: string)
    requires k in ix && ix[k] < |prev.list|
    ensures Turn(stored, ix, base, prev, k).calls == prev.calls + SecondLoopCalls(prev.list[ix[k]], Lookup(stored, k))
  {
  }

  /** The second loop issues, for id `id`, what `SecondLoopCalls` gives for the
      incoming panel with that id, and nothing for an id it does not visit. */
  lemma {:induction false} SecondPassFor(stored: map<string, Panel>, list: seq<Panel>, ix: map<string, nat>,
                                         order: seq<string>, keys: set<string>, base: nat, id: string)
    requires WellKeyed(stored) && IsLastIndex(list, ix) && keys <= ix.Keys && Enumerates(order, keys)
    ensures CallsFor(SecondPass(stored, list, ix, order, base).calls, id)
         == if id in keys then SecondLoopCalls(list[ix[id]], Lookup(stored, id)) else []
  {
    if order != [] {
      var last := |order| - 1;
      var k := order[last];
      var prev := SecondPass(stored, list, ix, order[..last], base);
      var turn := SecondLoopCalls(list[ix[k]], Lookup(stored, k));
      assert SecondPass(stored, list, ix, order, base).calls == prev.calls + turn by {
        UnvisitedUntouched(stored, list, ix, order[..last], keys - {k}, base, k);
        TurnCalls(stored, ix, base, prev, k);
      }
      assert CallsFor(turn, id) == if k == id then turn else [] by {
        SecondLoopCallsOwn(stored, list[ix[k]], k);
        CallsForOwn(turn, k, id);
      }
      var mine := if id in ix then SecondLoopCalls(list[ix[id]], Lookup(stored, id)) else [];
      assert CallsFor(prev.calls, id) == if id in keys - {k} then mine else [] by {
        SecondPassFor(stored, list, ix, order[..last], keys - {k}, base, id);
      }
      CallsForStep(SecondPass(stored, list, ix, order, base).calls, prev.calls, turn, k, id, id in keys - {k}, mine);
    }
  }

  /** A turn that makes calls ends with the enable of its incoming panel. */
  lemma SecondLoopCallsEndWithEnable(incoming: Panel, stored: Option<Panel>)
    ensures var calls := SecondLoopCalls(incoming, stored);
            calls != [] ==> calls[|calls| - 1] == Enable(incoming)
  {
  }

  /** A turn appends its calls and rewrites only the position kept for its id. */
  lemma TurnFrame(stored: map<string, Panel>, ix: map<string, nat>, base: nat, prev: Pass, k: string, i: int)
    requires 0 <= i < |prev.list| && (k in ix ==> i != ix[k])
    ensures var r := Turn(stored, ix, base, prev, k);
            |prev.calls| <= |r.calls| && r.calls[..|prev.calls|] == prev.calls && r.list[i] == prev.list[i]
  {
  }

  /** The turn of `k` itself, on a panel it has not touched yet. */
  lemma TurnOwn(stored: map<string, Panel>, ix: map<string, nat>, base: nat, prev: Pass, k: string)
    requires k in ix && ix[k] < |prev.list|
    ensures var r := Turn(stored, ix, base, prev, k);
            var calls := SecondLoopCalls(prev.list[ix[k]], Lookup(stored, k));
            && r.calls == prev.calls + calls
            && (calls == [] ==> r.list[ix[k]] == prev.list[ix[k]])
            && (calls != [] ==> r.list[ix[k]] == prev.list[ix[k]].WithTaskId(TaskId(base + |r.calls| - 1)))
  {
  }

  /** `block` sits in `calls` as the run of calls ending at position `j`. */
  ghost predicate EndsAt(calls: seq<Call>, block: seq<Call>, j: int)
  {
    |block| <= j + 1 <= |calls| && calls[j + 1 - |block|..j + 1] == block
  }

  /** A run inside a prefix stays where it was when calls are appended. */
  lemma EndsAtPrefix(whole: seq<Call>, prefix: seq<Call>, block: seq<Call>, j: int)
    requires |prefix| <= |whole| && whole[..|prefix|] == prefix && EndsAt(prefix, block, j)
    ensures EndsAt(whole, block, j)
  {
    assert whole[j + 1 - |block|..j + 1] == whole[..|prefix|][j + 1 - |block|..j + 1];
  }

  /** What the second loop has done to the panel at `at`, whose turn issues
      `calls`: nothing when there are none; otherwise they form the run of
      calls ending at position `j`, an enable of `p`, and the panel carries
      the id that enable returned, the client's `base + j`-th call. */
  ghost predicate StampedAt(r: Pass, at: nat, p: Panel, calls: seq<Call>, base: nat, j: nat)
    requires at < |r.list|
  {
    && (calls == [] ==> r.list[at] == p)
    && (calls != [] ==> && EndsAt(r.calls, calls, j) && r.calls[j] == Enable(p)
                        && r.list[at] == p.WithTaskId(TaskId(base + j)))
  }

  /** The turn of `k` stamps the panel it reads. */
  lemma StampsOwnTurn(stored: map<string, Panel>, ix: map<string, nat>, base: nat, prev: Pass, k: string)
    returns (j: nat)
    requires k in ix && ix[k] < |prev.list|
    ensures var p := prev.list[ix[k]];
            StampedAt(Turn(stored, ix, base, prev, k), ix[k], p, SecondLoopCalls(p, Lookup(stored, k)), base, j)
  {
    var r := Turn(stored, ix, base, prev, k);
    var p := prev.list[ix[k]];
    var calls := SecondLoopCalls(p, Lookup(stored, k));
    TurnOwn(stored, ix, base, prev, k);
    j := if r.calls == [] then 0 else |r.calls| - 1;
    if calls != [] {
      SecondLoopCallsEndWithEnable(p, Lookup(stored, k));
      assert r.calls[j + 1 - |calls|..j + 1] == calls;
    }
  }

  /** A turn for another id keeps what earlier turns did at `at`. */
  lemma StampsOtherTurn(stored: map<string, Panel>, ix: map<string, nat>, base: nat, prev: Pass, k: string,
                        at: nat, p: Panel, calls: seq<Call>, j: nat)
    requires at < |prev.list| && (k in ix ==> at != ix[k]) && StampedAt(prev, at, p, calls, base, j)
    ensures StampedAt(Turn(stored, ix, base, prev, k), at, p, calls, base, j)
  {
    var r := Turn(stored, ix, base, prev, k);
    TurnFrame(stored, ix, base, prev, k, at);
    if calls != [] {
      EndsAtPrefix(r.calls, prev.calls, calls, j);
      assert r.calls[j] == r.calls[..|prev.calls|][j];
    }
  }

  /** The second loop stamps the panel the dict keeps for each id it visits. */
  lemma {:induction false} SecondPassStamps(stored: map<string, Panel>, list: seq<Panel>, ix: map<string, nat>,
                                            order: seq<string>, keys: set<string>, base: nat, id: string)
    returns (j: nat)
    requires IsLastIndex(list, ix) && keys <= ix.Keys && Enumerates(order, keys) && id in keys
    ensures var p := list[ix[id]];
            StampedAt(SecondPass(stored, list, ix, order, base), ix[id], p, SecondLoopCalls(p, Lookup(stored, id)), base, j)
  {
    var last := |order| - 1;
    var k := order[last];
    var prev := SecondPass(stored, list, ix, order[..last], base);
    assert SecondPass(stored, list, ix, order, base) == Turn(stored, ix, base, prev, k);
    if id == k {
      UnvisitedUntouched(stored, list, ix, order[..last], keys - {k}, base, k);
      j := StampsOwnTurn(stored, ix, base, prev, k);
    } else {
      j := SecondPassStamps(stored, list, ix, order[..last], keys - {k}, base, id);
      var p := list[ix[id]];
      StampsOtherTurn(stored, ix, base, prev, k, ix[id], p, SecondLoopCalls(p, Lookup(stored, id)), j);
    }
  }

  /** A board save as `ReconcileBoard` runs it: stored panels by id, the
      incoming list with the positions its dict keeps, and one iteration order
      per dict. */
  ghost predicate Saving(stored: map<string, Panel>, list: seq<Panel>, ix: map<string, nat>,
                         order1: seq<string>, order2: seq<string>)
  {
    WellKeyed(stored) && IsLastIndex(list, ix) && Enumerates(order1, stored.Keys) && Enumerates(order2, ix.Keys)
  }

  /** The calls a save makes for one panel id, by the per-id case table:
      the stored panel with that id (if any) against the incoming one (if any). */
  function Expected(old_: Option<Panel>, new_: Option<Panel>): (r: seq<Call>)
    ensures |r| <= 2
  {
    match (old_, new_)
    case (Some(o), None) => if o.PrecomputeOn() then [Disable(o)] else []
    case (None, Some(n)) => if n.PrecomputeOn() then [Enable(n)] else []
    case (Some(o), Some(n)) =>
      if o.PrecomputeOn() && !n.PrecomputeOn() then [Disable(o)]
      else if !o.PrecomputeOn() && n.PrecomputeOn() then [Enable(n)]
      else if o.PrecomputeOn() && n.PrecomputeOn() && NeedsRestart(o, n) then [Disable(o), Enable(n)]
      else []
    case (None, None) => []
  }

  /** The panel the incoming dict holds for `k`, read off the list. */
  lemma IncomingIsDictEntry(list: seq<Panel>, ix: map<string, nat>, k: string)
    requires IsLastIndex(list, ix)
    ensures Incoming(list, ix, k) == Lookup(PanelsAt(list, ix), k)
  {
  }

  /** `SecondPassFor` over all the incoming ids. */
  lemma SecondPassForAll(stored: map<string, Panel>, list: seq<Panel>, ix: map<string, nat>,
                         order: seq<string>, base: nat, id: string)
    requires WellKeyed(stored) && IsLastIndex(list, ix) && Enumerates(order, ix.Keys)
    ensures var n := Incoming(list, ix, id);
            CallsFor(SecondPass(stored, list, ix, order, base).calls, id)
              == if n.Some? then SecondLoopCalls(n.value, Lookup(stored, id)) else []
  {
    SecondPassFor(stored, list, ix, order, ix.Keys, base, id);
  }

  /** The two loops' calls for one id together make the case table's entry. */
  lemma LoopsMakeTable(old_: Option<Panel>, new_: Option<Panel>)
    ensures (if old_.Some? then FirstLoopCalls(old_.value, new_) else [])
          + (if new_.Some? then SecondLoopCalls(new_.value, old_) else [])
         == Expected(old_, new_)
  {
  }

  /** Whatever the iteration orders, the calls a save makes with the panels of
      one id are exactly those of the case table for that id. */
  lemma {:induction false} CallsPerId(stored: map<string, Panel>, list: seq<Panel>, ix: map<string, nat>,
                                      order1: seq<string>, order2: seq<string>, base: nat, id: string)
    requires Saving(stored, list, ix, order1, order2)
    ensures CallsFor(Outcome(stored, list, ix, order1, order2, base).calls, id)
         == Expected(Lookup(stored, id), Incoming(list, ix, id))
  {
    var first := FirstPass(stored, list, ix, order1);
    var seen := base + |first|;
    var second := SecondPass(stored, list, ix, order2, seen);
    var o := Lookup(stored, id);
    var n := Incoming(list, ix, id);
    OutcomeParts(stored, list, ix, order1, order2, base, seen);
    FirstPassForAll(stored, list, ix, order1, id);
    SecondPassForAll(stored, list, ix, order2, seen, id);
    LoopsMakeTable(o, n);
    CallsForAppend(first, second.calls, id);
  }

  /** A run of calls ending at `j` in the second loop's calls ends at
      `|first| + j` in the whole trace. */
  lemma StampedShift(out: Pass, first: seq<Call>, second: Pass, at: nat, p: Panel, calls: seq<Call>,
                     base: nat, seen: nat, j: nat, k: nat)
    requires out.calls == first + second.calls && out.list == second.list && seen == base + |first|
    requires at < |second.list| && StampedAt(second, at, p, calls, seen, j) && k == |first| + j
    ensures StampedAt(out, at, p, calls, base, k)
  {
    if calls != [] {
      assert out.calls[k + 1 - |calls|..k + 1] == second.calls[j + 1 - |calls|..j + 1];
    }
  }

  /** The task ids a save writes, read in its whole trace: the panel the
      incoming dict keeps for `id` is left alone when the second loop makes no
      call for it; otherwise its calls form one unbroken run ending at
      position `j` with the enable of that panel, which is the client's
      `base + j`-th call and returned the id the panel now carries. */
  lemma SaveStamps(stored: map<string, Panel>, list: seq<Panel>, ix: map<string, nat>,
                   order1: seq<string>, order2: seq<string>, base: nat, id: string)
    returns (j: nat)
    requires Saving(stored, list, ix, order1, order2) && id in ix
    ensures var p := list[ix[id]];
            StampedAt(Outcome(stored, list, ix, order1, order2, base), ix[id], p,
                      SecondLoopCalls(p, Lookup(stored, id)), base, j)
  {
    var first := FirstPass(stored, list, ix, order1);
    var seen := base + |first|;
    var second := SecondPass(stored, list, ix, order2, seen);
    OutcomeParts(stored, list, ix, order1, order2, base, seen);
    var p := list[ix[id]];
    var j2 := SecondPassStamps(stored, list, ix, order2, ix.Keys, seen, id);
    j := |first| + j2;
    StampedShift(Outcome(stored, list, ix, order1, order2, base), first, second, ix[id], p,
                 SecondLoopCalls(p, Lookup(stored, id)), base, seen, j2, j);
  }

  /** Deletion (views.py:143-144): a stored panel with precompute on and no
      incoming panel with its id gets one disable, and nothing else. */
  lemma SaveDeletes(stored: map<string, Panel>, list: seq<Panel>, ix: map<string, nat>,
                    order1: seq<string>, order2: seq<string>, base: nat, id: string)
    requires Saving(stored, list, ix, order1, order2)
    requires id in stored && stored[id].PrecomputeOn() && id !in ix
    ensures CallsFor(Outcome(stored, list, ix, order1, order2, base).calls, id) == [Disable(stored[id])]
  {
    CallsPerId(stored, list, ix, order1, order2, base, id);
  }

  /** Switch-off (views.py:147-150, 153): one disable of the stored panel, no
      enable, and the incoming panel is saved as it came. */
  lemma SaveSwitchesOff(stored: map<string, Panel>, list: seq<Panel>, ix: map<string, nat>,
                        order1: seq<string>, order2: seq<string>, base: nat, id: string)
    requires Saving(stored, list, ix, order1, order2)
    requires id in stored && id in ix && stored[id].PrecomputeOn() && !list[ix[id]].PrecomputeOn()
    ensures var out := Outcome(stored, list, ix, order1, order2, base);
            && CallsFor(out.calls, id) == [Disable(stored[id])]
            && out.list[ix[id]] == list[ix[id]]
  {
    CallsPerId(stored, list, ix, order1, order2, base, id);
    var _ := SaveStamps(stored, list, ix, order1, order2, base, id);
  }

  /** Creation or switch-on (views.py:157-160): an incoming panel with
      precompute on whose stored counterpart is absent or off gets one enable,
      the `base + j`-th call of the client, and is saved carrying the id that
      enable returned. */
  lemma SaveCreates(stored: map<string, Panel>, list: seq<Panel>, ix: map<string, nat>,
                    order1: seq<string>, order2: seq<string>, base: nat, id: string)
    returns (j: nat)
    requires Saving(stored, list, ix, order1, order2)
    requires id in ix && list[ix[id]].PrecomputeOn() && (id in stored ==> !stored[id].PrecomputeOn())
    ensures var out := Outcome(stored, list, ix, order1, order2, base);
            var p := list[ix[id]];
            && CallsFor(out.calls, id) == [Enable(p)]
            && j < |out.calls| && out.calls[j] == Enable(p)
            && out.list[ix[id]] == p.WithTaskId(TaskId(base + j))
  {
    CallsPerId(stored, list, ix, order1, order2, base, id);
    j := SaveStamps(stored, list, ix, order1, order2, base, id);
  }

  /** Restart (views.py:163-170): both sides on and `code`, `precompute` or
      `timeframe` changed: the disable of the stored panel comes immediately
      before the enable of the incoming one, and the panel is saved carrying
      the id that enable returned. */
  lemma SaveRestarts(stored: map<string, Panel>, list: seq<Panel>, ix: map<string, nat>,
                     order1: seq<string>, order2: seq<string>, base: nat, id: string)
    returns (j: nat)
    requires Saving(stored, list, ix, order1, order2)
    requires id in stored && id in ix && stored[id].PrecomputeOn() && list[ix[id]].PrecomputeOn()
    requires NeedsRestart(stored[id], list[ix[id]])
    ensures var out := Outcome(stored, list, ix, order1, order2, base);
            var p := list[ix[id]];
            && CallsFor(out.calls, id) == [Disable(stored[id]), Enable(p)]
            && 1 <= j < |out.calls| && out.calls[j - 1] == Disable(stored[id]) && out.calls[j] == Enable(p)
            && out.list[ix[id]] == p.WithTaskId(TaskId(base + j))
  {
    CallsPerId(stored, list, ix, order1, order2, base, id);
    j := SaveStamps(stored, list, ix, order1, order2, base, id);
    var out := Outcome(stored, list, ix, order1, order2, base);
    assert out.calls[j - 1] == out.calls[j - 1..j + 1][0];
  }

  /** The no-op cases (views.py:143-167): both sides on with `code`,
      `precompute` and `timeframe` equal, or both sides off whatever else
      changed: no call for the id, and the incoming panel is saved as it came. */
  lemma SaveKeeps(stored: map<string, Panel>, list: seq<Panel>, ix: map<string, nat>,
                  order1: seq<string>, order2: seq<string>, base: nat, id: string)
    requires Saving(stored, list, ix, order1, order2)
    requires id in stored && id in ix
    requires || (stored[id].PrecomputeOn() && list[ix[id]].PrecomputeOn() && !NeedsRestart(stored[id], list[ix[id]]))
             || (!stored[id].PrecomputeOn() && !list[ix[id]].PrecomputeOn())
    ensures var out := Outcome(stored, list, ix, order1, order2, base);
            CallsFor(out.calls, id) == [] && out.list[ix[id]] == list[ix[id]]
  {
    CallsPerId(stored, list, ix, order1, order2, base, id);
    var _ := SaveStamps(stored, list, ix, order1, order2, base, id);
  }

  /** A call the first loop can make: a disable of a stored panel with
      precompute on whose id the incoming dict lacks or holds switched off. */
  ghost predicate FirstLoopCall(stored: map<string, Panel>, list: seq<Panel>, ix: map<string, nat>, c: Call)
  {
    && c.Disable? && c.panel.id.Some? && c.panel.id.value in stored
    && c.panel == stored[c.panel.id.value] && c.panel.PrecomputeOn()
    && var n := Incoming(list, ix, c.panel.id.value); n.None? || !n.value.PrecomputeOn()
  }

  /** A call the second loop can make: one for an id the incoming dict holds
      with precompute on, either the enable of that panel or the restart's
      disable of the stored panel with precompute on. */
  ghost predicate SecondLoopCall(stored: map<string, Panel>, list: seq<Panel>, ix: map<string, nat>, c: Call)
  {
    && c.panel.id.Some? && c.panel.id.value in ix && ix[c.panel.id.value] < |list|
    && var k := c.panel.id.value;
       && list[ix[k]].PrecomputeOn()
       && (c.Enable? ==> c.panel == list[ix[k]])
       && (c.Disable? ==> k in stored && c.panel == stored[k] && stored[k].PrecomputeOn())
  }

  lemma {:induction false} FirstPassShape(stored: map<string, Panel>, list: seq<Panel>, ix: map<string, nat>,
                                          order: seq<string>, keys: set<string>)
    requires WellKeyed(stored) && keys <= stored.Keys && Enumerates(order, keys)
    ensures var calls := FirstPass(stored, list, ix, order);
            forall i :: 0 <= i < |calls| ==> FirstLoopCall(stored, list, ix, calls[i])
    ensures |FirstPass(stored, list, ix, order)| <= |order|
  {
    if order != [] {
      var last := |order| - 1;
      var k := order[last];
      var prev := FirstPass(stored, list, ix, order[..last]);
      var turn := FirstLoopCalls(stored[k], Incoming(list, ix, k));
      assert FirstPass(stored, list, ix, order) == prev + turn;
      assert (forall i :: 0 <= i < |prev| ==> FirstLoopCall(stored, list, ix, prev[i])) && |prev| <= last by {
        FirstPassShape(stored, list, ix, order[..last], keys - {k});
        assert prev == FirstPass(stored, list, ix, order[..last]);
      }
      assert forall i :: 0 <= i < |turn| ==> FirstLoopCall(stored, list, ix, turn[i]);
      forall i | 0 <= i < |prev + turn|
        ensures FirstLoopCall(stored, list, ix, (prev + turn)[i])
      {
        if i < |prev| {
          assert (prev + turn)[i] == prev[i];
        } else {
          assert (prev + turn)[i] == turn[i - |prev|];
        }
      }
    }
  }

  lemma SecondLoopCallsShape(stored: map<string, Panel>, list: seq<Panel>, ix: map<string, nat>, k: string)
    requires WellKeyed(stored) && k in ix && ix[k] < |list| && list[ix[k]].id == Some(k)
    ensures var turn := SecondLoopCalls(list[ix[k]], Lookup(stored, k));
            forall i :: 0 <= i < |turn| ==> SecondLoopCall(stored, list, ix, turn[i])
  {
  }

  lemma {:induction false} SecondPassShape(stored: map<string, Panel>, list: seq<Panel>, ix: map<string, nat>,
                                           order: seq<string>, keys: set<string>, base: nat)
    requires WellKeyed(stored) && IsLastIndex(list, ix) && keys <= ix.Keys && Enumerates(order, keys)
    ensures var calls := SecondPass(stored, list, ix, order, base).calls;
            forall i :: 0 <= i < |calls| ==> SecondLoopCall(stored, list, ix, calls[i])
  {
    if order != [] {
      var last := |order| - 1;
      var k := order[last];
      var prev := SecondPass(stored, list, ix, order[..last], base);
      var turn := SecondLoopCalls(list[ix[k]], Lookup(stored, k));
      assert SecondPass(stored, list, ix, order, base).calls == prev.calls + turn by {
        UnvisitedUntouched(stored, list, ix, order[..last], keys - {k}, base, k);
        TurnCalls(stored, ix, base, prev, k);
      }
      assert forall i :: 0 <= i < |prev.calls| ==> SecondLoopCall(stored, list, ix, prev.calls[i]) by {
        SecondPassShape(stored, list, ix, order[..last], keys - {k}, base);
        assert prev == SecondPass(stored, list, ix, order[..last], base);
      }
      SecondLoopCallsShape(stored, list, ix, k);
      forall i | 0 <= i < |prev.calls + turn|
        ensures SecondLoopCall(stored, list, ix, (prev.calls + turn)[i])
      {
        if i < |prev.calls| {
          assert (prev.calls + turn)[i] == prev.calls[i];
        } else {
          assert (prev.calls + turn)[i] == turn[i - |prev.calls|];
        }
      }
    }
  }

  lemma AppendSuffix<T>(a: seq<T>, b: seq<T>)
    ensures forall i :: |a| <= i < |a + b| ==> (a + b)[i] == b[i - |a|]
  {
  }

  /** Ordering (views.py:139-170): the trace of a save is the first loop's
      disables, all of them, and then the second loop's calls. */
  lemma SavePhases(stored: map<string, Panel>, list: seq<Panel>, ix: map<string, nat>,
                   order1: seq<string>, order2: seq<string>, base: nat)
    returns (split: nat)
    requires Saving(stored, list, ix, order1, order2)
    ensures var calls := Outcome(stored, list, ix, order1, order2, base).calls;
            && split <= |calls|
            && (forall i :: 0 <= i < split ==> FirstLoopCall(stored, list, ix, calls[i]))
            && (forall i :: split <= i < |calls| ==> SecondLoopCall(stored, list, ix, calls[i]))
  {
    var first := FirstPass(stored, list, ix, order1);
    var seen := base + |first|;
    var second := SecondPass(stored, list, ix, order2, seen);
    OutcomeParts(stored, list, ix, order1, order2, base, seen);
    FirstPassShape(stored, list, ix, order1, stored.Keys);
    SecondPassShape(stored, list, ix, order2, ix.Keys, seen);
    split := |first|;
    AppendSuffix(first, second.calls);
  }

  /** An empty dict has the one, empty, iteration order. */
  lemma NothingToEnumerate(order: seq<string>)
    requires Enumerates(order, {})
    ensures order == []
  {
  }

  /** Legacy fallback (views.py:128-135, 157-160): when a stored panel has no
      id the stored dict is empty, so a save issues no disable at all, and each
      incoming panel with precompute on gets exactly one enable. */
  lemma SaveLegacy(stored: seq<Panel>, list: seq<Panel>, ix: map<string, nat>,
                   order1: seq<string>, order2: seq<string>, base: nat, id: string)
    requires !AllIdentified(stored) && Saving(StoredById(stored), list, ix, order1, order2)
    ensures var out := Outcome(StoredById(stored), list, ix, order1, order2, base);
            && (forall i :: 0 <= i < |out.calls| ==> out.calls[i].Enable?)
            && CallsFor(out.calls, id) == if id in ix && list[ix[id]].PrecomputeOn() then [Enable(list[ix[id]])] else []
  {
    var old_ := StoredById(stored);
    assert old_ == map[];
    NothingToEnumerate(order1);
    OutcomeParts(old_, list, ix, order1, order2, base, base);
    SecondPassShape(old_, list, ix, order2, ix.Keys, base);
    CallsPerId(old_, list, ix, order1, order2, base, id);
  }

  /** A turn only ever rewrites `task_id`. */
  lemma TurnSameExcept(stored: map<string, Panel>, ix: map<string, nat>, base: nat, prev: Pass, k: string)
    ensures var r := Turn(stored, ix, base, prev, k);
            forall i :: 0 <= i < |prev.list| ==> SameExceptTaskId(r.list[i], prev.list[i])
  {
    var r := Turn(stored, ix, base, prev, k);
    forall i | 0 <= i < |prev.list|
      ensures SameExceptTaskId(r.list[i], prev.list[i])
    {
      var p := prev.list[i];
      forall t: TaskId
        ensures p.WithTaskId(t).WithoutTaskId() == p.WithoutTaskId()
      {
      }
    }
  }

  lemma {:induction false} SecondPassSameExcept(stored: map<string, Panel>, list: seq<Panel>, ix: map<string, nat>,
                                                order: seq<string>, base: nat)
    ensures var r := SecondPass(stored, list, ix, order, base);
            forall i :: 0 <= i < |list| ==> SameExceptTaskId(r.list[i], list[i])
  {
    if order != [] {
      var last := |order| - 1;
      var prev := SecondPass(stored, list, ix, order[..last], base);
      SecondPassSameExcept(stored, list, ix, order[..last], base);
      assert forall i :: 0 <= i < |list| ==> SameExceptTaskId(prev.list[i], list[i]) by {
        assert prev == SecondPass(stored, list, ix, order[..last], base);
      }
      TurnSameExcept(stored, ix, base, prev, order[last]);
    }
  }

  /** Nothing else changes (views.py:160, 170, 175): the saved list keeps its
      length and order, every panel in it differs from the incoming one at
      most in `task_id`, and a panel the incoming dict does not keep (an
      earlier duplicate of an id) is saved as it came. */
  lemma SaveOnlyStamps(stored: map<string, Panel>, list: seq<Panel>, ix: map<string, nat>,
                       order1: seq<string>, order2: seq<string>, base: nat)
    requires Saving(stored, list, ix, order1, order2)
    ensures var out := Outcome(stored, list, ix, order1, order2, base);
            && |out.list| == |list|
            && (forall i :: 0 <= i < |list| ==> SameExceptTaskId(out.list[i], list[i]))
            && (forall i :: 0 <= i < |list| && !KeptFor(list, ix, ix.Keys, i) ==> out.list[i] == list[i])
  {
    var first := FirstPass(stored, list, ix, order1);
    var seen := base + |first|;
    OutcomeParts(stored, list, ix, order1, order2, base, seen);
    SecondPassSameExcept(stored, list, ix, order2, seen);
    SecondPassUntouched(stored, list, ix, order2, ix.Keys, seen);
  }

  /** A call with an id shows up among that id's calls. */
  lemma {:induction false} CallsForHit(calls: seq<Call>, i: int)
    requires 0 <= i < |calls| && calls[i].panel.id.Some?
    ensures CallsFor(calls, calls[i].panel.id.value) != []
  {
    var last := |calls| - 1;
    var id := calls[i].panel.id.value;
    if i < last {
      CallsForHit(calls[..last], i);
      assert calls[..last][i] == calls[i];
    }
  }

  /** The case table has nothing to do for a panel saved unchanged. */
  lemma ExpectedUnchanged(p: Option<Panel>)
    ensures Expected(p, p) == []
  {
  }

  /** Saving a board unchanged (views.py:143-167): when the incoming dict is
      the stored dict, a save makes no call and saves the list as it came;
      duplicate ids do not matter, as both dicts keep the same panel. */
  lemma SaveUnchanged(list: seq<Panel>, ix: map<string, nat>, order1: seq<string>, order2: seq<string>, base: nat)
    requires IsLastIndex(list, ix) && Saving(PanelsAt(list, ix), list, ix, order1, order2)
    ensures var out := Outcome(PanelsAt(list, ix), list, ix, order1, order2, base);
            out.calls == [] && out.list == list
  {
    var stored := PanelsAt(list, ix);
    var out := Outcome(stored, list, ix, order1, order2, base);
    if out.calls != [] {
      var split := SavePhases(stored, list, ix, order1, order2, base);
      var id := out.calls[0].panel.id.value;
      CallsForHit(out.calls, 0);
      CallsPerId(stored, list, ix, order1, order2, base, id);
      IncomingIsDictEntry(list, ix, id);
      ExpectedUnchanged(Lookup(stored, id));
      assert false;
    }
    SaveOnlyStamps(stored, list, ix, order1, order2, base);
    forall i | 0 <= i < |list|
      ensures out.list[i] == list[i]
    {
      if KeptFor(list, ix, ix.Keys, i) {
        var id := list[i].id.value;
        var _ := SaveStamps(stored, list, ix, order1, order2, base, id);
      }
    }
  }

  /** `SaveUnchanged` for a board whose incoming panels are its stored ones:
      the board-level statement of what `ReconcileBoard` does then. */
  lemma SaveUnchangedBoard(panels: seq<Panel>, order1: seq<string>, order2: seq<string>, base: nat)
    requires AllIdentified(panels)
    requires Enumerates(order1, StoredById(panels).Keys) && Enumerates(order2, IndexById(panels).value.Keys)
    ensures var out := Outcome(StoredById(panels), panels, IndexById(panels).value, order1, order2, base);
            out.calls == [] && out.list == panels
  {
    SaveUnchanged(panels, IndexById(panels).value, order1, order2, base);
  }
}
