/** Precompute reconciliation on a board save: the POST branch of `board()`
    (jia/jia/views.py:115-176), from the stored and incoming panel lists to the
    enable/disable calls issued and the task ids written back. */
module Reconcile {
  import opened Wrappers
  import opened Panels

  /** One call into the task client, with the panel it was given. */
  datatype Call = Disable(panel: Panel) | Enable(panel: Panel)

  /** `enable_precompute` and `disable_precompute`, whose bodies are not part of
      this model: the client records every call, and the id an enable returns
      carries the number of calls the client had seen before it, so no two
      enables return the same id. */
  class TaskClient {
    var log: seq<Call>

    constructor ()
      ensures log == []
    {
      log := [];
    }

    method EnablePrecompute(panel: Panel) returns (taskId: TaskId)
      modifies this
      ensures taskId == TaskId(|old(log)|)
      ensures log == old(log) + [Enable(panel)]
    {
      taskId := TaskId(|log|);
      log := log + [Enable(panel)];
    }

    method DisablePrecompute(panel: Panel)
      modifies this
      ensures log == old(log) + [Disable(panel)]
    {
      log := log + [Disable(panel)];
    }
  }

  /** `dict.get(k)` */
  function Lookup(m: map<string, Panel>, k: string): Option<Panel>
  {
    if k in m then Some(m[k]) else None
  }

  /** What the first loop issues for one stored panel, given the incoming panel
      with its id (views.py:139-150): a disable when it was on and was deleted
      or switched off. */
  function FirstLoopCalls(stored: Panel, incoming: Option<Panel>): seq<Call>
  {
    if stored.PrecomputeOn() && incoming.None? then [Disable(stored)]
    else if stored.PrecomputeOn() && incoming.Some? && !incoming.value.PrecomputeOn() then [Disable(stored)]
    else []
  }

  /** A first-loop turn makes no call or the one disable of the stored panel,
      and makes it exactly when that panel was on and is now gone or off. */
  lemma FirstLoopCallsCases(stored: Panel, incoming: Option<Panel>)
    ensures var r := FirstLoopCalls(stored, incoming);
            && (r == [] || r == [Disable(stored)])
            && (r != [] <==> stored.PrecomputeOn() && !(incoming.Some? && incoming.value.PrecomputeOn()))
  {
  }

  /** The restart test of views.py:163-167. It compares the WHOLE precompute
      dict, `task_id` and `bucket_width` included. */
  predicate NeedsRestart(stored: Panel, incoming: Panel)
  {
    || stored.dataSource.code != incoming.dataSource.code
    || stored.dataSource.precompute != incoming.dataSource.precompute
    || stored.dataSource.timeframe != incoming.dataSource.timeframe
  }

  /** A panel whose `data_source` is the stored one never restarts; one whose
      `task_id` differs from the stored one always does. */
  lemma NeedsRestartCases(stored: Panel, incoming: Panel)
    ensures stored.dataSource == incoming.dataSource ==> !NeedsRestart(stored, incoming)
    ensures stored.dataSource.precompute.taskId != incoming.dataSource.precompute.taskId
            ==> NeedsRestart(stored, incoming)
  {
  }

  /** What the second loop issues for one incoming panel, given the stored
      panel with its id (views.py:152-170). */
  function SecondLoopCalls(incoming: Panel, stored: Option<Panel>): seq<Call>
  {
    if !incoming.PrecomputeOn() then []
    else if stored.None? || !stored.value.PrecomputeOn() then [Enable(incoming)]
    else if NeedsRestart(stored.value, incoming) then [Disable(stored.value), Enable(incoming)]
    else []
  }

  /** A second-loop turn makes no call, the enable of the incoming panel, or
      the restart (disable of the stored panel, then that enable). It calls
      exactly when the incoming panel is on and the stored one is gone, off
      or needs a restart, and its calls always end with the enable. */
  lemma SecondLoopCallsCases(incoming: Panel, stored: Option<Panel>)
    ensures var r := SecondLoopCalls(incoming, stored);
            && (r == [] || r == [Enable(incoming)] || (stored.Some? && r == [Disable(stored.value), Enable(incoming)]))
            && (r != [] <==> (incoming.PrecomputeOn()
                 && (stored.None? || !stored.value.PrecomputeOn() || NeedsRestart(stored.value, incoming))))
            && (r != [] ==> r[|r| - 1] == Enable(incoming))
  {
  }

  /** Any key of `precompute` takes part in the restart test, not only the ones
      the engine reads: an enabled panel whose stored copy differs in some other
      key is restarted. */
  lemma OtherPrecomputeKeyRestarts(stored: Panel, incoming: Panel)
    requires stored.PrecomputeOn() && incoming.PrecomputeOn()
    requires stored.dataSource.precompute.other != incoming.dataSource.precompute.other
    ensures SecondLoopCalls(incoming, Some(stored)) == [Disable(stored), Enable(incoming)]
  {
  }

  /** `new_panels.get(k)`, read through the positions the incoming dict keeps. */
  function Incoming(list: seq<Panel>, ix: map<string, nat>, k: string): Option<Panel>
  {
    if k in ix && ix[k] < |list| then Some(list[ix[k]]) else None
  }

  /** The first loop run over the stored ids in the order `order`. */
  function FirstPass(stored: map<string, Panel>, list: seq<Panel>, ix: map<string, nat>, order: seq<string>): (r: seq<Call>)
  {
    if order == [] then []
    else
      var last := |order| - 1;
      var k := order[last];
      FirstPass(stored, list, ix, order[..last])
        + (if k in stored then FirstLoopCalls(stored[k], Incoming(list, ix, k)) else [])
  }

  /** The panel after its turn of the second loop, on a client that has seen
      `seen` calls once the turn's `calls` are made: unchanged when there are
      none, otherwise stamped with the id the last of them, an enable, returned. */
  function Stamped(panel: Panel, calls: seq<Call>, seen: nat): Panel
    requires |calls| <= seen
  {
    if calls == [] then panel else panel.WithTaskId(TaskId(seen - 1))
  }

  /** The calls of a pass and the saved list after it. */
  datatype Pass = Pass(calls: seq<Call>, list: seq<Panel>)

  /** One turn of the second loop for the incoming id `k`, after the turns
      `prev` records, on a client that had seen `base` calls before the loop.
      The dict shares its panels with the list, so a panel that gets an enable
      gets the id that enable returned as its `task_id` at the position the
      dict kept for it. */
  function Turn(stored: map<string, Panel>, ix: map<string, nat>, base: nat, prev: Pass, k: string): (r: Pass)
    ensures |r.list| == |prev.list|
    ensures forall i :: 0 <= i < |prev.list| ==> r.list[i].id == prev.list[i].id
  {
    if k !in ix || ix[k] >= |prev.list| then prev
    else
      var at := ix[k];
      var calls := SecondLoopCalls(prev.list[at], Lookup(stored, k));
      Pass(prev.calls + calls, prev.list[at := Stamped(prev.list[at], calls, base + |prev.calls| + |calls|)])
  }

  /** The second loop run over the incoming ids in the order `order`, on a
      client that has seen `base` calls before it. */
  function SecondPass(stored: map<string, Panel>, list: seq<Panel>, ix: map<string, nat>, order: seq<string>, base: nat): (r: Pass)
    ensures |r.list| == |list|
    ensures forall i :: 0 <= i < |list| ==> r.list[i].id == list[i].id
  {
    if order == [] then Pass([], list)
    else
      var last := |order| - 1;
      Turn(stored, ix, base, SecondPass(stored, list, ix, order[..last], base), order[last])
  }

  /** Both loops, the first over `order1`, the second over `order2`, on a
      client that has seen `base` calls. */
  function Outcome(stored: map<string, Panel>, list: seq<Panel>, ix: map<string, nat>,
                   order1: seq<string>, order2: seq<string>, base: nat): (r: Pass)
    ensures |r.list| == |list|
  {
    var first := FirstPass(stored, list, ix, order1);
    var second := SecondPass(stored, list, ix, order2, base + |first|);
    Pass(first + second.calls, second.list)
  }

  /** `Outcome` split at the client's call count `seen` after the first loop. */
  lemma OutcomeParts(stored: map<string, Panel>, list: seq<Panel>, ix: map<string, nat>,
                     order1: seq<string>, order2: seq<string>, base: nat, seen: nat)
    requires seen == base + |FirstPass(stored, list, ix, order1)|
    ensures Outcome(stored, list, ix, order1, order2, base).calls
         == FirstPass(stored, list, ix, order1) + SecondPass(stored, list, ix, order2, seen).calls
    ensures Outcome(stored, list, ix, order1, order2, base).list == SecondPass(stored, list, ix, order2, seen).list
  {
  }

  lemma AppendAssoc<T>(a: seq<T>, b: seq<T>, c: seq<T>)
    ensures a + b + c == a + (b + c)
  {
  }

  /** `order` lists every key of `keys` exactly once: a dict iteration order. */
  ghost predicate Enumerates(order: seq<string>, keys: set<string>)
  {
    if order == [] then keys == {}
    else
      var last := |order| - 1;
      order[last] in keys && Enumerates(order[..last], keys - {order[last]})
  }

  lemma VisitStep(keys: set<string>, todo: set<string>, order: seq<string>, k: string)
    requires Enumerates(order, keys - todo) && todo <= keys && k in todo
    ensures Enumerates(order + [k], keys - (todo - {k}))
  {
    assert (order + [k])[..|order|] == order;
    assert (keys - (todo - {k})) - {k} == keys - todo;
  }

  lemma VisitDone(keys: set<string>, order: seq<string>)
    requires Enumerates(order, keys - {})
    ensures Enumerates(order, keys)
  {
    assert keys - {} == keys;
  }

  lemma FirstPassSnoc(stored: map<string, Panel>, list: seq<Panel>, ix: map<string, nat>, order: seq<string>, k: string)
    requires k in stored
    ensures FirstPass(stored, list, ix, order + [k])
         == FirstPass(stored, list, ix, order) + FirstLoopCalls(stored[k], Incoming(list, ix, k))
  {
    assert (order + [k])[..|order|] == order;
  }

  lemma SecondPassSnoc(stored: map<string, Panel>, list: seq<Panel>, ix: map<string, nat>, order: seq<string>,
                       base: nat, k: string)
    ensures SecondPass(stored, list, ix, order + [k], base)
         == Turn(stored, ix, base, SecondPass(stored, list, ix, order, base), k)
  {
    var next := order + [k];
    assert next[..|next| - 1] == order && next[|next| - 1] == k;
  }

  /** The first loop (views.py:139-150): for every stored panel with
      precompute on, a disable when the incoming dict has no panel with its id
      or has one with precompute off. `ix` is the incoming dict, as positions in
      `panels`; the ghost result is the iteration order. */
  method DisableStale(oldPanels: map<string, Panel>, panels: array<Panel>, ix: map<string, nat>, client: TaskClient)
    returns (ghost order: seq<string>)
    requires WellKeyed(oldPanels) && IsLastIndex(panels[..], ix)
    modifies client
    ensures Enumerates(order, oldPanels.Keys)
    ensures client.log == old(client.log) + FirstPass(oldPanels, panels[..], ix, order)
  {
    order := [];
    var todo := oldPanels.Keys;
    while todo != {}
      invariant todo <= oldPanels.Keys && Enumerates(order, oldPanels.Keys - todo)
      invariant client.log == old(client.log) + FirstPass(oldPanels, panels[..], ix, order)
      decreases todo
    {
      var k :| k in todo;
      var panel := oldPanels[k];
      var id := panel.id.value;
      var newPanel := if id in ix then Some(panels[ix[id]]) else None;
      assert newPanel == Incoming(panels[..], ix, k);
      FirstPassSnoc(oldPanels, panels[..], ix, order, k);
      ghost var calls := FirstLoopCalls(panel, newPanel);
      ghost var logBefore := client.log;
      if panel.PrecomputeOn() && newPanel.None? {
        client.DisablePrecompute(panel);
      } else if panel.PrecomputeOn() && newPanel.Some? && !newPanel.value.PrecomputeOn() {
        client.DisablePrecompute(panel);
      }
      assert client.log == logBefore + calls;
      AppendAssoc(old(client.log), FirstPass(oldPanels, panels[..], ix, order), calls);
      VisitStep(oldPanels.Keys, todo, order, k);
      todo := todo - {k};
      order := order + [k];
    }
    VisitDone(oldPanels.Keys, order);
  }

  /** One turn of the second loop (views.py:153-170), for the incoming id `k`,
      on a list and a client that the turns `prev` have brought to this point
      from a log `log0`. */
  method EnableOne(oldPanels: map<string, Panel>, panels: array<Panel>, ix: map<string, nat>, k: string,
                   client: TaskClient, ghost log0: seq<Call>, ghost prev: Pass)
    requires k in ix && ix[k] < panels.Length && panels[ix[k]].id == Some(k)
    requires panels[..] == prev.list && client.log == log0 + prev.calls
    modifies panels, client
    ensures var next := Turn(oldPanels, ix, |log0|, prev, k);
            && client.log == log0 + next.calls
            && panels[..] == next.list
  {
    var at := ix[k];
    var panel := panels[at];
    if panel.PrecomputeOn() {
      var oldPanel := if panel.id.value in oldPanels then Some(oldPanels[panel.id.value]) else None;
      assert oldPanel == Lookup(oldPanels, k);
      if oldPanel.None? || !oldPanel.value.PrecomputeOn() {
        var taskId := client.EnablePrecompute(panel);
        panels[at] := panel.WithTaskId(taskId);
        AppendAssoc(log0, prev.calls, [Enable(panel)]);
      } else if NeedsRestart(oldPanel.value, panel) {
        client.DisablePrecompute(oldPanel.value);
        var taskId := client.EnablePrecompute(panel);
        panels[at] := panel.WithTaskId(taskId);
        AppendAssoc(log0, prev.calls, [Disable(oldPanel.value), Enable(panel)]);
      }
    }
  }

  /** The second loop (views.py:152-170): for every incoming panel with
      precompute on, an enable when the stored panel with its id is absent or
      off, a disable of the stored panel and then an enable when they differ
      in code, precompute or timeframe; each enable's id is written into the
      panel in place. The ghost result is the iteration order. */
  method EnableFresh(oldPanels: map<string, Panel>, panels: array<Panel>, ix: map<string, nat>, client: TaskClient)
    returns (ghost order: seq<string>)
    requires IsLastIndex(panels[..], ix)
    modifies panels, client
    ensures Enumerates(order, ix.Keys)
    ensures var out := SecondPass(oldPanels, old(panels[..]), ix, order, |old(client.log)|);
            && client.log == old(client.log) + out.calls
            && panels[..] == out.list
  {
    ghost var orig := panels[..];
    ghost var log0 := client.log;
    order := [];
    var todo := ix.Keys;
    while todo != {}
      invariant todo <= ix.Keys && Enumerates(order, ix.Keys - todo)
      invariant client.log == log0 + SecondPass(oldPanels, orig, ix, order, |log0|).calls
      invariant panels[..] == SecondPass(oldPanels, orig, ix, order, |log0|).list
      decreases todo
    {
      var k :| k in todo;
      ghost var prev := SecondPass(oldPanels, orig, ix, order, |log0|);
      EnableOne(oldPanels, panels, ix, k, client, log0, prev);
      SecondPassSnoc(oldPanels, orig, ix, order, |log0|, k);
      VisitStep(ix.Keys, todo, order, k);
      todo := todo - {k};
      order := order + [k];
    }
    VisitDone(ix.Keys, order);
  }

  /** The two loops of the POST branch once both dicts are built
      (views.py:138-170). */
  method Reconcile(oldPanels: map<string, Panel>, panels: array<Panel>, ix: map<string, nat>, client: TaskClient)
    returns (ghost order1: seq<string>, ghost order2: seq<string>)
    requires WellKeyed(oldPanels) && IsLastIndex(panels[..], ix)
    modifies panels, client
    ensures Enumerates(order1, oldPanels.Keys) && Enumerates(order2, ix.Keys)
    ensures var out := Outcome(oldPanels, old(panels[..]), ix, order1, order2, |old(client.log)|);
            && client.log == old(client.log) + out.calls
            && panels[..] == out.list
  {
    ghost var list := panels[..];
    order1 := DisableStale(oldPanels, panels, ix, client);
    ghost var first := FirstPass(oldPanels, list, ix, order1);
    assert panels[..] == list;
    ghost var log1 := client.log;
    assert |log1| == |old(client.log)| + |first|;
    order2 := EnableFresh(oldPanels, panels, ix, client);
    ghost var second := SecondPass(oldPanels, list, ix, order2, |old(client.log)| + |first|);
    assert panels[..] == second.list;
    AppendAssoc(old(client.log), first, second.calls);
    OutcomeParts(oldPanels, list, ix, order1, order2, |old(client.log)|, |old(client.log)| + |first|);
  }

  /** The POST branch of `board()` from the two comprehensions to the list it
      saves (views.py:124-175). `stored` is `board.json()['panels']`; `panels`
      is `board_data['panels']`, updated in place. `ok` is false when an
      incoming panel has no id: the comprehension raises before any call is
      made. The ghost results are the dict iteration orders of the two loops. */
  method ReconcileBoard(stored: seq<Panel>, panels: array<Panel>, client: TaskClient)
    returns (ok: bool, ghost order1: seq<string>, ghost order2: seq<string>)
    modifies panels, client
    ensures ok <==> AllIdentified(old(panels[..]))
    ensures !ok ==> panels[..] == old(panels[..]) && client.log == old(client.log)
    ensures ok ==> Enumerates(order1, StoredById(stored).Keys)
    ensures ok ==> Enumerates(order2, IndexById(old(panels[..])).value.Keys)
    ensures ok ==>
      var out := Outcome(StoredById(stored), old(panels[..]), IndexById(old(panels[..])).value,
                         order1, order2, |old(client.log)|);
      && client.log == old(client.log) + out.calls
      && panels[..] == out.list
  {
    order1, order2 := [], [];
    var oldPanels := StoredById(stored);
    var found := IndexById(panels[..]);
    if found.None? {
      return false, order1, order2;
    }
    ok := true;
    order1, order2 := Reconcile(oldPanels, panels, found.value, client);
  }
}
