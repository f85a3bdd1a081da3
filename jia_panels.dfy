/** The panel documents a Jia board saves (jia/jia/views.py), and the two
    dict comprehensions that make them searchable by id (views.py:127-136). */
module Panels {
  import opened Wrappers

  /** The id `enable_precompute` returns for a started task. The scheduler's
      ids are opaque tokens; the model names each by a serial number. */
  datatype TaskId = TaskId(serial: nat)

  /** The JSON values a panel document can carry where the engine only compares them. */
  datatype Json =
    | JNull
    | JBool(b: bool)
    | JNumber(n: real)
    | JString(s: string)
    | JArray(items: seq<Json>)
    | JObject(fields: map<string, Json>)

  /** `data_source.precompute`: the `enabled` flag, the `bucket_width` document
      (compared only as a whole), the optional `task_id` key, and every other
      key in `other`. */
  datatype Precompute = Precompute(enabled: bool, bucketWidth: Json, taskId: Option<TaskId>, other: map<string, Json>)

  /** `data_source`: the keys the engine reads, and every other key in `other`. */
  datatype DataSource = DataSource(code: string, timeframe: Json, precompute: Precompute, other: map<string, Json>)

  /** One panel dict: its optional `id`, its `data_source`, and its display keys. */
  datatype Panel = Panel(id: Option<string>, dataSource: DataSource, display: map<string, Json>)
  {
    predicate PrecomputeOn()
    {
      dataSource.precompute.enabled
    }

    /** `panel['data_source']['precompute']['task_id'] = t` */
    function WithTaskId(t: TaskId): (r: Panel)
      ensures r.dataSource.precompute.taskId == Some(t)
      ensures SameExceptTaskId(r, this)
      ensures r.id == id && r.PrecomputeOn() == PrecomputeOn()
    {
      this.(dataSource := dataSource.(precompute := dataSource.precompute.(taskId := Some(t))))
    }

    /** The panel with its `task_id` key removed. */
    function WithoutTaskId(): Panel
    {
      this.(dataSource := dataSource.(precompute := dataSource.precompute.(taskId := None)))
    }
  }

  /** Two panels that differ at most in `task_id`. */
  predicate SameExceptTaskId(p: Panel, q: Panel)
  {
    p.WithoutTaskId() == q.WithoutTaskId()
  }

  predicate AllIdentified(panels: seq<Panel>)
  {
    forall i :: 0 <= i < |panels| ==> panels[i].id.Some?
  }

  /** `ix` maps every id of `panels` to a position holding it, and nothing else. */
  ghost predicate IsLastIndex(panels: seq<Panel>, ix: map<string, nat>)
  {
    && (forall k :: k in ix ==> ix[k] < |panels| && panels[ix[k]].id == Some(k))
    && (forall i :: 0 <= i < |panels| && panels[i].id.Some? ==> panels[i].id.value in ix)
  }

  /** No position after the one `ix` keeps for an id holds that id. */
  ghost predicate KeepsLast(panels: seq<Panel>, ix: map<string, nat>)
  {
    forall k, j :: k in ix && ix[k] < j < |panels| ==> panels[j].id != Some(k)
  }

  /** Every entry of a dict built by id sits under its own id. */
  ghost predicate WellKeyed(m: map<string, Panel>)
  {
    forall k :: k in m ==> m[k].id == Some(k)
  }

  /** `{p['id']: p for p in panels}` as positions: the comprehension raises
      KeyError (None here) as soon as a panel has no id, and a later panel with
      an id already seen replaces the earlier one. */
  function IndexById(panels: seq<Panel>): (r: Option<map<string, nat>>)
    ensures r.Some? <==> AllIdentified(panels)
    ensures r.Some? ==> IsLastIndex(panels, r.value) && KeepsLast(panels, r.value)
  {
    if panels == [] then Some(map[])
    else
      var last := |panels| - 1;
      assert panels == panels[..last] + [panels[last]];
      match IndexById(panels[..last])
      case None =>
        assert !AllIdentified(panels[..last]);
        None
      case Some(m) =>
        if panels[last].id.None? then None
        else
          IndexSnoc(panels[..last], m, panels[last]);
          Some(m[panels[last].id.value := last])
  }

  /** One more panel with an id: its id now maps to its own position. */
  lemma IndexSnoc(init: seq<Panel>, m: map<string, nat>, p: Panel)
    requires IsLastIndex(init, m) && KeepsLast(init, m) && p.id.Some?
    ensures var panels := init + [p];
            var m' := m[p.id.value := |init|];
            IsLastIndex(panels, m') && KeepsLast(panels, m')
  {
  }

  /** The dict itself: each id with the panel at the position it keeps. */
  function PanelsAt(panels: seq<Panel>, ix: map<string, nat>): (m: map<string, Panel>)
    requires IsLastIndex(panels, ix)
    ensures m.Keys == ix.Keys && WellKeyed(m)
  {
    map k | k in ix :: panels[ix[k]]
  }

  /** The stored panels by id, with the legacy fallback of views.py:128-135: a
      stored panel without an id makes the whole stored dict empty. A duplicated
      id keeps the last stored panel that has it. */
  function StoredById(stored: seq<Panel>): (m: map<string, Panel>)
    ensures WellKeyed(m)
    ensures !AllIdentified(stored) ==> m == map[]
    ensures AllIdentified(stored) ==>
      && (forall i :: 0 <= i < |stored| ==> stored[i].id.value in m)
      && (forall k :: k in m ==> m[k] in stored)
    ensures AllIdentified(stored) ==>
      forall k :: k in m ==>
        exists i :: 0 <= i < |stored| && stored[i] == m[k] &&
          (forall j :: i < j < |stored| ==> stored[j].id != Some(k))
  {
    match IndexById(stored)
    case None => map[]
    case Some(ix) =>
      var m := PanelsAt(stored, ix);
      assert forall k :: k in m ==> m[k] == stored[ix[k]];
      m
  }
}
