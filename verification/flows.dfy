/**
 Reconciliation of the flow table built from the exchanges with the flows
 fetched for the transport-mode mapping: the fetched flows replace the built
 ones only when every fetched id is already a built id.
 */
module Flows {
  import Dicts

  /** A flow object; `name` stands for every attribute besides the id. */
  datatype Flow = Flow(id: string, name: string)

  /** `{flow.id: flow for k, flow in flow_objs.items()}`: a later flow with the same id wins. */
  function ApiFlows(objs: seq<Flow>): (api: map<string, Flow>)
    ensures forall id :: id in api <==> exists i :: 0 <= i < |objs| && objs[i].id == id
    ensures forall i :: 0 <= i < |objs| && (forall j :: i < j < |objs| ==> objs[j].id != objs[i].id) ==>
              api[objs[i].id] == objs[i]
  {
    var items := seq(|objs|, i requires 0 <= i < |objs| => (objs[i].id, objs[i]));
    assert forall i :: 0 <= i < |objs| ==> items[i] == (objs[i].id, objs[i]);
    forall i | 0 <= i < |objs| && (forall j :: i < j < |objs| ==> objs[j].id != objs[i].id)
      ensures Dicts.FromItems(items)[objs[i].id] == objs[i]
    {
      assert Dicts.LastUnderKey(items, i);
      Dicts.FromItemsLastWins(items, i);
    }
    Dicts.FromItems(items)
  }

  /** Every fetched flow is stored under its own id. */
  lemma ApiFlowsKeyedById(objs: seq<Flow>)
    ensures forall id :: id in ApiFlows(objs) ==> ApiFlows(objs)[id].id == id
  {
    var api := ApiFlows(objs);
    forall id | id in api
      ensures api[id].id == id
    {
      var i :| 0 <= i < |objs| && objs[i].id == id;
      var last := LastWithId(objs, id, i);
      assert api[objs[last].id] == objs[last];
    }
  }

  /** The last index at or after `i` whose flow has `id`. */
  function LastWithId(objs: seq<Flow>, id: string, i: nat): (last: nat)
    requires i < |objs| && objs[i].id == id
    ensures i <= last < |objs| && objs[last].id == id
    ensures forall j :: last < j < |objs| ==> objs[j].id != id
    decreases |objs| - i
  {
    if exists j :: i < j < |objs| && objs[j].id == id then
      var j :| i < j < |objs| && objs[j].id == id;
      LastWithId(objs, id, j)
    else i
  }

  /** The test `flows.keys() | api_flows.keys() == flows.keys()`. */
  function Consistent<F>(flows: map<string, F>, api: map<string, F>): (ok: bool)
    ensures ok <==> api.Keys <= flows.Keys
  {
    flows.Keys + api.Keys == flows.Keys
  }

  /** The reconciled flow table, and whether the inconsistency warning was printed. */
  datatype Reconciled = Reconciled(flows: map<string, Flow>, warned: bool)

  /**
   Either every fetched flow overwrites the built flow with its id and the
   rest are kept, or, when some fetched id is not a built id, nothing changes
   and a warning is printed. The key set never changes.
   */
  function Reconcile(flows: map<string, Flow>, api: map<string, Flow>): (r: Reconciled)
    ensures r.flows.Keys == flows.Keys
    ensures r.warned <==> !(api.Keys <= flows.Keys)
    ensures r.warned ==> r.flows == flows
    ensures !r.warned ==> forall id :: id in flows ==> r.flows[id] == if id in api then api[id] else flows[id]
  {
    if !Consistent(flows, api) then Reconciled(flows, true)
    else Reconciled(flows + api, false)
  }
}
