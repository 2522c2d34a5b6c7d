/** The ledger as the activities use it: a table whose primary key turns repeated inserts into no-ops. */
module LedgerTable {
  import opened Basics
  import opened Ledger

  class SideEffects {
    var rows: Effects

    constructor ()
      ensures rows == map[]
    {
      rows := map[];
    }

    /** Insert unless the key is taken. */
    method Record(workflowId: string, activityId: string, effect: Effect)
      modifies this
      ensures rows == Ledger.Record(old(rows), EffectKey(workflowId, activityId), effect)
    {
      var key := EffectKey(workflowId, activityId);
      if key !in rows {
        rows := rows[key := effect];
      }
    }

    /** The number of distinct side effects of one workflow id. */
    method Count(workflowId: string) returns (n: nat)
      ensures n == |EffectIds(rows, workflowId)|
    {
      n := 0;
      var rest := rows.Keys;
      ghost var seen: set<string> := {};
      while rest != {}
        invariant rest <= rows.Keys && n == |seen|
        invariant forall id :: id in seen <==> EffectKey(workflowId, id) in rows.Keys - rest
        decreases |rest|
      {
        var key :| key in rest;
        rest := rest - {key};
        if key.workflowId == workflowId {
          n := n + 1;
          seen := seen + {key.activityId};
        }
      }
      assert seen == EffectIds(rows, workflowId);
    }
  }
}
