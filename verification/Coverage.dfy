/** The searches of the scaler tied to the runs of the machines: nothing is surged without a budget that covers it. */
module Coverage {
  import opened Base
  import opened Surge
  import opened Joint
  import opened Ownership
  import opened Scaler

  /** What a handler hears from FindMatchingPDB, given the namespace's budgets and the workload's selector. */
  function BudgetRead(pdbs: Read<seq<Option<Selector>>>, workload: Selector): Read<bool> {
    if pdbs.ReadError? then ReadError else Got(Budgeted(pdbs.value, workload))
  }

  /** The action asked FindMatchingPDB about these budgets. */
  predicate Asked(a: Action, pdbs: Read<seq<Option<Selector>>>, workload: Selector) {
    match a
    case DrainReconcile(_, x) => x.pdb == BudgetRead(pdbs, workload)
    case RestartReconcile(x) => x.pdb == BudgetRead(pdbs, workload)
    case _ => true
  }

  /** One of the two operations is on record after the event and was not before. */
  predicate Starts(o: Obj, o': Obj) {
    (o.drain == Idle && o'.drain != Idle) || (o.restart == Idle && o'.restart != Idle)
  }

  /**
   In every run an operation starts only when the budgets could be listed and one of them selects
   every pod, whatever its labels, that the workload's selector selects.
   */
  lemma StartsOnlyCovered(cfg: Config, ws: seq<World>, es: seq<Event>, i: nat,
                          pdbs: Read<seq<Option<Selector>>>, workload: Selector)
    requires FreshRun(cfg, ws, es) && i < |es| && Starts(ws[i].obj, ws[i + 1].obj)
    requires es[i].Controller? ==> Asked(es[i].action, pdbs, workload)
    ensures pdbs.Got? && workload.Where?
    ensures exists k :: 0 <= k < |pdbs.value| && pdbs.value[k].Some? && Covers(pdbs.value[k].value, workload)
  {
    RunLinked(cfg, ws, es, i);
    assert Budgeted(pdbs.value, workload);
    var k :| 0 <= k < |pdbs.value| && pdbs.value[k].Some? && Accepts(pdbs.value[k].value, workload);
    AcceptedCovers(pdbs.value[k].value, workload);
  }
}
