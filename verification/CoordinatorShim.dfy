/** The legacy admission surface served by the coordinator: which tenants it remembers, and what a release
    means. */
module CoordinatorShim {
  import opened Common
  import opened CoordinatorState
  import opened CoordinatorClass

  /** A serving tenant's residency, or an exclusive job. No claim is kept for either. */
  datatype Mark = Serving | ExclusiveJob

  /** How an admission ended for the tenant. */
  datatype Ending = Got(claim: nat) | Turned(code: Code)

  datatype Answer = Holds | Held | VramExceeded

  class CoordinatorAdmission {
    const coordinator: Coordinator
    var marks: map<string, Mark>

    constructor (c: Coordinator)
      ensures coordinator == c && marks == map[]
    {
      coordinator, marks := c, map[];
    }

    /** The end of a serving admission: the load claim is given back at once, residency is only marked. A
        refusal is told in the two words the legacy surface has. */
    method AcquireServing(tenant: string, ending: Ending) returns (answer: Answer)
      modifies this, coordinator
      ensures tenant in old(marks) ==> answer == Holds && marks == old(marks) && coordinator.View() == old(coordinator.View())
      ensures tenant !in old(marks) && ending.Turned? ==>
        && answer == (if ending.code.ModelTooLarge? then VramExceeded else Held)
        && marks == old(marks) && coordinator.View() == old(coordinator.View())
      ensures tenant !in old(marks) && ending.Got? ==>
        && answer == Holds && marks == old(marks)[tenant := Serving]
        && coordinator.View() == ReleaseClaim(old(coordinator.View()), ModelKey(tenant), ending.claim)
    {
      if tenant in marks { return Holds; }
      if ending.Turned? { return if ending.code.ModelTooLarge? then VramExceeded else Held; }
      coordinator.Release(ModelKey(tenant), ending.claim);
      marks := marks[tenant := Serving];
      return Holds;
    }

    /** The end of a job's admission. */
    method AcquireJob(tenant: string, started: bool) returns (answer: Answer)
      modifies this
      ensures answer == if tenant in old(marks) || started then Holds else Held
      ensures marks == if tenant !in old(marks) && started then old(marks)[tenant := ExclusiveJob] else old(marks)
    {
      if tenant in marks { return Holds; }
      if !started { return Held; }
      marks := marks[tenant := ExclusiveJob];
      return Holds;
    }

    /** One verb with two meanings: a job ends; an engine whose process is gone is forgotten; an idle engine
        stays resident. `childGone` is what its registered runtime says, if there is one. */
    method Release(tenant: string, childGone: bool)
      modifies this, coordinator
      ensures marks == old(marks) - {tenant}
      ensures coordinator.View() ==
        if tenant !in old(marks) then old(coordinator.View())
        else if old(marks)[tenant].ExclusiveJob? then EndJob(old(coordinator.View()), Some(JobId(tenant)))
        else if childGone then Forget(old(coordinator.View()), ModelKey(tenant))
        else old(coordinator.View())
    {
      if tenant !in marks { return; }
      var mark := marks[tenant];
      marks := marks - {tenant};
      if mark.ExclusiveJob? {
        coordinator.EndJob(Some(JobId(tenant)));
      } else if childGone {
        var removed := coordinator.Forget(ModelKey(tenant));
      }
    }
  }

  /** Giving the load claim back at once undoes its grant: request count and claims are what they were
      before, so a resident engine never keeps its own eviction waiting. */
  lemma ReleaseUndoesGrant(c: Coord, k: ModelKey)
    requires k in c.residents && c.nextClaim !in ClaimsOf(c, k)
    ensures var d := ReleaseClaim(GrantClaim(c, k), k, c.nextClaim);
      && k in d.residents && d.residents[k].(recency := 0) == c.residents[k].(recency := 0)
      && ClaimsOf(d, k) == ClaimsOf(c, k)
      && (forall l :: l != k && l in c.residents ==> l in d.residents && d.residents[l] == c.residents[l])
  {
    var g := GrantClaim(c, k);
    assert ClaimsOf(g, k) == ClaimsOf(c, k) + {c.nextClaim};
    assert ClaimsOf(c, k) + {c.nextClaim} - {c.nextClaim} == ClaimsOf(c, k);
  }
}
