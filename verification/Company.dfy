/**
 The company definition, and the check that its reporting lines are a tree
 below the owner.
 */
module Company {

  type EmployeeId = string

  const OWNER: EmployeeId := "owner"

  datatype Workspace = ReadOnly | GitWorktree | ReviewPackage

  datatype Employee = Employee(id: EmployeeId, agent: string, reportsTo: EmployeeId, workspace: Workspace)

  datatype Limits = Limits(maxTaskRetry: nat, maxReviewLoops: nat, maxParallelTasks: nat)

  datatype CompanyDefinition = CompanyDefinition(employees: seq<Employee>, limits: Limits)

  datatype OrganizationVerdict =
    | Accepted
    | DuplicateEmployeeId(id: EmployeeId)
    | UnknownReportsTo(id: EmployeeId)
    | ReportingCycleAt(id: EmployeeId)

  predicate IsEmployee(employees: seq<Employee>, id: EmployeeId) {
    exists i :: 0 <= i < |employees| && employees[i].id == id
  }

  /** The first employee with this id, as `Array.find` returns it. */
  function FindEmployee(employees: seq<Employee>, id: EmployeeId): (e: Employee)
    requires IsEmployee(employees, id)
    ensures e in employees && e.id == id
  {
    if employees[0].id == id then employees[0] else FindEmployee(employees[1..], id)
  }

  ghost predicate UniqueIds(employees: seq<Employee>) {
    forall i, j :: 0 <= i < j < |employees| ==> employees[i].id != employees[j].id
  }

  ghost predicate KnownManagers(employees: seq<Employee>) {
    forall e {:trigger e.reportsTo} :: e in employees ==> e.reportsTo == OWNER || IsEmployee(employees, e.reportsTo)
  }

  /** Where `steps` climbs up the reporting line lead from `manager`; the owner is the top. */
  ghost function Climb(employees: seq<Employee>, manager: EmployeeId, steps: nat): EmployeeId
    decreases steps
  {
    if steps == 0 || manager == OWNER || !IsEmployee(employees, manager) then manager
    else Climb(employees, FindEmployee(employees, manager).reportsTo, steps - 1)
  }

  ghost predicate ReachesOwner(employees: seq<Employee>, manager: EmployeeId) {
    exists steps: nat :: Climb(employees, manager, steps) == OWNER
  }

  ghost predicate IsOrganization(employees: seq<Employee>) {
    && UniqueIds(employees)
    && KnownManagers(employees)
    && forall e :: e in employees ==> ReachesOwner(employees, e.reportsTo)
  }

  lemma {:induction false} ClimbAdds(employees: seq<Employee>, manager: EmployeeId, m: nat, n: nat)
    ensures Climb(employees, manager, m + n) == Climb(employees, Climb(employees, manager, m), n)
    decreases m
  {
    if m > 0 && manager != OWNER && IsEmployee(employees, manager) {
      ClimbAdds(employees, FindEmployee(employees, manager).reportsTo, m - 1, n);
    }
  }

  /** A reporting line that comes back to a manager never reaches the owner. */
  lemma {:induction false} LoopNeverReachesOwner(employees: seq<Employee>, manager: EmployeeId, period: nat, steps: nat)
    requires period > 0 && Climb(employees, manager, period) == manager && manager != OWNER
    ensures Climb(employees, manager, steps) != OWNER
    decreases steps
  {
    if steps >= period {
      ClimbAdds(employees, manager, period, steps - period);
      LoopNeverReachesOwner(employees, manager, period, steps - period);
    } else {
      ClimbAdds(employees, manager, steps, period - steps);
    }
  }

  lemma LoopOnTheWayUp(employees: seq<Employee>, start: EmployeeId, i: nat, j: nat)
    requires i < j && Climb(employees, start, i) == Climb(employees, start, j) != OWNER
    ensures !ReachesOwner(employees, start)
  {
    var looped := Climb(employees, start, i);
    ClimbAdds(employees, start, i, j - i);
    forall steps: nat
      ensures Climb(employees, start, steps) != OWNER
    {
      if steps < i {
        ClimbAdds(employees, start, steps, i - steps);
      } else {
        ClimbAdds(employees, start, i, steps - i);
        LoopNeverReachesOwner(employees, looped, j - i, steps - i);
      }
    }
  }

  /** The walk up from one employee: does it end at the owner, and if not, at whom does it loop? */
  method ClimbToOwner(employees: seq<Employee>, employee: Employee) returns (verdict: OrganizationVerdict)
    requires employee in employees && UniqueIds(employees) && KnownManagers(employees)
    ensures verdict.Accepted? || verdict.ReportingCycleAt?
    ensures verdict.Accepted? <==> ReachesOwner(employees, employee.reportsTo)
    ensures verdict.ReportingCycleAt? ==>
              verdict.id != OWNER && exists n: nat :: Climb(employees, employee.reportsTo, n) == verdict.id
  {
    var ids := set e | e in employees :: e.id;
    var visited := {employee.id};
    var manager := employee.reportsTo;
    ghost var climbed: nat := 0;
    ghost var when: map<EmployeeId, nat> := map[];
    while manager != OWNER
      invariant manager == Climb(employees, employee.reportsTo, climbed)
      invariant manager != OWNER ==> manager in ids && IsEmployee(employees, manager)
      invariant visited <= ids
      invariant forall id :: id in visited ==> id == employee.id || id in when
      invariant forall id :: id in when ==> when[id] < climbed && Climb(employees, employee.reportsTo, when[id]) == id
      decreases ids - visited
    {
      if manager in visited {
        if manager in when {
          LoopOnTheWayUp(employees, employee.reportsTo, when[manager], climbed);
        } else {
          ReturnsToTheEmployee(employees, employee, climbed);
        }
        return ReportingCycleAt(manager);
      }
      assert manager in ids - visited;
      visited := visited + {manager};
      when := when[manager := climbed];
      var record := FindEmployee(employees, manager);
      ClimbAdds(employees, employee.reportsTo, climbed, 1);
      assert Climb(employees, record.reportsTo, 0) == record.reportsTo;
      assert record.reportsTo != OWNER ==> IsEmployee(employees, record.reportsTo);
      manager := record.reportsTo;
      climbed := climbed + 1;
    }
    return Accepted;
  }

  lemma ReturnsToTheEmployee(employees: seq<Employee>, employee: Employee, climbed: nat)
    requires UniqueIds(employees) && employee in employees && employee.id != OWNER
    requires Climb(employees, employee.reportsTo, climbed) == employee.id
    ensures !ReachesOwner(employees, employee.reportsTo)
  {
    ClimbAdds(employees, employee.reportsTo, climbed, 1);
    assert Climb(employees, employee.reportsTo, 0) == employee.reportsTo;
    assert Climb(employees, employee.reportsTo, climbed + 1) == employee.reportsTo;
    LoopOnTheWayUp(employees, employee.reportsTo, 0, climbed + 1);
  }

  method ValidateOrganization(employees: seq<Employee>) returns (verdict: OrganizationVerdict)
    ensures verdict.Accepted? <==> IsOrganization(employees)
    ensures verdict.DuplicateEmployeeId? <==> !UniqueIds(employees)
    ensures verdict.UnknownReportsTo? <==> UniqueIds(employees) && !KnownManagers(employees)
    ensures verdict.DuplicateEmployeeId? ==>
              exists i, j :: 0 <= i < j < |employees| && employees[i].id == employees[j].id == verdict.id
    ensures verdict.UnknownReportsTo? ==>
              verdict.id != OWNER && !IsEmployee(employees, verdict.id) && exists e ::
                  e in employees && e.reportsTo == verdict.id
    ensures verdict.ReportingCycleAt? ==> verdict.id != OWNER && !ReachesOwner(employees, verdict.id)
  {
    var ids := {};
    for i := 0 to |employees|
      invariant forall id :: id in ids <==> exists k :: 0 <= k < i && employees[k].id == id
      invariant forall k, l :: 0 <= k < l < i ==> employees[k].id != employees[l].id
    {
      if employees[i].id in ids {
        return DuplicateEmployeeId(employees[i].id);
      }
      ids := ids + {employees[i].id};
    }
    for i := 0 to |employees|
      invariant forall k :: 0 <= k < i ==>
                  employees[k].reportsTo == OWNER || IsEmployee(employees, employees[k].reportsTo)
    {
      if employees[i].reportsTo != OWNER && employees[i].reportsTo !in ids {
        assert employees[i] in employees;
        return UnknownReportsTo(employees[i].reportsTo);
      }
    }
    for i := 0 to |employees|
      invariant forall k :: 0 <= k < i ==> ReachesOwner(employees, employees[k].reportsTo)
    {
      verdict := ClimbToOwner(employees, employees[i]);
      if verdict.ReportingCycleAt? {
        assert employees[i] in employees;
        UnreachableFromThere(employees, employees[i].reportsTo, verdict.id);
        return;
      }
    }
    return Accepted;
  }

  lemma UnreachableFromThere(employees: seq<Employee>, start: EmployeeId, there: EmployeeId)
    requires !ReachesOwner(employees, start)
    requires exists n: nat :: Climb(employees, start, n) == there
    ensures !ReachesOwner(employees, there)
  {
    var n: nat :| Climb(employees, start, n) == there;
    forall steps: nat
      ensures Climb(employees, there, steps) != OWNER
    {
      ClimbAdds(employees, start, n, steps);
      assert Climb(employees, start, n + steps) != OWNER;
    }
  }
}
