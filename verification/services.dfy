/** The in-memory employee store: a slice of records owned by the service, seeded
    with two employees, grown by `AddEmployee` and updated in place by `RaiseSalary`. */
module Services {
  import opened Wrappers
  import opened Models

  /** The records a fresh service starts with. */
  const Seed: seq<Employee> := [Employee(1, "Alice", 5000.0), Employee(2, "Bob", 7000.0)]

  /** Ids are dense: the record at position `i` carries id `i + 1`. */
  predicate Dense(s: seq<Employee>)
  {
    forall i :: 0 <= i < |s| ==> s[i].id == i + 1
  }

  /** Position of the first record whose id is `id`, as the linear scan finds it. */
  function IndexOf(s: seq<Employee>, id: int): (r: Option<nat>)
    ensures r.Some? ==> r.value < |s| && s[r.value].id == id
    ensures r.Some? ==> forall j :: 0 <= j < r.value ==> s[j].id != id
    ensures r.None? <==> forall j :: 0 <= j < |s| ==> s[j].id != id
  {
    if |s| == 0 then None
    else if s[0].id == id then Some(0)
    else match IndexOf(s[1..], id)
      case None => None
      case Some(k) => Some(k + 1)
  }

  /** The record `AddEmployee` stores for `e`: the caller's id is replaced by the
      store's length plus one; name and salary are kept. */
  function WithNextId(s: seq<Employee>, e: Employee): (r: Employee)
    ensures r.id == |s| + 1 && r.name == e.name && r.salary == e.salary
  {
    e.(id := |s| + 1)
  }

  /** What `RaiseSalary` leaves behind: the new store, the returned record and the
      found flag. */
  datatype RaiseOutcome = RaiseOutcome(store: seq<Employee>, employee: Employee, found: bool)

  /** `RaiseSalary(id, percent)` on store `s`: raise the first record with that id,
      or report not found with the zero record and an untouched store. */
  function RaisedIn(s: seq<Employee>, id: int, percent: real): (o: RaiseOutcome)
    ensures o.found <==> exists i :: 0 <= i < |s| && s[i].id == id
    ensures !o.found ==> o.store == s && o.employee == ZeroEmployee
    ensures o.found ==> exists i :: 0 <= i < |s| && s[i].id == id
                                  && (forall j :: 0 <= j < i ==> s[j].id != id)
                                  && o.store == s[i := Raised(s[i], percent)]
                                  && o.employee == Raised(s[i], percent)
  {
    match IndexOf(s, id)
    case None => RaiseOutcome(s, ZeroEmployee, false)
    case Some(i) =>
      var t := s[i := Raised(s[i], percent)];
      RaiseOutcome(t, t[i], true)
  }

  /** On a dense store the scan finds id `k` exactly at position `k - 1`, and
      misses every id outside `1..|s|`. */
  lemma DenseIndexOf(s: seq<Employee>, id: int)
    requires Dense(s)
    ensures IndexOf(s, id) == if 1 <= id <= |s| then Some(id - 1) else None
  {
    if 1 <= id <= |s| {
      assert s[id - 1].id == id;
    }
  }

  /** A dense store never holds two records with the same id. */
  lemma DenseIdsUnique(s: seq<Employee>)
    requires Dense(s)
    ensures forall i, j :: 0 <= i < |s| && 0 <= j < |s| && s[i].id == s[j].id ==> i == j
  {
  }

  /** The mutating calls a store can receive. */
  datatype StoreCall = Add(employee: Employee) | Raise(id: int, percent: real)

  /** The store after one call. */
  function Apply(s: seq<Employee>, call: StoreCall): (t: seq<Employee>)
    ensures |t| == if call.Add? then |s| + 1 else |s|
  {
    match call
    case Add(e) => s + [WithNextId(s, e)]
    case Raise(id, percent) => RaisedIn(s, id, percent).store
  }

  /** The store after a sequence of calls, in order. */
  function Run(s: seq<Employee>, calls: seq<StoreCall>): seq<Employee>
    decreases |calls|
  {
    if calls == [] then s else Run(Apply(s, calls[0]), calls[1..])
  }

  /** Adding and raising each keep the ids dense. */
  lemma ApplyKeepsDense(s: seq<Employee>, call: StoreCall)
    requires Dense(s)
    ensures Dense(Apply(s, call))
  {
  }

  /** Any sequence of adds and raises keeps a dense store dense. */
  lemma {:induction false} RunKeepsDense(s: seq<Employee>, calls: seq<StoreCall>)
    requires Dense(s)
    ensures Dense(Run(s, calls))
    decreases |calls|
  {
    if calls != [] {
      ApplyKeepsDense(s, calls[0]);
      RunKeepsDense(Apply(s, calls[0]), calls[1..]);
    }
  }

  /** From the seed, after any adds and raises, the record at position `i` has id
      `i + 1`, so ids are unique and dense. */
  lemma SeededStoreStaysDense(calls: seq<StoreCall>)
    ensures Dense(Run(Seed, calls))
  {
    RunKeepsDense(Seed, calls);
  }

  /** The service object; `employees` is its backing slice. */
  class EmployeeService {
    var employees: seq<Employee>

    /** `NewEmployeeService`: Alice (1, 5000) and Bob (2, 7000), in that order. */
    constructor ()
      ensures employees == [Employee(1, "Alice", 5000.0), Employee(2, "Bob", 7000.0)]
      ensures Dense(employees)
    {
      employees := Seed;
    }

    /** All records in insertion order; the store is not changed. */
    method GetAll() returns (all: seq<Employee>)
      ensures all == employees
    {
      all := employees;
    }

    /** Appends `employee` under the next id and returns the stored copy. */
    method AddEmployee(employee: Employee) returns (added: Employee)
      modifies this
      ensures added.id == |old(employees)| + 1
      ensures added.name == employee.name && added.salary == employee.salary
      ensures employees == old(employees) + [added]
      ensures employees == Apply(old(employees), Add(employee))
      ensures Dense(old(employees)) ==> Dense(employees)
    {
      added := employee.(id := |employees| + 1);
      employees := employees + [added];
      if Dense(old(employees)) {
        ApplyKeepsDense(old(employees), Add(employee));
      }
    }

    /** Scans for `id`; raises the first match in place and returns it with `true`,
        or returns the zero record with `false` and leaves the store alone. */
    method RaiseSalary(id: int, percent: real) returns (employee: Employee, ok: bool)
      modifies this
      ensures RaiseOutcome(employees, employee, ok) == RaisedIn(old(employees), id, percent)
      ensures employees == Apply(old(employees), Raise(id, percent))
      ensures Dense(old(employees)) ==> Dense(employees)
    {
      for i := 0 to |employees|
        invariant employees == old(employees)
        invariant forall j :: 0 <= j < i ==> employees[j].id != id
      {
        if employees[i].id == id {
          employees := employees[i := Raised(employees[i], percent)];
          if Dense(old(employees)) {
            ApplyKeepsDense(old(employees), Raise(id, percent));
          }
          return employees[i], true;
        }
      }
      return ZeroEmployee, false;
    }
  }
}
