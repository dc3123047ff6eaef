/** The record types of the employee API: the employee, its salary raise, and the
    JSON envelopes every endpoint answers with. */
module Models {

  /** An employee. `id` is assigned by the store; salaries are exact reals here. */
  datatype Employee = Employee(id: int, name: string, salary: real)

  /** Go's zero value `Employee{}`, returned when a raise finds no record. */
  const ZeroEmployee := Employee(0, "", 0.0)

  /** The record after `Raise(percent)`: the salary grows by `percent` percent of
      itself, and the id and name are left alone. */
  function Raised(e: Employee, percent: real): (r: Employee)
    ensures r.id == e.id && r.name == e.name
    ensures r.salary * 100.0 == e.salary * (100.0 + percent)
  {
    e.(salary := e.salary + e.salary * percent / 100.0)
  }

  /** A positive raise on a positive salary really increases it. */
  lemma RaiseIncreases(e: Employee, percent: real)
    requires e.salary > 0.0 && percent > 0.0
    ensures Raised(e, percent).salary > e.salary
  {
  }

  /** A zero raise changes nothing at all. */
  lemma RaiseByZero(e: Employee)
    ensures Raised(e, 0.0) == e
  {
  }

  /** The worked example: 10% on 5000 gives exactly 5500. */
  lemma RaiseTenPercentOfFiveThousand()
    ensures Raised(Employee(1, "Alice", 5000.0), 10.0) == Employee(1, "Alice", 5500.0)
  {
  }

  /** The decoded body of a raise request. */
  datatype RaiseSalaryRequest = RaiseSalaryRequest(id: int, percent: real)

  /** The `data` of a success envelope: one record or the whole list. */
  datatype Data = One(employee: Employee) | Many(employees: seq<Employee>)

  /** `ResponseEmployee {code, message, data}` and `ResponseError {code, message}`. */
  datatype Envelope =
    | ResponseEmployee(code: int, message: string, data: Data)
    | ResponseError(code: int, message: string)
}
