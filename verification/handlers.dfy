/** The HTTP handlers: the method/path dispatcher `Employees` and the three handlers
    it routes to. Each handler checks, in order, the method, the decoded body and
    the fields, and only then calls the service; every early answer leaves the
    store untouched. */
module Handlers {
  import opened Wrappers
  import opened Models
  import opened Services

  const MethodGet: string := "GET"
  const MethodPost: string := "POST"
  const MethodPut: string := "PUT"
  const RaisePath: string := "/employees/raise"

  const StatusOK := 200
  const StatusCreated := 201
  const StatusBadRequest := 400
  const StatusNotFound := 404
  const StatusMethodNotAllowed := 405

  /** A request as the handlers see it: the HTTP method (`verb`), the URL path, and what the
      body decodes to as an `Employee` and as a `RaiseSalaryRequest` (`None` when
      decoding into that type fails). */
  datatype Request = Request(
    verb: string,
    path: string,
    employeeBody: Option<Employee>,
    raiseBody: Option<RaiseSalaryRequest>)

  /** What `writeJSON(w, status, payload)` sends: the HTTP status and the envelope. */
  datatype Response = Response(status: int, payload: Envelope)

  const MethodNotAllowed := Response(StatusMethodNotAllowed, ResponseError(405, "Method not allowed"))
  const RouteNotFound := Response(StatusNotFound, ResponseError(404, "Route not found"))
  const InvalidJson := Response(StatusBadRequest, ResponseError(400, "Invalid JSON payload"))
  const InvalidEmployeeData := Response(StatusBadRequest, ResponseError(400, "Invalid employee data"))
  const InvalidIdOrPercent := Response(StatusBadRequest, ResponseError(400, "Invalid id or percent"))
  const EmployeeNotFound := Response(StatusNotFound, ResponseError(404, "Employee not found"))

  /** The envelope's `code` repeats the HTTP status. */
  predicate CodeMatches(r: Response)
  {
    r.payload.code == r.status
  }

  /** Where `Employees` sends a request. */
  datatype Route = ToGetEmployees | ToAddEmployee | ToRaiseSalary | Refused(response: Response)

  /** The switch on the method in `Employees`: GET and POST go to their handlers
      whatever the path; PUT reaches the raise handler only on `/employees/raise`
      and is otherwise a 404; any other method is a 405. */
  function RouteOf(verb: string, path: string): (r: Route)
    ensures r == ToGetEmployees <==> verb == MethodGet
    ensures r == ToAddEmployee <==> verb == MethodPost
    ensures r == ToRaiseSalary <==> verb == MethodPut && path == RaisePath
    ensures r.Refused? <==> verb !in {MethodGet, MethodPost} && (verb == MethodPut ==> path != RaisePath)
    ensures r.Refused? && verb == MethodPut ==> r.response == RouteNotFound
    ensures r.Refused? && verb != MethodPut ==> r.response == MethodNotAllowed
  {
    if verb == MethodGet then ToGetEmployees
    else if verb == MethodPost then ToAddEmployee
    else if verb == MethodPut then
      if path == RaisePath then ToRaiseSalary else Refused(RouteNotFound)
    else Refused(MethodNotAllowed)
  }

  /** The checks `AddEmployee` makes before touching the store: the record to add
      (its id zeroed), or the early answer. */
  function CheckAdd(req: Request): (v: Result<Employee, Response>)
    ensures v.Success? <==> req.verb == MethodPost && req.employeeBody.Some?
                            && req.employeeBody.value.name != "" && req.employeeBody.value.salary > 0.0
    ensures v.Success? ==> v.value == req.employeeBody.value.(id := 0)
    ensures req.verb != MethodPost ==> v == Failure(MethodNotAllowed)
    ensures req.verb == MethodPost && req.employeeBody.None? ==> v == Failure(InvalidJson)
    ensures req.verb == MethodPost && req.employeeBody.Some? && v.Failure? ==> v == Failure(InvalidEmployeeData)
  {
    if req.verb != MethodPost then Failure(MethodNotAllowed)
    else if req.employeeBody.None? then Failure(InvalidJson)
    else
      var employee := req.employeeBody.value;
      if employee.name == "" || employee.salary <= 0.0 then Failure(InvalidEmployeeData)
      else Success(employee.(id := 0))
  }

  /** The checks `RaiseEmployeeSalary` makes before calling the service: the
      decoded request, or the early answer. */
  function CheckRaise(req: Request): (v: Result<RaiseSalaryRequest, Response>)
    ensures v.Success? <==> req.verb == MethodPut && req.raiseBody.Some?
                            && req.raiseBody.value.id > 0 && req.raiseBody.value.percent > 0.0
    ensures v.Success? ==> v.value == req.raiseBody.value
    ensures req.verb != MethodPut ==> v == Failure(MethodNotAllowed)
    ensures req.verb == MethodPut && req.raiseBody.None? ==> v == Failure(InvalidJson)
    ensures req.verb == MethodPut && req.raiseBody.Some? && v.Failure? ==> v == Failure(InvalidIdOrPercent)
  {
    if req.verb != MethodPut then Failure(MethodNotAllowed)
    else if req.raiseBody.None? then Failure(InvalidJson)
    else
      var body := req.raiseBody.value;
      if body.id <= 0 || body.percent <= 0.0 then Failure(InvalidIdOrPercent)
      else Success(body)
  }

  /** A handled request: the answer sent and the store afterwards. */
  datatype Outcome = Outcome(response: Response, store: seq<Employee>)

  /** `GetEmployees` on store `s`: 200 with the whole store for a GET, 405 otherwise;
      the store never changes. */
  function GetEmployeesOutcome(req: Request, s: seq<Employee>): (o: Outcome)
    ensures o.store == s && CodeMatches(o.response)
    ensures o.response.status == StatusOK <==> req.verb == MethodGet
    ensures req.verb == MethodGet ==> o.response.payload == ResponseEmployee(200, "Success", Many(s))
    ensures req.verb != MethodGet ==> o.response == MethodNotAllowed
  {
    if req.verb != MethodGet then Outcome(MethodNotAllowed, s)
    else Outcome(Response(StatusOK, ResponseEmployee(200, "Success", Many(s))), s)
  }

  /** `AddEmployee` on store `s`: a rejected request leaves `s` as it was; an
      accepted one appends exactly one record under the next id and answers 201
      with that record. */
  function AddEmployeeOutcome(req: Request, s: seq<Employee>): (o: Outcome)
    ensures CodeMatches(o.response)
    ensures o.response.status == StatusCreated <==> CheckAdd(req).Success?
    ensures CheckAdd(req).Failure? ==> o == Outcome(CheckAdd(req).error, s)
    ensures CheckAdd(req).Success? ==>
              |o.store| == |s| + 1 && o.store[..|s|] == s
              && o.store[|s|] == Employee(|s| + 1, req.employeeBody.value.name, req.employeeBody.value.salary)
              && o.response.payload == ResponseEmployee(201, "Employee added successfully", One(o.store[|s|]))
  {
    match CheckAdd(req)
    case Failure(early) => Outcome(early, s)
    case Success(employee) =>
      var added := WithNextId(s, employee);
      Outcome(Response(StatusCreated, ResponseEmployee(201, "Employee added successfully", One(added))), s + [added])
  }

  /** `RaiseEmployeeSalary` on store `s`: a rejected request leaves `s` as it was; a
      valid one whose id is absent is a 404 that also leaves `s` alone; otherwise
      the first record with that id is raised and returned with 200. */
  function RaiseEmployeeSalaryOutcome(req: Request, s: seq<Employee>): (o: Outcome)
    ensures CodeMatches(o.response)
    ensures CheckRaise(req).Failure? ==> o == Outcome(CheckRaise(req).error, s)
    ensures CheckRaise(req).Success? ==>
              var body := CheckRaise(req).value;
              var raised := RaisedIn(s, body.id, body.percent);
              o.store == raised.store
              && (raised.found ==> o.response == Response(StatusOK, ResponseEmployee(200, "Salary updated successfully", One(raised.employee))))
              && (!raised.found ==> o.response == EmployeeNotFound)
  {
    match CheckRaise(req)
    case Failure(early) => Outcome(early, s)
    case Success(body) =>
      var raised := RaisedIn(s, body.id, body.percent);
      if !raised.found then Outcome(EmployeeNotFound, s)
      else Outcome(Response(StatusOK, ResponseEmployee(200, "Salary updated successfully", One(raised.employee))), raised.store)
  }

  /** `Employees` on store `s`. Whatever the request, the envelope's code is the
      HTTP status, the status is one of five, every 4xx answer leaves the store as
      it was, and only a 201 grows it, by one record at the end. */
  function Serve(req: Request, s: seq<Employee>): (o: Outcome)
    ensures CodeMatches(o.response)
    ensures o.response.status in {StatusOK, StatusCreated, StatusBadRequest, StatusNotFound, StatusMethodNotAllowed}
    ensures o.response.status >= 400 ==> o.store == s
    ensures o.response.status == StatusCreated ==> |o.store| == |s| + 1 && o.store[..|s|] == s
    ensures o.response.status != StatusCreated ==> |o.store| == |s|
  {
    match RouteOf(req.verb, req.path)
    case ToGetEmployees => GetEmployeesOutcome(req, s)
    case ToAddEmployee => AddEmployeeOutcome(req, s)
    case ToRaiseSalary => RaiseEmployeeSalaryOutcome(req, s)
    case Refused(response) => Outcome(response, s)
  }

  /** Every request keeps a dense store dense. */
  lemma ServeKeepsDense(req: Request, s: seq<Employee>)
    requires Dense(s)
    ensures Dense(Serve(req, s).store)
  {
  }

  /** The store after serving `reqs` in order. */
  function ServeAll(reqs: seq<Request>, s: seq<Employee>): seq<Employee>
    decreases |reqs|
  {
    if reqs == [] then s else ServeAll(reqs[1..], Serve(reqs[0], s).store)
  }

  /** Starting from a dense store (the seed is one), after any sequence of
      requests the record at position `i` still has id `i + 1`. */
  lemma {:induction false} ServeAllKeepsDense(reqs: seq<Request>, s: seq<Employee>)
    requires Dense(s)
    ensures Dense(ServeAll(reqs, s))
    decreases |reqs|
  {
    if reqs != [] {
      ServeKeepsDense(reqs[0], s);
      ServeAllKeepsDense(reqs[1..], Serve(reqs[0], s).store);
    }
  }

  /** On a dense store a valid raise request is a 404 exactly when its id is
      beyond the last record. */
  lemma RaiseNotFoundIffBeyondEnd(req: Request, s: seq<Employee>)
    requires Dense(s) && CheckRaise(req).Success?
    ensures RaiseEmployeeSalaryOutcome(req, s).response == EmployeeNotFound <==> req.raiseBody.value.id > |s|
  {
    DenseIndexOf(s, req.raiseBody.value.id);
  }

  /** The dispatcher switches on the method first: a GET on the raise path lists
      the store rather than answering 404. */
  lemma GetOnRaisePathLists(s: seq<Employee>, body: Option<Employee>, raise: Option<RaiseSalaryRequest>)
    ensures Serve(Request(MethodGet, RaisePath, body, raise), s).response
            == Response(StatusOK, ResponseEmployee(200, "Success", Many(s)))
  {
  }

  /** The HTTP handler object; it holds the service it delegates to. */
  class EmployeeHandler {
    const service: EmployeeService

    /** `NewEmployeeHandler(service)`. */
    constructor (service: EmployeeService)
      ensures this.service == service
    {
      this.service := service;
    }

    /** Routes by method, then (for PUT) by path. */
    method Employees(req: Request) returns (resp: Response)
      modifies service
      ensures Outcome(resp, service.employees) == Serve(req, old(service.employees))
    {
      if req.verb == MethodGet {
        resp := GetEmployees(req);
      } else if req.verb == MethodPost {
        resp := AddEmployee(req);
      } else if req.verb == MethodPut {
        if req.path == RaisePath {
          resp := RaiseEmployeeSalary(req);
          return;
        }
        resp := RouteNotFound;
      } else {
        resp := MethodNotAllowed;
      }
    }

    /** Lists every employee; reads the store and changes nothing. */
    method GetEmployees(req: Request) returns (resp: Response)
      ensures Outcome(resp, service.employees) == GetEmployeesOutcome(req, service.employees)
    {
      if req.verb != MethodGet {
        return MethodNotAllowed;
      }
      var employees := service.GetAll();
      resp := Response(StatusOK, ResponseEmployee(200, "Success", Many(employees)));
    }

    /** Validates the body, then adds the employee through the service. */
    method AddEmployee(req: Request) returns (resp: Response)
      modifies service
      ensures Outcome(resp, service.employees) == AddEmployeeOutcome(req, old(service.employees))
    {
      if req.verb != MethodPost {
        return MethodNotAllowed;
      }
      if req.employeeBody.None? {
        return InvalidJson;
      }
      var employee := req.employeeBody.value;
      if employee.name == "" || employee.salary <= 0.0 {
        return InvalidEmployeeData;
      }
      employee := employee.(id := 0);
      var added := service.AddEmployee(employee);
      resp := Response(StatusCreated, ResponseEmployee(201, "Employee added successfully", One(added)));
    }

    /** Validates the body, then raises the salary through the service. */
    method RaiseEmployeeSalary(req: Request) returns (resp: Response)
      modifies service
      ensures Outcome(resp, service.employees) == RaiseEmployeeSalaryOutcome(req, old(service.employees))
    {
      if req.verb != MethodPut {
        return MethodNotAllowed;
      }
      if req.raiseBody.None? {
        return InvalidJson;
      }
      var body := req.raiseBody.value;
      if body.id <= 0 || body.percent <= 0.0 {
        return InvalidIdOrPercent;
      }
      var employee, ok := service.RaiseSalary(body.id, body.percent);
      if !ok {
        return EmployeeNotFound;
      }
      resp := Response(StatusOK, ResponseEmployee(200, "Salary updated successfully", One(employee)));
    }
  }
}
