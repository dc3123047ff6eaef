# Employee API store and handlers, in Dafny

A model of a small JSON-over-HTTP employee API written in Go: the in-memory
employee store (`employeeService`), the `Employee` record with its percentage
salary raise, and the request handlers that validate a request and call the
store (`Employees`, `GetEmployees`, `AddEmployee`, `RaiseEmployeeSalary`).

- `models.dfy` (module `Models`): the `Employee` record, `Raised` (the effect of
  `Employee.Raise`), the decoded raise request and the response envelopes
  `ResponseEmployee` / `ResponseError`.
- `services.dfy` (module `Services`): the class `EmployeeService`, whose field
  `employees` is the backing slice, with the seeding constructor, `GetAll`,
  `AddEmployee` and `RaiseSalary` (a loop over indices that updates the
  matching record in place). Each method is proved against specification
  functions (`IndexOf`, `WithNextId`, `RaisedIn`), and the dense-id invariant
  (`employees[i].id == i + 1`) is proved to survive any sequence of adds and
  raises starting from the seed.
- `handlers.dfy` (module `Handlers`): the decision logic as functions (`RouteOf`,
  `CheckAdd`, `CheckRaise` and one outcome function per handler, plus `Serve`
  for the dispatcher), and the class `EmployeeHandler`, whose methods call the
  service and are proved to produce exactly the outcome those functions give.
  A request is abstracted to its method, its path, and what its body decodes
  to as an `Employee` and as a raise request (each either a value or a decode
  failure). A response is the HTTP status plus the envelope.
- `wrappers.dfy` (module `Wrappers`): `Option` and `Result`.

`Apply` is the store effect of one `AddEmployee` or `RaiseSalary`, and the two
service methods are proved to have exactly that effect. `Run` and `ServeAll`
are not operations of the system: they replay a sequence of store calls or of
requests and exist only to state the dense-id invariant over such sequences.

Salaries and percents are exact `real` numbers. `Employees`
(handlers/employee_handler.go:17-36) switches on the method before it looks at
the path, so:

- every GET is sent to `GetEmployees` and answered 200 with the full list,
  including a GET on `/employees/raise` (lemma `GetOnRaisePathLists`), not 404;
- every POST reaches `AddEmployee` whatever the path;
- only a PUT has its path checked.

The `GET /employee?id=` route has no handler in handlers/employee_handler.go;
it is not part of this model.

## Model

| member | source | states |
|---|---|---|
| Models.Raised | models/employee.go:26-28 | raising by `p` percent multiplies the salary by (100 + p)/100, i.e. salary' = salary + salary·p/100; id and name are unchanged |
| Models.RaiseIncreases | models/employee.go:20-27 | with a positive salary and a positive percent the raise strictly increases the salary |
| Models.RaiseByZero | models/employee.go:27 | a 0% raise leaves the record exactly as it was |
| Models.RaiseTenPercentOfFiveThousand | models/employee.go:27 | 10% on a salary of 5000 gives exactly 5500 |
| Services.IndexOf | services/employee_service.go:78-79 | the scan finds the first position holding the id, and reports absence exactly when no record carries it |
| Services.WithNextId | services/employee_service.go:62 | the stored record's id is the old length + 1, whatever id the caller sent; name and salary are the caller's |
| Services.RaisedIn | services/employee_service.go:77-85 | found iff some record has the id; if found, only the first such record is raised, the length is kept and the raised record is returned; if not, the zero record is returned and the store is unchanged |
| Services.DenseIndexOf | services/employee_service.go:78-84 | on a dense store the scan finds id k at position k-1 and misses every id outside 1..length |
| Services.DenseIdsUnique | services/employee_service.go:36-37 | a dense store never holds two records with one id |
| Services.Apply | services/employee_service.go:61-85 | the store after one call: an add grows it by one record, a raise keeps its length; `EmployeeService.AddEmployee` and `EmployeeService.RaiseSalary` are proved to produce exactly this store |
| Services.ApplyKeepsDense | services/employee_service.go:61-85 | one add or one raise keeps a dense store dense |
| Services.RunKeepsDense | services/employee_service.go:61-85 | any sequence of adds and raises keeps a dense store dense |
| Services.SeededStoreStaysDense | services/employee_service.go:33-40 | from the seed, after any adds and raises, record i has id i+1 |
| Services.EmployeeService.constructor | services/employee_service.go:33-40 | a fresh service holds exactly (1, Alice, 5000) and (2, Bob, 7000), in that order, and is dense |
| Services.EmployeeService.GetAll | services/employee_service.go:48-50 | returns the stored records in insertion order and changes nothing |
| Services.EmployeeService.AddEmployee | services/employee_service.go:61-65 | returns the input with id = old length + 1; the store becomes the old store plus exactly that record at the end, which is `Apply` of an add; density is kept |
| Services.EmployeeService.RaiseSalary | services/employee_service.go:77-85 | new store, returned record and flag are exactly those of `RaisedIn` on the old store, so the store is `Apply` of a raise; density is kept |
| Handlers.RouteOf | handlers/employee_handler.go:16-37 | GET goes to GetEmployees and POST to AddEmployee whatever the path; PUT goes to RaiseEmployeeSalary only on /employees/raise, else 404 "Route not found"; any other method gets 405 "Method not allowed" |
| Handlers.CheckAdd | handlers/employee_handler.go:95-121 | accepted iff POST, body decoded, name non-empty and salary > 0, and then yields the body with id 0; rejections in order: 405, 400 "Invalid JSON payload", 400 "Invalid employee data" |
| Handlers.CheckRaise | handlers/employee_handler.go:139-163 | accepted iff PUT, body decoded, id > 0 and percent > 0; rejections in order: 405, 400 "Invalid JSON payload", 400 "Invalid id or percent" |
| Handlers.GetEmployeesOutcome | handlers/employee_handler.go:69-86 | 200 "Success" with the whole store iff GET, else 405; the store is never changed |
| Handlers.AddEmployeeOutcome | handlers/employee_handler.go:95-130 | 201 iff the checks pass; a rejection leaves the store unchanged; an acceptance appends exactly one record with the next id and the body's name and salary, keeps earlier records, and returns that record |
| Handlers.RaiseEmployeeSalaryOutcome | handlers/employee_handler.go:139-179 | a rejection leaves the store unchanged; a valid request whose id is absent answers 404 "Employee not found" and leaves the store unchanged; otherwise 200 "Salary updated successfully" with the raised record |
| Handlers.Serve | handlers/employee_handler.go:16-37 | for every request the envelope code equals the HTTP status, the status is 200, 201, 400, 404 or 405, every 4xx leaves the store unchanged, and only a 201 grows it by one record at the end |
| Handlers.ServeKeepsDense | handlers/employee_handler.go:16-37 | every request keeps a dense store dense |
| Handlers.ServeAllKeepsDense | handlers/employee_handler.go:16-37 | any sequence of requests keeps a dense store dense |
| Handlers.RaiseNotFoundIffBeyondEnd | handlers/employee_handler.go:165-172 | on a dense store a valid raise is a 404 exactly when its id exceeds the number of records |
| Handlers.GetOnRaisePathLists | handlers/employee_handler.go:17-19 | GET on /employees/raise is answered 200 with the full list, because the method is switched on first |
| Handlers.EmployeeHandler.constructor | handlers/employee_handler.go:58-60 | the handler holds the given service |
| Handlers.EmployeeHandler.Employees | handlers/employee_handler.go:16-37 | response and new store are exactly those of `Serve` on the old store |
| Handlers.EmployeeHandler.GetEmployees | handlers/employee_handler.go:69-86 | response is that of `GetEmployeesOutcome`; the store is only read |
| Handlers.EmployeeHandler.AddEmployee | handlers/employee_handler.go:95-130 | response and new store are exactly those of `AddEmployeeOutcome` on the old store |
| Handlers.EmployeeHandler.RaiseEmployeeSalary | handlers/employee_handler.go:139-179 | response and new store are exactly those of `RaiseEmployeeSalaryOutcome` on the old store |

## Left out

- Logging middleware (middleware/logger.go): wall-clock timing, console output and the status-capturing response writer are I/O with nothing to state beyond the default status of 200.
- JSON encoding and the response writer (handlers/response.go): the model stops at the pair (status, envelope) that `writeJSON` is given. The Content-Type header and the discarded encode error are not modelled. The handler file calls `writeJSON` while the helper defined in handlers/response.go:16 is named `WriteJSON`; both are read as "write this status and this payload".
- JSON decoding: a body is given already decoded, or as a decode failure, for each target type; no parser is modelled.
- Listener and mux wiring (main.go): not modelled. main.go:20 registers a `GetEmployee` handler that handlers/employee_handler.go does not define, so the `GET /employee?id=` route is not part of this model. main.go:19 mounts `GetEmployees`, not the `Employees` dispatcher, on `/employees`: as wired there, a POST to `/employees` gets 405 and `/employees/raise` reaches no handler. `Serve` and `EmployeeHandler.Employees` model the dispatcher as the handler file defines it, which that entry point does not serve.
- `models.RaiseSalaryRequest`: it is declared outside the modelled files; its fields (an integer id, a float percent) are taken from how the handler uses them.
- The `EmployeeService` interface: it has one implementation, which the class `EmployeeService` models directly.
- `Manager` (models/manager.go): a type with no behaviour and no use.
- Models.Raised: works on exact reals, so the rounding of `float64` salaries and percents is not captured.
- Concurrency: the store has no locking; only sequential calls are modelled.
- Services.EmployeeService.GetAll: returns a value snapshot; the aliasing of the backing slice that the Go method hands out is not captured.
