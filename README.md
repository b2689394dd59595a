# Employee management: a verified model

The repository is a small employee-management program written four times over.
`employees.py` is the original version. `employees-refactored.py`,
`employees-refactored-v2.py` and `tempCodeRunnerFile.py` are later refactorings
that use strategies, factories, a repository and an inversion-of-control
container. The versions share three pieces of domain logic, and this project
models and proves them:

- **Vacation balance.** Each employee has a balance of vacation days, 25 by
  default. A holiday request either pays out a fixed 5 days or takes days off.
  The request succeeds only when the balance covers it. A refused request
  raises an error and leaves the balance exactly as it was.
- **Directory.** A company or repository keeps employees in insertion order
  and can list the employees that have a given role.
- **Pay.** A salaried employee is paid the monthly salary (5000 by default).
  An hourly employee is paid rate × hours (50 × 10 by default). In employees.py,
  employees-refactored.py and employees-refactored-v2.py, pay is dispatched
  on the employee's concrete kind. A kind with no payment rule is not paid:
  employees.py skips it silently, and employees-refactored.py and
  employees-refactored-v2.py report it. tempCodeRunnerFile.py keeps the two
  payroll calculators and the factories' `get_payroll_calculator`, but it
  pays no one: it has no payroll service, no "pay all" and no pay option in
  its menu.

Layout, one module per file:

- `results.dfy` (`Results`): the `Option`, `Result` and `Outcome` wrappers.
  Python's raised exceptions become `Err`/`Fail` values carrying the error.
- `leave.dfy` (`Leave`): the balance rule that all versions share, namely
  `Deduct`, `BalanceAfter`, and a fold `Run` over a sequence of requests.
- `directory.dfy` (`Directory`): `WithRole`, the role filter behind every
  "find by role", plus its properties.
- `employees.dfy`, `employees_refactored.dfy`, `employees_refactored_v2.dfy`
  and `temp_code_runner.dfy`: one module per source file.
  - An employee is a `class`, because the source updates `vacation_days` in
    place.
  - Companies, repositories and the IoC container are classes whose methods
    change their fields.
  - The payroll and employee services are classes that hold fixed references
    (`const` fields). They never change themselves: `PayAllEmployees` changes
    nothing, `CreateEmployee` changes the repository, and `GrantVacation`
    changes the employee.
  - The stateless strategy, calculator, manager and factory classes are
    datatypes with one constructor per Python class.
- `refactorings.dfy` (`Refactorings`): proves that the four versions decide
  holiday requests the same way, pay the same amounts and have the same
  defaults.

The imperative parts keep the source's form:

- Holiday requests are methods that modify the employee.
- The three `find_*` methods of employees.py and every "pay all" are loops
  with invariants. They are proved against `Directory.WithRole` and the
  per-employee pay functions.
- The later versions' "find by role" is a list comprehension, so it is a
  function defined by `Directory.WithRole`.
- Adding to a company or repository is a method that appends to a `seq`
  field.

## Model

| member | source | states |
|---|---|---|
| Leave.Deduct | employees-refactored-v2.py:98-102 | a request is granted exactly when `days <= balance`; a granted request leaves `balance - days`, which is never negative; a request for the whole balance leaves 0 |
| Leave.BalanceAfter | employees-refactored-v2.py:98-102 | the balance after one request is either unchanged (refused) or reduced by exactly `days`; a non-negative balance stays non-negative; a non-negative request never raises the balance; a granted negative request raises it |
| Leave.RunKeepsNonNegative | employees-refactored-v2.py:98-102 | over any sequence of requests, a balance that starts non-negative never becomes negative |
| Leave.RunNeverRaises | tempCodeRunnerFile.py:47-50 | when every request is non-negative, no sequence of requests ends above the starting balance |
| Leave.RepeatedRequests | employees-refactored-v2.py:145-157 | making the same positive request `n` times subtracts `days * n` when the balance covers it, and otherwise stops at `balance % days`, the first balance that cannot cover the request |
| Directory.WithRole | employees-refactored-v2.py:193-194 | the filtered list is no longer than the input; every element it holds is in the input and has the role; every input element with the role is in it |
| Directory.Positions | employees-refactored-v2.py:193-194 | the indices of the selected employees: one per selected employee, each a valid index into the input |
| Directory.WithRoleAtPositions | employees-refactored-v2.py:193-194 | the k-th selected employee is the input element at the k-th position |
| Directory.PositionsIncrease | employees-refactored-v2.py:193-194 | positions strictly increase, so the filter keeps insertion order |
| Directory.PositionsExact | employees-refactored-v2.py:193-194 | an index is selected if and only if the employee at that index has the role |
| Directory.WithRoleInOrder | employees-refactored-v2.py:193-194 | the filter's result is the input read at strictly increasing positions, and those positions are exactly the indices of the entries with the role; so every "find by role" below keeps insertion order and misses nothing |
| Directory.WithRoleConcat | employees-refactored.py:283-285 | filtering a concatenation gives the concatenation of the filtered parts |
| Directory.WithRoleAppend | employees-refactored.py:279-285 | after an append, the filter is extended by the new employee exactly when that employee has the role |
| Directory.WithRoleIdempotent | employees-refactored.py:283-285 | filtering twice by the same role gives the same list as filtering once |
| Employees.Employee.constructor | employees.py:12-19 | a new employee has the given name, role, pay kind (a plain employee by default) and balance (25 by default) |
| Employees.Employee.TakeAHoliday | employees.py:21-42 | a payout costs 5 days and time off costs 1; the request succeeds exactly when the balance covers the cost; on success the balance drops by the cost, and on failure it is unchanged; a refused payout reports the remaining balance |
| Employees.Company.constructor | employees.py:63-64 | a new company has no employees |
| Employees.Company.AddEmployee | employees.py:66-68 | the employee is appended at the end and the earlier employees are unchanged |
| Employees.Company.CollectRole | employees.py:70-92 | the result is exactly `Directory.WithRole` of the company's employees for the given role; the company is not changed |
| Employees.Company.FindManagers | employees.py:70-76 | the result is exactly `Directory.WithRole` of the employees for "manager", so it keeps insertion order (`Directory.WithRoleInOrder`) |
| Employees.Company.FindVicePresidents | employees.py:78-84 | the result is exactly the employees whose role is "vice_president", in insertion order (`Directory.WithRoleInOrder`) |
| Employees.Company.FindInterns | employees.py:86-92 | the result is exactly the employees whose role is "intern", in insertion order (`Directory.WithRoleInOrder`) |
| Employees.Company.PayEmployee | employees.py:94-103 | a plain employee gets no payment; a salaried one gets the monthly salary; an hourly one gets rate × amount |
| EmployeesRefactored.Employee.constructor | employees-refactored.py:26-61 | a new employee has the given name, role, kind and balance |
| EmployeesRefactored.Employee.CalculatePay | employees-refactored.py:46-61 | a salaried employee's pay is the monthly salary; an hourly employee's pay is rate × hours worked |
| EmployeesRefactored.Employee.Class | employees-refactored.py:199-201 | the concrete class is determined by the kind of pay, one class per kind |
| EmployeesRefactored.VacationStrategy.HandleVacation | employees-refactored.py:92-109 | a payout costs 5 days and time off costs 1; the request succeeds exactly when the balance covers the cost; a success lowers the balance by the cost; a failure leaves it unchanged and says which rule refused it |
| EmployeesRefactored.PaymentFor | employees-refactored.py:199-205 | an employee whose class has a strategy is paid by that strategy, for the amount `CalculatePay` gives; otherwise the employee is reported as having no strategy |
| EmployeesRefactored.StandardStrategiesPayEveryone | employees-refactored.py:346-349 | with the strategy table that the program sets up, every employee is paid by the strategy that matches its class |
| EmployeesRefactored.PayAllEmployeesCommand.constructor | employees-refactored.py:195-197 | the command holds the given company and strategy table |
| EmployeesRefactored.PayAllEmployeesCommand.Execute | employees-refactored.py:199-205 | there is one payment per employee, in company order; payment `i` is `PaymentFor` of employee `i`; nothing is modified |
| EmployeesRefactored.EmployeeFactory.Fields | employees-refactored.py:124-134 | the salaried factory takes a salary (default 5000) and refuses the hourly keywords; the hourly factory takes a rate and hours (defaults 50 and 10) and refuses the salary keyword; both take a balance (default 25); a refusal names a keyword of the other kind that was given |
| EmployeesRefactored.EmployeeFactory.CreateEmployee | employees-refactored.py:124-134 | creation succeeds exactly when `Fields` accepts the keywords; a new employee gets the given name and role and the fields `Fields` chose; a refused keyword is reported by name |
| EmployeesRefactored.FactoryDefaults | employees-refactored.py:46-61 | with no keywords, the factories produce the dataclass defaults |
| EmployeesRefactored.GetFactory | employees-refactored.py:139-149 | "salaried" and "hourly" each give their own factory; any other type name is an error that carries the name |
| EmployeesRefactored.IoCContainer.constructor | employees-refactored.py:253-254 | a new container has no registrations |
| EmployeesRefactored.IoCContainer.Register | employees-refactored.py:256-257 | after registration, resolving the interface gives what the new callable produces; every other interface resolves as before |
| EmployeesRefactored.IoCContainer.Resolve | employees-refactored.py:259-263 | a registered interface resolves to the value its callable produces; an unregistered one is an error naming the interface |
| EmployeesRefactored.Company.constructor | employees-refactored.py:275-277 | a new company has no employees and holds the given vacation strategy |
| EmployeesRefactored.Company.AddEmployee | employees-refactored.py:279-281 | the employee is appended: it is now at the last index, and every earlier index gives the same employee as before |
| EmployeesRefactored.Company.FindEmployeesByRole | employees-refactored.py:283-285 | exactly the employees with the given role, in insertion order (`Directory.WithRoleInOrder`) |
| EmployeesRefactored.Company.GetEmployeeByIndex | employees-refactored.py:287-291 | an index in `0 <= index < count` gives that employee; any other index is an out-of-bounds error |
| EmployeesRefactored.Company.HandleEmployeeVacation | employees-refactored.py:293-295 | the same decision, new balance and error as the company's vacation strategy |
| EmployeesRefactoredV2.Employee.constructor | employees-refactored-v2.py:90-117 | a new employee has the given name, role, kind and balance (default 25) |
| EmployeesRefactoredV2.Employee.Class | employees-refactored-v2.py:355-357 | a plain, salaried or hourly kind gives its own concrete class |
| EmployeesRefactoredV2.Employee.ReduceVacationDays | employees-refactored-v2.py:98-102 | the request succeeds exactly when `days <= balance`; a success leaves `balance - days`, matching `Leave.BalanceAfter`; a failure reports the available balance and changes nothing |
| EmployeesRefactoredV2.PayrollCalculator.CalculatePay | employees-refactored-v2.py:124-139 | the salaried calculator gives the salary of a salaried employee and refuses every other employee; the hourly calculator gives rate × hours of an hourly employee and refuses every other employee |
| EmployeesRefactoredV2.CalculatorsExclusive | employees-refactored-v2.py:124-139 | no employee is accepted by both calculators, and a plain employee is accepted by neither |
| EmployeesRefactoredV2.VacationManager.TakeVacation | employees-refactored-v2.py:142-157 | a payout takes 5 days and time off takes 1, through `ReduceVacationDays`; the request is granted exactly when the balance covers the cost; a refusal reports the available balance |
| EmployeesRefactoredV2.InMemoryEmployeeRepository.constructor | employees-refactored-v2.py:184-185 | a new repository is empty |
| EmployeesRefactoredV2.InMemoryEmployeeRepository.AddEmployee | employees-refactored-v2.py:187-188 | the employee is appended; for every role, the role listing gains the new employee at the end exactly when it has that role |
| EmployeesRefactoredV2.InMemoryEmployeeRepository.GetAllEmployees | employees-refactored-v2.py:190-191 | all employees, in insertion order |
| EmployeesRefactoredV2.InMemoryEmployeeRepository.FindByRole | employees-refactored-v2.py:193-194 | exactly the employees with the given role, in insertion order (`Directory.WithRoleInOrder`) |
| EmployeesRefactoredV2.EmployeeFactory.KindFor | employees-refactored-v2.py:215-232 | the salaried factory makes a salaried kind with the given salary or 5000; the hourly factory makes an hourly kind with the given rate and hours, or 50 and 10 |
| EmployeesRefactoredV2.EmployeeFactory.CreateEmployee | employees-refactored-v2.py:218-232 | a new employee with the given name and role, the kind from `KindFor`, and the default balance of 25 |
| EmployeesRefactoredV2.EmployeeFactory.GetPayrollCalculator | employees-refactored-v2.py:222-235 | each factory gives the calculator for its own kind |
| EmployeesRefactoredV2.FactoryDefaults | employees-refactored-v2.py:218-232 | with no keywords, the factories give a salary of 5000, a rate of 50 and 10 hours |
| EmployeesRefactoredV2.GetFactory | employees-refactored-v2.py:241-251 | each employee type gives the factory of that type |
| EmployeesRefactoredV2.FactoryCalculatorAccepts | employees-refactored-v2.py:215-235 | a factory's own calculator accepts every employee that factory creates |
| EmployeesRefactoredV2.PayrollService.constructor | employees-refactored-v2.py:341-343 | the service holds the given repository |
| EmployeesRefactoredV2.PayrollService.PayEmployee | employees-refactored-v2.py:355-362 | a salaried or hourly employee is paid what its calculator gives; a plain employee is reported as having no calculator; a calculator never rejects the employee it is chosen for |
| EmployeesRefactoredV2.PayrollService.PayAllEmployees | employees-refactored-v2.py:349-353 | one payment per employee, in repository order; payment `i` is `PayEmployee` of employee `i`; no balance or repository is changed |
| EmployeesRefactoredV2.EmployeeService.constructor | employees-refactored-v2.py:368-370 | the service holds the given repository and vacation manager |
| EmployeesRefactoredV2.EmployeeService.CreateEmployee | employees-refactored-v2.py:372-378 | the new employee is made by the factory for the type, has balance 25 and is appended to the repository |
| EmployeesRefactoredV2.EmployeeService.GrantVacation | employees-refactored-v2.py:380-382 | the same decision, new balance and error as the vacation manager |
| TempCodeRunner.Employee.constructor | tempCodeRunnerFile.py:41-59 | a new employee has the given name, role, kind and balance (default 25) |
| TempCodeRunner.Employee.ReduceVacationDays | tempCodeRunnerFile.py:47-50 | the request succeeds exactly when `days <= balance`; a success leaves `balance - days`; a failure reports the available balance and changes nothing |
| TempCodeRunner.PayrollCalculator.CalculatePay | tempCodeRunnerFile.py:63-73 | the salaried calculator gives the salary of a salaried employee and refuses every other employee; the hourly calculator gives rate × hours of an hourly employee and refuses every other employee |
| TempCodeRunner.VacationManager.TakeVacation | tempCodeRunnerFile.py:75-88 | a payout takes 5 days and ignores the day count; time off takes the requested number of days; the request succeeds exactly when the balance covers the cost; a refusal reports the available balance |
| TempCodeRunner.InMemoryEmployeeRepository.constructor | tempCodeRunnerFile.py:107-108 | a new repository is empty |
| TempCodeRunner.InMemoryEmployeeRepository.AddEmployee | tempCodeRunnerFile.py:110-111 | the employee is appended; for every role, the role listing gains the new employee at the end exactly when it has that role |
| TempCodeRunner.InMemoryEmployeeRepository.GetAllEmployees | tempCodeRunnerFile.py:113-114 | all employees, in insertion order |
| TempCodeRunner.InMemoryEmployeeRepository.FindByRole | tempCodeRunnerFile.py:116-117 | exactly the employees with the given role, in insertion order (`Directory.WithRoleInOrder`) |
| TempCodeRunner.EmployeeFactory.KindFor | tempCodeRunnerFile.py:127-139 | the salaried factory makes a salaried kind with the given salary or 5000; the hourly factory makes an hourly kind with the given rate and hours, or 50 and 10 |
| TempCodeRunner.EmployeeFactory.CreateEmployee | tempCodeRunnerFile.py:127-139 | a new employee with the given name and role, the kind from `KindFor`, and balance 25 |
| TempCodeRunner.EmployeeFactory.GetPayrollCalculator | tempCodeRunnerFile.py:132-142 | each factory gives the calculator for its own kind |
| TempCodeRunner.FactoryDefaults | tempCodeRunnerFile.py:127-139 | with no keywords, the factories give a salary of 5000, a rate of 50 and 10 hours |
| TempCodeRunner.GetFactory | tempCodeRunnerFile.py:144-151 | each employee type gives the factory of that type, looked up in the factory table |
| TempCodeRunner.FactoryCalculatorAccepts | tempCodeRunnerFile.py:127-151 | the calculator of the factory for a type accepts every employee that factory creates |
| Refactorings.HolidayAgreement | employees.py:21-42 | for the same balance and request, all four versions grant or refuse alike, each grants exactly when the balance covers the cost, and all leave the same balance, `Leave.BalanceAfter` of the cost |
| Refactorings.PayAgreement | employees.py:94-103 | for the same salary, rate and hours, all four versions pay a salaried employee the salary and an hourly employee rate × hours |
| Refactorings.Defaults | employees.py:12-57 | all four versions give a new employee 25 vacation days, a salary of 5000, a rate of 50 and 10 hours |

## Left out

- Console I/O is not modelled. That covers the menus, `input`, `print`, `clear_screen`/`os.system`, the UI renderer classes, the `main` functions and `EmployeeManagementApp`. The message texts are dropped too, except the numbers that the errors carry.
- The command wrappers are not modelled, except `PayAllEmployeesCommand`. They only forward to a modelled operation or print:
  - `AddEmployeeCommand`, `TakeHolidayCommand`, `PayEmployeeCommand`
  - the `View*Command`s
  - `CreateEmployeeCommand`, `GrantVacationCommand`, `PayEmployeesCommand`
- `get_info` is not modelled. It only formats a string.
- `get_employee_details_from_user` and `_get_employee_creation_params` are left out, because they read from the console.
- The `:.2f` formatting of amounts is left out.
- Pay is modelled with exact `real` arithmetic, not IEEE doubles, so float rounding in `rate * hours` is not captured.
- Python's lack of static types is not modelled. A rate given as an `int` behaves the same in `real`, and a keyword value of the wrong type is not possible.
- `isinstance` and `type(employee)` are modelled by the employee's pay kind, with a `Class()` function standing for `type(...)`. Subclasses beyond the ones in the source are not modelled.
- Keyword arguments are modelled as a record of optional fields.
  - In `employees-refactored.py`, the dataclass refuses a keyword of the other pay kind, and the model reports that.
  - Keywords that are not fields of any subclass, such as misspellings, are not modelled.
  - The v2 and tempCodeRunnerFile factories ignore unknown keywords, and so does the model.
- `EmployeesRefactored.IoCContainer` stores callables of one result type `V` per container. The Python container maps types to callables of different result types.
  - A registered callable is assumed to be truthy, so the `if not factory` test fails only for missing keys.
  - The global `container` and its registrations in `main` are left out with `main`.
- `EmployeesRefactored.EmployeeFactory.CreateEmployee` does not model the `vacation_days` keyword as anything but an integer.
- Some error branches cannot be reached, so there is nothing to model:
  - The `try`/`except` around the payout in employees.py:30-35.
  - The `if not factory` branch of `get_factory` in employees-refactored-v2.py:249-250, because the enum has only the two members in the table.
  - The `KeyError` of `factories[employee_type]` in tempCodeRunnerFile.py:151, for the same reason.
- Name, role and kind are declared `const`, because no core operation changes them. Python dataclass fields could be reassigned by outside code.
- `get_all_employees` returns a copy of the list. In the model the result is a `seq` value, which has the same effect.
- test_features.py is not part of this model. It imports `employees_refactored_v2`, and it uses names that no file of the program defines, such as `PaymentPolicyManager`, `TransactionLogger`, `FreelancerEmployee`, `FreelancerPayrollCalculator`, `VacationPolicyManager`, `PayrollCalculatorRegistry`, `EnhancedVacationManager`, `EnhancedPayrollService` and `EmployeeInputValidator`. The model follows the four program files.
- A negative `days` in tempCodeRunnerFile.py:86-88 raises the balance. The source guards only `vacation_days < days`. The model keeps this behaviour: see `Leave.BalanceAfter`. Likewise, a negative starting balance passed to a constructor or factory is accepted, as in the dataclasses.
