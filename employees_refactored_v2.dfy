/**
 * The third version of the employee program (employees-refactored-v2.py):
 * roles and employee types become enumerations, the vacation balance is
 * reduced by one check-then-apply method on the employee, pay is computed by
 * calculators chosen by the employee's exact class, and employees live in an
 * in-memory repository.
 */
module EmployeesRefactoredV2 {
  import opened Results
  import Leave
  import Directory

  datatype EmployeeRole = Intern | Manager | VicePresident

  datatype EmployeeType = Salaried | Hourly

  /** The exact class of an employee object: the base class or one of its two subclasses. */
  datatype EmployeeKind =
    | BaseEmployee
    | SalariedEmployee(monthlySalary: real := 5000.0)
    | HourlyEmployee(hourlyRate: real := 50.0, hoursWorked: int := 10)

  /** `type(employee)`, the key of the payroll service's calculator table. */
  datatype EmployeeClass = BaseEmployeeClass | SalariedEmployeeClass | HourlyEmployeeClass

  /** The ValueError of `reduce_vacation_days`. */
  datatype VacationError = InsufficientVacationDays(available: int)

  class Employee {
    const name: string
    const role: EmployeeRole
    const kind: EmployeeKind
    var vacationDays: int

    constructor (name: string, role: EmployeeRole, kind: EmployeeKind := BaseEmployee,
                 vacationDays: int := Leave.DEFAULT_VACATION_DAYS)
      ensures this.name == name && this.role == role && this.kind == kind
      ensures this.vacationDays == vacationDays
    {
      this.name := name;
      this.role := role;
      this.kind := kind;
      this.vacationDays := vacationDays;
    }

    function Class(): (c: EmployeeClass)
      ensures c == BaseEmployeeClass <==> kind.BaseEmployee?
      ensures c == SalariedEmployeeClass <==> kind.SalariedEmployee?
      ensures c == HourlyEmployeeClass <==> kind.HourlyEmployee?
    {
      match kind
      case BaseEmployee => BaseEmployeeClass
      case SalariedEmployee(_) => SalariedEmployeeClass
      case HourlyEmployee(_, _) => HourlyEmployeeClass
    }

    /** Refuses a request larger than the balance; otherwise subtracts exactly `days`. */
    method ReduceVacationDays(days: int) returns (r: Outcome<VacationError>)
      modifies this
      ensures r.Pass? <==> days <= old(vacationDays)
      ensures r.Pass? ==> vacationDays == old(vacationDays) - days
      ensures r.Fail? ==> vacationDays == old(vacationDays) && r.error == InsufficientVacationDays(old(vacationDays))
      ensures vacationDays == Leave.BalanceAfter(old(vacationDays), days)
    {
      if vacationDays < days {
        return Fail(InsufficientVacationDays(vacationDays));
      }
      vacationDays := vacationDays - days;
      r := Pass;
    }
  }

  function RoleOf(e: Employee): EmployeeRole {
    e.role
  }

  // -------------------------------------------------------------- calculators

  /** The ValueErrors a calculator raises for an employee of another kind. */
  datatype PayrollError = MustBeSalaried | MustBeHourly

  datatype PayrollCalculator = SalariedPayrollCalculator | HourlyPayrollCalculator {

    /**
     * The salaried calculator pays the monthly salary, the hourly one the rate
     * times the hours worked; each refuses every employee not of its own kind.
     */
    function CalculatePay(employee: Employee): (r: Result<real, PayrollError>)
      ensures this == SalariedPayrollCalculator ==>
        && (r.Ok? <==> employee.kind.SalariedEmployee?)
        && (r.Ok? ==> r.value == employee.kind.monthlySalary)
        && (r.Err? ==> r.error == MustBeSalaried)
      ensures this == HourlyPayrollCalculator ==>
        && (r.Ok? <==> employee.kind.HourlyEmployee?)
        && (r.Ok? ==> r.value == employee.kind.hourlyRate * (employee.kind.hoursWorked as real))
        && (r.Err? ==> r.error == MustBeHourly)
    {
      match this
      case SalariedPayrollCalculator =>
        if employee.kind.SalariedEmployee? then Ok(employee.kind.monthlySalary) else Err(MustBeSalaried)
      case HourlyPayrollCalculator =>
        if employee.kind.HourlyEmployee? then Ok(employee.kind.hourlyRate * (employee.kind.hoursWorked as real))
        else Err(MustBeHourly)
    }
  }

  /** No employee is accepted by both calculators, and a plain employee by neither. */
  lemma CalculatorsExclusive(employee: Employee)
    ensures !(SalariedPayrollCalculator.CalculatePay(employee).Ok? && HourlyPayrollCalculator.CalculatePay(employee).Ok?)
    ensures employee.kind.BaseEmployee? ==>
      !SalariedPayrollCalculator.CalculatePay(employee).Ok? && !HourlyPayrollCalculator.CalculatePay(employee).Ok?
  {
  }

  // ----------------------------------------------------------------- vacation

  datatype VacationManager = StandardVacationManager {

    /** A payout reduces the balance by the fixed payout days, time off by one day. */
    method TakeVacation(employee: Employee, payout: bool) returns (r: Outcome<VacationError>)
      modifies employee
      ensures var cost := if payout then Leave.FIXED_VACATION_DAYS_PAYOUT else 1;
        && (r.Pass? <==> cost <= old(employee.vacationDays))
        && (r.Pass? ==> employee.vacationDays == old(employee.vacationDays) - cost)
        && (r.Fail? ==> employee.vacationDays == old(employee.vacationDays))
        && employee.vacationDays == Leave.BalanceAfter(old(employee.vacationDays), cost)
      ensures r.Fail? ==> r.error == InsufficientVacationDays(old(employee.vacationDays))
    {
      if payout {
        r := employee.ReduceVacationDays(Leave.FIXED_VACATION_DAYS_PAYOUT);
      } else {
        r := employee.ReduceVacationDays(1);
      }
    }
  }

  // --------------------------------------------------------------- repository

  class InMemoryEmployeeRepository {
    var employees: seq<Employee>

    constructor ()
      ensures employees == []
    {
      employees := [];
    }

    method AddEmployee(employee: Employee)
      modifies this
      ensures employees == old(employees) + [employee]
      ensures forall role ::
        FindByRole(role) == old(FindByRole(role)) + (if employee.role == role then [employee] else [])
    {
      employees := employees + [employee];
      forall role ensures FindByRole(role) ==
        old(FindByRole(role)) + (if employee.role == role then [employee] else [])
      {
        Directory.WithRoleAppend(old(employees), employee, RoleOf, role);
      }
    }

    /** A copy of the stored list: every employee, in the order added. */
    function GetAllEmployees(): (all: seq<Employee>)
      reads this
      ensures |all| == |employees|
      ensures forall i :: 0 <= i < |all| ==> all[i] == employees[i]
    {
      employees
    }

    function FindByRole(role: EmployeeRole): (found: seq<Employee>)
      reads this
      ensures found == Directory.WithRole(employees, RoleOf, role)
      ensures forall k :: 0 <= k < |found| ==> found[k] in employees && found[k].role == role
      ensures forall i :: 0 <= i < |employees| && employees[i].role == role ==> employees[i] in found
    {
      Directory.WithRole(employees, RoleOf, role)
    }
  }

  // ---------------------------------------------------------------- factories

  /** The keyword arguments a factory reads; `None` means "not given". */
  datatype Kwargs = Kwargs(
    monthlySalary: Option<real> := None,
    hourlyRate: Option<real> := None,
    hoursWorked: Option<int> := None)

  datatype EmployeeFactory = SalariedEmployeeFactory | HourlyEmployeeFactory {

    /** The kind of employee this factory builds: its own kind, each field not given at its default. */
    function KindFor(kwargs: Kwargs): (k: EmployeeKind)
      ensures this == SalariedEmployeeFactory ==>
        k.SalariedEmployee? && k.monthlySalary == kwargs.monthlySalary.GetOr(5000.0)
      ensures this == HourlyEmployeeFactory ==>
        && k.HourlyEmployee?
        && k.hourlyRate == kwargs.hourlyRate.GetOr(50.0)
        && k.hoursWorked == kwargs.hoursWorked.GetOr(10)
    {
      match this
      case SalariedEmployeeFactory =>
        SalariedEmployee(monthlySalary := kwargs.monthlySalary.GetOr(5000.0))
      case HourlyEmployeeFactory =>
        HourlyEmployee(hourlyRate := kwargs.hourlyRate.GetOr(50.0), hoursWorked := kwargs.hoursWorked.GetOr(10))
    }

    /** A new employee with the default balance; keywords other than the kind's fields are ignored. */
    method CreateEmployee(name: string, role: EmployeeRole, kwargs: Kwargs) returns (employee: Employee)
      ensures fresh(employee)
      ensures employee.name == name && employee.role == role && employee.kind == KindFor(kwargs)
      ensures employee.vacationDays == Leave.DEFAULT_VACATION_DAYS
    {
      employee := new Employee(name, role, KindFor(kwargs));
    }

    function GetPayrollCalculator(): (c: PayrollCalculator)
      ensures (c == SalariedPayrollCalculator) <==> (this == SalariedEmployeeFactory)
    {
      match this
      case SalariedEmployeeFactory => SalariedPayrollCalculator
      case HourlyEmployeeFactory => HourlyPayrollCalculator
    }
  }

  /** Given no keyword arguments, the factories build the default salary, rate and hours. */
  lemma FactoryDefaults()
    ensures SalariedEmployeeFactory.KindFor(Kwargs()) == SalariedEmployee(5000.0)
    ensures HourlyEmployeeFactory.KindFor(Kwargs()) == HourlyEmployee(50.0, 10)
  {
  }

  /** `EmployeeFactoryProvider.get_factory`: the factory for each member of the enumeration. */
  function GetFactory(employeeType: EmployeeType): (f: EmployeeFactory)
    ensures (f == SalariedEmployeeFactory) <==> (employeeType == Salaried)
  {
    match employeeType
    case Salaried => SalariedEmployeeFactory
    case Hourly => HourlyEmployeeFactory
  }

  /**
   * A factory's calculator accepts every employee that factory builds, and
   * pays the salary or rate times hours it was built with.
   */
  lemma FactoryCalculatorAccepts(factory: EmployeeFactory, kwargs: Kwargs, employee: Employee)
    requires employee.kind == factory.KindFor(kwargs)
    ensures factory.GetPayrollCalculator().CalculatePay(employee).Ok?
    ensures factory == SalariedEmployeeFactory ==>
      factory.GetPayrollCalculator().CalculatePay(employee).value == kwargs.monthlySalary.GetOr(5000.0)
    ensures factory == HourlyEmployeeFactory ==>
      factory.GetPayrollCalculator().CalculatePay(employee).value ==
        kwargs.hourlyRate.GetOr(50.0) * (kwargs.hoursWorked.GetOr(10) as real)
  {
  }

  // ------------------------------------------------------------------ payroll

  /** What paying one employee reports. */
  datatype Payment =
    | Paid(name: string, amount: real)
    | NoPayrollCalculator(name: string)
    | CalculatorRejected(error: PayrollError)

  class PayrollService {
    const repository: InMemoryEmployeeRepository
    const calculators: map<EmployeeClass, PayrollCalculator> :=
      map[SalariedEmployeeClass := SalariedPayrollCalculator, HourlyEmployeeClass := HourlyPayrollCalculator]

    constructor (repository: InMemoryEmployeeRepository)
      ensures this.repository == repository
    {
      this.repository := repository;
    }

    /**
     * `_pay_employee`: the calculator is looked up by exact class; a base
     * employee has none, and a calculator found this way never refuses.
     */
    function PayEmployee(employee: Employee): (p: Payment)
      ensures p.NoPayrollCalculator? <==> employee.kind.BaseEmployee?
      ensures p.NoPayrollCalculator? ==> p.name == employee.name
      ensures !p.CalculatorRejected?
      ensures employee.kind.SalariedEmployee? ==> p == Paid(employee.name, employee.kind.monthlySalary)
      ensures employee.kind.HourlyEmployee? ==>
        p.Paid? && p.amount == employee.kind.hourlyRate * (employee.kind.hoursWorked as real)
    {
      if employee.Class() in calculators then
        match calculators[employee.Class()].CalculatePay(employee)
        case Ok(amount) => Paid(employee.name, amount)
        case Err(e) => CalculatorRejected(e)
      else
        NoPayrollCalculator(employee.name)
    }

    /** Pays every employee of the repository, in repository order. */
    method PayAllEmployees() returns (payments: seq<Payment>)
      ensures |payments| == |repository.employees|
      ensures forall i :: 0 <= i < |payments| ==> payments[i] == PayEmployee(repository.employees[i])
      ensures forall i :: 0 <= i < |payments| ==> !payments[i].CalculatorRejected?
    {
      var employees := repository.GetAllEmployees();
      payments := [];
      for i := 0 to |employees|
        invariant |payments| == i
        invariant forall j :: 0 <= j < i ==> payments[j] == PayEmployee(employees[j])
      {
        payments := payments + [PayEmployee(employees[i])];
      }
    }
  }

  class EmployeeService {
    const repository: InMemoryEmployeeRepository
    const vacationManager: VacationManager

    constructor (repository: InMemoryEmployeeRepository, vacationManager: VacationManager)
      ensures this.repository == repository && this.vacationManager == vacationManager
    {
      this.repository := repository;
      this.vacationManager := vacationManager;
    }

    /** Builds the employee with the factory for its type and appends it to the repository. */
    method CreateEmployee(employeeType: EmployeeType, name: string, role: EmployeeRole, kwargs: Kwargs)
      returns (employee: Employee)
      modifies repository
      ensures fresh(employee)
      ensures employee.name == name && employee.role == role
      ensures employee.kind == GetFactory(employeeType).KindFor(kwargs)
      ensures employee.vacationDays == Leave.DEFAULT_VACATION_DAYS
      ensures repository.employees == old(repository.employees) + [employee]
    {
      var factory := GetFactory(employeeType);
      employee := factory.CreateEmployee(name, role, kwargs);
      repository.AddEmployee(employee);
    }

    method GrantVacation(employee: Employee, payout: bool) returns (r: Outcome<VacationError>)
      modifies employee
      ensures var cost := if payout then Leave.FIXED_VACATION_DAYS_PAYOUT else 1;
        && (r.Pass? <==> cost <= old(employee.vacationDays))
        && employee.vacationDays == Leave.BalanceAfter(old(employee.vacationDays), cost)
      ensures r.Fail? ==> r.error == InsufficientVacationDays(old(employee.vacationDays))
    {
      r := vacationManager.TakeVacation(employee, payout);
    }
  }
}
