/**
 * The fourth version of the employee program (tempCodeRunnerFile.py): the
 * same employees, calculators, repository and factories as the third, except
 * that time off takes a caller-given number of days and `get_factory` indexes
 * its table directly.
 */
module TempCodeRunner {
  import opened Results
  import Leave
  import Directory

  datatype EmployeeRole = Intern | Manager | VicePresident

  datatype EmployeeType = Salaried | Hourly

  /** The exact class of an employee object: the base class or one of its two subclasses. */
  datatype EmployeeKind =
    | BaseEmployee
    | SalariedEmployee(monthlySalary: real := 5000.0)
    | HourlyEmployee(hourlyRate: real := 50.0, hoursWorked: int := 10)

  /** The ValueError of `reduce_vacation_days`. */
  datatype VacationError = InsufficientVacationDays(available: int)

  class Employee {
    const name: string
    const role: EmployeeRole
    const kind: EmployeeKind
    var vacationDays: int

    constructor (name: string, role: EmployeeRole, kind: EmployeeKind := BaseEmployee,
                 vacationDays: int := Leave.DEFAULT_VACATION_DAYS)
      ensures this.name == name && this.role == role && this.kind == kind
      ensures this.vacationDays == vacationDays
    {
      this.name := name;
      this.role := role;
      this.kind := kind;
      this.vacationDays := vacationDays;
    }

    /**
     * Refuses a request larger than the balance; otherwise subtracts exactly
     * `days`. Nothing rejects a negative `days`, which then raises the balance.
     */
    method ReduceVacationDays(days: int) returns (r: Outcome<VacationError>)
      modifies this
      ensures r.Pass? <==> days <= old(vacationDays)
      ensures r.Pass? ==> vacationDays == old(vacationDays) - days
      ensures r.Fail? ==> vacationDays == old(vacationDays) && r.error == InsufficientVacationDays(old(vacationDays))
      ensures vacationDays == Leave.BalanceAfter(old(vacationDays), days)
    {
      if vacationDays < days {
        return Fail(InsufficientVacationDays(vacationDays));
      }
      vacationDays := vacationDays - days;
      r := Pass;
    }
  }

  function RoleOf(e: Employee): EmployeeRole {
    e.role
  }

  // -------------------------------------------------------------- calculators

  /** The ValueErrors a calculator raises for an employee of another kind. */
  datatype PayrollError = MustBeSalaried | MustBeHourly

  datatype PayrollCalculator = SalariedPayrollCalculator | HourlyPayrollCalculator {

    /**
     * The salaried calculator pays the monthly salary, the hourly one the rate
     * times the hours worked; each refuses every employee not of its own kind.
     */
    function CalculatePay(employee: Employee): (r: Result<real, PayrollError>)
      ensures this == SalariedPayrollCalculator ==>
        && (r.Ok? <==> employee.kind.SalariedEmployee?)
        && (r.Ok? ==> r.value == employee.kind.monthlySalary)
        && (r.Err? ==> r.error == MustBeSalaried)
      ensures this == HourlyPayrollCalculator ==>
        && (r.Ok? <==> employee.kind.HourlyEmployee?)
        && (r.Ok? ==> r.value == employee.kind.hourlyRate * (employee.kind.hoursWorked as real))
        && (r.Err? ==> r.error == MustBeHourly)
    {
      match this
      case SalariedPayrollCalculator =>
        if employee.kind.SalariedEmployee? then Ok(employee.kind.monthlySalary) else Err(MustBeSalaried)
      case HourlyPayrollCalculator =>
        if employee.kind.HourlyEmployee? then Ok(employee.kind.hourlyRate * (employee.kind.hoursWorked as real))
        else Err(MustBeHourly)
    }
  }

  // ----------------------------------------------------------------- vacation

  datatype VacationManager = StandardVacationManager {

    /**
     * A payout reduces the balance by the fixed payout days whatever `days`
     * says; time off reduces it by `days`.
     */
    method TakeVacation(employee: Employee, payout: bool, days: int) returns (r: Outcome<VacationError>)
      modifies employee
      ensures var cost := if payout then Leave.FIXED_VACATION_DAYS_PAYOUT else days;
        && (r.Pass? <==> cost <= old(employee.vacationDays))
        && (r.Pass? ==> employee.vacationDays == old(employee.vacationDays) - cost)
        && (r.Fail? ==> employee.vacationDays == old(employee.vacationDays))
        && employee.vacationDays == Leave.BalanceAfter(old(employee.vacationDays), cost)
      ensures r.Fail? ==> r.error == InsufficientVacationDays(old(employee.vacationDays))
    {
      if payout {
        r := employee.ReduceVacationDays(Leave.FIXED_VACATION_DAYS_PAYOUT);
      } else {
        r := employee.ReduceVacationDays(days);
      }
    }
  }

  // --------------------------------------------------------------- repository

  class InMemoryEmployeeRepository {
    var employees: seq<Employee>

    constructor ()
      ensures employees == []
    {
      employees := [];
    }

    method AddEmployee(employee: Employee)
      modifies this
      ensures employees == old(employees) + [employee]
      ensures forall role ::
        FindByRole(role) == old(FindByRole(role)) + (if employee.role == role then [employee] else [])
    {
      employees := employees + [employee];
      forall role ensures FindByRole(role) ==
        old(FindByRole(role)) + (if employee.role == role then [employee] else [])
      {
        Directory.WithRoleAppend(old(employees), employee, RoleOf, role);
      }
    }

    /** A copy of the stored list: every employee, in the order added. */
    function GetAllEmployees(): (all: seq<Employee>)
      reads this
      ensures |all| == |employees|
      ensures forall i :: 0 <= i < |all| ==> all[i] == employees[i]
    {
      employees
    }

    function FindByRole(role: EmployeeRole): (found: seq<Employee>)
      reads this
      ensures found == Directory.WithRole(employees, RoleOf, role)
      ensures forall k :: 0 <= k < |found| ==> found[k] in employees && found[k].role == role
      ensures forall i :: 0 <= i < |employees| && employees[i].role == role ==> employees[i] in found
    {
      Directory.WithRole(employees, RoleOf, role)
    }
  }

  // ---------------------------------------------------------------- factories

  /** The keyword arguments a factory reads; `None` means "not given". */
  datatype Kwargs = Kwargs(
    monthlySalary: Option<real> := None,
    hourlyRate: Option<real> := None,
    hoursWorked: Option<int> := None)

  datatype EmployeeFactory = SalariedEmployeeFactory | HourlyEmployeeFactory {

    /** The kind of employee this factory builds: its own kind, each field not given at its default. */
    function KindFor(kwargs: Kwargs): (k: EmployeeKind)
      ensures this == SalariedEmployeeFactory ==>
        k.SalariedEmployee? && k.monthlySalary == kwargs.monthlySalary.GetOr(5000.0)
      ensures this == HourlyEmployeeFactory ==>
        && k.HourlyEmployee?
        && k.hourlyRate == kwargs.hourlyRate.GetOr(50.0)
        && k.hoursWorked == kwargs.hoursWorked.GetOr(10)
    {
      match this
      case SalariedEmployeeFactory =>
        SalariedEmployee(monthlySalary := kwargs.monthlySalary.GetOr(5000.0))
      case HourlyEmployeeFactory =>
        HourlyEmployee(hourlyRate := kwargs.hourlyRate.GetOr(50.0), hoursWorked := kwargs.hoursWorked.GetOr(10))
    }

    /** A new employee with the default balance; keywords other than the kind's fields are ignored. */
    method CreateEmployee(name: string, role: EmployeeRole, kwargs: Kwargs) returns (employee: Employee)
      ensures fresh(employee)
      ensures employee.name == name && employee.role == role && employee.kind == KindFor(kwargs)
      ensures employee.vacationDays == Leave.DEFAULT_VACATION_DAYS
    {
      employee := new Employee(name, role, KindFor(kwargs));
    }

    function GetPayrollCalculator(): (c: PayrollCalculator)
      ensures (c == SalariedPayrollCalculator) <==> (this == SalariedEmployeeFactory)
    {
      match this
      case SalariedEmployeeFactory => SalariedPayrollCalculator
      case HourlyEmployeeFactory => HourlyPayrollCalculator
    }
  }

  /** Given no keyword arguments, the factories build the default salary, rate and hours. */
  lemma FactoryDefaults()
    ensures SalariedEmployeeFactory.KindFor(Kwargs()) == SalariedEmployee(5000.0)
    ensures HourlyEmployeeFactory.KindFor(Kwargs()) == HourlyEmployee(50.0, 10)
  {
  }

  const FACTORIES: map<EmployeeType, EmployeeFactory> :=
    map[Salaried := SalariedEmployeeFactory, Hourly := HourlyEmployeeFactory]

  /** `EmployeeFactoryProvider.get_factory`: indexes a table that has every member of the enumeration. */
  function GetFactory(employeeType: EmployeeType): (f: EmployeeFactory)
    ensures (f == SalariedEmployeeFactory) <==> (employeeType == Salaried)
  {
    assert employeeType.Salaried? || employeeType.Hourly?;
    FACTORIES[employeeType]
  }

  /**
   * The factory for a type, its calculator and the employees it builds fit
   * together: that calculator accepts every such employee and pays what it was built with.
   */
  lemma FactoryCalculatorAccepts(employeeType: EmployeeType, kwargs: Kwargs, employee: Employee)
    requires employee.kind == GetFactory(employeeType).KindFor(kwargs)
    ensures var pay := GetFactory(employeeType).GetPayrollCalculator().CalculatePay(employee);
      && pay.Ok?
      && (employeeType == Salaried ==> pay.value == kwargs.monthlySalary.GetOr(5000.0))
      && (employeeType == Hourly ==>
            pay.value == kwargs.hourlyRate.GetOr(50.0) * (kwargs.hoursWorked.GetOr(10) as real))
  {
  }
}
