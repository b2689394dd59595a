/**
 * The second version of the employee program (employees-refactored.py): an
 * abstract employee with two concrete kinds that compute their own pay,
 * strategies for paying and for vacations, factories chosen by a type name,
 * a small dependency-injection container, and a company that keeps its
 * employees in a list with bounds-checked access by index.
 */
module EmployeesRefactored {
  import opened Results
  import Leave
  import Directory

  /** The two concrete employee classes with their dataclass defaults (the base class is abstract). */
  datatype EmployeeKind =
    | SalariedEmployee(monthlySalary: real := 5000.0)
    | HourlyEmployee(hourlyRate: real := 50.0, hoursWorked: int := 10)

  /** `type(employee)`, the key of the payment-strategy table. */
  datatype EmployeeClass = SalariedEmployeeClass | HourlyEmployeeClass

  class Employee {
    const name: string
    const role: string
    const kind: EmployeeKind
    var vacationDays: int

    constructor (name: string, role: string, kind: EmployeeKind,
                 vacationDays: int := Leave.DEFAULT_VACATION_DAYS)
      ensures this.name == name && this.role == role && this.kind == kind
      ensures this.vacationDays == vacationDays
    {
      this.name := name;
      this.role := role;
      this.kind := kind;
      this.vacationDays := vacationDays;
    }

    /** A salaried employee earns the monthly salary, an hourly one the rate times the hours worked. */
    function CalculatePay(): (pay: real)
      ensures kind.SalariedEmployee? ==> pay == kind.monthlySalary
      ensures kind.HourlyEmployee? ==> pay == kind.hourlyRate * (kind.hoursWorked as real)
    {
      match kind
      case SalariedEmployee(salary) => salary
      case HourlyEmployee(rate, hours) => rate * (hours as real)
    }

    function Class(): (c: EmployeeClass)
      ensures c == SalariedEmployeeClass <==> kind.SalariedEmployee?
    {
      if kind.SalariedEmployee? then SalariedEmployeeClass else HourlyEmployeeClass
    }
  }

  function RoleOf(e: Employee): string {
    e.role
  }

  // ---------------------------------------------------------------- vacations

  /** The two ValueErrors the default vacation strategy raises. */
  datatype VacationError = NotEnoughForPayout(remaining: int) | NoHolidaysLeft

  /** The one vacation strategy the program defines. */
  datatype VacationStrategy = DefaultVacationStrategy {

    /**
     * A payout costs the fixed number of days and time off costs one day;
     * a request the balance does not cover is refused and changes nothing.
     */
    method HandleVacation(employee: Employee, payout: bool) returns (r: Outcome<VacationError>)
      modifies employee
      ensures var cost := if payout then Leave.FIXED_VACATION_DAYS_PAYOUT else 1;
        && (r.Pass? <==> old(employee.vacationDays) >= cost)
        && (r.Pass? ==> employee.vacationDays == old(employee.vacationDays) - cost)
        && (r.Fail? ==> employee.vacationDays == old(employee.vacationDays))
        && employee.vacationDays == Leave.BalanceAfter(old(employee.vacationDays), cost)
      ensures r.Fail? ==>
        r.error == (if payout then NotEnoughForPayout(old(employee.vacationDays)) else NoHolidaysLeft)
    {
      if payout {
        if employee.vacationDays < Leave.FIXED_VACATION_DAYS_PAYOUT {
          return Fail(NotEnoughForPayout(employee.vacationDays));
        }
        employee.vacationDays := employee.vacationDays - Leave.FIXED_VACATION_DAYS_PAYOUT;
      } else {
        if employee.vacationDays < 1 {
          return Fail(NoHolidaysLeft);
        }
        employee.vacationDays := employee.vacationDays - 1;
      }
      r := Pass;
    }
  }

  // ----------------------------------------------------------------- payments

  datatype PaymentStrategy = SalariedPaymentStrategy | HourlyPaymentStrategy

  /** What paying one employee reports: who, through which strategy, and how much. */
  datatype Payment =
    | Paid(name: string, strategy: PaymentStrategy, amount: real)
    | NoPaymentStrategy(name: string, employeeClass: EmployeeClass)

  /** The table the program builds in `main`: each class mapped to its own strategy. */
  const STANDARD_PAYMENT_STRATEGIES: map<EmployeeClass, PaymentStrategy> :=
    map[SalariedEmployeeClass := SalariedPaymentStrategy, HourlyEmployeeClass := HourlyPaymentStrategy]

  /**
   * Paying one employee: look its exact class up in the table; a strategy
   * pays what the employee's own `CalculatePay` says, a missing one is reported.
   */
  function PaymentFor(employee: Employee, strategies: map<EmployeeClass, PaymentStrategy>): (p: Payment)
    ensures p.name == employee.name
    ensures p.Paid? <==> employee.Class() in strategies
    ensures p.Paid? ==> p.strategy == strategies[employee.Class()] && p.amount == employee.CalculatePay()
    ensures p.NoPaymentStrategy? ==> p.employeeClass == employee.Class()
  {
    if employee.Class() in strategies then
      Paid(employee.name, strategies[employee.Class()], employee.CalculatePay())
    else
      NoPaymentStrategy(employee.name, employee.Class())
  }

  /** With the standard table every employee is paid, through the strategy of its own kind. */
  lemma StandardStrategiesPayEveryone(employee: Employee)
    ensures var p := PaymentFor(employee, STANDARD_PAYMENT_STRATEGIES);
      && p.Paid?
      && (p.strategy == SalariedPaymentStrategy <==> employee.kind.SalariedEmployee?)
      && p.amount == employee.CalculatePay()
  {
  }

  class PayAllEmployeesCommand {
    const company: Company
    const paymentStrategies: map<EmployeeClass, PaymentStrategy>

    constructor (company: Company, paymentStrategies: map<EmployeeClass, PaymentStrategy>)
      ensures this.company == company && this.paymentStrategies == paymentStrategies
    {
      this.company := company;
      this.paymentStrategies := paymentStrategies;
    }

    /** Pays the company's employees one by one, in list order. */
    method Execute() returns (payments: seq<Payment>)
      ensures |payments| == |company.employees|
      ensures forall i :: 0 <= i < |payments| ==>
        payments[i] == PaymentFor(company.employees[i], paymentStrategies)
    {
      payments := [];
      var employees := company.employees;
      for i := 0 to |employees|
        invariant |payments| == i
        invariant forall j :: 0 <= j < i ==> payments[j] == PaymentFor(employees[j], paymentStrategies)
      {
        payments := payments + [PaymentFor(employees[i], paymentStrategies)];
      }
    }
  }

  // ---------------------------------------------------------------- factories

  /** The keyword arguments a factory passes on to the dataclass; `None` means "not given". */
  datatype Kwargs = Kwargs(
    vacationDays: Option<int> := None,
    monthlySalary: Option<real> := None,
    hourlyRate: Option<real> := None,
    hoursWorked: Option<int> := None)

  /** The TypeError a dataclass raises for a keyword that is not one of its fields. */
  datatype CreateError = UnexpectedKeyword(keyword: string)

  datatype EmployeeFactory = SalariedEmployeeFactory | HourlyEmployeeFactory {

    /**
     * The kind and the balance of the employee this factory builds from the
     * keyword arguments: each field not given takes its dataclass default, and
     * a field of the other kind is refused.
     */
    function Fields(kwargs: Kwargs): (r: Result<(EmployeeKind, int), CreateError>)
      ensures r.Ok? ==> r.value.1 == kwargs.vacationDays.GetOr(Leave.DEFAULT_VACATION_DAYS)
      ensures this == SalariedEmployeeFactory ==>
        && (r.Ok? <==> kwargs.hourlyRate.None? && kwargs.hoursWorked.None?)
        && (r.Ok? ==> r.value.0 == SalariedEmployee(kwargs.monthlySalary.GetOr(5000.0)))
      ensures this == HourlyEmployeeFactory ==>
        && (r.Ok? <==> kwargs.monthlySalary.None?)
        && (r.Ok? ==> r.value.0 == HourlyEmployee(kwargs.hourlyRate.GetOr(50.0), kwargs.hoursWorked.GetOr(10)))
      ensures this == SalariedEmployeeFactory && r.Err? ==>
        || (r.error == UnexpectedKeyword("hourly_rate") && kwargs.hourlyRate.Some?)
        || (r.error == UnexpectedKeyword("hours_worked") && kwargs.hoursWorked.Some?)
      ensures this == HourlyEmployeeFactory && r.Err? ==> r.error == UnexpectedKeyword("monthly_salary")
    {
      var days := kwargs.vacationDays.GetOr(Leave.DEFAULT_VACATION_DAYS);
      match this
      case SalariedEmployeeFactory =>
        if kwargs.hourlyRate.Some? then Err(UnexpectedKeyword("hourly_rate"))
        else if kwargs.hoursWorked.Some? then Err(UnexpectedKeyword("hours_worked"))
        else Ok((SalariedEmployee(monthlySalary := kwargs.monthlySalary.GetOr(5000.0)), days))
      case HourlyEmployeeFactory =>
        if kwargs.monthlySalary.Some? then Err(UnexpectedKeyword("monthly_salary"))
        else Ok((HourlyEmployee(hourlyRate := kwargs.hourlyRate.GetOr(50.0),
                                hoursWorked := kwargs.hoursWorked.GetOr(10)), days))
    }

    method CreateEmployee(name: string, role: string, kwargs: Kwargs) returns (r: Result<Employee, CreateError>)
      ensures r.Ok? <==> Fields(kwargs).Ok?
      ensures r.Ok? ==>
        && fresh(r.value) && r.value.name == name && r.value.role == role
        && (r.value.kind, r.value.vacationDays) == Fields(kwargs).value
      ensures r.Err? ==> r.error == Fields(kwargs).error
    {
      match Fields(kwargs)
      case Ok(fields) =>
        var employee := new Employee(name, role, fields.0, fields.1);
        r := Ok(employee);
      case Err(e) =>
        r := Err(e);
    }
  }

  /** Given no keyword arguments, the factories build the dataclass defaults. */
  lemma FactoryDefaults()
    ensures SalariedEmployeeFactory.Fields(Kwargs()) == Ok((SalariedEmployee(5000.0), 25))
    ensures HourlyEmployeeFactory.Fields(Kwargs()) == Ok((HourlyEmployee(50.0, 10), 25))
  {
  }

  /** The ValueError `get_factory` raises for a type name it does not know. */
  datatype FactoryError = NoFactoryFound(employeeType: string)

  const FACTORIES: map<string, EmployeeFactory> :=
    map["salaried" := SalariedEmployeeFactory, "hourly" := HourlyEmployeeFactory]

  /** `EmployeeFactoryProvider.get_factory`: only the names "salaried" and "hourly" are known. */
  function GetFactory(employeeType: string): (r: Result<EmployeeFactory, FactoryError>)
    ensures r.Ok? <==> employeeType == "salaried" || employeeType == "hourly"
    ensures employeeType == "salaried" ==> r == Ok(SalariedEmployeeFactory)
    ensures employeeType == "hourly" ==> r == Ok(HourlyEmployeeFactory)
    ensures r.Err? ==> r.error == NoFactoryFound(employeeType)
  {
    if employeeType in FACTORIES then Ok(FACTORIES[employeeType]) else Err(NoFactoryFound(employeeType))
  }

  // ------------------------------------------------------ dependency injection

  /** The ValueError `resolve` raises for an interface nobody registered. */
  datatype ResolveError<K> = NoDependencyRegistered(interface: K)

  /** Maps an interface to the zero-argument callable that builds its implementation. */
  class IoCContainer<K(==,!new), V> {
    var dependencies: map<K, () -> V>

    constructor ()
      ensures dependencies == map[]
    {
      dependencies := map[];
    }

    method Register(interface: K, concreteImpl: () -> V)
      modifies this
      ensures dependencies == old(dependencies)[interface := concreteImpl]
      ensures Resolve(interface) == Ok(concreteImpl())
      ensures forall other :: other != interface ==> Resolve(other) == old(Resolve(other))
    {
      dependencies := dependencies[interface := concreteImpl];
    }

    /** Calls the callable registered for `interface`, or fails when there is none. */
    function Resolve(interface: K): (r: Result<V, ResolveError<K>>)
      reads this
      ensures r.Ok? <==> interface in dependencies
      ensures r.Ok? ==> r.value == dependencies[interface]()
      ensures r.Err? ==> r.error == NoDependencyRegistered(interface)
    {
      if interface in dependencies then Ok(dependencies[interface]())
      else Err(NoDependencyRegistered(interface))
    }
  }

  // ------------------------------------------------------------------ company

  /** The IndexError of `get_employee_by_index`. */
  datatype IndexError = IndexOutOfBounds(index: int)

  class Company {
    var employees: seq<Employee>
    const vacationStrategy: VacationStrategy

    constructor (vacationStrategy: VacationStrategy)
      ensures employees == [] && this.vacationStrategy == vacationStrategy
    {
      employees := [];
      this.vacationStrategy := vacationStrategy;
    }

    method AddEmployee(employee: Employee)
      modifies this
      ensures employees == old(employees) + [employee]
      ensures GetEmployeeByIndex(|old(employees)|) == Ok(employee)
      ensures forall i :: 0 <= i < |old(employees)| ==> GetEmployeeByIndex(i) == old(GetEmployeeByIndex(i))
    {
      employees := employees + [employee];
    }

    function FindEmployeesByRole(role: string): (found: seq<Employee>)
      reads this
      ensures found == Directory.WithRole(employees, RoleOf, role)
      ensures forall k :: 0 <= k < |found| ==> found[k] in employees && found[k].role == role
      ensures forall i :: 0 <= i < |employees| && employees[i].role == role ==> employees[i] in found
    {
      Directory.WithRole(employees, RoleOf, role)
    }

    /** The employee at `index`, or an IndexError unless `0 <= index < |employees|`. */
    function GetEmployeeByIndex(index: int): (r: Result<Employee, IndexError>)
      reads this
      ensures r.Ok? <==> 0 <= index < |employees|
      ensures r.Ok? ==> r.value == employees[index]
      ensures r.Err? ==> r.error == IndexOutOfBounds(index)
    {
      if 0 <= index < |employees| then Ok(employees[index]) else Err(IndexOutOfBounds(index))
    }

    method HandleEmployeeVacation(employee: Employee, payout: bool) returns (r: Outcome<VacationError>)
      modifies employee
      ensures var cost := if payout then Leave.FIXED_VACATION_DAYS_PAYOUT else 1;
        && (r.Pass? <==> old(employee.vacationDays) >= cost)
        && employee.vacationDays == Leave.BalanceAfter(old(employee.vacationDays), cost)
      ensures r.Fail? ==>
        r.error == (if payout then NotEnoughForPayout(old(employee.vacationDays)) else NoHolidaysLeft)
    {
      r := vacationStrategy.HandleVacation(employee, payout);
    }
  }
}
