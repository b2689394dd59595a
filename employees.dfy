/**
 * The first version of the employee program (employees.py): employees whose
 * role is a free-form string, a company that keeps them in a list, holidays
 * taken one day at a time or paid out five days at a time, and the amount each
 * kind of employee is paid.
 */
module Employees {
  import opened Results
  import Leave
  import Directory

  /** The exact class of an employee object: the base class or one of its two subclasses. */
  datatype EmployeeKind =
    | BaseEmployee
    | HourlyEmployee(hourlyRate: real := 50.0, amount: int := 10)
    | SalariedEmployee(monthlySalary: real := 5000.0)

  /** The two ValueErrors `take_a_holiday` raises. */
  datatype HolidayError = NotEnoughForPayout(remaining: int) | NoHolidaysLeft

  class Employee {
    const name: string
    const role: string
    const kind: EmployeeKind
    var vacationDays: int

    constructor (name: string, role: string, kind: EmployeeKind := BaseEmployee,
                 vacationDays: int := Leave.DEFAULT_VACATION_DAYS)
      ensures this.name == name && this.role == role && this.kind == kind
      ensures this.vacationDays == vacationDays
    {
      this.name := name;
      this.role := role;
      this.kind := kind;
      this.vacationDays := vacationDays;
    }

    /**
     * Takes one day off, or pays out the fixed number of days; a request the
     * balance does not cover is refused and leaves the balance as it was.
     */
    method TakeAHoliday(payout: bool) returns (r: Outcome<HolidayError>)
      modifies this
      ensures var cost := if payout then Leave.FIXED_VACATION_DAYS_PAYOUT else 1;
        && (r.Pass? <==> old(vacationDays) >= cost)
        && (r.Pass? ==> vacationDays == old(vacationDays) - cost)
        && (r.Fail? ==> vacationDays == old(vacationDays))
        && vacationDays == Leave.BalanceAfter(old(vacationDays), cost)
      ensures r.Fail? ==>
        r.error == (if payout then NotEnoughForPayout(old(vacationDays)) else NoHolidaysLeft)
    {
      if payout {
        if vacationDays < Leave.FIXED_VACATION_DAYS_PAYOUT {
          return Fail(NotEnoughForPayout(vacationDays));
        }
        vacationDays := vacationDays - Leave.FIXED_VACATION_DAYS_PAYOUT;
      } else {
        if vacationDays < 1 {
          return Fail(NoHolidaysLeft);
        }
        vacationDays := vacationDays - 1;
      }
      r := Pass;
    }
  }

  function RoleOf(e: Employee): string {
    e.role
  }

  class Company {
    var employees: seq<Employee>

    constructor ()
      ensures employees == []
    {
      employees := [];
    }

    method AddEmployee(employee: Employee)
      modifies this
      ensures employees == old(employees) + [employee]
      ensures forall i :: 0 <= i < |old(employees)| ==> employees[i] == old(employees)[i]
    {
      employees := employees + [employee];
    }

    method FindManagers() returns (managers: seq<Employee>)
      ensures managers == Directory.WithRole(employees, RoleOf, "manager")
    {
      managers := CollectRole("manager");
    }

    method FindVicePresidents() returns (vicePresidents: seq<Employee>)
      ensures vicePresidents == Directory.WithRole(employees, RoleOf, "vice_president")
    {
      vicePresidents := CollectRole("vice_president");
    }

    method FindInterns() returns (interns: seq<Employee>)
      ensures interns == Directory.WithRole(employees, RoleOf, "intern")
    {
      interns := CollectRole("intern");
    }

    /** The loop the three `find_*` methods share: append each employee whose role matches. */
    method CollectRole(role: string) returns (found: seq<Employee>)
      ensures found == Directory.WithRole(employees, RoleOf, role)
      ensures forall k :: 0 <= k < |found| ==> found[k] in employees && found[k].role == role
    {
      found := [];
      for i := 0 to |employees|
        invariant found == Directory.WithRole(employees[..i], RoleOf, role)
      {
        assert employees[..i + 1][..i] == employees[..i];
        if employees[i].role == role {
          found := found + [employees[i]];
        }
      }
      assert employees[..|employees|] == employees;
    }

    /**
     * What paying an employee pays: the monthly salary, or the hourly rate
     * times the recorded amount of hours; an employee of neither kind is not paid.
     */
    static function PayEmployee(employee: Employee): (pay: Option<real>)
      ensures pay.None? <==> employee.kind.BaseEmployee?
      ensures employee.kind.SalariedEmployee? ==> pay == Some(employee.kind.monthlySalary)
      ensures employee.kind.HourlyEmployee? ==>
        pay.Some? && pay.value == employee.kind.hourlyRate * (employee.kind.amount as real)
    {
      match employee.kind
      case SalariedEmployee(salary) => Some(salary)
      case HourlyEmployee(rate, hours) => Some(rate * (hours as real))
      case BaseEmployee => None
    }
  }
}
