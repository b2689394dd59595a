/**
 * The four versions of the employee program are successive refactorings of
 * one another. These members prove that, on the behaviour all four share,
 * the refactorings changed nothing: a holiday request is decided the same way
 * and leaves the same balance, and each kind of employee is paid the same.
 */
module Refactorings {
  import opened Results
  import Leave
  import V1 = Employees
  import V2 = EmployeesRefactored
  import V3 = EmployeesRefactoredV2
  import V4 = TempCodeRunner

  /**
   * One holiday request (a payout, or one day off) made in each version
   * against the same starting balance: all four grant it exactly when the
   * balance covers it, and all four leave the same balance behind.
   */
  method HolidayAgreement(balance: int, payout: bool)
    returns (granted1: bool, granted2: bool, granted3: bool, granted4: bool,
             left1: int, left2: int, left3: int, left4: int)
    ensures var cost := if payout then Leave.FIXED_VACATION_DAYS_PAYOUT else 1;
      && granted1 == granted2 == granted3 == granted4 == (cost <= balance)
      && left1 == left2 == left3 == left4 == Leave.BalanceAfter(balance, cost)
  {
    var e1 := new V1.Employee("e", "manager", vacationDays := balance);
    var o1 := e1.TakeAHoliday(payout);
    var e2 := new V2.Employee("e", "manager", V2.SalariedEmployee(), vacationDays := balance);
    var o2 := V2.VacationStrategy.DefaultVacationStrategy.HandleVacation(e2, payout);
    var e3 := new V3.Employee("e", V3.Manager, vacationDays := balance);
    var o3 := V3.VacationManager.StandardVacationManager.TakeVacation(e3, payout);
    var e4 := new V4.Employee("e", V4.Manager, vacationDays := balance);
    var o4 := V4.VacationManager.StandardVacationManager.TakeVacation(e4, payout, 1);
    granted1, granted2, granted3, granted4 := o1.Pass?, o2.Pass?, o3.Pass?, o4.Pass?;
    left1, left2, left3, left4 := e1.vacationDays, e2.vacationDays, e3.vacationDays, e4.vacationDays;
  }

  /**
   * A salaried and an hourly employee built with the same figures in each
   * version: every version pays the salaried one the salary and the hourly
   * one the rate times the hours.
   */
  method PayAgreement(salary: real, rate: real, hours: int)
    returns (salaried: seq<real>, hourly: seq<real>)
    ensures salaried == [salary, salary, salary, salary]
    ensures |hourly| == 4 && forall i :: 0 <= i < 4 ==> hourly[i] == rate * (hours as real)
  {
    var s1 := new V1.Employee("s", "manager", V1.SalariedEmployee(salary));
    var h1 := new V1.Employee("h", "manager", V1.HourlyEmployee(rate, hours));
    var s2 := new V2.Employee("s", "manager", V2.SalariedEmployee(salary));
    var h2 := new V2.Employee("h", "manager", V2.HourlyEmployee(rate, hours));
    var s3 := new V3.Employee("s", V3.Manager, V3.SalariedEmployee(salary));
    var h3 := new V3.Employee("h", V3.Manager, V3.HourlyEmployee(rate, hours));
    var s4 := new V4.Employee("s", V4.Manager, V4.SalariedEmployee(salary));
    var h4 := new V4.Employee("h", V4.Manager, V4.HourlyEmployee(rate, hours));
    salaried := [
      V1.Company.PayEmployee(s1).value,
      s2.CalculatePay(),
      V3.PayrollCalculator.SalariedPayrollCalculator.CalculatePay(s3).value,
      V4.PayrollCalculator.SalariedPayrollCalculator.CalculatePay(s4).value];
    hourly := [
      V1.Company.PayEmployee(h1).value,
      h2.CalculatePay(),
      V3.PayrollCalculator.HourlyPayrollCalculator.CalculatePay(h3).value,
      V4.PayrollCalculator.HourlyPayrollCalculator.CalculatePay(h4).value];
  }

  /**
   * Employees built without the optional dataclass fields, in each version:
   * every balance starts at 25 days, a salaried employee at a salary of
   * 5000.0 and an hourly one at a rate of 50.0 for 10 hours.
   */
  method Defaults() returns (balances: seq<int>, salaries: seq<real>, rates: seq<real>, hours: seq<int>)
    ensures balances == [25, 25, 25, 25]
    ensures salaries == [5000.0, 5000.0, 5000.0, 5000.0]
    ensures rates == [50.0, 50.0, 50.0, 50.0] && hours == [10, 10, 10, 10]
  {
    var s1 := new V1.Employee("s", "intern", V1.SalariedEmployee());
    var h1 := new V1.Employee("h", "intern", V1.HourlyEmployee());
    var s2 := new V2.Employee("s", "intern", V2.SalariedEmployee());
    var h2 := new V2.Employee("h", "intern", V2.HourlyEmployee());
    var s3 := new V3.Employee("s", V3.Intern, V3.SalariedEmployee());
    var h3 := new V3.Employee("h", V3.Intern, V3.HourlyEmployee());
    var s4 := new V4.Employee("s", V4.Intern, V4.SalariedEmployee());
    var h4 := new V4.Employee("h", V4.Intern, V4.HourlyEmployee());
    balances := [s1.vacationDays, s2.vacationDays, s3.vacationDays, s4.vacationDays];
    salaries := [s1.kind.monthlySalary, s2.kind.monthlySalary, s3.kind.monthlySalary, s4.kind.monthlySalary];
    rates := [h1.kind.hourlyRate, h2.kind.hourlyRate, h3.kind.hourlyRate, h4.kind.hourlyRate];
    hours := [h1.kind.amount, h2.kind.hoursWorked, h3.kind.hoursWorked, h4.kind.hoursWorked];
  }
}
