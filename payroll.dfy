/** The payroll service: the flat tax and deduction rates
    (payroll-service/app/utils.py), and the `employees` and
    `payroll_records` tables with employee creation, lookups and the monthly
    payroll computation (payroll-service/app/crud.py). */
module Payroll {
  import opened Common

  /** The flat tax rate of `calculate_taxes`. */
  const TaxRate: real := 0.20

  /** The flat benefits rate of `calculate_deductions`. */
  const DeductionRate: real := 0.05

  /** `calculate_taxes`: 20% of gross pay. */
  function CalculateTaxes(grossPay: real): (taxes: real)
    ensures grossPay == 0.0 ==> taxes == 0.0
    ensures grossPay >= 0.0 ==> 0.0 <= taxes <= grossPay
    ensures grossPay < 0.0 ==> grossPay < taxes < 0.0
  {
    grossPay * TaxRate
  }

  /** `calculate_deductions`: 5% of gross pay. */
  function CalculateDeductions(grossPay: real): (deductions: real)
    ensures grossPay == 0.0 ==> deductions == 0.0
    ensures grossPay >= 0.0 ==> 0.0 <= deductions <= grossPay
    ensures grossPay < 0.0 ==> grossPay < deductions < 0.0
  {
    grossPay * DeductionRate
  }

  /** Taxes are always four times the deductions, and together they take a
      quarter of gross pay. */
  lemma TaxesAndDeductions(grossPay: real)
    ensures CalculateTaxes(grossPay) == 4.0 * CalculateDeductions(grossPay)
    ensures CalculateTaxes(grossPay) + CalculateDeductions(grossPay) == grossPay / 4.0
  {
  }

  /** A row of `employees`. */
  datatype Employee = Employee(id: int, fullName: string, email: string, position: string, salary: real, dateHired: Date)

  /** `EmployeeCreate`. */
  datatype EmployeeCreate = EmployeeCreate(fullName: string, email: string, position: string, salary: real, dateHired: Date)

  /** A row of `payroll_records`. */
  datatype PayrollRecord = PayrollRecord(id: int, employeeId: int, payDate: Date, grossPay: real, netPay: real,
                                         deductions: real, taxes: real)

  /** `PayrollCreate`. */
  datatype PayrollCreate = PayrollCreate(employeeId: int, payDate: Date)

  /** The four amounts of one monthly payroll run. */
  datatype Pay = Pay(grossPay: real, taxes: real, deductions: real, netPay: real)

  /** The arithmetic of `create_payroll_record`: a twelfth of the annual
      salary, less taxes and deductions. */
  function MonthlyPay(salary: real): (p: Pay)
    ensures p.grossPay * 12.0 == salary
    ensures p.taxes == CalculateTaxes(p.grossPay) && p.deductions == CalculateDeductions(p.grossPay)
    ensures p.grossPay == p.netPay + p.taxes + p.deductions
    ensures p.netPay == 0.75 * p.grossPay
    ensures salary >= 0.0 ==> 0.0 <= p.netPay <= p.grossPay
  {
    var grossPay := salary / 12.0;
    var taxes := CalculateTaxes(grossPay);
    var deductions := CalculateDeductions(grossPay);
    Pay(grossPay, taxes, deductions, grossPay - taxes - deductions)
  }

  /** An annual salary of 60000 pays 5000 gross a month: 1000 in taxes, 250
      in deductions and 3750 net. */
  lemma MonthlyPayOf60000()
    ensures MonthlyPay(60000.0) == Pay(5000.0, 1000.0, 250.0, 3750.0)
  {
  }

  /** The two tables and their SERIAL counters. */
  class PayrollStore {
    var employees: map<int, Employee>
    var records: map<int, PayrollRecord>
    var nextEmployeeId: int
    var nextRecordId: int

    ghost predicate Valid()
      reads this
    {
      && nextEmployeeId > 0 && nextRecordId > 0
      && (forall id :: id in employees ==> employees[id].id == id && 0 < id < nextEmployeeId)
      && (forall id :: id in records ==> records[id].id == id && 0 < id < nextRecordId)
      // `email` is UNIQUE
      && (forall i, j :: i in employees && j in employees && employees[i].email == employees[j].email ==> i == j)
      // `employee_id` REFERENCES employees(id)
      && (forall id :: id in records ==> records[id].employeeId in employees)
    }

    constructor ()
      ensures Valid() && employees == map[] && records == map[] && nextEmployeeId == 1 && nextRecordId == 1
    {
      employees, records := map[], map[];
      nextEmployeeId, nextRecordId := 1, 1;
    }

    /** `get_employee`: the row with that id, if any. */
    function GetEmployee(employeeId: int): (r: Option<Employee>)
      reads this
      ensures r.None? <==> employeeId !in employees
      ensures r.Some? ==> r.value == employees[employeeId]
    {
      if employeeId in employees then Some(employees[employeeId]) else None
    }

    /** `get_payroll_record`: the row with that id, if any. */
    function GetPayrollRecord(payrollId: int): (r: Option<PayrollRecord>)
      reads this
      ensures r.None? <==> payrollId !in records
      ensures r.Some? ==> r.value == records[payrollId]
    {
      if payrollId in records then Some(records[payrollId]) else None
    }

    /** Some employee has this email. */
    predicate EmailTaken(email: string)
      reads this
    {
      exists id :: id in employees && employees[id].email == email
    }

    /** `create_employee`: stores the given fields under a fresh id, unless
        the email is taken. */
    method CreateEmployee(e: EmployeeCreate) returns (r: Result<Employee>)
      requires Valid()
      modifies this
      ensures Valid() && records == old(records) && nextRecordId == old(nextRecordId)
      ensures old(EmailTaken(e.email)) ==>
        r == Failure(UniqueViolation("email")) && employees == old(employees) && nextEmployeeId == old(nextEmployeeId)
      ensures !old(EmailTaken(e.email)) ==>
        && r == Success(Employee(old(nextEmployeeId), e.fullName, e.email, e.position, e.salary, e.dateHired))
        && employees == old(employees)[old(nextEmployeeId) := r.value]
        && nextEmployeeId == old(nextEmployeeId) + 1
    {
      if EmailTaken(e.email) {
        return Failure(UniqueViolation("email"));
      }
      var row := Employee(nextEmployeeId, e.fullName, e.email, e.position, e.salary, e.dateHired);
      employees := employees[nextEmployeeId := row];
      nextEmployeeId := nextEmployeeId + 1;
      r := Success(row);
    }

    /** `create_payroll_record`: a missing employee is an error and nothing
        is stored; otherwise one record carrying the request's employee and
        pay date and the monthly amounts of the employee's salary. */
    method CreatePayrollRecord(request: PayrollCreate) returns (r: Result<PayrollRecord>)
      requires Valid()
      modifies this
      ensures Valid() && employees == old(employees) && nextEmployeeId == old(nextEmployeeId)
      ensures request.employeeId !in old(employees) ==>
        && r == Failure(NotFound("Employee not found"))
        && records == old(records) && nextRecordId == old(nextRecordId)
      ensures request.employeeId in old(employees) ==>
        && var p := MonthlyPay(old(employees)[request.employeeId].salary);
        && r == Success(PayrollRecord(old(nextRecordId), request.employeeId, request.payDate,
                                      p.grossPay, p.netPay, p.deductions, p.taxes))
        && records == old(records)[old(nextRecordId) := r.value]
        && nextRecordId == old(nextRecordId) + 1
    {
      var employee := GetEmployee(request.employeeId);
      if employee.None? {
        return Failure(NotFound("Employee not found"));
      }
      var grossPay := employee.value.salary / 12.0;
      var taxes := CalculateTaxes(grossPay);
      var deductions := CalculateDeductions(grossPay);
      var netPay := grossPay - taxes - deductions;
      var row := PayrollRecord(nextRecordId, request.employeeId, request.payDate, grossPay, netPay, deductions, taxes);
      records := records[nextRecordId := row];
      nextRecordId := nextRecordId + 1;
      r := Success(row);
    }
  }
}
