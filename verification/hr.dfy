/** The HR service's in-memory employee table: a dictionary from employee ID
    to an employee record, kept in insertion order (Python dictionaries
    iterate in insertion order), with the add, view, update-performance and
    payroll endpoints. */
module Hr {
  import opened Text

  datatype Employee = Employee(name: string, position: string, salary: int, performance: string)

  /** What an endpoint answers: a body, or an HTTPException's status code and detail. */
  datatype Reply<T> = Ok(body: T) | Fail(status: int, detail: string)

  const AlreadyExists := "Employee ID already exists"
  const NotFound := "Employee not found"

  function AddedMessage(e: Employee): string {
    "Employee " + e.name + " added successfully!"
  }

  function UpdatedMessage(id: string, performance: string): string {
    "Performance for Employee ID " + id + " updated to " + performance
  }

  ghost predicate Distinct(ids: seq<string>) {
    forall i, j :: 0 <= i < j < |ids| ==> ids[i] != ids[j]
  }

  ghost predicate AllIn(ids: seq<string>, m: map<string, Employee>) {
    forall i :: 0 <= i < |ids| ==> ids[i] in m
  }

  /** One payroll report line, without its newline. */
  function PayrollLine(id: string, e: Employee): string {
    "ID: " + id + ", Name: " + e.name + ", Salary: " + IntToString(e.salary)
  }

  /** The payroll lines of `ids`, in that order. */
  function PayrollLines(ids: seq<string>, m: map<string, Employee>): seq<string>
    requires AllIn(ids, m)
  {
    seq(|ids|, i requires 0 <= i < |ids| => PayrollLine(ids[i], m[ids[i]]))
  }

  /** The salaries of `ids`, added up in that order. */
  function SumSalaries(ids: seq<string>, m: map<string, Employee>): int
    requires AllIn(ids, m)
  {
    if ids == [] then 0 else SumSalaries(ids[..|ids| - 1], m) + m[ids[|ids| - 1]].salary
  }

  function TotalLine(total: int): string {
    "Total Payroll: " + IntToString(total)
  }

  /** The payroll text: every line followed by a newline, then an empty line and the total. */
  function PayrollReport(ids: seq<string>, m: map<string, Employee>): string
    requires AllIn(ids, m)
  {
    Terminated(PayrollLines(ids, m), '\n') + "\n" + TotalLine(SumSalaries(ids, m))
  }

  /** With no employees the report is a newline and the total; otherwise it
      ends with an empty line and then the total line. */
  lemma PayrollReportEnds(ids: seq<string>, m: map<string, Employee>)
    requires AllIn(ids, m)
    ensures ids == [] ==> PayrollReport(ids, m) == "\n" + TotalLine(SumSalaries(ids, m))
    ensures var report, total := PayrollReport(ids, m), TotalLine(SumSalaries(ids, m));
            ids != [] ==> |report| >= |total| + 2 && report[|report| - |total| - 2..] == "\n\n" + total
  {
    var lines, total := PayrollLines(ids, m), TotalLine(SumSalaries(ids, m));
    assert PayrollReport(ids, m) == Terminated(lines, '\n') + "\n" + total;
    if ids == [] {
      assert lines == [];
    } else {
      assert |lines| == |ids|;
      TerminatedEnds(lines, '\n');
      ReportEnding(Terminated(lines, '\n'), total);
    }
  }

  /** A text that ends in a newline, then a newline and the total, ends with an empty line and the total. */
  lemma ReportEnding(body: string, total: string)
    requires |body| >= 1 && body[|body| - 1] == '\n'
    ensures var r := body + "\n" + total; |r| >= |total| + 2 && r[|r| - |total| - 2..] == "\n\n" + total
  {
    var r := body + "\n" + total;
    assert r[|r| - |total| - 2..] == [body[|body| - 1]] + "\n" + total;
  }

  /** The sum of all salaries in the table, whatever the order of its entries. */
  ghost function SalaryTotal(m: map<string, Employee>): int
    decreases |m|
  {
    if m == map[] then 0
    else
      var id :| id in m;
      m[id].salary + SalaryTotal(m - {id})
  }

  /** Any entry can be taken out first: the total does not depend on the order of summation. */
  lemma {:induction false} SalaryTotalRemove(m: map<string, Employee>, x: string)
    requires x in m
    ensures SalaryTotal(m) == m[x].salary + SalaryTotal(m - {x})
    decreases |m|
  {
    var id :| id in m && SalaryTotal(m) == m[id].salary + SalaryTotal(m - {id});
    if id != x {
      assert |m - {id}| < |m|;
      SalaryTotalRemove(m - {id}, x);
      SalaryTotalRemove(m - {x}, id);
      assert (m - {id}) - {x} == (m - {x}) - {id};
    }
  }

  /** Only the salaries of the listed IDs matter to their sum. */
  lemma {:induction false} SumSalariesFrame(ids: seq<string>, m: map<string, Employee>, m': map<string, Employee>)
    requires AllIn(ids, m) && AllIn(ids, m')
    requires forall i :: 0 <= i < |ids| ==> m[ids[i]].salary == m'[ids[i]].salary
    ensures SumSalaries(ids, m) == SumSalaries(ids, m')
  {
    if ids != [] {
      SumSalariesFrame(ids[..|ids| - 1], m, m');
    }
  }

  /** Summing over the insertion order, which lists every key exactly once, gives the table's total. */
  lemma {:induction false} SumSalariesIsSalaryTotal(ids: seq<string>, m: map<string, Employee>)
    requires Distinct(ids)
    requires forall id :: id in m <==> id in ids
    ensures AllIn(ids, m)
    ensures SumSalaries(ids, m) == SalaryTotal(m)
    decreases |ids|
  {
    assert forall i :: 0 <= i < |ids| ==> ids[i] in ids;
    if ids == [] {
      assert m == map[];
    } else {
      var init, x := ids[..|ids| - 1], ids[|ids| - 1];
      var rest := m - {x};
      assert forall id :: id in rest <==> id in init by {
        forall id ensures id in rest <==> id in init {
          if id in init {
            var k :| 0 <= k < |init| && init[k] == id;
            assert ids[k] == id && k < |ids| - 1;
          }
          if id in ids && id != x {
            var k :| 0 <= k < |ids| && ids[k] == id;
            assert id == init[k];
          }
        }
      }
      SumSalariesIsSalaryTotal(init, rest);
      SumSalariesFrame(init, m, rest);
      SalaryTotalRemove(m, x);
    }
  }

  /** Adding a fresh employee at the end of the order appends one line and adds its salary. */
  lemma {:induction false} PayrollAfterAdd(ids: seq<string>, m: map<string, Employee>, id: string, e: Employee)
    requires AllIn(ids, m) && id !in m
    ensures AllIn(ids + [id], m[id := e])
    ensures PayrollLines(ids + [id], m[id := e]) == PayrollLines(ids, m) + [PayrollLine(id, e)]
    ensures SumSalaries(ids + [id], m[id := e]) == SumSalaries(ids, m) + e.salary
  {
    var m' := m[id := e];
    assert forall i :: 0 <= i < |ids| ==> ids[i] != id && m'[ids[i]] == m[ids[i]];
    assert AllIn(ids, m');
    SumSalariesFrame(ids, m, m');
    SumSalariesSnoc(ids, m', id);
    PayrollLinesSnoc(ids, m', id);
    assert PayrollLines(ids, m') == PayrollLines(ids, m);
  }

  /** Changing an employee's performance changes nothing in the payroll report. */
  lemma {:induction false} PayrollIgnoresPerformance(ids: seq<string>, m: map<string, Employee>, id: string, performance: string)
    requires AllIn(ids, m) && id in m
    ensures AllIn(ids, m[id := m[id].(performance := performance)])
    ensures PayrollReport(ids, m[id := m[id].(performance := performance)]) == PayrollReport(ids, m)
  {
    var m' := m[id := m[id].(performance := performance)];
    assert forall i :: 0 <= i < |ids| ==> m'[ids[i]].salary == m[ids[i]].salary;
    SumSalariesFrame(ids, m, m');
    assert PayrollLines(ids, m') == PayrollLines(ids, m);
  }

  lemma PayrollLineHasNoNewline(id: string, e: Employee)
    requires '\n' !in id && '\n' !in e.name
    ensures '\n' !in PayrollLine(id, e)
  {
    IntToStringHasNo(e.salary, '\n');
    var parts := ["ID: ", id, ", Name: ", e.name, ", Salary: ", IntToString(e.salary)];
    assert PayrollLine(id, e) == parts[0] + parts[1] + parts[2] + parts[3] + parts[4] + parts[5];
  }

  /** The text `PayrollReport` builds is its lines, an empty line and the total line, joined by newlines. */
  lemma PayrollReportIsJoin(ids: seq<string>, m: map<string, Employee>)
    requires AllIn(ids, m)
    ensures PayrollReport(ids, m) == Join(PayrollLines(ids, m) + ["", TotalLine(SumSalaries(ids, m))], '\n')
  {
    var lines := PayrollLines(ids, m);
    var total := TotalLine(SumSalaries(ids, m));
    TerminatedSnoc(lines, "", '\n');
    assert Terminated(lines + [""], '\n') == Terminated(lines, '\n') + "\n";
    TerminatedThenJoin(lines + [""], total, '\n');
    assert lines + [""] + [total] == lines + ["", total];
  }

  /** One more ID adds its line at the end of the lines. */
  lemma PayrollLinesSnoc(ids: seq<string>, m: map<string, Employee>, id: string)
    requires AllIn(ids, m) && id in m
    ensures AllIn(ids + [id], m)
    ensures PayrollLines(ids + [id], m) == PayrollLines(ids, m) + [PayrollLine(id, m[id])]
  {
    var longer := ids + [id];
    assert forall i :: 0 <= i < |ids| ==> longer[i] == ids[i];
  }

  /** One more ID adds its salary to the sum. */
  lemma SumSalariesSnoc(ids: seq<string>, m: map<string, Employee>, id: string)
    requires AllIn(ids, m) && id in m
    ensures AllIn(ids + [id], m)
    ensures SumSalaries(ids + [id], m) == SumSalaries(ids, m) + m[id].salary
  {
    assert (ids + [id])[..|ids|] == ids;
  }

  /** One more step of the payroll walk: the next line and the next salary. */
  lemma PayrollPrefixStep(ids: seq<string>, m: map<string, Employee>, i: nat)
    requires AllIn(ids, m) && i < |ids|
    ensures AllIn(ids[..i], m) && AllIn(ids[..i + 1], m)
    ensures Terminated(PayrollLines(ids[..i + 1], m), '\n')
         == Terminated(PayrollLines(ids[..i], m), '\n') + PayrollLine(ids[i], m[ids[i]]) + "\n"
    ensures SumSalaries(ids[..i + 1], m) == SumSalaries(ids[..i], m) + m[ids[i]].salary
  {
    var pre := ids[..i];
    assert ids[..i + 1] == pre + [ids[i]];
    assert AllIn(pre, m);
    PayrollLinesSnoc(pre, m, ids[i]);
    SumSalariesSnoc(pre, m, ids[i]);
    TerminatedSnoc(PayrollLines(pre, m), PayrollLine(ids[i], m[ids[i]]), '\n');
  }

  /** With no newline inside an ID or a name, the report is exactly one line per
      employee in table order, an empty line, and the total line. */
  lemma PayrollReportLines(ids: seq<string>, m: map<string, Employee>)
    requires AllIn(ids, m)
    requires forall i :: 0 <= i < |ids| ==> '\n' !in ids[i] && '\n' !in m[ids[i]].name
    ensures Split(PayrollReport(ids, m), '\n') == PayrollLines(ids, m) + ["", TotalLine(SumSalaries(ids, m))]
  {
    var lines := PayrollLines(ids, m);
    var total := TotalLine(SumSalaries(ids, m));
    var parts := lines + ["", total];
    PayrollReportIsJoin(ids, m);
    IntToStringHasNo(SumSalaries(ids, m), '\n');
    assert '\n' !in total;
    forall i | 0 <= i < |parts|
      ensures '\n' !in parts[i]
    {
      if i < |ids| {
        PayrollLineHasNoNewline(ids[i], m[ids[i]]);
      }
    }
    SplitJoin(parts, '\n');
  }

  class EmployeeTable {
    var employees: map<string, Employee>
    /** The IDs in insertion order: the order the table is iterated in. */
    var order: seq<string>

    ghost predicate Valid()
      reads this
    {
      Distinct(order) && forall id :: id in employees <==> id in order
    }

    /** The table the service starts with. */
    constructor ()
      ensures Valid()
      ensures employees == map[
        "101" := Employee("Alice Johnson", "Manager", 60000, "Excellent"),
        "102" := Employee("Bob Smith", "Developer", 50000, "Good")]
      ensures order == ["101", "102"]
    {
      employees := map[
        "101" := Employee("Alice Johnson", "Manager", 60000, "Excellent"),
        "102" := Employee("Bob Smith", "Developer", 50000, "Good")];
      order := ["101", "102"];
    }

    method AddEmployee(id: string, e: Employee) returns (reply: Reply<string>)
      requires Valid()
      modifies this
      ensures Valid()
      ensures id in old(employees) ==>
        reply == Fail(400, AlreadyExists) && employees == old(employees) && order == old(order)
      ensures id !in old(employees) ==>
        reply == Ok(AddedMessage(e)) && employees == old(employees)[id := e] && order == old(order) + [id]
    {
      if id in employees {
        return Fail(400, AlreadyExists);
      }
      employees := employees[id := e];
      order := order + [id];
      reply := Ok(AddedMessage(e));
    }

    method ViewEmployee(id: string) returns (reply: Reply<Employee>)
      ensures id in employees ==> reply == Ok(employees[id])
      ensures id !in employees ==> reply == Fail(404, NotFound)
    {
      if id in employees {
        return Ok(employees[id]);
      }
      reply := Fail(404, NotFound);
    }

    method UpdatePerformance(id: string, performance: string) returns (reply: Reply<string>)
      requires Valid()
      modifies this`employees
      ensures Valid()
      ensures id in old(employees) ==>
        && employees == old(employees)[id := old(employees)[id].(performance := performance)]
        && reply == Ok(UpdatedMessage(id, performance))
      ensures id !in old(employees) ==> employees == old(employees) && reply == Fail(404, NotFound)
    {
      if id in employees {
        employees := employees[id := employees[id].(performance := performance)];
        return Ok(UpdatedMessage(id, performance));
      }
      reply := Fail(404, NotFound);
    }

    /** Walks the table in order, appending a line per employee and adding up the salaries. */
    method CalculatePayroll() returns (payroll: string, total: int)
      requires Valid()
      ensures AllIn(order, employees)
      ensures payroll == PayrollReport(order, employees)
      ensures total == SumSalaries(order, employees)
      ensures total == SalaryTotal(employees)
    {
      SumSalariesIsSalaryTotal(order, employees);
      payroll := "";
      total := 0;
      for i := 0 to |order|
        invariant AllIn(order[..i], employees)
        invariant payroll == Terminated(PayrollLines(order[..i], employees), '\n')
        invariant total == SumSalaries(order[..i], employees)
      {
        var id := order[i];
        var emp := employees[id];
        PayrollPrefixStep(order, employees, i);
        payroll := payroll + PayrollLine(id, emp) + "\n";
        total := total + emp.salary;
      }
      assert order[..|order|] == order;
      payroll := payroll + "\n" + TotalLine(total);
    }
  }

  /** A client of the table: a successful add is seen by the next view. */
  method AddThenView(table: EmployeeTable, id: string, e: Employee) returns (seen: Reply<Employee>)
    requires table.Valid() && id !in table.employees
    modifies table
    ensures table.Valid()
    ensures seen == Ok(e)
  {
    var added := table.AddEmployee(id, e);
    seen := table.ViewEmployee(id);
  }
}
