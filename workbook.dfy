/** The spreadsheet as mutable state: a Workbook object whose sheets the
    table functions of the handler change in place, each proved to do
    what the corresponding function of module Gateway describes. */
module Spreadsheet {
  import opened Cells
  import opened Layout
  import opened Table
  import opened Readers
  import opened Gateway

  class Workbook {
    /** Every sheet of the spreadsheet, by name. */
    var sheets: Book

    constructor (initial: Book)
      ensures sheets == initial
    {
      sheets := initial;
    }

    /** getOrCreateSheet: inserts an empty sheet when none has the name,
        and gives back the sheet's rows. */
    method GetOrCreateSheet(name: string) returns (rows: Sheet)
      modifies this
      ensures sheets == WithSheet(old(sheets), name)
      ensures rows == sheets[name] == Rows(old(sheets), name)
    {
      if name !in sheets {
        sheets := sheets[name := []];
      }
      rows := sheets[name];
    }

    /** sheet.appendRow: the row goes after the last row. */
    method AppendRow(name: string, row: Row)
      requires name in sheets
      modifies this
      ensures sheets == old(sheets)[name := old(sheets)[name] + [row]]
    {
      sheets := sheets[name := sheets[name] + [row]];
    }

    /** sheet.deleteRow(i + 1): rows are numbered from 1 there, from 0 here. */
    method DeleteRowAt(name: string, i: nat)
      requires name in sheets && i < |sheets[name]|
      modifies this
      ensures sheets == old(sheets)[name := old(sheets)[name][..i] + old(sheets)[name][i + 1..]]
    {
      sheets := sheets[name := sheets[name][..i] + sheets[name][i + 1..]];
    }

    /** sheet.getRange(i + 1, 1, 1, |vals|).setValues([vals]). */
    method SetRow(name: string, i: nat, vals: Row)
      requires name in sheets && i < |sheets[name]|
      modifies this
      ensures sheets == old(sheets)[name := old(sheets)[name][i := Overwrite(old(sheets)[name][i], vals)]]
    {
      sheets := sheets[name := sheets[name][i := Overwrite(sheets[name][i], vals)]];
    }

    /** The body shared by the record adds: lazy header, then the row. */
    method AddRecord(name: string, header: Row, row: Row)
      modifies this
      ensures sheets == AddRecordTo(old(sheets), name, header, row)
    {
      var rows := GetOrCreateSheet(name);
      if |rows| == 0 {
        AppendRow(name, header);
      } else {
        assert name in old(sheets) && sheets == old(sheets)[name := rows];
      }
      AppendRow(name, row);
      assert sheets[name] == AppendRecord(rows, header, row);
      assert sheets == old(sheets)[name := sheets[name]];
    }

    method AddIncomeRow(income: Income)
      modifies this
      ensures sheets == AddRecordTo(old(sheets), IncomeSheet, IncomeHeader, EncodeIncome(income))
    {
      AddRecord(IncomeSheet, IncomeHeader, EncodeIncome(income));
    }

    method AddPaymentRow(payment: Payment)
      modifies this
      ensures sheets == AddRecordTo(old(sheets), PaymentSheet, PaymentHeader, EncodePayment(payment))
    {
      AddRecord(PaymentSheet, PaymentHeader, EncodePayment(payment));
    }

    method AddPenaltyRow(penalty: Penalty)
      modifies this
      ensures sheets == AddRecordTo(old(sheets), PenaltySheet, PenaltyHeader, EncodePenalty(penalty))
    {
      AddRecord(PenaltySheet, PenaltyHeader, EncodePenalty(penalty));
    }

    /** updateIncomeRow: scans the data rows of a snapshot and overwrites
        the first one whose id matches; writes nothing when none does. */
    method UpdateIncomeRow(income: Income)
      modifies this
      ensures sheets == UpdateIncomeIn(old(sheets), income)
    {
      var data := GetOrCreateSheet(IncomeSheet);
      var i := 1;
      while i < |data|
        invariant 1 <= i
        invariant forall j :: 1 <= j < i && j < |data| ==> KeyOf(data[j]) != income.id
        invariant sheets == WithSheet(old(sheets), IncomeSheet)
      {
        if KeyOf(data[i]) == income.id {
          FirstMatchCharacterized(data, income.id, i);
          SetRow(IncomeSheet, i, EncodeIncome(income));
          return;
        }
        i := i + 1;
      }
      FirstMatchCharacterized(data, income.id, 0);
    }

    /** The body shared by the deletes: nothing when the sheet does not
        exist; otherwise the first data row whose key matches is deleted. */
    method DeleteRow(name: string, key: Cell)
      modifies this
      ensures sheets == DeleteFrom(old(sheets), name, key)
    {
      if name !in sheets {
        return;
      }
      var data := sheets[name];
      var i := 1;
      while i < |data|
        invariant 1 <= i
        invariant forall j :: 1 <= j < i && j < |data| ==> KeyOf(data[j]) != key
        invariant sheets == old(sheets)
      {
        if KeyOf(data[i]) == key {
          FirstMatchCharacterized(data, key, i);
          DeleteRowAt(name, i);
          return;
        }
        i := i + 1;
      }
      FirstMatchCharacterized(data, key, 0);
    }

    method DeleteIncomeRow(id: Cell)
      modifies this
      ensures sheets == DeleteFrom(old(sheets), IncomeSheet, id)
    {
      DeleteRow(IncomeSheet, id);
    }

    method DeletePaymentRow(id: Cell)
      modifies this
      ensures sheets == DeleteFrom(old(sheets), PaymentSheet, id)
    {
      DeleteRow(PaymentSheet, id);
    }

    method DeletePenaltyRow(id: Cell)
      modifies this
      ensures sheets == DeleteFrom(old(sheets), PenaltySheet, id)
    {
      DeleteRow(PenaltySheet, id);
    }

    method DeleteOperatorRow(name: Cell)
      modifies this
      ensures sheets == DeleteFrom(old(sheets), OperatorSheet, name)
    {
      DeleteRow(OperatorSheet, name);
    }

    method DeleteAnketaRow(name: Cell)
      modifies this
      ensures sheets == DeleteFrom(old(sheets), AnketaSheet, name)
    {
      DeleteRow(AnketaSheet, name);
    }

    method DeleteAdminRow(name: Cell)
      modifies this
      ensures sheets == DeleteFrom(old(sheets), AdminSheet, name)
    {
      DeleteRow(AdminSheet, name);
    }

    /** The body shared by the name-table adds: lazy header, then a scan of
        the data rows that returns early on an equal name, else an append. */
    method AddNameRow(table: string, name: Cell)
      modifies this
      ensures sheets == AddNameTo(old(sheets), table, name)
    {
      var rows := GetOrCreateSheet(table);
      if |rows| == 0 {
        AppendRow(table, NameHeader);
      }
      var data := sheets[table];
      assert data == WithHeader(Rows(old(sheets), table), NameHeader);
      var i := 1;
      while i < |data|
        invariant 1 <= i
        invariant forall j :: 1 <= j < i && j < |data| ==> KeyOf(data[j]) != name
        invariant sheets[table] == data && sheets == old(sheets)[table := data]
      {
        if KeyOf(data[i]) == name {
          FirstMatchCharacterized(data, name, i);
          return;
        }
        i := i + 1;
      }
      FirstMatchCharacterized(data, name, 0);
      AppendRow(table, [name]);
    }

    method AddOperatorRow(name: Cell)
      modifies this
      ensures sheets == AddNameTo(old(sheets), OperatorSheet, name)
    {
      AddNameRow(OperatorSheet, name);
    }

    method AddAnketaRow(name: Cell)
      modifies this
      ensures sheets == AddNameTo(old(sheets), AnketaSheet, name)
    {
      AddNameRow(AnketaSheet, name);
    }

    method AddAdminRow(name: Cell)
      modifies this
      ensures sheets == AddNameTo(old(sheets), AdminSheet, name)
    {
      AddNameRow(AdminSheet, name);
    }

    /** getAllData: opens (or inserts) the four sheets, then reads each. */
    method GetAllData() returns (response: Response)
      modifies this
      ensures Outcome(sheets, response) == ReadAll(old(sheets))
    {
      var incomeRows := GetOrCreateSheet(IncomeSheet);
      var operatorRows := GetOrCreateSheet(OperatorSheet);
      var anketaRows := GetOrCreateSheet(AnketaSheet);
      var adminRows := GetOrCreateSheet(AdminSheet);
      assert sheets[IncomeSheet] == incomeRows && sheets[OperatorSheet] == operatorRows;
      assert sheets[AnketaSheet] == anketaRows;
      var incomes := GetIncomes(incomeRows);
      var operators := GetOperators(operatorRows);
      var ankety := GetAnkety(anketaRows);
      var admins := GetAdmins(adminRows);
      response := AllData(incomes, operators, ankety, admins);
    }

    /** doPost: dispatch on the action string; an unknown action answers
        the error envelope and touches no sheet. */
    method DoPost(req: Request) returns (response: Response)
      modifies this
      ensures Outcome(sheets, response) == Handle(old(sheets), req)
    {
      var p := req.data;
      var action := ParseAction(req.action);
      if action.None? {
        response := Error("Unknown action");
        return;
      }
      response := Success;
      match action.value {
        case AddIncome => AddIncomeRow(AsIncome(p));
        case UpdateIncome => UpdateIncomeRow(AsIncome(p));
        case DeleteIncome => DeleteIncomeRow(p.id);
        case GetAllData => response := GetAllData();
        case AddPayment => AddPaymentRow(AsPayment(p));
        case DeletePayment => DeletePaymentRow(p.id);
        case AddPenalty => AddPenaltyRow(AsPenalty(p));
        case DeletePenalty => DeletePenaltyRow(p.id);
        case AddOperator => AddOperatorRow(p.name);
        case DeleteOperator => DeleteOperatorRow(p.name);
        case AddAnketa => AddAnketaRow(p.name);
        case DeleteAnketa => DeleteAnketaRow(p.name);
        case AddAdmin => AddAdminRow(p.name);
        case DeleteAdmin => DeleteAdminRow(p.name);
      }
    }
  }
}
