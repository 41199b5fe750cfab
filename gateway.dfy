/** The request handler as a function: the fourteen actions, the request
    payload, the responses, and what each action does to the workbook (a
    map from sheet name to sheet). The Workbook class implements it. */
module Gateway {
  import opened Cells
  import opened Layout
  import opened Table
  import opened Readers

  /** The workbook: sheets by name. A sheet that does not exist is not a key. */
  type Book = map<string, Sheet>

  const IncomeSheet: string := "Доходы"
  const PaymentSheet: string := "Авансы и Зарплата"
  const PenaltySheet: string := "Штрафы"
  const OperatorSheet: string := "Операторы"
  const AnketaSheet: string := "Анкеты"
  const AdminSheet: string := "Администраторы"

  datatype Action =
    | AddIncome | UpdateIncome | DeleteIncome | GetAllData
    | AddPayment | DeletePayment | AddPenalty | DeletePenalty
    | AddOperator | DeleteOperator | AddAnketa | DeleteAnketa | AddAdmin | DeleteAdmin

  /** The action string that selects each action. */
  function ActionName(a: Action): string
  {
    match a
    case AddIncome => "addIncome"
    case UpdateIncome => "updateIncome"
    case DeleteIncome => "deleteIncome"
    case GetAllData => "getAllData"
    case AddPayment => "addPayment"
    case DeletePayment => "deletePayment"
    case AddPenalty => "addPenalty"
    case DeletePenalty => "deletePenalty"
    case AddOperator => "addOperator"
    case DeleteOperator => "deleteOperator"
    case AddAnketa => "addAnketa"
    case DeleteAnketa => "deleteAnketa"
    case AddAdmin => "addAdmin"
    case DeleteAdmin => "deleteAdmin"
  }

  /** The switch of doPost: a case-sensitive match of the action string;
      None is the default branch. */
  function ParseAction(name: string): (r: Option<Action>)
    ensures r.Some? ==> ActionName(r.value) == name
    ensures r.None? <==> forall a :: ActionName(a) != name
  {
    match name
    case "addIncome" => Some(AddIncome)
    case "updateIncome" => Some(UpdateIncome)
    case "deleteIncome" => Some(DeleteIncome)
    case "getAllData" => Some(GetAllData)
    case "addPayment" => Some(AddPayment)
    case "deletePayment" => Some(DeletePayment)
    case "addPenalty" => Some(AddPenalty)
    case "deletePenalty" => Some(DeletePenalty)
    case "addOperator" => Some(AddOperator)
    case "deleteOperator" => Some(DeleteOperator)
    case "addAnketa" => Some(AddAnketa)
    case "deleteAnketa" => Some(DeleteAnketa)
    case "addAdmin" => Some(AddAdmin)
    case "deleteAdmin" => Some(DeleteAdmin)
    case _ => None
  }

  /** Each action is selected by its own name (that no other string selects
      it is the first ensures of ParseAction). */
  lemma ParseActionName(a: Action)
    ensures ParseAction(ActionName(a)) == Some(a)
  {
  }

  /** The request body's `data` object: every field that some action reads.
      `kind` is the payment's `type` field. The model reads a field the client
      leaves out as Text(""); README, Left out, Payload gives what this changes. */
  datatype Payload = Payload(
    id: Cell, date: Cell, timestamp: Cell, operator: Cell, anketa: Cell, shift: Cell,
    sources: Sources, total: Total, kind: Cell, amount: Cell, reason: Cell, name: Cell)

  datatype Request = Request(action: string, data: Payload)

  function AsIncome(p: Payload): Income
  {
    Income(p.id, p.date, p.timestamp, p.operator, p.anketa, p.shift, p.sources, p.total)
  }

  function AsPayment(p: Payload): Payment
  {
    Payment(p.id, p.operator, p.kind, p.amount, p.date)
  }

  function AsPenalty(p: Payload): Penalty
  {
    Penalty(p.id, p.operator, p.amount, p.reason, p.date)
  }

  /** {status:'success'}; the getAllData object (which carries no status
      field); or {status:'error', message}. */
  datatype Response =
    | Success
    | AllData(incomes: seq<Income>, operators: seq<Cell>, ankety: seq<Cell>, admins: seq<Cell>)
    | Error(message: string)

  datatype Outcome = Outcome(book: Book, response: Response)

  /** The rows of a sheet, none when it does not exist. */
  function Rows(b: Book, name: string): Sheet
  {
    if name in b then b[name] else []
  }

  /** getOrCreateSheet: an existing sheet is kept, a missing one is inserted empty. */
  function WithSheet(b: Book, name: string): (r: Book)
    ensures name in r && r[name] == Rows(b, name)
    ensures forall n :: n in b ==> n in r && r[n] == b[n]
    ensures r.Keys == b.Keys + {name}
  {
    if name in b then b else b[name := []]
  }

  /** addIncomeRow, addPaymentRow, addPenaltyRow. */
  function AddRecordTo(b: Book, name: string, header: Row, row: Row): (r: Book)
    ensures r.Keys == b.Keys + {name}
    ensures forall n :: n in b && n != name ==> r[n] == b[n]
    ensures |r[name]| == |WithHeader(Rows(b, name), header)| + 1 && r[name][|r[name]| - 1] == row
  {
    b[name := AppendRecord(Rows(b, name), header, row)]
  }

  /** The delete functions: a missing sheet is left missing. */
  function DeleteFrom(b: Book, name: string, key: Cell): (r: Book)
    ensures r.Keys == b.Keys
    ensures name !in b ==> r == b
    ensures forall n :: n in b && n != name ==> r[n] == b[n]
  {
    if name in b then b[name := DeleteFirst(b[name], key)] else b
  }

  /** updateIncomeRow: the sheet is created if missing, but no header is written. */
  function UpdateIncomeIn(b: Book, x: Income): (r: Book)
    ensures r.Keys == b.Keys + {IncomeSheet}
    ensures forall n :: n in b && n != IncomeSheet ==> r[n] == b[n]
    ensures |r[IncomeSheet]| == |Rows(b, IncomeSheet)|
  {
    b[IncomeSheet := OverwriteFirst(Rows(b, IncomeSheet), x.id, EncodeIncome(x))]
  }

  /** addOperatorRow, addAnketaRow, addAdminRow. */
  function AddNameTo(b: Book, name: string, n: Cell): (r: Book)
    ensures r.Keys == b.Keys + {name}
    ensures forall m :: m in b && m != name ==> r[m] == b[m]
    ensures FirstMatch(r[name], n).Some?
  {
    AddNameHolds(Rows(b, name), NameHeader, n);
    b[name := AddName(Rows(b, name), NameHeader, n)]
  }

  /** getAllData: the four listed sheets are created when missing and read. */
  function ReadAll(b: Book): (r: Outcome)
    ensures r.response.AllData?
    ensures forall n :: n in b ==> n in r.book && r.book[n] == b[n]
  {
    var b' := WithSheet(WithSheet(WithSheet(WithSheet(b, IncomeSheet), OperatorSheet), AnketaSheet), AdminSheet);
    Outcome(b', AllData(
      Incomes(b'[IncomeSheet]),
      NameList(b'[OperatorSheet], DefaultOperators),
      NameList(b'[AnketaSheet], DefaultAnkety),
      NameList(b'[AdminSheet], DefaultAdmins)))
  }

  /** doPost on a parsed request body. */
  function Handle(b: Book, req: Request): (r: Outcome)
    ensures r.response.Error? <==> ParseAction(req.action).None?
    ensures r.response.Error? ==> r.book == b
  {
    var p := req.data;
    match ParseAction(req.action)
    case None => Outcome(b, Error("Unknown action"))
    case Some(a) =>
      match a
      case AddIncome => Outcome(AddRecordTo(b, IncomeSheet, IncomeHeader, EncodeIncome(AsIncome(p))), Success)
      case UpdateIncome => Outcome(UpdateIncomeIn(b, AsIncome(p)), Success)
      case DeleteIncome => Outcome(DeleteFrom(b, IncomeSheet, p.id), Success)
      case GetAllData => ReadAll(b)
      case AddPayment => Outcome(AddRecordTo(b, PaymentSheet, PaymentHeader, EncodePayment(AsPayment(p))), Success)
      case DeletePayment => Outcome(DeleteFrom(b, PaymentSheet, p.id), Success)
      case AddPenalty => Outcome(AddRecordTo(b, PenaltySheet, PenaltyHeader, EncodePenalty(AsPenalty(p))), Success)
      case DeletePenalty => Outcome(DeleteFrom(b, PenaltySheet, p.id), Success)
      case AddOperator => Outcome(AddNameTo(b, OperatorSheet, p.name), Success)
      case DeleteOperator => Outcome(DeleteFrom(b, OperatorSheet, p.name), Success)
      case AddAnketa => Outcome(AddNameTo(b, AnketaSheet, p.name), Success)
      case DeleteAnketa => Outcome(DeleteFrom(b, AnketaSheet, p.name), Success)
      case AddAdmin => Outcome(AddNameTo(b, AdminSheet, p.name), Success)
      case DeleteAdmin => Outcome(DeleteFrom(b, AdminSheet, p.name), Success)
  }

  /** The one sheet a write action may change. */
  function Target(a: Action): string
    requires a != GetAllData
  {
    match a
    case AddIncome | UpdateIncome | DeleteIncome => IncomeSheet
    case AddPayment | DeletePayment => PaymentSheet
    case AddPenalty | DeletePenalty => PenaltySheet
    case AddOperator | DeleteOperator => OperatorSheet
    case AddAnketa | DeleteAnketa => AnketaSheet
    case AddAdmin | DeleteAdmin => AdminSheet
  }

  /** An action string outside the fourteen names yields the error envelope
      and leaves every sheet as it was. */
  lemma UnknownActionChangesNothing(b: Book, req: Request)
    requires forall a :: ActionName(a) != req.action
    ensures Handle(b, req) == Outcome(b, Error("Unknown action"))
  {
  }

  /** Every recognised action other than getAllData answers success, and
      touches no sheet but its own: other sheets keep their rows and no
      sheet is created or removed except its own. */
  lemma WriteActionSucceeds(b: Book, req: Request, a: Action)
    requires ParseAction(req.action) == Some(a) && a != GetAllData
    ensures Handle(b, req).response == Success
    ensures Handle(b, req).book.Keys <= b.Keys + {Target(a)}
    ensures forall n :: n in b && n != Target(a) ==> n in Handle(b, req).book && Handle(b, req).book[n] == b[n]
  {
  }

  /** ReadAll answers with the four lists read from their sheets and only
      inserts the missing ones of those sheets. */
  lemma ReadAllReadsFourSheets(b: Book)
    ensures var o := ReadAll(b);
      && o.response == AllData(
        Incomes(Rows(b, IncomeSheet)),
        NameList(Rows(b, OperatorSheet), DefaultOperators),
        NameList(Rows(b, AnketaSheet), DefaultAnkety),
        NameList(Rows(b, AdminSheet), DefaultAdmins))
      && (forall n :: n in b ==> n in o.book && o.book[n] == b[n])
      && o.book.Keys == b.Keys + {IncomeSheet, OperatorSheet, AnketaSheet, AdminSheet}
  {
  }

  /** getAllData returns the income, operator, anketa and admin lists read
      from their sheets, and only inserts the missing ones of those sheets. */
  lemma GetAllDataReadsFourSheets(b: Book, req: Request)
    requires req.action == "getAllData"
    ensures var o := Handle(b, req);
      && o.response == AllData(
        Incomes(Rows(b, IncomeSheet)),
        NameList(Rows(b, OperatorSheet), DefaultOperators),
        NameList(Rows(b, AnketaSheet), DefaultAnkety),
        NameList(Rows(b, AdminSheet), DefaultAdmins))
      && (forall n :: n in b ==> n in o.book && o.book[n] == b[n])
      && o.book.Keys == b.Keys + {IncomeSheet, OperatorSheet, AnketaSheet, AdminSheet}
  {
    assert ParseAction(req.action) == Some(GetAllData);
    assert Handle(b, req) == ReadAll(b);
    ReadAllReadsFourSheets(b);
  }

  /** What getAllData answers does not depend on the payment and penalty sheets. */
  lemma GetAllDataIgnoresPayments(b: Book, req: Request, payments: Sheet, penalties: Sheet)
    requires req.action == "getAllData"
    ensures Handle(b[PaymentSheet := payments][PenaltySheet := penalties], req).response == Handle(b, req).response
  {
    var c := b[PaymentSheet := payments][PenaltySheet := penalties];
    GetAllDataReadsFourSheets(b, req);
    GetAllDataReadsFourSheets(c, req);
    assert Rows(c, IncomeSheet) == Rows(b, IncomeSheet);
    assert Rows(c, OperatorSheet) == Rows(b, OperatorSheet);
    assert Rows(c, AnketaSheet) == Rows(b, AnketaSheet);
    assert Rows(c, AdminSheet) == Rows(b, AdminSheet);
  }

  /** addIncome followed by getAllData: the added record comes back as the
      last income, field for field. */
  lemma AddIncomeThenGetAllData(b: Book, p: Payload)
    ensures var b' := Handle(b, Request("addIncome", p)).book;
      Handle(b', Request("getAllData", p)).response.incomes
        == Incomes(Rows(b, IncomeSheet)) + [AsIncome(p)]
  {
    AddedIncomeReadBack(Rows(b, IncomeSheet), AsIncome(p));
  }

  /** Sending the same name-table add twice leaves the workbook as sending it once. */
  lemma AddNameTwiceIsOnce(b: Book, req: Request)
    requires req.action in {"addOperator", "addAnketa", "addAdmin"}
    ensures Handle(Handle(b, req).book, req) == Handle(b, req)
  {
    var name := Target(ParseAction(req.action).value);
    AddNameIdempotent(Rows(b, name), NameHeader, req.data.name);
  }
}
