# Income dashboard record store, in Dafny

This project models the Google Apps Script web app of the income dashboard
(`apps-script.js`). The script stores income, payment, penalty, operator,
anketa (profile) and admin records in the sheets of one spreadsheet. A single
`doPost` handler serves them, keyed by the request's `action` string.

The model treats each sheet as a sequence of rows (row 0 is the header, once
anything has been written), each row as a sequence of cells, and the
spreadsheet as a map from sheet name to sheet.

- `cells.dfy` (module `Cells`): cell values, rows and sheets, JavaScript
  truthiness, and the padded column read of the rectangular data range.
- `layout.dfy` (module `Layout`): the records and the fixed column layouts.
  The 17-column income row is encoded and decoded. The payment-type label and
  the payment and penalty rows are encoded too.
- `table.dfy` (module `Table`): the operations every sheet shares, as
  functions on the rows. These are the lazy header plus append, the
  first-match scan over the data rows, delete at the first match, overwrite at
  the first match, and the duplicate-checked append of the name tables. The
  lemmas state what these operations do and what they leave unchanged.
- `readers.dfy` (module `Readers`): `getIncomes` and the three name-list
  readers. Each is a function on the rows, implemented by a method with the
  source's loop.
- `gateway.dfy` (module `Gateway`): the fourteen actions, the request payload
  and the responses. `Handle` gives the effect of one request on the
  spreadsheet map, and the dispatch lemmas are proved about it.
- `workbook.dfy` (module `Spreadsheet`): class `Workbook`, whose `sheets`
  field the handler's functions change in place. The scanning methods (update,
  delete and name add) have the source's loop, and every handler method is
  proved equal to the matching `Gateway` function. `AppendRow`, `DeleteRowAt`
  and `SetRow` stand for the host's sheet calls and have no such counterpart.

Behaviour worth noting:
- `getAllData` returns an object with `incomes`, `operators`, `ankety` and
  `admins` and no `status` field (apps-script.js:103-108).
- Income update overwrites the first row with a matching id in place. When no
  row matches, it writes no row (apps-script.js:150-173). Line 147 has already
  inserted an empty income sheet if there was none. It is not a delete
  followed by a re-append, and it does not make the id unique: rows with the
  same id after the first are left as they are.
- Deletes scan forward from the first data row and remove the first match
  only (apps-script.js:181-185).
- The income table has 17 columns and the payment and penalty tables have 5,
  with the sheet names and headers the script writes.

## Model

| member | source | states |
|---|---|---|
| `Layout.EncodeIncome` | apps-script.js:125-143 | The income row has 17 columns, as many as the header. Its key column is the id. Decoding it gives back every field of the record: id, date, timestamp, operator, anketa, shift, the three gross/percent/operatorShare triples and both totals. |
| `Layout.EncodeDecodeIncome` | apps-script.js:197-210 | The other direction of the round trip: re-encoding the decoded record gives back any full-width row. |
| `Layout.PaymentKindLabel` | apps-script.js:230 | The stored label is `Аванс` exactly when the type is the string `advance`. Every other type is stored as `Зарплата`. |
| `Layout.EncodePayment` | apps-script.js:227-233 | A payment row is as wide as its 5-column header and is keyed by the payment id. Its type column holds `Аванс` exactly for `advance`. |
| `Layout.EncodePenalty` | apps-script.js:257-263 | A penalty row is as wide as its 5-column header and is keyed by the penalty id. |
| `Layout.DecodeIncome` | apps-script.js:197-210 | The record read from a row takes its id from the key column and, for a full-width row, its totals from the last two columns. Together with `EncodeIncome` it completes the round trip. |
| `Table.WithHeader` | apps-script.js:282 | The lazy header write. A sheet with no rows becomes exactly the one header row, and any other sheet is unchanged. |
| `Table.AppendRecord` | apps-script.js:115-143 | An add on an empty sheet writes exactly the header and then the row. On a non-empty sheet it appends exactly one row at the end, and every earlier row keeps its value and position. |
| `Table.FirstMatchFrom` | apps-script.js:181-186 | The forward scan returns the first row from the start index whose key equals the key. It returns none when no such row exists. |
| `Table.FirstMatch` | apps-script.js:181-182 | The scan from index 1 returns the first data row with the key, or none exactly when no data row has it. |
| `Table.FirstMatchCharacterized` | apps-script.js:181-182 | The scan stops at i exactly when i is the first data row (index 1 or more) with the key. It finds nothing exactly when no data row has the key, so the header is never a candidate. |
| `Table.DeleteFirst` | apps-script.js:180-186 | Delete keeps the header. It leaves the sheet unchanged exactly when no data row has the key, and otherwise removes one row. |
| `Table.DeleteFirstRemovesOne` | apps-script.js:176-187 | Delete by key removes the first matching data row and nothing else. The length drops by one and the header is kept. Rows before the match keep their places, rows after it shift up by one in order, and the multiset of rows loses exactly the deleted row. |
| `Table.DeleteFirstNoMatch` | apps-script.js:180-186 | When no data row has the key, delete changes nothing. This includes a sheet without rows. |
| `Table.Overwrite` | apps-script.js:152-170 | setValues over the leading columns: those columns take the new values, and any columns beyond them keep their contents. |
| `Table.OverwriteFirst` | apps-script.js:150-173 | Update keeps the row count and the header, and changes nothing when no data row has the id. |
| `Table.OverwriteFirstTouchesOne` | apps-script.js:150-173 | Update rewrites only the first data row with the id, and the row count stays the same. |
| `Table.OverwriteFirstNoMatch` | apps-script.js:146-174 | With no matching row, update leaves the sheet unchanged: no append, no header and no changed row. |
| `Table.AddName` | apps-script.js:282-288 | An add on an empty sheet gives exactly the header and then `[name]`. On a non-empty sheet every earlier row is kept and at most one row is added. |
| `Table.AddNameAbsent` | apps-script.js:282-288 | When no data row holds the name, the add appends exactly the one-cell row `[name]` after the sheet (with the header written first if it was empty). |
| `Table.AddNameHolds` | apps-script.js:280-289 | After a name-table add, some data row holds the name. |
| `Table.AddNamePresent` | apps-script.js:284-287 | A name already in a data row leaves the table unchanged. |
| `Table.AddNameIdempotent` | apps-script.js:280-289 | Adding the same name twice gives the same table as adding it once. |
| `Table.AddNameKeepsDistinct` | apps-script.js:280-289 | If the data rows hold pairwise different names before an add, they still do after it. |
| `Table.DeleteFirstKeepsDistinct` | apps-script.js:291-302 | Deleting by name keeps the data rows' names pairwise different. |
| `Table.DeleteFirstRemovesName` | apps-script.js:291-302 | In a table of distinct names, deleting a name leaves no data row that holds it. |
| `Readers.DecodeRows` | apps-script.js:195-214 | Every data row is decoded into one record, in row order, with none skipped. |
| `Readers.Incomes` | apps-script.js:189-217 | `getIncomes` returns the empty list for a sheet without rows. Otherwise it returns one record per data row, in order, with the header excluded. |
| `Readers.GetIncomes` | apps-script.js:189-217 | The loop of `getIncomes` computes exactly `Incomes`. |
| `Readers.AddedIncomeReadBack` | apps-script.js:125-210 | Reading after an income add returns the earlier records followed by the added record, field for field. |
| `Readers.UpdatedIncomeReadBack` | apps-script.js:146-174 | Reading after an update returns the same list with the new record at the matched position. |
| `Readers.TruthyKeys` | apps-script.js:310-312 | The collected names are the truthy first cells of the data rows. Every truthy first cell is collected, and the list is empty exactly when none is truthy. |
| `Readers.TruthyKeysSnoc` | apps-script.js:310-312 | Each loop step appends the row's first cell exactly when that cell is truthy. |
| `Readers.NameList` | apps-script.js:304-315 | A sheet without rows, or one with no truthy first-column data cell, yields the fallback list. Otherwise the result is the truthy first-column values in row order. |
| `Readers.GetNames` | apps-script.js:304-315 | The loop shared by the three name readers computes exactly `NameList`. |
| `Readers.GetOperators` | apps-script.js:304-315 | `getOperators` is the name list with the fallback `Operator 1`, `Operator 2`, `Operator 3`. |
| `Readers.GetAnkety` | apps-script.js:342-353 | `getAnkety` is the name list with the eight built-in anketa names as fallback. |
| `Readers.GetAdmins` | apps-script.js:380-391 | `getAdmins` is the name list with the fallback `Admin 1`, `Admin 2`. |
| `Readers.NameListNonEmpty` | apps-script.js:314 | A name reader with a non-empty fallback never returns an empty list. |
| `Readers.AddedNameListed` | apps-script.js:280-315 | After a truthy name is added, the reader lists it and no longer falls back to the defaults. |
| `Gateway.ParseAction` | apps-script.js:25-83 | The switch recognises an action string exactly when it is the name of one of the fourteen actions. A recognised string selects the action with that name. |
| `Gateway.ParseActionName` | apps-script.js:25-80 | Each action's own name selects that action. |
| `Gateway.WithSheet` | apps-script.js:394-400 | `getOrCreateSheet` keeps every existing sheet and inserts the named one, empty, only when it is missing. |
| `Gateway.AddRecordTo` | apps-script.js:112-143 | A record add changes or creates only its own sheet, whose last row is the new row, one more than the sheet had after the header write. |
| `Gateway.UpdateIncomeIn` | apps-script.js:146-174 | An income update may create the income sheet but changes no other sheet and keeps the income sheet's row count. |
| `Gateway.AddNameTo` | apps-script.js:280-289 | A name add changes or creates only its own sheet, and afterwards some data row of it holds the name. |
| `Gateway.DeleteFrom` | apps-script.js:176-178 | A delete never creates a sheet. On a missing sheet it changes nothing, and it touches no other sheet. |
| `Gateway.UnknownActionChangesNothing` | apps-script.js:81-82 | An action outside the fourteen names yields `{status:'error', message:'Unknown action'}` and changes no sheet. |
| `Gateway.WriteActionSucceeds` | apps-script.js:26-80 | Every recognised action except `getAllData` answers success. It changes or creates no sheet but its own table's. |
| `Gateway.ReadAll` | apps-script.js:92-109 | The getAllData body answers with the data object and keeps every existing sheet as it was. |
| `Gateway.Handle` | apps-script.js:17-90 | A request is answered with the error envelope exactly when its action string is not one of the fourteen names, and then no sheet changes. |
| `Gateway.ReadAllReadsFourSheets` | apps-script.js:92-109 | The getAllData body answers with the income, operator, anketa and admin lists read from their sheets. It only inserts the missing ones of those four sheets. |
| `Gateway.GetAllDataReadsFourSheets` | apps-script.js:38-40 | The `getAllData` action answers with those four lists, and payments and penalties are not among them. |
| `Gateway.GetAllDataIgnoresPayments` | apps-script.js:103-108 | The `getAllData` answer does not depend on the payment and penalty sheets. |
| `Gateway.AddIncomeThenGetAllData` | apps-script.js:26-40 | `addIncome` followed by `getAllData` returns the added income as the last record, equal to the payload field for field. |
| `Gateway.AddNameTwiceIsOnce` | apps-script.js:57-76 | Repeating an `addOperator`, `addAnketa` or `addAdmin` request has no further effect. |
| `Spreadsheet.Workbook.GetOrCreateSheet` | apps-script.js:394-400 | Inserts an empty sheet only when the name is missing and returns the sheet's rows. |
| `Spreadsheet.Workbook.AddRecord` | apps-script.js:112-144 | The shared add body leaves the sheets equal to `AddRecordTo`: the lazy header, then one appended row. |
| `Spreadsheet.Workbook.AddIncomeRow` | apps-script.js:112-144 | Appends the 17-column income row after the lazy header. |
| `Spreadsheet.Workbook.AddPaymentRow` | apps-script.js:220-234 | Appends the payment row after the lazy header. |
| `Spreadsheet.Workbook.AddPenaltyRow` | apps-script.js:250-264 | Appends the penalty row after the lazy header. |
| `Spreadsheet.Workbook.UpdateIncomeRow` | apps-script.js:146-174 | The scan loop overwrites the first data row with the id, or writes nothing. The sheet is created when missing, without a header. |
| `Spreadsheet.Workbook.DeleteRow` | apps-script.js:176-187 | The scan loop deletes the first data row with the key. A missing sheet is left missing. |
| `Spreadsheet.Workbook.DeleteIncomeRow` | apps-script.js:176-187 | Delete by id on the income sheet. |
| `Spreadsheet.Workbook.DeletePaymentRow` | apps-script.js:236-247 | Delete by id on the payment sheet. |
| `Spreadsheet.Workbook.DeletePenaltyRow` | apps-script.js:266-277 | Delete by id on the penalty sheet. |
| `Spreadsheet.Workbook.DeleteOperatorRow` | apps-script.js:291-302 | Delete by name on the operator sheet. |
| `Spreadsheet.Workbook.DeleteAnketaRow` | apps-script.js:329-340 | Delete by name on the anketa sheet. |
| `Spreadsheet.Workbook.DeleteAdminRow` | apps-script.js:367-378 | Delete by name on the admin sheet. |
| `Spreadsheet.Workbook.AddNameRow` | apps-script.js:280-289 | Lazy header, then a scan that returns early on an equal name, else one appended one-cell row. |
| `Spreadsheet.Workbook.AddOperatorRow` | apps-script.js:280-289 | Duplicate-checked add on the operator sheet. |
| `Spreadsheet.Workbook.AddAnketaRow` | apps-script.js:318-327 | Duplicate-checked add on the anketa sheet. |
| `Spreadsheet.Workbook.AddAdminRow` | apps-script.js:356-365 | Duplicate-checked add on the admin sheet. |
| `Spreadsheet.Workbook.GetAllData` | apps-script.js:92-109 | Opens or inserts the four sheets and answers with what `ReadAll` specifies. |
| `Spreadsheet.Workbook.DoPost` | apps-script.js:17-90 | The switch leaves the sheets and the response equal to `Handle`. So the dispatch lemmas above hold of the method. |

## Left out

- The `SpreadsheetApp`, `ContentService` and `Logger` calls, and
  `SPREADSHEET_ID`, are host library calls. A sheet is an in-memory sequence of
  rows. `appendRow`, `deleteRow` and `setValues` become the `Workbook` methods
  `AppendRow`, `DeleteRowAt` and `SetRow`.
- `JSON.parse` of the body, the JSON/MIME response and the `catch` branch of
  `doPost` (apps-script.js:19, 85-88) are host plumbing. So a request whose
  payload lacks `sources` or `total` is not modelled: there, the TypeError is
  caught after the income header may already have been written. The request is
  the already-parsed `Request` record, whose payload always carries every
  field.
- JavaScript loose equality (`==` on ids at lines 151, 182, 242 and 272) is
  modelled as ordinary equality of cells, like `===` on names. Coercions such
  as `1 == "1"` are not captured.
- Cell typing by the sheet is not modelled: dates, numbers stored as text,
  non-integer numbers, booleans. A cell is text or an integer. An empty cell
  and an absent payload field are both the empty string (see Payload below).
  The amounts are only stored and returned, never computed with.
- Payload: a field the client leaves out is `undefined` in the script, and
  `undefined` equals no stored cell under `==` or `===`. The model reads it as
  `Text("")`, the same value as a blank cell. So with a missing `id` or
  `name`, the script's delete, income update and name-add scans match no row
  (lines 151, 182, 242, 272, 286, 297, 324, 335, 362 and 373), while the
  model's `DeleteFirst`, `OverwriteFirst` and `AddName` match the first data
  row whose key cell is blank. On a sheet `[['Имя'], [''], ['Ann']]`, a
  `deleteOperator` request without `name` deletes nothing in the script, but
  the model's `DeleteFrom` removes the blank row. An `addOperator` request
  without `name` appends a blank row in the script every time, but in the
  model only when no blank row is there yet. So `AddNameIdempotent`,
  `AddNameTwiceIsOnce` and `AddNameKeepsDistinct` hold for the script only
  when the name is present in the request. Blank keys do occur: the script
  itself writes them when `addIncome` or `addOperator` arrives without the
  field.
- The `try/catch` inside `getIncomes` (lines 196-213) is not modelled.
  Building the record from an in-range row cannot throw, so decoding is total,
  and a short row reads its missing columns as empty cells. In the script that
  holds only within the data range's width: on an income sheet narrower than
  17 columns, which `addIncomeRow` never writes, columns beyond the width read
  as `undefined` (lines 198-209) and the model reads them as empty cells.
- `getLastRow()` is taken as the number of rows. A sheet whose only rows are
  all blank is not distinguished.
- `test()` is left out. So are the HTTP deployment, the host's request
  queuing and concurrency.
