/** The dashboard view: the skip-list parser, the default date, the spreadsheet export, and the
    handlers that update the view's state (`result`, `error`, `loading`, `stats`). React state
    setters are field assignments; each `await` splits a handler into the part before the
    request and the part after the response. */
module DashboardView {

  import opened Wrappers
  import opened Strings
  import opened JsValues
  import opened ApiClient

  datatype MealType = Lunch | Dinner {
    function Name(): string {
      match this
      case Lunch => "Lunch"
      case Dinner => "Dinner"
    }
  }

  // ---------------------------------------------------------------- skip list

  /** One piece of the split text, trimmed; nothing when it trims to empty. */
  function CleanPiece(piece: string): seq<string>
  {
    var t := Trim(piece);
    if t == "" then [] else [t]
  }

  /** `.map(s => s.trim()).filter(s => s.length > 0)`. */
  function CleanPieces(pieces: seq<string>): seq<string>
  {
    if pieces == [] then [] else CleanPiece(pieces[0]) + CleanPieces(pieces[1..])
  }

  /** Every cleaned entry is non-empty and trimmed. */
  lemma {:induction false} CleanPiecesEntries(pieces: seq<string>)
    ensures forall i :: 0 <= i < |CleanPieces(pieces)| ==> CleanPieces(pieces)[i] != ""
    ensures forall i :: 0 <= i < |CleanPieces(pieces)| ==> IsTrimmed(CleanPieces(pieces)[i])
  {
    if pieces != [] {
      var head, tail := CleanPiece(pieces[0]), CleanPieces(pieces[1..]);
      TrimIsTrimmed(pieces[0]);
      CleanPiecesEntries(pieces[1..]);
      assert head == [] || (head == [Trim(pieces[0])] && head[0] != "" && IsTrimmed(head[0]));
      var r := CleanPieces(pieces);
      assert r == head + tail;
      forall i | 0 <= i < |r|
        ensures r[i] != "" && IsTrimmed(r[i])
      {
        if i < |head| {
          assert r[i] == head[i];
        } else {
          assert r[i] == tail[i - |head|];
        }
      }
    }
  }

  lemma {:induction false} CleanPiecesConcat(a: seq<string>, b: seq<string>)
    ensures CleanPieces(a + b) == CleanPieces(a) + CleanPieces(b)
  {
    if a != [] {
      assert (a + b)[0] == a[0];
      assert (a + b)[1..] == a[1..] + b;
      CleanPiecesConcat(a[1..], b);
    } else {
      assert a + b == b;
    }
  }

  lemma {:induction false} CleanPiecesKeepsCleanPieces(pieces: seq<string>)
    requires forall i :: 0 <= i < |pieces| ==> pieces[i] != ""
    requires forall i :: 0 <= i < |pieces| ==> IsTrimmed(pieces[i])
    ensures CleanPieces(pieces) == pieces
  {
    if pieces != [] {
      TrimKeepsTrimmed(pieces[0]);
      CleanPiecesKeepsCleanPieces(pieces[1..]);
    }
  }

  lemma {:induction false} CleanPiecesWithout(pieces: seq<string>, c: char)
    requires forall i :: 0 <= i < |pieces| ==> c !in pieces[i]
    ensures forall i :: 0 <= i < |CleanPieces(pieces)| ==> c !in CleanPieces(pieces)[i]
  {
    if pieces != [] {
      TrimSubstring(pieces[0], c);
      CleanPiecesWithout(pieces[1..], c);
    }
  }

  /** The skip list of order numbers typed as comma-separated text: every piece trimmed,
      empty pieces dropped, order and duplicates kept. */
  function ParseSkipList(text: string): seq<string>
  {
    CleanPieces(Split(text, ','))
  }

  /** Every skip entry is non-empty, trimmed and free of commas. */
  lemma ParseSkipListEntries(text: string)
    ensures forall i :: 0 <= i < |ParseSkipList(text)| ==> ParseSkipList(text)[i] != ""
    ensures forall i :: 0 <= i < |ParseSkipList(text)| ==> ',' !in ParseSkipList(text)[i]
    ensures forall i :: 0 <= i < |ParseSkipList(text)| ==> IsTrimmed(ParseSkipList(text)[i])
  {
    CleanPiecesEntries(Split(text, ','));
    SplitPiecesLackSeparator(text, ',');
    CleanPiecesWithout(Split(text, ','), ',');
  }

  /** Every skip entry equals its own trim. */
  lemma SkipEntriesTrimmed(text: string, i: nat)
    requires i < |ParseSkipList(text)|
    ensures Trim(ParseSkipList(text)[i]) == ParseSkipList(text)[i]
  {
    ParseSkipListEntries(text);
    TrimKeepsTrimmed(ParseSkipList(text)[i]);
  }

  lemma ParseSkipListEmpty()
    ensures ParseSkipList("") == []
  {
    assert Split("", ',') == [""];
    assert Trim("") == "";
    assert CleanPieces([""]) == CleanPiece("") + CleanPieces([]);
  }

  /** Parsing the comma-joined skip list gives it back: the parser is idempotent. */
  lemma ParseSkipListIdempotent(text: string)
    ensures ParseSkipList(Join(ParseSkipList(text), ',')) == ParseSkipList(text)
  {
    var skip := ParseSkipList(text);
    if skip == [] {
      assert Join(skip, ',') == "";
      ParseSkipListEmpty();
    } else {
      ParseSkipListEntries(text);
      SplitJoin(skip, ',');
      CleanPiecesKeepsCleanPieces(skip);
    }
  }

  /** Text on either side of a comma is parsed independently, and the results are kept in
      order. */
  lemma ParseSkipListConcat(a: string, b: string)
    ensures ParseSkipList(a + "," + b) == ParseSkipList(a) + ParseSkipList(b)
  {
    SplitConcat(a, b, ',');
    CleanPiecesConcat(Split(a, ','), Split(b, ','));
  }

  // ---------------------------------------------------------------- default date

  /** Today's date as `dd/mm/yyyy` from `getDate()`, `getMonth()` and `getFullYear()`: day and
      1-based month zero-padded to two digits, then the year. */
  function FormatDate(day: nat, monthIndex: nat, year: int): string
    requires 1 <= day <= 31 && monthIndex <= 11
  {
    TwoDigits(day) + "/" + TwoDigits(monthIndex + 1) + "/" + IntToString(year)
  }

  /** The default date reads back as the day, the 1-based month and the year it was built from,
      in fixed positions. */
  lemma FormatDateFields(day: nat, monthIndex: nat, year: int)
    requires 1 <= day <= 31 && monthIndex <= 11
    ensures var s := FormatDate(day, monthIndex, year);
            |s| >= 7 && s[2] == '/' && s[5] == '/' &&
            AllDigits(s[..2]) && DigitsValue(s[..2]) == day &&
            AllDigits(s[3..5]) && DigitsValue(s[3..5]) == monthIndex + 1 &&
            ParseInt(s[6..]) == Some(year)
  {
    TwoDigitsRoundTrip(day);
    TwoDigitsRoundTrip(monthIndex + 1);
    IntToStringRoundTrip(year);
    DateLayout(TwoDigits(day), TwoDigits(monthIndex + 1), IntToString(year));
  }

  /** Where the parts of `dd/mm/yyyy` sit when day and month have two characters each. */
  lemma DateLayout(dd: string, mm: string, yyyy: string)
    requires |dd| == 2 && |mm| == 2
    ensures var s := dd + "/" + mm + "/" + yyyy;
            |s| == 6 + |yyyy| && s[..2] == dd && s[2] == '/' && s[3..5] == mm && s[5] == '/' &&
            s[6..] == yyyy
  {
    var s := dd + "/" + mm + "/" + yyyy;
    assert s[..2] == dd;
    assert s[3..5] == mm;
    assert s[6..] == yyyy;
  }

  // ---------------------------------------------------------------- export

  /** One spreadsheet record, a column per field of an order row. */
  datatype OrderRecord = OrderRecord(
    orderNumber: Value, customerName: Value, phone: Value, address: Value, mealType: Value,
    foodPreference: Value, mealSize: Value, planType: Value, paymentStatus: Value, notes: Value)

  const Headers: seq<string> := ["Order Number", "Customer Name", "Phone", "Address", "Meal Type",
                                 "Food Preference", "Meal Size", "Plan Type", "Payment Status", "Notes"]
  const ColumnWidths: seq<nat> := [20, 20, 15, 35, 12, 15, 12, 20, 15, 25]
  const SheetName := "Kitchen Order List"
  const NoDataAlert := "No data to download"

  /** A record's cells, in column order. */
  function Cells(r: OrderRecord): (cells: seq<Value>)
    ensures |cells| == |Headers| == |ColumnWidths|
  {
    [r.orderNumber, r.customerName, r.phone, r.address, r.mealType,
     r.foodPreference, r.mealSize, r.planType, r.paymentStatus, r.notes]
  }

  /** One order row decoded by position: columns 0-8 as they are, Notes from position 9 or ''
      when that is falsy. Indexing a null or undefined row throws. */
  function Project(order: Value): (r: Option<OrderRecord>)
    ensures r.None? <==> Nullish(order)
    ensures r.Some? ==> forall i :: 0 <= i < 9 ==> Cells(r.value)[i] == Index(order, i).value
    ensures r.Some? ==>
              Cells(r.value)[9] == if Truthy(Index(order, 9).value) then Index(order, 9).value else Str("")
  {
    if Nullish(order) then None
    else
      var notes := Index(order, 9).value;
      Some(OrderRecord(Index(order, 0).value, Index(order, 1).value, Index(order, 2).value,
                       Index(order, 3).value, Index(order, 4).value, Index(order, 5).value,
                       Index(order, 6).value, Index(order, 7).value, Index(order, 8).value,
                       if Truthy(notes) then notes else Str("")))
  }

  /** A complete ten-field row with notes comes back cell for cell. */
  lemma ProjectCompleteRow(items: seq<Value>)
    requires |items| == 10 && Truthy(items[9])
    ensures Project(Arr(items)).Some? && Cells(Project(Arr(items)).value) == items
  {
    var cells := Cells(Project(Arr(items)).value);
    assert forall i :: 0 <= i < 10 ==> cells[i] == items[i];
  }

  /** A nine-field row (no notes) gets an empty Notes cell. */
  lemma ProjectRowWithoutNotes(items: seq<Value>)
    requires |items| == 9
    ensures Project(Arr(items)).Some? && Cells(Project(Arr(items)).value) == items + [Str("")]
  {
    var cells := Cells(Project(Arr(items)).value);
    assert forall i :: 0 <= i < 10 ==> cells[i] == (items + [Str("")])[i];
  }

  /** `orders.map(...)`: one record per order, in order; `None` when some order throws. */
  function ProjectAll(orders: seq<Value>): Option<seq<OrderRecord>>
  {
    if orders == [] then Some([])
    else
      match (Project(orders[0]), ProjectAll(orders[1..]))
      case (Some(first), Some(rest)) => Some([first] + rest)
      case _ => None
  }

  /** The projection succeeds exactly when no order is null or undefined, and then yields one
      record per order, each the projection of the order at the same position. */
  lemma {:induction false} ProjectAllRecords(orders: seq<Value>)
    ensures ProjectAll(orders).Some? <==> forall i :: 0 <= i < |orders| ==> !Nullish(orders[i])
    ensures ProjectAll(orders).Some? ==>
              |ProjectAll(orders).value| == |orders| &&
              forall i :: 0 <= i < |orders| ==> Project(orders[i]) == Some(ProjectAll(orders).value[i])
  {
    if orders != [] {
      var rest := orders[1..];
      ProjectAllRecords(rest);
      assert forall i :: 1 <= i < |orders| ==> orders[i] == rest[i - 1];
      if ProjectAll(orders).Some? {
        var r := ProjectAll(orders).value;
        assert r == [Project(orders[0]).value] + ProjectAll(rest).value;
        forall i | 0 <= i < |orders|
          ensures Project(orders[i]) == Some(r[i])
        {
          if i > 0 {
            assert r[i] == ProjectAll(rest).value[i - 1];
          }
        }
      } else if Project(orders[0]).Some? {
        var k :| 0 <= k < |rest| && Nullish(rest[k]);
        assert Nullish(orders[k + 1]);
      }
    }
  }

  /** `Kitchen_List_<date with every '/' replaced by '-'>_<mealType>.xlsx`. */
  function ExportFilename(date: string, mealType: string): (name: string)
    ensures '/' !in mealType ==> '/' !in name
  {
    ReplaceCharRemoves(date, '/', '-');
    "Kitchen_List_" + ReplaceChar(date, '/', '-') + "_" + mealType + ".xlsx"
  }

  /** What `XLSX.writeFile` receives: a one-sheet workbook and the file name. */
  datatype Workbook = Workbook(sheetName: string, headers: seq<string>, rows: seq<OrderRecord>,
                               columnWidths: seq<nat>)

  datatype ExportOutcome =
    | NoData(alert: string)            // `alert(...)` and nothing written
    | ExportFailed                     // the projection threw
    | Exported(workbook: Workbook, filename: string)

  /** `result.orders`, for a truthy `result`. */
  function OrdersOf(result: Value): Value
    requires Truthy(result)
  {
    Member(result, "orders").value
  }

  /** `handleDownloadExcel`: nothing is written unless `result` and `result.orders` are truthy
      (an empty orders array passes); otherwise one record per order, in order, on the one
      sheet, with the fixed column widths and the date-and-meal file name. */
  function Export(result: Value, date: string, mealType: string): (o: ExportOutcome)
    ensures o.NoData? <==> !Truthy(result) || !Truthy(OrdersOf(result))
    ensures o.NoData? ==> o.alert == NoDataAlert
    ensures o.Exported? ==>
              o.workbook.sheetName == SheetName && o.workbook.headers == Headers &&
              o.workbook.columnWidths == ColumnWidths &&
              o.filename == ExportFilename(date, mealType) &&
              OrdersOf(result).Arr? &&
              |o.workbook.rows| == |OrdersOf(result).items| &&
              forall i :: 0 <= i < |o.workbook.rows| ==>
                Project(OrdersOf(result).items[i]) == Some(o.workbook.rows[i])
    ensures o.ExportFailed? <==>
              Truthy(result) && Truthy(OrdersOf(result)) &&
              (!OrdersOf(result).Arr? || exists i :: 0 <= i < |OrdersOf(result).items| &&
                                                     Nullish(OrdersOf(result).items[i]))
  {
    if !Truthy(result) then NoData(NoDataAlert)
    else
      var orders := OrdersOf(result);
      if !Truthy(orders) then NoData(NoDataAlert)
      else if !orders.Arr? then ExportFailed
      else
        ProjectAllRecords(orders.items);
        match ProjectAll(orders.items)
        case None => ExportFailed
        case Some(rows) =>
          Exported(Workbook(SheetName, Headers, rows, ColumnWidths), ExportFilename(date, mealType))
  }

  /** An empty orders array is not rejected: it exports a sheet with no rows. */
  lemma ExportEmptyOrders(date: string, mealType: string)
    ensures Export(Obj([Field("orders", Arr([]))]), date, mealType) ==
            Exported(Workbook(SheetName, Headers, [], ColumnWidths), ExportFilename(date, mealType))
  {
    assert OrdersOf(Obj([Field("orders", Arr([]))])) == Arr([]);
  }

  // ---------------------------------------------------------------- responses

  /** `response.success` is truthy; reading it from a null response throws instead. */
  predicate Succeeded(response: Value)
  {
    !Nullish(response) && Truthy(Member(response, "success").value)
  }

  /** `loadStats`: the stats become `response.data` only on a successful response; a
      `success: false` response or a thrown error leaves them as they were. */
  function StatsAfter(previous: Value, response: Result<Value, string>): (stats: Value)
    ensures response.Failure? ==> stats == previous
    ensures response.Success? && !Succeeded(response.value) ==> stats == previous
    ensures response.Success? && Succeeded(response.value) ==> stats == Member(response.value, "data").value
  {
    match response
    case Success(r) => if Succeeded(r) then Member(r, "data").value else previous
    case Failure(_) => previous
  }

  const GenerateFailedDefault := "Failed to generate kitchen list"
  const GenericError := "An error occurred"
  /** The TypeError text for reading `success` of a null response. */
  const NullResponseError := "Cannot read properties of null (reading 'success')"

  datatype GenerateOutcome = Generated(data: Value) | GenerateFailed(message: string)

  /** The message of `new Error(response.error || 'Failed to generate kitchen list')`. */
  function RejectionMessage(response: Value): (m: string)
    requires !Nullish(response)
    ensures Member(response, "error").value.Str? && Member(response, "error").value.s != "" ==>
              m == Member(response, "error").value.s
    ensures !Truthy(Member(response, "error").value) ==> m == GenerateFailedDefault
  {
    var e := Member(response, "error").value;
    ToJsString(if Truthy(e) then e else Str(GenerateFailedDefault))
  }

  /** How `handleGenerateList` settles: the response data on success; otherwise a message,
      which is never empty. */
  function GenerateOutcomeOf(response: Result<Value, string>): (g: GenerateOutcome)
    ensures g.Generated? <==> response.Success? && Succeeded(response.value)
    ensures g.Generated? ==> g.data == Member(response.value, "data").value
    ensures g.GenerateFailed? ==> g.message != ""
    ensures response.Failure? && response.error != "" ==> g == GenerateFailed(response.error)
    ensures response.Success? && !Nullish(response.value) && !Succeeded(response.value) ==>
              g == GenerateFailed(OrDefault(RejectionMessage(response.value), GenericError))
  {
    match response
    case Failure(m) => GenerateFailed(OrDefault(m, GenericError))
    case Success(r) =>
      if Nullish(r) then GenerateFailed(NullResponseError)
      else if Succeeded(r) then Generated(Member(r, "data").value)
      else GenerateFailed(OrDefault(RejectionMessage(r), GenericError))
  }

  /** A gateway failure reaches the operator with the gateway's own message. */
  lemma GatewayErrorsShownVerbatim(store: ApiClient.CredentialStore, op: Operation, t: Transport)
    requires store.Invoke(op, t).outcome.Failure?
    ensures GenerateOutcomeOf(store.Invoke(op, t).outcome) == GenerateFailed(store.Invoke(op, t).outcome.error)
  {
  }

  /** A rejection without an `error` property shows the default text. */
  lemma RejectionWithoutError(fields: seq<Field>)
    requires "error" !in Keys(fields) && !Truthy(Member(Obj(fields), "success").value)
    ensures GenerateOutcomeOf(Success(Obj(fields))) == GenerateFailed(GenerateFailedDefault)
  {
  }

  /** `{success: false}` shows `Failed to generate kitchen list`. */
  lemma PlainRejection()
    ensures GenerateOutcomeOf(Success(Obj([Field("success", Bool(false))]))) ==
            GenerateFailed(GenerateFailedDefault)
  {
    RejectionWithoutError([Field("success", Bool(false))]);
  }

  /** A response without a `success` property counts as a failure: the stats stay as they
      were and no list is generated. */
  lemma ResponseWithoutSuccess(previous: Value, fields: seq<Field>)
    requires "success" !in Keys(fields)
    ensures StatsAfter(previous, Success(Obj(fields))) == previous
    ensures GenerateOutcomeOf(Success(Obj(fields))).GenerateFailed?
  {
  }

  /** The request `handleGenerateList` sends for the current form state. */
  function GenerateRequest(date: string, mealType: MealType, skipOrders: string): Operation
  {
    GenerateKitchenList(date, mealType.Name(), Some(ParseSkipList(skipOrders)))
  }

  // ---------------------------------------------------------------- the view

  class Dashboard {
    const store: CredentialStore
    var date: string
    var mealType: MealType
    var skipOrders: string
    var loading: bool
    var result: Value
    var error: string
    var stats: Value
    /** The view's calls into the store and of `onLogout`, in the order they were made. */
    ghost var events: seq<ViewEvent>

    constructor (store: CredentialStore)
      ensures this.store == store
      ensures date == "" && mealType == Lunch && skipOrders == ""
      ensures !loading && result == Null && error == "" && stats == Null && events == []
    {
      this.store := store;
      date, mealType, skipOrders := "", Lunch, "";
      loading, result, error, stats := false, Null, "", Null;
      events := [];
    }

    /** The mount effect: the default date, then `loadStats()`. */
    method Mount(day: nat, monthIndex: nat, year: int, t: Transport)
      requires 1 <= day <= 31 && monthIndex <= 11
      modifies this`date, this`stats
      ensures date == FormatDate(day, monthIndex, year)
      ensures stats == StatsAfter(old(stats), store.Invoke(GetDashboardStats, t).outcome)
    {
      date := FormatDate(day, monthIndex, year);
      LoadStats(t);
    }

    method LoadStats(t: Transport)
      modifies this`stats
      ensures stats == StatsAfter(old(stats), store.Invoke(GetDashboardStats, t).outcome)
      ensures store.Invoke(GetDashboardStats, t).outcome.Failure? ==> stats == old(stats)
    {
      var response := store.Invoke(GetDashboardStats, t).outcome;
      stats := StatsAfter(stats, response);
    }

    /** `handleGenerateList` up to the request: clears the error and the result, sets
        `loading`, and builds the request from the form. */
    method BeginGenerate() returns (op: Operation)
      modifies this`error, this`loading, this`result
      ensures error == "" && loading && result == Null
      ensures op == GenerateRequest(date, mealType, skipOrders)
    {
      error := "";
      loading := true;
      result := Null;
      op := GenerateRequest(date, mealType, skipOrders);
    }

    /** `handleGenerateList` after the response: the result on success, the error otherwise,
        and `loading` cleared in every outcome. */
    method FinishGenerate(response: Result<Value, string>)
      modifies this`result, this`error, this`loading
      ensures !loading
      ensures GenerateOutcomeOf(response).Generated? ==>
                result == GenerateOutcomeOf(response).data && error == old(error)
      ensures GenerateOutcomeOf(response).GenerateFailed? ==>
                result == old(result) && error == GenerateOutcomeOf(response).message
    {
      match GenerateOutcomeOf(response) {
        case Generated(data) => result := data;
        case GenerateFailed(message) => error := message;
      }
      loading := false;
    }

    method HandleGenerateList(t: Transport)
      modifies this`result, this`error, this`loading
      ensures !loading
      ensures var g := GenerateOutcomeOf(store.Invoke(GenerateRequest(date, mealType, skipOrders), t).outcome);
              result == (if g.Generated? then g.data else Null) &&
              error == (if g.GenerateFailed? then g.message else "")
    {
      var op := BeginGenerate();
      var response := store.Invoke(op, t).outcome;
      ghost var g := GenerateOutcomeOf(response);
      FinishGenerate(response);
      assert g.GenerateFailed? ==> result == Null && error == g.message;
    }

    /** `handleLogout`: clears the credentials, then signals the parent. */
    method HandleLogout()
      modifies this`events, store
      ensures store.token == "" && store.baseUrl == old(store.baseUrl)
      ensures store.storage ==
                if store.hasWindow then old(store.storage) - {TokenKey, UrlKey} else old(store.storage)
      ensures store.GetApiToken() == None && store.GetApiUrl() == None
      ensures store.calls == old(store.calls) + [Cleared]
      ensures events == old(events) + [Stored(Cleared), Signalled]
    {
      store.ClearApiToken();
      events := events + [Stored(Cleared)];
      events := events + [Signalled];
    }

    method HandleDownloadExcel() returns (o: ExportOutcome)
      ensures o == Export(result, date, mealType.Name())
      ensures o.NoData? <==> !Truthy(result) || !Truthy(OrdersOf(result))
    {
      o := Export(result, date, mealType.Name());
    }
  }
}
