/**
  The status query: `getStatusPrinter({printerName})` checks its argument, builds the record
  of the named printer and rejects with "Printer not found" when the record's name is empty.

  Because the builder copies the requested name into the record before it tries to open the
  printer, that check fires only for the empty name; a printer that does not exist resolves
  with an empty record. `StatusQueryAsWritten` is the query as the program runs it and
  `StatusQuery` the query as designed, which rejects exactly the printers that cannot be
  opened.
*/
module StatusQuery {
  import opened Wrappers
  import opened Spooler
  import opened PrinterDetails
  import opened JsArgs

  const NOT_FOUND := "Printer not found"
  const EXPECTED_OBJECT := "Expected an object with printerName property"
  const NAME_MUST_BE_STRING := "Object must contain printerName as string"

  /**
    The synchronous argument check: the first argument must be an object whose `printerName`
    property holds a string; that string is the name queried. Further arguments are ignored.
  */
  function ParseStatusArgs(args: seq<JsValue>): (r: Result<string, string>)
    ensures r.Success? <==> |args| >= 1 && StringProperty(args[0], "printerName").Some?
    ensures r.Success? ==> r.value == StringProperty(args[0], "printerName").value
    ensures r.Failure? && (|args| == 0 || !IsObject(args[0])) ==> r.error == EXPECTED_OBJECT
    ensures r.Failure? && |args| >= 1 && IsObject(args[0]) ==> r.error == NAME_MUST_BE_STRING
  {
    if |args| < 1 || !IsObject(args[0]) then Failure(EXPECTED_OBJECT)
    else if !Has(args[0], "printerName") || !IsString(Get(args[0], "printerName")) then Failure(NAME_MUST_BE_STRING)
    else Success(Get(args[0], "printerName").text)
  }

  /** The query as written: the record's name decides, and the name is never empty unless asked for. */
  function StatusQueryAsWritten(printerName: string, spooler: Spooler): (r: Result<PrinterInfo, string>)
    ensures r.Failure? <==> printerName == ""
    ensures r.Failure? ==> r.error == NOT_FOUND
    ensures r.Success? ==> r.value == Details(printerName, false, spooler)
  {
    var printer := Details(printerName, false, spooler);
    if printer.name == "" then Failure(NOT_FOUND) else Success(printer)
  }

  /** A printer that does not exist is not reported as not found: it resolves with an empty record. */
  lemma MissingPrinterResolves()
    ensures StatusQueryAsWritten("nonexistent-printer-xyz", map[])
            == Success(PrinterInfo("nonexistent-printer-xyz", false, map[], ""))
  {
  }

  /** The query as designed: it rejects exactly when the printer cannot be opened. */
  function StatusQuery(printerName: string, spooler: Spooler): (r: Result<PrinterInfo, string>)
    ensures r.Failure? <==> printerName !in spooler
    ensures r.Failure? ==> r.error == NOT_FOUND
    ensures r.Success? ==> r.value.name == printerName && !r.value.isDefault
    ensures r.Success? ==> r.value == Details(printerName, false, spooler)
  {
    if printerName in spooler then Success(Details(printerName, false, spooler)) else Failure(NOT_FOUND)
  }

  /** The designed query agrees with the written one on every printer that can be opened, except the empty name. */
  lemma QueriesAgreeOnOpenPrinters(printerName: string, spooler: Spooler)
    requires printerName in spooler && printerName != ""
    ensures StatusQuery(printerName, spooler) == StatusQueryAsWritten(printerName, spooler)
  {
  }

  class GetStatusPrinterWorker {
    const printerName: string
    var printer: PrinterInfo
    var error: Option<string>

    constructor (name: string)
      ensures printerName == name && error == None
    {
      printerName := name;
      printer := Blank("", false);
      error := None;
    }

    /** The worker as written: build the record, then fail if its name is empty. */
    method Execute(spooler: Spooler)
      modifies this
      ensures printer == Details(printerName, false, spooler)
      ensures error == if printer.name == "" then Some(NOT_FOUND) else old(error)
      ensures old(error) == None ==> (error == None <==> StatusQueryAsWritten(printerName, spooler).Success?)
    {
      var info, _ := GetPrinterDetails(printerName, false, spooler);
      printer := info;
      if printer.name == "" {
        error := Some(NOT_FOUND);
      }
    }
  }
}
