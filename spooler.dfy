/**
  The print spooler as the model sees it: a snapshot of which printers can be opened and what
  a level-2 `GetPrinter` query reports for each, and the calls an operation makes on it.
*/
module Spooler {
  import opened Wrappers
  import opened PrinterStatus
  import opened Utf8

  /**
    The fields of `PRINTER_INFO_2` the program reads; `None` stands for a null pointer.
  */
  datatype PrinterInfo2 = PrinterInfo2(
    status: DWord,
    location: Option<string>,
    comment: Option<string>,
    driverName: Option<string>,
    portName: Option<string>)

  /**
    The spooler during one operation. A name is a key exactly when `OpenPrinter` succeeds on
    it; its value is the `PRINTER_INFO_2` record that the size probe and the fill call of
    `GetPrinter` return together, or `None` when the probe reports zero bytes or the fill
    call fails.
  */
  type Spooler = map<string, Option<PrinterInfo2>>

  /** The spooler calls an operation makes, in order. */
  datatype SpoolCall =
    | OpenPrinter(printerName: string)
    | GetPrinterInfo
    | StartDocPrinter(docName: string, dataType: string)
    | StartPagePrinter
    | WritePrinter(bytes: seq<byte>)
    | EndPagePrinter
    | EndDocPrinter
    | ClosePrinter

  /**
    The handle discipline: when the open succeeded (`handleOpened`), the handle is closed
    exactly once and as the last call; when it failed, nothing is closed.
  */
  ghost predicate ClosedOnceIfOpened(calls: seq<SpoolCall>, handleOpened: bool) {
    if handleOpened then multiset(calls)[ClosePrinter] == 1 && calls[|calls| - 1] == ClosePrinter
    else ClosePrinter !in calls
  }
}
