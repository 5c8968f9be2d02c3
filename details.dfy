/**
  The detail builder: `GetPrinterDetails` turns a printer name into a `PrinterInfo` record by
  opening the printer, querying its `PRINTER_INFO_2` record, decoding the status and copying
  the non-null descriptive fields into the options map.
*/
module PrinterDetails {
  import opened Wrappers
  import opened PrinterStatus
  import opened Spooler

  /** The four option keys the builder may set. */
  datatype OptionKey = Location | Comment | Driver | Port

  /** The property name each option key has in the record handed to the script. */
  function KeyName(key: OptionKey): string {
    match key
    case Location => "location"
    case Comment => "comment"
    case Driver => "driver"
    case Port => "port"
  }

  /** The record handed back to the script. */
  datatype PrinterInfo = PrinterInfo(
    name: string,
    isDefault: bool,
    options: map<OptionKey, string>,
    status: string)

  /** Distinct keys are distinct property names, so each field lands under its own name. */
  lemma KeyNamesDistinct(a: OptionKey, b: OptionKey)
    ensures KeyName(a) == KeyName(b) <==> a == b
  {
    if a != b {
      assert KeyName(a)[0] != KeyName(b)[0];
    }
  }

  /** The `PRINTER_INFO_2` field each option key is copied from. */
  function Field(info: PrinterInfo2, key: OptionKey): Option<string> {
    match key
    case Location => info.location
    case Comment => info.comment
    case Driver => info.driverName
    case Port => info.portName
  }

  /** The record a freshly constructed `PrinterInfo` holds once name and flag are set. */
  function Blank(printerName: string, isDefault: bool): PrinterInfo {
    PrinterInfo(printerName, isDefault, map[], "")
  }

  /** One insertion step of the builder: the field's value under its key, if the field is non-null. */
  function WithField(options: map<OptionKey, string>, key: OptionKey, field: Option<string>): map<OptionKey, string> {
    if field.Some? then options[key := field.value] else options
  }

  /**
    The options of a queried printer, inserted field by field in the builder's order: exactly
    the non-null descriptive fields, each under its own key.
  */
  function Options(fields: PrinterInfo2): map<OptionKey, string> {
    var withLocation := WithField(map[], Location, fields.location);
    var withComment := WithField(withLocation, Comment, fields.comment);
    var withDriver := WithField(withComment, Driver, fields.driverName);
    WithField(withDriver, Port, fields.portName)
  }

  /** An option key is present exactly when its field is non-null, and then holds that field. */
  lemma OptionsAreNonNullFields(fields: PrinterInfo2, key: OptionKey)
    ensures key in Options(fields) <==> Field(fields, key).Some?
    ensures key in Options(fields) ==> Options(fields)[key] == Field(fields, key).value
  {
    match key
    case Location =>
    case Comment =>
    case Driver =>
    case Port =>
  }

  /**
    What the builder produces: the name and default flag as given; when the printer opened
    and the query returned a record, the decoded status and exactly the non-null fields;
    otherwise an empty status and no options.
  */
  function Details(printerName: string, isDefault: bool, spooler: Spooler): PrinterInfo {
    if printerName in spooler && spooler[printerName].Some? then
      var info := spooler[printerName].value;
      PrinterInfo(printerName, isDefault, Options(info), GetPrinterStatus(info.status))
    else
      Blank(printerName, isDefault)
  }

  /**
    The builder as the program runs it: the name and flag are set first, and only then is the
    printer opened; each non-null field is inserted in turn; the handle is closed on
    every path on which it was opened.
  */
  method GetPrinterDetails(printerName: string, isDefault: bool, spooler: Spooler)
    returns (info: PrinterInfo, calls: seq<SpoolCall>)
    ensures info == Details(printerName, isDefault, spooler)
    ensures calls == if printerName in spooler then [OpenPrinter(printerName), GetPrinterInfo, ClosePrinter]
                     else [OpenPrinter(printerName)]
    ensures ClosedOnceIfOpened(calls, printerName in spooler)
  {
    info := Blank(printerName, isDefault);
    calls := [OpenPrinter(printerName)];
    if printerName in spooler {
      calls := calls + [GetPrinterInfo];
      var query := spooler[printerName];
      if query.Some? {
        var fields := query.value;
        info := info.(status := GetPrinterStatus(fields.status));
        info := info.(options := WithField(info.options, Location, fields.location));
        info := info.(options := WithField(info.options, Comment, fields.comment));
        info := info.(options := WithField(info.options, Driver, fields.driverName));
        info := info.(options := WithField(info.options, Port, fields.portName));
      }
      calls := calls + [ClosePrinter];
    }
    DetailsTraceClosesOnce(printerName);
  }

  lemma DetailsTraceClosesOnce(printerName: string)
    ensures ClosedOnceIfOpened([OpenPrinter(printerName), GetPrinterInfo, ClosePrinter], true)
    ensures ClosedOnceIfOpened([OpenPrinter(printerName)], false)
  {
    assert [OpenPrinter(printerName), GetPrinterInfo, ClosePrinter][1..] == [GetPrinterInfo, ClosePrinter];
    assert [GetPrinterInfo, ClosePrinter][1..] == [ClosePrinter];
  }

  /** The name and the default flag are copied from the arguments on every path. */
  lemma DetailsKeepsIdentity(printerName: string, isDefault: bool, spooler: Spooler)
    ensures Details(printerName, isDefault, spooler).name == printerName
    ensures Details(printerName, isDefault, spooler).isDefault == isDefault
  {
  }

  /** A printer that cannot be opened, or whose query fails, gives an empty status and no options. */
  lemma DetailsOnFailure(printerName: string, isDefault: bool, spooler: Spooler)
    requires printerName !in spooler || spooler[printerName].None?
    ensures Details(printerName, isDefault, spooler).status == ""
    ensures Details(printerName, isDefault, spooler).options == map[]
  {
  }

  /**
    After a successful query the status is the decoded mask, and an option key is present
    exactly when its field is non-null, with that field as its value.
  */
  lemma DetailsOnSuccess(printerName: string, isDefault: bool, spooler: Spooler)
    requires printerName in spooler && spooler[printerName].Some?
    ensures var info := spooler[printerName].value;
            var d := Details(printerName, isDefault, spooler);
            && d.status == GetPrinterStatus(info.status)
            && (forall key :: key in d.options <==> Field(info, key).Some?)
            && (forall key :: key in d.options ==> d.options[key] == Field(info, key).value)
  {
  }

  /** No option is ever an empty placeholder for a field the spooler reported as null. */
  lemma NoPlaceholderOptions(printerName: string, isDefault: bool, spooler: Spooler, key: OptionKey)
    requires printerName in spooler && spooler[printerName].Some?
    requires Field(spooler[printerName].value, key).None?
    ensures key !in Details(printerName, isDefault, spooler).options
  {
  }
}
