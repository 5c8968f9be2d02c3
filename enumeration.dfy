/**
  Enumeration and default-printer lookup: `GetPrintersWorker` lists the local and connected
  printers and builds one record per printer, and `GetDefaultPrinterWorker` builds the
  record of the system default printer.
*/
module Enumeration {
  import opened Wrappers
  import opened Spooler
  import opened PrinterDetails

  /**
    The records enumeration produces for a list of printer names: one per name, in order,
    each flagged as default exactly when its name equals `defaultName`.
  */
  function Records(names: seq<string>, defaultName: string, spooler: Spooler): (r: seq<PrinterInfo>)
    ensures |r| == |names|
    ensures forall i :: 0 <= i < |names| ==> r[i] == Details(names[i], names[i] == defaultName, spooler)
  {
    if names == [] then []
    else [Details(names[0], names[0] == defaultName, spooler)] + Records(names[1..], defaultName, spooler)
  }

  /** Records come in enumeration order, and carry the enumerated names. */
  lemma RecordsFollowNames(names: seq<string>, defaultName: string, spooler: Spooler)
    ensures forall i :: 0 <= i < |names| ==> Records(names, defaultName, spooler)[i].name == names[i]
  {
  }

  /**
    Exactly the records whose name equals the default-printer snapshot are flagged; if that
    name is not enumerated, no record is.
  */
  lemma DefaultFlaggedExactly(names: seq<string>, defaultName: string, spooler: Spooler)
    ensures var r := Records(names, defaultName, spooler);
            forall i :: 0 <= i < |r| ==> (r[i].isDefault <==> r[i].name == defaultName)
    ensures defaultName !in names
            ==> forall p :: p in Records(names, defaultName, spooler) ==> !p.isDefault
  {
    var r := Records(names, defaultName, spooler);
    forall p | p in r
      ensures p.isDefault ==> p.name in names
    {
      var i :| 0 <= i < |r| && r[i] == p;
    }
  }

  /** Records extend one name at a time, which is how the loop builds them. */
  lemma RecordsSnoc(names: seq<string>, n: string, defaultName: string, spooler: Spooler)
    ensures Records(names + [n], defaultName, spooler)
            == Records(names, defaultName, spooler) + [Details(n, n == defaultName, spooler)]
  {
    var lhs := Records(names + [n], defaultName, spooler);
    var rhs := Records(names, defaultName, spooler) + [Details(n, n == defaultName, spooler)];
    assert forall i :: 0 <= i < |lhs| ==> lhs[i] == rhs[i] by {
      forall i | 0 <= i < |lhs|
        ensures lhs[i] == rhs[i]
      {
        if i < |names| {
          assert (names + [n])[i] == names[i];
        }
      }
    }
  }

  /** The records of one more name of the listing are the records so far and that name's record. */
  lemma RecordsPrefixStep(names: seq<string>, i: nat, defaultName: string, spooler: Spooler)
    requires i < |names|
    ensures Records(names[..i + 1], defaultName, spooler)
            == Records(names[..i], defaultName, spooler) + [Details(names[i], names[i] == defaultName, spooler)]
  {
    assert names[..i + 1] == names[..i] + [names[i]];
    RecordsSnoc(names[..i], names[i], defaultName, spooler);
  }

  class GetPrintersWorker {
    var printers: seq<PrinterInfo>

    constructor ()
      ensures printers == []
    {
      printers := [];
    }

    /**
      `listing` is what `EnumPrinters` yields for local and connected printers: `None` when
      the size probe reports zero bytes or the fill call fails, otherwise the names of the
      returned entries in order. `defaultName` is what `GetDefaultPrinter` stored before the
      loop. One record is appended per name.
    */
    method Execute(listing: Option<seq<string>>, defaultName: string, spooler: Spooler)
      modifies this
      ensures listing.None? ==> printers == old(printers)
      ensures listing.Some? ==> printers == old(printers) + Records(listing.value, defaultName, spooler)
    {
      if listing.Some? {
        var names := listing.value;
        for i := 0 to |names|
          invariant printers == old(printers) + Records(names[..i], defaultName, spooler)
        {
          var info, _ := GetPrinterDetails(names[i], names[i] == defaultName, spooler);
          RecordsPrefixStep(names, i, defaultName, spooler);
          printers := printers + [info];
        }
        assert names[..|names|] == names;
      }
    }
  }

  const DEFAULT_PRINTER_ERROR := "Failed to get default printer"

  class GetDefaultPrinterWorker {
    var printer: PrinterInfo
    var error: Option<string>

    constructor ()
      ensures error == None
    {
      printer := Blank("", false);
      error := None;
    }

    /**
      `defaultName` is what `GetDefaultPrinter` yields: `None` when the call fails. On success
      the worker holds the details of that printer, flagged as default; otherwise it fails.
    */
    method Execute(defaultName: Option<string>, spooler: Spooler)
      modifies this
      ensures defaultName.Some? ==> printer == Details(defaultName.value, true, spooler) && error == old(error)
      ensures defaultName.None? ==> printer == old(printer) && error == Some(DEFAULT_PRINTER_ERROR)
    {
      if defaultName.Some? {
        var info, _ := GetPrinterDetails(defaultName.value, true, spooler);
        printer := info;
      } else {
        error := Some(DEFAULT_PRINTER_ERROR);
      }
    }
  }
}
