# printer-node-electron: the print-spooler façade, modelled in Dafny

The module lets a script enumerate the printers, look up the default one, query one
printer's status and submit a raw print job. The work happens in `src/print.cpp`,
which has four pieces of decision logic on top of the Windows spooler calls:

- the **status decoder**. It maps a `PRINTER_INFO_2.Status` bitmask to one label. It tests
  twenty `PRINTER_STATUS_*` flags in a fixed order and the first flag set wins. If none is
  set, the label is `"ready"`.
- the **detail builder**. It builds a `PrinterInfo` record (name, default flag, status,
  options) for one printer name.
- the **enumeration, default-printer and status-query workers**. They build records for
  every enumerated printer, for the default printer, or for one requested name.
- the **`printDirect` argument check and its worker**. The check turns the script's
  arguments into a job request or a type error. The worker opens the printer, starts a
  document and a page, writes the payload, ends both and closes the printer.

Every operating-system call is a parameter. A `Spooler` is a snapshot map from the printer
names that `OpenPrinter` accepts to the `PRINTER_INFO_2` fields a level-2 `GetPrinter`
query returns for each one. A missing value means the query returned nothing. Three other
values are parameters too: the enumeration listing, the default-printer name and the
answer of `StartDocPrinter`. Operations that call the spooler record that as a sequence of
`SpoolCall`s, so the handle discipline can be stated. Script argument values are the
`JsValue` datatype. Strings reach the spooler as their UTF-8 bytes. A decoder is included
only to prove that this encoding loses nothing.

Modules and files:

- `Wrappers` (wrappers.dfy): `Option`, `Result`.
- `PrinterStatus` (status.dfy): the flag constants, with the values from `winspool.h`; the
  decoder; the priority table.
- `Utf8` (utf8.dfy): bytes, UTF-8 encoding and decoding.
- `Spooler` (spooler.dfy): the oracle, the call trace, the rule that a handle is closed once.
- `PrinterDetails` (details.dfy): `PrinterInfo` and the detail builder. The four option
  keys are an enumeration, `OptionKey`, and `KeyName` gives the property name of each.
- `Enumeration` (enumeration.dfy): `GetPrintersWorker` and `GetDefaultPrinterWorker`.
- `JsArgs` (js_args.dfy): script values.
- `StatusQuery` (status_query.dfy): the `getStatusPrinter` argument check and its worker.
- `PrintDirect` (print_direct.dfy): the `printDirect` argument check, `PrintDirectWorker`
  and the entry point.

Enumeration returns an empty list when the `EnumPrinters` fill call fails; it reports no
error. The status query does not reject a printer that cannot be opened (see Findings).

`WritePrinter` receives the payload's size narrowed to a 32-bit `DWORD`, so the model
records the bytes actually handed over: the payload cut to its size modulo 2^32.

## Model

`PrinterDetails.Details` (the record the builder produces) and `PrinterStatus.FirstMatchFrom`
(the walk over the priority table) are the definitions the lemmas below speak about; `GetPrinterDetails` and `PrintDirectWorker.Execute` are the
step-by-step operations proved equal to `Details` and `JobCalls`.

| member | source | states |
|---|---|---|
| `PrinterStatus.GetPrinterStatus` | src/print.cpp:22-44 | The label is "ready" exactly when none of the twenty decoded flag bits (mask 0x007FFEFA) is set. |
| `PrinterStatus.FirstSetFrom` | src/print.cpp:22-42 | Gives the position of the first listed flag set at or after `i`, or the length of the list when there is none. No earlier listed flag is set. |
| `PrinterStatus.DecoderMatchesTable` | src/print.cpp:22-44 | The chain of twenty tests agrees on every mask with a walk over the priority table (flag, label) in the listed order. |
| `PrinterStatus.FirstMatchFromIsFirstSet` | src/print.cpp:22-44 | The table walk from any position reports the label of the first set flag, or "ready". |
| `PrinterStatus.DecodesFirstSetFlag` | src/print.cpp:22-44 | For every mask, the decoder returns the label of the earliest listed flag that is set, or "ready" when none is. |
| `PrinterStatus.EarliestFlagWins` | src/print.cpp:23-42 | The decoder returns the label of flag k if and only if flag k is set and no flag before it in the list is set. |
| `PrinterStatus.ReadyWhenNoFlagSet` | src/print.cpp:22-43 | The decoder returns "ready" if and only if none of the twenty listed flags is set. |
| `PrinterStatus.OfflineThenError` | src/print.cpp:23-24 | OFFLINE set gives "offline" whatever else is set. ERROR set without OFFLINE gives "error". |
| `PrinterStatus.UndecodedFlagsReadReady` | src/print.cpp:22-43 | Mask 0, and the flags the decoder does not list (paused, pending deletion, I/O active, server unknown, power save), all read "ready". |
| `PrinterStatus.LabelsDistinct` | src/print.cpp:23-42 | The twenty labels are pairwise different, so a label identifies its flag. |
| `PrinterStatus.LabelsDistinctFromReady` | src/print.cpp:23-43 | No flag's label is "ready". |
| `Utf8.Encode` | src/print.cpp:245-246 | The UTF-8 form of a string has between 1 and 4 bytes per character. |
| `Utf8.EncodeChar` | src/print.cpp:245-246 | One character becomes 1 to 4 bytes. It becomes one byte, equal to its code, exactly when it is ASCII. The later bytes are continuation bytes. |
| `Utf8.DecodeEncode` | src/print.cpp:245-246 | Round trip: decoding the bytes of a string's UTF-8 form gives the string back. |
| `Utf8.DecodeFirstIsEncodeChar` | src/print.cpp:245-246 | The bytes accepted for one character are exactly its shortest UTF-8 form. |
| `Utf8.EncodeDecode` | src/print.cpp:245-246 | Round trip the other way: any byte sequence the decoder accepts is the UTF-8 form of the string it yields, so the UTF-8 form is the only encoding of a string. |
| `Utf8.OverlongRefused` | src/print.cpp:245-246 | Overlong forms, such as NUL in two bytes or "A" in three, are not UTF-8. |
| `Utf8.DecodeFirstEncodeChar` | src/print.cpp:245-246 | The first character of an encoding is decoded back, whatever bytes follow it. |
| `Utf8.EncodeInjective` | src/print.cpp:264-266 | Different strings are never sent as the same bytes. |
| `Utf8.AsciiOneForOne` | src/print.cpp:264-266 | An ASCII string is copied one byte per character, byte i being character i. |
| `PrinterDetails.GetPrinterDetails` | src/print.cpp:46-75 | Setting name and flag first, then status and the non-null fields in turn, yields the `Details` record. The calls are `OpenPrinter` alone when the open fails, and open, query, close otherwise, so an opened handle is closed exactly once. |
| `PrinterDetails.KeyNamesDistinct` | src/print.cpp:64-67 | The four option keys have four different property names ("location", "comment", "driver", "port"), so no field overwrites another. |
| `PrinterDetails.OptionsAreNonNullFields` | src/print.cpp:64-67 | After the four conditional insertions, a key is present exactly when its `PRINTER_INFO_2` field is non-null, and its value is that field. |
| `PrinterDetails.DetailsTraceClosesOnce` | src/print.cpp:52-72 | Both traces of the builder keep the handle discipline. |
| `PrinterDetails.DetailsKeepsIdentity` | src/print.cpp:47-49 | The record's name is the requested name and its default flag is the argument, on every path, including a failed open. |
| `PrinterDetails.DetailsOnFailure` | src/print.cpp:52-58 | When the open fails or the query returns nothing, the status is "" and the options are empty. |
| `PrinterDetails.DetailsOnSuccess` | src/print.cpp:58-67 | After a successful query, the status is the decoded mask. A key is present exactly when its field is non-null, and its value is that field. |
| `PrinterDetails.NoPlaceholderOptions` | src/print.cpp:64-67 | A field reported as null never appears as an option key. |
| `Enumeration.Records` | src/print.cpp:100-103 | One record per enumerated name, in order. Record i is the details of name i, flagged default exactly when it equals the default name. |
| `Enumeration.RecordsFollowNames` | src/print.cpp:100-103 | Record i carries the i-th enumerated name. |
| `Enumeration.DefaultFlaggedExactly` | src/print.cpp:95-102 | A record is flagged default exactly when its name equals the default-name snapshot. If that name is not enumerated, no record is flagged. |
| `Enumeration.RecordsSnoc` | src/print.cpp:100-103 | Adding one name at the end adds its record at the end. |
| `Enumeration.RecordsPrefixStep` | src/print.cpp:100-103 | The records of the first i+1 names are those of the first i names followed by the record of name i, which is what one loop iteration appends. |
| `Enumeration.GetPrintersWorker.Execute` | src/print.cpp:85-107 | A listing that fails (size 0 or fill failure) leaves the printer list unchanged. Otherwise the loop appends exactly `Records(names, defaultName, spooler)`. |
| `Enumeration.GetDefaultPrinterWorker.Execute` | src/print.cpp:140-149 | When the default name is found, the worker holds its details flagged default. Otherwise it fails with "Failed to get default printer" and leaves the record unchanged. |
| `StatusQuery.ParseStatusArgs` | src/print.cpp:383-399 | Accepts exactly when the first argument is an object whose `printerName` holds a string, and yields that string. Otherwise it gives "Expected an object with printerName property" for a missing or non-object argument, and "Object must contain printerName as string" for an object. |
| `StatusQuery.StatusQueryAsWritten` | src/print.cpp:354-359 | As written: fails with "Printer not found" exactly when the requested name is empty. Otherwise it yields the details record. |
| `StatusQuery.MissingPrinterResolves` | src/print.cpp:48-52 | A query for "nonexistent-printer-xyz" on a spooler that opens nothing resolves with an empty record instead of failing. |
| `StatusQuery.StatusQuery` | src/print.cpp:354-359 | Corrected query: fails with "Printer not found" exactly when the printer cannot be opened. Otherwise it yields the details record of the requested name, not flagged default, with its decoded status and options. |
| `StatusQuery.QueriesAgreeOnOpenPrinters` | src/print.cpp:354-359 | The corrected and written queries agree on every printer that opens and has a non-empty name. |
| `StatusQuery.GetStatusPrinterWorker.Execute` | src/print.cpp:354-359 | The worker holds the details of its name. It fails with "Printer not found" exactly when the record's name is empty, matching `StatusQueryAsWritten`. |
| `PrintDirect.ParsePrintDirect` | src/print.cpp:226-275 | The argument check. A type error carries one of its three messages. The unspecified case arises only for a single object argument. An accepted call has at least one argument. The lemmas `ObjectForm`, `PositionalForm`, `NeitherForm`, `DataTypeDefault` and `StringDataIsUtf8` state each form. |
| `PrintDirect.ObjectForm` | src/print.cpp:226-254 | A single object argument without `printerName` or `data` is a type error. It is accepted exactly when `printerName` is a string and `data` is a string or a buffer, and the job carries those values and the data type. It is unspecified exactly when both are present but `printerName` is not a string. A string `printerName` with `data` that is neither a string nor a buffer gives the type error "data must be string or buffer". |
| `PrintDirect.PositionalForm` | src/print.cpp:256-275 | With two or more arguments, the call is accepted exactly when the first is a string and the second a string or a buffer. Otherwise it gives the usage type error. The job carries the name, the payload and the data type of a string third argument. |
| `PrintDirect.NeitherForm` | src/print.cpp:226-275 | No arguments, or one argument that is not an object, give the usage type error. |
| `PrintDirect.StringDataIsUtf8` | src/print.cpp:264-266 | Positional string data becomes exactly its UTF-8 bytes, and those bytes decode back to the string. |
| `PrintDirect.DataTypeDefault` | src/print.cpp:223-262 | An accepted job's data type is "RAW" unless a string was supplied: the `dataType` property in object form, the third argument in positional form. |
| `PrintDirect.WrittenBytes` | src/print.cpp:196-197 | The bytes handed to `WritePrinter` are a prefix of the payload: all of it below 4 GiB, none of it at exactly 4 GiB, because the size is narrowed to 32 bits. |
| `PrintDirect.JobCalls` | src/print.cpp:180-209 | The first call is `OpenPrinter` on the job's name. A failed open makes no further call. An opened printer gets StartDocPrinter with the document name and data type. |
| `PrintDirect.JobReleasesHandle` | src/print.cpp:183-205 | When the open succeeded, `ClosePrinter` occurs exactly once and last, whether or not StartDocPrinter succeeded. When the open failed, it never occurs. |
| `PrintDirect.JobWritesPayloadOnce` | src/print.cpp:193-199 | `WritePrinter` of the narrowed payload occurs exactly once when the open and the document start succeed, and never otherwise. |
| `PrintDirect.JobWritesOnlyPayload` | src/print.cpp:196-197 | Every `WritePrinter` call of a job carries the job's payload, narrowed as `WrittenBytes` says. |
| `PrintDirect.PrintDirectWorker.Execute` | src/print.cpp:180-209 | The calls made are `JobCalls`. A failed open gives "Failed to open printer". A failed document start gives "Failed to start document printing". Otherwise the result is "Print job created successfully". The calls made before the worker ran are kept. |
| `PrintDirect.PrintDirect` | src/print.cpp:218-296 | A type error is thrown and no worker exists, so no spooler call is made. An accepted call creates a fresh worker for exactly the parsed request, and that worker has made no call yet, holds no error and has an empty result. |

## Findings

| source | as written | input that shows it | evidently intended | confidence | as-written member | corrected member |
|---|---|---|---|---|---|---|
| src/print.cpp:48 | The record's name is set from the argument before `OpenPrinter` is tried. So the "Printer not found" check at line 356 fires only for the empty name. | `getStatusPrinter({printerName: "nonexistent-printer-xyz"})` with `OpenPrinter` failing: it resolves with `{name: "nonexistent-printer-xyz", status: "", options: {}}` | Reject with "Printer not found" when the printer cannot be opened | not executed; high: the empty-name test has no other use | `StatusQuery.MissingPrinterResolves` | `StatusQuery.StatusQuery` |

`GetStatusPrinterWorker.Execute` keeps the behaviour as written, because it models the program.
`StatusQuery.StatusQuery` is the corrected definition.

## Left out

- The script-runtime glue is not modelled: the `OnOK` methods, building the result objects,
  the promise callbacks, and queueing and running workers on a background thread. The entry
  point is modelled only up to creating the worker.
- The WinSpool functions are not modelled. `OpenPrinter`, `GetPrinter`, `EnumPrinters`,
  `GetDefaultPrinter` and `StartDocPrinter` are oracle parameters.
- `GetPrinter` is called once to get the size and once to fill the buffer. The model records
  one `GetPrinterInfo` call for both.
- The return values of `StartPagePrinter`, `WritePrinter`, `EndPagePrinter` and
  `EndDocPrinter` are ignored by the program. The model records only the calls, and it does
  not model `bytesWritten`.
- The memory details are not modelled: raw buffer casts, `new[]`/`delete[]`, and the
  256-byte default-name buffer. So a default printer name longer than 255 characters is not
  modelled.
- The return value of `GetDefaultPrinter` inside enumeration (line 97) is ignored by the
  program. The model takes the default name as a given string and makes no claim about a
  failed call.
- In object form, `printerName` is read with no type check (line 235). A value that is not a
  string gives `Unspecified`, and the model claims nothing about that case.
- Script strings are modelled as sequences of Unicode scalar values. A string with lone
  surrogates, which the runtime replaces when it encodes, is not modelled.
- A buffer is treated as an object with none of the looked-up properties, and a buffer's
  own properties are not modelled.
- The default-constructed `PrinterInfo` leaves `isDefault` uninitialised in C++. The worker
  constructors make no claim about the record they start with.
- The non-Windows (CUPS) branch at line 207 is an empty stub, and it is not modelled.
- release.js is not part of this model. It is a release script that reads a `.env` file and
  runs a shell command, with no decision logic.
