/**
  Raw job submission: `printDirect` checks its arguments synchronously and either throws a
  type error or queues a `PrintDirectWorker`, which opens the printer, starts a document and
  a page, writes the whole payload, ends page and document, and closes the printer.
*/
module PrintDirect {
  import opened Wrappers
  import opened Utf8
  import opened Spooler
  import opened JsArgs

  const DEFAULT_DATA_TYPE := "RAW"
  const OBJECT_FIELDS_ERROR := "Object must contain printerName and data properties"
  const DATA_TYPE_ERROR := "data must be string or buffer"
  const USAGE_ERROR := "Expected either an options object {printerName, data, [dataType]} or at least two arguments: printerName (string), data (string or buffer), [dataType (string)]"

  const DOC_NAME := "Node.js Print Job"
  const OPEN_ERROR := "Failed to open printer"
  const START_DOC_ERROR := "Failed to start document printing"
  const SUCCESS_MESSAGE := "Print job created successfully"

  /**
    `WritePrinter` takes the byte count as a 32-bit `DWORD`, and the program passes the
    payload's size narrowed to that width.
  */
  const DWORD_RANGE := 0x1_0000_0000

  /**
    The bytes one `WritePrinter` call is handed: the payload cut to its size modulo 2^32. A
    payload under 4 GiB goes whole; one of exactly 4 GiB goes as nothing at all.
  */
  function WrittenBytes(data: seq<byte>): (w: seq<byte>)
    ensures w <= data
    ensures |data| < DWORD_RANGE ==> w == data
    ensures |data| == DWORD_RANGE ==> w == []
  {
    data[..|data| % DWORD_RANGE]
  }

  /** What a worker is constructed from. */
  datatype JobRequest = JobRequest(printerName: string, data: seq<byte>, dataType: string)

  /**
    The outcome of the argument check. `Unspecified` is the object form whose `printerName`
    is not a string: the program reads it as a string without checking, and the model makes
    no claim about what follows.
  */
  datatype Parsed = Job(request: JobRequest) | TypeError(message: string) | Unspecified

  /** The bytes a `data` value stands for: the UTF-8 form of a string, the contents of a buffer. */
  function Payload(v: JsValue): Option<seq<byte>> {
    match v
    case JsString(s) => Some(Encode(s))
    case JsBuffer(b) => Some(b)
    case _ => None
  }

  /** The data type: a string value overrides the default, any other value is ignored. */
  function DataTypeOr(v: Option<JsValue>): string {
    if v.Some? && IsString(v.value) then v.value.text else DEFAULT_DATA_TYPE
  }

  /** The argument check, branch by branch as the program makes it. */
  function ParsePrintDirect(args: seq<JsValue>): (r: Parsed)
    ensures r.TypeError? ==> r.message in {OBJECT_FIELDS_ERROR, DATA_TYPE_ERROR, USAGE_ERROR}
    ensures r.Unspecified? ==> |args| == 1 && IsObject(args[0])
    ensures r.Job? ==> |args| >= 1
  {
    if |args| == 1 && IsObject(args[0]) then
      var options := args[0];
      if !Has(options, "printerName") || !Has(options, "data") then
        TypeError(OBJECT_FIELDS_ERROR)
      else if !IsString(Get(options, "printerName")) then
        Unspecified
      else
        var dataType := DataTypeOr(if Has(options, "dataType") then Some(Get(options, "dataType")) else None);
        match Payload(Get(options, "data"))
        case Some(bytes) => Job(JobRequest(Get(options, "printerName").text, bytes, dataType))
        case None => TypeError(DATA_TYPE_ERROR)
    else if |args| >= 2 && IsString(args[0]) && (IsString(args[1]) || IsBuffer(args[1])) then
      var dataType := DataTypeOr(if |args| >= 3 then Some(args[2]) else None);
      Job(JobRequest(args[0].text, Payload(args[1]).value, dataType))
    else
      TypeError(USAGE_ERROR)
  }

  /**
    Object form: a single object argument is accepted exactly when it has `printerName` and
    `data`, and `data` is a string or a buffer; the job then carries those values and the
    `dataType` property if it is a string, "RAW" otherwise.
  */
  lemma ObjectForm(options: JsValue)
    requires IsObject(options)
    ensures var r := ParsePrintDirect([options]);
            && (!Has(options, "printerName") || !Has(options, "data") ==> r == TypeError(OBJECT_FIELDS_ERROR))
            && (r.Job? <==> StringProperty(options, "printerName").Some?
                            && Has(options, "data") && Payload(Get(options, "data")).Some?)
            && (r.Job? ==> r.request == JobRequest(StringProperty(options, "printerName").value,
                                                   Payload(Get(options, "data")).value,
                                                   DataTypeOr(if Has(options, "dataType") then Some(Get(options, "dataType")) else None)))
            && (r.Unspecified? <==> Has(options, "data") && Has(options, "printerName")
                                    && StringProperty(options, "printerName").None?)
            && ((StringProperty(options, "printerName").Some? && Has(options, "data")
                 && Payload(Get(options, "data")).None?) ==> r == TypeError(DATA_TYPE_ERROR))
  {
  }

  /**
    Positional form: with two or more arguments the call is accepted exactly when the first is
    a string and the second a string or a buffer; a third argument sets the data type only if
    it is a string, and arguments after it are ignored.
  */
  lemma PositionalForm(args: seq<JsValue>)
    requires |args| >= 2
    ensures var r := ParsePrintDirect(args);
            && (r.Job? <==> IsString(args[0]) && Payload(args[1]).Some?)
            && (!r.Job? ==> r == TypeError(USAGE_ERROR))
            && (r.Job? ==> r.request == JobRequest(args[0].text, Payload(args[1]).value,
                                                   DataTypeOr(if |args| >= 3 then Some(args[2]) else None)))
  {
  }

  /** No arguments, or one argument that is not an object: always the usage error. */
  lemma NeitherForm(args: seq<JsValue>)
    requires |args| == 0 || (|args| == 1 && !IsObject(args[0]))
    ensures ParsePrintDirect(args) == TypeError(USAGE_ERROR)
  {
  }

  /** String data is sent as its UTF-8 bytes, and those bytes determine the string. */
  lemma StringDataIsUtf8(args: seq<JsValue>, s: string)
    requires |args| >= 2 && IsString(args[0]) && args[1] == JsString(s)
    ensures ParsePrintDirect(args).Job?
    ensures ParsePrintDirect(args).request.data == Encode(s)
    ensures Decode(ParsePrintDirect(args).request.data) == Some(s)
  {
    DecodeEncode(s);
  }

  /** The data type of an accepted job is "RAW" unless a string was supplied for it. */
  lemma DataTypeDefault(args: seq<JsValue>)
    requires ParsePrintDirect(args).Job?
    ensures var dataType := ParsePrintDirect(args).request.dataType;
            if |args| == 1 then
              dataType == (if StringProperty(args[0], "dataType").Some? then StringProperty(args[0], "dataType").value
                           else DEFAULT_DATA_TYPE)
            else
              dataType == (if |args| >= 3 && IsString(args[2]) then args[2].text else DEFAULT_DATA_TYPE)
  {
  }

  /**
    The spooler calls of one job. `printerOpened` is whether `OpenPrinter` succeeds and
    `docStarted` whether `StartDocPrinter` does; the results of the later calls are not looked at.
  */
  function JobCalls(request: JobRequest, printerOpened: bool, docStarted: bool): (calls: seq<SpoolCall>)
    ensures calls != [] && calls[0] == OpenPrinter(request.printerName)
    ensures !printerOpened ==> calls == [OpenPrinter(request.printerName)]
    ensures printerOpened ==> StartDocPrinter(DOC_NAME, request.dataType) in calls
  {
    var open := OpenPrinter(request.printerName);
    var startDoc := StartDocPrinter(DOC_NAME, request.dataType);
    if !printerOpened then [open]
    else if !docStarted then [open, startDoc, ClosePrinter]
    else [open, startDoc, StartPagePrinter, WritePrinter(WrittenBytes(request.data)), EndPagePrinter, EndDocPrinter, ClosePrinter]
  }

  /** A job that opened the printer closes it exactly once, as its last call, whatever StartDocPrinter answers. */
  lemma JobReleasesHandle(request: JobRequest, printerOpened: bool, docStarted: bool)
    ensures ClosedOnceIfOpened(JobCalls(request, printerOpened, docStarted), printerOpened)
  {
  }

  /**
    The payload is written exactly once, whole, when both the open and the start of the
    document succeed, and not at all otherwise.
  */
  lemma JobWritesPayloadOnce(request: JobRequest, printerOpened: bool, docStarted: bool)
    ensures multiset(JobCalls(request, printerOpened, docStarted))[WritePrinter(WrittenBytes(request.data))]
            == if printerOpened && docStarted then 1 else 0
  {
  }

  /** No other bytes are ever written: every write of a job carries its whole payload. */
  lemma JobWritesOnlyPayload(request: JobRequest, printerOpened: bool, docStarted: bool, i: nat)
    requires i < |JobCalls(request, printerOpened, docStarted)|
    requires JobCalls(request, printerOpened, docStarted)[i].WritePrinter?
    ensures JobCalls(request, printerOpened, docStarted)[i] == WritePrinter(WrittenBytes(request.data))
  {
  }

  class PrintDirectWorker {
    const request: JobRequest
    var result: string
    var error: Option<string>
    /** The spooler calls made so far. */
    var calls: seq<SpoolCall>

    constructor (r: JobRequest)
      ensures request == r && result == "" && error == None && calls == []
    {
      request := r;
      result := "";
      error := None;
      calls := [];
    }

    /**
      Runs the job against the spooler: the open succeeds when the printer name is known to
      it, and `startDocAccepted` is the answer of `StartDocPrinter`.
    */
    method Execute(spooler: Spooler, startDocAccepted: bool)
      modifies this
      ensures calls == old(calls) + JobCalls(request, request.printerName in spooler, startDocAccepted)
      ensures request.printerName !in spooler ==> error == Some(OPEN_ERROR) && result == old(result)
      ensures request.printerName in spooler && !startDocAccepted
              ==> error == Some(START_DOC_ERROR) && result == old(result)
      ensures request.printerName in spooler && startDocAccepted
              ==> result == SUCCESS_MESSAGE && error == old(error)
    {
      var trace := [OpenPrinter(request.printerName)];
      if request.printerName !in spooler {
        error := Some(OPEN_ERROR);
        calls := calls + trace;
        return;
      }
      trace := trace + [StartDocPrinter(DOC_NAME, request.dataType)];
      if startDocAccepted {
        trace := trace + [StartPagePrinter];
        trace := trace + [WritePrinter(WrittenBytes(request.data))];
        trace := trace + [EndPagePrinter];
        trace := trace + [EndDocPrinter];
        result := SUCCESS_MESSAGE;
      } else {
        error := Some(START_DOC_ERROR);
      }
      trace := trace + [ClosePrinter];
      assert trace == JobCalls(request, true, startDocAccepted);
      calls := calls + trace;
    }
  }

  /**
    The entry point up to the moment the job is queued: a rejected call throws and creates no
    worker, so no spooler call is made; an accepted one creates a worker that has made none yet.
  */
  method PrintDirect(args: seq<JsValue>) returns (thrown: Option<string>, worker: PrintDirectWorker?)
    ensures ParsePrintDirect(args).TypeError? ==> thrown == Some(ParsePrintDirect(args).message) && worker == null
    ensures ParsePrintDirect(args).Job?
            ==> thrown == None && worker != null && fresh(worker)
                && worker.request == ParsePrintDirect(args).request && worker.calls == []
                && worker.error == None && worker.result == ""
  {
    match ParsePrintDirect(args)
    case TypeError(message) =>
      thrown, worker := Some(message), null;
    case Job(request) =>
      worker := new PrintDirectWorker(request);
      thrown := None;
    case Unspecified =>
      thrown, worker := None, null;
  }
}
