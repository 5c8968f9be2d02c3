/**
  The status decoder: the `Status` bitmask of a `PRINTER_INFO_2` record is reduced to one
  label by testing twenty `PRINTER_STATUS_*` flags in a fixed order; the first flag that is
  set wins, and a mask with none of them set reads "ready".
*/
module PrinterStatus {

  /** A Win32 DWORD. */
  type DWord = bv32

  // The PRINTER_STATUS_* values of winspool.h.
  const PRINTER_STATUS_PAUSED: DWord            := 0x0000_0001
  const PRINTER_STATUS_ERROR: DWord             := 0x0000_0002
  const PRINTER_STATUS_PENDING_DELETION: DWord  := 0x0000_0004
  const PRINTER_STATUS_PAPER_JAM: DWord         := 0x0000_0008
  const PRINTER_STATUS_PAPER_OUT: DWord         := 0x0000_0010
  const PRINTER_STATUS_MANUAL_FEED: DWord       := 0x0000_0020
  const PRINTER_STATUS_PAPER_PROBLEM: DWord     := 0x0000_0040
  const PRINTER_STATUS_OFFLINE: DWord           := 0x0000_0080
  const PRINTER_STATUS_IO_ACTIVE: DWord         := 0x0000_0100
  const PRINTER_STATUS_BUSY: DWord              := 0x0000_0200
  const PRINTER_STATUS_PRINTING: DWord          := 0x0000_0400
  const PRINTER_STATUS_OUTPUT_BIN_FULL: DWord   := 0x0000_0800
  const PRINTER_STATUS_NOT_AVAILABLE: DWord     := 0x0000_1000
  const PRINTER_STATUS_WAITING: DWord           := 0x0000_2000
  const PRINTER_STATUS_PROCESSING: DWord        := 0x0000_4000
  const PRINTER_STATUS_INITIALIZING: DWord      := 0x0000_8000
  const PRINTER_STATUS_WARMING_UP: DWord        := 0x0001_0000
  const PRINTER_STATUS_TONER_LOW: DWord         := 0x0002_0000
  const PRINTER_STATUS_NO_TONER: DWord          := 0x0004_0000
  const PRINTER_STATUS_PAGE_PUNT: DWord         := 0x0008_0000
  const PRINTER_STATUS_USER_INTERVENTION: DWord := 0x0010_0000
  const PRINTER_STATUS_OUT_OF_MEMORY: DWord     := 0x0020_0000
  const PRINTER_STATUS_DOOR_OPEN: DWord         := 0x0040_0000
  const PRINTER_STATUS_SERVER_UNKNOWN: DWord    := 0x0080_0000
  const PRINTER_STATUS_POWER_SAVE: DWord        := 0x0100_0000

  /** The label reported when no decoded flag is set. */
  const READY := "ready"

  /** One entry of the priority list: a flag and the label it is reported as. */
  datatype Flag = Flag(bit: DWord, name: string)

  /** The decoded flags, highest priority first. */
  const PRIORITY: seq<Flag> := [
    Flag(PRINTER_STATUS_OFFLINE, "offline"),
    Flag(PRINTER_STATUS_ERROR, "error"),
    Flag(PRINTER_STATUS_PAPER_JAM, "paper-jam"),
    Flag(PRINTER_STATUS_PAPER_OUT, "paper-out"),
    Flag(PRINTER_STATUS_MANUAL_FEED, "manual-feed"),
    Flag(PRINTER_STATUS_PAPER_PROBLEM, "paper-problem"),
    Flag(PRINTER_STATUS_BUSY, "busy"),
    Flag(PRINTER_STATUS_PRINTING, "printing"),
    Flag(PRINTER_STATUS_OUTPUT_BIN_FULL, "output-bin-full"),
    Flag(PRINTER_STATUS_NOT_AVAILABLE, "not-available"),
    Flag(PRINTER_STATUS_WAITING, "waiting"),
    Flag(PRINTER_STATUS_PROCESSING, "processing"),
    Flag(PRINTER_STATUS_INITIALIZING, "initializing"),
    Flag(PRINTER_STATUS_WARMING_UP, "warming-up"),
    Flag(PRINTER_STATUS_TONER_LOW, "toner-low"),
    Flag(PRINTER_STATUS_NO_TONER, "no-toner"),
    Flag(PRINTER_STATUS_PAGE_PUNT, "page-punt"),
    Flag(PRINTER_STATUS_USER_INTERVENTION, "user-intervention"),
    Flag(PRINTER_STATUS_OUT_OF_MEMORY, "out-of-memory"),
    Flag(PRINTER_STATUS_DOOR_OPEN, "door-open")
  ]

  /** The union of the twenty decoded flags. */
  const DECODED_MASK: DWord := 0x007F_FEFA

  predicate IsSet(status: DWord, bit: DWord) {
    status & bit != 0
  }

  /** Flag `k` of the list is the first one set in `status`. */
  ghost predicate EarliestSet(status: DWord, k: nat)
    requires k < |PRIORITY|
  {
    && IsSet(status, PRIORITY[k].bit)
    && forall j :: 0 <= j < k ==> !IsSet(status, PRIORITY[j].bit)
  }

  /** Decodes a status mask as the chain of tests does, the first set flag winning. */
  function GetPrinterStatus(status: DWord): (r: string)
    ensures r == READY <==> status & DECODED_MASK == 0
  {
    if IsSet(status, PRINTER_STATUS_OFFLINE) then "offline"
    else if IsSet(status, PRINTER_STATUS_ERROR) then "error"
    else if IsSet(status, PRINTER_STATUS_PAPER_JAM) then "paper-jam"
    else if IsSet(status, PRINTER_STATUS_PAPER_OUT) then "paper-out"
    else if IsSet(status, PRINTER_STATUS_MANUAL_FEED) then "manual-feed"
    else if IsSet(status, PRINTER_STATUS_PAPER_PROBLEM) then "paper-problem"
    else if IsSet(status, PRINTER_STATUS_BUSY) then "busy"
    else if IsSet(status, PRINTER_STATUS_PRINTING) then "printing"
    else if IsSet(status, PRINTER_STATUS_OUTPUT_BIN_FULL) then "output-bin-full"
    else if IsSet(status, PRINTER_STATUS_NOT_AVAILABLE) then "not-available"
    else if IsSet(status, PRINTER_STATUS_WAITING) then "waiting"
    else if IsSet(status, PRINTER_STATUS_PROCESSING) then "processing"
    else if IsSet(status, PRINTER_STATUS_INITIALIZING) then "initializing"
    else if IsSet(status, PRINTER_STATUS_WARMING_UP) then "warming-up"
    else if IsSet(status, PRINTER_STATUS_TONER_LOW) then "toner-low"
    else if IsSet(status, PRINTER_STATUS_NO_TONER) then "no-toner"
    else if IsSet(status, PRINTER_STATUS_PAGE_PUNT) then "page-punt"
    else if IsSet(status, PRINTER_STATUS_USER_INTERVENTION) then "user-intervention"
    else if IsSet(status, PRINTER_STATUS_OUT_OF_MEMORY) then "out-of-memory"
    else if IsSet(status, PRINTER_STATUS_DOOR_OPEN) then "door-open"
    else READY
  }

  /**
    The reference decoder: walk the priority list from position `i` and report the name of
    the first flag that is set.
  */
  function FirstMatchFrom(status: DWord, i: nat): (r: string)
    requires i <= |PRIORITY|
    decreases |PRIORITY| - i
  {
    if i == |PRIORITY| then READY
    else if IsSet(status, PRIORITY[i].bit) then PRIORITY[i].name
    else FirstMatchFrom(status, i + 1)
  }

  /** No decoded flag is reported as "ready", so the default cannot be mistaken for a flag. */
  lemma LabelsDistinctFromReady()
    ensures forall k :: 0 <= k < |PRIORITY| ==> PRIORITY[k].name != READY
  {
  }

  /** The twenty names are pairwise different, so a name identifies its flag. */
  lemma LabelsDistinct()
    ensures forall j, k :: 0 <= j < k < |PRIORITY| ==> PRIORITY[j].name != PRIORITY[k].name
  {
  }

  /** The position of the first flag set in `status` at or after `i`; `|PRIORITY|` when there is none. */
  function FirstSetFrom(status: DWord, i: nat): (k: nat)
    requires i <= |PRIORITY|
    ensures i <= k <= |PRIORITY|
    ensures k < |PRIORITY| ==> IsSet(status, PRIORITY[k].bit)
    ensures forall j :: i <= j < k ==> !IsSet(status, PRIORITY[j].bit)
    decreases |PRIORITY| - i
  {
    if i == |PRIORITY| || IsSet(status, PRIORITY[i].bit) then i else FirstSetFrom(status, i + 1)
  }

  /** The walk from `i` reports the flag found by `FirstSetFrom`, or "ready" when there is none. */
  lemma {:induction false} FirstMatchFromIsFirstSet(status: DWord, i: nat)
    requires i <= |PRIORITY|
    ensures var k := FirstSetFrom(status, i);
            FirstMatchFrom(status, i) == if k < |PRIORITY| then PRIORITY[k].name else READY
    decreases |PRIORITY| - i
  {
    if i < |PRIORITY| && !IsSet(status, PRIORITY[i].bit) {
      FirstMatchFromIsFirstSet(status, i + 1);
    }
  }

  /** One step of the walk over the priority list. */
  lemma FirstMatchStep(status: DWord, i: nat)
    requires i < |PRIORITY|
    ensures FirstMatchFrom(status, i)
            == if IsSet(status, PRIORITY[i].bit) then PRIORITY[i].name else FirstMatchFrom(status, i + 1)
  {
  }

  /** The chain of tests and the walk over the priority list agree on every mask. */
  lemma DecoderMatchesTable(status: DWord)
    ensures GetPrinterStatus(status) == FirstMatchFrom(status, 0)
  {
    FirstMatchStep(status, 0);
    FirstMatchStep(status, 1);
    FirstMatchStep(status, 2);
    FirstMatchStep(status, 3);
    FirstMatchStep(status, 4);
    FirstMatchStep(status, 5);
    FirstMatchStep(status, 6);
    FirstMatchStep(status, 7);
    FirstMatchStep(status, 8);
    FirstMatchStep(status, 9);
    FirstMatchStep(status, 10);
    FirstMatchStep(status, 11);
    FirstMatchStep(status, 12);
    FirstMatchStep(status, 13);
    FirstMatchStep(status, 14);
    FirstMatchStep(status, 15);
    FirstMatchStep(status, 16);
    FirstMatchStep(status, 17);
    FirstMatchStep(status, 18);
    FirstMatchStep(status, 19);
  }

  /** The decoder reports the first set flag of the list, and "ready" when none is set. */
  lemma DecodesFirstSetFlag(status: DWord)
    ensures var k := FirstSetFrom(status, 0);
            GetPrinterStatus(status) == if k < |PRIORITY| then PRIORITY[k].name else READY
  {
    DecoderMatchesTable(status);
    FirstMatchFromIsFirstSet(status, 0);
  }

  /**
    Priority: the decoder reports the name of flag `k` exactly when flag `k` is set and no flag
    before it in the list is.
  */
  lemma EarliestFlagWins(status: DWord, k: nat)
    requires k < |PRIORITY|
    ensures GetPrinterStatus(status) == PRIORITY[k].name <==> EarliestSet(status, k)
  {
    DecodesFirstSetFlag(status);
    LabelsDistinct();
    LabelsDistinctFromReady();
  }

  /** Default: the decoder reports "ready" exactly when none of the twenty flags is set. */
  lemma ReadyWhenNoFlagSet(status: DWord)
    ensures GetPrinterStatus(status) == READY
            <==> forall j :: 0 <= j < |PRIORITY| ==> !IsSet(status, PRIORITY[j].bit)
  {
    DecodesFirstSetFlag(status);
    LabelsDistinctFromReady();
  }

  /** OFFLINE wins over every other flag; ERROR wins over everything but OFFLINE. */
  lemma OfflineThenError(status: DWord)
    ensures IsSet(status, PRINTER_STATUS_OFFLINE) ==> GetPrinterStatus(status) == "offline"
    ensures !IsSet(status, PRINTER_STATUS_OFFLINE) && IsSet(status, PRINTER_STATUS_ERROR)
            ==> GetPrinterStatus(status) == "error"
  {
  }

  /** The flags outside the list (paused, pending deletion, I/O active, server unknown, power save) read as "ready". */
  lemma UndecodedFlagsReadReady()
    ensures GetPrinterStatus(PRINTER_STATUS_PAUSED | PRINTER_STATUS_PENDING_DELETION | PRINTER_STATUS_IO_ACTIVE
                             | PRINTER_STATUS_SERVER_UNKNOWN | PRINTER_STATUS_POWER_SAVE) == READY
    ensures GetPrinterStatus(0) == READY
  {
  }
}
