/** The copies screen: the copy count (typed, or moved with the minus and
    plus buttons, always within 1..100), the mode selector and the state it
    resets, the print and photocopy guards, and the printer configuration
    handlers over the registry. */
module Copies {
  import opened JsValues
  import opened PrinterRegistry

  datatype Mode = PrintMode | PhotocopyMode | ScanMode

  datatype ColorMode = Color | BlackAndWhite

  datatype Side = FirstSide | SecondSide

  datatype SelectedFile = SelectedFile(uri: string, name: string)

  const MinCopies: int := 1
  const MaxCopies: int := 100

  // ---------------------------------------------------------------------
  // The copy count

  /** `handleCopiesChange`: `parseInt(value, 10) || 1` is taken when it lies
      in 1..100 (`Some`); any other number leaves the count alone (`None`). */
  function TypedCopies(value: string): (r: Option<int>)
    ensures r.Some? ==> MinCopies <= r.value <= MaxCopies
  {
    var n := match ParseInt(value) case None => 1 case Some(v) => if v == 0 then 1 else v;
    if n < MinCopies then None
    else if n > MaxCopies then None
    else Some(n)
  }

  /** Text that is not a number, or is "0", sets the count to one; a number
      in range is taken as it is; anything else is refused. */
  lemma TypedCopiesCases(value: string)
    ensures ParseInt(value).None? ==> TypedCopies(value) == Some(1)
    ensures ParseInt(value) == Some(0) ==> TypedCopies(value) == Some(1)
    ensures ParseInt(value).Some? && MinCopies <= ParseInt(value).value <= MaxCopies ==>
      TypedCopies(value) == ParseInt(value)
    ensures ParseInt(value).Some? && (ParseInt(value).value < 0 || ParseInt(value).value > MaxCopies) ==>
      TypedCopies(value).None?
  {
  }

  /** The decimal text of a count in range is taken back as that count. */
  lemma TypedCopiesOfDecimal(n: nat)
    requires MinCopies <= n <= MaxCopies
    ensures TypedCopies(NatToString(n)) == Some(n)
  {
    ParseIntNatToString(n);
  }

  /** The empty field sets the count to one. */
  lemma EmptyFieldIsOneCopy()
    ensures TypedCopies("") == Some(1)
  {
    assert TrimStart("") == "";
    assert DigitPrefix("") == "";
  }

  // ---------------------------------------------------------------------
  // Print and photocopy guards

  /** What a print request sends: file, count, colour mode, printer name. */
  datatype PrintJob = PrintJob(fileUri: string, copies: int, colorMode: ColorMode, printerName: string)

  datatype PrintRequest = NoDefaultPrinter | NoFileSelected | SendPrint(job: PrintJob)

  /** `handlePrint`'s guards: a default printer, then a selected file. */
  function PrintDecision(defaultPrinter: string, selectedFile: Option<SelectedFile>, copies: int, colorMode: ColorMode): (r: PrintRequest)
    ensures r == NoDefaultPrinter <==> defaultPrinter == ""
    ensures r == NoFileSelected <==> defaultPrinter != "" && selectedFile.None?
    ensures r.SendPrint? ==>
      selectedFile.Some? && r.job == PrintJob(selectedFile.value.uri, copies, colorMode, defaultPrinter)
  {
    if defaultPrinter == "" then NoDefaultPrinter
    else if selectedFile.None? then NoFileSelected
    else SendPrint(PrintJob(selectedFile.value.uri, copies, colorMode, defaultPrinter))
  }

  datatype PhotocopyRequest =
    | NoPrinterForCopy
    | ScanFrontSide
    | SendPhotocopy(copies: int, colorMode: ColorMode, printerName: string)

  /** `handlePhotocopy`'s branches: a default printer is needed; a
      double-sided copy not yet begun starts with the front side; anything
      else is sent as a one-sided photocopy to the default printer. */
  function PhotocopyDecision(defaultPrinter: string, doubleSided: bool, side: Option<Side>, copies: int, colorMode: ColorMode): (r: PhotocopyRequest)
    ensures r == NoPrinterForCopy <==> defaultPrinter == ""
    ensures r == ScanFrontSide <==> defaultPrinter != "" && doubleSided && side.None?
    ensures r.SendPhotocopy? ==> r == SendPhotocopy(copies, colorMode, defaultPrinter)
  {
    if defaultPrinter == "" then NoPrinterForCopy
    else if doubleSided && side.None? then ScanFrontSide
    else SendPhotocopy(copies, colorMode, defaultPrinter)
  }

  /** In a consistent registry both guards refuse exactly when no printer
      is configured. */
  lemma GuardsRefuseOnlyWithoutPrinters(reg: Registry, selectedFile: Option<SelectedFile>, doubleSided: bool, side: Option<Side>, copies: int, colorMode: ColorMode)
    requires Consistent(reg)
    ensures PrintDecision(reg.defaultName, selectedFile, copies, colorMode) == NoDefaultPrinter <==> reg.printers == []
    ensures PhotocopyDecision(reg.defaultName, doubleSided, side, copies, colorMode) == NoPrinterForCopy <==> reg.printers == []
  {
    EmptyDefaultNameMeansNoPrinter(reg);
  }

  class CopiesScreen {
    var mode: Mode
    var copies: int
    var colorMode: ColorMode
    var doubleSided: bool
    var photocopySide: Option<Side>
    var firstSideUri: Option<string>
    var pdfPages: seq<string>
    var printers: seq<Printer>
    var defaultPrinter: string
    var editingPrinter: Option<Printer>
    var newPrinterName: string
    var selectedFile: Option<SelectedFile>

    function Printers(): Registry
      reads this`printers, this`defaultPrinter
    {
      Registry(printers, defaultPrinter)
    }

    /** The count is in range and the registry is consistent. */
    ghost predicate Valid()
      reads this`copies, this`printers, this`defaultPrinter
    {
      MinCopies <= copies <= MaxCopies && Consistent(Printers())
    }

    /** Replaces the list and the default name together. */
    method SetPrinters(reg: Registry)
      modifies this`printers, this`defaultPrinter
      ensures Printers() == reg
      ensures old(MinCopies <= copies <= MaxCopies) && Consistent(reg) ==> Valid()
    {
      printers, defaultPrinter := reg.printers, reg.defaultName;
    }

    /** The screen as it mounts, before the stored printers are read. */
    constructor ()
      ensures Valid()
      ensures mode == PrintMode && copies == 1 && colorMode == BlackAndWhite
      ensures !doubleSided && photocopySide.None? && firstSideUri.None? && pdfPages == []
      ensures printers == [] && defaultPrinter == "" && editingPrinter.None? && newPrinterName == ""
      ensures selectedFile.None?
    {
      mode := PrintMode;
      copies := 1;
      colorMode := BlackAndWhite;
      doubleSided := false;
      photocopySide := None;
      firstSideUri := None;
      pdfPages := [];
      printers := [];
      defaultPrinter := "";
      editingPrinter := None;
      newPrinterName := "";
      selectedFile := None;
    }

    /** The copy-count field. */
    method CopiesChange(value: string)
      modifies this`copies
      ensures TypedCopies(value).Some? ==> copies == TypedCopies(value).value
      ensures TypedCopies(value).None? ==> copies == old(copies)
      ensures MinCopies <= old(copies) <= MaxCopies ==> MinCopies <= copies <= MaxCopies
    {
      var typed := TypedCopies(value);
      if typed.Some? {
        copies := typed.value;
      }
    }

    /** The minus button: one copy fewer, never below one. */
    method DecrementCopies()
      modifies this`copies
      ensures copies == if old(copies) > MinCopies then old(copies) - 1 else old(copies)
      ensures MinCopies <= old(copies) <= MaxCopies ==> MinCopies <= copies <= MaxCopies
    {
      if copies > MinCopies {
        copies := copies - 1;
      }
    }

    /** The plus button: one copy more, never above one hundred. */
    method IncrementCopies()
      modifies this`copies
      ensures copies == if old(copies) < MaxCopies then old(copies) + 1 else old(copies)
      ensures MinCopies <= old(copies) <= MaxCopies ==> MinCopies <= copies <= MaxCopies
    {
      if copies < MaxCopies {
        copies := copies + 1;
      }
    }

    /** A mode card: the effect on `mode` runs only when the mode changes;
        leaving scan mode drops the scanned pages and leaving photocopy mode
        drops the double-sided state. */
    method SetMode(m: Mode)
      modifies this`mode, this`pdfPages, this`doubleSided, this`photocopySide, this`firstSideUri
      ensures mode == m
      ensures m == old(mode) || m == ScanMode ==> pdfPages == old(pdfPages)
      ensures m != old(mode) && m != ScanMode ==> pdfPages == []
      ensures m == old(mode) || m == PhotocopyMode ==>
        doubleSided == old(doubleSided) && photocopySide == old(photocopySide) && firstSideUri == old(firstSideUri)
      ensures m != old(mode) && m != PhotocopyMode ==> !doubleSided && photocopySide.None? && firstSideUri.None?
    {
      if m == mode {
        return;
      }
      mode := m;
      if m != ScanMode {
        pdfPages := [];
      }
      if m != PhotocopyMode {
        doubleSided := false;
        photocopySide := None;
        firstSideUri := None;
      }
    }

    method SetColorMode(c: ColorMode)
      modifies this`colorMode
      ensures colorMode == c
    {
      colorMode := c;
    }

    /** The double-sided switch. */
    method ToggleDoubleSided()
      modifies this`doubleSided
      ensures doubleSided == !old(doubleSided)
    {
      doubleSided := !doubleSided;
    }

    /** A picked document; a document without a name is called 'archivo'. */
    method SelectFile(uri: string, name: string)
      modifies this`selectedFile
      ensures selectedFile == Some(SelectedFile(uri, if name == "" then "archivo" else name))
    {
      selectedFile := Some(SelectedFile(uri, if name == "" then "archivo" else name));
    }

    /** `handlePrint`: what is sent, if anything.  The screen's state is
        not changed (the busy flag is set and cleared around the request). */
    method Print() returns (r: PrintRequest)
      ensures r == PrintDecision(defaultPrinter, selectedFile, copies, colorMode)
      ensures r.SendPrint? ==> r.job.printerName != "" && r.job.copies == copies
    {
      r := PrintDecision(defaultPrinter, selectedFile, copies, colorMode);
    }

    /** `handlePhotocopy`: a double-sided copy marks the front side as in
        progress; the other branches change nothing here. */
    method Photocopy() returns (r: PhotocopyRequest)
      modifies this`photocopySide
      ensures r == PhotocopyDecision(defaultPrinter, doubleSided, old(photocopySide), copies, colorMode)
      ensures r == ScanFrontSide ==> photocopySide == Some(FirstSide)
      ensures r != ScanFrontSide ==> photocopySide == old(photocopySide)
    {
      r := PhotocopyDecision(defaultPrinter, doubleSided, photocopySide, copies, colorMode);
      if r == ScanFrontSide {
        photocopySide := Some(FirstSide);
      }
    }

    /** The name field of the configuration modal. */
    method EnterPrinterName(text: string)
      modifies this`newPrinterName
      ensures newPrinterName == text
    {
      newPrinterName := text;
    }

    /** The pencil button: editing begins on a copy of the listed printer. */
    method StartEditing(printer: Printer)
      modifies this`editingPrinter, this`newPrinterName
      ensures editingPrinter == Some(printer) && newPrinterName == printer.name
    {
      editingPrinter := Some(printer);
      newPrinterName := printer.name;
    }

    /** Closing the configuration modal abandons an edit. */
    method CloseConfiguration()
      modifies this`editingPrinter, this`newPrinterName
      ensures editingPrinter.None? && newPrinterName == ""
    {
      editingPrinter := None;
      newPrinterName := "";
    }

    /** `handleAddPrinter`; `id` is the timestamp the new printer is given. */
    method AddPrinter(id: string) returns (added: bool)
      modifies this`printers, this`defaultPrinter, this`newPrinterName
      ensures added <==> !IsBlank(old(newPrinterName))
      ensures added ==>
        Printers() == PrinterRegistry.AddPrinter(old(Printers()), id, old(newPrinterName)).value && newPrinterName == ""
      ensures !added ==>
        printers == old(printers) && defaultPrinter == old(defaultPrinter) && newPrinterName == old(newPrinterName)
      ensures old(Valid()) && !HasId(old(printers), id) ==> Valid()
    {
      if IsBlank(newPrinterName) {
        return false;
      }
      var reg := Printers();
      var next := PrinterRegistry.AddPrinter(reg, id, newPrinterName);
      AddKeepsConsistent(reg, id, newPrinterName);
      newPrinterName := "";
      SetPrinters(next.value);
      added := true;
    }

    /** `handleUpdatePrinter`, with the default name following the renamed
        printer's current status in the list rather than the copy taken
        when the edit began (see `PrinterRegistry.StaleEditMisnamesDefault`). */
    method UpdatePrinter() returns (updated: bool)
      modifies this`printers, this`defaultPrinter, this`editingPrinter, this`newPrinterName
      ensures updated <==> old(editingPrinter).Some? && !IsBlank(old(newPrinterName))
      ensures updated ==>
        Printers() == RenamePrinter(old(Printers()), old(editingPrinter).value.id, old(newPrinterName)).value &&
        editingPrinter.None? && newPrinterName == ""
      ensures !updated ==>
        printers == old(printers) && defaultPrinter == old(defaultPrinter) &&
        editingPrinter == old(editingPrinter) && newPrinterName == old(newPrinterName)
      ensures old(Valid()) ==> Valid()
    {
      if editingPrinter.None? || IsBlank(newPrinterName) {
        return false;
      }
      var reg := Printers();
      var id := editingPrinter.value.id;
      var next := RenamePrinter(reg, id, newPrinterName);
      RenameKeepsConsistent(reg, id, newPrinterName);
      editingPrinter, newPrinterName := None, "";
      SetPrinters(next.value);
      updated := true;
    }

    /** `handleDeletePrinter` once the deletion is confirmed. */
    method DeletePrinter(printer: Printer)
      modifies this`printers, this`defaultPrinter
      ensures Printers() == PrinterRegistry.DeletePrinter(old(Printers()), printer)
      ensures old(Valid()) && printer in old(printers) ==> Valid()
      ensures printer in old(printers) && DistinctIds(old(printers)) ==> |printers| == |old(printers)| - 1
    {
      if printer in printers && DistinctIds(printers) {
        var k :| 0 <= k < |printers| && printers[k] == printer;
        if Valid() {
          DeleteKeepsConsistent(Printers(), k);
        }
        WithoutListedId(printers, k);
      }
      SetPrinters(PrinterRegistry.DeletePrinter(Printers(), printer));
    }

    /** `handleSetDefaultPrinter`. */
    method SetDefaultPrinter(printer: Printer)
      modifies this`printers, this`defaultPrinter
      ensures Printers() == PrinterRegistry.SetDefaultPrinter(old(Printers()), printer)
      ensures old(Valid()) && printer in old(printers) ==> Valid()
      ensures defaultPrinter == printer.name
    {
      if printer in printers && Valid() {
        var k :| 0 <= k < |printers| && printers[k] == printer;
        SetDefaultKeepsConsistent(Printers(), k);
      }
      SetPrinters(PrinterRegistry.SetDefaultPrinter(Printers(), printer));
    }
  }

  /** The first printer added becomes the default, under its trimmed name. */
  lemma FirstPrinterIsDefault(id: string, name: string)
    requires !IsBlank(name)
    ensures Trim(name) != ""
    ensures PrinterRegistry.AddPrinter(Registry([], ""), id, name) ==
      Some(Registry([Printer(id, Trim(name), true)], Trim(name)))
  {
  }

  /** A fresh screen on which one printer has been configured: it is the
      default, and the count and colour mode are still the initial ones. */
  method ConfigureFirstPrinter(id: string, name: string) returns (screen: CopiesScreen)
    requires !IsBlank(name)
    ensures fresh(screen) && screen.Valid()
    ensures screen.Printers() == Registry([Printer(id, Trim(name), true)], Trim(name))
    ensures screen.copies == 1 && screen.colorMode == BlackAndWhite
  {
    screen := new CopiesScreen();
    screen.EnterPrinterName(name);
    FirstPrinterIsDefault(id, name);
    var added := screen.AddPrinter(id);
  }

  /** Once a printer is configured on a fresh screen, printing a picked
      document sends it to that printer. */
  method FirstPrinterPrints(id: string, name: string, uri: string) returns (r: PrintRequest)
    requires !IsBlank(name)
    ensures r == SendPrint(PrintJob(uri, 1, BlackAndWhite, Trim(name)))
  {
    var screen := ConfigureFirstPrinter(id, name);
    FirstPrinterIsDefault(id, name);
    screen.SelectFile(uri, "documento.pdf");
    r := screen.Print();
  }
}
