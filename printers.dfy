/** The printer list of the copies screen and the name of the default
    printer, kept side by side.  The handlers for adding, renaming,
    deleting and choosing the default printer are pure transforms of the
    pair; the discipline they keep is `Consistent`: distinct ids, non-empty
    names and, once there is a printer, exactly one default whose name is
    the stored default name. */
module PrinterRegistry {
  import opened JsValues

  datatype Printer = Printer(id: string, name: string, isDefault: bool)

  /** The `printers` list and the `defaultPrinter` name. */
  datatype Registry = Registry(printers: seq<Printer>, defaultName: string)

  predicate DistinctIds(ps: seq<Printer>)
  {
    forall i, j :: 0 <= i < j < |ps| ==> ps[i].id != ps[j].id
  }

  predicate HasId(ps: seq<Printer>, id: string)
  {
    exists k :: 0 <= k < |ps| && ps[k].id == id
  }

  predicate NamesPresent(ps: seq<Printer>)
  {
    forall k :: 0 <= k < |ps| ==> ps[k].name != ""
  }

  /** `ps[k]` is the only printer marked default. */
  predicate SoleDefaultAt(ps: seq<Printer>, k: int)
  {
    0 <= k < |ps| && ps[k].isDefault && forall j :: 0 <= j < |ps| && j != k ==> !ps[j].isDefault
  }

  ghost predicate Consistent(reg: Registry)
  {
    DistinctIds(reg.printers) && NamesPresent(reg.printers) &&
    (reg.printers == [] ==> reg.defaultName == "") &&
    (reg.printers != [] ==> exists k :: SoleDefaultAt(reg.printers, k) && reg.printers[k].name == reg.defaultName)
  }

  /** In a consistent registry the print and photocopy guard, an empty
      default name, means exactly that no printer is configured. */
  lemma EmptyDefaultNameMeansNoPrinter(reg: Registry)
    requires Consistent(reg)
    ensures reg.defaultName == "" <==> reg.printers == []
  {
    if reg.printers != [] {
      var k :| SoleDefaultAt(reg.printers, k) && reg.printers[k].name == reg.defaultName;
      assert reg.printers[k].name != "";
    }
  }

  // ---------------------------------------------------------------------
  // Adding

  /** `handleAddPrinter`: a blank name is refused; otherwise a printer with
      the trimmed name is appended, and it is the default (and its name the
      default name) exactly when the list was empty.  `id` stands for
      `Date.now().toString()`. */
  function AddPrinter(reg: Registry, id: string, rawName: string): (r: Option<Registry>)
    ensures r.None? <==> IsBlank(rawName)
    ensures r.Some? ==>
      |r.value.printers| == |reg.printers| + 1 && r.value.printers[..|reg.printers|] == reg.printers &&
      r.value.printers[|reg.printers|] == Printer(id, Trim(rawName), reg.printers == [])
    ensures r.Some? && reg.printers == [] ==> r.value.defaultName == Trim(rawName)
    ensures r.Some? && reg.printers != [] ==> r.value.defaultName == reg.defaultName
  {
    if IsBlank(rawName) then None
    else
      var printer := Printer(id, Trim(rawName), reg.printers == []);
      Some(Registry(reg.printers + [printer], if printer.isDefault then printer.name else reg.defaultName))
  }

  /** Adding a printer under a fresh id keeps the registry consistent. */
  lemma AddKeepsConsistent(reg: Registry, id: string, rawName: string)
    requires !IsBlank(rawName)
    ensures Consistent(reg) && !HasId(reg.printers, id) ==> Consistent(AddPrinter(reg, id, rawName).value)
  {
    if Consistent(reg) && !HasId(reg.printers, id) {
      var ps := reg.printers;
      var r := AddPrinter(reg, id, rawName).value;
      var qs := r.printers;
      assert qs == ps + [Printer(id, Trim(rawName), ps == [])];
      assert DistinctIds(qs) by {
        forall i, j | 0 <= i < j < |qs|
          ensures qs[i].id != qs[j].id
        {
          if j == |ps| {
            assert qs[i] == ps[i];
          }
        }
      }
      if ps == [] {
        assert SoleDefaultAt(qs, 0) && qs[0].name == r.defaultName;
      } else {
        var k :| SoleDefaultAt(ps, k) && ps[k].name == reg.defaultName;
        assert SoleDefaultAt(qs, k) && qs[k].name == r.defaultName;
      }
    }
  }

  // ---------------------------------------------------------------------
  // Renaming

  /** The list with the name of every printer carrying `id` replaced. */
  function Renamed(ps: seq<Printer>, id: string, name: string): (r: seq<Printer>)
    ensures |r| == |ps|
    ensures forall k :: 0 <= k < |ps| ==>
      r[k].id == ps[k].id && r[k].isDefault == ps[k].isDefault &&
      r[k].name == (if ps[k].id == id then name else ps[k].name)
  {
    seq(|ps|, k requires 0 <= k < |ps| => if ps[k].id == id then ps[k].(name := name) else ps[k])
  }

  /** `handleUpdatePrinter` as written: whether the default name follows the
      rename is read from `editingPrinter`, the copy of the printer taken
      when editing began, not from the current list. */
  function RenamePrinterAsWritten(reg: Registry, editing: Printer, rawName: string): (r: Option<Registry>)
    ensures r.None? <==> IsBlank(rawName)
    ensures r.Some? ==> r.value.printers == Renamed(reg.printers, editing.id, Trim(rawName))
    ensures r.Some? ==> r.value.defaultName == (if editing.isDefault then Trim(rawName) else reg.defaultName)
  {
    if IsBlank(rawName) then None
    else
      var name := Trim(rawName);
      Some(Registry(Renamed(reg.printers, editing.id, name), if editing.isDefault then name else reg.defaultName))
  }

  /** Whether the printer carrying `id` is currently the default. */
  predicate IsDefaultId(ps: seq<Printer>, id: string)
  {
    exists k :: 0 <= k < |ps| && ps[k].id == id && ps[k].isDefault
  }

  /** The rename as intended: the default name follows exactly when the
      renamed printer is the default in the current list. */
  function RenamePrinter(reg: Registry, id: string, rawName: string): (r: Option<Registry>)
    ensures r.None? <==> IsBlank(rawName)
    ensures r.Some? ==> r.value.printers == Renamed(reg.printers, id, Trim(rawName))
    ensures r.Some? && IsDefaultId(reg.printers, id) ==> r.value.defaultName == Trim(rawName)
    ensures r.Some? && !IsDefaultId(reg.printers, id) ==> r.value.defaultName == reg.defaultName
  {
    if IsBlank(rawName) then None
    else
      var name := Trim(rawName);
      Some(Registry(Renamed(reg.printers, id, name), if IsDefaultId(reg.printers, id) then name else reg.defaultName))
  }

  /** The intended rename keeps the registry consistent: whichever printer
      is renamed, the default name still names the default printer. */
  lemma RenameKeepsConsistent(reg: Registry, id: string, rawName: string)
    requires !IsBlank(rawName)
    ensures Consistent(reg) ==> Consistent(RenamePrinter(reg, id, rawName).value)
  {
    if Consistent(reg) {
      var ps := reg.printers;
      var r := RenamePrinter(reg, id, rawName).value;
      var qs := r.printers;
      assert Trim(rawName) != "";
      assert DistinctIds(qs) by {
        forall i, j | 0 <= i < j < |qs|
          ensures qs[i].id != qs[j].id
        {
          assert qs[i].id == ps[i].id && qs[j].id == ps[j].id;
        }
      }
      if ps != [] {
        var k :| SoleDefaultAt(ps, k) && ps[k].name == reg.defaultName;
        assert SoleDefaultAt(qs, k);
        if ps[k].id == id {
          assert IsDefaultId(ps, id);
        } else {
          assert !IsDefaultId(ps, id) by {
            forall j | 0 <= j < |ps| && ps[j].id == id
              ensures !ps[j].isDefault
            {
              assert j != k;
            }
          }
        }
      }
    }
  }

  /** When the copy taken at the start of the edit is still the printer in
      the list, the code as written and the intended rename agree. */
  lemma RenameAgreesOnCurrentCopy(reg: Registry, k: int, rawName: string)
    requires Consistent(reg) && 0 <= k < |reg.printers|
    ensures RenamePrinterAsWritten(reg, reg.printers[k], rawName) == RenamePrinter(reg, reg.printers[k].id, rawName)
  {
    var ps := reg.printers;
    if ps[k].isDefault {
      assert IsDefaultId(ps, ps[k].id);
    } else {
      assert !IsDefaultId(ps, ps[k].id) by {
        forall j | 0 <= j < |ps| && ps[j].id == ps[k].id
          ensures !ps[j].isDefault
        {
          assert j == k;
        }
      }
    }
  }

  // ---------------------------------------------------------------------
  // Choosing the default

  /** The list with exactly the printers carrying `id` marked default. */
  function WithDefault(ps: seq<Printer>, id: string): (r: seq<Printer>)
    ensures |r| == |ps|
    ensures forall k :: 0 <= k < |ps| ==>
      r[k].id == ps[k].id && r[k].name == ps[k].name && r[k].isDefault == (ps[k].id == id)
  {
    seq(|ps|, k requires 0 <= k < |ps| => ps[k].(isDefault := ps[k].id == id))
  }

  /** `handleSetDefaultPrinter`. */
  function SetDefaultPrinter(reg: Registry, printer: Printer): (r: Registry)
    ensures r.printers == WithDefault(reg.printers, printer.id) && r.defaultName == printer.name
  {
    Registry(WithDefault(reg.printers, printer.id), printer.name)
  }

  /** Choosing a listed printer as the default makes it the only default
      and its name the default name. */
  lemma SetDefaultKeepsConsistent(reg: Registry, k: int)
    requires Consistent(reg) && 0 <= k < |reg.printers|
    ensures SoleDefaultAt(SetDefaultPrinter(reg, reg.printers[k]).printers, k)
    ensures Consistent(SetDefaultPrinter(reg, reg.printers[k]))
  {
    var ps := reg.printers;
    var qs := SetDefaultPrinter(reg, ps[k]).printers;
    forall j | 0 <= j < |qs| && j != k
      ensures !qs[j].isDefault
    {
      assert ps[j].id != ps[k].id;
    }
    assert SoleDefaultAt(qs, k);
    assert DistinctIds(qs) by {
      forall i, j | 0 <= i < j < |qs|
        ensures qs[i].id != qs[j].id
      {
        assert qs[i].id == ps[i].id && qs[j].id == ps[j].id;
      }
    }
  }

  // ---------------------------------------------------------------------
  // Deleting

  /** `printers.filter(p => p.id !== id)`. */
  function WithoutId(ps: seq<Printer>, id: string): (r: seq<Printer>)
    ensures |r| <= |ps|
    ensures forall k :: 0 <= k < |r| ==> r[k].id != id
    ensures forall p :: p in r <==> p in ps && p.id != id
  {
    if ps == [] then []
    else if ps[0].id == id then WithoutId(ps[1..], id)
    else [ps[0]] + WithoutId(ps[1..], id)
  }

  /** With distinct ids, filtering out a listed printer's id removes just
      that printer and keeps the others in order. */
  lemma {:induction false} WithoutListedId(ps: seq<Printer>, k: int)
    requires DistinctIds(ps) && 0 <= k < |ps|
    ensures WithoutId(ps, ps[k].id) == ps[..k] + ps[k + 1..]
  {
    if k == 0 {
      WithoutAbsentId(ps[1..], ps[0].id);
      assert ps[1..] == ps[..0] + ps[1..];
    } else {
      assert DistinctIds(ps[1..]) by {
        forall i, j | 0 <= i < j < |ps[1..]|
          ensures ps[1..][i].id != ps[1..][j].id
        {
          assert ps[1..][i] == ps[i + 1] && ps[1..][j] == ps[j + 1];
        }
      }
      assert ps[1..][k - 1] == ps[k];
      WithoutListedId(ps[1..], k - 1);
      assert ps[0].id != ps[k].id;
      assert [ps[0]] + (ps[1..][..k - 1] + ps[1..][k..]) == ps[..k] + ps[k + 1..];
    }
  }

  /** Filtering out an id no printer carries changes nothing. */
  lemma {:induction false} WithoutAbsentId(ps: seq<Printer>, id: string)
    requires forall k :: 0 <= k < |ps| ==> ps[k].id != id
    ensures WithoutId(ps, id) == ps
  {
    if ps != [] {
      assert forall k :: 0 <= k < |ps[1..]| ==> ps[1..][k] == ps[k + 1];
      WithoutAbsentId(ps[1..], id);
      assert ps == [ps[0]] + ps[1..];
    }
  }

  /** The list with only its first printer marked default. */
  function DefaultFirst(ps: seq<Printer>): (r: seq<Printer>)
    ensures |r| == |ps|
    ensures forall k :: 0 <= k < |ps| ==>
      r[k].id == ps[k].id && r[k].name == ps[k].name && r[k].isDefault == (k == 0)
  {
    seq(|ps|, k requires 0 <= k < |ps| => ps[k].(isDefault := k == 0))
  }

  /** `handleDeletePrinter` once confirmed: the printer's id is filtered
      out; if it was the default, the first remaining printer becomes the
      only default and the default name, or the default name is cleared
      when none remains.  (The list is saved twice on that path; only the
      second list is kept.) */
  function DeletePrinter(reg: Registry, printer: Printer): (r: Registry)
    ensures printer.isDefault && WithoutId(reg.printers, printer.id) != [] ==>
      r.printers == DefaultFirst(WithoutId(reg.printers, printer.id)) && r.defaultName == r.printers[0].name
    ensures printer.isDefault && WithoutId(reg.printers, printer.id) == [] ==>
      r.printers == [] && r.defaultName == ""
    ensures !printer.isDefault ==>
      r.printers == WithoutId(reg.printers, printer.id) && r.defaultName == reg.defaultName
  {
    var remaining := WithoutId(reg.printers, printer.id);
    if printer.isDefault && |remaining| > 0 then Registry(DefaultFirst(remaining), remaining[0].name)
    else if printer.isDefault then Registry(remaining, "")
    else Registry(remaining, reg.defaultName)
  }

  /** The list without its `k`-th printer. */
  function RemoveAt(ps: seq<Printer>, k: int): (r: seq<Printer>)
    requires 0 <= k < |ps|
    ensures |r| == |ps| - 1
    ensures forall j :: 0 <= j < |r| ==> r[j] == (if j < k then ps[j] else ps[j + 1])
  {
    ps[..k] + ps[k + 1..]
  }

  /** Removing a printer keeps the ids distinct and the names present, and
      a sole default other than the removed printer stays the sole default. */
  lemma RemoveAtKeepsShape(ps: seq<Printer>, k: int)
    requires DistinctIds(ps) && NamesPresent(ps) && 0 <= k < |ps|
    ensures DistinctIds(RemoveAt(ps, k)) && NamesPresent(RemoveAt(ps, k))
    ensures forall d :: SoleDefaultAt(ps, d) && d != k ==>
      SoleDefaultAt(RemoveAt(ps, k), if d < k then d else d - 1)
  {
    var rest := RemoveAt(ps, k);
    forall i, j | 0 <= i < j < |rest|
      ensures rest[i].id != rest[j].id
    {
      var i' := if i < k then i else i + 1;
      var j' := if j < k then j else j + 1;
      assert rest[i] == ps[i'] && rest[j] == ps[j'];
    }
    forall d | SoleDefaultAt(ps, d) && d != k
      ensures SoleDefaultAt(rest, if d < k then d else d - 1)
    {
      var d' := if d < k then d else d - 1;
      forall j | 0 <= j < |rest| && j != d'
        ensures !rest[j].isDefault
      {
        var j' := if j < k then j else j + 1;
        assert rest[j] == ps[j'];
      }
    }
  }

  /** Marking only the first printer default keeps the ids distinct and the
      names present, and makes it the sole default. */
  lemma DefaultFirstKeepsShape(ps: seq<Printer>)
    requires DistinctIds(ps) && NamesPresent(ps) && ps != []
    ensures DistinctIds(DefaultFirst(ps)) && NamesPresent(DefaultFirst(ps)) && SoleDefaultAt(DefaultFirst(ps), 0)
  {
    var qs := DefaultFirst(ps);
    forall i, j | 0 <= i < j < |qs|
      ensures qs[i].id != qs[j].id
    {
      assert qs[i].id == ps[i].id && qs[j].id == ps[j].id;
    }
  }

  /** Deleting a listed printer removes exactly that printer (the others
      keep their order, ids and names) and keeps the registry consistent. */
  lemma DeleteKeepsConsistent(reg: Registry, k: int)
    requires Consistent(reg) && 0 <= k < |reg.printers|
    ensures |DeletePrinter(reg, reg.printers[k]).printers| == |reg.printers| - 1
    ensures forall j :: 0 <= j < |reg.printers| - 1 ==>
      DeletePrinter(reg, reg.printers[k]).printers[j].id == RemoveAt(reg.printers, k)[j].id &&
      DeletePrinter(reg, reg.printers[k]).printers[j].name == RemoveAt(reg.printers, k)[j].name
    ensures Consistent(DeletePrinter(reg, reg.printers[k]))
  {
    var ps := reg.printers;
    WithoutListedId(ps, k);
    var rest := RemoveAt(ps, k);
    assert WithoutId(ps, ps[k].id) == rest;
    RemoveAtKeepsShape(ps, k);
    var r := DeletePrinter(reg, ps[k]);
    var d :| SoleDefaultAt(ps, d) && ps[d].name == reg.defaultName;
    if ps[k].isDefault {
      if rest != [] {
        DefaultFirstKeepsShape(rest);
      }
    } else {
      assert r.printers == rest;
      var d' := if d < k then d else d - 1;
      assert SoleDefaultAt(rest, d') && rest[d'] == ps[d];
    }
  }

  // ---------------------------------------------------------------------
  // The stale copy

  /** "A" (id "1") is the default and "B" (id "2") is not. */
  const Before: Registry := Registry([Printer("1", "A", true), Printer("2", "B", false)], "A")

  /** After "B" has been made the default. */
  const AfterSetDefault: Registry := Registry([Printer("1", "A", false), Printer("2", "B", true)], "B")

  lemma StaleSetDefaultStep()
    ensures Consistent(Before)
    ensures SetDefaultPrinter(Before, Printer("2", "B", false)) == AfterSetDefault
    ensures Consistent(AfterSetDefault)
  {
    assert SoleDefaultAt(Before.printers, 0);
    assert SetDefaultPrinter(Before, Printer("2", "B", false)).printers == AfterSetDefault.printers;
    assert SoleDefaultAt(AfterSetDefault.printers, 1);
  }

  lemma TrimOfX()
    ensures Trim("X") == "X" && !IsBlank("X")
  {
    assert TrimStart("X") == "X";
    assert TrimEnd("X") == "X";
  }

  /** The list after "A" is renamed `x` while "B" is the default. */
  function RenamedList(x: string): (ps: seq<Printer>)
    ensures |ps| == 2 && ps[0].name == x && !ps[0].isDefault && ps[1] == Printer("2", "B", true)
  {
    [Printer("1", x, false), Printer("2", "B", true)]
  }

  /** As written: the default name becomes the new name, which no default
      printer carries. */
  lemma StaleRenameAsWritten(x: string)
    requires !IsBlank(x) && Trim(x) == x && x != "B"
    ensures RenamePrinterAsWritten(AfterSetDefault, Before.printers[0], x) == Some(Registry(RenamedList(x), x))
    ensures !Consistent(Registry(RenamedList(x), x))
  {
    var renamed := RenamedList(x);
    assert Renamed(AfterSetDefault.printers, "1", x) == renamed;
    forall k | SoleDefaultAt(renamed, k)
      ensures renamed[k].name != x
    {
      assert k == 1;
    }
  }

  /** Intended: "A" is not the default any more, so the default name stays
      "B". */
  lemma StaleRenameIntended(x: string)
    requires !IsBlank(x) && Trim(x) == x
    ensures RenamePrinter(AfterSetDefault, "1", x) == Some(Registry(RenamedList(x), "B"))
    ensures Consistent(Registry(RenamedList(x), "B"))
  {
    var renamed := RenamedList(x);
    assert Renamed(AfterSetDefault.printers, "1", x) == renamed;
    assert !AfterSetDefault.printers[0].isDefault;
    assert !IsDefaultId(AfterSetDefault.printers, "1");
    assert SoleDefaultAt(renamed, 1);
  }

  /** With "A" the default: editing begins on "A", "B" is then made the
      default, and "A" is renamed "X".  As written, the default name becomes
      "X" although "B" is the default printer (so printing goes to the
      renamed printer), and the registry is no longer consistent; the
      intended rename keeps "B". */
  lemma StaleEditMisnamesDefault()
    ensures Consistent(Before) && SetDefaultPrinter(Before, Before.printers[1]) == AfterSetDefault
    ensures RenamePrinterAsWritten(AfterSetDefault, Before.printers[0], "X") == Some(Registry(RenamedList("X"), "X"))
    ensures !Consistent(Registry(RenamedList("X"), "X"))
    ensures RenamePrinter(AfterSetDefault, "1", "X") == Some(Registry(RenamedList("X"), "B"))
    ensures Consistent(Registry(RenamedList("X"), "B"))
  {
    StaleSetDefaultStep();
    TrimOfX();
    StaleRenameAsWritten("X");
    StaleRenameIntended("X");
  }
}
