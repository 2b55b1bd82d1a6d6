/**
 * The dashboard's broker import: idle until a source is chosen, then a
 * three-step sync driven by timers, then ready, remembered in storage.
 * Each timer callback is one `Tick`; the storage flag is the field
 * `imported`.
 */
module ImportFlow {
  import opened Wrappers

  datatype Mode = Idle | Syncing | Ready

  datatype Broker = Zerodha | Groww

  /** The route's search parameters: `?import=true` and `?source=...`. */
  datatype Search = Search(openDialog: bool, source: Option<Broker>)

  /** Labels of the sync steps. */
  const Steps: seq<string> := ["Syncing", "Cleansing", "Preparing List"]

  /** The mode only moves forward: idle to syncing to ready, and never out of ready. */
  predicate Forward(a: Mode, b: Mode) {
    a == b || (a == Idle && b == Syncing) || (a == Syncing && b == Ready)
  }

  /** Every field of the import flow at one moment. */
  datatype ImportView = ImportView(
    mode: Mode, selectOpen: bool, source: Option<Broker>, stepIndex: nat, fired: nat, imported: bool)

  /** `setMode('syncing')` and the effect it triggers: entering syncing restarts the steps and their timers; already syncing, nothing happens. */
  function Entered(v: ImportView): (w: ImportView)
    ensures w.mode == Syncing && (v.mode != Ready ==> Forward(v.mode, w.mode))
  {
    if v.mode == Syncing then v else v.(mode := Syncing, stepIndex := 0, fired := 0)
  }

  class Importer {
    var mode: Mode
    var selectOpen: bool
    var source: Option<Broker>
    var stepIndex: nat
    /** Timers of the current sync that have already fired. */
    var fired: nat
    /** The stored `dashboardImported` flag. */
    var imported: bool

    ghost predicate Valid()
      reads this
    {
      stepIndex < |Steps| && fired <= |Steps| + 1 && (mode == Ready ==> imported)
    }

    /** All fields at once. */
    function Snapshot(): ImportView
      reads this
    {
      ImportView(mode, selectOpen, source, stepIndex, fired, imported)
    }

    /** The first render reads the stored flag. */
    constructor(storedFlag: Option<string>)
      ensures Valid()
      ensures Snapshot() == ImportView(if storedFlag == Some("true") then Ready else Idle,
                                       false, None, 0, 0, storedFlag == Some("true"))
    {
      imported := storedFlag == Some("true");
      mode := if storedFlag == Some("true") then Ready else Idle;
      selectOpen := false;
      source := None;
      stepIndex := 0;
      fired := 0;
    }

    /** The label of the current step. */
    function StepLabel(): string
      requires Valid()
      reads this
    {
      Steps[stepIndex]
    }

    /** `setMode('syncing')`: a change of mode restarts the steps and their timers. */
    method EnterSyncing()
      modifies this
      requires Valid()
      ensures Valid() && Snapshot() == Entered(old(Snapshot()))
    {
      if mode != Syncing {
        mode := Syncing;
        stepIndex := 0;
        fired := 0;
      }
    }

    /** The effect on the search parameters: ignored once ready; a source starts the sync, `import` opens the picker. */
    method OnSearch(search: Search)
      modifies this
      requires Valid()
      ensures Valid() && Forward(old(mode), mode)
      ensures old(mode) == Ready ==> Snapshot() == old(Snapshot())
      ensures old(mode) != Ready && search.source.Some? ==>
        Snapshot() == Entered(old(Snapshot())).(source := search.source, selectOpen := false)
      ensures old(mode) != Ready && search.source.None? ==>
        Snapshot() == old(Snapshot()).(selectOpen := old(selectOpen) || search.openDialog)
    {
      if mode == Ready {
        return;
      }
      if search.source.Some? {
        source := search.source;
        EnterSyncing();
        selectOpen := false;
        return;
      }
      if search.openDialog {
        selectOpen := true;
      }
    }

    /** The Import button. */
    method StartImport()
      modifies this
      requires Valid()
      ensures Valid() && Snapshot() == old(Snapshot()).(selectOpen := true)
    {
      selectOpen := true;
    }

    /** The picker's own open/close requests. */
    method SetSelectOpen(open: bool)
      modifies this
      requires Valid()
      ensures Valid() && Snapshot() == old(Snapshot()).(selectOpen := open)
    {
      selectOpen := open;
    }

    /** `chooseSource` as written: it starts a sync from any mode, ready included. */
    method ChooseSourceAsWritten(b: Broker)
      modifies this
      requires Valid()
      ensures Valid() && mode == Syncing
      ensures Snapshot() == Entered(old(Snapshot()).(source := Some(b), selectOpen := false))
    {
      source := Some(b);
      selectOpen := false;
      EnterSyncing();
    }

    /** `chooseSource` with the same guard as the search effect: once ready, choosing only closes the picker. */
    method ChooseSource(b: Broker)
      modifies this
      requires Valid()
      ensures Valid() && Forward(old(mode), mode)
      ensures old(mode) == Ready ==> Snapshot() == old(Snapshot()).(selectOpen := false)
      ensures old(mode) != Ready ==>
        Snapshot() == Entered(old(Snapshot()).(source := Some(b), selectOpen := false))
    {
      selectOpen := false;
      if mode == Ready {
        return;
      }
      source := Some(b);
      EnterSyncing();
    }

    /** The next pending timer fires: the first three show steps 0, 1, 2; the fourth stores the flag and finishes. */
    method Tick()
      modifies this
      requires Valid()
      ensures Valid() && Forward(old(mode), mode)
      ensures old(mode) == Syncing && old(fired) < |Steps| ==>
        Snapshot() == old(Snapshot()).(stepIndex := old(fired), fired := old(fired) + 1)
      ensures old(mode) == Syncing && old(fired) == |Steps| ==>
        Snapshot() == old(Snapshot()).(mode := Ready, imported := true, fired := old(fired) + 1)
      ensures old(mode) != Syncing || old(fired) > |Steps| ==> Snapshot() == old(Snapshot())
    {
      if mode == Syncing && fired <= |Steps| {
        if fired < |Steps| {
          stepIndex := fired;
        } else {
          imported := true;
          mode := Ready;
        }
        fired := fired + 1;
      }
    }
  }

  /** Choosing a broker and letting the four timers run ends ready, with the flag stored. */
  method ImportRuns() returns (m: Mode, stored: bool)
    ensures m == Ready && stored
  {
    var d := new Importer(None);
    d.StartImport();
    d.ChooseSource(Zerodha);
    d.Tick();
    d.Tick();
    d.Tick();
    d.Tick();
    m, stored := d.mode, d.imported;
  }

  /**
   * As written, ready is left again: a route asking for the picker
   * during a sync leaves it open past the end, and choosing a broker
   * there restarts the sync.
   */
  method ReadyReentered() returns (before: Mode, after: Mode)
    ensures before == Ready && after == Syncing
  {
    var d := new Importer(None);
    d.OnSearch(Search(false, Some(Zerodha)));
    d.OnSearch(Search(true, None));
    d.Tick();
    d.Tick();
    d.Tick();
    d.Tick();
    before := d.mode;
    d.ChooseSourceAsWritten(Groww);
    after := d.mode;
  }

  /** With the guard, the same presses leave the dashboard ready. */
  method ReadyStays() returns (before: Mode, after: Mode)
    ensures before == Ready && after == Ready
  {
    var d := new Importer(None);
    d.OnSearch(Search(false, Some(Zerodha)));
    d.OnSearch(Search(true, None));
    d.Tick();
    d.Tick();
    d.Tick();
    d.Tick();
    before := d.mode;
    d.ChooseSource(Groww);
    after := d.mode;
  }
}
