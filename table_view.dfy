/**
 * The list screen (TableViewController.swift): the unwind-permission flags, the
 * row count, row deletion and the empty-state display.
 */
module TableView {
  import opened Wrappers
  import opened DashData

  const SegueToDetail: string := "tableViewSegueToDetail"
  const SegueToEditor: string := "tableViewSegueToEditor"

  /**
   * The unwind actions the controller may be asked about: `unwindFromEditor`,
   * or `OtherAction`, which stands for any selector other than
   * `unwindFromEditor` (its name is kept only for reading).
   */
  datatype UnwindAction = UnwindFromEditor | OtherAction(selector: string)

  /** `UITableViewCell.EditingStyle`: the kind of edit the table commits. */
  datatype EditingStyle = NoEditing | Delete | Insert

  /** Whether this controller started the segue to the editor or to the detail view. */
  datatype SegueFlags = SegueFlags(startedEditorSegue: bool, startedDetailSegue: bool)

  const NoSegueStarted := SegueFlags(false, false)

  /**
   * `prepare(for:sender:)`: a segue without an identifier is ignored, the two
   * known identifiers raise their own flag, any other identifier changes
   * nothing.
   */
  function AfterPrepare(f: SegueFlags, segueId: Option<string>): (g: SegueFlags)
    ensures g.startedEditorSegue <==> f.startedEditorSegue || segueId == Some(SegueToEditor)
    ensures g.startedDetailSegue <==> f.startedDetailSegue || segueId == Some(SegueToDetail)
  {
    match segueId
    case None => f
    case Some(id) =>
      if id == SegueToDetail then f.(startedDetailSegue := true)
      else if id == SegueToEditor then f.(startedEditorSegue := true)
      else f
  }

  /** `unwindFromEditor`: both flags are reset so the next unwind starts afresh. */
  function AfterUnwind(f: SegueFlags): (g: SegueFlags)
    ensures !g.startedEditorSegue && !g.startedDetailSegue
  {
    NoSegueStarted
  }

  /**
   * `canPerformUnwindSegueAction`: only the editor's unwind is accepted, and
   * only after this controller started a segue.
   */
  function CanPerform(f: SegueFlags, action: UnwindAction): (b: bool)
    ensures b <==> action == UnwindFromEditor && f != NoSegueStarted
  {
    match action
    case UnwindFromEditor => f.startedDetailSegue || f.startedEditorSegue
    case OtherAction(_) => false
  }

  /** A step in the life of the list screen that touches the flags. */
  datatype SegueEvent = Prepare(segueId: Option<string>) | Unwind

  predicate StartsOwnSegue(e: SegueEvent)
  {
    e.Prepare? && (e.segueId == Some(SegueToDetail) || e.segueId == Some(SegueToEditor))
  }

  function Step(f: SegueFlags, e: SegueEvent): SegueFlags
  {
    match e
    case Prepare(id) => AfterPrepare(f, id)
    case Unwind => AfterUnwind(f)
  }

  /** The flags after a history of events, starting from a freshly loaded controller. */
  function Run(events: seq<SegueEvent>): SegueFlags
  {
    if events == [] then NoSegueStarted
    else Step(Run(events[..|events| - 1]), events[|events| - 1])
  }

  /** Any other unwind action is refused, whatever the flags are. */
  lemma OtherActionsRefused(f: SegueFlags, selector: string)
    ensures !CanPerform(f, OtherAction(selector))
  {
  }

  /** Right after an unwind, no unwind action is accepted until a new segue starts. */
  lemma NothingAcceptedAfterUnwind(f: SegueFlags, action: UnwindAction)
    ensures !CanPerform(AfterUnwind(f), action)
  {
  }

  /**
   * Over any history, the editor's unwind is accepted exactly when this
   * controller started one of its two segues and no unwind has happened since.
   */
  lemma {:induction false} UnwindAcceptedIffSegueSinceLastUnwind(events: seq<SegueEvent>)
    ensures CanPerform(Run(events), UnwindFromEditor) <==>
      exists k :: 0 <= k < |events| && StartsOwnSegue(events[k]) &&
        forall j :: k < j < |events| ==> events[j] != Unwind
  {
    if events != [] {
      var n := |events| - 1;
      var prefix, last := events[..n], events[n];
      UnwindAcceptedIffSegueSinceLastUnwind(prefix);
      assert forall k :: 0 <= k < n ==> prefix[k] == events[k];
      if last == Unwind {
        // every segue started before is followed by this unwind
        assert !CanPerform(Run(events), UnwindFromEditor);
        assert forall k :: 0 <= k < |events| && StartsOwnSegue(events[k]) ==>
          k < n && events[n] == Unwind;
      } else if StartsOwnSegue(last) {
        assert CanPerform(Run(events), UnwindFromEditor);
        assert StartsOwnSegue(events[n]);
      } else {
        // an unknown or missing identifier leaves the flags as they were
        assert Run(events) == Run(prefix);
        assert forall k :: 0 <= k < |events| && StartsOwnSegue(events[k]) ==> k < n;
      }
    }
  }

  /**
   * The list screen. It shares the store with the editor; it shows the edit
   * button (enabled or not, titled "Edit" or "Done") and, when the list is
   * empty, a background message instead of rows.
   */
  class TableViewController {
    const store: DashStore
    var startedEditorSegue: bool
    var startedDetailSegue: bool
    var editButtonEnabled: bool
    var editButtonTitle: string
    var emptyMessageShown: bool

    function Flags(): SegueFlags
      reads this
    {
      SegueFlags(startedEditorSegue, startedDetailSegue)
    }

    /** The edit button and the background message agree with the store's count. */
    ghost predicate EmptyStateShown()
      reads this, store
    {
      editButtonEnabled == (store.Count() != 0) && emptyMessageShown == (store.Count() == 0)
    }

    constructor (store: DashStore)
      ensures this.store == store
      ensures Flags() == NoSegueStarted
      ensures editButtonTitle == "Edit"
    {
      this.store := store;
      startedEditorSegue, startedDetailSegue := false, false;
      editButtonEnabled, editButtonTitle, emptyMessageShown := true, "Edit", false;
    }

    /** `viewWillAppear`: the empty state is recomputed from the store's count. */
    method ViewWillAppear()
      modifies this
      ensures EmptyStateShown()
      ensures Flags() == old(Flags()) && editButtonTitle == old(editButtonTitle)
    {
      var numDashs := store.Count();
      var isEmpty := numDashs == 0;
      editButtonEnabled := !isEmpty;
      SetUpTableViewBackground(isEmpty);
    }

    /**
     * `setUpTableViewBackground`: the empty-list message is installed when the
     * list is empty and removed when it is not (each only if needed).
     */
    method SetUpTableViewBackground(isEmpty: bool)
      modifies this`emptyMessageShown
      ensures emptyMessageShown == isEmpty
    {
      if !isEmpty {
        if emptyMessageShown {
          emptyMessageShown := false;
        }
      } else {
        if !emptyMessageShown {
          emptyMessageShown := true;
        }
      }
    }

    /** `prepare(for:sender:)`, as far as the flags are concerned. */
    method PrepareForSegue(segueId: Option<string>)
      modifies this`startedEditorSegue, this`startedDetailSegue
      ensures Flags() == AfterPrepare(old(Flags()), segueId)
    {
      match segueId {
        case None =>
          return;
        case Some(id) =>
          if id == SegueToDetail {
            startedDetailSegue := true;
          } else if id == SegueToEditor {
            startedEditorSegue := true;
          }
      }
    }

    /** `canPerformUnwindSegueAction`: reads the flags and changes nothing. */
    method CanPerformUnwindSegueAction(action: UnwindAction) returns (isUnwindResponder: bool)
      ensures isUnwindResponder == CanPerform(Flags(), action)
      ensures isUnwindResponder <==>
        action == UnwindFromEditor && (startedDetailSegue || startedEditorSegue)
    {
      match action {
        case UnwindFromEditor =>
          isUnwindResponder := startedDetailSegue || startedEditorSegue;
        case OtherAction(_) =>
          isUnwindResponder := false;
      }
    }

    /** `unwindFromEditor`: both flags go back to false. */
    method UnwindFromEditorAction()
      modifies this`startedEditorSegue, this`startedDetailSegue
      ensures Flags() == AfterUnwind(old(Flags()))
      ensures !startedEditorSegue && !startedDetailSegue
    {
      startedEditorSegue := false;
      startedDetailSegue := false;
    }

    /** `numberOfRowsInSection`: the table always has as many rows as the store has records. */
    method NumberOfRowsInSection() returns (numRows: nat)
      ensures numRows == |store.allDashs|
    {
      numRows := store.Count();
    }

    /**
     * `commit editingStyle` with `.delete`: record `row` is removed; when that
     * empties the list, the edit button is reset to "Edit", disabled, and the
     * empty message is shown. Other editing styles change nothing.
     */
    method CommitEditingStyle(editingStyle: EditingStyle, row: nat)
      requires editingStyle == Delete ==> row < |store.allDashs|
      modifies this, store
      ensures editingStyle == Delete ==> |store.allDashs| == |old(store.allDashs)| - 1
      ensures editingStyle == Delete ==> store.allDashs == old(store.allDashs)[..row] + old(store.allDashs)[row + 1..]
      ensures editingStyle != Delete ==> store.allDashs == old(store.allDashs)
      ensures editingStyle == Delete && store.allDashs == [] ==>
        !editButtonEnabled && editButtonTitle == "Edit" && emptyMessageShown
      ensures !(editingStyle == Delete && store.allDashs == []) ==>
        editButtonEnabled == old(editButtonEnabled) &&
        editButtonTitle == old(editButtonTitle) &&
        emptyMessageShown == old(emptyMessageShown)
      ensures old(EmptyStateShown()) ==> EmptyStateShown()
      ensures Flags() == old(Flags())
    {
      if editingStyle == Delete {
        store.RemoveAt(row);
        assert store.allDashs == old(store.allDashs)[..row] + old(store.allDashs)[row + 1..];
        if store.Count() == 0 {
          editButtonTitle := "Edit";
          editButtonEnabled := false;
          var isEmpty := true;
          SetUpTableViewBackground(isEmpty);
        }
      }
    }
  }
}
