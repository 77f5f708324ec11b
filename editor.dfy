/**
 * The editor screen (EditorViewController.swift): the uppercasing text-field
 * rule, the share button's enabled state, and saving a record once sharing
 * completes.
 */
module Editor {
  import opened Wrappers
  import opened DashData

  /** A range of the field's text, counted in characters. */
  datatype NSRange = NSRange(location: nat, length: nat)

  predicate InText(text: string, range: NSRange)
  {
    range.location + range.length <= |text|
  }

  /**
   * `replacingCharacters(in:with:)`: the characters in `range` give way to
   * `replacement`; what stands before and after the range is kept.
   */
  function Splice(text: string, range: NSRange, replacement: string): (r: string)
    requires InText(text, range)
    ensures |r| == |text| - range.length + |replacement|
    ensures r[..range.location] == text[..range.location]
    ensures r[range.location..range.location + |replacement|] == replacement
    ensures r[range.location + |replacement|..] == text[range.location + range.length..]
  {
    var start, end := range.location, range.location + range.length;
    text[..start] + replacement + text[end..]
  }

  /**
   * The three parts named in Splice's contract (kept prefix, replacement,
   * kept suffix) determine the spliced text completely.
   */
  lemma SpliceDeterminedByParts(text: string, range: NSRange, replacement: string, s: string)
    requires InText(text, range)
    requires |s| == |text| - range.length + |replacement|
    requires s[..range.location] == text[..range.location]
    requires s[range.location..range.location + |replacement|] == replacement
    requires s[range.location + |replacement|..] == text[range.location + range.length..]
    ensures s == Splice(text, range, replacement)
  {
  }

  /** With an empty replacement (a deletion) the range is simply cut out. */
  lemma SpliceOfEmptyDeletes(text: string, range: NSRange)
    requires InText(text, range)
    ensures Splice(text, range, "") == text[..range.location] + text[range.location + range.length..]
    ensures |Splice(text, range, "")| == |text| - range.length
  {
  }

  /**
   * A deletion keystroke (an empty replacement string) removes the range
   * from the field, given that uppercasing the empty string yields the empty
   * string; uppercasing may otherwise change lengths freely.
   */
  lemma DeletionKeystrokeRemovesRange(text: string, range: NSRange, upper: string -> string)
    requires InText(text, range)
    requires upper("") == ""
    ensures Splice(text, range, upper("")) == text[..range.location] + text[range.location + range.length..]
  {
  }

  /** Splicing over an empty range inserts the replacement at that position. */
  lemma SpliceOfEmptyRangeInserts(text: string, location: nat, replacement: string)
    requires location <= |text|
    ensures Splice(text, NSRange(location, 0), replacement)
         == text[..location] + replacement + text[location..]
  {
  }

  /** A caption text field; the model keeps only its text. */
  class TextField {
    var text: string

    constructor (text: string)
      ensures this.text == text
    {
      this.text := text;
    }
  }

  class EditorViewController {
    const store: DashStore
    const topTextField: TextField
    const bottomTextField: TextField

    var cameFromDetail: bool
    var defaultTopText: string
    var defaultBottomText: string
    /** The image handed over by the detail view, if any. */
    var selectedImage: Option<Image>
    /** The image shown in the editor's image view (`DashImageView.image`). */
    var displayedImage: Option<Image>
    /** The last composed image (`DashdImage`). */
    var dashdImage: Option<Image>
    /** Whether the share button is enabled. */
    var activityButtonEnabled: bool

    constructor (store: DashStore, topText: string, bottomText: string)
      ensures this.store == store
      ensures fresh(topTextField) && fresh(bottomTextField) && topTextField != bottomTextField
      ensures topTextField.text == topText && bottomTextField.text == bottomText
      ensures defaultTopText == "TOP" && defaultBottomText == "BOTTOM"
      ensures !cameFromDetail && selectedImage == None && displayedImage == None && dashdImage == None
    {
      this.store := store;
      topTextField := new TextField(topText);
      bottomTextField := new TextField(bottomText);
      cameFromDetail := false;
      defaultTopText, defaultBottomText := "TOP", "BOTTOM";
      selectedImage, displayedImage, dashdImage := None, None, None;
      activityButtonEnabled := false;
    }

    /**
     * `viewDidLoad`: the top field shows the default top text and a handed-over
     * image is displayed. The bottom field keeps its text (the source leaves
     * the line that would set the bottom default commented out).
     */
    method ViewDidLoad()
      modifies this`displayedImage, topTextField
      ensures topTextField.text == defaultTopText
      ensures displayedImage == if selectedImage.Some? then selectedImage else old(displayedImage)
      ensures bottomTextField != topTextField ==> bottomTextField.text == old(bottomTextField.text)
    {
      topTextField.text := defaultTopText;
      if selectedImage.Some? {
        displayedImage := selectedImage;
      }
    }

    /** `viewWillAppear`: the share button is enabled exactly when an image is displayed. */
    method ViewWillAppear()
      modifies this`activityButtonEnabled
      ensures activityButtonEnabled <==> displayedImage.Some?
    {
      activityButtonEnabled := displayedImage.Some?;
    }

    /**
     * `textField(_:shouldChangeCharactersIn:replacementString:)`: the edit is
     * applied with the replacement uppercased, and `false` tells the text
     * field not to apply the raw keystroke itself. `upper` is the platform's
     * uppercasing, which need not keep the length.
     */
    method ShouldChangeCharactersIn(textField: TextField, range: NSRange, replacement: string,
                                    upper: string -> string)
      returns (applyRawEdit: bool)
      requires InText(textField.text, range)
      modifies textField
      ensures textField.text == Splice(old(textField.text), range, upper(replacement))
      ensures replacement == "" && upper("") == "" ==>
        textField.text == old(textField.text)[..range.location]
                          + old(textField.text)[range.location + range.length..]
      ensures !applyRawEdit
    {
      var currentText := textField.text;
      var capitalizedText := Splice(currentText, range, upper(replacement));
      textField.text := capitalizedText;
      return false;
    }

    /**
     * `saveDash`: a record of the current captions, the displayed image and the
     * composed image is appended to the shared store.
     */
    method SaveDash()
      modifies store
      ensures store.allDashs ==
        old(store.allDashs) + [Dash(topTextField.text, bottomTextField.text, displayedImage, dashdImage)]
    {
      var dash := Dash(topTextField.text, bottomTextField.text, displayedImage, dashdImage);
      store.Append(dash);
      assert store.allDashs == old(store.allDashs) + [dash];
    }

    /**
     * `shareDash` with its completion handler: the freshly composed image
     * (rendering is outside the model, so it arrives as `composed`) is kept,
     * and only a share that reports completion saves the record and returns to
     * the list; a cancelled share leaves the store as it was.
     */
    method ShareDash(composed: Image, completed: bool) returns (unwindToList: bool)
      modifies this`dashdImage, store
      ensures dashdImage == Some(composed)
      ensures unwindToList == completed
      ensures completed ==>
        store.allDashs == old(store.allDashs)
                          + [Dash(topTextField.text, bottomTextField.text, displayedImage, Some(composed))]
      ensures !completed ==> store.allDashs == old(store.allDashs)
    {
      dashdImage := Some(composed);
      if completed {
        SaveDash();
        unwindToList := true;
      } else {
        unwindToList := false;
      }
    }
  }
}
