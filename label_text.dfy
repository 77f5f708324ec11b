/**
 * The table row label: a top and a bottom caption folded into one string of at
 * most 25 characters (`generateLabelText` in TableViewController.swift).
 * Character counts are Swift `Character` counts; one `char` stands for one
 * Character.
 */
module LabelFormat {

  const Ellipsis: string := "..."
  /** Characters available for caption text, the middle ellipsis excluded. */
  const MaxNumCharsAvail: nat := 22
  const HalfNumCharsAvail: nat := MaxNumCharsAvail / 2

  /** The last `n` characters of `s`. */
  function Suffix(s: string, n: nat): (r: string)
    requires n <= |s|
    ensures |r| == n
  {
    s[|s| - n..]
  }

  /** What precedes the last `n` characters, followed by them, is the whole string again. */
  lemma SuffixCompletesString(s: string, n: nat)
    requires n <= |s|
    ensures s[..|s| - n] + Suffix(s, n) == s
  {
  }

  /** The part of the top caption that opens the label: all of it, or a hard cut at 11. */
  function TopSegment(top: string): (seg: string)
    ensures |seg| == if |top| <= HalfNumCharsAvail then |top| else HalfNumCharsAvail
  {
    if |top| <= HalfNumCharsAvail then top else top[..HalfNumCharsAvail]
  }

  /** The top segment is the top caption's own beginning. */
  lemma TopSegmentIsPrefix(top: string)
    ensures TopSegment(top) <= top
  {
  }

  /** Characters left for the bottom caption once the top segment is placed. */
  function Room(top: string): (n: nat)
    ensures HalfNumCharsAvail <= n <= MaxNumCharsAvail
  {
    MaxNumCharsAvail - |TopSegment(top)|
  }

  /** True when the bottom caption does not fit in the room left and must be cut. */
  predicate BottomTruncated(top: string, bottom: string)
  {
    |bottom| > Room(top)
  }

  /**
   * What follows the first ellipsis: the whole bottom caption when it fits;
   * otherwise its last `Room` characters when the top segment used its full
   * half, or else a front part that fills the room the short top left free, a
   * second ellipsis and the last 8 characters.
   */
  function BottomPart(top: string, bottom: string): (part: string)
    ensures !BottomTruncated(top, bottom) ==> part == bottom
    ensures BottomTruncated(top, bottom) ==> |part| == Room(top)
  {
    var room := Room(top);
    if |bottom| <= room then bottom
    else if room <= HalfNumCharsAvail then Suffix(bottom, room)
    else bottom[..room - HalfNumCharsAvail] + Ellipsis
         + Suffix(bottom, HalfNumCharsAvail - |Ellipsis|)
  }

  /** The label the table shows for a record with these captions. */
  function LabelText(top: string, bottom: string): (rowLabel: string)
    ensures |rowLabel| <= MaxNumCharsAvail + |Ellipsis|
  {
    TopSegment(top) + Ellipsis + BottomPart(top, bottom)
  }

  /**
   * `generateLabelText`, step by step as the source builds it: the label is
   * grown with `+=` and the remaining budget is a variable that is lowered
   * and later reset. It has no precondition: every slice offset it computes
   * lies inside its string for every pair of captions.
   */
  method GenerateLabelText(topText: string, bottomText: string) returns (labelText: string)
    ensures labelText == LabelText(topText, bottomText)
  {
    var remainingCharsAvail: int := MaxNumCharsAvail;
    labelText := "";

    if |topText| <= HalfNumCharsAvail {
      labelText := labelText + topText;
    } else {
      labelText := labelText + topText[..HalfNumCharsAvail];
    }

    assert labelText == TopSegment(topText);
    remainingCharsAvail := remainingCharsAvail - |labelText|;

    labelText := labelText + Ellipsis;

    if |bottomText| <= remainingCharsAvail {
      labelText := labelText + bottomText;
      LabelWhenBottomFits(topText, bottomText);
    } else if remainingCharsAvail <= HalfNumCharsAvail {
      labelText := labelText + bottomText[|bottomText| - remainingCharsAvail..];
      LabelWhenTopFullAndBottomLong(topText, bottomText);
    } else {
      var numCharsLeftAtFront := remainingCharsAvail - HalfNumCharsAvail;
      labelText := labelText + bottomText[..numCharsLeftAtFront];
      labelText := labelText + Ellipsis;
      remainingCharsAvail := HalfNumCharsAvail - |Ellipsis|;
      labelText := labelText + bottomText[|bottomText| - remainingCharsAvail..];
      LabelWhenTopShortAndBottomLong(topText, bottomText);
    }
  }

  /**
   * The label opens with the top caption itself when it has at most 11
   * characters and with exactly its first 11 otherwise, and an ellipsis
   * always follows that segment.
   */
  lemma LabelStartsWithTop(top: string, bottom: string)
    ensures |top| <= HalfNumCharsAvail ==> LabelText(top, bottom)[..|top|] == top
    ensures |top| > HalfNumCharsAvail ==>
      LabelText(top, bottom)[..HalfNumCharsAvail] == top[..HalfNumCharsAvail]
    ensures var k := |TopSegment(top)|;
      LabelText(top, bottom)[k..k + |Ellipsis|] == Ellipsis
  {
  }

  /** A bottom caption that fits in the room left is shown whole. */
  lemma LabelWhenBottomFits(top: string, bottom: string)
    requires |bottom| <= MaxNumCharsAvail - |TopSegment(top)|
    ensures LabelText(top, bottom) == TopSegment(top) + Ellipsis + bottom
  {
  }

  /** Two captions of at most 11 characters each appear whole, around one ellipsis. */
  lemma LabelOfShortCaptions(top: string, bottom: string)
    requires |top| <= HalfNumCharsAvail && |bottom| <= HalfNumCharsAvail
    ensures LabelText(top, bottom) == top + Ellipsis + bottom
  {
  }

  /**
   * When the top caption was cut at 11 and the bottom caption does not fit,
   * the label ends with exactly the last 11 characters of the bottom caption
   * and holds nothing else after the ellipsis.
   */
  lemma LabelWhenTopFullAndBottomLong(top: string, bottom: string)
    requires |TopSegment(top)| == HalfNumCharsAvail
    requires |bottom| > HalfNumCharsAvail
    ensures LabelText(top, bottom)
         == top[..HalfNumCharsAvail] + Ellipsis + bottom[|bottom| - HalfNumCharsAvail..]
    ensures var rowLabel := LabelText(top, bottom);
      rowLabel[|rowLabel| - HalfNumCharsAvail..] == bottom[|bottom| - HalfNumCharsAvail..]
  {
  }

  /**
   * When the top caption is shorter than 11 characters and the bottom caption
   * does not fit, the bottom caption is split around a second ellipsis: its
   * first `11 - |top|` characters in front, its last 8 behind.
   */
  lemma LabelWhenTopShortAndBottomLong(top: string, bottom: string)
    requires |top| < HalfNumCharsAvail
    requires |bottom| > MaxNumCharsAvail - |top|
    ensures LabelText(top, bottom)
         == top + Ellipsis + bottom[..HalfNumCharsAvail - |top|] + Ellipsis
            + bottom[|bottom| - (HalfNumCharsAvail - |Ellipsis|)..]
  {
    assert TopSegment(top) == top;
    assert Room(top) - HalfNumCharsAvail == HalfNumCharsAvail - |top|;
  }

  /**
   * The label's length: the 22-character budget caps the caption text, so the
   * label has at most 25 characters, and exactly 25 whenever the bottom
   * caption is cut.
   */
  lemma LabelLength(top: string, bottom: string)
    ensures var n := |TopSegment(top)| + |bottom|;
      |LabelText(top, bottom)| == |Ellipsis| + (if n <= MaxNumCharsAvail then n else MaxNumCharsAvail)
    ensures |LabelText(top, bottom)| <= MaxNumCharsAvail + |Ellipsis|
    ensures BottomTruncated(top, bottom) ==> |LabelText(top, bottom)| == MaxNumCharsAvail + |Ellipsis|
  {
  }

  /** Worked example: a 16-character top caption over an empty bottom caption. */
  lemma ExampleLongTopEmptyBottom()
    ensures LabelText("ABCDEFGHIJKLMNOP", "") == "ABCDEFGHIJK..."
  {
  }

  /** Worked example: a long top caption and a short bottom caption. */
  lemma ExampleLongTopShortBottom()
    ensures LabelText("HELLO WORLD THIS IS LONG", "SHORT") == "HELLO WORLD...SHORT"
  {
  }

  /**
   * Worked example: a two-character top caption over a 21-character bottom
   * caption keeps the bottom caption's first 9 and last 8 characters.
   */
  lemma ExampleSplitBottom()
    ensures LabelText("HI", "ABCDEFGHI" + "JKLM" + "NOPQRSTU")
         == "HI" + "..." + "ABCDEFGHI" + "..." + "NOPQRSTU"
  {
    var front, middle, back := "ABCDEFGHI", "JKLM", "NOPQRSTU";
    var bottom := front + middle + back;
    LabelWhenTopShortAndBottomLong("HI", bottom);
    assert bottom[..9] == front;
    assert bottom[13..] == back;
  }
}
