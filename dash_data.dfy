/**
 * The records the app keeps for one session and the process-wide list that holds
 * them (`DashData.allDashs`).
 */
module DashData {
  import opened Wrappers

  /** An opaque image handle (a `UIImage`); its pixels play no part in the model. */
  datatype Image = Image(id: nat)

  /**
   * One saved record: the two captions, the image they were drawn over and the
   * flattened image with the captions burned in. Either image may be nil in
   * the source's record type.
   */
  datatype Dash = Dash(
    topDashText: string,
    bottomDashText: string,
    originalImage: Option<Image>,
    dashdImage: Option<Image>)

  /**
   * The shared, ordered list of records. Insertion order is display order and a
   * record's position is its only identity. Both view controllers hold a
   * reference to the same store object.
   */
  class DashStore {
    var allDashs: seq<Dash>

    /** The list starts empty when the process starts. */
    constructor ()
      ensures allDashs == []
    {
      allDashs := [];
    }

    /** Number of records, as `allDashs.count`. */
    function Count(): nat
      reads this
    {
      |allDashs|
    }

    /** `allDashs.append(dash)`: one more record, at the end; nothing else changes. */
    method Append(dash: Dash)
      modifies this
      ensures |allDashs| == |old(allDashs)| + 1
      ensures allDashs[|allDashs| - 1] == dash
      ensures allDashs[..|old(allDashs)|] == old(allDashs)
    {
      allDashs := allDashs + [dash];
    }

    /**
     * `allDashs.remove(at: index)`: element `index` goes, later elements move
     * down by one position, earlier ones stay where they were. The source traps
     * on an index outside the list; its only caller passes a row of the table,
     * which always lies inside it.
     */
    method RemoveAt(index: nat)
      requires index < |allDashs|
      modifies this
      ensures |allDashs| == |old(allDashs)| - 1
      ensures forall j :: 0 <= j < index ==> allDashs[j] == old(allDashs)[j]
      ensures forall j :: index <= j < |allDashs| ==> allDashs[j] == old(allDashs)[j + 1]
      ensures multiset(allDashs) + multiset{old(allDashs)[index]} == multiset(old(allDashs))
    {
      ghost var before := allDashs;
      allDashs := allDashs[..index] + allDashs[index + 1..];
      assert before == before[..index] + [before[index]] + before[index + 1..];
    }
  }
}
