/** The meta-column dialog: the column headers start in the feature list,
    and clicking an item moves it to the end of the other list. The result
    is the meta list as it stood after the last move; it is absent when
    nothing was ever moved. */
module MetaDialog {
  import opened Wrappers
  import opened TrainingManager

  /** Moving the item at `sel` from `from` to the end of `to`; a negative
      `sel` (no selection) moves nothing. Items are neither lost nor made. */
  function Swap(from: seq<string>, to: seq<string>, sel: int): (r: (seq<string>, seq<string>))
    requires sel < |from|
    ensures multiset(r.0 + r.1) == multiset(from + to)
    ensures sel < 0 ==> r == (from, to)
    ensures sel >= 0 ==> |r.0| == |from| - 1 && r.1 == to + [from[sel]]
    ensures sel >= 0 ==> r.0[..sel] == from[..sel] && r.0[sel..] == from[sel + 1..]
  {
    if sel < 0 then (from, to)
    else
      var rest := from[..sel] + from[sel + 1..];
      assert from == from[..sel] + [from[sel]] + from[sel + 1..];
      assert multiset(rest + (to + [from[sel]])) == multiset(from + to);
      (rest, to + [from[sel]])
  }

  class Dialog {
    /** The headers offered. */
    const colNames: seq<string>
    /** Whether a label column is asked for: classification models only. */
    const needLabel: bool
    var features: seq<string>
    var meta: seq<string>
    var result: Option<seq<string>>

    /** Items are only moved between the lists, and a result, once there,
        is the meta list. */
    predicate Valid()
      reads this
    {
      && multiset(features + meta) == multiset(colNames)
      && (if result.None? then meta == [] else result.value == meta)
    }

    /** The dialog with its two lists: every header in the feature list, in
        order, and an empty meta list. */
    constructor(headers: seq<string>, t: ModelType)
      ensures colNames == headers && needLabel == (t == Class)
      ensures features == headers && meta == [] && result == None
      ensures Valid()
    {
      colNames := headers;
      needLabel := t == Class;
      features := headers;
      meta := [];
      result := None;
    }

    /** A click on item `sel` of the feature list (`fromFeatures`) or of the
        meta list; -1 when nothing is selected. After a move the result is
        the meta list. */
    method ListSwap(fromFeatures: bool, sel: int)
      requires Valid()
      requires sel < if fromFeatures then |features| else |meta|
      modifies this
      ensures Valid()
      ensures fromFeatures ==> (features, meta) == Swap(old(features), old(meta), sel)
      ensures !fromFeatures ==> (meta, features) == Swap(old(meta), old(features), sel)
      ensures sel < 0 ==> result == old(result)
      ensures sel >= 0 ==> result == Some(meta)
    {
      if sel >= 0 {
        if fromFeatures {
          var selectedItem := features[sel];
          meta := meta + [selectedItem];
          features := features[..sel] + features[sel + 1..];
          assert (features, meta) == Swap(old(features), old(meta), sel);
        } else {
          var selectedItem := meta[sel];
          features := features + [selectedItem];
          meta := meta[..sel] + meta[sel + 1..];
          assert (meta, features) == Swap(old(meta), old(features), sel);
          assert multiset(features + meta) == multiset(meta + features);
        }
        result := Some(meta);
      }
    }

    /** What the dialog hands back: the meta list after the last move, drawn
        from the headers, or nothing if no item was moved. */
    method Open() returns (r: Option<seq<string>>)
      requires Valid()
      ensures r == result
      ensures r.None? ==> meta == []
      ensures r.Some? ==> r.value == meta && multiset(r.value) <= multiset(colNames)
    {
      r := result;
    }
  }

  /** A dialog closed without moving any item answers nothing, on which the
      source's directory analysis stops (`shown` is that setup), while the
      corrected setup has no meta columns and no id column. */
  method UntouchedDialog() returns (shown: Option<ParmSetup>, corrected: ParmSetup)
    ensures shown == None
    ensures corrected == ParmSetup(1, [], None)
  {
    var d := new Dialog(["id", "x"], Class);
    var answer := d.Open();
    shown := SetupAsWritten(5, answer);
    corrected := Setup(5, answer);
  }
}
