/** A parameter whose value is a set of enumeration names: one checkbox per
    possible name, a label per name that selects that name alone, and an ALL
    button. The value is the selected names in string order, separated by
    ", ". */
module ParmDialogChoices {
  import opened Strings

  /** Strictly ascending in string order: the iteration order of a sorted set. */
  predicate Sorted(xs: seq<string>) {
    forall i, j :: 0 <= i < j < |xs| ==> Less(xs[i], xs[j])
  }

  lemma SortedCons(a: string, t: seq<string>)
    requires Sorted(t)
    requires forall y :: y in t ==> Less(a, y)
    ensures Sorted([a] + t)
  {
    forall i, j | 0 <= i < j < |[a] + t|
      ensures Less(([a] + t)[i], ([a] + t)[j])
    {
      assert ([a] + t)[j] == t[j - 1];
      if i > 0 {
        assert ([a] + t)[i] == t[i - 1];
      }
    }
  }

  lemma SortedTail(xs: seq<string>)
    requires Sorted(xs) && |xs| > 0
    ensures Sorted(xs[1..])
    ensures forall y :: y in xs[1..] ==> Less(xs[0], y)
    ensures xs[0] !in xs[1..]
  {
    LessIrreflexive(xs[0]);
  }

  /** `TreeSet.add`: the name joins the set, in its place. */
  function Insert(xs: seq<string>, x: string): (r: seq<string>)
    requires Sorted(xs)
    ensures Sorted(r)
    ensures forall y :: y in r <==> y in xs || y == x
    decreases |xs|
  {
    if |xs| == 0 then [x]
    else if x == xs[0] then xs
    else if Less(x, xs[0]) then
      SortedTail(xs);
      assert forall y :: y in xs ==> Less(x, y) by {
        forall y | y in xs ensures Less(x, y) {
          if y != xs[0] { LessTransitive(x, xs[0], y); }
        }
      }
      SortedCons(x, xs);
      [x] + xs
    else
      SortedTail(xs);
      LessTotal(x, xs[0]);
      var rest := Insert(xs[1..], x);
      SortedCons(xs[0], rest);
      assert xs == [xs[0]] + xs[1..];
      [xs[0]] + rest
  }

  /** `TreeSet.remove`: the name leaves the set. */
  function Remove(xs: seq<string>, x: string): (r: seq<string>)
    requires Sorted(xs)
    ensures Sorted(r)
    ensures forall y :: y in r <==> y in xs && y != x
    decreases |xs|
  {
    if |xs| == 0 then []
    else
      SortedTail(xs);
      assert xs == [xs[0]] + xs[1..];
      if xs[0] == x then xs[1..]
      else
        var rest := Remove(xs[1..], x);
        SortedCons(xs[0], rest);
        [xs[0]] + rest
  }

  /** The sorted set of the names in `ts`, added in order. */
  function SortedOf(ts: seq<string>): (r: seq<string>)
    ensures Sorted(r)
    ensures forall y :: y in r <==> y in ts
    decreases |ts|
  {
    if |ts| == 0 then []
    else
      assert ts == ts[..|ts| - 1] + [ts[|ts| - 1]];
      Insert(SortedOf(ts[..|ts| - 1]), ts[|ts| - 1])
  }

  /** `TreeSet.addAll`: every name of `ys` joins the set. */
  function InsertAll(xs: seq<string>, ys: seq<string>): (r: seq<string>)
    requires Sorted(xs)
    ensures Sorted(r)
    ensures forall y :: y in r <==> y in xs || y in ys
    decreases |ys|
  {
    if |ys| == 0 then xs
    else
      assert ys == [ys[0]] + ys[1..];
      InsertAll(Insert(xs, ys[0]), ys[1..])
  }

  /** Two sorted sequences with the same names are the same sequence: the
      sorted sequence is determined by the set. */
  lemma {:induction false} SortedUnique(a: seq<string>, b: seq<string>)
    requires Sorted(a) && Sorted(b)
    requires forall y :: y in a <==> y in b
    ensures a == b
    decreases |a|
  {
    if |a| > 0 {
      assert a[0] in b;
      var k :| 0 <= k < |b| && b[k] == a[0];
      assert b[0] in a;
      var m :| 0 <= m < |a| && a[m] == b[0];
      if k > 0 && m > 0 {
        LessAsymmetric(a[0], b[0]);
      }
      if k == 0 {
        assert a[0] == b[0];
      } else {
        assert m == 0;
      }
      SortedTail(a);
      SortedTail(b);
      assert forall y :: y in a[1..] <==> y in a && y != a[0] by {
        assert a == [a[0]] + a[1..];
      }
      assert forall y :: y in b[1..] <==> y in b && y != b[0] by {
        assert b == [b[0]] + b[1..];
      }
      SortedUnique(a[1..], b[1..]);
      assert a == [a[0]] + a[1..] && b == [b[0]] + b[1..];
    } else {
      HeadIn(b);
    }
  }

  lemma HeadIn(b: seq<string>)
    ensures |b| > 0 ==> b[0] in b
  {
  }

  /** The characters that separate names in a stored value. */
  const Separators: set<char> := {',', ' '}

  /** The selected set read from a stored value. */
  function Parse(value: string): seq<string> {
    SortedOf(Tokens(value, Separators))
  }

  /** The stored value of a selected set. */
  function Serialize(selected: seq<string>): string {
    Join(selected, ", ")
  }

  /** Reading back a stored value gives the same set, when no name is empty
      or holds a comma or a space. */
  lemma ParseSerialize(selected: seq<string>)
    requires Sorted(selected)
    requires forall k :: 0 <= k < |selected| ==> |selected[k]| > 0 && Clean(selected[k], Separators)
    ensures Parse(Serialize(selected)) == selected
  {
    TokensOfJoin(selected, ", ", Separators);
    SortedUnique(Parse(Serialize(selected)), selected);
  }

  class Choices {
    /** The enumeration's names, in declaration order. */
    const possibilities: seq<string>
    /** The selected names, in string order. */
    var selected: seq<string>
    /** The descriptor's value. */
    var value: string
    /** The checkbox of each possible name: whether it is checked. */
    var boxes: map<string, bool>

    predicate Valid()
      reads this
    {
      Sorted(selected) && boxes.Keys == (set p | p in possibilities)
    }

    /** The boxes show exactly the selected names. */
    predicate BoxesMatch()
      reads this
    {
      forall p :: p in boxes ==> boxes[p] == (p in selected)
    }

    /** Reads the selected set from the descriptor's value and makes one
        checkbox per possible name, checked iff the name is selected. */
    constructor(possibilities: seq<string>, value: string)
      ensures this.possibilities == possibilities && this.value == value
      ensures selected == Parse(value)
      ensures forall y :: y in selected <==> y in Tokens(value, Separators)
      ensures Valid() && BoxesMatch()
    {
      this.possibilities := possibilities;
      this.value := value;
      selected := Parse(value);
      boxes := map[];
      new;
      var i := 0;
      while i < |possibilities|
        invariant 0 <= i <= |possibilities|
        invariant selected == Parse(value) && this.value == value
        invariant forall p :: p in boxes <==> p in possibilities[..i]
        invariant BoxesMatch()
      {
        boxes := boxes[possibilities[i] := possibilities[i] in selected];
        assert possibilities[..i + 1] == possibilities[..i] + [possibilities[i]];
        i := i + 1;
      }
      assert possibilities[..i] == possibilities;
    }

    /** Writes the selected names, in order, into the descriptor's value. */
    method UpdateValue()
      modifies this
      ensures value == Serialize(selected)
      ensures selected == old(selected) && boxes == old(boxes)
    {
      value := Join(selected, ", ");
    }

    /** Sets every checkbox from the selected set. */
    method FixCheckBoxes()
      modifies this
      ensures boxes.Keys == old(boxes).Keys && BoxesMatch()
      ensures selected == old(selected) && value == old(value)
    {
      var todo := boxes.Keys;
      while todo != {}
        invariant todo <= boxes.Keys && boxes.Keys == old(boxes).Keys
        invariant selected == old(selected) && value == old(value)
        invariant forall p :: p in boxes && p !in todo ==> boxes[p] == (p in selected)
        decreases todo
      {
        var p :| p in todo;
        boxes := boxes[p := p in selected];
        todo := todo - {p};
      }
    }

    /** The listener of the checkbox of `option`, run after the user toggled
        it: the name is added when the box is now checked and removed when it
        is clear; other names stay as they were; then the value is updated. */
    method CheckToggled(option: string)
      requires Valid() && option in boxes
      modifies this
      ensures Valid()
      ensures forall y :: y != option ==> (y in selected <==> y in old(selected))
      ensures option in selected <==> boxes[option]
      ensures value == Serialize(selected)
      ensures boxes == old(boxes)
    {
      if boxes[option] {
        selected := Insert(selected, option);
      } else {
        selected := Remove(selected, option);
      }
      UpdateValue();
    }

    /** A double click on the label of `option`: that name alone is selected. */
    method LabelDoubleClicked(option: string)
      requires Valid()
      modifies this
      ensures Valid() && BoxesMatch()
      ensures selected == [option]
      ensures value == option
      ensures boxes.Keys == old(boxes).Keys
    {
      selected := [option];
      UpdateValue();
      FixCheckBoxes();
    }

    /** The ALL button: every possible name joins the selected set; names
        already selected that are not possible stay. */
    method AllClicked()
      requires Valid()
      modifies this
      ensures Valid() && BoxesMatch()
      ensures forall y :: y in selected <==> y in old(selected) || y in possibilities
      ensures forall p :: p in boxes ==> boxes[p]
      ensures value == Serialize(selected)
      ensures boxes.Keys == old(boxes).Keys
    {
      selected := InsertAll(selected, possibilities);
      UpdateValue();
      FixCheckBoxes();
    }
  }
}
