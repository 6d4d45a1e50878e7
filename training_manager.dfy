/** The training manager window: which buttons are enabled, how a command is
    started on a worker, the runnables the worker posts to the display thread
    (status message, results report, epoch progress, re-enable), and the
    small decisions taken when a model directory is chosen. */
module TrainingManager {
  import opened Wrappers
  import opened Strings

  datatype ModelType = Class | Regression

  /** The command-line name of a model type (the enum constant's name). */
  function TypeName(t: ModelType): string {
    if t == Class then "CLASS" else "REGRESSION"
  }

  /** The caption of the results button for a model type. */
  function GraphText(t: ModelType): string {
    if t == Class then "Confusion Matrix" else "Scatter Plot"
  }

  // ---------------------------------------------------------------------
  // Results text: the report split at line breaks, joined with the
  // platform line separator.

  /** The pieces of `s` between matches of the pattern `\r?\n`: a line break
      is a `\n`, together with a `\r` directly before it. */
  function Pieces(s: string): (ps: seq<string>)
    ensures |ps| >= 1
    ensures forall k :: 0 <= k < |ps| ==> '\n' !in ps[k]
    decreases |s|
  {
    if |s| == 0 then [""]
    else if s[0] == '\n' then [""] + Pieces(s[1..])
    else if |s| >= 2 && s[0] == '\r' && s[1] == '\n' then [""] + Pieces(s[2..])
    else
      var p := Pieces(s[1..]);
      [[s[0]] + p[0]] + p[1..]
  }

  /** `ps` without its trailing empty pieces. */
  function DropTrailing(ps: seq<string>): (r: seq<string>)
    ensures |r| <= |ps| && r == ps[..|r|]
    ensures r == [] || r[|r| - 1] != ""
    ensures forall k :: |r| <= k < |ps| ==> ps[k] == ""
    decreases |ps|
  {
    if |ps| == 0 || ps[|ps| - 1] != "" then ps else DropTrailing(ps[..|ps| - 1])
  }

  /** Java's `Pattern.compile("\\r?\\n").split(s)`: the whole input when the
      pattern does not occur, otherwise the pieces without trailing empty ones. */
  function Lines(s: string): seq<string> {
    var ps := Pieces(s);
    if |ps| == 1 then ps else DropTrailing(ps)
  }

  /** The text shown for a results paragraph. */
  function Normalize(paragraph: string, lineSep: string): string {
    Join(Lines(paragraph), lineSep)
  }

  /** No line break character occurs in `s`. */
  predicate NoBreak(s: string) {
    forall i :: 0 <= i < |s| ==> s[i] != '\n' && s[i] != '\r'
  }

  lemma {:induction false} PiecesPrefix(x: string, t: string)
    requires NoBreak(x)
    ensures Pieces(x + t) == [x + Pieces(t)[0]] + Pieces(t)[1..]
    decreases |x|
  {
    if |x| == 0 {
      assert x + t == t;
      assert x + Pieces(t)[0] == Pieces(t)[0];
      assert Pieces(t) == [Pieces(t)[0]] + Pieces(t)[1..];
    } else {
      assert (x + t)[1..] == x[1..] + t;
      PiecesPrefix(x[1..], t);
      assert [x[0]] + (x[1..] + Pieces(t)[0]) == x + Pieces(t)[0];
    }
  }

  lemma PiecesBreak(sep: string, t: string)
    requires sep == "\n" || sep == "\r\n"
    ensures Pieces(sep + t) == [""] + Pieces(t)
  {
    if sep == "\n" {
      assert (sep + t)[1..] == t;
    } else {
      assert (sep + t)[2..] == t;
    }
  }

  lemma {:induction false} PiecesOfJoin(xs: seq<string>, sep: string)
    requires sep == "\n" || sep == "\r\n"
    requires |xs| >= 1 && forall k :: 0 <= k < |xs| ==> NoBreak(xs[k])
    ensures Pieces(Join(xs, sep)) == xs
    decreases |xs|
  {
    if |xs| == 1 {
      PiecesPrefix(xs[0], "");
      assert xs[0] + "" == xs[0];
    } else {
      var rest := Join(xs[1..], sep);
      assert Join(xs, sep) == xs[0] + (sep + rest);
      PiecesPrefix(xs[0], sep + rest);
      PiecesBreak(sep, rest);
      PiecesOfJoin(xs[1..], sep);
      assert xs[0] + "" == xs[0];
    }
  }

  /** Lines joined with `\n` or `\r\n` split back into the same lines, when
      no line holds a line break character and the last line is not empty
      (or is the only one). */
  lemma LinesOfJoin(xs: seq<string>, sep: string)
    requires sep == "\n" || sep == "\r\n"
    requires |xs| >= 1 && forall k :: 0 <= k < |xs| ==> NoBreak(xs[k])
    requires |xs| == 1 || xs[|xs| - 1] != ""
    ensures Lines(Join(xs, sep)) == xs
  {
    PiecesOfJoin(xs, sep);
  }

  /** So a report written with `\r\n` breaks is shown with the platform
      separator in their place. */
  lemma NormalizeReplacesBreaks(xs: seq<string>, lineSep: string)
    requires |xs| >= 1 && forall k :: 0 <= k < |xs| ==> NoBreak(xs[k])
    requires |xs| == 1 || xs[|xs| - 1] != ""
    ensures Normalize(Join(xs, "\r\n"), lineSep) == Join(xs, lineSep)
    ensures Normalize(Join(xs, "\n"), lineSep) == Join(xs, lineSep)
  {
    LinesOfJoin(xs, "\r\n");
    LinesOfJoin(xs, "\n");
  }

  // ---------------------------------------------------------------------
  // Progress bar.

  /** The smallest score shown, 10 to the power -10, and the decimal
      logarithms mapped to the two ends of the bar. */
  const Log10Lower: real := -10.0
  const Log10Upper: real := 1.0
  const MinScore: real := 0.0000000001

  /** Java's `(int)` cast of a double: truncation toward zero. */
  function Trunc(x: real): (r: int)
    ensures x >= 0.0 ==> 0 <= r && r as real <= x < r as real + 1.0
    ensures x < 0.0 ==> r <= 0 && r as real - 1.0 < x <= r as real
  {
    if x >= 0.0 then x.Floor else -((-x).Floor)
  }

  /** The bar position for an epoch score, given the score's decimal
      logarithm `log10Score`. */
  function Bar(score: real, log10Score: real): (b: int)
    ensures b <= 100
    ensures score <= MinScore ==> b == 0
    ensures score > MinScore && log10Score >= Log10Lower ==> 0 <= b
    ensures score > MinScore && log10Score >= Log10Upper ==> b == 100
    ensures score > MinScore && log10Score >= Log10Lower && b < 100 ==>
      b as real <= (log10Score - Log10Lower) * 100.0 / (Log10Upper - Log10Lower) < b as real + 1.0
  {
    var intScore := if score > MinScore then Trunc((log10Score - Log10Lower) * 100.0 / (Log10Upper - Log10Lower)) else 0;
    if intScore > 100 then 100 else intScore
  }

  /** A higher score never lowers the bar. */
  lemma BarMonotone(score1: real, lg1: real, score2: real, lg2: real)
    requires MinScore < score1 && MinScore < score2
    requires Log10Lower <= lg1 <= lg2
    ensures Bar(score1, lg1) <= Bar(score2, lg2)
  {
    var x1 := (lg1 - Log10Lower) * 100.0 / (Log10Upper - Log10Lower);
    var x2 := (lg2 - Log10Lower) * 100.0 / (Log10Upper - Log10Lower);
    assert x1 <= x2;
  }

  // ---------------------------------------------------------------------
  // The display-thread runnables.

  /** What the worker posts to the display thread. */
  datatype Event =
    | Message(text: string)
    | Report(paragraph: string)
    | Progress(epoch: int, score: real, log10Score: real, saved: bool)
    | Enable

  /** The enabled state of the run, cross-validate, classifier, regression,
      edit-parameters, results and abort controls. */
  datatype Controls = Controls(run: bool, xValidate: bool, classifier: bool, regression: bool,
                               editParms: bool, graph: bool, abort: bool)

  /** The controls after `enableButtons(b)`: abort is the opposite of the rest. */
  function Buttons(b: bool): Controls {
    Controls(b, b, b, b, b, b, !b)
  }

  /** What the runnables change: controls, status text, results text,
      epoch, score, best epoch and bar position. */
  datatype Screen = Screen(controls: Controls, status: string, results: string,
                           epoch: Option<int>, score: Option<real>, bestEpoch: Option<int>, bar: int)

  /** Running one posted runnable. */
  function Apply(lineSep: string, s: Screen, e: Event): Screen {
    match e
    case Message(text) => s.(status := text)
    case Report(paragraph) => s.(results := Normalize(paragraph, lineSep))
    case Progress(epoch, score, lg, saved) =>
      s.(epoch := Some(epoch), score := Some(score),
         bestEpoch := if saved then Some(epoch) else s.bestEpoch,
         bar := Bar(score, lg))
    case Enable => s.(controls := Buttons(true), bar := 0)
  }

  /** Running posted runnables in posting order. */
  function ApplyAll(lineSep: string, s: Screen, es: seq<Event>): Screen
    decreases |es|
  {
    if |es| == 0 then s else ApplyAll(lineSep, Apply(lineSep, s, es[0]), es[1..])
  }

  /** Running one more runnable after the others. */
  lemma {:induction false} ApplyAllAppend(lineSep: string, s: Screen, es: seq<Event>, e: Event)
    ensures ApplyAll(lineSep, s, es + [e]) == Apply(lineSep, ApplyAll(lineSep, s, es), e)
    decreases |es|
  {
    if |es| == 0 {
      assert [e][1..] == [];
    } else {
      assert (es + [e])[1..] == es[1..] + [e];
      ApplyAllAppend(lineSep, Apply(lineSep, s, es[0]), es[1..], e);
    }
  }

  /** The epoch of the last saved progress event of `es`, or `d` if none. */
  function LastSaved(es: seq<Event>, d: Option<int>): Option<int>
    decreases |es|
  {
    if |es| == 0 then d
    else
      var e := es[|es| - 1];
      if e.Progress? && e.saved then Some(e.epoch) else LastSaved(es[..|es| - 1], d)
  }

  /** The epoch of the last progress event of `es`, or `d` if none. */
  function LastEpoch(es: seq<Event>, d: Option<int>): Option<int>
    decreases |es|
  {
    if |es| == 0 then d
    else
      var e := es[|es| - 1];
      if e.Progress? then Some(e.epoch) else LastEpoch(es[..|es| - 1], d)
  }

  /** The text of the last message event of `es`, or `d` if none. */
  function LastStatus(es: seq<Event>, d: string): string
    decreases |es|
  {
    if |es| == 0 then d
    else
      var e := es[|es| - 1];
      if e.Message? then e.text else LastStatus(es[..|es| - 1], d)
  }

  /** After the runnables, the best epoch is the epoch of the last saved
      progress event, the epoch that of the last progress event, and the
      status the last message; each stays as it was without such an event. */
  lemma {:induction false} ApplyAllShows(lineSep: string, s: Screen, es: seq<Event>)
    ensures ApplyAll(lineSep, s, es).bestEpoch == LastSaved(es, s.bestEpoch)
    ensures ApplyAll(lineSep, s, es).epoch == LastEpoch(es, s.epoch)
    ensures ApplyAll(lineSep, s, es).status == LastStatus(es, s.status)
    decreases |es|
  {
    if |es| > 0 {
      var k := |es| - 1;
      assert es == es[..k] + [es[k]];
      ApplyAllAppend(lineSep, s, es[..k], es[k]);
      ApplyAllShows(lineSep, s, es[..k]);
    }
  }

  /** The logarithm carried by a progress event agrees with its score at the
      threshold: a score above 10^-10 has a logarithm of at least -10. */
  predicate Consistent(e: Event) {
    e.Progress? && e.score > MinScore ==> e.log10Score >= Log10Lower
  }

  /** The bar stays within 0..100 whatever consistent runnables run. */
  lemma {:induction false} ApplyAllBar(lineSep: string, s: Screen, es: seq<Event>)
    requires 0 <= s.bar <= 100
    requires forall k :: 0 <= k < |es| ==> Consistent(es[k])
    ensures 0 <= ApplyAll(lineSep, s, es).bar <= 100
    decreases |es|
  {
    if |es| > 0 {
      assert Consistent(es[0]);
      ApplyAllBar(lineSep, Apply(lineSep, s, es[0]), es[1..]);
    }
  }

  /** Only the re-enable runnable touches the controls. */
  lemma {:induction false} ApplyAllKeepsControls(lineSep: string, s: Screen, es: seq<Event>)
    requires forall k :: 0 <= k < |es| ==> !es[k].Enable?
    ensures ApplyAll(lineSep, s, es).controls == s.controls
    decreases |es|
  {
    if |es| > 0 {
      assert !es[0].Enable?;
      ApplyAllKeepsControls(lineSep, Apply(lineSep, s, es[0]), es[1..]);
    }
  }

  /** Whatever ran before, the runnables ending in the re-enable one leave
      the buttons enabled, abort disabled and the bar at 0. */
  lemma EndsEnabled(lineSep: string, s: Screen, es: seq<Event>)
    ensures ApplyAll(lineSep, s, es + [Enable]).controls == Buttons(true)
    ensures ApplyAll(lineSep, s, es + [Enable]).bar == 0
  {
    ApplyAllAppend(lineSep, s, es, Enable);
  }

  // ---------------------------------------------------------------------
  // Command arguments and the model-directory decisions.

  /** The first comma-separated meta column, used as the id column. */
  function IdCol(metaCols: string): (r: Option<string>)
    ensures r.Some? ==> |r.value| > 0 && Clean(r.value, {','})
    ensures r.None? <==> forall i :: 0 <= i < |metaCols| ==> metaCols[i] == ','
  {
    TokensEmpty(metaCols, {','});
    var cols := Tokens(metaCols, {','});
    if |cols| >= 1 then Some(cols[0]) else None
  }

  /** Meta columns joined with commas give back the first one. */
  lemma IdColOfJoin(cols: seq<string>)
    requires |cols| >= 1
    requires forall k :: 0 <= k < |cols| ==> |cols[k]| > 0 && Clean(cols[k], {','})
    ensures IdCol(Join(cols, ",")) == Some(cols[0])
  {
    TokensOfJoin(cols, ",", {','});
  }

  /** The arguments of a training search. */
  function SearchArgs(t: ModelType, dir: string): seq<string> {
    ["-t", TypeName(t), dir]
  }

  /** The arguments of a cross-validation: the id option only when there is
      an id column. */
  function XValidateArgs(t: ModelType, idCol: Option<string>, dir: string): seq<string> {
    ["-t", TypeName(t)] + (if idCol.Some? then ["--id", idCol.value] else []) + [dir]
  }

  /** The value a command-line parser reads for the `--id` option: the
      argument after its first occurrence. */
  function IdOption(args: seq<string>): Option<string>
    decreases |args|
  {
    if |args| < 2 then None
    else if args[0] == "--id" then Some(args[1])
    else IdOption(args[1..])
  }

  /** The cross-validation arguments hand the id column, and only it, to
      the `--id` option; without one they are the search arguments. */
  lemma XValidateArgsId(t: ModelType, idCol: Option<string>, dir: string)
    ensures IdOption(XValidateArgs(t, idCol, dir)) == idCol
    ensures idCol.None? ==> XValidateArgs(t, idCol, dir) == SearchArgs(t, dir)
    ensures var a := XValidateArgs(t, idCol, dir);
      a[..2] == ["-t", TypeName(t)] && a[|a| - 1] == dir
  {
    var a := XValidateArgs(t, idCol, dir);
    assert a[0] != "--id" && a[1] != "--id" by {
      assert a[0][1] != '-' && a[1][0] != '-';
    }
    assert IdOption(a) == IdOption(a[1..]);
    assert a[1..][1..] == a[2..];
    assert IdOption(a[1..]) == IdOption(a[2..]);
    if idCol.Some? {
      assert a[2..][0] == "--id" && a[2..][1] == idCol.value;
    } else {
      assert |a[2..]| == 1;
    }
  }

  /** How many entries of `headers` are labels (a header occurring twice is
      counted twice). */
  function Matches(headers: seq<string>, labels: set<string>): nat
    decreases |headers|
  {
    if |headers| == 0 then 0
    else Matches(headers[..|headers| - 1], labels) + (if headers[|headers| - 1] in labels then 1 else 0)
  }

  /** A regression model is one whose header holds every label. */
  function TypeOf(headers: seq<string>, labels: set<string>): ModelType {
    if Matches(headers, labels) == |labels| then Regression else Class
  }

  predicate Distinct(xs: seq<string>) {
    forall i, j :: 0 <= i < j < |xs| ==> xs[i] != xs[j]
  }

  lemma SubsetCard(a: set<string>, b: set<string>)
    requires a <= b
    ensures |a| <= |b|
  {
    assert a - b == {};
    assert b == (b - a) + a;
  }

  lemma CardStep(before: set<string>, x: string, labels: set<string>)
    requires x !in before
    ensures |(before + {x}) * labels| == |before * labels| + (if x in labels then 1 else 0)
  {
    if x in labels {
      assert (before + {x}) * labels == before * labels + {x};
    } else {
      assert (before + {x}) * labels == before * labels;
    }
  }

  lemma SetOfSnoc(prefix: seq<string>, x: string)
    ensures (set h | h in prefix + [x]) == (set h | h in prefix) + {x}
  {
  }

  lemma {:induction false} MatchesDistinct(headers: seq<string>, labels: set<string>)
    requires Distinct(headers)
    ensures Matches(headers, labels) == |(set h | h in headers) * labels|
    decreases |headers|
  {
    if |headers| > 0 {
      var k := |headers| - 1;
      var x := headers[k];
      var prefix := headers[..k];
      assert Distinct(prefix);
      MatchesDistinct(prefix, labels);
      assert headers == prefix + [x];
      SetOfSnoc(prefix, x);
      assert x !in (set h | h in prefix);
      CardStep((set h | h in prefix), x, labels);
    }
  }

  /** With distinct header names, the model is a regression model exactly
      when every label is a header. */
  lemma RegressionIffAllLabels(headers: seq<string>, labels: set<string>)
    requires Distinct(headers)
    ensures TypeOf(headers, labels) == Regression <==> forall l :: l in labels ==> l in headers
  {
    var hs := set h | h in headers;
    MatchesDistinct(headers, labels);
    if forall l :: l in labels ==> l in headers {
      assert hs * labels == labels;
    } else {
      var l :| l in labels && l !in headers;
      SubsetCard(hs * labels, labels - {l});
    }
  }

  /** A header naming one label twice stands in for a missing label. */
  lemma DuplicateHeaderCounts()
    ensures TypeOf(["x", "x"], {"x", "y"}) == Regression
  {
    assert Matches(["x", "x"][..1], {"x", "y"}) == 1 by {
      assert ["x", "x"][..1][..0] == [];
    }
    assert |{"x", "y"}| == 2;
  }

  /** The default testing-set size for `rows` training rows: a tenth,
      rounded down, but at least 1. */
  function TestSize(rows: nat): (t: nat)
    ensures t >= 1
    ensures rows >= 10 ==> t * 10 <= rows < t * 10 + 10
    ensures rows < 20 ==> t == 1
  {
    var testSize := rows / 10;
    if testSize < 1 then 1 else testSize
  }

  /** The headers offered as meta columns: for a regression model the label
      columns are left out. */
  function Available(headers: seq<string>, labels: set<string>, t: ModelType): (r: seq<string>)
    ensures |r| <= |headers|
    ensures t == Class ==> r == headers
    ensures t == Regression ==> forall h :: h in r <==> h in headers && h !in labels
    decreases |headers|
  {
    if t == Class || |headers| == 0 then headers
    else
      var rest := Available(headers[1..], labels, t);
      assert forall h :: h in headers <==> h == headers[0] || h in headers[1..];
      if headers[0] in labels then rest else [headers[0]] + rest
  }

  /** A started command: its name and its arguments. */
  datatype Command = Command(name: string, args: seq<string>)

  /** What a new parameter file is given: testing-set size, meta columns and
      id column. */
  datatype ParmSetup = ParmSetup(testSize: nat, metaCols: seq<string>, idCol: Option<string>)

  /** The new parameter file as the source builds it from the dialog's
      answer, where `None` is the null answer of a dialog in which no item
      was moved: the source reads its length, so the analysis stops with a
      null-pointer exception and no setup is made. */
  function SetupAsWritten(rows: nat, metaCols: Option<seq<string>>): Option<ParmSetup> {
    if metaCols.None? then None
    else Some(ParmSetup(TestSize(rows), metaCols.value, if |metaCols.value| > 0 then Some(metaCols.value[0]) else None))
  }

  /** The setup with the null answer read as "no meta columns": the default
      testing-set size, the chosen columns, and the first of them as the id
      column. It agrees with the source whenever the source gets an answer. */
  function Setup(rows: nat, metaCols: Option<seq<string>>): (p: ParmSetup)
    ensures p.testSize == TestSize(rows)
    ensures p.metaCols == (if metaCols.Some? then metaCols.value else [])
    ensures p.idCol.Some? <==> |p.metaCols| > 0
    ensures p.idCol.Some? ==> p.idCol.value == p.metaCols[0]
    ensures metaCols.Some? ==> SetupAsWritten(rows, metaCols) == Some(p)
  {
    var cols := if metaCols.Some? then metaCols.value else [];
    ParmSetup(TestSize(rows), cols, if |cols| > 0 then Some(cols[0]) else None)
  }

  /** Reading the parameter file: its meta-column value, or the message of
      the failure. */
  datatype ParmRead = Read(metaCols: string) | ReadFailed(message: string)

  /** The rest of the window's state: model directory and type, the running
      worker, every worker started, every error box shown, the runnables
      posted and not yet run, the radio selections and the results caption. */
  datatype Session = Session(modelDir: Option<string>, modelType: ModelType, backgrounder: Option<Command>,
                             started: seq<Command>, errors: seq<(string, string)>, queue: seq<Event>,
                             classifierSelected: bool, regressionSelected: bool, graphText: string)

  const CommandError := ("Command Error", "Invalid parameter combination.")
  const DirectoryError := ("Directory Change Error", "Cannot change models while a command is running.")

  /** The status line while a command runs. */
  function Running(name: string): string {
    "Running " + name + " command."
  }

  class Manager {
    /** The platform line separator. */
    const lineSep: string
    var modelDir: Option<string>
    var modelType: ModelType
    /** The worker running a command, if any. */
    var backgrounder: Option<Command>
    var started: seq<Command>
    var errors: seq<(string, string)>
    /** Runnables posted to the display thread and not yet run, oldest first. */
    var queue: seq<Event>
    var classifierSelected: bool
    var regressionSelected: bool
    var graphText: string
    var controls: Controls
    var status: string
    var results: string
    var epoch: Option<int>
    var score: Option<real>
    var bestEpoch: Option<int>
    var bar: int

    function Shown(): Screen
      reads this
    {
      Screen(controls, status, results, epoch, score, bestEpoch, bar)
    }

    function State(): Session
      reads this
    {
      Session(modelDir, modelType, backgrounder, started, errors, queue, classifierSelected, regressionSelected, graphText)
    }

    /** A new window: no model directory, a classifier model, no worker;
        the run, cross-validate and abort buttons start disabled. */
    constructor(lineSep: string)
      ensures this.lineSep == lineSep
      ensures State() == Session(None, Class, None, [], [], [], false, false, GraphText(Class))
      ensures Shown() == Screen(Controls(false, false, true, true, true, true, false), "", "", None, None, None, 0)
    {
      this.lineSep := lineSep;
      modelDir := None;
      modelType := Class;
      backgrounder := None;
      started := [];
      errors := [];
      queue := [];
      classifierSelected := false;
      regressionSelected := false;
      graphText := GraphText(Class);
      controls := Controls(false, false, true, true, true, true, false);
      status := "";
      results := "";
      epoch := None;
      score := None;
      bestEpoch := None;
      bar := 0;
    }

    /** Enables the six command controls when `b` holds, the abort control
        when it does not. */
    method EnableButtons(b: bool)
      modifies this
      ensures Shown() == old(Shown()).(controls := Buttons(b))
      ensures State() == old(State())
    {
      controls := controls.(run := b, xValidate := b, classifier := b, regression := b,
                            editParms := b, graph := b, abort := !b);
    }

    /** Starts a command whose arguments `parseOk` says were accepted:
        otherwise only the error is shown. A started command disables the
        buttons, sets the status line and becomes the running worker. */
    method ExecuteCommand(parseOk: bool, name: string, args: seq<string>)
      modifies this
      ensures !parseOk ==> Shown() == old(Shown()) && State() == old(State()).(errors := old(errors) + [CommandError])
      ensures parseOk ==>
        && Shown() == old(Shown()).(controls := Buttons(false), status := Running(name))
        && State() == old(State()).(backgrounder := Some(Command(name, args)),
                                        started := old(started) + [Command(name, args)])
    {
      if !parseOk {
        errors := errors + [CommandError];
      } else {
        EnableButtons(false);
        status := Running(name);
        backgrounder := Some(Command(name, args));
        started := started + [Command(name, args)];
      }
    }

    /** The training search button. */
    method RunSearch(parseOk: bool)
      requires modelDir.Some?
      modifies this
      ensures !parseOk ==> Shown() == old(Shown()) && State() == old(State()).(errors := old(errors) + [CommandError])
      ensures parseOk ==>
        var c := Command("SEARCH", SearchArgs(modelType, old(modelDir).value));
        && Shown() == old(Shown()).(controls := Buttons(false), status := Running("SEARCH"))
        && State() == old(State()).(backgrounder := Some(c), started := old(started) + [c])
    {
      ExecuteCommand(parseOk, "SEARCH", ["-t", TypeName(modelType), modelDir.value]);
    }

    /** The cross-validate button: reads the id column from the parameter
        file, or shows the read failure. */
    method RunXValidate(parms: ParmRead, parseOk: bool)
      requires modelDir.Some?
      modifies this
      ensures parms.ReadFailed? ==>
        Shown() == old(Shown()) && State() == old(State()).(errors := old(errors) + [("Error Reading Parm File", parms.message)])
      ensures parms.Read? && !parseOk ==>
        Shown() == old(Shown()) && State() == old(State()).(errors := old(errors) + [CommandError])
      ensures parms.Read? && parseOk ==>
        var c := Command("Cross-Validate", XValidateArgs(modelType, IdCol(parms.metaCols), old(modelDir).value));
        && Shown() == old(Shown()).(controls := Buttons(false), status := Running("Cross-Validate"))
        && State() == old(State()).(backgrounder := Some(c), started := old(started) + [c])
    {
      if parms.ReadFailed? {
        errors := errors + [("Error Reading Parm File", parms.message)];
      } else {
        var idCol := IdCol(parms.metaCols);
        var parmList := ["-t", TypeName(modelType)];
        if idCol.Some? {
          parmList := parmList + ["--id", idCol.value];
        }
        parmList := parmList + [modelDir.value];
        assert parmList == XValidateArgs(modelType, idCol, modelDir.value);
        ExecuteCommand(parseOk, "Cross-Validate", parmList);
      }
    }

    /** The directory button: allowed only while no command runs. */
    method ChangeDirectory() returns (allowed: bool)
      modifies this
      ensures allowed <==> old(backgrounder).None?
      ensures Shown() == old(Shown())
      ensures State() == if allowed then old(State()) else old(State()).(errors := old(errors) + [DirectoryError])
    {
      if backgrounder.None? {
        allowed := true;
      } else {
        allowed := false;
        errors := errors + [DirectoryError];
      }
    }

    /** The abort button interrupts the running worker, if there is one. */
    method Abort() returns (interrupted: Option<Command>)
      ensures interrupted == backgrounder
    {
      interrupted := backgrounder;
    }

    /** A click on the model-type radio button of `t`. The radio group
        first selects the clicked button and clears its partner; the
        listener then sets the model type and the results caption. */
    method SelectType(t: ModelType)
      modifies this
      ensures Shown() == old(Shown())
      ensures State() == old(State()).(modelType := t, regressionSelected := t == Regression,
                                        classifierSelected := t == Class, graphText := GraphText(t))
    {
      // The widget's own toggle.
      regressionSelected := t == Regression;
      classifierSelected := t == Class;
      // The listener.
      modelType := t;
      graphText := GraphText(t);
    }

    /** Counts the entries of `headers` that are labels. */
    method CountMatches(headers: seq<string>, labels: set<string>) returns (count: nat)
      ensures count == Matches(headers, labels)
    {
      count := 0;
      for i := 0 to |headers|
        invariant count == Matches(headers[..i], labels)
      {
        assert headers[..i + 1][..i] == headers[..i];
        if headers[i] in labels {
          count := count + 1;
        }
      }
      assert headers[..|headers|] == headers;
    }

    /** Records the model type found for the directory: the matching radio
        button is selected and the results caption follows the type. */
    method ShowType(t: ModelType)
      modifies this
      ensures Shown() == old(Shown())
      ensures State() == old(State()).(modelType := t, regressionSelected := t == Regression,
                                        classifierSelected := t == Class, graphText := GraphText(t))
    {
      if t == Regression {
        modelType := Regression;
        regressionSelected := true;
        classifierSelected := false;
      } else {
        modelType := Class;
        regressionSelected := false;
        classifierSelected := true;
      }
      graphText := GraphText(modelType);
    }

    /** Counts the remaining lines of the training file, reading them one
        by one until the reader has no next line. */
    method CountRows(rows: seq<string>) returns (size: nat)
      ensures size == |rows|
    {
      size := 0;
      var reader := rows;
      while reader != []
        invariant size <= |rows| && reader == rows[size..]
        decreases |reader|
      {
        reader := reader[1..];
        size := size + 1;
      }
    }

    /** Takes `dir` as the model directory, given its label set, the lines of
        its training file (header first) and whether it has a parameter file.
        The model type follows from the header; without a parameter file the
        meta-column dialog is offered the available headers, and `chosen`
        (its answer) goes into the new parameter file with the default
        testing-set size, a null answer counting as no meta columns. The buttons are then enabled. */
    method AnalyzeModelDirectory(dir: string, labels: set<string>, training: seq<string>, parmExists: bool, chosen: Option<seq<string>>)
      returns (offered: Option<seq<string>>, setup: Option<ParmSetup>)
      requires |training| >= 1
      modifies this
      ensures var headers := Tokens(training[0], {'\t'});
        var t := TypeOf(headers, labels);
        && State() == old(State()).(modelDir := Some(dir), modelType := t,
                                        regressionSelected := t == Regression, classifierSelected := t == Class,
                                        graphText := GraphText(t))
        && Shown() == old(Shown()).(controls := Buttons(true))
        && offered == (if parmExists then None else Some(Available(headers, labels, t)))
        && setup == (if parmExists then None
                     else Some(Setup(|training| - 1, chosen)))
    {
      modelDir := Some(dir);
      var headers := Tokens(training[0], {'\t'});
      var count := CountMatches(headers, labels);
      ShowType(if count == |labels| then Regression else Class);
      offered, setup := None, None;
      if !parmExists {
        var size := CountRows(training[1..]);
        var testSize := size / 10;
        if testSize < 1 {
          testSize := 1;
        }
        offered := Some(Available(headers, labels, modelType));
        var metaCols := if chosen.Some? then chosen.value else [];
        setup := Some(ParmSetup(testSize, metaCols, if |metaCols| > 0 then Some(metaCols[0]) else None));
      }
      EnableButtons(true);
    }

    /** `showMessage`, `showResults` and `displayEpoch`: the runnable is
        posted behind the others. */
    method Post(e: Event)
      modifies this
      ensures Shown() == old(Shown())
      ensures State() == old(State()).(queue := old(queue) + [e])
    {
      queue := queue + [e];
    }

    /** The worker has ended: there is no running command any more, and the
        re-enable runnable is posted. */
    method ReportCommandEnded()
      modifies this
      ensures Shown() == old(Shown())
      ensures State() == old(State()).(backgrounder := None, queue := old(queue) + [Enable])
    {
      backgrounder := None;
      queue := queue + [Enable];
    }

    /** The status runnable. */
    method RunMessage(text: string)
      modifies this
      ensures Shown() == old(Shown()).(status := text)
      ensures State() == old(State())
    {
      status := text;
    }

    /** The report runnable: the paragraph's lines joined with the platform
        separator become the results text. */
    method RunReport(paragraph: string)
      modifies this
      ensures Shown() == old(Shown()).(results := Normalize(paragraph, lineSep))
      ensures State() == old(State())
    {
      var lines := Lines(paragraph);
      results := Join(lines, lineSep);
    }

    /** The progress runnable: the epoch and score are shown, the best
        epoch only when the model was saved, and the bar is set from the
        score. */
    method RunProgress(ep: int, sc: real, lg: real, saved: bool)
      modifies this
      ensures Shown() == old(Shown()).(epoch := Some(ep), score := Some(sc),
                                       bestEpoch := if saved then Some(ep) else old(bestEpoch),
                                       bar := Bar(sc, lg))
      ensures State() == old(State())
    {
      epoch := Some(ep);
      score := Some(sc);
      if saved {
        bestEpoch := Some(ep);
      }
      var intScore := 0;
      if sc > MinScore {
        intScore := Trunc((lg - Log10Lower) * 100.0 / (Log10Upper - Log10Lower));
      }
      if intScore > 100 {
        intScore := 100;
      }
      bar := intScore;
    }

    /** The re-enable runnable: buttons on, bar back to 0. */
    method RunEnable()
      modifies this
      ensures Shown() == old(Shown()).(controls := Buttons(true), bar := 0)
      ensures State() == old(State())
    {
      EnableButtons(true);
      bar := 0;
    }

    /** Runs one runnable on the display thread. */
    method RunEvent(e: Event)
      modifies this
      ensures Shown() == Apply(lineSep, old(Shown()), e)
      ensures State() == old(State())
    {
      match e
      case Message(text) => RunMessage(text);
      case Report(paragraph) => RunReport(paragraph);
      case Progress(ep, sc, lg, saved) => RunProgress(ep, sc, lg, saved);
      case Enable => RunEnable();
    }

    /** The display thread runs the posted runnables, oldest first. */
    method DrainQueue()
      modifies this
      ensures Shown() == ApplyAll(lineSep, old(Shown()), old(queue))
      ensures State() == old(State()).(queue := [])
    {
      var pending := queue;
      var i := 0;
      while i < |pending|
        invariant 0 <= i <= |pending|
        invariant Shown() == ApplyAll(lineSep, old(Shown()), pending[..i])
        invariant State() == old(State())
      {
        ApplyAllAppend(lineSep, old(Shown()), pending[..i], pending[i]);
        assert pending[..i + 1] == pending[..i] + [pending[i]];
        RunEvent(pending[i]);
        i := i + 1;
      }
      assert pending[..i] == pending;
      queue := [];
    }
  }
}
