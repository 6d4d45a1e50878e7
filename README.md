# dl4j.win core, modelled in Dafny

This project models the logic under the widgets of the SEEDtk dl4j.win
training workbench and proves properties of that model:

- **Trial-log parser** (`LogViewer`). A flat list of log lines becomes jobs,
  and each job holds its sections. The job-start and section markers are
  parameters. The parser is a method walking an index over the lines. It is
  proved equal to a recursive specification, and a round-trip lemma ties
  that specification to a renderer of well-formed logs.
- **Confusion-matrix report** (`ClassValidationConfusion`). A class with three
  `array2<int>` matrices that are incremented in place and summed at the end.
- **Scatter report** (`RegressionValidationScatter`). A map from record id to
  the last prediction stored for it. Each prediction holds the batch by
  reference and the row index into it. A `Model` class gives the per-label
  series of training or testing ids.
- **Training manager** (`TrainingManager`, `Background`). A class with the
  button, text and worker fields of the window. It covers:
  - the enable and disable policy;
  - starting a command only when its arguments parse;
  - the display-thread runnables, modelled as a FIFO `seq<Event>` and proved
    to be a left fold;
  - the progress-bar clamp and the line-break normalisation of reports;
  - the id column, the cross-validation arguments, and the model-type and
    test-size decisions taken for a model directory.
- **Confusion tables** (`ConfusionDisplay`). The loops that fill each table
  with data rows, row totals, column totals and the grand total.
- **Parameter dialog** (`ParmDialogChoices`, `ParmDialogGroup`, `MetaDialog`).
  It covers:
  - the sorted selected set of an enumeration parameter, with its parse and
    serialise round trip;
  - how a checkbox click is passed on to grouped and mutually exclusive
    parameter groups;
  - moving an item between the feature list and the meta-column list.

`Strings` holds the string helpers that the Java code takes from
libraries: `StringUtils.join`, `StringUtils.split` (runs of separator
characters, no empty tokens), `startsWith` and `compareTo`. `Grids` holds
the sums over rows, columns and whole grids.

Behaviour the code shows and the comments do not promise:
- The model type comes from the number of header columns that are labels,
  and a header that repeats a label counts twice.
  `TrainingManager.DuplicateHeaderCounts` shows a header `x, x` with labels
  `{x, y}` classed as a regression model, even though label `y` is missing.
  For headers without repeats, `TrainingManager.RegressionIffAllLabels`
  proves the intended reading.
- Mutual exclusion between commands comes only from disabling buttons. The
  model therefore lets `RunSearch` and `RunXValidate` run in any state, as
  the Java methods do. Only the directory button and the abort button look
  at the running worker.

## Model

| member | source | states |
|---|---|---|
| LogViewer.LoadTrialLog | src/org/theseed/dl4j/win/LogViewer.java:127-147 | the jobs are those of the log's specification `ParseLog`; the load succeeds iff at least one job is kept, and the "no valid jobs" message is reported exactly when none is |
| LogViewer.ReadJob | src/org/theseed/dl4j/win/LogViewer.java:158-218 | reading a job from its title line moves past at least that line; the job and the next position agree with the job specification on the remaining lines; the job is kept iff it has a section |
| LogViewer.ScanJobShape | src/org/theseed/dl4j/win/LogViewer.java:173-213 | the sections found while scanning a job extend the earlier ones, and each new section's kind follows from its title |
| LogViewer.ParsedJobsShape | src/org/theseed/dl4j/win/LogViewer.java:163-168 | every kept job has at least one section; a job's kind is Search, Cross-Validate or plain by its title's prefix, and a section is a Summary iff its title starts with "Summary " |
| LogViewer.LinesBeforeFirstJobIgnored | src/org/theseed/dl4j/win/LogViewer.java:133 | lines before the first job-start marker do not change the result |
| LogViewer.NoMarkerNoJobs | src/org/theseed/dl4j/win/LogViewer.java:133-142 | a log without a job-start marker has no jobs, so the load fails |
| LogViewer.ScanData | src/org/theseed/dl4j/win/LogViewer.java:204-206 | data lines are added to the open section's text |
| LogViewer.ScanSectionStart | src/org/theseed/dl4j/win/LogViewer.java:181-202 | a section marker closes the open section and takes the next line as the new title, whatever that line is (even the job-start marker); the new text starts with the title, so earlier data lines are dropped |
| LogViewer.ScanEnd | src/org/theseed/dl4j/win/LogViewer.java:173-213 | end of input, a section marker on the last line, or a job-start marker ends the job and stores the open section |
| LogViewer.ScanSections | src/org/theseed/dl4j/win/LogViewer.java:181-207 | rendered sections read back as their titles, kinds and bodies, where a body is the title line and the data lines joined with the line separator |
| LogViewer.ReadRenderedJob | src/org/theseed/dl4j/win/LogViewer.java:158-218 | a rendered job reads back as itself when it has a section and is dropped otherwise; its title line is taken whatever it is, and lines before its first section are not shown |
| LogViewer.ParseRenderedJobs | src/org/theseed/dl4j/win/LogViewer.java:135-140 | rendered jobs read back in file order, and jobs without sections are dropped |
| LogViewer.ParseRenderedLog | src/org/theseed/dl4j/win/LogViewer.java:127-147 | round trip: junk lines without a job-start marker followed by rendered jobs parse to the expected jobs |
| LogViewer.DanglingSectionMarker | src/org/theseed/dl4j/win/LogViewer.java:192-202 | a section marker on the last line opens no section |
| ClassValidationConfusion.Confusion.constructor | src/org/theseed/reports/ClassValidationConfusion.java:33-35 | before the first report there are no labels and no matrix array |
| ClassValidationConfusion.Confusion.StartReport | src/org/theseed/reports/ClassValidationConfusion.java:75-86 | nLabels becomes the number of labels; the three matrices are new, distinct, nLabels by nLabels and all zero |
| ClassValidationConfusion.Confusion.ReportOutput | src/org/theseed/reports/ClassValidationConfusion.java:89-100 | each cell of the training (testing) matrix grows by the number of trained (untrained) rows whose best output and best expected labels pick it; nothing else changes |
| ClassValidationConfusion.Confusion.PicksPartition | src/org/theseed/reports/ClassValidationConfusion.java:95-98 | every row is counted once, on the training side or on the testing side |
| ClassValidationConfusion.Confusion.SideTotal | src/org/theseed/reports/ClassValidationConfusion.java:95-98 | a matrix that gains one side's counts grows in total by the number of rows on that side |
| ClassValidationConfusion.Confusion.ReportTotal | src/org/theseed/reports/ClassValidationConfusion.java:90-99 | one batch raises the training total plus the testing total by exactly the number of rows |
| ClassValidationConfusion.Confusion.FinishReport | src/org/theseed/reports/ClassValidationConfusion.java:103-109 | every all-matrix cell is the sum of the testing and the training cells, so its total is the sum of theirs; the matrix array holds testing, training and all, in that order |
| ClassValidationConfusion.Confusion.GetCount | src/org/theseed/reports/ClassValidationConfusion.java:61-72 | the cell of the chosen matrix of the matrix array |
| ClassValidationConfusion.Confusion.GetTestCount | src/org/theseed/reports/ClassValidationConfusion.java:37-47 | the cell of the testing matrix |
| ClassValidationConfusion.Confusion.GetTrainCount | src/org/theseed/reports/ClassValidationConfusion.java:57-59 | as written: the cell of the testing matrix |
| ClassValidationConfusion.Confusion.TrainCount | src/org/theseed/reports/ClassValidationConfusion.java:49-56 | the cell of the training matrix, which after a finish is also the cell of entry 1 of the matrix array |
| ClassValidationConfusion.TrainCountMismatch | src/org/theseed/reports/ClassValidationConfusion.java:57-59 | with one label and one training row, the accessor as written shows 0, while the training matrix and the corrected accessor hold 1 |
| Grids.RowTotalsSum | src/org/theseed/dl4j/win/ConfusionDisplay.java:264-279 | the sum of the row totals is the sum of all cells |
| Grids.ColTotalsSum | src/org/theseed/dl4j/win/ConfusionDisplay.java:268-273 | the sum of the column totals is the sum of all cells |
| Grids.GridAdd | src/org/theseed/reports/ClassValidationConfusion.java:104-107 | adding two grids cell by cell adds their sums |
| Grids.CountedSum | src/org/theseed/reports/ClassValidationConfusion.java:90-99 | a grid that gains one count per picked cell grows in total by the number of picks |
| ConfusionDisplay.TableTotals | src/org/theseed/dl4j/win/ConfusionDisplay.java:261-289 | a table has one row per label plus the TOTAL row, every row has one cell per label plus a total, and the grand total is both the sum of the row totals and the sum of the column totals |
| ConfusionDisplay.TotalRow | src/org/theseed/dl4j/win/ConfusionDisplay.java:281-289 | the column totals and the grand total gathered over every row are the cells of the TOTAL row |
| ConfusionDisplay.Display.RunPredictions | src/org/theseed/dl4j/win/ConfusionDisplay.java:250-257 | an I/O failure of the prediction run is shown, and the three tables are refilled from whatever the reporter holds |
| ConfusionDisplay.Display.RefillTables | src/org/theseed/dl4j/win/ConfusionDisplay.java:257-290 | table t (0 testing, 1 training, 2 all) becomes the table of matrix t |
| ConfusionDisplay.Display.FillTable | src/org/theseed/dl4j/win/ConfusionDisplay.java:258-289 | the table is cleared and becomes the data rows followed by the TOTAL row of column totals and grand total; the other tables are unchanged |
| ConfusionDisplay.Display.FillRow | src/org/theseed/dl4j/win/ConfusionDisplay.java:264-280 | one more data row is appended and added to the running column totals and grand total |
| ConfusionDisplay.Display.AddDataRow | src/org/theseed/dl4j/win/ConfusionDisplay.java:265-279 | the row is the label, the counts read with getCount, and their sum; each count is added to its column total and to the grand total |
| RegressionValidationScatter.Scatter.constructor | src/org/theseed/reports/RegressionValidationScatter.java:29-31 | the supplied id and training-set functions are kept, and no prediction is stored |
| RegressionValidationScatter.Scatter.StartReport | src/org/theseed/reports/RegressionValidationScatter.java:71-74 | the map is replaced by an empty one |
| RegressionValidationScatter.Scatter.ReportOutput | src/org/theseed/reports/RegressionValidationScatter.java:77-83 | the map becomes the old map with every row's id put, in row order, to that row of the batch |
| RegressionValidationScatter.Scatter.PutKeys | src/org/theseed/reports/RegressionValidationScatter.java:79-82 | after a batch the keys are the old keys plus the ids of its rows |
| RegressionValidationScatter.Scatter.PutLast | src/org/theseed/reports/RegressionValidationScatter.java:79-82 | last write wins: an id maps to the last row that has it |
| RegressionValidationScatter.Scatter.PutOthers | src/org/theseed/reports/RegressionValidationScatter.java:79-82 | ids that are not in the batch keep their entries |
| RegressionValidationScatter.Scatter.FinishReport | src/org/theseed/reports/RegressionValidationScatter.java:85-87 | changes nothing |
| RegressionValidationScatter.Scatter.IdsPartition | src/org/theseed/reports/RegressionValidationScatter.java:105-109 | the training ids and the testing ids are disjoint, and together they are the stored ids |
| RegressionValidationScatter.Model.constructor | src/org/theseed/reports/RegressionValidationScatter.java:105-109 | the series lists each stored id of its side exactly once; the label index plays no part in the choice |
| RegressionValidationScatter.Model.GetX | src/org/theseed/reports/RegressionValidationScatter.java:116-123 | the expected value at the stored row and the label, read from the batch as it is now; 0.0 for an unknown id |
| RegressionValidationScatter.Model.GetY | src/org/theseed/reports/RegressionValidationScatter.java:125-132 | the predicted value at the stored row and the label, read from the batch as it is now; 0.0 for an unknown id |
| RegressionValidationScatter.AliasedBatch | src/org/theseed/reports/RegressionValidationScatter.java:38-48 | a value reported as 1.0 and then overwritten in the caller's batch shows as 2.0 |
| RegressionValidationScatter.CopyingScatter.constructor | src/org/theseed/reports/RegressionValidationScatter.java:71-74 | corrected: the report starts with no stored prediction |
| RegressionValidationScatter.CopyingScatter.ReportOutput | src/org/theseed/reports/RegressionValidationScatter.java:77-83 | corrected: the map becomes the batch stored row by row; so the keys are exactly the old keys and the batch ids, every id of the batch maps to copies of its last row's values as they were when reported, and other entries are kept |
| RegressionValidationScatter.CopyingScatter.StoreKeys | src/org/theseed/reports/RegressionValidationScatter.java:79-82 | corrected: after a batch the keys are the old keys plus the ids of its rows |
| RegressionValidationScatter.CopyingScatter.StoreLast | src/org/theseed/reports/RegressionValidationScatter.java:79-82 | corrected: last write wins, and the stored values are copies of that row |
| RegressionValidationScatter.CopyingScatter.StoreOthers | src/org/theseed/reports/RegressionValidationScatter.java:79-82 | corrected: ids that are not in the batch keep their entries |
| RegressionValidationScatter.CopiedBatch | src/org/theseed/reports/RegressionValidationScatter.java:77-83 | with copies, the value shown is the value reported, even after the caller's batch changes |
| Strings.TokensOfJoin | src/org/theseed/dl4j/win/ParmDialogChoices.java:62 | splitting on separator characters gives back a list that was joined with those separators, when every piece is non-empty and holds no separator |
| Strings.TokensEmpty | src/org/theseed/dl4j/win/TrainingManager.java:446-448 | a value splits into no tokens exactly when every character is a separator |
| TrainingManager.Pieces | src/org/theseed/dl4j/win/TrainingManager.java:635 | splitting at `\r?\n` yields at least one piece, and no piece holds a `\n` |
| TrainingManager.DropTrailing | src/org/theseed/dl4j/win/TrainingManager.java:643 | the trailing empty pieces are removed and no others: the result is a prefix that does not end in an empty piece |
| TrainingManager.PiecesOfJoin | src/org/theseed/dl4j/win/TrainingManager.java:643 | lines joined with `\n` or `\r\n` split back into the same lines |
| TrainingManager.LinesOfJoin | src/org/theseed/dl4j/win/TrainingManager.java:643 | the same for the split as Java does it, when the last line is not empty |
| TrainingManager.NormalizeReplacesBreaks | src/org/theseed/dl4j/win/TrainingManager.java:642-645 | a report written with `\r\n` or `\n` breaks is shown with the platform separator in their place |
| TrainingManager.Trunc | src/org/theseed/dl4j/win/TrainingManager.java:673 | the `(int)` cast truncates toward zero |
| TrainingManager.Bar | src/org/theseed/dl4j/win/TrainingManager.java:671-675 | the bar is at most 100; it is 0 for a score at most 10^-10; it is 100 once the logarithm reaches 1; otherwise it is the truncated position of the logarithm on the -10..1 scale, from 0 upwards |
| TrainingManager.BarMonotone | src/org/theseed/dl4j/win/TrainingManager.java:671-675 | a higher logarithm never lowers the bar |
| TrainingManager.ApplyAllAppend | src/org/theseed/dl4j/win/TrainingManager.java:606-619 | running one more runnable after the others is applying it to their result |
| TrainingManager.ApplyAllShows | src/org/theseed/dl4j/win/TrainingManager.java:665-670 | after the runnables, the best epoch is that of the last saved progress event, the epoch that of the last progress event, and the status is the last message; each is unchanged without such an event |
| TrainingManager.ApplyAllBar | src/org/theseed/dl4j/win/TrainingManager.java:671-675 | the bar stays within 0..100 |
| TrainingManager.ApplyAllKeepsControls | src/org/theseed/dl4j/win/TrainingManager.java:632-696 | only the re-enable runnable changes the controls |
| TrainingManager.EndsEnabled | src/org/theseed/dl4j/win/TrainingManager.java:701-709 | runnables that end with the re-enable one leave the six buttons enabled, abort disabled and the bar at 0 |
| TrainingManager.IdCol | src/org/theseed/dl4j/win/TrainingManager.java:443-450 | an id column is a non-empty name without commas; there is none exactly when the value is made of commas only |
| TrainingManager.IdColOfJoin | src/org/theseed/dl4j/win/TrainingManager.java:446-448 | the id column of comma-joined meta columns is the first of them |
| TrainingManager.XValidateArgsId | src/org/theseed/dl4j/win/TrainingManager.java:421-429 | the `--id` option reads back exactly the id column; the arguments begin with `-t` and the type and end with the directory; without an id column they are the search arguments |
| TrainingManager.MatchesDistinct | src/org/theseed/dl4j/win/TrainingManager.java:540-543 | for distinct headers, the count is the number of labels among them |
| TrainingManager.RegressionIffAllLabels | src/org/theseed/dl4j/win/TrainingManager.java:538-553 | for distinct headers, the model is a regression model iff every label is a header |
| TrainingManager.DuplicateHeaderCounts | src/org/theseed/dl4j/win/TrainingManager.java:540-544 | a repeated label header stands in for a missing label |
| TrainingManager.TestSize | src/org/theseed/dl4j/win/TrainingManager.java:569-570 | the test size is at least 1; from 10 rows on it is a tenth of the rows rounded down; below 20 rows it is 1 |
| TrainingManager.Available | src/org/theseed/dl4j/win/TrainingManager.java:573-577 | for a classifier every header is offered; for a regression model exactly the headers that are not labels |
| TrainingManager.Setup | src/org/theseed/dl4j/win/TrainingManager.java:569-583 | corrected: the default test size, the chosen meta columns (none for a null answer), and the first of them as id column iff there is one; it agrees with the source whenever the dialog answers |
| TrainingManager.Manager.constructor | src/org/theseed/dl4j/win/TrainingManager.java:121-127 | no model directory, a classifier model and no worker; run, cross-validate and abort start disabled and the other controls enabled |
| TrainingManager.Manager.EnableButtons | src/org/theseed/dl4j/win/TrainingManager.java:596-604 | the six command controls take `b` and abort takes `!b`; nothing else changes |
| TrainingManager.Manager.ExecuteCommand | src/org/theseed/dl4j/win/TrainingManager.java:458-471 | rejected arguments only add the command error; accepted ones disable the buttons, set the status to "Running <name> command." and start one worker |
| TrainingManager.Manager.RunSearch | src/org/theseed/dl4j/win/TrainingManager.java:409-413 | a SEARCH command with `-t`, the type and the directory |
| TrainingManager.Manager.RunXValidate | src/org/theseed/dl4j/win/TrainingManager.java:418-436 | a read failure of the parameter file is shown and nothing starts; otherwise a Cross-Validate command with the cross-validation arguments built from the id column |
| TrainingManager.Manager.ChangeDirectory | src/org/theseed/dl4j/win/TrainingManager.java:227-235 | a directory change is allowed iff no command runs, and otherwise the directory error is shown |
| TrainingManager.Manager.Abort | src/org/theseed/dl4j/win/TrainingManager.java:283-290 | the running worker, if any, is the one interrupted |
| TrainingManager.Manager.SelectType | src/org/theseed/dl4j/win/TrainingManager.java:198-216 | a click selects that radio button and clears its partner, and sets the model type and the results caption that goes with it |
| TrainingManager.Manager.CountMatches | src/org/theseed/dl4j/win/TrainingManager.java:540-543 | the loop counts the header entries that are labels |
| TrainingManager.Manager.ShowType | src/org/theseed/dl4j/win/TrainingManager.java:544-554 | the type's radio button is selected, the other is cleared, and the caption follows the type |
| TrainingManager.Manager.CountRows | src/org/theseed/dl4j/win/TrainingManager.java:563-567 | the loop reads the remaining lines of the training file one by one, and the count is their number |
| TrainingManager.Manager.AnalyzeModelDirectory | src/org/theseed/dl4j/win/TrainingManager.java:529-588 | the directory is taken and the type follows from the tab-split header; without a parameter file the available headers are offered and the setup is made from the answer; the buttons end enabled |
| TrainingManager.Manager.Post | src/org/theseed/dl4j/win/TrainingManager.java:606-619 | the runnable joins the end of the queue |
| TrainingManager.Manager.ReportCommandEnded | src/org/theseed/dl4j/win/TrainingManager.java:624-627 | no worker runs any more, and the re-enable runnable is queued |
| TrainingManager.Manager.RunMessage | src/org/theseed/dl4j/win/TrainingManager.java:683-696 | the status becomes the text |
| TrainingManager.Manager.RunReport | src/org/theseed/dl4j/win/TrainingManager.java:632-647 | the results become the report's lines joined with the platform separator |
| TrainingManager.Manager.RunProgress | src/org/theseed/dl4j/win/TrainingManager.java:652-677 | the epoch and the score are shown; the best epoch changes only when the model was saved; the bar is set from the score |
| TrainingManager.Manager.RunEnable | src/org/theseed/dl4j/win/TrainingManager.java:701-709 | the buttons are enabled and the bar goes back to 0 |
| TrainingManager.Manager.RunEvent | src/org/theseed/dl4j/win/TrainingManager.java:632-709 | each runnable changes the screen as `Apply` says and nothing else |
| TrainingManager.Manager.DrainQueue | src/org/theseed/dl4j/win/TrainingManager.java:606-619 | the runnables run in posting order: the screen becomes the left fold of the queue, and the queue empties |
| Background.Trace | src/org/theseed/dl4j/win/Background.java:38-47 | the command runs once; the end is reported once, last, unless an `Error` escaped; an error is logged iff an `Exception` was thrown, and only between the two |
| Background.Worker.constructor | src/org/theseed/dl4j/win/Background.java:32-35 | the worker holds its manager and its command |
| Background.Worker.Run | src/org/theseed/dl4j/win/Background.java:38-47 | the steps are the trace; the manager gets the command's runnables, then, after a return or an `Exception`, no worker and the re-enable runnable; after an `Error` it keeps its worker and nothing more is queued |
| ParmDialogGroup.Group.constructor | src/org/theseed/dl4j/win/ParmDialogGroup.java:56-79 | the checkbox is selected and the main control enabled iff the descriptor is not commented; the lists start empty |
| ParmDialogGroup.Group.ConfigureMain | src/org/theseed/dl4j/win/ParmDialogGroup.java:103-106 | the main control is enabled iff the parameter is not commented |
| ParmDialogGroup.Group.Configure | src/org/theseed/dl4j/win/ParmDialogGroup.java:113-120 | commented becomes `!newState`, and the checkbox and the main control become `newState`; the group's own lists are not visited |
| ParmDialogGroup.Group.SetExclusive | src/org/theseed/dl4j/win/ParmDialogGroup.java:127-129 | the groups are appended to the exclusives and no state changes |
| ParmDialogGroup.Group.SetGrouped | src/org/theseed/dl4j/win/ParmDialogGroup.java:137-142 | the groups are appended to the others and each gets its checkbox disabled; nothing else changes |
| ParmDialogGroup.Group.Clicked | src/org/theseed/dl4j/win/ParmDialogGroup.java:147-158 | the group is commented iff its box is clear; every grouped group is turned the same way and every exclusive group the other way; no touched group's checkbox enabling or linked lists change |
| ParmDialogChoices.Insert | src/org/theseed/dl4j/win/ParmDialogChoices.java:156 | adding a name keeps the set sorted, and its members are the old ones plus the name |
| ParmDialogChoices.Remove | src/org/theseed/dl4j/win/ParmDialogChoices.java:158 | removing a name keeps the set sorted, and its members are the old ones but the name |
| ParmDialogChoices.SortedOf | src/org/theseed/dl4j/win/ParmDialogChoices.java:62 | the tree set of a list is sorted and holds the list's names |
| ParmDialogChoices.InsertAll | src/org/theseed/dl4j/win/ParmDialogChoices.java:195 | adding all names keeps the set sorted; its members are the union |
| ParmDialogChoices.SortedUnique | src/org/theseed/dl4j/win/ParmDialogChoices.java:42 | two sorted sequences with the same members are equal, so a selected set has one string form |
| ParmDialogChoices.ParseSerialize | src/org/theseed/dl4j/win/ParmDialogChoices.java:127-129 | parsing a written value gives back the selected set, when no name is empty or holds a comma or a space |
| ParmDialogChoices.Choices.constructor | src/org/theseed/dl4j/win/ParmDialogChoices.java:60-65 | the selected set holds the tokens of the value split on commas and spaces; there is one checkbox per possible name, checked iff the name is selected |
| ParmDialogChoices.Choices.UpdateValue | src/org/theseed/dl4j/win/ParmDialogChoices.java:127-129 | the value becomes the selected names in order, joined by ", " |
| ParmDialogChoices.Choices.FixCheckBoxes | src/org/theseed/dl4j/win/ParmDialogChoices.java:134-137 | every checkbox shows whether its name is selected |
| ParmDialogChoices.Choices.CheckToggled | src/org/theseed/dl4j/win/ParmDialogChoices.java:152-161 | the name is selected iff its box is now checked; other names keep their state; the value is rewritten |
| ParmDialogChoices.Choices.LabelDoubleClicked | src/org/theseed/dl4j/win/ParmDialogChoices.java:176-184 | the selected set becomes exactly that name, and the value and the boxes follow |
| ParmDialogChoices.Choices.AllClicked | src/org/theseed/dl4j/win/ParmDialogChoices.java:193-200 | the selected set becomes its union with the possible names, and every box is checked |
| MetaDialog.Swap | src/org/theseed/dl4j/win/MetaDialog.java:143-152 | with no selection nothing moves; otherwise the item is appended to the other list and removed at its index; no item is lost or made |
| MetaDialog.Dialog.constructor | src/org/theseed/dl4j/win/MetaDialog.java:51-56 | a label is needed iff the model is a classifier; the features are the headers in order, the meta list is empty, and there is no result |
| MetaDialog.Dialog.ListSwap | src/org/theseed/dl4j/win/MetaDialog.java:143-152 | a click moves the selected item as `Swap` says; after a move the result is the meta list, and without a selection the result stays as it was |
| MetaDialog.Dialog.Open | src/org/theseed/dl4j/win/MetaDialog.java:63-74 | the answer is the result: none when nothing was moved, otherwise the meta list, drawn from the headers |
| MetaDialog.UntouchedDialog | src/org/theseed/dl4j/win/TrainingManager.java:578-583 | a dialog closed without a move answers null, so the source makes no setup; the corrected setup has no meta columns and no id column |

## Left out

- All SWT construction, layout, icons, fonts, table packing and chart
  series. Widgets are replaced by the booleans, strings and sequences they
  show.
- Threads, `Thread.interrupt` and the timing of `Display.asyncExec`. The
  runnables are a FIFO queue on the manager, drained by
  `TrainingManager.Manager.DrainQueue`.
- TrainingManager.Manager.Abort: it only reports which worker is
  interrupted. The interrupt has no effect that these files show.
- File and preference I/O is not modelled. This covers:
  - reading the trial log and the label and training files, whose lines are
    inputs;
  - the existence check of `parms.prm`, whose result is an input;
  - writing `parms.prm` and the preferences;
  - the directory chooser loop in `selectModelDirectory`;
  - the error boxes, recorded as (title, message) pairs.
- processor.parseCommand and the command's own run are not modelled.
  `parseCommand` is a boolean input, and the run is the runnables it posts
  and whether it throws. `ClassPredictError.computeBest`, `isTrained` and
  `getId` are supplied functions. The parameter-file read is an input that
  either holds the `--metaCols` value or fails with a message.
- TrainingManager.Bar: `Math.log10` is not modelled. The bar takes the
  score's logarithm as an input, and `TrainingManager.ApplyAllBar` assumes
  a logarithm of at least -10 above the 10^-10 threshold.
- Text formatting is not modelled. `String.format("%10.6g")` of the score
  and `Integer.toString` of counts and epochs are left out, and numbers are
  kept as numbers.
- Doubles are modelled as Dafny `real`. Java `int` is modelled as unbounded,
  so count overflow is not modelled.
- The type names passed as `-t` are assumed to be the enum constants' names
  (`CLASS`, `REGRESSION`). `TrainingProcessor.Type` is not part of this
  model.
- TrainingManager.IdCol: a parameter file without a `--metaCols` value is
  not modelled. The source's split of a null value would return null and
  fail.
- TrainingManager.Manager.AnalyzeModelDirectory requires the training
  file to have a header line. Reading an empty file is I/O failure, which is
  left out. It builds the setup with the corrected `Setup`. The source's
  failure on a null dialog answer is the finding below.
- RegressionValidationScatter.Model.constructor lists the ids in an
  arbitrary order. The `HashMap` key order is not modelled.
- Before the first report, the source's matrices, matrix array and
  prediction map are null. The model starts the matrices at 0 by 0 and the
  matrix array empty, so the accessors' preconditions exclude reading them
  before a report. `RegressionValidationScatter.Scatter.constructor` starts
  the map empty, so a query before the first report answers 0.0 where the
  source would fail.
- ParmDialogChoices.Choices is modelled apart from `ParmDialogGroup.Group`,
  so the subclass does not inherit the checkbox behaviour in this model.
- ParmDialogChoices.Choices.CheckToggled and
  `ParmDialogGroup.Group.Clicked` start after the widget has toggled its own
  selection. That toggle is assumed to have happened already.
- ConfusionDisplay.Display.RunPredictions: only an `IOException` of the
  prediction run is modelled, as a message. Any other exception leaves
  `runPredictions` before the tables are refilled, and that path is not
  modelled.
- Strings.Less is code-point order on Dafny characters. Java's `compareTo`
  compares UTF-16 code units, so the two orders differ when a supplementary
  character meets one in U+E000..U+FFFF. The model's `TreeSet` order, and so
  the value `ParmDialogChoices.Choices.UpdateValue` writes, can differ there.
- The results button (`btnGraph`) and the parameter editor button open
  dialogs and hold no logic of their own. `ParmsDialog`, `ParmDialogText`,
  `ParmDialogFlag`, `ScatterDisplay` and `ShellUtils` are not part of this
  model.

## Findings

| source | as written | input that shows it | evidently intended | confidence | as-written member | corrected member |
|---|---|---|---|---|---|---|
| src/org/theseed/reports/ClassValidationConfusion.java:57-59 | `getTrainCount` returns the testing matrix cell | one label, one row whose id is trained, both best labels 0: the training count shown is 0 while the training matrix holds 1 | return the training matrix cell, as its comment says | not executed | ClassValidationConfusion.TrainCountMismatch | ClassValidationConfusion.Confusion.TrainCount |
| src/org/theseed/reports/RegressionValidationScatter.java:38-48 | a stored prediction keeps a reference to the caller's batch and reads it when queried; the class comment at lines 33-37 says this is deliberate | report a 1 by 1 batch holding 1.0, then overwrite the batch cell with 2.0: `getX` of the record gives 2.0; the values shown go wrong only when a caller reuses or overwrites a batch after reporting it, which no caller in these files does | if batches can be reused, the values reported are the values shown | not executed; a conditional finding | RegressionValidationScatter.AliasedBatch | RegressionValidationScatter.CopiedBatch |
| src/org/theseed/dl4j/win/TrainingManager.java:580-583 | the meta-column answer's length is read, but the dialog answers null when no item was moved (MetaDialog.java:35, 150) | a new model directory without `parms.prm` whose dialog is closed at once: a null-pointer exception that neither caller catches, so no parameter file is written; the buttons keep their previous state while `modelDir` and the model type already describe the new directory | an untouched dialog means no meta columns | not executed | MetaDialog.UntouchedDialog | TrainingManager.Setup |
