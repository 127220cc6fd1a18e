# A verified model of the Kemet manufacturing services

This project models, in Dafny 4.11, the parts of the manufacturing ERP where a mistake is hard to see by reading one
function: the finite-capacity machine scheduler, the quantity and stage flow of work orders, bill-of-material costing and
its copy into another environment, and the translation-catalogue and calendar algorithms. Check everything with
`dafny verify dfyconfig.toml`.

## What is modelled

**Scheduler** (`Calendar`, `Clock`, `Board`, `RouteOrder`, `Route`, `Reschedule`, `Snap`, `SnapBoard`). Time is whole
minutes at a fixed offset from UTC. The reference is a per-minute clock: a shift calendar says which minutes are worked,
and a job walks over them one by one. The dated window list of the source, its alignment, its end computation and its
search loop are methods proved against that clock: the search ends, its slot meets no booking, and every earlier start in
shift would. Routes, rescheduling from an anchor and snapping to a grid are methods of classes holding the rows of the
work-order table, which they update in place.

**Work-order flow** (`Flow*`). `Flow` gives every service call as a function from a state (orders, production logs, quality
checks) to the state it leaves, including what a failing call had saved before it failed. What the calls keep is proved of
the functions: one call at a time with its exact condition, then over every run. `FlowService.Shop` performs the calls the
way the source does, running over the tables and reading, changing and saving rows one after the other; each method is
proved to have the effect of its function and promises its caller the laws that follow (`FlowLaws`): the lifecycle laws
always, soundness exactly when the call is safe, and what becomes of quantities, output and scrap.

**Bills of material** (`Bom`, `BomCopy`, `SetupCopy`, `CopyMeaning`). Costing with its path of visited ids, compared with
the plain cost of the unfolded tree; and the copy of products and bills into another environment, in several passes over
tables that may already hold rows. Decimals are reals.

**Catalogues and calendars** (`Po`, `PoFile`, `PoRoundTrip`, `Mo`, `Utf8`, `Lines`, `EndDate`, `ShiftConfig`,
`CurrentShift`). The PO printer against the PO parser (GNU gettext manual, chapter 3), the MO writer against a reader that
follows its tables (section 10.3 of that manual), end dates over holidays, and the dashboard's notion of the current shift
against the scheduler's.

`Common`, `Text` and `Sums` are shared pieces.

## Where the code does not do what its documentation or callers expect

Each of these is proved, with the exact condition under which the expectation holds, for all inputs; where that condition
does not show a failing state by itself, a concrete one is given.

- Rounding a time up to a grid lands on the grid for every time only if `60 % step` is 0 or 1 or the step is a multiple of
  60 (`Snap.CeilLandsOnGrid`).
- Beyond the listed windows (about 31 days) a job runs through the night (`Clock.PastHorizonIsNotExact`,
  `Clock.ExactWorkingMinutes`).
- Output reported on a task can exceed what the task plans, or work can be planned that no stage released. Every call is
  judged exactly (`FlowRuns.CallSoundExactly`). Approving a log with a completion request splits the remainder away although
  other output is waiting (`FlowRuns.WaitingOutputIsStranded`); an approved log can be rejected after its output was released
  (`FlowRuns.ReleasedOutputIsRejected`); a rejected log can be approved without room for it
  (`FlowRuns.RejectedOutputHasNoRoom`), or with room but splitting waiting output away
  (`FlowRuns.RejectedOutputStrandsWaiting`).
- A canceled task counts as unfinished when its parent is to be completed, so canceling a split of a stage task, or merging
  one away, keeps the parent from ever being completed or closed: from a lawful state an open order can still be completed if
  and only if neither it nor one of its tasks is canceled, archived or on hold (`FlowLifecycle.CanBeCompletedExactly`,
  `FlowLifecycle.CancelSplitBlocksParent`, `FlowLifecycle.CanceledSplitExample`). The test is
  `exclude(status="completed")` in manufacturing/services.py:2981, 3431 and 4550; only the parallel branch also leaves out
  canceled tasks (line 4571).
- Accepting scrap beyond the base quantity resolves more scrap than it takes off the order
  (`FlowScrap.AcceptanceIsExactWithinBase`, `FlowScrap.AcceptanceBeyondBase`), and a parent that takes over a task's quantity
  keeps "base + compensation = quantity" only if the task plans at least the compensation (`FlowScrap.SyncAddsUpExactly`,
  `FlowScrap.SyncBelowCompensation`).
- Canceling a split adds the quantity back but makes a planned time of less than a minute a minute long
  (`FlowUndo.CancelUndoesSplitExactly`).
- A sub-assembly that is not copied along silently drops out of the copied cost: a copied bill costs what its source costs
  without the links to bills that are not copied (`CopyMeaning.CopyCostsPrunedSource`, `CopyMeaning.LinksAreKeptExactly`,
  `CopyMeaning.DroppedCostExample`), and bills sharing product and version are merged (`CopyMeaning.SharedTargetAddsUp`,
  `CopyMeaning.OwnLinesExactly`).
- One translation with a NUL or an unusual line break makes the printed PO file unparsable
  (`PoRoundTrip.UpsertTranslation`).
- A job starting at a fraction of a second loses that fraction when it runs past the next midnight by more than it
  (`EndDate.CalculateEndDate`, `EndDate.FractionIsLost`).
- A dashboard with no shift enabled reports the morning shift as running, where the scheduler regards every minute as
  usable (`CurrentShift.CalendarsAgreeExactly`).

## Model

| member | source | states |
|---|---|---|
| Calendar.MachineWindows | manufacturing/services.py:5574-5598 | the list is sorted by start and holds exactly the dated windows of the enabled shifts from the day before on |
| Calendar.WindowIsWorking | manufacturing/services.py:5583-5597 | every minute inside a listed window is a worked minute of the shift calendar, night shifts included |
| Calendar.WorkingIsListed | manufacturing/services.py:5583-5597 | every worked minute before the horizon lies in a listed window, so the one-day-back anchor misses nothing |
| Calendar.HorizonIsMonotone | manufacturing/services.py:5585-5597 | listing windows from a later moment never shortens the listed future |
| Calendar.WorkCountRepeatsDaily | manufacturing/services.py:5585-5597 | worked minutes repeat every day |
| Calendar.ThirtyDaysBeforeHorizon | manufacturing/services.py:5574-5598 | the listed windows always hold thirty full days of working minutes |
| Clock.MachineEndForDuration | manufacturing/services.py:5608-5624 | the window-by-window end is the end of the minute-by-minute walk, also when windows overlap or cross midnight |
| Clock.EndIsMonotone | manufacturing/services.py:5608-5624 | for every duration a later start never ends earlier |
| Clock.ExactWorkingMinutes | manufacturing/services.py:5608-5624 | within the horizon the interval holds exactly the requested working minutes and ends with a worked one; past it, what is left runs on around the clock |
| Clock.ThirtyDayJobsAreExact | manufacturing/services.py:5608-5624 | any job of up to thirty days' working minutes is exact |
| Clock.PastHorizonIsNotExact | manufacturing/services.py:5624 | a longer job need not be: a concrete calendar, start and duration |
| Board.AlignToMachineWindow | manufacturing/services.py:5600-5606 | the result is the first usable minute at or after the given one, or the given one when no shift is enabled |
| Board.FindNextAvailableSlot | manufacturing/services.py:5565-5656 | the search ends with the earliest slot: aligned, of the right end, free of every active dated booking of the machine, and every earlier start in shift collides |
| Board.EarliestSlotIsUnique | manufacturing/services.py:5643-5656 | that description fixes the slot |
| Board.SkippedStartsCollide | manufacturing/services.py:5646-5656 | every start skipped by jumping to the end of a conflicting booking collides with it |
| Board.PickBestMachineSlot | manufacturing/services.py:4111-4126 | the chosen machine has the earliest slot of all candidates by start, and is the first of those in the list |
| Route.ChooseSlot | manufacturing/services.py:4305-4400 | each stage gets a slot by its request's rules, the best over all candidate machines when it may choose; a manual start before its predecessor's end is refused |
| Route.PlacingKeepsNoDoubleBooking | manufacturing/services.py:4305-4500 | putting a free slot on the board creates no overlap |
| Route.RouteBoard.PlaceStage | manufacturing/services.py:4283-4460 | one stage task is created or updated by a good choice for that stage and no other row changes; an error changes nothing |
| Route.RouteBoard.PlaceStages | manufacturing/services.py:4290-4460 | the loop keeps the board free of double bookings; every placed stage got the earliest slot of its machine, and of all candidates if it could choose, on the board the stages before it left; in series it starts at or after the end before it; an error leaves what was placed |
| Route.RouteBoard.ScheduleFullRoute | manufacturing/services.py:4163-4500 | on return no two active dated orders of a machine overlap, every stage row is the earliest slot its stage could get when it was placed, only the parent and its tasks changed, and in series the dated stages form a prefix of the route in order |
| Reschedule.StageTimeline.RescheduleFromAnchor | manufacturing/services.py:6014-6108 | earlier stages stay as they were, the moved stage gets the dates asked for as far as its predecessor allows, each later stage starts at or after the end before it, and machine stages take their earliest slot |
| Reschedule.RetimedAt | manufacturing/services.py:6040-6108 | the property of the whole route holds at every position |
| RouteOrder.OrderedIsRight | manufacturing/services.py:5961-5986 | the ordered selection holds exactly the selected rows, by key and then by id |
| RouteOrder.DatesDoNotChangeOrder | manufacturing/services.py:5961-5986 | the route order does not depend on dates |
| Snap.CeilLandsOnGrid | manufacturing/services.py:5659-5679 | rounding up lands on the grid for all times if and only if 60 % step is at most 1 or 60 divides the step |
| Snap.CeilIsNextGridPoint | manufacturing/services.py:5659-5679 | with a step dividing the hour no grid point is skipped |
| Snap.ShiftStartPastFixedBookings | manufacturing/services.py:5701-5729 | the search ends at a start free of every in-progress booking, on the grid, and every earlier grid point collides |
| SnapBoard.Timeline.SnapScheduledWorkOrders | manufacturing/services.py:5732-5831 | every processed task is on the grid for a grid step, keeps its duration, starts no earlier than the end of a predecessor that is not processed after it, and meets no in-progress booking but its own parent's; other rows are unchanged |
| SnapBoard.SnappedAt | manufacturing/services.py:5760-5831 | the same for any one task of the pass |
| SnapBoard.SnappedTasksDoNotClash | manufacturing/services.py:5760-5831 | any two processed tasks of one machine are disjoint |
| SnapBoard.RouteOrderIsKept | manufacturing/services.py:5737-5795 | a route that was in order before the pass is in order after it: no task starts before its predecessor ends |
| ShiftConfig.NormalizeShiftConfiguration | manufacturing/shift_utils.py:72-107 | the loop over the shift keys builds exactly the normal form |
| ShiftConfig.NormalizedIsValid | manufacturing/shift_utils.py:72-107 | whatever was stored, the normal form holds three entries with readable times |
| ShiftConfig.NormalizingTwice | manufacturing/shift_utils.py:72-107 | normalising again, under any mode, base and default, changes nothing |
| CurrentShift.GetCurrentShiftWindow | manufacturing/services.py:1688-1784 | active exactly when the minute is worked, with a window of the scheduler that contains it; otherwise the next start over all enabled shifts |
| CurrentShift.NextStartIsAligned | manufacturing/services.py:1752-1784 | an inactive dashboard names the start that the scheduler's alignment would choose |
| CurrentShift.DashboardReadsTheSchedulersCalendar | manufacturing/shift_utils.py:125-141 | for a machine on factory shifts both read the same calendar, although one normalises twice |
| CurrentShift.CalendarsAgreeExactly | manufacturing/services.py:1734-1750 | the two agree at every minute if and only if a shift is enabled or the morning shift lasts the whole day |
| FlowService.Shop.CreateLog | manufacturing/services.py:6326-6352 | accepted output waits for review and all output of the order still fits its quantity, that of other orders is as before; a refusal changes nothing |
| FlowService.Shop.ApproveLog | manufacturing/services.py:6464-6574 | approving a log in any review state keeps the lifecycle laws, and keeps a sound route sound if and only if there is room for a rejected one and no waiting output is split away |
| FlowService.Shop.Split | manufacturing/services.py:5030-5197 | a split, done or failed half-way, keeps the total over active leaves, every leaf above its approved output, and the lifecycle laws |
| FlowService.Shop.CancelSplit | manufacturing/services.py:5364-5437 | the leaves lose the quantity of the split exactly if the return target has tasks of its own, and nothing otherwise; a refusal changes nothing |
| FlowService.Shop.Combine | manufacturing/services.py:5460-5562 | the loops over the set move all quantity into the target and cancel the others: the total over active leaves stays, every leaf plans its approved output, and soundness and the lifecycle laws hold |
| FlowService.Shop.Release | manufacturing/services.py:4841-4996 | what a stage has released and what the next stage plans grow by the same quantity, within the approved output; a refusal changes nothing |
| FlowService.Shop.Compensate | manufacturing/services.py:3717-3848 | base + compensation = quantity is kept everywhere, the target grows by what is compensated and as much more of its scrap is resolved, never beyond what was found |
| FlowService.Shop.AcceptScrap | manufacturing/services.py:3851-3926 | the same books are kept, the target shrinks by what is accepted except beyond its base, and as much more of its scrap is resolved |
| FlowService.Shop.SyncParents | manufacturing/services.py:3397-3509 | the reconciliation passes are a run of single parent synchronisations and keep the lifecycle laws and soundness |
| FlowService.Shop.Close | manufacturing/services.py:3027-3099 | a closed order is completed, received and without planner action, and all its tasks are completed and end by the close; a refusal changes nothing |
| FlowLaws.CallKeepsLaws | manufacturing/services.py:2929-6592 | any call keeps the lifecycle laws, frees no stuck order and completes none above a stuck one, and keeps a sound route sound if and only if it is safe |
| FlowInvariant.OutputFlowsDownstream | manufacturing/services.py:4877-4937 | in a sound state the approved output of stage k+1 is at most that of stage k |
| FlowInvariant.OutputBoundedByEarlierStages | manufacturing/services.py:4877-4937 | by induction no stage outruns any earlier stage |
| FlowInvariant.CreateLogKeepsSound | manufacturing/services.py:6343-6355 | reporting output keeps the state sound |
| FlowInvariant.ReviewKeepsSound | manufacturing/services.py:6464-6592 | reviewing a waiting log either way keeps it sound |
| FlowMoves.SplitSoundExactly | manufacturing/services.py:5059-5071 | a split keeps the state sound if and only if what stays covers approved and waiting output |
| FlowMoves.ReleaseSoundExactly | manufacturing/services.py:4877-4937 | a release keeps it sound if and only if it is refused or made from a stage task |
| FlowMoves.CompensateSoundExactly | manufacturing/services.py:3773-3812 | a compensation keeps it sound if and only if the stage before has released the work for the replenishment task |
| FlowMoves.CancelSplitSoundExactly | manufacturing/services.py:5388-5417 | a cancellation keeps it sound if and only if the quantity is backed by released output where it goes |
| FlowCombine.CombineKeepsSound | manufacturing/services.py:5508-5536 | a merge keeps it sound |
| FlowRuns.ApproveSoundExactly | manufacturing/services.py:6491-6571 | approving a waiting log keeps it sound if and only if it does not split while other output waits |
| FlowRuns.RejectApprovedSoundExactly | manufacturing/services.py:6578-6592 | rejecting an approved log is sound if and only if that output was not released |
| FlowRuns.ApproveRejectedSoundExactly | manufacturing/services.py:6464-6574 | the whole call of approving a rejected log is sound if and only if the order still has room for it and the call does not split waiting output away |
| FlowRuns.CallSoundExactly | manufacturing/services.py:3717-6592 | every call of the flow keeps a sound route sound if and only if it is safe, the condition read off the state before it |
| FlowRuns.RunsNeverCreateOutput | manufacturing/services.py:4877-4937 | over every run of safe calls each task keeps released <= approved <= reported <= quantity and no stage outruns an earlier one |
| FlowRuns.FreshRouteIsSound | manufacturing/services.py:4841-4937 | a route is sound before any output when work is planned at its first stage only, as a release-driven route starts |
| FlowRuns.WaitingOutputIsStranded | manufacturing/services.py:6500-6519 | a concrete route where an approval breaks soundness |
| FlowRuns.ReleasedOutputIsRejected | manufacturing/services.py:6578-6592 | a concrete route where rejecting released output breaks it |
| FlowRuns.RejectedOutputHasNoRoom | manufacturing/services.py:6464-6474 | a concrete route where approving a rejected log breaks it for want of room |
| FlowRuns.RejectedOutputStrandsWaiting | manufacturing/services.py:6500-6519 | a concrete route where there is room, but the approval splits waiting output away |
| FlowConservation.SplitConserves | manufacturing/services.py:5059-5136 | a split keeps the total over active leaves and every leaf above its approved output |
| FlowConservation.CombineConserves | manufacturing/services.py:5508-5536 | so does a merge |
| FlowConservation.CancelConservesExactly | manufacturing/services.py:5388-5417 | a cancellation loses exactly the split's quantity if the target has tasks of its own, and nothing otherwise |
| FlowConservation.RunsConserveQuantity | manufacturing/services.py:5059-5536 | over every run of splits, merges and cancellations onto leaves the total is unchanged |
| FlowUndo.SplitThenCancel | manufacturing/services.py:5063-5103 | the whole state after splitting and canceling again; refused exactly when the original is closed |
| FlowUndo.CancelUndoesSplitExactly | manufacturing/services.py:5208-5253 | every order is as before if and only if base, progress, planned time and the parent were consistent |
| FlowScrap.ScrapRunsKeepBooks | manufacturing/services.py:3748-3823 | over every run of scrap decisions on any checks: base + compensation = quantity, no check resolves more than it found, the quantity follows the decisions but for what was accepted beyond the base, and the decisions add up to the resolved scrap |
| FlowScrap.DecisionsWithinScrap | manufacturing/services.py:3748-3756 | all decisions on a target together stay within the scrap found |
| FlowScrap.AcceptanceIsExactWithinBase | manufacturing/services.py:3882-3910 | an acceptance takes off exactly what is accepted if and only if it stays within the base |
| FlowScrap.AcceptanceBeyondBase | manufacturing/services.py:3882-3910 | a concrete order from which accepting five takes two |
| FlowScrap.SyncAddsUpExactly | manufacturing/services.py:5234-5253 | the parent's breakdown adds up after taking over a task's quantity if and only if the task plans at least the compensation |
| FlowScrap.SyncBelowCompensation | manufacturing/services.py:5234-5253 | a concrete parent whose breakdown does not |
| FlowLifecycle.StepReach | manufacturing/services.py:2929-3099 | any one call keeps the lifecycle laws, lets no canceled, archived or held order go on and completes no order that has such a task |
| FlowLifecycle.RunsStayLawful | manufacturing/services.py:2976-2989 | over every run of any calls a completed, not closed parent has only completed tasks, and a closed order stays completed, received and without planner action |
| FlowLifecycle.CanBeCompletedExactly | manufacturing/services.py:2976-2989 | from a lawful state an open order can be completed in some run if and only if neither it nor one of its tasks is canceled, archived or on hold |
| FlowLifecycle.CancelSplitBlocksParent | manufacturing/services.py:5406-5417 | once a split of a stage task is canceled, its open parent is completed in no run |
| FlowLifecycle.CombineBlocksParent | manufacturing/services.py:5522-5536 | nor once a stage task is merged away |
| FlowLifecycle.CanceledSplitExample | manufacturing/services.py:5406-5417 | a concrete order that some run completes, and none after its split is canceled |
| Bom.ConvertRoundTrip | manufacturing/units.py:43-63 | conversion works exactly between equal names and units of one kind, and converting back undoes it |
| Bom.CalculateCost | manufacturing/services.py:905-951 | the accumulating loop with its visited ids computes the cost function and ends on every finite graph |
| Bom.CycleErrorIsExact | manufacturing/services.py:912-916 | the circular-dependency error is raised if and only if a cycle is reachable |
| Bom.UnfoldedBillIsCosted | manufacturing/services.py:905-951 | a bill that unfolds to a tree, shared sub-assemblies included, costs what the tree costs |
| Bom.CostingSucceedsExactly | manufacturing/services.py:905-951 | costing succeeds if and only if the bill unfolds, which is if and only if no cycle is reachable |
| Bom.CostIsNonNegative | manufacturing/models.py:285-297 | non-negative inputs give a non-negative cost |
| BomCopy.CostIsRenamed | manufacturing/services.py:905-951 | costing is invariant under injective renaming of the graph, errors included |
| SetupCopy.TargetDb.UpsertProduct | tenancy/setup_copy.py:98-109 | update or create by name |
| SetupCopy.TargetDb.UpsertBill | tenancy/setup_copy.py:135-155 | update or create by product and version, emptied; an ambiguous key is an error that changes nothing |
| SetupCopy.TargetDb.CreateBills | tenancy/setup_copy.py:135-155 | the bill map covers the copied bills and other target bills are unchanged |
| SetupCopy.TargetDb.FillBills | tenancy/setup_copy.py:157-189 | every target bill has the lines of all bills mapped to it, in order |
| SetupCopy.TargetDb.CopyEnvironmentSetup | tenancy/setup_copy.py:34-250 | after the passes the target is a copy through the id maps, bills outside it are unchanged, and an error restores the target |
| CopyMeaning.DistinctKeysGetDistinctBills | tenancy/setup_copy.py:135-155 | distinct products and versions give an injective bill map |
| CopyMeaning.CopyCostsPrunedSource | tenancy/setup_copy.py:98-189 | with distinct keys, each target bill costs what its source costs without the links to bills that are not copied, or both report the corresponding cycle |
| CopyMeaning.CopyPreservesCost | tenancy/setup_copy.py:98-189 | a bill whose sub-assemblies, at any depth, are copied along costs the same in the target |
| CopyMeaning.CopyPreservesCosts | tenancy/setup_copy.py:98-189 | with distinct keys and every sub-assembly copied, each target bill costs what its source costs, or both report the corresponding cycle |
| CopyMeaning.LinksAreKeptExactly | tenancy/setup_copy.py:185-189 | the copy keeps every sub-assembly link if and only if every sub-assembly of a copied bill is copied |
| CopyMeaning.UncopiedLineIsDropped | tenancy/setup_copy.py:185-189 | any line of any bill falls back to its own figures when its sub-assembly is not copied |
| CopyMeaning.DroppedCostExample | tenancy/setup_copy.py:185-189 | a concrete bill that every copy of its environment makes cheaper |
| CopyMeaning.SharedTargetAddsUp | tenancy/setup_copy.py:135-183 | bills with one key share a target bill, which holds the lines of each of them |
| CopyMeaning.OwnLinesExactly | tenancy/setup_copy.py:157-183 | a target bill has its source's lines only if and only if no other bill with lines shares the target |
| Po.ReplacementsEscape | manufacturing/translation_catalog.py:93-100 | the five replacements in a row escape each character by itself |
| Po.UnquoteEscaped | manufacturing/translation_catalog.py:64-68 | evaluating an escaped text gives the text back |
| Lines.PartsMakeTheText | manufacturing/translation_catalog.py:103-104 | the lines kept with their ends concatenate to the text |
| PoFile.ParsePo | manufacturing/translation_catalog.py:33-81 | the loop over the lines is the run of the line-by-line state machine |
| PoFile.FieldIsTakenIn | manufacturing/translation_catalog.py:103-109 | a printed field is read back whole, however many lines it took |
| PoFile.ClassifyTorn | manufacturing/translation_catalog.py:58-68 | a printed line torn inside its text is an error, whatever stripping does to it |
| PoRoundTrip.LinesAreTakenIn | manufacturing/translation_catalog.py:53-78 | the parser takes printed lines as printed, or stops with an error if and only if one is not clean |
| PoRoundTrip.WritePo | manufacturing/translation_catalog.py:112-128 | the text is the header's block and one block per other key, with the default header if there was none |
| PoRoundTrip.ParseUndoesWrite | manufacturing/translation_catalog.py:33-128 | parsing the printed text gives the same map, in whatever order keys were printed, and an error if and only if a string holds a NUL or a line break other than CR and LF |
| PoRoundTrip.UpsertTranslation | manufacturing/translation_catalog.py:184-193 | the edited file parses to the old entries with that one replaced, or not at all |
| PoRoundTrip.RemoveTranslation | manufacturing/translation_catalog.py:203-212 | the edited file parses to the old entries without that one |
| Utf8.EncodingKeepsOrder | manufacturing/translation_catalog.py:133-134 | sorting by code points sorts the encoded keys by bytes |
| Mo.SortedKeys | manufacturing/translation_catalog.py:133 | the keys in strictly increasing order |
| Mo.CompileMo | manufacturing/translation_catalog.py:131-164 | the file is correctly indexed, or an error if and only if a length or offset does not fit into a signed 32-bit number |
| Mo.LayoutIsIndexed | manufacturing/translation_catalog.py:138-163 | each row of each table holds length and offset of its string, which is followed by NUL; the strings tile the file without overlap |
| Mo.ReaderSeesOrder | manufacturing/translation_catalog.py:151-163 | a reader finds the right number of keys in strictly increasing byte order |
| Mo.EveryEntryHasRow | manufacturing/translation_catalog.py:151-163 | a reader finds every entry of the map |
| Mo.EveryRowHasEntry | manufacturing/translation_catalog.py:151-163 | a reader finds nothing else |
| Mo.FileDeterminesEntries | manufacturing/translation_catalog.py:131-164 | two maps compiled to the same file are the same map |
| EndDate.CalculateEndDate | manufacturing/utils.py:112-162 | the loop ends if some weekday is worked; the end is on a working day after exactly the duration of working time from the first working day, less the starting fraction of a second if and only if midnight is passed by more than it |
| EndDate.PushToWorkingDay | manufacturing/utils.py:124-126 | the start moves by whole days over holidays only, to a working day |
| EndDate.WorkExistsExactly | manufacturing/utils.py:90-110 | from every day a working day follows if and only if some weekday is not a weekly holiday |
| EndDate.EndIsUnique | manufacturing/utils.py:112-162 | that description fixes the end |
| EndDate.EndDateIsUnique | manufacturing/utils.py:112-162 | for every start, duration and settings there is one end date that the loop can return |
| EndDate.FractionIsLost | manufacturing/utils.py:133-155 | two seconds of work from half a second before midnight end after a second and a half |

## Left out

- Seconds in the scheduler, time zones and daylight saving: times are whole minutes (scheduler), rational seconds (flow) or
  whole microseconds (end dates) at one fixed offset; float rounding is not modelled.
- Decimal precision: money and quantities in costing are reals, rounded to cents where the source rounds.
- Permissions and roles, notifications, change logs, e-mail, web views, the ORM with its routers and savepoints; each call
  is one atomic step, and a call without a transaction of its own keeps what it saved before failing.
- Quality gates in the stage flow: a pending check that blocks a transition, a release or a completion is not modelled;
  `Flow.Gate` keeps only the quantity that a check found good.
- Materials, machines' names, workers, assignments, instructions and other fields of a work order that no modelled branch
  reads. Company, bill, product, customer, order type and quality requirement of an order are one number (`kind`), which both
  merging and returning a split compare; the source compares order type and quality requirement for merging only.
- A parent's route is the length of one bill's stage list; the fallback for stages outside the bill and orders without a
  bill or stage, and the chain of source tasks that marks compensation work (it is a flag here), are not modelled.
- The planned slot of a split-off order is a parameter; it comes from the scheduler, which is modelled by itself.
- Cancel-split onto a source of an earlier stage is possible in `Flow.CancelSplit`; runs that keep the route sound exclude it
  by its exact condition. Replanning after quantity changes, BOM-change decisions and `views_legacy.py` are left out: they
  write states directly.
- FlowRuns.FreshRouteIsSound: a route whose later stages are planned in advance, as `create_subtasks` and the route scheduler
  plan them, does not start backed by releases; the soundness laws are about release-driven routes.
- FlowRuns.RunsNeverCreateOutput: runs are of safe calls, each judged exactly by `FlowRuns.CallSoundExactly`; a compensation
  that adds quantity to a later stage without a release behind it, and a release straight from an order without stage tasks,
  are not safe.
- FlowUndo.CancelUndoesSplitExactly: splits with an explicit finish time are not covered, as they move the end date by design.
- `Flow.AdvanceParent` leaves a pending order that is already closed as it is, where the source raises an error; no run from a
  lawful state reaches that.
- `_sync_downstream_main_branch_after_split` is never called in the source and is not modelled.
- In the environment copy: machines, stages, operations, acceptance criteria, users, and the status of bills; of a bill the
  product, version, parent and lines are modelled.
- `BillOfMaterial.save` (one active bill per product) and the dashboards' payloads: easy to read off.
- In PO files, literal forms that the printer does not produce (other escapes, adjacent literals, single quotes) are an
  outcome of their own, about which nothing is claimed; the order of keys in the file is arbitrary; the text of the default
  header is a parameter. Lone surrogates do not exist in the model.
- PoRoundTrip.UpsertTranslation: the second, handed-off file and the compiled catalogue written in the same call are left out.
- In MO files, native byte order is little-endian.
- In shift settings, decimal digits outside ASCII are not digits; holiday dates are day numbers rather than strings.
- EndDate.CalculateEndDate: hours are whole microseconds, where the source computes with floating-point hours.
