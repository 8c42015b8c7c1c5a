# Sales Cadence: what its planners and protocols guarantee

A Dafny model of the parts of Sales Cadence whose correctness is hard to see by reading: the campaign
calendar planner, the fitter on top of it, the publication transactions, the merged feeds, the CSV
reader and the person cache. `dafny verify dfyconfig.toml` verifies all of it.

Where the program updates state step by step, the model does too: `Planner.FoPlanner` pushes and pops
the planner's table, `StandIns.FitWindow` keeps the fitter's cache, `Snapshots.PersonCache` its rows,
and loops are loops. Each such method is proved equal to a pure function of the state before it, and
the properties below are proved of those functions for every input. That every lookup in the
planner's table hits a working day of the window is part of each of those proofs. Transactions are a
state machine whose steps interleave freely.

## How it is organised

- **Calendar planner** (`src/lib/campaign-planner.ts`): `Days` (working days and journeys), `Queues`
  (who starts in which order), `Placement` (the placement rules, as a walk and as a whole plan),
  `Search` (the backtracking search as a function from state to state), `Fewest` (greedy pass, `upTo`,
  halving), `Planner` (the class that does all this in place), `Calendar` (one FO), `Campaign` (all
  FOs), `Carried` (why the exhausted flag matters).
- **Fitter** (`src/lib/campaign-fit.ts`): `Starts`, `Room`, `Measure`, `Paces`, `StandIns`,
  `Certain` (when the final calendar cannot fail), `Edited` (asking about an FO's own queue),
  `SmallBoards` (where the answer is provably the least), `Overtaking`, `BranchBound`, `Fit`, `Split`, `Trimming`, `FinalPlan`, and the two branches end to end:
  `Keeping` (the user's own outreach), `Reshaping` and `Studio` (an outreach built for them).
- **Publication** (`campaign-planning-service.ts`, `campaign-add-fo.ts`, `campaign-people.ts` and the
  files they share locks with): `Locks`, `Publishing`.
- **Paging**: `Feeds` (two sources, one cursor), `Activity`, `Bell`, `Cursors`.
- **Smaller cores**: `Csv`, `Snapshots`; `Sorting` is the stable sort they all use.

## Conventions

- A day is an integer, day 0 being 1 January 1970, with its weekday computed; an outreach is the list
  of its step days, at least one and strictly increasing. Campaign, FO, person and account ids are
  natural numbers. A person's `name` stands for the name's place in the collation order.
- Memo keys (`failed`, `tried`, `feasible`) hold the values the program's key strings spell out.
- Numbers the program divides are integers or reals; rounding is not modelled except where it is
  written out (`Math.ceil`, `Math.floor`, the 1e-9 in the shared-outreach choice).
- What the outside world decides is a parameter: the search budget (`spent`), how a schedule query is
  answered (`schedule`, `ask`; `Edited.Truthful` and `Studio.Sincere` say what the program's own answers
  meet), who else is unreachable (`extra`), how a header is normalised (`norm`).

## Where the code does less than its comments or callers might suggest

Each is proved with a concrete input and with the exact condition under which the promise holds.

1. **Staying under the search limit is not enough for an exact answer.** `exhausted` is one flag for
   the whole campaign: a spent fewest-days search of one FO raises it, and the next FO's fill-every
   search then gives up after its first dive (`Search.FlagUpDivesOnce`, with two FOs of one campaign in
   `Carried.FlagCutsSearch`; that calendar is invalid anyway, because of the first). The search is exact
   exactly as long as the flag is down when it ends (`Calendar.SearchEveryExact`,
   `Campaign.CalendarIsExact`); with the flag down on entry that is the same as not passing the limit
   (`Search.SuccessIsWithinLimit`).
2. **Blocking an account and publishing can pass each other.** Publish and re-plan lock the accounts
   of a plan made before the transaction, not of the one they write. Whoever's account is locked is
   safe, and an FO joining a running campaign always is (`Publishing.LockedAreNotBlocked`); anyone
   else's account can be blocked first and the plan still written (`Publishing.UnlockedCanBeBlocked`,
   with a run in `Publishing.BlockedYetPublished`).
3. **A follow-up waiting for approval may hold someone a scheduled campaign has**: its draft is saved on
   a check made without the publication lock, and a withdrawn re-plan writes its request unchecked
   (`Publishing.WaitingCanOverlap`, a run of the first). While all campaigns that hold people are apart,
   a commit leaves them apart exactly when the people of a campaign it leaves waiting are held by no
   other at that moment and the people a plan keeps wait in no other (`Publishing.WaitingStayApart`).
   Scheduled, active and paused campaigns never share anyone (`Publishing.NeverInTwoCampaigns`).
4. **The bell can lose a row** when a page ends between a reply and a notice with the same instant and
   id, since its keys do not say which table a row is from (`Bell.BellCanLoseARow`); it loses none
   exactly when that does not happen (`Bell.BellShowsAll`).
5. **A cached person's `raw` copy does not converge.** An update whose snapshot lacks it keeps the old
   one. It converges exactly when the newest snapshot carries one or none does
   (`Snapshots.RawConverges`); every other field always does (`Snapshots.Converges`).
6. **A pace above the request can win although one at the request works**, when only the higher one
   fills every day: `choosePace` looks for a filling pace everywhere before it accepts empty days,
   where the header of `campaign-fit.ts` says each FO keeps the request when it works
   (`Overtaking.AboveRequestCanWin`, on a queue of two outreaches with the planner's own answers;
   `Paces.ChoiceIsRight` states exactly when).
7. **A tab-separated file is refused as ragged when it ends in a tab**, as it does when the last row's
   last value is empty and not quoted: trimming the file takes that row's empty cells away
   (`Csv.TabCanBeRefused`). Otherwise every table within the limits reads back as written
   (`Csv.MixedRoundTrip`).
8. **Cursors survive exactly when ids contain no separator** (`Cursors.CursorsComeBack`).

## Model

| member | source | states |
|---|---|---|
| Days.CalendarDays | src/lib/campaign-planner.ts:89-93 | The day-by-day loop returns the working days of the window. |
| Days.WorkingDaysExact | src/lib/campaign-planner.ts:86-93 | Those are exactly the Mondays to Fridays from start to end, in order and once each. |
| Days.OutreachDates | src/lib/campaign-planner.ts:97-113 | The journey loop gives null exactly when some touch would not come after the one before it, otherwise the journey. |
| Days.JourneyWellFormed | src/lib/campaign-planner.ts:97-113 | From a working day and strictly increasing step days the journey is never null: strictly increasing working days, one a step. |
| Days.TouchIsNearest | src/lib/campaign-planner.ts:103-107 | Every touch is on the working day nearest to its intended date, of those after the touch before it; no other comes as close. |
| Days.LaterStartNeverEarlier | src/lib/campaign-planner.ts:102-109 | A later start never makes any step earlier, through every weekend rule. |
| Queues.CampaignQueues | src/lib/campaign-planner.ts:142-165 | The two dealing passes and the sorts give each FO the queue of the specification, and the people whose owner is not on the team. |
| Queues.QueuesKeepEveryone | src/lib/campaign-planner.ts:150-164 | Everyone is in exactly one queue or reported as having an owner outside the team: nobody is lost or doubled. |
| Queues.QueuesAreRightful | src/lib/campaign-planner.ts:148-163 | An owned person is only in their owner's queue, a pinned one only in the queue they are pinned to, and each queue runs by priority, then outreach, name and id. |
| Queues.OwnersDecide | src/lib/campaign-planner.ts:148-153 | In terms of the team's members: an owned contact in a queue has an entry in the team as that FO's member; with members listed once each, a contact is reported exactly when they have an owner whom no FO of the draft is; each as often as listed. |
| Queues.QueueRunsInOrder | src/lib/campaign-planner.ts:163-163 | Every queue runs by priority, then the outreach's place in the draft, then name, then id. |
| Queues.ListingOrderIsIdle | src/lib/campaign-planner.ts:145-163 | The order in which people are listed makes no difference to any queue. |
| Queues.LightestIsLeast | src/lib/campaign-planner.ts:157-157 | An unowned person joins the FO with the least per new person a day, and the lowest id of those. |
| Queues.UnownedAreShared | src/lib/campaign-planner.ts:155-159 | Without pins, an FO who got any unowned contact is at most one contact ahead of what any other FO's share would allow. |
| Queues.CampaignBatches | src/lib/campaign-planner.ts:171-182 | Filling the last batch while it takes the next person builds the batches of the specification. |
| Queues.FlowIsListed | src/lib/campaign-planner.ts:221-228 | Every contact's outreach is one of the draft's, so looking it up never fails. |
| Queues.BatchesCutTheQueue | src/lib/campaign-planner.ts:175-180 | Batches are the queue cut into consecutive pieces: nobody pulled ahead, nobody left out. |
| Queues.BatchesAreProper | src/lib/campaign-planner.ts:175-180 | Every batch holds at least one person and at most the pace, all on its outreach. |
| Placement.OpenMeans | src/lib/campaign-planner.ts:246 | A day the slots table accepts is one where the whole plan so far has fewer than two batches and none on this step. |
| Placement.NeedsTouches | src/lib/campaign-planner.ts:233-240 | The suffix prune loses nothing: a walk that still finishes has at least one touchpoint left for every empty day beyond those allowed. |
| Placement.LeavesBehind | src/lib/campaign-planner.ts:241-245 | The first-empty-day prune loses nothing: days before the next start stay empty for good. |
| Placement.StartsInTime | src/lib/campaign-planner.ts:261-263 | The latest-start bound loses nothing: in any walk that finishes, batch i starts no later than `latest[i]`. |
| Placement.WalkIsLegal | src/lib/campaign-planner.ts:236-253 | Whatever the step-by-step walk accepts satisfies the rules stated on the whole plan, and the other way round, with the same empty days. |
| Placement.ArrangementExists | src/lib/campaign-planner.ts:236-253 | The walk can finish exactly when a legal plan with few enough empty days exists. |
| Search.ExploreExact | src/lib/campaign-planner.ts:236-253 | The search with its memo and prunes, for any number of allowed empty days: success leaves a legal completion in the table, failure restores table and dates, and, unless it ran out, failure means no completion exists and every remembered dead end really is one. |
| Search.HopelessIsFinal | src/lib/campaign-planner.ts:240-240 | A state given up before its loop has no completion. |
| Search.BoundIsSafe | src/lib/campaign-planner.ts:241-245 | No completion starts the next batch past the bound, or at or before the last start. |
| Search.DropUndoesPut | src/lib/campaign-planner.ts:247-249 | Popping a journey's days undoes pushing them, whatever else is in the table. |
| Search.ExploreConsistent | src/lib/campaign-planner.ts:236-253 | From a table that holds exactly the touches of the batches with dates, every call, however deep, ends in such a table; one that fails ends in the very table and dates it began with. |
| Search.SuccessIsWithinLimit | src/lib/campaign-planner.ts:237-237 | A success never passed the limit; with the flag down on entry it is up at the end exactly when the limit was passed. |
| Search.FlagUpDivesOnce | src/lib/campaign-planner.ts:244-251 | With the exhausted flag up on entry a search makes one dive: at most one call for each batch still to place, and one more. |
| Search.SmallBoardsSettle | src/lib/campaign-planner.ts:237-251 | A search makes no more calls than its starts allow, so a board whose starts multiply out below the limit never raises the flag. |
| Search.MoreRoomSameWalk | src/lib/campaign-planner.ts:236-253 | A search that never passed its limit goes the same way to the same dates under any limit leaving as many calls. |
| Fewest.PickIsCheapest | src/lib/campaign-planner.ts:279-289 | The greedy pick, though it stops early, is the first start of least cost among all open ones in time. |
| Fewest.CostCounts | src/lib/campaign-planner.ts:279-289 | A start costs the number of days it leaves empty behind it and the number of its touchpoints on days already in use. |
| Fewest.GreedyCompletes | src/lib/campaign-planner.ts:276-294 | A greedy pass that ends with a plan ends with a legal completion. |
| Fewest.UpToExact | src/lib/campaign-planner.ts:295-320 | `upTo(k)`: a found plan is legal with at most k empty days; unless it ran out, none found means none exists. |
| Fewest.HalveExact | src/lib/campaign-planner.ts:329-335 | The halving keeps a legal plan, never a worse one, and when it settles no legal plan has fewer empty days; `HalveSettles` says when it does. |
| Fewest.HalveSettles | src/lib/campaign-planner.ts:329-335 | With calls to spare for every number still in question the halving settles. |
| Fewest.TouchesBoundQuiet | src/lib/campaign-planner.ts:329-329 | No legal plan has fewer empty days than working days minus touchpoints. |
| Fewest.FewestExact | src/lib/campaign-planner.ts:260-338 | The whole fewest-days search: its plan is legal; none without being spent means none exists; settled means no legal plan leaves fewer days empty. |
| Fewest.SmallBoardsArePlanned | src/lib/campaign-planner.ts:321-326 | On a board whose starts are few enough for half the limit the fewest-days search finds a plan exactly when a legal one exists. |
| Fewest.SmallBoardsAreLeast | src/lib/campaign-planner.ts:321-337 | On a board of few enough starts the plan kept is the best there is: no legal plan leaves fewer days empty, and one is kept exactly when a legal one exists. |
| Fewest.MoreRoomStillFinds | src/lib/campaign-planner.ts:321-326 | A plan the fewest-days search finds under one limit it also finds under any larger one. |
| Planner.FoPlanner.Take | src/lib/campaign-planner.ts:265-265 | Pushing day by day changes the state as the specification's step does. |
| Planner.FoPlanner.Untake | src/lib/campaign-planner.ts:249-249 | Popping restores the table and clears the batch's dates. |
| Planner.FoPlanner.Walk | src/lib/campaign-planner.ts:298-317 | The recursive in-place search, counters, memo and flag included, ends in exactly the specified state; every call, nested ones included, is entered and left with the table holding exactly the touches of the dated batches, and a failed one leaves table and dates as it found them. |
| Planner.FoPlanner.GreedyPass | src/lib/campaign-planner.ts:276-294 | The in-place greedy pass ends in the specified state, taken back when it fails. |
| Planner.FoPlanner.UpToK | src/lib/campaign-planner.ts:295-320 | One `upTo` call gives the specified plan and leaves the table as it was. |
| Planner.FoPlanner.FewestEmpty | src/lib/campaign-planner.ts:260-338 | The whole in-place search gives the specified result. |
| Planner.FoPlanner.Lower | src/lib/campaign-planner.ts:330-335 | The halving loop, which ends because hi - lo falls, gives the result `HalveExact` and `HalveSettles` are about. |
| Calendar.PlanOne | src/lib/campaign-planner.ts:219-344 | One FO, from early rejections to search and fallback, gives the specified answer, calls and flag. |
| Calendar.OversizedIsRight | src/lib/campaign-planner.ts:221-224 | The early size rejection is right: no arrangement exists, or none that covers every day when that is asked. |
| Calendar.SearchEveryExact | src/lib/campaign-planner.ts:236-253 | The fill-every search finds a plan only if some arrangement covers every day, and, with the flag down at the end, whenever one does. |
| Calendar.PlanFoExact | src/lib/campaign-planner.ts:339-344 | One FO's answer: what is planned is an arrangement the fill accepts, with the fewest empty days when settled; what is refused without the flag cannot be planned. |
| Calendar.FailureRestores | src/lib/campaign-planner.ts:247-252 | A failed fill-every search leaves an empty table and no dates. |
| Carried.FlagCutsSearch | src/lib/campaign-planner.ts:237-250 | Two FOs in turn under a limit of three calls: the first cannot be planned and raises the flag; the second's fill-every search then refuses, within the limit, a week that can be covered. |
| Campaign.BuildCampaignCalendar | src/lib/campaign-planner.ts:206-348 | The loop over FOs builds the specified calendar. |
| Campaign.ValidCalendarIsSound | src/lib/campaign-planner.ts:216-346 | A calendar is valid exactly when no issue was raised; then each FO is served by an arrangement of their own queue and everyone is in exactly one batch. |
| Campaign.CalendarIsExact | src/lib/campaign-planner.ts:206-348 | Unless exhausted, the calendar is valid exactly when every FO has people and an arrangement the fill accepts. |
| Campaign.HigherPriorityStartsFirst | src/lib/campaign-planner.ts:163-180 | In a valid calendar nobody of strictly higher priority starts after someone of lower priority of the same FO. |
| Starts.StartsFor | src/lib/campaign-fit.ts:78-89 | The binary search returns the number of start days from which the outreach ends in time. |
| Starts.FitsIsDownward | src/lib/campaign-fit.ts:73-77 | If a day is a possible start, so is every earlier working day. |
| Starts.StartsArePrefix | src/lib/campaign-planner.ts:225-231 | The planner's options are exactly the first days of the window, in order, each with its journey. |
| Room.BoardAllows | src/lib/campaign-planner.ts:225-246 | A legal plan of the planner's board is an arrangement: increasing start days, at most two batches a day and none on the same step, every journey inside the window. |
| Room.TouchesFit | src/lib/campaign-fit.ts:130-131 | An arrangement holds at most 2D - 1 touchpoints, because only one batch can reach the first day. |
| Room.SparseLeavesDays | src/lib/campaign-fit.ts:131-131 | With fewer touchpoints than days, some day is left empty. |
| Measure.RunsOf | src/lib/campaign-fit.ts:110-118 | The loop gives the runs of the queue's first people. |
| Measure.MeasureRuns | src/lib/campaign-fit.ts:121-132 | The closed form computes count, touches, crowded and sparse as defined. |
| Measure.ClosedFormIsBatching | src/lib/campaign-fit.ts:120-128 | For any queue, assignment and pace the closed form counts exactly the batches and touchpoints greedy batching builds, in all and per outreach. |
| Measure.MeasureRefutes | src/lib/campaign-fit.ts:129-131 | A crowded pace has no arrangement at all; a sparse one none that covers every day. |
| Measure.CrowdedGrows | src/lib/campaign-fit.ts:225-228 | A part of a queue that is crowded stays crowded when people are added. |
| Measure.LongestThatFits | src/lib/campaign-fit.ts:227-228 | The trim's binary search finds the longest proper part that is not crowded, or 0. |
| Paces.ChoosePace | src/lib/campaign-fit.ts:141-170 | The two loops give the specified pace or failure. |
| Paces.ChoiceIsRight | src/lib/campaign-fit.ts:134-170 | The pace chosen is the lowest with its batch count, is not crowded and leaves the days empty it says; with tries to spare it is above the request exactly when nothing at or under it fills every day and either something above does or nothing at or under it works. |
| Paces.OrderIsNearestFirst | src/lib/campaign-fit.ts:148-148 | Paces are tried from the request down, then from the request up. |
| Paces.ChoiceIsNearest | src/lib/campaign-fit.ts:134-167 | With tries to spare: if any pace fills every day, the one chosen does, with none that fills between it and the request, and is above the request only if none at or under it fills; otherwise it works, at or under the request with the fewest empty days of all those and nearest to the request of the ones with as few, or, if none of them works, it is the lowest above that does. |
| Paces.FailsOnlyWithout | src/lib/campaign-fit.ts:142-169 | With tries to spare a pace is found exactly when every outreach can start and some pace fills every day or works; otherwise the reason given is the true one. |
| Overtaking.AboveRequestCanWin | src/lib/campaign-fit.ts:149-167 | Four contacts on two outreaches in six working days, planned as the program plans them: one a day is asked for and works with a day empty, and the fitter returns two a day because that fills every day. |
| SmallBoards.SmallBoardsFillExactly | src/lib/campaign-planner.ts:236-253 | With few enough starts for the limit the planner fills every day exactly when some arrangement does. |
| SmallBoards.SmallBoardsFitExactly | src/lib/campaign-planner.ts:260-338 | With few enough starts for half the limit it plans with days left empty exactly when there is an arrangement. |
| SmallBoards.SmallVerdictsAreLeast | src/lib/campaign-planner.ts:321-344 | With few enough starts the planner's answer for an FO is the least number of days any arrangement leaves empty, and there is one exactly when there is an arrangement. |
| Paces.CountFalls | src/lib/campaign-fit.ts:145-148 | A higher pace never needs more batches. |
| Paces.AtOrUnderRequest | src/lib/campaign-fit.ts:146-148 | Counts at least the request's are exactly those whose lowest pace is at or under the request. |
| StandIns.FitWindow.CanSchedule | src/lib/campaign-fit.ts:91-107 | The cached answer is the planner's own, save only for the shortcut after two exhausted searches of the shape. |
| StandIns.StandInsAreReal | src/lib/campaign-fit.ts:90-102 | On one outreach and one FO the stand-ins' verdict and empty days are those of any real queue with as many batches, and an answer of so many days is an arrangement of the real batches that leaves exactly so many empty. |
| StandIns.IdleIsQuiet | src/lib/campaign-planner.ts:187-193 | The days counted as empty are those on which no journey of the plan has a touchpoint. |
| StandIns.VerdictIsArrangement | src/lib/campaign-fit.ts:90-102 | An answer of so many empty days is backed by an arrangement that leaves exactly so many. |
| StandIns.EverySuccessIsKept | src/lib/campaign-fit.ts:49-51 | A fill-every success is found again, with the same dates, under any larger limit. |
| Certain.SparselyIsPlanned | src/lib/campaign-fit.ts:47-49 | An FO the fitter could plan with days left empty under the smaller limit is planned again in the final calendar, whatever the calls and the flag so far. |
| Certain.FullyIsPlanned | src/lib/campaign-fit.ts:373-374 | One planned by filling every day is too, while the flag is down and the calls leave room. |
| Certain.SureIsValid | src/lib/campaign-fit.ts:373-374 | The final calendar of FOs who were all fitted is valid, unless one fitted only by filling every day comes after an FO whose fill-every search outran its limit. |
| Edited.AskQueueIsVerdict | src/lib/campaign-fit.ts:172-191 | Planning an FO's contacts on their own gives the search's verdict on the very queue they came from, cut at that pace: same contacts, same order, same batches. |
| Edited.MixedIsTruthful | src/lib/campaign-fit.ts:182-191 | So the answers fitEdited gets about a queue of several outreaches are that queue's own. |
| Edited.StandInsAreTruthful | src/lib/campaign-fit.ts:183-183 | And those it gets on stand-ins, for a queue on one outreach, are too, save the shortcut that answers nothing about filling every day. |
| Edited.ChosenIsFitted | src/lib/campaign-fit.ts:192-192 | A pace chosen on such answers is one at which the planner planned that queue. |
| BranchBound.Alone | src/lib/campaign-fit.ts:280-291 | Unless the budget cut it, the loop's choice is the least (excess, score) over all outreaches, though it evaluates only some. |
| BranchBound.Star | src/lib/campaign-fit.ts:315-328 | Unless the budget cut it, the shared choice is the least (worst, total, score) over all outreaches. |
| BranchBound.SortedIndexesVisit | src/lib/campaign-fit.ts:284-284 | The sort visits every outreach, by least possible excess and then quality. |
| Fit.PaceMeetsFloor | src/lib/campaign-fit.ts:266-273 | No pace found for an outreach is below its floor, and an outreach without a floor gives none. |
| Fit.TableIsValid | src/lib/campaign-fit.ts:257-278 | The evaluations the fitter makes satisfy the bounds the branch-and-bound loops rely on. |
| Fit.OneStepGreedy | src/lib/campaign-planner.ts:276-294 | With one step a batch, greedy never fails for up to one batch a working day. |
| Fit.OneStepSchedules | src/lib/campaign-planner.ts:260-338 | So the planner always schedules the one-step outreach, whatever the limit. |
| Fit.WeighedChoices | src/lib/campaign-fit.ts:245-255 | The outreaches weighed are exactly the recipes that fit the window and have a start day, each shape once, at its quality and best first; the one-step outreach is always one. |
| Fit.ServeAlone | src/lib/campaign-fit.ts:280-290 | Every FO with contacts, at most 500 a working day, gets an entry in `alone`, budget or not: nobody is left off. Unless the budget cut it, no outreach serves them better. |
| Fit.OneIsFitted | src/lib/campaign-fit.ts:257-265 | What an outreach gives an FO is a pace at which the planner planned as many batches of it. |
| Split.Roomy | src/lib/campaign-fit.ts:292-304 | The roomy outreach keeps the FO within their allowance and, unless cut, has the best score of all that do. |
| Split.WithRoom | src/lib/campaign-fit.ts:329-340 | The shared outreach kept gives everyone a pace within a tenth of the lowest one's and, unless cut, has the best score of all that do. |
| Split.SplitUp | src/lib/campaign-fit.ts:346-360 | An FO gets an outreach of their own exactly when Default would take them past their allowance; nobody ever is. |
| Split.ChooseOutreach | src/lib/campaign-fit.ts:341-361 | The team shares exactly when that gives nobody a worse excess than somebody needs alone; either way every FO is within their allowance on an outreach they were evaluated on. |
| Split.CaseIsValid | src/lib/campaign-fit.ts:257-273 | What the fitter evaluates satisfies what these choices rely on. |
| Split.Weigh | src/lib/campaign-fit.ts:257-273 | The loop over outreaches builds the specified case: quality, floor, and what `choosePace` gives. |
| Trimming.KeepWhatFits | src/lib/campaign-fit.ts:221-234 | A queue is trimmed only when 500 a day is not enough for it; every longer part 500, 1000, ... people away was tried in vain or is crowded even at 500. |
| Trimming.HopelessMeansNoPlan | src/lib/campaign-fit.ts:225-228 | Parts the trim never tries have no arrangement at any pace up to 500. |
| Trimming.TrimAll | src/lib/campaign-fit.ts:220-237 | Each FO keeps a non-empty prefix with a pace found for it, and prefixes and overflow together are the queues. |
| Trimming.CutAll | src/lib/campaign-fit.ts:239-244 | Each FO keeps their first 500 a working day; it ends in null exactly when a longer queue may not be cut. |
| FinalPlan.FinalQueuesAreKept | src/lib/campaign-fit.ts:204-206 | Planned again with pins and fewer FOs, each FO's queue has exactly the people they kept: nobody changes FO. |
| FinalPlan.NobodyIsLost | src/lib/campaign-fit.ts:364-375 | A valid final calendar and the overflow hold every contact exactly once, and each FO's batches exactly those they kept. |
| FinalPlan.NobodyStraysAgain | src/lib/campaign-fit.ts:364-373 | Planned again with the FOs who stay, no contact's owner is missing. |
| FinalPlan.Finish | src/lib/campaign-fit.ts:364-375 | The end of the fit: a plan handed back is valid, keeps everyone once, and each FO exactly the contacts they kept; and one is handed back when every FO was fitted in time. |
| Keeping.FinalQueueIsKept | src/lib/campaign-fit.ts:367-373 | With the outreach unchanged, an FO's final queue is the very sequence of contacts they keep. |
| Keeping.FitKeepingOutreach | src/lib/campaign-fit.ts:198-237 | The edited branch end to end: everyone in the plan or the overflow once, each FO's planned people a prefix of their queue, no overflow without leave to trim; and, answered truthfully, a plan whenever everyone got a pace, unless a search outran its limit before an FO fitted only by filling every day. |
| Reshaping.BuildShape | src/lib/campaign-fit.ts:346-360 | Default first, then one outreach for each FO who has their own, each listed once, and every contact assigned to their FO's. |
| Reshaping.EveryoneFollowsTheirPick | src/lib/campaign-fit.ts:367-372 | In the final draft every kept contact follows the outreach their FO was fitted on. |
| Studio.WeighEveryone | src/lib/campaign-fit.ts:280-291 | The loop behind `alone` weighs every FO who keeps contacts over the same outreaches and finds each an entry. |
| Studio.Decide | src/lib/campaign-fit.ts:245-361 | From the queues kept to an outreach and a pace for everyone: shared or split, each on an outreach they were evaluated on and within what they are allowed; unless the budget cut the loops, nobody is served better alone and the team not better shared. |
| Studio.PickIsFitted | src/lib/campaign-fit.ts:341-361 | Whatever was settled, the planner had planned each FO's contacts at that pace on that outreach. |
| Studio.FitReshaping | src/lib/campaign-fit.ts:238-375 | The reshaped branch end to end: a plan handed back keeps everyone once; no FO with contacts is left off, each with the front of their queue, at the pace and on the outreach settled on; and a plan is handed back unless there is nothing to plan, a longer queue may not be cut, or a search outran its limit before an FO fitted only by filling every day. |
| Locks.LockAccounts | src/lib/account-lock.ts:3-7 | Account locks are taken for exactly the ids that are set, each once, ascending. |
| Locks.OneOrder | src/lib/account-lock.ts:4-4 | There is only one such order. |
| Locks.LockListInOrder | src/lib/campaign-planning-service.ts:264-267 | Every transaction's whole list, accounts, then publication, then campaign, follows one order. |
| Locks.NoDeadlock | src/lib/account-lock.ts:3-7 | For any transactions that take their locks in the order, no chain of waiting returns to where it began. |
| Locks.SomeoneCanGoOn | src/lib/account-lock.ts:3-7 | Following who waits for whom always ends at a transaction that can go on. |
| Publishing.NeverInTwoCampaigns | src/lib/campaign-planning-service.ts:262-295 | In every interleaving of publish, re-plan, add-FO, save-draft, add and remove people, delete, launch, status changes, block and unblock, no person is in two scheduled, active or paused CRM campaigns. |
| Publishing.PlansStayExclusive | src/lib/campaign-audience.ts:34-51 | A plan made on who was found taken under the publication lock shares nobody with another live campaign when it is written. |
| Publishing.WritesShrink | src/lib/campaign-people.ts:81-88 | Transactions that do not plan never bring a campaign alive and never add people to a live one. |
| Publishing.CommitKeepsOthersInformed | src/lib/campaign-planning-service.ts:262-276 | Whatever another transaction commits, what an open one has read of its campaign, of who is taken and of the accounts it locked still holds. |
| Publishing.WritesWhatItRead | src/lib/campaign-people.ts:82-86 | At its commit a transaction's campaign is exactly as it read it under the lock: no lost update, no stale status check. |
| Publishing.AddFoOnlyAdds | src/lib/campaign-add-fo.ts:134-168 | A joining FO keeps the campaign active with everyone in it, adds only people not in it, and changes no other campaign. |
| Publishing.ReplanTakesOut | src/lib/campaign-planning-service.ts:330-343 | After a re-plan commits, kept or withdrawn, the campaign asks for exactly whom it asked for and those added, without those dropped; it holds only some of those, or all when withdrawn, and nobody dropped. |
| Publishing.RemovedAreGone | src/lib/campaign-people.ts:105-112 | After people are removed, the campaign and its request hold exactly whom they held, without those removed. |
| Publishing.AddedAreIn | src/lib/campaign-people.ts:81-88 | After people are added, the campaign and its request hold exactly whom they held and those added; it was no follow-up. |
| Publishing.PublishedIsReviewed | src/lib/campaign-planning-service.ts:258-295 | What is published holds exactly the people reviewed, all of them asked for, and keeps the whole request; the campaign was new or not yet started. |
| Publishing.SavedIsAsked | src/lib/campaign-planning-service.ts:204-232 | A saved draft asks for exactly whom it was given and holds them all; a follow-up holds some of them and waits for approval. |
| Publishing.NobodyEntersUnasked | src/lib/campaign-planning-service.ts:258-343 | Nobody enters a campaign or its request by a commit of a transaction that did not bring them into that campaign. |
| Publishing.TakenOutStaysOut | src/lib/campaign-people.ts:100-112 | Whoever is removed, or dropped by a re-plan, stays out of the campaign and its request through any interleaving in which no transaction brings them back. |
| Publishing.LifeCycle | src/lib/engine/campaigns.ts:14-32 | Only publishing brings a campaign alive, only a launch of a scheduled one starts it, a stopped one never moves, a started one never goes back to draft, and status changes and launches leave its people alone. |
| Publishing.LocksWhomItConcerns | src/lib/campaign-planning-service.ts:321-324 | A transaction on a campaign locks exactly the accounts of those it concerns when it begins: for a re-plan whom the campaign will ask for, for a launch whoever is in it. |
| Publishing.NeverDeadlocked | src/lib/campaign-planning-service.ts:324-326 | In every reachable state of the protocol the waits-for relation has no cycle. |
| Publishing.SomeoneAlwaysGoesOn | src/lib/campaign-planning-service.ts:324-326 | While any transaction is open, one has all its locks or can take its next. |
| Publishing.LockedAreNotBlocked | src/lib/blocked-accounts.ts:40-43 | When a plan is written, nobody in it whose account was locked is at a blocked account; for a joining FO that is everybody. |
| Publishing.UnlockedCanBeBlocked | src/lib/campaign-planning-service.ts:321-324 | Anybody else's account can be blocked first and the plan written all the same. |
| Publishing.BlockedYetPublished | src/lib/campaign-planning-service.ts:258-279 | A run: the account is blocked when publishing begins, so the first plan leaves its person out and does not lock it; unblocked for the reads and blocked again, the person is scheduled at a blocked account. |
| Publishing.WaitingStayApart | src/lib/campaign-audience.ts:34-51 | While all campaigns that hold people, waiting ones included, are apart, a commit of any transaction leaves them apart exactly when whom it leaves waiting is held by no other and whom a plan keeps waits in no other. |
| Publishing.WaitingCanOverlap | src/lib/campaign-planning-service.ts:215-228 | A run: saving a follow-up's draft and publishing another campaign both find a person free, and both commit. |
| Feeds.PageIsFront | src/lib/activity-query.ts:342-348 | One more row than the page from each source, sorted and cut, is the front of the whole merged list, and there is a next page exactly when the list goes on. |
| Feeds.FilterOfMerge | src/lib/activity-query.ts:230-243 | Filtering both sources is filtering the merged list. |
| Feeds.OlderIsRest | src/lib/activity-query.ts:342-347 | Everything older than an item of the list is what comes after it, however many rows share its instant. |
| Activity.ListActivity | src/lib/activity-query.ts:186-214 | The page or the page-after-page loop gives the specified listing. |
| Activity.BeforeWhereIsPast | src/lib/activity-query.ts:170-176 | The per-source cursor conditions are exactly "after the cursor" in the merged order. |
| Activity.TouchAudienceIsSide | src/lib/activity-query.ts:178-184 | The audience condition on touches is exactly the side an item shows. |
| Activity.PushingChangesNothing | src/lib/activity-query.ts:216-243 | Pushing the audience into the queries changes nothing of what is kept. |
| Activity.ListingIsRight | src/lib/activity-query.ts:186-214 | Every listing is the front of what the view still has to show; what its cursor leads to is exactly the rest, also when reading stopped after fifteen pages. |
| Activity.CursorsAdvance | src/lib/activity-query.ts:196-213 | Every cursor handed out strictly advances. |
| Activity.FollowingShowsAll | src/lib/activity-query.ts:186-214 | Following the cursors over logs that do not change shows exactly the matching events of the merged feed, once each and in order. |
| Bell.ListNotifications | src/lib/notifications.ts:222-248 | A page is the first 25 rows of everything past the cursor in both tables, newest first, with a cursor, the last row shown, exactly when more rows wait. |
| Bell.TiesKeepOrder | src/lib/notifications.ts:115-115 | Comparing by instant and id alone, the stable sort puts the reply before the notice on a tie and nothing else moves. |
| Bell.BellShowsAll | src/lib/notifications.ts:110-115 | Following the bell shows every row once and in order exactly when no page ends between two rows of the same instant and id; distinct ids suffice. |
| Bell.BellCanLoseARow | src/lib/notifications.ts:113-115 | Twenty-five replies and a notice made with the last one's instant and id: the notice is never shown. |
| Cursors.CursorsComeBack | src/lib/activity-query.ts:88-94 | A cursor, of either feed, reads back as written exactly when its id is not empty and has no separator in it. |
| Csv.DetectDelimiter | src/lib/enrichment.ts:66-75 | The counting loop finds the commonest delimiter outside quotes in the first line. |
| Csv.ReadRecords | src/lib/enrichment.ts:76-93 | The quoted-cell loop gives the records or error that `UnquotedIsKept`, `MixedRoundTrip` and `OddQuotesAreRefused` are about. |
| Csv.ParseEnrichmentUpload | src/lib/enrichment.ts:49-102 | The whole reader gives the table or the first error in order that `MixedRoundTrip` and `ReadTablesAreWritable` are about. |
| Csv.DelimiterIsFound | src/lib/enrichment.ts:66-75 | Whichever cells are quoted, the delimiter of a written file is found, whatever the cells hold. |
| Csv.UnquotedIsKept | src/lib/enrichment.ts:85-89 | Outside quotes everything up to the next quote, delimiter or line end goes into the cell, carriage returns apart. |
| Csv.MixedRoundTrip | src/lib/enrichment.ts:49-102 | Any table within the limits, each cell quoted or left bare at will where it holds nothing special, with comma, semicolon or tab and either line end, reads back as that table, unless the file is too large, begins as JSON does, or ends in a tab, when it is refused as ragged. |
| Csv.TabCanBeRefused | src/lib/enrichment.ts:51-95 | Two columns separated by a tab, and one record whose second value is empty: refused. |
| Csv.OddQuotesAreRefused | src/lib/enrichment.ts:82-91 | An unclosed quote is reported only when the quotes are odd in number, and records come only from an even number. |
| Csv.RoundTrip | src/lib/enrichment.ts:49-102 | In particular any table within the limits, written with every cell quoted as in section 2 of RFC 4180, with comma, semicolon or tab and either line end, reads back unchanged. |
| Csv.ReadTablesAreWritable | src/lib/enrichment.ts:86-100 | Every table read, from any text, is rectangular, trimmed, within the limits, with distinct columns and no empty row. |
| Csv.ReadsTheSameAgain | src/lib/enrichment.ts:49-102 | So a table read from any text, written out and read again, is the same. |
| Snapshots.PersonCache.UpsertPersonCache | src/lib/person-cache.ts:93-99 | An upsert is the two statements, seen then written if its order allows, on that record alone. |
| Snapshots.PersonCache.MarkPersonDeleted | src/lib/person-cache.ts:204-206 | Only an existing row that is not newer is marked, and the count says whether one was. |
| Snapshots.OrderIsVersion | src/lib/person-cache.ts:127-135 | The two-clock condition accepts exactly the versions not behind the row's. |
| Snapshots.VersionNeverFalls | src/lib/person-cache.ts:93-103 | No statement ever lowers a row's version. |
| Snapshots.DeletionStands | src/lib/person-cache.ts:127-135 | An accepted deletion, and the row with it, stands through anything older. |
| Snapshots.AcceptedDeletion | src/lib/person-cache.ts:204-206 | A deletion is accepted exactly when it is not behind the row and then decides its version; one that arrives before the record is first seen leaves nothing. |
| Snapshots.Converges | src/lib/person-cache.ts:93-103 | However the statements of any number of upserts interleave, with repeats, the row ends as the newest snapshot when versions differ. |
| Snapshots.TiesFollowOrder | src/lib/person-cache.ts:127-135 | With equal versions the last one written wins. |
| Snapshots.RawConverges | src/lib/person-cache.ts:86-98 | The raw copy ends the same in every order exactly when the newest snapshot carries one or none does. |

## Left out

- Fit.ServeAlone: covers each FO on their own; the recursion for unserved FOs is not modelled, because this shows it is not taken when queues are within 500 a working day.
- StandIns.FitWindow.CanSchedule: does not say how often the two-failure shortcut fires; results that use a schedule take its answers as they come.
- Trimming.KeepWhatFits: takes the planner's answers through `schedules`, one per queue length, rather than through the cache of the window.
- Studio.FitReshaping: evaluates every outreach before the loops that may skip some; each evaluation is kept by the program too, so only how many searches run, which is `spent`, differs. Whether a plan is still found when an FO fitted only by filling every day comes after one whose search outran 20000 calls is left open, as it is in `Keeping.FitKeepingOutreach`.
- Csv.ParseEnrichmentUpload: a JSON file is only recognised; `normalizedHeader` is any function; rows are lists in header order.
- Activity.ListActivity: what the search text matches and which rows a viewer may see are any conditions on a row; ids are numbers, so the database and the program are taken to order them alike.
- Publishing.NeverInTwoCampaigns: is about CRM campaigns that go through the transactions named; restarting a campaign, creating a follow-up, approving an older one, legacy enrolment and completion are not modelled, nor are the cold rules. The library function that adds an FO does not check that the campaign is a CRM one; its page does.
- Publishing.BlockedYetPublished: the people a publication checked and those reviewed are any sets in the theorems; this run ties the first to the state it begins in.
- Locks.LockListInOrder: keys are names, so two names with the same hash, which could order two locks differently, are not modelled.
- Deletion, launch and status changes: their own permission and content checks are left to the transaction failing at any point; what they write to the campaign is modelled.
- The journey and option caches and the label, collation and priority-group helpers: pure and keyed by everything they depend on.
- The suggestion wording, dates in words and month grids of the planner: presentation.
- The order of `localeCompare`: any order of names will do.
- Floating point: paces, excess and scores are naturals and reals.
- `opt out if suppressed`, pods created from CRM options and company rows: side effects of an upsert on other tables; company rows follow the same order rule.
- Prisma, the CRM, mail, telephony, pages and middleware: outside the model.
