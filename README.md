# Gamified portfolio: verified model of its logic

The portfolio is a single-page application styled as a video game. A title
screen ("PRESS START") opens a world map. From the map, five zones lead to a
character profile, a quest board of projects, an experience page, a trophy hall
of certifications and a contact "portal gate". Nearly all of it is markup over
hard-coded arrays. This project models the parts that compute or change state,
one Dafny module per source file:

- `ProjectData` (`src/data/projects.ts`): the ten shipped projects and `getProjectStats`. The function is generalised to `StatsOf` over any catalogue, and its values on the shipped catalogue are proved.
- `QuestBoard` (`src/pages/Projects.tsx`): the difficulty and status filter, the two selection slots as a class, and the rendered view (statistics, kept quests, "No Quests Found").
- `ContactApi` (`api/contact.ts`): the serverless handler as a function from request to response (405, 400, 200 or 500).
- `ContactForm` (`src/pages/Contact.tsx`): the form page as a class. It has the form record, `isSubmitting` and the toasts shown. Submitting is split at the network call: `Submit` sends the request and `Settle` handles its outcome.
- `Home` (`src/pages/Home.tsx`): the title screen as a class. The async press-start handler is modelled by the point where it is suspended. The soundtrack, the timer and the clock arrive as events. Effects are logged with their times.
- `AppRoutes` (`src/App.tsx`): the seven registered paths.
- `WorldMap` (`src/pages/WorldMap.tsx`): the five zones and what a click does.
- `Achievements` (`src/pages/Achievements.tsx`): the seven certifications, rarity counts and the n/20 progress.
- `Profile` (`src/pages/Profile.tsx`): the fifteen skills in four `slice` groups, and the four headline stats.
- `Decimal`: how a count is rendered as text for the profile stats.
- `Wrappers`: an `Option` type for JSON properties that may be absent.

Abstractions. The network call is reduced to a `FetchOutcome`: a reply with
its `ok` flag and its `success` property, or an exception. An exception in the
handler's try block is a boolean `tryThrows`. The browser's e-mail format check
is a boolean `emailFormatOk`. Time is a natural-number clock that moves
forward through `Elapse`. Whether the soundtrack played is a boolean passed to
`SoundtrackSettled`.

In the entry sequence and on the world map, the model does what the code does:
- `isLoading` is never reset after navigation. The overlay goes away only because the page is left.
- The 2000 ms wait starts only after the soundtrack promise settles. It does not start at the press.
- No timer is cancelled when the page goes away.
- There is no zone lookup by id, so no "unknown zone" error. A zone card passes its own route.

## Model

| member | source | states |
|---|---|---|
| ProjectData.CountStatus | src/data/projects.ts:107-109 | the count of projects with one status never exceeds the number of projects |
| ProjectData.StatsOf | src/data/projects.ts:106-123 | total is the catalogue length; completed + inProgress + available equals total; the distinct-technology count is at most the sum of the list lengths and at least the distinct technologies of any single project |
| ProjectData.StatusCountsPartition | src/data/projects.ts:107-110 | the three status counts add up to the number of projects, because status has three values |
| ProjectData.CountStatusAll | src/data/projects.ts:107-109 | a status count equals the total exactly when every project has that status |
| ProjectData.CountStatusNone | src/data/projects.ts:107-109 | a status count is zero exactly when no project has that status |
| ProjectData.DistinctAtMostLength | src/data/projects.ts:113-114 | a Set built from a list has at most as many members as the list has entries |
| ProjectData.TechnologiesIncluded | src/data/projects.ts:113-114 | every technology of a catalogue project is in the flattened list |
| ProjectData.SingleProjectBound | src/data/projects.ts:113-121 | technologiesCount is at least the number of distinct technologies of each project |
| ProjectData.DistinctListCardinality | src/data/projects.ts:114 | a list without repeats gives a Set of the same size |
| ProjectData.TechnologiesDrawnFrom | src/data/projects.ts:113 | if every project's technologies come from a set, so does the flattened list |
| ProjectData.ShippedStatusCounts | src/data/projects.ts:12-103 | the shipped catalogue has 10 completed projects, none in progress and none available |
| ProjectData.ShippedTechnologiesDistinct | src/data/projects.ts:12-103 | the eighteen technology names used are pairwise distinct |
| ProjectData.ShippedTechnologiesCovered | src/data/projects.ts:12-103 | every technology in the catalogue is one of the eighteen |
| ProjectData.ShippedTechnologiesUsed | src/data/projects.ts:12-103 | each of the eighteen appears in some project |
| ProjectData.ShippedTechnologySet | src/data/projects.ts:113-114 | the Set of all shipped technologies is exactly those eighteen |
| ProjectData.GetProjectStats | src/data/projects.ts:106-123 | on the shipped catalogue the total is 10 and the three status counts add up to it |
| ProjectData.ShippedStats | src/data/projects.ts:106-123 | getProjectStats() is completed 10, inProgress 0, available 0, total 10, technologiesCount 18 |
| QuestBoard.Matches | src/pages/Projects.tsx:23-26 | a project passes exactly when each selection is All or equals the project's difficulty or status; All/All passes every project |
| QuestBoard.FilterProjects | src/pages/Projects.tsx:22-27 | the result is an order-preserving subsequence of the catalogue; it holds exactly the projects whose difficulty and status both match (with All a wildcard); its length is the number of matches and at most the catalogue length |
| QuestBoard.Render | src/pages/Projects.tsx:20-172 | the grid shows the filtered list, and "No Quests Found" shows exactly when no project matches the selections |
| QuestBoard.QuestBoardPage.constructor | src/pages/Projects.tsx:17-18 | both selections start as All |
| QuestBoard.QuestBoardPage.ClickDifficulty | src/pages/Projects.tsx:82 | a difficulty badge replaces the difficulty selection and leaves the status selection alone, so the page then renders the new difficulty with the old status |
| QuestBoard.QuestBoardPage.ClickStatus | src/pages/Projects.tsx:99 | a status badge replaces the status selection and leaves the difficulty selection alone, so the page then renders the old difficulty with the new status |
| QuestBoard.AllAllKeepsEverything | src/pages/Projects.tsx:22-27 | with both selections All the filter returns the catalogue unchanged, in order |
| QuestBoard.SubsequenceNoLonger | src/pages/Projects.tsx:22 | a kept subsequence is never longer than its source |
| QuestBoard.NothingKeptIff | src/pages/Projects.tsx:162 | the filtered list is empty exactly when no project matches |
| QuestBoard.KeepsSingleMatch | src/pages/Projects.tsx:22-27 | when exactly one project matches, the filter returns exactly it |
| QuestBoard.DifficultyOptionsComplete | src/pages/Projects.tsx:11 | the difficulty badges are All followed by each member of the difficulty union exactly once |
| QuestBoard.StatusOptionsComplete | src/pages/Projects.tsx:12 | the status badges are All followed by each member of the status union exactly once |
| QuestBoard.StatsIgnoreFilters | src/pages/Projects.tsx:117-139 | the counts panel is getProjectStats() over the whole catalogue for every pair of selections |
| QuestBoard.ShippedUnfinishedShowNothing | src/pages/Projects.tsx:162-172 | on the shipped data, selecting In Progress or Available shows "No Quests Found" |
| QuestBoard.ShippedLegendary | src/pages/Projects.tsx:22-27 | on the shipped data, the Legendary badge keeps only the NLP chatbot |
| ContactApi.Handle | api/contact.ts:7-41 | 405 exactly for a non-POST request; 400 exactly for a POST with a missing or empty field; 200 exactly for a complete POST whose try block completes, 500 when it throws; success is present only on 200 and 500 and is true only on 200 |
| ContactApi.OneOfFourResponses | api/contact.ts:7-41 | every request gets exactly one of the four responses, with its fixed message |
| ContactApi.MethodCheckedFirst | api/contact.ts:7-16 | a non-POST request gets 405 whatever its body, so missing fields never turn it into 400 |
| ContactApi.NoEmailFormatCheck | api/contact.ts:14 | any two non-empty e-mail values get the same response, because only presence is checked |
| ContactApi.CompleteSubmissionAccepted | api/contact.ts:14-34 | a POST with four non-empty fields, when the try block does not throw, gets 200 "Message sent successfully" with success true |
| ContactForm.FormData.With | src/pages/Contact.tsx:59-64 | the named field takes the new value and the other three keep theirs |
| ContactForm.RequestOf | src/pages/Contact.tsx:28-34 | the form is sent as a POST, and the handler sees all fields present exactly when all four are non-empty |
| ContactForm.ContactPage.constructor | src/pages/Contact.tsx:15-21 | all four fields start empty, isSubmitting starts false, no request is pending, and the page invariant holds |
| ContactForm.ContactPage.HandleInputChange | src/pages/Contact.tsx:59-64 | only the named field changes; isSubmitting, the pending request and the toasts are untouched, and the page invariant is kept |
| ContactForm.ContactPage.Submit | src/pages/Contact.tsx:23-34 | a request goes out exactly when the button is not disabled and the browser's required and e-mail checks pass; the request carries the current form, becomes the pending request, and isSubmitting becomes true; otherwise nothing changes |
| ContactForm.ContactPage.Settle | src/pages/Contact.tsx:36-56 | for the pending request: on ok and success true the form is cleared and the success toast shown; on any other reply or an exception the form is kept and the destructive toast shown; afterwards isSubmitting is false and nothing is pending |
| ContactForm.Succeeded | src/pages/Contact.tsx:38 | only an ok reply whose success is true counts; an exception, a non-ok status, or an absent or false success is a failure |
| ContactForm.ContactPage.SubmitDisabled | src/pages/Contact.tsx:190 | under the page invariant, the submit button is disabled exactly while a sent request is waiting for its outcome |
| ContactForm.SuccessIffHandlerAccepted | src/pages/Contact.tsx:38 | the page counts a reply from the handler as a success exactly when the handler answered 200 |
| ContactForm.FormRequestsPassValidation | src/pages/Contact.tsx:119-182 | a request the browser lets through never gets 400 or 405, and it succeeds exactly when the handler's try block does not throw |
| ContactForm.RejectionsTakeFailurePath | src/pages/Contact.tsx:38-53 | the handler's 400 and 405 replies always take the page's failure path |
| Home.StepsDone | src/pages/Home.tsx:14-28 | the whole press-start script has been performed exactly when the handler has finished |
| Home.Navigations | src/pages/Home.tsx:27 | a list of effects holds no more navigations than entries |
| Home.HomeScreen.constructor | src/pages/Home.tsx:12 | isLoading starts false, nothing has happened yet, and the object invariant holds |
| Home.HomeScreen.OverlayVisible | src/pages/Home.tsx:33 | the loading overlay is shown exactly once a press has begun the script (the log is non-empty, starting with the chest cue) |
| Home.HomeScreen.StartDisabled | src/pages/Home.tsx:114 | the PRESS START button is disabled exactly while a press handler is pending or has finished |
| Home.HomeScreen.PressStart | src/pages/Home.tsx:14-19 | while loading, a press changes nothing; otherwise the chest cue, isLoading := true and the soundtrack start happen in that order and the handler waits on the soundtrack |
| Home.HomeScreen.SoundtrackSettled | src/pages/Home.tsx:19-22 | whether or not the soundtrack played, the 2000 ms timer starts when its promise settles |
| Home.HomeScreen.TimerFired | src/pages/Home.tsx:22-27 | when the timer is due, navigation to /world-map is logged, at least 2000 ms after the press, and isLoading stays true |
| Home.NavigatesOnceAtEnd | src/pages/Home.tsx:14-28 | navigation is the last step of the script and happens exactly once in a complete run, never in an incomplete one |
| Home.NavigationsSnoc | src/pages/Home.tsx:27 | appending an effect adds one navigation exactly when the effect is a navigation |
| Home.DestinationRegistered | src/pages/Home.tsx:27 | /world-map is a registered route |
| AppRoutes.RoutesDistinct | src/App.tsx:23-29 | seven distinct paths are registered |
| WorldMap.OnZoneClick | src/pages/WorldMap.tsx:151 | clicking a zone makes exactly one navigate call, to the zone's own route, which is registered for every zone of the map |
| WorldMap.OnHomeClick | src/pages/WorldMap.tsx:114 | the Home button makes exactly one navigate call, to "/", a registered route |
| WorldMap.ZoneTableWellFormed | src/pages/WorldMap.tsx:26-72 | there are five zones, their ids are distinct, and each route is "/" followed by the id |
| WorldMap.MapTargetsRegistered | src/pages/WorldMap.tsx:114-151 | every zone's route is registered, and so is "/", the Home button's target, so the map never navigates to an unknown path |
| Achievements.CountRarity | src/pages/Achievements.tsx:60-65 | the count of one rarity never exceeds the number of achievements |
| Achievements.RarityStatsOf | src/pages/Achievements.tsx:60-65 | the four rarity counts add up to the number of achievements |
| Achievements.RarityCountsPartition | src/pages/Achievements.tsx:60-65 | each achievement is counted under exactly one of the four rarities |
| Achievements.CountRarityAll | src/pages/Achievements.tsx:60-65 | a rarity count equals the total exactly when every achievement has that rarity |
| Achievements.ShippedRarityStats | src/pages/Achievements.tsx:8-65 | on the shipped data, rare is 7 and common, epic and legendary are 0 |
| Achievements.ProgressWithinDenominator | src/pages/Achievements.tsx:146-154 | the 7 unlocked achievements do not exceed the denominator 20, so the progress ratio lies in [0, 1] |
| Achievements.TitlesDistinct | src/pages/Achievements.tsx:172 | the titles used as list keys are distinct |
| Profile.Slice | src/pages/Profile.tsx:191 | slice with in-range bounds is the subrange; an end past the length is clamped, giving the suffix from start; the result is empty when the bounds cross or start past the end |
| Profile.SkillGroups | src/pages/Profile.tsx:191-242 | there are four groups, they concatenate back to the skill list, and each of the first three holds at most four skills |
| Profile.GroupsConcatenate | src/pages/Profile.tsx:191-242 | for a list of any length, slice(0,4), slice(4,8), slice(8,12) and slice(12) concatenate back to the list, so each skill is shown exactly once |
| Profile.GroupSizes | src/pages/Profile.tsx:191-242 | with at least twelve skills the groups hold 4, 4, 4 and the rest |
| Profile.ShippedGroupSizes | src/pages/Profile.tsx:11-34 | the fifteen shipped skills are shown as 4, 4, 4 and 3 |
| Profile.ShippedSkillsWellFormed | src/pages/Profile.tsx:13-33 | every skill has maxValue 100, 0 <= value <= maxValue and level equal to value |
| Profile.SkillLabelsDistinct | src/pages/Profile.tsx:193 | the labels used as list keys are distinct |
| Profile.StatsPanel | src/pages/Profile.tsx:40-45 | four stats in fixed order; "Projects Completed" reads back as the completed count; "Technologies Mastered" is the technology count followed by "+"; neither count is written with a leading zero |
| Profile.TenAndEighteenRendered | src/pages/Profile.tsx:41-43 | 10 and 18 are rendered "10" and "18" |
| Profile.ShippedPanel | src/pages/Profile.tsx:40-45 | for completed 10 and 18 technologies the panel reads "10" and "18+" |
| Profile.ShownStats | src/pages/Profile.tsx:38-45 | on the shipped data the page shows "10" projects completed and "18+" technologies mastered, among four stats |
| Decimal.NatToString | src/pages/Profile.tsx:41 | a count is rendered as one or more decimal digits without a leading zero |
| Decimal.ParseRendered | src/pages/Profile.tsx:41-43 | reading the rendered digits back gives the original count |
| Decimal.RenderingInjective | src/pages/Profile.tsx:41-43 | different counts are rendered as different strings |

## Left out

- Layout, Tailwind class strings and framer-motion animation parameters are presentation only. This includes the zone colour-to-class table in `src/pages/WorldMap.tsx`. The colour union is a datatype, so any lookup keyed on it is total.
- Project descriptions, rewards and links, and zone icons and positions, are display-only fields. They are not modelled.
- `src/hooks/use-audio.ts` internals (Web Audio oscillators, gain ramps, floating point) are not modelled. The soundtrack is only "started", then "settled" with a played or failed flag. The chest cue is assumed to return. An exception from creating the audio context would end the handler before `isLoading` is set, and this is not modelled.
- Real timers, `fetch`, JSON parsing, toast rendering, console logging and React Router internals are not modelled. They are reduced to the events and outcomes described above.
- React batches state updates and applies them on re-render. The model applies each update at once. A second click landing before the re-render that disables a button is not modelled.
- ContactApi.Handle: request bodies that are not a JSON object, and field values that are not strings, are not modelled. Fields are `Option<string>`, with truthiness meaning present and non-empty.
- The browser's e-mail syntax check is not modelled. It is the `emailFormatOk` input.
- `src/components/gaming/StatBar.tsx` percentage and the achievements progress-bar width are floating-point display values. Only the integer bounds behind them are stated.
- `QuestCard`, `AchievementBadge` style tables, `LoadingScreen` and `src/pages/Experience.tsx` are purely presentational.
- The random background particles of the title screen are decoration.
- The provider wiring of `src/App.tsx` is not modelled. Its route list is kept as a constant.
- Unmounting a page is not modelled: the code binds nothing to it.
