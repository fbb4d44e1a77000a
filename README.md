# LearnFlow learning-progress core, modelled in Dafny

LearnFlow is a React learning platform. Learners enrol in developer paths and topics,
watch YouTube videos and take timed assessments that unlock further videos. This project
models the logic beneath the user interface and proves what it promises:

- **Unlock engine and path page** (`developer_path_learning.dfy`). The sorted video list
  and the unlocked set, which is the union of three sources. The gating test of a video,
  the action each video card offers, and the page's bookmark, enrolment and test reports.
- **Catalogues** (`assessment_tests.dfy`, `developer_paths.dfy`, `video_data.dfy`). The
  shipped tests, paths and topics as constants, the score formula, the lookups with their
  fallbacks, and lemmas about the shipped data.
- **Progress store** (`video_progress.dfy`). `VideoProgressManager` as a class over a map
  from video id to watch record, with the caller's clock as a parameter, and `formatTime`.
- **Assessment session** (`assessment_session.dfy`). A class holding the answer sheet, the
  question index, the countdown, the started and completed flags and the reported attempt.
  The countdown's `formatTime` of `AssessmentComponent.tsx:72-76` is given a whole number
  of seconds, and on whole numbers it gives the same text as `VideoProgress.FormatTime`,
  so it is not modelled a second time.
- **Video player** (`video_player.dfy`). Duration parsing, building the embed URL from a
  watch or short link, and a player session with the simulated one-second tick, the resume
  prompt, start-over and close.
- **Dashboard** (`dashboard.dfy`). The dictionaries mapping paths and topics to lists,
  their appending handlers, and the routing of `currentView`.
- **Topic page, search, grids, wizard, cards, profile and theme.** `topic_learning.dfy`,
  `advanced_search.dfy`, `search_bar.dfy`, `learning_paths_grid.dfy`, `resources_grid.dfy`,
  `personalization.dfy`, `card_chips.dfy`, `learning_path_card.dfy`, `resource_card.dfy`,
  `user_profile.dfy` and `theme_provider.dfy`.

Components whose handlers update state are classes:
- their fields are the component's `useState` variables;
- `State()` gathers the fields into one value;
- every handler states its whole new state relative to `old(State())`.

Optional parent callbacks (`onX?.(...)`) are recorded as a list of the calls actually made.
A flag says whether the parent passed the callback. Effects and timers are explicit method
calls.

Shared modules model the JavaScript runtime pieces the code relies on:
- `wrappers.dfy`: `Option`, for `null`, `undefined` and NaN;
- `seqs.dfy`: `filter`, `find`, `slice` and order-keeping add and remove;
- `text.dfy`: ASCII `toLowerCase`, `includes`, `indexOf`, `split`, `parseInt`,
  `toString`, `padStart` and `Math.round`;
- `sorting.dfy`: the stable `Array.prototype.sort` by an integer key;
- `learn_types.dfy`: the records of `src/types/index.ts`.

## Model

| member | source | states |
|---|---|---|
| Text.Split | src/components/VideoPlayer/VideoPlayer.tsx:72 | `split` with a non-empty separator yields at least one piece |
| Text.JoinSplit | src/components/VideoPlayer/VideoPlayer.tsx:72 | joining the pieces of a split with the same separator gives back the string |
| Text.NatToString | src/components/Resources/ResourceCard.tsx:97 | decimal digits, at least one, without a leading zero, a single digit iff below 10 |
| Text.ParseIntNatToString | src/components/VideoPlayer/VideoPlayer.tsx:74 | `parseInt` reads back every number's decimal text |
| Text.RoundHalfUp | src/components/Profile/UserProfile.tsx:124 | `Math.round`: the integer k with k - 0.5 <= x < k + 0.5, so halves round up |
| Sorting.SortBy | src/components/Search/AdvancedSearch.tsx:157 | the sorted copy is ordered by the key and a permutation of the input |
| Sorting.SortByStable | src/components/Learning/DeveloperPathLearning.tsx:81 | elements with equal keys keep their relative order, as `Array.prototype.sort` guarantees |
| Seqs.Toggle | src/components/Personalization/PersonalizationEngine.tsx:72-74 | the item is present iff it was absent, every other item keeps its membership, and a new item goes at the end |
| Seqs.ToggleTwice | src/components/Personalization/PersonalizationEngine.tsx:72-74 | toggling twice restores the membership of every item, and restores the list itself when the item was absent |
| VideoProgress.GetProgress | src/utils/videoProgress.ts:24-27 | a record is returned exactly when one is stored under the id, and it is the stored one; otherwise null |
| VideoProgress.CompletionPercentage | src/utils/videoProgress.ts:75-79 | never above 100; 0 without a record or with duration 0; not negative for a positive duration and a non-negative time; exactly 100 once the watched share reaches the whole duration, and below that exactly 100·t/d |
| VideoProgress.NinetyPercentIsCrossMultiplied | src/utils/videoProgress.ts:82-86 | for a positive duration the "at least 90%" test of `isVideoCompleted` holds exactly when 10·t ≥ 9·d |
| VideoProgress.IsVideoCompleted | src/utils/videoProgress.ts:82-86 | false without a record; true for a record flagged completed; for a positive duration true iff flagged or 10·t ≥ 9·d; for duration 0 true iff flagged |
| VideoProgress.FormatTime | src/utils/videoProgress.ts:89-93 | the text always holds the colon that separates minutes from seconds |
| VideoProgress.FormatTimeExample | src/utils/videoProgress.ts:89-93 | 65 seconds read "1:05" (minutes, colon, seconds padded to two digits) |
| VideoProgress.Saved | src/utils/videoProgress.ts:30-44 | the record under the id is exactly {id, time, duration, now, completed}; every other key is present iff it was before, with the same record |
| VideoProgress.MarkedCompleted | src/utils/videoProgress.ts:47-61 | the record under the id has time = duration and completed = true, so the video counts as completed; every other key is unchanged |
| VideoProgress.Removed | src/utils/videoProgress.ts:64-72 | the id is gone, every other key is unchanged, and removing an absent id changes nothing |
| VideoProgress.Swept | src/utils/videoProgress.ts:96-111 | a key survives iff its record was watched less than thirty days (2,592,000,000 ms) before `now`, and survivors keep their record |
| VideoProgress.SweptIdempotent | src/utils/videoProgress.ts:96-111 | a second sweep at the same time removes nothing more |
| VideoProgress.SweptLaterKeepsLess | src/utils/videoProgress.ts:96-111 | a later sweep keeps a subset of the keys of an earlier one, and sweeping early then late equals sweeping late |
| VideoProgress.SaveAfterCompletedClearsFlag | src/utils/videoProgress.ts:30-61 | a plain save after `markCompleted` clears the completed flag (it defaults to false), and the video then counts as completed only when 10·t ≥ 9·d |
| VideoProgress.ProgressStore.constructor | src/utils/videoProgress.ts:13-21 | a store with nothing saved holds no records |
| VideoProgress.ProgressStore.SaveProgress | src/utils/videoProgress.ts:30-44 | the new map is `Saved` of the old one, with `completed` defaulting to false |
| VideoProgress.ProgressStore.MarkCompleted | src/utils/videoProgress.ts:47-61 | the new map is `MarkedCompleted` of the old one |
| VideoProgress.ProgressStore.RemoveProgress | src/utils/videoProgress.ts:64-72 | the new map is `Removed` of the old one |
| VideoProgress.ProgressStore.CleanupOldProgress | src/utils/videoProgress.ts:96-111 | the loop that deletes stale keys one at a time ends with exactly `Swept` of the old map |
| VideoData.TopicById | src/data/videoData.ts:25-321 | undefined iff no topic is stored under the key; otherwise the topic stored under it |
| VideoData.DifficultyColor | src/data/videoData.ts:323-334 | green, orange and red exactly for beginner, intermediate and advanced, and "#757575" exactly for any other level |
| VideoData.DifficultyOrder | src/data/videoData.ts:336-346 | the rank lies in 1..4 and is 1, 2, 3 exactly for beginner, intermediate, advanced, and 4 exactly for any other level, so the known levels sort before unknown ones |
| VideoData.ShippedTopicsListedByDifficulty | src/data/videoData.ts:25-321 | every shipped topic lists its videos in non-decreasing level, so the level sort leaves each topic's list as it is |
| VideoData.TopicListed | src/data/videoData.ts:25-321 | the i-th shipped topic lists its videos in non-decreasing level |
| VideoData.JavascriptListed | src/data/videoData.ts:26-98 | the JavaScript topic's videos never go down in level |
| VideoData.TypescriptListed | src/data/videoData.ts:99-145 | the TypeScript topic's videos never go down in level |
| VideoData.HtmlListed | src/data/videoData.ts:146-179 | the HTML topic's videos never go down in level |
| VideoData.CssListed | src/data/videoData.ts:180-226 | the CSS topic's videos never go down in level |
| VideoData.ReactListed | src/data/videoData.ts:227-273 | the React topic's videos never go down in level |
| VideoData.NodejsListed | src/data/videoData.ts:274-321 | the Node.js topic's videos never go down in level |
| DeveloperPaths.PathById | src/data/developerPaths.ts:31-579 | undefined iff no catalogue key is the id; otherwise the path stored under that key |
| DeveloperPaths.TableKeysDistinct | src/data/developerPaths.ts:31-579 | no key appears twice in the catalogue, so a lookup is unambiguous |
| DeveloperPaths.GetPathIcon | src/data/developerPaths.ts:581-583 | the path's own icon for a known id with a non-empty icon, the laptop emoji for an unknown id, and never empty |
| DeveloperPaths.GetPathColor | src/data/developerPaths.ts:585-586 | the path's own colour for a known id with a non-empty colour, "#1976d2" for an unknown id, and never empty |
| DeveloperPaths.KeysAreIds | src/data/developerPaths.ts:32-33 | each catalogue key equals the id field of the path stored under it |
| DeveloperPaths.ShippedPathsOrdered | src/data/developerPaths.ts:31-579 | every shipped path is non-empty and numbers its videos 1..n in list order, so sorting by `order` leaves each list as it is |
| DeveloperPaths.PathOrdered | src/data/developerPaths.ts:31-579 | the i-th shipped path is non-empty and numbers its videos 1..n in list order |
| DeveloperPaths.FrontendDeveloperOrdered | src/data/developerPaths.ts:32-175 | the frontend path's videos carry order 1..n in list order |
| DeveloperPaths.BackendDeveloperOrdered | src/data/developerPaths.ts:176-289 | the backend path's videos carry order 1..n in list order |
| DeveloperPaths.FullstackDeveloperOrdered | src/data/developerPaths.ts:290-358 | the full-stack path's videos carry order 1..n in list order |
| DeveloperPaths.UiDeveloperOrdered | src/data/developerPaths.ts:359-426 | the UI path's videos carry order 1..n in list order |
| DeveloperPaths.JavascriptDeveloperOrdered | src/data/developerPaths.ts:427-509 | the JavaScript path's videos carry order 1..n in list order |
| DeveloperPaths.DevopsEngineerOrdered | src/data/developerPaths.ts:510-578 | the DevOps path's videos carry order 1..n in list order |
| DeveloperPaths.FrontendIcon | src/data/developerPaths.ts:36 | the frontend path's icon is its own palette emoji |
| DeveloperPaths.DevopsColor | src/data/developerPaths.ts:515 | the DevOps path's colour is "#2196f3" |
| DeveloperPaths.UnknownPathDefaults | src/data/developerPaths.ts:581-586 | an id not in the catalogue gets the default icon and the default colour |
| AssessmentTests.CorrectAnswers | src/components/Assessment/AssessmentComponent.tsx:101 | one entry per question, in order, each the question's correct option |
| AssessmentTests.GetTestsForPath | src/data/assessmentTests.ts:341-343 | the path's own list for a catalogue key, and the empty list for a path without an entry |
| AssessmentTests.TableKeysDistinct | src/data/assessmentTests.ts:332-339 | no path id appears twice in the table, so a path's list is unambiguous |
| AssessmentTests.TestById | src/data/assessmentTests.ts:345-351 | a found test has the id and lies in the table; nothing is found iff no test in the table has the id; the first match in table order wins |
| AssessmentTests.GetTestById | src/data/assessmentTests.ts:345-351 | the for-of loop with its early return finds exactly `TestById` |
| AssessmentTests.UnlockedVideosByTest | src/data/assessmentTests.ts:360-363 | nothing for a failed test or an unknown id; otherwise the found test's `prerequisiteFor` |
| AssessmentTests.CountCorrect | src/data/assessmentTests.ts:354-356 | at most the length of either list; every answer counts iff the answers are no longer than the key and agree with it everywhere; 0 iff no position agrees |
| AssessmentTests.CalculateScore | src/data/assessmentTests.ts:353-358 | the score lies in 0..100 and is within half a point of 100·correct/n (2n·r − n ≤ 200·c < 2n·r + n); n > 0 is required because the source divides unguarded |
| AssessmentTests.RoundedPercentage | src/data/assessmentTests.ts:357 | for 0 < n and c ≤ n the integer quotient (200c + n) div 2n lies in 0..100 and brackets the percentage to half a point |
| AssessmentTests.CalculateScoreIsRound | src/data/assessmentTests.ts:357 | the integer form equals `Math.round` (halves up) of the real percentage 100·c/n |
| AssessmentTests.PerfectScore | src/data/assessmentTests.ts:353-358 | answers equal to the key score 100 |
| AssessmentTests.UnansweredScoresZero | src/data/assessmentTests.ts:353-358 | all answers −1 score 0 when every correct option is an index |
| AssessmentTests.FourOfFive | src/data/assessmentTests.ts:353-358 | [0,1,2,−1,0] against [0,1,2,3,0] scores 80 |
| AssessmentTests.ShippedTestsWellFormed | src/data/assessmentTests.ts:31-329 | every test in the table needs 85%, has questions, and each correct option is one of its question's options |
| AssessmentTests.HtmlCssShape | src/data/assessmentTests.ts:32-105 | the HTML & CSS test needs 85%, has questions, and each correct option is an option index |
| AssessmentTests.JavascriptShape | src/data/assessmentTests.ts:106-176 | the JavaScript test needs 85%, has questions, and each correct option is an option index |
| AssessmentTests.ReactShape | src/data/assessmentTests.ts:177-221 | the React test needs 85%, has questions, and each correct option is an option index |
| AssessmentTests.NodejsShape | src/data/assessmentTests.ts:226-283 | the Node.js test needs 85%, has questions, and each correct option is an option index |
| AssessmentTests.ExpressShape | src/data/assessmentTests.ts:284-328 | the Express test needs 85%, has questions, and each correct option is an option index |
| AssessmentTests.AllTestsAreShipped | src/data/assessmentTests.ts:332-339 | every test reachable through the table is one of the five shipped tests |
| AssessmentTests.UiPathTests | src/data/assessmentTests.ts:336 | the UI path offers only the HTML & CSS test |
| AssessmentTests.FullstackPathTests | src/data/assessmentTests.ts:335 | the full-stack path offers the frontend tests followed by the backend tests |
| AssessmentTests.UnknownPathTests | src/data/assessmentTests.ts:341-343 | a path without an entry offers no test |
| AssessmentTests.FrontendTestsComeFirst | src/data/assessmentTests.ts:345-351 | the search looks in the frontend list first and only then in the later lists |
| AssessmentTests.ReactTestById | src/data/assessmentTests.ts:345-351 | "react-advanced-test" is found, as the React test |
| AssessmentTests.UnknownTestById | src/data/assessmentTests.ts:345-363 | an id no shipped test has is not found, and passing it unlocks nothing |
| AssessmentTests.HtmlCssUnlocks | src/data/assessmentTests.ts:360-363 | passing the HTML & CSS test unlocks fe-4 and fe-5; failing it unlocks nothing |
| AssessmentSession.BlankAnswers | src/components/Assessment/AssessmentComponent.tsx:45 | one slot per question, every slot −1 |
| AssessmentSession.AnsweredCount | src/components/Assessment/AssessmentComponent.tsx:130 | at most the slot count; equal to it iff every question is answered (`allQuestionsAnswered`); 0 iff every slot is −1 |
| AssessmentSession.AnsweredByMembership | src/components/Assessment/AssessmentComponent.tsx:53 | "no slot is −1" read slot by slot is the same as `answers.every(a => a !== -1)`, and likewise for "every slot is −1" |
| AssessmentSession.ProgressPercentage | src/components/Assessment/AssessmentComponent.tsx:129-132 | the percentage lies in 0..100, is 100 iff every question is answered and 0 iff none is |
| AssessmentSession.ProgressPercentageScales | src/components/Assessment/AssessmentComponent.tsx:129-132 | the percentage times the question count is 100 times the answered count |
| AssessmentSession.PercentBounds | src/components/Assessment/AssessmentComponent.tsx:131 | for 0 < n and c ≤ n the share c/n·100 scales back to 100·c, lies in 0..100, is 100 iff c = n and 0 iff c = 0 |
| AssessmentSession.CorrectCount | src/components/Assessment/AssessmentComponent.tsx:258 | the "Correct" count is at most the number of answer slots |
| AssessmentSession.IncorrectCount | src/components/Assessment/AssessmentComponent.tsx:265 | the "Incorrect" count, unanswered slots included, is at most the number of answer slots |
| AssessmentSession.CorrectPlusIncorrect | src/components/Assessment/AssessmentComponent.tsx:258-265 | the Correct and Incorrect counts of the result screen add up to the number of questions answered or not |
| AssessmentSession.CorrectCountIsScored | src/components/Assessment/AssessmentComponent.tsx:101-102 | the screen's Correct count is the count `calculateScore` scores |
| AssessmentSession.DifficultyColor | src/components/Assessment/AssessmentComponent.tsx:120-127 | green for easy, orange for medium, red for hard |
| AssessmentSession.DifficultyColorsDistinct | src/components/Assessment/AssessmentComponent.tsx:120-127 | two question levels share a colour iff they are the same level |
| AssessmentSession.SubmittedAttempt | src/components/Assessment/AssessmentComponent.tsx:100-118 | the attempt carries the test id, the answers and the time stamp; its score is `calculateScore` of the answers against the key, in 0..100; passed iff score ≥ passingScore; time spent plus time remaining is the time limit in seconds |
| AssessmentSession.StaleAutoSubmitAttempt | src/components/Assessment/AssessmentComponent.tsx:56-70 | the attempt the expiring timer reports as written scores a blank sheet and reports no time spent |
| AssessmentSession.StaleAutoSubmitLosesAnswers | src/components/Assessment/AssessmentComponent.tsx:56-70 | on a shipped test the stale auto-submit scores 0 and fails, while submitting the learner's all-correct sheet scores 100 and passes |
| AssessmentSession.Session.constructor | src/components/Assessment/AssessmentComponent.tsx:44-49 | on question 0, one −1 slot per question, the full time limit in seconds, not started, not completed, no result, nothing reported |
| AssessmentSession.Session.IsLastQuestion | src/components/Assessment/AssessmentComponent.tsx:52 | on a valid session, true iff the shown question is the last slot of the sheet; always true for a one-question test |
| AssessmentSession.Session.CanGoPrevious | src/components/Assessment/AssessmentComponent.tsx:447 | on a valid session the Previous button is enabled iff the index is past the first question; never on a one-question test |
| AssessmentSession.Session.CanGoNext | src/components/Assessment/AssessmentComponent.tsx:493-500 | disabled while nothing is answered, enabled once every question is answered |
| AssessmentSession.Session.CanSubmit | src/components/Assessment/AssessmentComponent.tsx:484-491 | enabled iff the answered count equals the slot count, which on a valid session is iff the progress reads 100%; when enabled, Next is enabled too |
| AssessmentSession.Session.StartTest | src/components/Assessment/AssessmentComponent.tsx:78-80 | the test is started and nothing else changes |
| AssessmentSession.Session.AnswerChange | src/components/Assessment/AssessmentComponent.tsx:82-86 | only the chosen slot changes, to the chosen option; the sheet keeps its length and every other slot |
| AssessmentSession.Session.NextQuestion | src/components/Assessment/AssessmentComponent.tsx:88-92 | the index goes up by one below the last question and stays on the last one, so it never leaves the questions |
| AssessmentSession.Session.PreviousQuestion | src/components/Assessment/AssessmentComponent.tsx:94-98 | the index goes down by one above 0 and stays at 0, so it never leaves the questions |
| AssessmentSession.Session.GoToQuestion | src/components/Assessment/AssessmentComponent.tsx:457 | the navigator's click moves to the question clicked and changes nothing else |
| AssessmentSession.Session.SubmitTest | src/components/Assessment/AssessmentComponent.tsx:100-118 | the test is completed, the result is the attempt built from the current sheet and time, and that attempt is reported once |
| AssessmentSession.Session.Tick | src/components/Assessment/AssessmentComponent.tsx:56-70 | nothing changes before the start or after completion; above one second the countdown goes down by one; at one second or less the current sheet is submitted and reported and the countdown reads 0 |
| AssessmentSession.TickAfterCompletion | src/components/Assessment/AssessmentComponent.tsx:57 | after completion a tick changes nothing, so the attempt stays reported exactly once |
| AssessmentSession.RunOutTheClock | src/components/Assessment/AssessmentComponent.tsx:56-70 | from t seconds left, max(t, 1) ticks complete the test with the countdown at 0, keep the sheet, and report exactly one attempt for that sheet |
| VideoPlayer.DurationOfParts | src/components/VideoPlayer/VideoPlayer.tsx:71-77 | any number of ':'-parts other than two gives 300; two parts give minutes·60 + seconds exactly when both read as integers, and not a number otherwise |
| VideoPlayer.DurationOfTwoParts | src/components/VideoPlayer/VideoPlayer.tsx:73-75 | two parts that read as x and y give x·60 + y |
| VideoPlayer.ParseDuration | src/components/VideoPlayer/VideoPlayer.tsx:71-77 | a duration text without ':' is one part and gives the 300 s default |
| VideoPlayer.FormatTimeSplits | src/utils/videoProgress.ts:89-93 | a formatted time splits on ':' into exactly its minutes and its padded seconds |
| VideoPlayer.ParseDurationFormatTime | src/components/VideoPlayer/VideoPlayer.tsx:71-77 | reading back any formatted time gives the seconds: parseDuration(formatTime(s)) = s |
| VideoPlayer.DigitsHaveNoColon | src/components/VideoPlayer/VideoPlayer.tsx:72 | a run of digits holds no ':', so it is never split |
| VideoPlayer.ParseDurationExample | src/components/VideoPlayer/VideoPlayer.tsx:70-77 | "18:45" reads as 1125 seconds |
| VideoPlayer.FormatTimeOf1125 | src/utils/videoProgress.ts:89-93 | 1125 seconds format as "18:45" |
| VideoPlayer.ExtractVideoId | src/components/VideoPlayer/VideoPlayer.tsx:101-105 | no id is found in a URL that has neither the watch marker nor the short marker; an id taken from a watch URL holds no '&', and one taken from a short URL holds no '?' |
| VideoPlayer.EmbedUrl | src/components/VideoPlayer/VideoPlayer.tsx:108 | the address is the embed path, the id right after it, the query, and the page origin at its end, with nothing else |
| VideoPlayer.GetEmbedUrl | src/components/VideoPlayer/VideoPlayer.tsx:100-111 | the embed address of the found id when there is one, the URL unchanged otherwise |
| VideoPlayer.EmbedOfWatchUrl | src/components/VideoPlayer/VideoPlayer.tsx:100-111 | a standard watch URL whose id has no '=' or '&' embeds exactly that id |
| VideoPlayer.WatchUrlHasMarker | src/components/VideoPlayer/VideoPlayer.tsx:101 | a standard watch URL contains "youtube.com/watch?v=" |
| VideoPlayer.WatchUrlSplitsOnV | src/components/VideoPlayer/VideoPlayer.tsx:102 | splitting a watch URL on "v=" gives its prefix and the id |
| VideoPlayer.WatchUrlFirstV | src/components/VideoPlayer/VideoPlayer.tsx:102 | the first "v=" of a watch URL is the one that ends its prefix |
| VideoPlayer.EmbedOfShortUrl | src/components/VideoPlayer/VideoPlayer.tsx:100-111 | a "https://youtu.be/" URL whose id has no '=', '/' or '?' embeds exactly that id |
| VideoPlayer.ShortUrlSplits | src/components/VideoPlayer/VideoPlayer.tsx:103-104 | a short URL contains "youtu.be/" and splits on it into its prefix and the id |
| VideoPlayer.ShortUrlFirstMarker | src/components/VideoPlayer/VideoPlayer.tsx:104 | the first "youtu.be/" of a short URL is the one that ends its prefix |
| VideoPlayer.EffectiveDuration | src/components/VideoPlayer/VideoPlayer.tsx:120 | `duration \|\| 300`: never zero; the parsed duration when it is a non-zero number, 300 for NaN or 0 |
| VideoPlayer.PercentOf | src/components/VideoPlayer/VideoPlayer.tsx:90 | not finite exactly for a NaN or zero duration; otherwise the percentage times the duration is 100·t |
| VideoPlayer.TickProgress | src/components/VideoPlayer/VideoPlayer.tsx:121 | never above 100, not negative for a positive duration and time; exactly 100 iff t/d ≥ 1, and below that exactly 100·t/d |
| VideoPlayer.OffersResume | src/components/VideoPlayer/VideoPlayer.tsx:86 | no prompt without a record, for a completed record, or for a record at 30 s or less |
| VideoPlayer.ResumeOffersSavedPosition | src/components/VideoPlayer/VideoPlayer.tsx:86 | a position saved by a plain save brings the prompt back exactly when it is past 30 s |
| VideoPlayer.NoResumeAfterCompletion | src/components/VideoPlayer/VideoPlayer.tsx:86 | a video marked completed never brings up the prompt |
| VideoPlayer.NoResumeAfterStartOver | src/components/VideoPlayer/VideoPlayer.tsx:160-165 | after start-over deletes the record there is nothing to resume |
| VideoPlayer.PlayerSession.constructor | src/components/VideoPlayer/VideoPlayer.tsx:62-68 | the whole state: a closed player on the given video, paused, at time 0 with duration 0 and progress 0, no prompt and nothing reported |
| VideoPlayer.PlayerSession.Open | src/components/VideoPlayer/VideoPlayer.tsx:80-97 | the dialog opens on the video; for a non-empty id the duration is parsed, the resume prompt shows iff a stored record is past 30 s and not completed, and then time and progress come from it, otherwise both are 0; an empty id loads nothing; playing flag, reports and store unchanged |
| VideoPlayer.PlayerSession.Tick | src/components/VideoPlayer/VideoPlayer.tsx:114-141 | paused or closed, nothing changes; while playing and open the time goes up by exactly 1, the progress is min(100·t/d′, 100) with d′ = duration or 300, the store is saved iff the new time is a multiple of 5, at ≥ 90% on a video not yet completed it is marked completed and its id reported once, and no other field changes |
| VideoPlayer.PlayerSession.PlayPause | src/components/VideoPlayer/VideoPlayer.tsx:143-145 | only the playing flag flips; every other field and the store stay |
| VideoPlayer.PlayerSession.Resume | src/components/VideoPlayer/VideoPlayer.tsx:155-158 | only the prompt goes away; the loaded position, every other field and the store stay |
| VideoPlayer.PlayerSession.StartOver | src/components/VideoPlayer/VideoPlayer.tsx:160-165 | time and progress are 0 and the prompt is gone, every other field stays, and the stored record of the video is removed |
| VideoPlayer.PlayerSession.Close | src/components/VideoPlayer/VideoPlayer.tsx:167-175 | the position is saved exactly when time and duration are both positive, otherwise the store is unchanged; playback stops, the prompt goes and the dialog closes, and no other field changes |
| VideoPlayer.TickCompletesAtNinetyPercent | src/components/VideoPlayer/VideoPlayer.tsx:131 | for a positive length the 90% test of a tick holds exactly when 10·t ≥ 9·d |
| Dashboard.ListOr | src/components/Dashboard/Dashboard.tsx:136-138 | the key's list when the key is present, the empty list otherwise |
| Dashboard.Appended | src/components/Dashboard/Dashboard.tsx:81-93 | the keys are the old keys plus this one; this key's list is its old list (or the empty one) with the id at the end; every other key keeps its list |
| Dashboard.AppendTwiceKeepsBoth | src/components/Dashboard/Dashboard.tsx:81-93 | appending the same id twice leaves both copies, since nothing de-duplicates |
| Dashboard.Route | src/components/Dashboard/Dashboard.tsx:110-146 | the profile exactly for "profile", a topic exactly for views starting "/learning/", a path exactly for views starting "/paths/", and the main dashboard for everything else |
| Dashboard.SegmentTwoAfter | src/components/Dashboard/Dashboard.tsx:116 | segment 2 of `split('/')` of "/word/segment…" is the segment, when neither holds a '/' |
| Dashboard.RouteToTopic | src/components/Dashboard/Dashboard.tsx:115-127 | "/learning/<topic>", alone or followed by '/', opens that topic |
| Dashboard.RouteToPath | src/components/Dashboard/Dashboard.tsx:129-143 | "/paths/<id>", alone or followed by '/', opens that path |
| Dashboard.NoSlashShowsMain | src/components/Dashboard/Dashboard.tsx:110-146 | a view other than "profile" that does not start with '/' shows the main dashboard |
| Dashboard.InitialViewShowsMain | src/components/Dashboard/Dashboard.tsx:40 | the initial view "dashboard" shows the main dashboard |
| Dashboard.DashboardSession.constructor | src/components/Dashboard/Dashboard.tsx:36-51 | the initial view, closed drawer, and the sample learner's enrolments, watched videos, completed path videos and (empty) passed tests |
| Dashboard.DashboardSession.DrawerToggle | src/components/Dashboard/Dashboard.tsx:53-55 | the drawer flag flips and nothing else changes |
| Dashboard.DashboardSession.NavigationChange | src/components/Dashboard/Dashboard.tsx:66-71 | the view becomes the path, and the drawer closes only on a narrow screen |
| Dashboard.DashboardSession.BackToDashboard | src/components/Dashboard/Dashboard.tsx:105-107 | the view becomes "dashboard", which routes to the main dashboard |
| Dashboard.DashboardSession.EnrollInTopic | src/components/Dashboard/Dashboard.tsx:73-75 | the topic is appended without a membership check; nothing else changes |
| Dashboard.DashboardSession.EnrollInPath | src/components/Dashboard/Dashboard.tsx:77-79 | the path is appended without a membership check; nothing else changes |
| Dashboard.DashboardSession.VideoWatch | src/components/Dashboard/Dashboard.tsx:81-86 | the topic's watched list gains the video at its end, other topics unchanged |
| Dashboard.DashboardSession.PathVideoComplete | src/components/Dashboard/Dashboard.tsx:88-93 | the path's completed list gains the video at its end (the list is created if absent), other paths unchanged |
| Dashboard.DashboardSession.TestComplete | src/components/Dashboard/Dashboard.tsx:96-103 | a pass appends the test to the path's list; a failure leaves the whole state unchanged |
| Dashboard.DashboardSession.ReceiveTestReport | src/components/Dashboard/Dashboard.tsx:139 | the callback drops the unlocked ids the path page reports and records only a pass |
| Dashboard.PassUnlocksListedVideos | src/components/Dashboard/Dashboard.tsx:96-103 | once a pass is recorded for a path, every video the test lists is unlocked on that path's page, whatever else was passed or completed |
| DeveloperPathLearning.SortedVideos | src/components/Learning/DeveloperPathLearning.tsx:81 | the videos sorted by non-decreasing `order`, a permutation of the path's videos |
| DeveloperPathLearning.SortedVideosStable | src/components/Learning/DeveloperPathLearning.tsx:81 | videos sharing an `order` keep their catalogue order (the sort is stable) |
| DeveloperPathLearning.ShippedSortedVideos | src/components/Learning/DeveloperPathLearning.tsx:81 | on a shipped path the sort leaves the catalogue order as it is |
| DeveloperPathLearning.TestUnlocks | src/components/Learning/DeveloperPathLearning.tsx:88-91 | an id is fed to the set by the tests exactly when some passed test lists it |
| DeveloperPathLearning.ChainUnlocks | src/components/Learning/DeveloperPathLearning.tsx:99-103 | after n steps of the index loop an id has been added exactly when it follows a completed video among the first n |
| DeveloperPathLearning.ChainLength | src/components/Learning/DeveloperPathLearning.tsx:99 | the loop bound `length − 1` runs no step on an empty list and stays below the length otherwise |
| DeveloperPathLearning.Unlocked | src/components/Learning/DeveloperPathLearning.tsx:84-106 | no duplicates, and an id is unlocked exactly when a passed test lists it, it is the first video, or its predecessor is completed; so the first video, every successor of a completed video and every video a passed test lists are all unlocked |
| DeveloperPathLearning.CatalogUnlocks | src/components/Learning/DeveloperPathLearning.tsx:89 | the passed test is looked up in the whole catalogue: nothing for an unknown test, otherwise its `prerequisiteFor`, which may name videos of other paths |
| DeveloperPathLearning.AddNext | src/components/Learning/DeveloperPathLearning.tsx:90 | adding one more id to the set is what de-duplicating the longer feed lists |
| DeveloperPathLearning.AddEach | src/components/Learning/DeveloperPathLearning.tsx:90 | the inner `forEach` leaves the set holding the de-duplicated feed so far followed by the new ids |
| DeveloperPathLearning.GetUnlockedVideos | src/components/Learning/DeveloperPathLearning.tsx:84-106 | the loops over passed tests, the first video and the neighbours produce exactly `Unlocked`, in insertion order |
| DeveloperPathLearning.ChainNext | src/components/Learning/DeveloperPathLearning.tsx:100-102 | one step of the index loop adds the successor when the video is completed and nothing otherwise |
| DeveloperPathLearning.ChainStart | src/components/Learning/DeveloperPathLearning.tsx:99 | before the first step the loop has added nothing |
| DeveloperPathLearning.AddSuccessors | src/components/Learning/DeveloperPathLearning.tsx:99-103 | the index loop leaves the set holding what it had plus each successor of a completed video, de-duplicated |
| DeveloperPathLearning.ChainUnlocksByMembership | src/components/Learning/DeveloperPathLearning.tsx:100 | the loop only asks whether a video is in the completed list, not how often |
| DeveloperPathLearning.UnlockedByMembership | src/components/Learning/DeveloperPathLearning.tsx:84-106 | completed lists with the same members unlock the same videos, so a video recorded twice unlocks nothing more |
| DeveloperPathLearning.FreshLearnerUnlocksFirstOnly | src/components/Learning/DeveloperPathLearning.tsx:93-96 | with no passed test and nothing completed only the first video is open |
| DeveloperPathLearning.ChainUnlocksNone | src/components/Learning/DeveloperPathLearning.tsx:99-103 | with nothing completed the index loop adds nothing |
| DeveloperPathLearning.AvailableTestForVideo | src/components/Learning/DeveloperPathLearning.tsx:111-115 | none iff no test of the path lists the video while not yet passed; otherwise the first such test in the path's order |
| DeveloperPathLearning.PassedTestNotOffered | src/components/Learning/DeveloperPathLearning.tsx:113 | a test already passed is never the one offered |
| DeveloperPathLearning.PassingEndsGating | src/components/Learning/DeveloperPathLearning.tsx:111-115 | once a test is passed it gates no video |
| DeveloperPathLearning.GatingShrinks | src/components/Learning/DeveloperPathLearning.tsx:111-115 | passing more tests only removes gates: a test gating a video for more passed tests gates it for fewer |
| DeveloperPathLearning.TestCompleteReport | src/components/Learning/DeveloperPathLearning.tsx:134-142 | the report carries the attempt's test and outcome; a pass reports the test's unlocked videos and a failure reports none |
| DeveloperPathLearning.ProgressPercentage | src/components/Learning/DeveloperPathLearning.tsx:117-119 | not finite iff the path has no video; otherwise it times the video count is 100·completed, it is not negative, and at most 100 while no more videos are completed than the path has |
| DeveloperPathLearning.FractionBounds | src/components/Learning/DeveloperPathLearning.tsx:119 | completed/total lies between 0 and 1 when completed ≤ total |
| DeveloperPathLearning.ChooseCardAction | src/components/Learning/DeveloperPathLearning.tsx:389-464 | Watch Again iff unlocked and completed; Resume at the rounded percentage iff unlocked, not completed and with progress; Start iff unlocked without either; Take Test with the gating test's id iff locked with a test; the disabled Complete Previous Steps iff locked without one |
| DeveloperPathLearning.PlayableCards | src/components/Learning/DeveloperPathLearning.tsx:389-425 | the first video's card and the card after a completed video can always be played and never ask for a test |
| DeveloperPathLearning.LockedCardReasons | src/components/Learning/DeveloperPathLearning.tsx:449-464 | a disabled card is not the first video, its predecessor is not completed, and no passed test lists it |
| DeveloperPathLearning.CardFor | src/components/Learning/DeveloperPathLearning.tsx:389-464 | a card can be played iff its video is unlocked; it reads Watch Again iff unlocked and completed; a test it names gates the video and is not passed; it is disabled iff locked with no test gating it |
| DeveloperPathLearning.PathLearningPage.constructor | src/components/Learning/DeveloperPathLearning.tsx:60-64 | no bookmarks, the enrol alert shown iff not enrolled, no test and no video open, nothing reported |
| DeveloperPathLearning.PathLearningPage.HandleBookmark | src/components/Learning/DeveloperPathLearning.tsx:121-127 | the bookmark list is toggled: the id is bookmarked afterwards iff it was not before, nothing else changes |
| DeveloperPathLearning.PathLearningPage.HandleEnroll | src/components/Learning/DeveloperPathLearning.tsx:129-132 | the path id is sent to the parent and the alert is hidden |
| DeveloperPathLearning.PathLearningPage.HandleTestComplete | src/components/Learning/DeveloperPathLearning.tsx:134-142 | the attempt's report is sent to the parent and the test closes |
| DeveloperPathLearning.PathLearningPage.HandleTakeTest | src/components/Learning/DeveloperPathLearning.tsx:144-146 | the test is opened and nothing else changes |
| DeveloperPathLearning.PathLearningPage.HandleCloseTest | src/components/Learning/DeveloperPathLearning.tsx:148-150 | the test closes without a report |
| DeveloperPathLearning.PathLearningPage.HandleVideoOpen | src/components/Learning/DeveloperPathLearning.tsx:152-155 | the video is selected and the player opens |
| DeveloperPathLearning.PathLearningPage.HandleVideoPlayerClose | src/components/Learning/DeveloperPathLearning.tsx:157-160 | the player closes and no video is selected |
| DeveloperPathLearning.PathLearningPage.HandleVideoComplete | src/components/Learning/DeveloperPathLearning.tsx:162-164 | the video id is passed straight to the parent |
| DeveloperPathLearning.PathLearningPage.DismissEnrollAlert | src/components/Learning/DeveloperPathLearning.tsx:544 | "Maybe Later" hides the alert without enrolling |
| TopicLearning.ScreenFor | src/components/Learning/TopicLearning.tsx:53-64 | the not-found screen iff the catalogue has no such topic; otherwise the topic stored under the id |
| TopicLearning.UnknownTopicNotFound | src/components/Learning/TopicLearning.tsx:55-64 | an id the catalogue does not list, such as "python", gets the not-found screen |
| TopicLearning.SortedVideos | src/components/Learning/TopicLearning.tsx:67-69 | the videos by non-decreasing level rank, a permutation of the topic's videos |
| TopicLearning.SortedVideosStable | src/components/Learning/TopicLearning.tsx:67-69 | videos of the same level keep their catalogue order |
| TopicLearning.ShippedSortedVideos | src/components/Learning/TopicLearning.tsx:67-69 | on a shipped topic the sort leaves the catalogue order as it is |
| TopicLearning.TopicProgress | src/components/Learning/TopicLearning.tsx:71-73 | not finite iff the topic has no video; otherwise it times the video count is 100 times the watched entries, and it lies in 0..100 while there are no more entries than videos |
| TopicLearning.RepeatsExceedHundred | src/components/Learning/TopicLearning.tsx:71-73 | more watched entries than videos, as repeated completions leave, read above 100% |
| TopicLearning.ChooseButton | src/components/Learning/TopicLearning.tsx:287-291 | "Watch Again" iff watched; "Resume" at the rounded percentage iff there is progress on an unwatched video (`hasProgress`); "Watch Video" iff neither |
| TopicLearning.ButtonFromStore | src/components/Learning/TopicLearning.tsx:103-109 | a video neither watched nor stored offers "Watch Video", and a resume percentage read from the store lies in 0..100 |
| TopicLearning.TopicLearningPage.constructor | src/components/Learning/TopicLearning.tsx:48-51 | no bookmarks, the enrol alert shown iff not enrolled, no player, nothing reported |
| TopicLearning.TopicLearningPage.HandleBookmark | src/components/Learning/TopicLearning.tsx:75-81 | the bookmark list is toggled: the id is bookmarked afterwards iff it was not before, nothing else changes |
| TopicLearning.TopicLearningPage.HandleEnroll | src/components/Learning/TopicLearning.tsx:83-86 | the topic is sent to the parent and the alert is hidden |
| TopicLearning.TopicLearningPage.DismissEnrollAlert | src/components/Learning/TopicLearning.tsx:348 | "Maybe Later" hides the alert without enrolling |
| TopicLearning.TopicLearningPage.HandleVideoOpen | src/components/Learning/TopicLearning.tsx:88-91 | the video is selected and the player opens |
| TopicLearning.TopicLearningPage.HandleVideoPlayerClose | src/components/Learning/TopicLearning.tsx:93-96 | the player closes and no video is selected |
| TopicLearning.TopicLearningPage.HandleVideoComplete | src/components/Learning/TopicLearning.tsx:98-100 | the video id is passed straight to the parent's `onVideoWatch` |
| CardChips.DifficultyChipColor | src/components/LearningPath/LearningPathCard.tsx:30-41 | "success", "warning" and "error" for beginner, intermediate and advanced; "default" exactly for any other level |
| CardChips.ShownChips | src/components/LearningPath/LearningPathCard.tsx:215 | a prefix of the list, of length min(count, 3) |
| CardChips.HiddenCount | src/components/LearningPath/LearningPathCard.tsx:230-232 | an overflow chip exactly when there are more than three items, and then a positive count |
| CardChips.ChipsAccountForAll | src/components/LearningPath/LearningPathCard.tsx:215-232 | the shown chips plus the overflow count make up every item, and the shown chips followed by the hidden items are the list |
| CardChips.OverflowLabel | src/components/Resources/ResourceCard.tsx:316-318 | a label exactly when there is a hidden count; it starts with "+" and ends with the card's suffix |
| CardChips.OverflowLabelReadsBack | src/components/LearningPath/LearningPathCard.tsx:232 | the digits between "+" and the suffix parse back to the number of hidden items |
| LearningPathCard.ActionText | src/components/LearningPath/LearningPathCard.tsx:85-93 | "Continue" iff enrolled with progress, "Start" iff enrolled without, "Enroll" iff not enrolled |
| LearningPathCard.ActionCall | src/components/LearningPath/LearningPathCard.tsx:75-83 | a continue call iff enrolled and an enrol call iff not, always with the path's id |
| LearningPathCard.ActionMatchesText | src/components/LearningPath/LearningPathCard.tsx:75-93 | the button enrols exactly when it reads "Enroll", and continues exactly when it reads "Start" or "Continue" |
| LearningPathCard.CategoryIcon | src/components/LearningPath/LearningPathCard.tsx:43-60 | each of the six known categories gets its own icon; the books icon exactly for any other category |
| LearningPathCard.CategoryIconsDistinct | src/components/LearningPath/LearningPathCard.tsx:43-60 | two different known categories never share an icon |
| LearningPathCard.SkillChips | src/components/LearningPath/LearningPathCard.tsx:215-232 | at most three skills, taken from the front, and a "+k more" chip exactly when more than three skills exist |
| LearningPathCard.Card.constructor | src/components/LearningPath/LearningPathCard.tsx:62-68 | not bookmarked, no calls made |
| LearningPathCard.Card.Bookmark | src/components/LearningPath/LearningPathCard.tsx:70-73 | the flag flips and the path id is reported, when the parent passed `onBookmark` |
| LearningPathCard.Card.Action | src/components/LearningPath/LearningPathCard.tsx:75-83 | exactly the call `ActionCall` names is made, when its callback was passed; the flag is unchanged |
| LearningPathCard.BookmarkTwice | src/components/LearningPath/LearningPathCard.tsx:70-73 | two presses restore the flag and report the path twice |
| ResourceCard.KindIcon | src/components/Resources/ResourceCard.tsx:45-60 | one icon for each of the five known types; the link icon exactly for any other type |
| ResourceCard.KindColor | src/components/Resources/ResourceCard.tsx:62-77 | the colour of each known type; grey exactly for any other type |
| ResourceCard.KindIconsDistinct | src/components/Resources/ResourceCard.tsx:45-77 | the icons tell the known types apart, while MDN and GitHub share a colour |
| ResourceCard.IntToString | src/components/Resources/ResourceCard.tsx:98 | a non-empty text that starts with a minus sign iff the number is negative |
| ResourceCard.FormatDuration | src/components/Resources/ResourceCard.tsx:92-100 | no label iff the duration is missing or 0; any label ends in "m" |
| ResourceCard.FormatDurationHours | src/components/Resources/ResourceCard.tsx:94-97 | from an hour on, the label is the whole hours, "h ", the leftover minutes and "m" |
| ResourceCard.FormatDurationMinutes | src/components/Resources/ResourceCard.tsx:98 | below an hour, a negative count included, the label is the count and "m" |
| ResourceCard.FormatDurationReadsBack | src/components/Resources/ResourceCard.tsx:92-100 | the two numbers of an hour label parse back to the quotient and remainder of the count by 60 |
| ResourceCard.FormatDurationExamples | src/components/Resources/ResourceCard.tsx:92-100 | 90 → "1h 30m", 60 → "1h 0m", 45 → "45m", 125 → "2h 5m", and 0 or none → no label |
| ResourceCard.TagChips | src/components/Resources/ResourceCard.tsx:300-318 | at most three tags, taken from the front, and a "+k" chip exactly when more than three tags exist |
| ResourceCard.Card.constructor | src/components/Resources/ResourceCard.tsx:28-33 | not bookmarked, no calls made |
| ResourceCard.Card.Bookmark | src/components/Resources/ResourceCard.tsx:35-38 | the flag flips and the resource id is reported, when the parent passed `onBookmark` |
| ResourceCard.Card.Open | src/components/Resources/ResourceCard.tsx:40-43 | the resource id is reported, when the parent passed `onOpen`; the flag is unchanged |
| ResourceCard.BookmarkTwice | src/components/Resources/ResourceCard.tsx:35-38 | two presses restore the flag and report the resource twice |
| UserProfile.CompletedVideos | src/components/Profile/UserProfile.tsx:115 | at most the record count; 0 iff no record is completed, the record count iff all are |
| UserProfile.TotalWatchMinutes | src/components/Profile/UserProfile.tsx:116-123 | the whole minutes in the summed seconds, rounded down |
| UserProfile.TotalSecondsNonNegative | src/components/Profile/UserProfile.tsx:116 | no negative stored time, no negative watch time |
| UserProfile.ShareSum | src/components/Profile/UserProfile.tsx:118 | not a finite number iff some record has duration 0 |
| UserProfile.AvgCompletionRate | src/components/Profile/UserProfile.tsx:117-124 | 0 without records; otherwise not a number iff some record has duration 0 |
| UserProfile.ShareSumBounds | src/components/Profile/UserProfile.tsx:118 | for positions within positive durations every share is in 0..100, so the sum is in 0..100 times the count |
| UserProfile.AvgCompletionRateBounds | src/components/Profile/UserProfile.tsx:117-124 | for well-formed records the mean rate is a percentage in 0..100 |
| UserProfile.FullyWatchedRate | src/components/Profile/UserProfile.tsx:117-124 | records all watched to their end give exactly 100 |
| UserProfile.GetUserStats | src/components/Profile/UserProfile.tsx:113-128 | completed count at most the record count, watch minutes the floor of the seconds over 60, and 0, 0, 0, 7, 12 for an empty store |
| UserProfile.ProfilePage.constructor | src/components/Profile/UserProfile.tsx:73-76 | first tab, not editing, no message, no uploaded picture |
| UserProfile.ProfilePage.TabChange | src/components/Profile/UserProfile.tsx:132-134 | only the tab changes |
| UserProfile.ProfilePage.StartEditing | src/components/Profile/UserProfile.tsx:265 | only the editing switch turns on |
| UserProfile.ProfilePage.AvatarLoaded | src/components/Profile/UserProfile.tsx:140-142 | only the uploaded picture changes |
| UserProfile.ProfilePage.Save | src/components/Profile/UserProfile.tsx:147-150 | editing ends and the message shows; the picture stays |
| UserProfile.ProfilePage.HideSuccess | src/components/Profile/UserProfile.tsx:484-486 | only the message is hidden |
| UserProfile.ProfilePage.Cancel | src/components/Profile/UserProfile.tsx:154-158 | editing ends and the uploaded picture is dropped |
| UserProfile.SaveEditCancel | src/components/Profile/UserProfile.tsx:147-158 | after save, edit and cancel no uploaded picture is left, even a saved one |
| ThemeProvider.InitialMode | src/theme/ThemeProvider.tsx:26-29 | the stored text when it is non-empty, unchecked; the default mode otherwise |
| ThemeProvider.Toggled | src/theme/ThemeProvider.tsx:33 | dark iff the mode was light; light for every other mode |
| ThemeProvider.ToggleTwice | src/theme/ThemeProvider.tsx:31-37 | two toggles restore light and dark, and turn any other stored mode into dark |
| ThemeProvider.ToggleSurvivesReload | src/theme/ThemeProvider.tsx:26-37 | the mode a toggle stores is the mode the next provider starts in |
| ThemeProvider.Provider.constructor | src/theme/ThemeProvider.tsx:26-29 | the initial mode comes from the store, and nothing is written |
| ThemeProvider.Provider.ToggleTheme | src/theme/ThemeProvider.tsx:31-37 | the mode toggles, the store holds the new mode, and that mode is light or dark |
| ThemeProvider.Provider.SetThemeMode | src/theme/ThemeProvider.tsx:39-42 | the mode is the given one and the store holds it |
| ThemeProvider.ToggleTwiceFromLight | src/theme/ThemeProvider.tsx:31-37 | two toggles from light leave light, with light stored |
| AdvancedSearch.Hits | src/components/Search/AdvancedSearch.tsx:101-118 | a field is listed iff the query occurs in it ignoring case (skills only on paths), in the order title, description, tags, skills, without repeats |
| AdvancedSearch.HitsFromFacts | src/components/Search/AdvancedSearch.tsx:101-118 | the hit list names exactly the successful checks, in checking order, and weighs 10, 5, 7 and 8 for the checks that succeed |
| AdvancedSearch.Score | src/components/Search/AdvancedSearch.tsx:99-126 | the scoring callback's fields are the hit fields and its score is their total weight |
| AdvancedSearch.RelevantIffHit | src/components/Search/AdvancedSearch.tsx:119-127 | an item scores above zero, and so survives `.filter(Boolean)`, iff the query hits one of its fields |
| AdvancedSearch.RelevanceBounds | src/components/Search/AdvancedSearch.tsx:128-154 | a path scores at most 30; a resource, which has no skills check, at most 22 and never lists skills |
| AdvancedSearch.Scored | src/components/Search/AdvancedSearch.tsx:97-154 | every listed result is a scored input item with a positive score, and every positive-scoring item is listed |
| AdvancedSearch.ScoreAll | src/components/Search/AdvancedSearch.tsx:97-127 | the pass over a list yields the positive-scoring results in input order |
| AdvancedSearch.RankedOrdered | src/components/Search/AdvancedSearch.tsx:156-157 | the result list is a permutation of the scored paths and resources, ordered by non-increasing score |
| AdvancedSearch.RankedMembers | src/components/Search/AdvancedSearch.tsx:97-157 | a catalogue entry is in the result list iff the query hits one of its fields |
| AdvancedSearch.Ranked | src/components/Search/AdvancedSearch.tsx:156-157 | the list has one entry per scored path and resource, and each entry is a catalogue entry with its own positive score and hit fields |
| AdvancedSearch.TiesKeepCatalogueOrder | src/components/Search/AdvancedSearch.tsx:156-157 | results of equal score are the paths, then the resources, each in catalogue order |
| AdvancedSearch.SearchPage.constructor | src/components/Search/AdvancedSearch.tsx:40-43 | empty box, no suggestions, list closed, no results |
| AdvancedSearch.SearchPage.SearchChange | src/components/Search/AdvancedSearch.tsx:60-91 | non-empty text opens up to three path and three resource suggestions and keeps the results; empty text closes the list and clears suggestions and results |
| AdvancedSearch.SearchPage.Search | src/components/Search/AdvancedSearch.tsx:93-162 | an empty query falls back to the box's text; with both empty nothing changes; otherwise the ranked results are shown, the list closes and the box shows the query |
| AdvancedSearch.SearchPage.SuggestionClick | src/components/Search/AdvancedSearch.tsx:164-166 | the same as a search for the suggestion's title |
| AdvancedSearch.SearchPage.ClickAway | src/components/Search/AdvancedSearch.tsx:168-170 | only the list closes |
| AdvancedSearch.SearchPage.ClearQuery | src/components/Search/AdvancedSearch.tsx:394 | only the box is emptied; the results stay |
| SearchBar.AsPathItems | src/components/Search/SearchBar.tsx:44 | one path entry per path, in the same order |
| SearchBar.AsResourceItems | src/components/Search/SearchBar.tsx:53 | one resource entry per resource, in the same order |
| SearchBar.SuggestionsShape | src/components/Search/SearchBar.tsx:37-56 | the list is min(limit, matches) paths, the first matching ones in catalogue order, followed likewise by the first matching resources |
| SearchBar.SuggestionsMatch | src/components/Search/SearchBar.tsx:37-53 | every suggestion is a catalogue entry that passes its test |
| SearchBar.BarSuggestions | src/components/Search/SearchBar.tsx:37-56 | at most five entries, each a catalogue path or resource that passes the text test of its kind |
| SearchBar.FewMatchesAllSuggested | src/components/Search/SearchBar.tsx:43-52 | when no more entries of a kind match than the limit, every matching entry of that kind is suggested |
| SearchBar.SkillsNotSearched | src/components/Search/SearchBar.tsx:38-42 | a path that matches only by a skill is never suggested |
| SearchBar.SearchBox.constructor | src/components/Search/SearchBar.tsx:27-29 | empty box, list closed and empty |
| SearchBar.SearchBox.SearchChange | src/components/Search/SearchBar.tsx:31-61 | non-empty text opens three paths and two resources at most; empty text closes and empties the list |
| SearchBar.SearchBox.ClearSearch | src/components/Search/SearchBar.tsx:63-67 | box emptied, list closed and emptied |
| SearchBar.SearchBox.SuggestionClick | src/components/Search/SearchBar.tsx:69-74 | the title goes into the box and the list closes, its entries kept |
| SearchBar.SearchBox.ClickAway | src/components/Search/SearchBar.tsx:76-78 | only the list closes |
| LearningPathsGrid.Filtered | src/components/LearningPath/LearningPathsGrid.tsx:46-84 | the shown list keeps catalogue order, and a path is on it iff it is in the catalogue and passes every active stage |
| LearningPathsGrid.ClearedFiltersKeepAll | src/components/LearningPath/LearningPathsGrid.tsx:46-84 | no search and every selector on "all" filter nothing out |
| LearningPathsGrid.CompletedIgnoresEnrolment | src/components/LearningPath/LearningPathsGrid.tsx:74-75 | "completed" shows exactly the paths at 100%, whether enrolled or not |
| LearningPathsGrid.PathsGrid.constructor | src/components/LearningPath/LearningPathsGrid.tsx:38-42 | every path shown, no search, every selector on "all", and the list agrees with the selectors |
| LearningPathsGrid.PathsGrid.SetSearchTerm | src/components/LearningPath/LearningPathsGrid.tsx:129 | only the search term changes until the effect runs |
| LearningPathsGrid.PathsGrid.SetDifficultyFilter | src/components/LearningPath/LearningPathsGrid.tsx:163 | only the difficulty selector changes |
| LearningPathsGrid.PathsGrid.SetCategoryFilter | src/components/LearningPath/LearningPathsGrid.tsx:177 | only the category selector changes |
| LearningPathsGrid.PathsGrid.SetStatusFilter | src/components/LearningPath/LearningPathsGrid.tsx:194 | only the status selector changes |
| LearningPathsGrid.PathsGrid.ApplyFilters | src/components/LearningPath/LearningPathsGrid.tsx:46-84 | narrowing a copy stage by stage shows exactly the reference list for the current selectors, nothing else changes |
| LearningPathsGrid.PathsGrid.ClearFilters | src/components/LearningPath/LearningPathsGrid.tsx:101-106 | the search is emptied and the three selectors go back to "all"; the shown list waits for the effect |
| LearningPathsGrid.ClearAndRefresh | src/components/LearningPath/LearningPathsGrid.tsx:46-106 | clearing then running the effect shows the whole catalogue |
| ResourcesGrid.Filtered | src/components/Resources/ResourcesGrid.tsx:45-70 | the shown list keeps catalogue order, and a resource is on it iff it is in the catalogue and passes every active stage |
| ResourcesGrid.ClearedFiltersKeepAll | src/components/Resources/ResourcesGrid.tsx:45-70 | no search and both selectors on "all" filter nothing out |
| ResourcesGrid.AuthorlessSearch | src/components/Resources/ResourcesGrid.tsx:50-56 | a resource without an author matches the search iff its title, description or a tag does |
| ResourcesGrid.ResourceGrid.constructor | src/components/Resources/ResourcesGrid.tsx:38-41 | every resource shown, no search, both selectors on "all", and the list agrees with the selectors |
| ResourcesGrid.ResourceGrid.SetSearchTerm | src/components/Resources/ResourcesGrid.tsx:109 | only the search term changes until the effect runs |
| ResourcesGrid.ResourceGrid.SetTypeFilter | src/components/Resources/ResourcesGrid.tsx:143 | only the type selector changes |
| ResourcesGrid.ResourceGrid.SetDifficultyFilter | src/components/Resources/ResourcesGrid.tsx:159 | only the difficulty selector changes |
| ResourcesGrid.ResourceGrid.ApplyFilters | src/components/Resources/ResourcesGrid.tsx:45-70 | narrowing a copy stage by stage shows exactly the reference list for the current selectors, nothing else changes |
| ResourcesGrid.ResourceGrid.ClearFilters | src/components/Resources/ResourcesGrid.tsx:82-86 | the search is emptied and both selectors go back to "all"; the shown list waits for the effect |
| ResourcesGrid.ClearAndRefresh | src/components/Resources/ResourcesGrid.tsx:45-86 | clearing then running the effect shows the whole catalogue |
| Personalization.RecommendedPaths | src/components/Personalization/PersonalizationEngine.tsx:96-109 | the recommendations keep catalogue order, and a path is recommended iff it is in the catalogue, has the chosen level and some preferred topic occurs, ignoring case, in one of its tags or skills |
| Personalization.NoTopicsNoRecommendations | src/components/Personalization/PersonalizationEngine.tsx:101-104 | with no preferred topic nothing is recommended |
| Personalization.MoreTopicsMoreRecommendations | src/components/Personalization/PersonalizationEngine.tsx:101-104 | adding a topic never removes a recommendation |
| Personalization.OnlyLevelAndTopicsMatter | src/components/Personalization/PersonalizationEngine.tsx:96-109 | style, weekly time and the two switches do not affect the recommendations |
| Personalization.PreviousStep | src/components/Personalization/PersonalizationEngine.tsx:433 | from one of the five steps, the result is one of the five steps |
| Personalization.NextStep | src/components/Personalization/PersonalizationEngine.tsx:450 | from one of the five steps, the result is one of the five steps |
| Personalization.StepsRoundTrip | src/components/Personalization/PersonalizationEngine.tsx:433-450 | inside the wizard Next undoes Previous and Previous undoes Next, and each stays put at its end |
| Personalization.StepPercent | src/components/Personalization/PersonalizationEngine.tsx:413 | the rounding never moves the label: step s reads exactly 20·(s + 1) percent |
| Personalization.StepPercentRange | src/components/Personalization/PersonalizationEngine.tsx:413 | on the wizard's steps the label lies in 20..100, the first step reads 20 and the last 100, and Next adds 20 except on the last step |
| Personalization.Engine.constructor | src/components/Personalization/PersonalizationEngine.tsx:36-38 | the initial preferences, first step, no recommendations shown, nothing reported |
| Personalization.Engine.TopicToggle | src/components/Personalization/PersonalizationEngine.tsx:71-77 | the topic is in the list afterwards iff it was not before; remove drops every copy, add appends at the end; nothing else changes |
| Personalization.Engine.StyleChange | src/components/Personalization/PersonalizationEngine.tsx:79-81 | only the learning style changes |
| Personalization.Engine.DifficultyChange | src/components/Personalization/PersonalizationEngine.tsx:83-85 | only the level changes |
| Personalization.Engine.TimeChange | src/components/Personalization/PersonalizationEngine.tsx:87-89 | only the weekly time changes |
| Personalization.Engine.NotificationsChange | src/components/Personalization/PersonalizationEngine.tsx:353 | only the notification switch changes |
| Personalization.Engine.DarkModeChange | src/components/Personalization/PersonalizationEngine.tsx:370 | only the dark-mode switch changes |
| Personalization.Engine.Previous | src/components/Personalization/PersonalizationEngine.tsx:433 | the step goes back one, clamped at the first, and stays one of the five |
| Personalization.Engine.Next | src/components/Personalization/PersonalizationEngine.tsx:450 | the step goes on one, clamped at the last, and stays one of the five |
| Personalization.Engine.SavePreferences | src/components/Personalization/PersonalizationEngine.tsx:91-94 | the current preferences are handed to the callback when there is one, and the recommendations show |
| Personalization.Engine.BackToPreferences | src/components/Personalization/PersonalizationEngine.tsx:494 | only the recommendations screen closes |

## Left out

- JSX and MUI rendering, `sx` styling, icons in markup and layout. Only the values the markup shows (labels, chips, percentages, disabled states) are modelled.
- `localStorage`, `JSON.parse`/`JSON.stringify` and the `try`/`catch` blocks that swallow their errors (`src/utils/videoProgress.ts:13-21`, `src/theme/ThemeProvider.tsx:27`). The stores are in-memory fields: a map for the progress store and an optional string for the theme mode.
- `Date.now()` and `new Date().toISOString()`: the time is a parameter of the operations that read it.
- `setInterval`, `setTimeout` and `useEffect`: each tick, timer expiry or effect run is an explicit method call. React's batching and re-rendering are not modelled. The stale-closure behaviour of the assessment timer is a finding (below).
- `console.log` calls, and card callbacks in the grids that only log.
- Floating-point arithmetic. Percentages are `real` or integer cross-multiplication. `Math.round` is `floor(x + 1/2)`. NaN and Infinity are `None`.
- Case folding is ASCII only. `toLowerCase` on other letters is not modelled.
- The sample data module (`mockLearningPaths`, `mockResources`, `mockUser`) is not part of this model. The grids, search, wizard and profile take those lists as parameters.
- `window.open` (`src/components/Resources/ResourceCard.tsx:42`) and `FileReader` (`src/components/Profile/UserProfile.tsx:136-145`). `window.location.origin` is a parameter of `GetEmbedUrl`.
- `createLearnFlowTheme` and the design token files. `useTheme`, which throws outside a provider, is not modelled.
- Object keys that JavaScript would find on the prototype chain (such as "toString") in the literal catalogue tables.
- The order of `Object.values` over the progress store. The profile statistics take the records as a list; none of their results depend on the order.
- Sidebar, MainContent, MainContentSimple, AchievementsDisplay and SkillProgress: display over sample data.
- The trending and recent-search chips of the search page: constant lists with no logic.
- The profile's form fields (name, bio and the preference switches) and their `onChange` updates. `handleCancel` does not reset them, so the model has nothing to reset either.
- AssessmentTests.CalculateScore: requires a non-empty answer key. The code divides by the key's length unguarded; every shipped test has questions, and the component reads `questions[0]` anyway.
- AssessmentSession.Session.AnswerChange: requires the question index to lie within the sheet. The radio group only offers the current question, whose index is always in range.
- A test with no questions is not modelled: the component indexes its first question on mount.
- Progress values of learning paths are integers; the UI only ever stores whole numbers there.
- DeveloperPathLearning.GetUnlockedVideos: the unlock engine takes, as a parameter, the function that gives the videos a passed test unlocks. `CatalogUnlocks` supplies the shipped tests' global lookup (`getUnlockedVideosByTest`). Its contract ties that lookup to `TestById`.
- VideoPlayer.ExtractVideoId: the contract states the no-marker case and which separator the id cannot hold, not the id itself. Its partners `EmbedOfWatchUrl` and `EmbedOfShortUrl` prove the embed URL of well-formed watch and short links.
- VideoProgress.FormatTime: the contract states only that the text holds the colon. Its content is fixed by `ParseDurationFormatTime` (the round trip) and `FormatTimeOf1125`.
- The countdown's `formatTime` (`src/components/Assessment/AssessmentComponent.tsx:72-76`) has no `Math.floor` around `seconds % 60`. That makes a difference only for a fractional argument, and the countdown is always a whole number of seconds, so `VideoProgress.FormatTime` stands for both.

## Findings

| source | as written | input that shows it | evidently intended | confidence | as-written member | corrected member |
|---|---|---|---|---|---|---|
| src/components/Assessment/AssessmentComponent.tsx:56-70 | The timer effect depends only on `[testStarted, testCompleted]`, so the interval keeps the `handleSubmitTest` of the render where the test started. Its `answers` are all -1 and its `timeRemaining` is the full limit. | Start a shipped test, answer every question correctly, and let the countdown reach 1 second. The reported attempt scores 0, fails and records 0 seconds spent. | The expiring timer submits the learner's current answers and time, as the Submit button does. | not executed | AssessmentSession.StaleAutoSubmitAttempt | AssessmentSession.Session.Tick |
