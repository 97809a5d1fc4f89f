# CareerPath front-end core, modelled in Dafny

CareerPath is a Next.js learning application. A learner takes an assessment and receives career recommendations. They then follow a career roadmap of nodes, each holding videos, articles and tasks. Watching a video sends periodic progress reports to a completion authority. Completing resources completes nodes, and the dashboard and header summarise the learner's progress.

This project models the logic behind those screens:

- `types.dfy` holds the shared records: user, question, answer, skill vector, recommendation, resource, node, career tree and progress report. It also has the node-order flattening of resources and the `findIndex` lookups.
- `js_numbers.dfy` holds the JavaScript number behaviour the code relies on: division by zero giving an infinity or NaN, `Math.round`, `Math.floor` and `%`.
- `strings.dfy` holds `String(n)`, `padStart`, `split`, `join` and `toUpperCase`, with a decimal reader as the inverse of `String(n)`.
- `api.dfy` holds the mocked API. It includes the completion rule for progress reports, the resource lookup and the shape of the mock career tree.
- `store.dfy` holds the application store as a class whose setters each replace one field. The watch-progress table is a `map`.
- `video_player.dfy` holds the player's watch-progress session:
  - pure step functions on a `Session` value;
  - a `PlayerSession` class whose handlers are proved to perform exactly those steps;
  - a replay of event sequences for properties spanning many events.
- `career_tree_page.dfy` holds the roadmap page: marking a resource complete, deriving node completion, and the selection state behind the resource panel.
- `career_tree_view.dfy` holds how roadmap nodes are drawn: colour, icon, label, resource preview, action button and connection lines.
- `career_card.dfy` holds a recommendation card's match bands and the id its button hands on.
- `skill_ranking.dfy`, `dashboard.dfy` and `skills_radar.dfy` hold:
  - the stable descending sort of the six skills and the top three;
  - the dashboard's counts and percentages;
  - the "top strengths" line.
- `question_card.dfy` and `chat_assessment.dfy` hold one assessment question card and the wizard that steps through the questions and submits the answers.
- `header.dfy` holds the avatar initials, the XP bar and sign-out.

Replies from the API are inputs of the handlers that await them. A handler receives the resolved value, or for the progress report a rejected promise (`Thrown`).

Where the code and the design text disagree, the model follows the code:

- With a zero (unknown) duration, a report with any positive watched time divides to +Infinity and so completes the resource (`Api.SendProgressHeartbeat`, `Api.CompletionExamples`).
- The end-of-media path calls `onComplete` even on an already completed session (`VideoPlayer.EndPathRepeatsCompletion`, `VideoPlayer.EndedTwiceCompletesTwice`). Only the heartbeat path guards against a second call.

## Model

| member | source | states |
|---|---|---|
| Types.AllResources | project/app/dashboard/page.tsx:42-52 | `flatMap` over the nodes: an empty career has no resources; membership and order are stated by `Types.InAllResources` and `Types.AllResourcesAppend` |
| Types.InAllResources | project/app/dashboard/page.tsx:42-52 | a resource is in the flattened list exactly when some node holds it |
| Types.AllResourcesAppend | project/app/dashboard/page.tsx:42-52 | flattening two runs of nodes gives the first run's resources followed by the second's, so the list keeps node order then resource order |
| Types.IndexOfResource | project/app/career-tree/page.tsx:80-84 | `findIndex` by id: the first resource with the id, or -1 exactly when none has it |
| Types.IndexOfNode | project/components/career/career-tree.tsx:107-113 | `findIndex` by node id: the first node with the id, or -1 exactly when none has it |
| JsNumbers.Div | project/lib/api.ts:312 | division of JavaScript numbers: a finite quotient for a non-zero divisor; otherwise +Infinity, -Infinity or NaN by the sign of the dividend |
| JsNumbers.Scale | project/lib/api.ts:312 | multiplying by a positive constant keeps a value finite exactly when it was, and scales the finite value |
| JsNumbers.RoundReal | project/app/dashboard/page.tsx:199 | `Math.round` gives the integer within half of the value, with halves rounding up |
| JsNumbers.Round | project/app/dashboard/page.tsx:199 | `Math.round` rounds a finite value and passes an infinity or NaN through |
| JsNumbers.Floor | project/components/video/video-player.tsx:194-195 | `Math.floor` gives the greatest integer not above the value |
| JsNumbers.Trunc | project/components/video/video-player.tsx:195 | truncation toward zero: the floor for a non-negative value, the negated floor of the negation otherwise |
| JsNumbers.Rem60 | project/components/video/video-player.tsx:195 | `% 60` takes the sign of the dividend and lies strictly within 60 of zero |
| JsNumbers.PercentOf | project/app/dashboard/page.tsx:38-40 | for a positive whole, `part / whole * 100` times the whole gives back `part * 100`; a part within the whole gives 0..100, and the whole itself gives 100 |
| Strings.NatToString | project/components/career/career-tree.tsx:175 | `String(n)` of a non-negative integer is a non-empty string of decimal digits |
| Strings.PadStart | project/components/career/career-tree.tsx:175 | `padStart` keeps a string already wide enough; otherwise it prefixes pad characters up to exactly the width |
| Strings.Split | project/components/layout/header.tsx:104 | `split` with a one-character separator gives at least one part, and no part contains the separator |
| Strings.Join | project/components/assessment/skills-radar.tsx:59 | `join` of no parts is empty, and of one part is that part |
| Strings.ToUpper | project/components/layout/header.tsx:104 | `toUpperCase` keeps the length and maps every character through the ASCII upper-case mapping |
| Strings.UpperChar | project/components/layout/header.tsx:104 | a lower-case ASCII letter maps to its capital; any other character is kept |
| Api.ThresholdArithmetic | project/lib/api.ts:311-313 | the 80% rule in plain arithmetic: at least four fifths of a positive duration; any positive watched time for a zero duration, which divides to +Infinity |
| Api.RatioCompare | project/lib/api.ts:312-313 | the ratio compared with 0.8 is the cross-multiplied comparison, with the direction set by the sign of the duration |
| Api.SendProgressHeartbeat | project/lib/api.ts:306-319 | the authority always answers with success. The reply says completed exactly when the report is an end-of-media report or at least 80% was watched, including the zero-duration case |
| Api.CompletionExamples | project/lib/api.ts:311-313 | 80 of 100 completes, 79 of 100 does not, 79 of 100 with the end flag does; 5 of 0 completes and 0 of 0 does not |
| Api.GetResourceIn | project/lib/api.ts:287-304 | success exactly when some resource of the tree has the id. A hit is the first such resource in node then resource order; a miss carries no data and the error "Resource not found" |
| Api.GetResourceFromNode | project/lib/api.ts:292-294 | a lookup hit is a resource held by one of the nodes |
| Api.GetResource | project/lib/api.ts:287-304 | `getResource` looks the id up in the mock tree: a hit has the id and is one of the tree's resources; a miss means no resource of the tree has the id and carries "Resource not found" |
| Api.GetCareerTree | project/lib/api.ts:277-285 | always succeeds with the mock career tree |
| Api.GetRecommendations | project/lib/api.ts:267-275 | always succeeds with the mock recommendation list |
| Api.GetAssessmentQuestions | project/lib/api.ts:236-244 | always succeeds with the mock question list |
| Api.InputsIgnored | project/lib/api.ts:267-285 | the career id and the skill vector make no difference to the answer |
| Api.MockIdsUnique | project/lib/api.ts:96-231 | the four mock nodes have distinct ids |
| Api.MockParentsExist | project/lib/api.ts:96-231 | every parent a mock node names is the id of a mock node |
| Api.MockOnlyRootUnlocked | project/lib/api.ts:96-231 | a mock node is unlocked exactly when it has no parent |
| Api.MockNothingCompleted | project/lib/api.ts:96-231 | no mock node and no mock resource starts completed |
| Store.AppStore.constructor | project/lib/store.ts:32-39 | the store starts with the demo user at level 1 with 250 of 1000 XP, no skills, no recommendations, no career, an empty progress table and not loading |
| Store.AppStore.SetUser | project/lib/store.ts:40 | replaces the user and nothing else |
| Store.AppStore.SetSkillVector | project/lib/store.ts:44 | replaces the skill vector and nothing else |
| Store.AppStore.SetRecommendations | project/lib/store.ts:48 | replaces the recommendations and nothing else |
| Store.AppStore.SetCurrentCareer | project/lib/store.ts:52 | replaces the current career and nothing else |
| Store.AppStore.UpdateWatchProgress | project/lib/store.ts:55-59 | the table maps the resource id to the new seconds. Every other key keeps its value, the key set only gains that id, and no other field changes |
| Store.AppStore.SetLoading | project/lib/store.ts:62-63 | replaces the loading flag and nothing else |
| Store.LastWriteWins | project/lib/store.ts:55-59 | two writes to the same key leave the table as if only the later one had been made |
| VideoPlayer.InitialSession | project/components/video/video-player.tsx:13-23 | a fresh session is paused, visible and not completed, at position 0 with last report 0. No timer is armed, and the duration is the resource's (0 when it has none) |
| VideoPlayer.HeartbeatTick | project/components/video/video-player.tsx:115-138 | see the heartbeat tick breakdown below |
| VideoPlayer.VideoEnded | project/components/video/video-player.tsx:140-161 | with a user, reports the whole duration as watched with the end flag. It sets completed and calls `onComplete` whenever the reply says completed, without looking at the prior flag; without a user nothing happens |
| VideoPlayer.GateFollowsEvents | project/components/video/video-player.tsx:97-113 | after each of the step functions `OnPlayState`, `OnVisibility`, `OnTimeUpdate` and `OnReplay` the timer is armed exactly when playing, visible and signed in; pausing or hiding clears it (`OnMetadata` only sets the duration and does not re-gate) |
| VideoPlayer.SkippedHeartbeats | project/components/video/video-player.tsx:116 | without a user, or when the position equals the last reported one, a tick changes nothing and sends nothing |
| VideoPlayer.FailuresNotResent | project/components/video/video-player.tsx:127-137 | after any tick, whatever its reply (including a rejection), a second tick at the same position sends nothing |
| VideoPlayer.CompletionLatches | project/components/video/video-player.tsx:16 | no event clears the completed flag, and a tick on a completed session never calls `onComplete` |
| VideoPlayer.EndPathRepeatsCompletion | project/components/video/video-player.tsx:154-157 | a session completed by a heartbeat at 85 of 100 seconds still calls `onComplete` again when the media ends |
| VideoPlayer.StartConsistent | project/components/video/video-player.tsx:13-23 | a fresh trace satisfies the session invariant |
| VideoPlayer.ApplyConsistent | project/components/video/video-player.tsx:97-161 | every event, as `Apply` performs it on a trace, preserves the session invariant (see below) |
| VideoPlayer.RunConsistent | project/components/video/video-player.tsx:97-161 | `Run`, the replay of any event sequence, keeps the invariant; see the event-sequence breakdown below |
| VideoPlayer.RunLatches | project/components/video/video-player.tsx:16 | over any sequence of events a completed session stays completed |
| VideoPlayer.HeartbeatCompletesAtMostOnce | project/components/video/video-player.tsx:129-132 | whatever the replies and events, the heartbeat path calls `onComplete` at most once, and not at all on a session already completed |
| VideoPlayer.NoEndEventsNoEndCompletions | project/components/video/video-player.tsx:154-157 | without end-of-media events the end path calls `onComplete` no further times |
| VideoPlayer.NoEndMeansOneCompletion | project/components/video/video-player.tsx:129-132 | a fresh player that never reaches the end of its media calls `onComplete` at most once |
| VideoPlayer.EndedTwiceCompletesTwice | project/components/video/video-player.tsx:140-161 | two end-of-media events with completing replies call `onComplete` twice |
| VideoPlayer.CarriedOver | project/app/career-tree/page.tsx:195-199 | switching the resource of the mounted player keeps the session and the user; only the reports and completion calls are counted afresh |
| VideoPlayer.Remounted | project/components/video/video-player.tsx:11-23 | a player mounted for the new resource starts from that resource's fresh trace |
| VideoPlayer.CarriedOverNeverCompletesByHeartbeat | project/components/video/video-player.tsx:129-133 | after a switch away from a completed session, no heartbeat ever calls `onComplete` for the new resource, whatever the events and replies |
| VideoPlayer.SwitchedResourceNotCompletedAsWritten | project/app/career-tree/page.tsx:195-199 | a heartbeat completes the first resource; after the switch, a heartbeat for the second is sent and answered completed, yet `onComplete` is not called |
| VideoPlayer.RemountedCompletesByHeartbeat | project/components/video/video-player.tsx:115-138 | a remounted player completes the new resource on its first completing heartbeat |
| VideoPlayer.RemountedCompletesAtMostOnce | project/components/video/video-player.tsx:129-133 | a remounted player's heartbeats call `onComplete` at most once for the new resource |
| VideoPlayer.FormatTimeReadsBack | project/components/video/video-player.tsx:193-197 | for a non-negative time the text `FormatTime` gives is minutes, a colon and exactly two second digits. Read back, the two fields give the whole seconds elapsed |
| VideoPlayer.FormatTimeExamples | project/components/video/video-player.tsx:193-197 | 0 s shows "0:00", 65.5 s "1:05" and 600 s "10:00" |
| VideoPlayer.ProgressPercentage | project/components/video/video-player.tsx:199 | 0 while the duration is not positive. Otherwise the percentage times the duration is the position times 100, it lies in 0..100 for a position within the media, and it is 100 at the end |
| VideoPlayer.PlayButton | project/components/video/video-player.tsx:163-176 | the embedded player and a missing media element get no command; otherwise the button pauses exactly when playing and plays otherwise |
| VideoPlayer.PlayerSession.constructor | project/components/video/video-player.tsx:13-23 | the mutable session starts in the initial session state |
| VideoPlayer.PlayerSession.HeartbeatEffect | project/components/video/video-player.tsx:97-113 | arms the timer exactly when playing, visible and signed in, and changes nothing else |
| VideoPlayer.PlayerSession.SetPlaying | project/components/video/video-player.tsx:217-218 | the native play and pause events perform the play-state step |
| VideoPlayer.PlayerSession.VisibilityChange | project/components/video/video-player.tsx:26-33 | `visibilitychange` sets visible to the negation of hidden and re-runs the gate |
| VideoPlayer.PlayerSession.HandleTimeUpdate | project/components/video/video-player.tsx:178-185 | the sampled time becomes the position and is written to the store's progress table under the resource id; the rest of the store is kept |
| VideoPlayer.PlayerSession.HandleLoadedMetadata | project/components/video/video-player.tsx:187-191 | the media's duration replaces the session's and nothing else changes |
| VideoPlayer.PlayerSession.Replay | project/components/video/video-player.tsx:291 | Replay resets only the position to 0 |
| VideoPlayer.PlayerSession.SendHeartbeat | project/components/video/video-player.tsx:115-138 | the handler's new state, report and completion call are exactly the heartbeat tick's |
| VideoPlayer.PlayerSession.HandleVideoEnd | project/components/video/video-player.tsx:140-161 | the handler's new state, report and completion call are exactly the end-of-media step's |
| VideoPlayer.PlayerSession.EmbedStateChange | project/components/video/video-player.tsx:71-77 | the embedded player's state sets playing exactly for PLAYING; ENDED then also runs the end-of-media step |
| CareerTreePage.MarkResources | project/app/career-tree/page.tsx:62-63 | the resource with the id is completed, and every other resource is kept as it was, in place |
| CareerTreePage.MarkNodes | project/app/career-tree/page.tsx:56-73 | every node is rewritten by the node rule `MarkNode`, in place: the node with the id gets its resources marked and its completion from `every`, the others stay |
| CareerTreePage.MarkResourceComplete | project/app/career-tree/page.tsx:53-78 | see the resource-completion breakdown below |
| CareerTreePage.MarkResourceCompleteIdempotent | project/app/career-tree/page.tsx:56-76 | completing the same resource twice gives the same career as once |
| CareerTreePage.LastResourceCompletesNode | project/app/career-tree/page.tsx:66-71 | completing the only unfinished resource of a node completes the node |
| CareerTreePage.AfterResourceComplete | project/app/career-tree/page.tsx:54 | without a selected node, a selected resource or a career nothing changes; otherwise the career is updated by the completion rule |
| CareerTreePage.NextResource | project/app/career-tree/page.tsx:80-84 | see the next-resource breakdown below |
| CareerTreePage.CompletedNodeCount | project/app/career-tree/page.tsx:149 | the count `BadgeLabel` prints before " / n completed" is at most the number of nodes, equals it exactly when all are completed, and is 0 exactly when none is |
| CareerTreePage.PositionLabel | project/app/career-tree/page.tsx:215-222 | "No resource selected" without a selection, "Resource not found" when the node lacks the id, otherwise "Resource i of n" for the first position i holding the id |
| CareerTreePage.NextControlFor | project/app/career-tree/page.tsx:225-231 | a Next button appears exactly when there is a next resource, and it is disabled exactly while the selected resource is not completed |
| CareerTreePage.RefreshSelection | project/app/career-tree/page.tsx:53-78 | the selection re-read from a career keeps the ids and, where the career holds them, takes the career's copy of the resource |
| CareerTreePage.RefreshedResourceCompleted | project/app/career-tree/page.tsx:53-78 | after completion, the re-read selected resource is completed whenever the selected node holds it |
| CareerTreePage.RefreshedNextEnabled | project/app/career-tree/page.tsx:53-78 | after completion, with the selection re-read, a selected resource that has a successor in its node leaves the Next button enabled |
| CareerTreePage.MarkKeepsPositions | project/app/career-tree/page.tsx:56-73 | marking moves no node and no resource: the ids keep their positions, and the marked resource is completed |
| CareerTreePage.NextStaysDisabledAsWritten | project/app/career-tree/page.tsx:228 | as written, the selected resource is completed in the career while the Next button built from the kept selection is still disabled |
| CareerTreePage.NextEnabledWhenRefreshed | project/app/career-tree/page.tsx:228 | with the selection re-read after completion, the same Next button is enabled |
| CareerTreePage.RoadmapPage.constructor | project/app/career-tree/page.tsx:20-22 | the page starts with no node or resource selected and the panel closed |
| CareerTreePage.RoadmapPage.LoadCareerTree | project/app/career-tree/page.tsx:30-37 | a successful reply becomes the current career, a failed one keeps the old; loading ends false and nothing else in the store changes |
| CareerTreePage.RoadmapPage.HandleNodeClick | project/app/career-tree/page.tsx:39-46 | a locked node changes nothing. Otherwise it is selected, and a node with resources selects its first resource and opens the panel |
| CareerTreePage.RoadmapPage.HandleResourceComplete | project/app/career-tree/page.tsx:53-78 | as written: only the store's career changes, by the completion rule, and the selection is kept |
| CareerTreePage.RoadmapPage.HandleResourceCompleteRefreshed | project/app/career-tree/page.tsx:53-78 | the corrected handler: the career changes by the completion rule and the selection is re-read from the updated career |
| CareerTreePage.RoadmapPage.HandleNextResource | project/app/career-tree/page.tsx:86-96 | selects the next resource when there is one; otherwise closes the panel and clears the node and the resource |
| CareerTreePage.RoadmapPage.ClosePanel | project/app/career-tree/page.tsx:187 | the close button hides the panel and keeps the selection |
| CareerTreeView.NodeColor | project/components/career/career-tree.tsx:44-55 | green when completed (locked or not), gray when locked, otherwise the palette colour at index mod 9 |
| CareerTreeView.GreenNodes | project/components/career/career-tree.tsx:44-55 | a node is drawn green exactly when it is completed, or unlocked at an index that is 5 mod 9 |
| CareerTreeView.NodeIcon | project/components/career/career-tree.tsx:34-42 | the video icon exactly when some resource plays, the book exactly when none plays and some is an article, the play icon exactly when all are tasks |
| CareerTreeView.ResourceIconByKind | project/components/career/career-tree.tsx:229 | each previewed resource gets the icon of its own kind |
| CareerTreeView.NodeBadge | project/components/career/career-tree.tsx:169-177 | a check for a completed node, a lock for a locked one, otherwise the one-based position padded to two characters with '0' |
| CareerTreeView.NumberLabelReadsBack | project/components/career/career-tree.tsx:175 | the number label has at least two digits, reads back as the one-based position, and starts with '0' for the first nine nodes |
| CareerTreeView.Preview | project/components/career/career-tree.tsx:227-232 | the preview is the first min(n, 3) resources of the node |
| CareerTreeView.MoreLabel | project/components/career/career-tree.tsx:233-237 | "+(n-3) more resources" appears exactly when there are more than three resources; otherwise the preview is the whole list |
| CareerTreeView.CountLabel | project/components/career/career-tree.tsx:222 | the count reads "n resource" for exactly one resource and "n resources" otherwise |
| CareerTreeView.ActionButton | project/components/career/career-tree.tsx:240-251 | no button on a locked node; otherwise "Review" when completed and "Start Learning" when not |
| CareerTreeView.LinesFromSound | project/components/career/career-tree.tsx:107-113 | each line drawn for the nodes from a position on is for a node there or later with a non-empty parent id held by some node, and it starts at the first node holding that id |
| CareerTreeView.LinesFromComplete | project/components/career/career-tree.tsx:107-113 | every node from a position on whose parent id is non-empty and held by some node gets its line |
| CareerTreeView.LinesFromOrdered | project/components/career/career-tree.tsx:107-113 | the lines come in strictly increasing node order |
| CareerTreeView.ConnectionLines | project/components/career/career-tree.tsx:107-113 | see the connection-line breakdown below |
| CareerCard.MatchColor | project/components/career/career-card.tsx:16-21 | green from 90, blue from 80 below 90, yellow from 70 below 80, gray below 70, each exactly on its band |
| CareerCard.MatchLabel | project/components/career/career-card.tsx:55-57 | Perfect from 90, Great from 80 below 90, Good from 70 below 80, Potential below 70, each exactly on its band |
| CareerCard.BandsAgree | project/components/career/career-card.tsx:16-21 | the colour and the label of a score name the same band, and a higher score never falls in a lower band |
| CareerCard.CardIndex | project/components/career/career-card.tsx:86 | the first card whose career has the id, or -1 exactly when none has it |
| CareerCard.SelectionIdentifiesCard | project/components/career/career-card.tsx:86 | with distinct ids, the id `SelectedId` hands on from a card's explore button names that very card |
| SkillRanking.SkillList | project/app/dashboard/page.tsx:54-65 | the skill vector gives six named skills in a fixed order |
| SkillRanking.Insert | project/app/dashboard/page.tsx:66 | inserting adds exactly one skill and keeps all the others |
| SkillRanking.InsertSorted | project/app/dashboard/page.tsx:66 | inserting into a descending list keeps it descending |
| SkillRanking.InsertAt | project/app/dashboard/page.tsx:66 | the insertion point lies within the list |
| SkillRanking.InsertPosition | project/app/dashboard/page.tsx:66 | the new skill goes right after the leading skills worth strictly more, so it stays ahead of every later skill of equal value: the sort is stable |
| SkillRanking.InsertAtBounds | project/app/dashboard/page.tsx:66 | the skills ahead of the insertion point are worth more, and the one after it is not |
| SkillRanking.SortByValue | project/app/dashboard/page.tsx:66 | the sort gives a descending permutation of its input |
| SkillRanking.SortedSplit | project/app/dashboard/page.tsx:66 | cutting a descending list gives a descending front that together with the rest holds the same skills, with nothing behind the cut above the front |
| SkillRanking.Top | project/app/dashboard/page.tsx:66 | `slice(0, n)` of the ranking has min(n, size) skills in descending order |
| SkillRanking.TopDrawnFromInput | project/app/dashboard/page.tsx:66 | every selected skill is one of the input, and none is taken more often than it occurs |
| SkillRanking.TopDominates | project/app/dashboard/page.tsx:66 | every selected skill is worth at least every skill left out |
| Dashboard.CountCompleted | project/app/dashboard/page.tsx:42-47 | the completed count is at most the list's length, equals it exactly when every resource is completed, and is 0 exactly when none is |
| Dashboard.ResourceCounts | project/app/dashboard/page.tsx:42-52 | `CompletedResources` never exceeds `TotalResources`, both are 0 without a career, and they are equal exactly when every resource is completed |
| Dashboard.CountCompletedAppend | project/app/dashboard/page.tsx:42-47 | counting completed resources adds up over concatenation |
| Dashboard.MarkResourcesCount | project/app/dashboard/page.tsx:42-47 | marking a resource complete never lowers a node's completed count |
| Dashboard.MarkNodesCount | project/app/dashboard/page.tsx:42-52 | marking a resource complete keeps the total and never lowers the completed count |
| Dashboard.CompletionNeverLowersProgress | project/app/career-tree/page.tsx:53-78 | completing a resource on the roadmap keeps the dashboard's total and never lowers its completed count |
| Dashboard.LevelProgress | project/app/dashboard/page.tsx:38-40 | for a positive maximum the progress times the maximum is 100 times the XP, within 0..100 for XP up to the maximum; a zero maximum gives +Infinity, -Infinity or NaN by the sign of the XP |
| Dashboard.PercentComplete | project/app/dashboard/page.tsx:199 | NaN for a career without resources; otherwise a whole number in 0..100 within half a point of the exact completed share |
| Dashboard.PercentCompleteFull | project/app/dashboard/page.tsx:199 | a career with resources, all of them completed, shows 100 |
| Dashboard.PercentCompleteNone | project/app/dashboard/page.tsx:199 | a career with resources, none of them completed, shows 0 |
| Dashboard.TopSkills | project/app/dashboard/page.tsx:54-67 | nothing without a skill vector; otherwise the first three of the ranking, in descending order |
| Dashboard.Render | project/app/dashboard/page.tsx:24-36 | the assessment prompt exactly when there is no user. Otherwise the stats show the level progress and the top skills, a completed count within the total, and a percentage exactly when there is a career |
| SkillsRadar.Names | project/components/assessment/skills-radar.tsx:58 | `map(s => s.name)` keeps the length and takes each skill's name |
| SkillsRadar.StrengthsLine | project/components/assessment/skills-radar.tsx:55-59 | three names of skills from the input, those of the top three of the ranking, joined with ", " |
| SkillsRadar.TopStrengths | project/components/assessment/skills-radar.tsx:9 | nothing exactly when there is no skill vector; otherwise the strengths line of its six skills |
| SkillsRadar.StrengthsFromNames | project/components/assessment/skills-radar.tsx:55-58 | when every skill's name is allowed, every listed name is allowed |
| SkillsRadar.StrengthsAreFixedSkills | project/components/assessment/skills-radar.tsx:11-18 | every listed name is one of the six fixed skill names |
| QuestionCard.InitialValue | project/components/assessment/question-card.tsx:35-37 | the earlier answer's value when there is one, else 5 for a slider, else the empty text |
| QuestionCard.InitialAnswered | project/components/assessment/question-card.tsx:44 | `IsAnswered` (any number, or text other than ''): without an earlier answer a card starts answered exactly when it is a slider; a numeric earlier answer always counts as answered |
| QuestionCard.ProgressPercent | project/components/assessment/question-card.tsx:58 | for a number within 1..total, a finite percentage in 0..100 within half a point of the exact share, and 100 on the last question; a zero total gives +Infinity |
| QuestionCard.SliderMin | project/components/assessment/question-card.tsx:116-117 | the question's minimum unless it is missing or 0, in which case 1 |
| QuestionCard.SliderMax | project/components/assessment/question-card.tsx:123-125 | the question's maximum unless it is missing or 0, in which case 10 |
| QuestionCard.NavigationButtons | project/components/assessment/question-card.tsx:145-156 | Previous is disabled exactly on the first question and Next exactly while unanswered; Next reads "Complete" on the last question |
| QuestionCard.Card.constructor | project/components/assessment/question-card.tsx:35-37 | a card starts from its initial value |
| QuestionCard.Card.HandleAnswer | project/components/assessment/question-card.tsx:39-42 | keeps the new value and reports it tagged with the question's id |
| ChatAssessment.WithoutQuestion | project/components/assessment/chat-assessment.tsx:39 | the filter keeps exactly the answers to other questions and is no longer than its input |
| ChatAssessment.WithoutQuestionAppend | project/components/assessment/chat-assessment.tsx:39 | filtering distributes over concatenation |
| ChatAssessment.WithoutQuestionIdempotent | project/components/assessment/chat-assessment.tsx:39 | filtering twice is filtering once |
| ChatAssessment.RecordAnswer | project/components/assessment/chat-assessment.tsx:38-41 | the new answer is last and is the only one for its question; the answers to other questions are the old ones |
| ChatAssessment.RecordAnswerKeepsOthers | project/components/assessment/chat-assessment.tsx:39 | the answers to other questions are exactly the old ones, in their old order |
| ChatAssessment.RecordAnswerIdempotent | project/components/assessment/chat-assessment.tsx:38-41 | giving the same answer twice leaves the table as giving it once |
| ChatAssessment.FindAnswer | project/components/assessment/chat-assessment.tsx:44 | none exactly when no answer is for the question; otherwise the first answer for it |
| ChatAssessment.CurrentAnswer | project/components/assessment/chat-assessment.tsx:43-45 | the answer for the question on screen, none when the index is past the list |
| ChatAssessment.AnswerReadBack | project/components/assessment/chat-assessment.tsx:38-45 | after answering the question on screen, the wizard hands the same answer back and the card starts from the value given |
| ChatAssessment.Wizard.constructor | project/components/assessment/chat-assessment.tsx:19-23 | the wizard starts with no questions, on index 0, with no answers, not submitted and no results |
| ChatAssessment.Wizard.LoadQuestions | project/components/assessment/chat-assessment.tsx:29-36 | a successful reply replaces the questions, a failed one keeps them; loading ends false and nothing else changes |
| ChatAssessment.Wizard.HandleAnswer | project/components/assessment/chat-assessment.tsx:38-41 | the answer table becomes the recorded table and nothing else changes |
| ChatAssessment.Wizard.HandleNext | project/components/assessment/chat-assessment.tsx:47-64 | see the submission breakdown below |
| ChatAssessment.Wizard.HandlePrevious | project/components/assessment/chat-assessment.tsx:66-70 | steps back only when above 0, and keeps the index on a question |
| ChatAssessment.Wizard.CardPosition | project/components/assessment/chat-assessment.tsx:171-174 | first exactly at index 0, last exactly at the final index, and the question number is the index plus one |
| ChatAssessment.Wizard.PositionInRange | project/components/assessment/chat-assessment.tsx:171-174 | on a valid wizard the number lies in 1..total; first means number 1 and last means number = total |
| Header.FirstChars | project/components/layout/header.tsx:104 | each part contributes its first character, and an empty part contributes nothing |
| Header.WordStarts | project/components/layout/header.tsx:104 | the reference reading of the initials holds no spaces and is no longer than the name |
| Header.JoinEmptyIsConcat | project/components/layout/header.tsx:104 | joining with the empty separator is plain concatenation |
| Header.FirstCharsOfSplit | project/components/layout/header.tsx:104 | the first characters of the space-split parts are the characters that start a word |
| Header.InitialsAreWordStarts | project/components/layout/header.tsx:104 | `Initials` is the upper-cased word-start characters of the name, in order; leading, trailing or doubled spaces add nothing |
| Header.SingleWordInitial | project/components/layout/header.tsx:104 | a name without a space has one initial: its first character, upper-cased |
| Header.NoSpaceNoStarts | project/components/layout/header.tsx:104 | inside a word no later character starts a word |
| Header.HeaderLevelProgress | project/components/layout/header.tsx:29-32 | 0 without a user, otherwise the dashboard's XP percentage, within 0..100 for XP up to a positive maximum |
| Header.Section | project/components/layout/header.tsx:77-131 | Sign In / Sign Up exactly when there is no user; otherwise the user's level, XP, progress and initials |
| Header.SignOut | project/components/layout/header.tsx:24-27 | the store forgets the user and nothing else, and the header then shows Sign In / Sign Up |

Longer rows:

- `VideoPlayer.HeartbeatTick`, the heartbeat tick:
  - A report is sent exactly when the timer is armed, a user is signed in and the position has moved since the last report.
  - The report carries the position, the duration, no end flag and the visibility, for that user and resource.
  - After a sent report, the last reported position is the current one, whatever the reply.
  - `onComplete` is called exactly when the reply says completed and the session was not already completed.
  - Nothing else changes.
- `VideoPlayer.ApplyConsistent` and `VideoPlayer.RunConsistent`, the invariant over any sequence of events:
  - an armed timer implies playing and visible;
  - the latest heartbeat's position is the last reported one;
  - consecutive heartbeats report different positions;
  - every heartbeat says visible and not ended;
  - any completion call leaves the session completed.
- `CareerTreePage.MarkResourceComplete`, the resource-completion rule:
  - In the selected node the selected resource is completed.
  - That node is completed exactly when all its resources are.
  - Every other node and resource, and the career's other fields, are unchanged.
- `CareerTreePage.NextResource`:
  - It gives the resource after the selected one, none without a node.
  - An id that is not found gives the first resource.
  - Getting none for a held resource means it is the last one (or shares the last one's id).
- `CareerTreeView.ConnectionLines`:
  - Each line runs from a node to the first node holding the id that its parent names.
  - Every node with a non-empty parent id held by some node gets a line.
  - Every line's child has such a parent.
  - No node gets two lines.
- `ChatAssessment.Wizard.HandleNext`, the submission:
  - Before the last question it advances and submits nothing.
  - On the last question it submits exactly when a user is signed in.
  - A successful reply stores the skill vector and shows the results; a failed one changes neither.
  - Loading ends false after a submission.
  - The index stays on a question.

## Left out

- Timers and listeners are replaced by discrete events: `setInterval`/`clearInterval`, the `visibilitychange` subscription and the effect's re-run on every position change. The gate is re-evaluated on exactly the events that change its inputs. The ten-second period is a named constant only.
- Loading the YouTube IFrame API and constructing the player are foreign script calls and are left out. Only its state change enters the model (`EmbedStateChange`), together with the one-second position poll (`HandleTimeUpdate`).
- Simulated network delays, the axios instance, console logging and the random skill generator of `submitAssessment` are left out. They are I/O or nondeterminism; replies are parameters of the handlers instead.
- The `Math.sin` node layout and all animation, markup and styling are left out as floating-point geometry and presentation.
- IEEE rounding of finite numbers is not modelled: finite values are exact reals, and only the zero-denominator outcomes (Infinity, NaN) are explicit.
- VideoPlayer.PlayerSession.SendHeartbeat: the report's reply is resolved within the same step. Events arriving while the request is in flight, and React's stale closures over state, are not modelled.
- VideoPlayer.PlayerSession.HandleTimeUpdate: the `onProgress` callback to the parent is not modelled; only the session and the store are.
- VideoPlayer.PlayerSession.constructor: a `PlayerSession` is one mount for one resource. The page renders the player without a `key` (project/app/career-tree/page.tsx:195-199), so when the selection moves on, the mounted player keeps its state for the new resource. That carry-over is modelled on values only (`VideoPlayer.CarriedOver`, see "## Findings"), not as a method of the class.
- VideoPlayer.PlayerSession.EmbedStateChange: the embedded player's `onStateChange` is built once per resource, so its end report uses the `user`, `isVisible` and `duration` of the render that built the player, and it still reports and calls `onComplete` after a sign-out mid-video. The model reads the current state instead.
- VideoPlayer.HeartbeatTick: a `Tick` event stands for ten seconds passing without any event that re-runs the heartbeat effect. Every position sample re-runs it and restarts the interval (project/components/video/video-player.tsx:113). During continuous playback, with samples every second or faster, no heartbeat fires at all, and the 80% rule can only complete after a stall of ten seconds or more. The model lets a tick fire whenever the timer is armed, which allows more traces than the code does; the safety lemmas hold for all of them.
- Header.Initials: `toUpperCase` is modelled for ASCII letters only; Unicode case mapping is not modelled. A string is a sequence of whole characters, while `n[0]` in JavaScript is one UTF-16 code unit, so a name starting outside the Basic Multilingual Plane yields half a surrogate pair there and a whole character here.
- Header.SignOut: the navigation to `/` after sign-out is left out, as is navigation after selecting a career.
- CareerCard.SelectedId: the explore button's `onSelect(career.id)` is stated through `CareerCard.SelectionIdentifiesCard`; the recommendations page's navigation is not part of this model.
- Dashboard.LevelProgress: for a negative maximum only finiteness is stated.
- QuestionCard.ProgressPercent: outside 1..total only the zero-total case is stated.
- SkillRanking.SortByValue: stability is stated through `InsertPosition` (each skill is placed before every later skill of equal value), not as a lemma over the whole sort. No concrete rankings are written out.
- The roadmap node's hover state and the info card's visibility are presentation and are left out.
- The following files are static, glue or build configuration and are not part of this model:
  - project/app/page.tsx, project/app/about/page.tsx, project/app/layout.tsx;
  - project/app/recommendations/page.tsx and project/app/assessment/page.tsx;
  - project/components/career/recommendations-grid.tsx;
  - project/next.config.js;
  - project/__tests__/core-flow.test.tsx.
- project/types/index.ts holds declarations only. It is the source of the datatypes in `types.dfy`.

## Findings

| source | as written | input that shows it | evidently intended | confidence | as-written member | corrected member |
|---|---|---|---|---|---|---|
| project/app/career-tree/page.tsx:53-78 | `handleResourceComplete` rewrites only the store's career, and the selected resource keeps the copy it had; the Next button (line 228) reads that copy's `completed` | the roadmap's root node with its first video selected and then completed | once the selected resource is completed, the Next button is enabled | medium, not executed | CareerTreePage.NextStaysDisabledAsWritten | CareerTreePage.NextEnabledWhenRefreshed |
| project/app/career-tree/page.tsx:195-199 | the player is rendered without a `key`, so switching the selected resource keeps the mounted player's `isCompleted`, position, duration and last reported position; the heartbeat's `!isCompleted` guard (project/components/video/video-player.tsx:129) then blocks `onComplete` for the new resource | complete the first video of the root node by a heartbeat, select the node again and press Next to its second video | each resource gets a fresh player session, so its own heartbeat can complete it | medium, not executed | VideoPlayer.SwitchedResourceNotCompletedAsWritten | VideoPlayer.RemountedCompletesByHeartbeat |

The corrected page handler is `CareerTreePage.RoadmapPage.HandleResourceCompleteRefreshed`. It re-reads the selection from the updated career (`CareerTreePage.RefreshSelection`), and `CareerTreePage.RefreshedResourceCompleted` proves that the re-read resource is completed. The as-written handler is `CareerTreePage.RoadmapPage.HandleResourceComplete`.

For the second row, `VideoPlayer.CarriedOver` is the as-written switch and `VideoPlayer.CarriedOverNeverCompletesByHeartbeat` shows that no heartbeat can complete the new resource after it. The corrected switch is `VideoPlayer.Remounted`, which is what a `key` per resource would give. `VideoPlayer.RemountedCompletesByHeartbeat` and `VideoPlayer.RemountedCompletesAtMostOnce` prove the intended behaviour: one heartbeat completion for the new resource. The `PlayerSession` class models one such mount.
