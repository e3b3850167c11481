# Verified model of the bridge's cores

The bridge connects a desk robot to a language model.  This project models the parts of it
whose correctness does not show in any single function, and proves what they promise over all
inputs and all runs.

- **Motion renderer** (`MotionSpec`, `HeadGeometry`, `HeadRate`, `MotionDocument`,
  `MotionRenderer`, `MotionLaws`, `MotionShape`, `MotionStyle`): a choreography spec becomes a seven-track
  document.  The head's speed is bounded on the whole path, not only at the samples it was
  solved from, and every document is valid, evenly timed and within its budget.
- **Spec text** (`SpecText`, `SpecReading`, `SpecNames`, `SpecRoundTrip`): printing a spec and reading it back
  with the lenient parser, with the exact condition under which nothing is lost.
- **Sentence assembler** (`Streaming`, `StreamingShape`): how a stream is cut into deltas never
  matters, and the chunks are the text itself.
- **Motion chains and their budget** (`MotionChains`, `MotionChainLaws`,
  `MotionDispatch`): one motion in flight,
  advanced by three kinds of signal, under a shared sliding-window budget.
- **Echo suppression** (`EchoLedger`, `EchoLedgerLaws`, `EchoRetry`): oldest-first consumption is
  optimal, and what a retry still recognises.
- **Event queue** (`EventQueue`, `EventQueueLaws`, `EventTurns`): order in the user lane through retries,
  crashes and restarts.
- **Priority gate** (`PriorityGate`) and **reaction bank** (`ReactionBank`): foreground calls
  preempt background generation; background jobs supersede one another.
- **Reply delivery** (`ReplyDelivery`, `ReplyPaths`, `ReplyWitness`): one answer per message through every failure.
- **Retrieval** (`RankFusion`, `Retrieval`, `RecallLaws`): fused ranking, retrieval by period, an even spread.
- **Token rotation** (`TokenRotation`) and **delivery self-heal** (`DeliveryMonitor`).

Objects that change their fields are classes whose methods are proved equal to functions on
values; the laws are about those functions.  Concurrent parts are step relations: one step is
one transaction, or one stretch of code between two suspension points, and a run is any
sequence of steps.  `dafny verify dfyconfig.toml` checks everything.

## Where the code does less than its documentation

These are proved as lemmas, with the exact condition beside them where one exists.

- A spec does not always survive being stored.  Cleaning a name is not idempotent, because the
  cut to 16 characters can leave a space at the end (`SpecNames.CleaningTwice`,
  `SpecRoundTrip.AcceptedAndLost`); an embedded beat marker, more than six beats, or a beat both
  accented and held are lost as well.  `SpecRoundTrip.RoundTripIff` is the exact condition for
  every fallback name, `RecallIff` what is left of it when a stored motion is recalled.
- A motion cue can be stranded when an event's own time is passed as the clock, or when due
  times are moved after a cue was used (`MotionChainLaws.StrandsIff`, `LaggingClockStrands`,
  `ReanchoringStrands`).
- A motion cue queued by the running program is stored without the priority of its kind, so that
  it waits behind other signals, however late they came, until the tables are opened again
  (`EventTurns.CueIsPassedOverIff`, `CueIsPassedOver`).
- A reply that was streamed but could not be saved makes the retry remember a reply that was
  never spoken: a whole reply was spoken exactly when the flag read before sending was not set
  (`ReplyDelivery.WholeTurnWasSpokenIff`, `ReplyWitness.UnspokenTurn`).
- A chunk that was heard although its send raised is missing from the stored and remembered
  reply; a remembered streamed reply is all that was heard of its stream exactly when there was no
  such chunk (`ReplyDelivery.StreamedTurnWasSpokenIff`, `ReplyWitness.HeardAndForgotten`).
- An echo is consumed before its event is completed, so that a retry may take the robot's own
  words for a message: by content it recognises them exactly when another send of the same text
  is still open (`EchoRetry.RetryIsRecognisedIff`, `OneSendIsNotEnough`, `AnsweredItself`).
- A webhook that arrives while the monitor applies a remedy or backs off proves nothing to it,
  although any webhook after a probe is documented as proof
  (`DeliveryMonitor.WebhookIsForgottenIff`, `ForgottenFromTheStart`).
- When no stored vector is similar enough, retrieval is documented to answer exactly what text
  search answers.  It does so exactly when there are as many vector candidates as turns asked
  for, or as turns that match (`Retrieval.TextAloneIff`, `FewerThanTextAlone`); the configuration
  allows fewer.
- Retrieval by period returns too few turns exactly when more than 200 are still to be filled in
  after the topical ones; the configuration sets no such limit (`Retrieval.PeriodIsAnswered`,
  `OnlyTheCapComesBack`).

## Model

| member | source | states |
|---|---|---|
| `HeadGeometry.SamplesBoundPath` | `bridge/src/bocco_bridge/motion_spec.py:604-626` | 129 closed samples bound the path speed at every parameter in [0,1], up to one part in 8192 |
| `HeadGeometry.PeakIsLargest` | `bridge/src/bocco_bridge/motion_spec.py:604-626` | the sampled peak is the largest of the sampled speeds |
| `HeadGeometry.PathMovesBySpeed` | `bridge/src/bocco_bridge/motion_spec.py:569-601` | between any two parameters the path moves by exactly the mean of its speeds at both ends and, four times, in the middle: the speed sampled is that of the path |
| `HeadGeometry.PathEnds` | `bridge/src/bocco_bridge/motion_spec.py:569-584` | the path runs from its first point to its last |
| `MotionLaws.NeededIsLeast` | `bridge/src/bocco_bridge/motion_spec.py:743-758` | the time of a movement is the least that respects its floor and keeps every sampled speed at its target rate |
| `MotionLaws.SegmentRateLaw` | `bridge/src/bocco_bridge/motion_spec.py:743-758` | a movement given enough time keeps to its target rate, one part in 8192 over, at every point of its path |
| `MotionLaws.MovementRateLaw` | `bridge/src/bocco_bridge/motion_spec.py:709-778` | every movement of a head track, started where the one before it ended, keeps to its own target rate on its whole path |
| `MotionShape.ArrivesAt` | `bridge/src/bocco_bridge/motion_spec.py:786-795` | movement i arrives at its pose and belongs to that pose's beat; the one after all of them goes home |
| `MotionShape.MovementIs` | `bridge/src/bocco_bridge/motion_spec.py:798-818` | a movement to a beat takes 600 ms at least and aims at the rate of the beat's energy; a drift aims at a rate below any and takes 760 or 900 ms, plus a random draw of its own; the way home is as calm as a calm beat |
| `MotionShape.DrawsAre` | `bridge/src/bocco_bridge/motion_spec.py:709-778` | as many draws were made before a movement as there are drifts among those before it |
| `MotionShape.RefusedIff` | `bridge/src/bocco_bridge/motion_spec.py:755-758` | there is no track at a scale exactly when some movement needs more than 1,600 ms |
| `MotionShape.GroupsAreTheirMovements` | `bridge/src/bocco_bridge/motion_spec.py:772-778` | the track joins for 250 ms, and a beat's time is that of the movements that arrive in it |
| `MotionShape.NoCorners` | `bridge/src/bocco_bridge/motion_spec.py:918-988` | at every inner pose the path arrives in the direction and with the reach in which it leaves |
| `MotionShape.TurnIs` | `bridge/src/bocco_bridge/motion_spec.py:947-975` | at an inner pose the way out is half way between the neighbours; where that is short beside the longer chord it is square to the way in instead, just over half the longer chord long, to alternate sides |
| `MotionShape.HandleIsAThird` | `bridge/src/bocco_bridge/motion_spec.py:976-987` | the reach of a handle is a third of that turn, which is cut to a tenth more than the shorter chord or four degrees |
| `MotionShape.CutKeepsDirection` | `bridge/src/bocco_bridge/motion_spec.py:976-982` | cutting a vector to a length keeps its direction |
| `MotionShape.EndsAlongTheChord` | `bridge/src/bocco_bridge/motion_spec.py:936-946` | the path sets out along its first chord and comes in along its last |
| `MotionShape.HandleIsDrawnBack` | `bridge/src/bocco_bridge/motion_spec.py:735-742` | a handle that would fall on the end of its movement is drawn back by a fifth of the movement and two degrees more |
| `MotionRenderer.CollectKeyframes` | `bridge/src/bocco_bridge/motion_spec.py:723-727` | the keyframes run from neutral through every pose of every beat back to neutral |
| `MotionRenderer.TimeSegments` | `bridge/src/bocco_bridge/motion_spec.py:729-770` | all movements with their times, or a refusal exactly when one of them would exceed the ceiling |
| `MotionRenderer.GroupDurations` | `bridge/src/bocco_bridge/motion_spec.py:772-778` | the group durations cut from the movement times, equal to the specified ones |
| `MotionLaws.DurationsTotal` | `bridge/src/bocco_bridge/motion_spec.py:772-778` | cutting the movement times into groups loses and adds no time |
| `MotionRenderer.BuildHead` | `bridge/src/bocco_bridge/motion_spec.py:709-778` | the head track of these beats at one scale, with the random draws consumed in order, or none |
| `MotionRenderer.PlanHead` | `bridge/src/bocco_bridge/motion_spec.py:679-706` | the beats kept and their track, equal to the specified search, whose result MotionLaws.PlanIsLargest pins |
| `MotionLaws.PlanIsLargest` | `bridge/src/bocco_bridge/motion_spec.py:691-706` | what is kept is the longest prefix with a track that fits; the track is the one with two drifts in each hold if that fits, else the one with a single drift, at the largest of the scales 1, 0.8, 0.64 and 0.5 at which there is one; if not even the first beat fits, it is the minimal figure |
| `MotionLaws.PlanIsGood` | `bridge/src/bocco_bridge/motion_spec.py:679-706` | what is kept is a prefix of the beats; its plan fits, ends neutral, is valid and safe; and no longer prefix fits |
| `MotionRenderer.BuildMinimalHead` | `bridge/src/bocco_bridge/motion_spec.py:818-872` | the minimal figure: the first loop, stepping down, that is slow enough, or standing still |
| `MotionLaws.MinimalIs` | `bridge/src/bocco_bridge/motion_spec.py:835-872` | a quarter of the time, 250 ms at most, to join, and then the widest loop that keeps to 50 degrees a second, in steps of half a degree from 15 or from what a straight way out and back would allow, or standing still if none does |
| `MotionLaws.LoopIs` | `bridge/src/bocco_bridge/motion_spec.py:847-849` | the loop leaves and comes back alike on both sides |
| `MotionLaws.MinimalTakesAllTime` | `bridge/src/bocco_bridge/motion_spec.py:835-872` | the minimal figure takes all the time there is |
| `MotionLaws.MinimalIsGood` | `bridge/src/bocco_bridge/motion_spec.py:818-872` | for every budget the minimal figure fits it (1 ms at least), ends neutral and keeps below the top rate everywhere |
| `MotionStyle.AccentIsSmaller` | `bridge/src/bocco_bridge/motion_spec.py:891-913` | an accent's pose is no farther out on either axis than the same beat's without the accent |
| `MotionStyle.ScaleShrinks` | `bridge/src/bocco_bridge/motion_spec.py:691-701` | a smaller scale never moves a pose outwards |
| `MotionStyle.LeftMirrorsRight` | `bridge/src/bocco_bridge/motion_spec.py:891-913` | left and right directions give mirror-image poses |
| `MotionStyle.PoseFollowsDirection` | `bridge/src/bocco_bridge/motion_spec.py:891-913` | at every scale that is used the head turns to the side the direction names, and up or down as it says; where it says neither, up and down take turns |
| `MotionStyle.LookingRight` | `bridge/src/bocco_bridge/motion_spec.py:891-913` | the poses of looking to the right at full scale, for each energy, accented or not |
| `MotionStyle.RoundTies` | `bridge/src/bocco_bridge/motion_spec.py:907-912` | a component half way between two degrees becomes the even one |
| `MotionStyle.EnergyGrows` | `bridge/src/bocco_bridge/motion_spec.py:891-913` | more energy never means a smaller pose, and always a faster movement and a brighter light |
| `MotionStyle.OnlyHoldsDrift` | `bridge/src/bocco_bridge/motion_spec.py:875-888` | only a held beat drifts, from its pose to one side and up and then to the other and down, beginning left and right in turns |
| `MotionStyle.NeverASlide` | `bridge/src/bocco_bridge/motion_spec.py:737-742` | the second handle of a movement never coincides with its end |
| `MotionRenderer.RenderAntenna` | `bridge/src/bocco_bridge/motion_spec.py:1014-1063` | one antenna transition per group, each from the position before |
| `MotionLaws.AntennaIsGood` | `bridge/src/bocco_bridge/motion_spec.py:1014-1063` | the antenna starts and ends at rest, chains without jumps, keeps one mode, is valid and uses every group's time |
| `MotionStyle.AntennaFollowsBeats` | `bridge/src/bocco_bridge/motion_spec.py:1025-1041` | the antenna shakes exactly when some beat is energetic or accented, the harder the more energy, an accent hardest, and otherwise sways up or down with the beats |
| `MotionStyle.ShakeIs` | `bridge/src/bocco_bridge/motion_spec.py:1066-1070` | the amplitude and frequency of each beat's shaking |
| `MotionStyle.ShakesHarder` | `bridge/src/bocco_bridge/motion_spec.py:1066-1070` | more energy shakes wider and faster, an accent most |
| `MotionStyle.AntennaEndsStill` | `bridge/src/bocco_bridge/motion_spec.py:1028-1041` | the antenna starts and ends still |
| `MotionStyle.SwayIs` | `bridge/src/bocco_bridge/motion_spec.py:1073-1078` | a calm beat sways up or down as far as it looks, or half as far in turns where it looks neither up nor down |
| `MotionRenderer.RenderLeds` | `bridge/src/bocco_bridge/motion_spec.py:1081-1110` | the five light tracks, equal to the specified colour of each light in each group |
| `MotionLaws.LedsAreGood` | `bridge/src/bocco_bridge/motion_spec.py:1081-1135` | every light track is valid and uses every group's time |
| `MotionStyle.OneBodyLight` | `bridge/src/bocco_bridge/motion_spec.py:1101-1109` | exactly one body light is lit during a coloured beat, in rotation, and none otherwise |
| `MotionStyle.CheeksDiffer` | `bridge/src/bocco_bridge/motion_spec.py:1095-1100` | the two cheeks show the same light only when both are dark |
| `MotionStyle.CheeksShowTheBeats` | `bridge/src/bocco_bridge/motion_spec.py:1089-1100` | the left cheek shows the beat's colour, the right one that of the beat before, or of the first; around the beats the left cheek is dark |
| `MotionStyle.Brightness` | `bridge/src/bocco_bridge/motion_spec.py:1113-1123` | lights are as bright as their beat's energy, an accent fully, the right cheek 45 and the body light 70 darker |
| `MotionStyle.EaseFollowsAccent` | `bridge/src/bocco_bridge/motion_spec.py:1092-1094` | an accent snaps to its colour; everything else fades |
| `HeadRate.SampleTransition` | `bridge/src/bocco_bridge/motion_spec.py:492-516` | peak rate and reach over 257 midpoints, infinite without duration or where the timing curve stands still |
| `HeadRate.HeadRateReport` | `bridge/src/bocco_bridge/motion_spec.py:435-478` | the report per transition, over the path the head will really take |
| `HeadRate.RateIs` | `bridge/src/bocco_bridge/motion_spec.py:492-566` | a commanded rate is the speed of the path times the slope of the timing curve, over the time in seconds, or infinite |
| `HeadRate.JoinsCommandNothing` | `bridge/src/bocco_bridge/motion_spec.py:435-478` | joins command nothing, and a track of joins alone stays where it is |
| `HeadRate.SafeIff` | `bridge/src/bocco_bridge/motion_spec.py:426-432` | a report is safe exactly when every sample of every moving transition keeps to 120 degrees a second and stays in the box |
| `HeadRate.LinearTiming` | `bridge/src/bocco_bridge/motion_spec.py:519-566` | on the linear curve every sampled progress is in [0,1] and the slope is exactly 1 |
| `MotionDocument.ValidateHead` | `bridge/src/bocco_bridge/custom_motions.py:387-532` | accepts exactly the head tracks, with real or missing angles, that meet the format's limits and total time |
| `MotionDocument.ValidateAntenna` | `bridge/src/bocco_bridge/custom_motions.py:387-532` | accepts exactly the valid antenna tracks |
| `MotionDocument.ValidateLed` | `bridge/src/bocco_bridge/custom_motions.py:387-532` | accepts exactly the valid light tracks |
| `MotionDocument.ValidateMotionDocument` | `bridge/src/bocco_bridge/custom_motions.py:387-532` | accepts exactly the documents with all seven tracks valid |
| `MotionDocument.DocumentFormat` | `bridge/src/bocco_bridge/custom_motions.py:387-532` | a valid document has seven tracks of at most 35 transitions, the antenna of 15, none over ten seconds |
| `MotionDocument.HeadFormat` | `bridge/src/bocco_bridge/custom_motions.py:387-532` | a head transition: endpoints within 45 and 20 degrees, handles within 120, up to ten seconds |
| `MotionDocument.AntennaFormat` | `bridge/src/bocco_bridge/custom_motions.py:387-532` | an antenna transition: amplitude up to 1, frequency up to 20, positions of both ends or of neither |
| `MotionDocument.LedFormat` | `bridge/src/bocco_bridge/custom_motions.py:387-532` | a light transition: four channels of a byte each |
| `MotionLaws.Checked` | `bridge/src/bocco_bridge/motion_spec.py:659-676` | the checks on the way out refuse a good document for excursion only, and exactly when a sample leaves the box |
| `MotionLaws.RenderMotionDocument` | `bridge/src/bocco_bridge/motion_spec.py:634-676` | no beats is the only other error than excursion; the document is always valid, its seven totals equal and within the budget, neutral at the end, and slow enough on the whole path |
| `SpecText.ParseMotionSpec` | `bridge/src/bocco_bridge/motion_spec.py:294-330` | the lenient parser's loop computes the specified name and beats, or its two errors, on any Unicode text |
| `SpecReading.BeatOfLineIs` | `bridge/src/bocco_bridge/motion_spec.py:316-327` | a beat has the first direction, colour and energy named on its line, or the middle ones; it is an accent if any word says so, else held if any does; an unlabelled line is a beat exactly when it names a direction or a colour |
| `SpecReading.BeatLineIs` | `bridge/src/bocco_bridge/motion_spec.py:220-223` | the body of a beat line is what follows one of its labels, white space and at most one stop, bracket or colon |
| `SpecReading.NameLineIs` | `bridge/src/bocco_bridge/motion_spec.py:216-219` | one of the labels of a name, white space and a colon of either width: the rest is the name |
| `SpecReading.NameLinesStartSo` | `bridge/src/bocco_bridge/motion_spec.py:216-219` | nothing else is a name line |
| `SpecReading.MarkerIs` | `bridge/src/bocco_bridge/motion_spec.py:224` | a text is cut where a beat label, white space and a colon of either width stand |
| `SpecReading.Vocabulary` | `bridge/src/bocco_bridge/motion_spec.py:96-180` | what the English words and the Japanese ones mean |
| `SpecRoundTrip.BeatRoundTrip` | `bridge/src/bocco_bridge/motion_spec.py:253-259` | every printed beat line is read back as its beat, except that an accented one is no longer held |
| `SpecRoundTrip.ParseShape` | `bridge/src/bocco_bridge/motion_spec.py:294-330` | whatever is parsed has a name of at most 16 characters with ordinary spacing and one to six beats, none both accented and held |
| `SpecRoundTrip.WritableSurvives` | `bridge/src/bocco_bridge/motion_spec.py:269-330` | a spec with a cleaned unmarked name and one to six proper beats is read back as it was, whatever the fallback name |
| `SpecRoundTrip.RoundTripIff` | `bridge/src/bocco_bridge/motion_spec.py:269-330` | for every fallback name, parse(print(spec)) is the spec exactly when its name is clean and unmarked, or cannot be read and is what the fallback is cleaned to |
| `SpecRoundTrip.WritableIff` | `bridge/src/bocco_bridge/motion_spec.py:294-330` | without a fallback these are exactly the writable specs |
| `SpecRoundTrip.RestoredByFallback` | `bridge/src/bocco_bridge/motion_spec.py:328` | a name cut to nothing but closing brackets survives with its fallback and not without |
| `SpecRoundTrip.RecallIff` | `bridge/src/bocco_bridge/events.py:1979-1984` | recalled with its own stored name as fallback, a parsed spec is itself exactly when its name is clean and unmarked or restored |
| `SpecRoundTrip.StoredWhole` | `bridge/src/bocco_bridge/repertoire.py:143-145` | stripping and the 500-character cut leave the text of every parsed spec alone |
| `SpecNames.CleaningTwice` | `bridge/src/bocco_bridge/motion_spec.py:394-399` | cleaning a name is not idempotent: the cut at 16 characters can leave a space |
| `SpecRoundTrip.AcceptedAndLost` | `bridge/src/bocco_bridge/motion_spec.py:294-330` | a name of 15 characters, a space and more, is accepted by the parser, which yields a spec that is lost on the next round trip, even with its own name as fallback |
| `SpecRoundTrip.CutNamesDoNotSurvive` | `bridge/src/bocco_bridge/motion_spec.py:394-399` | a spec whose name was cut in the middle of a phrase is not read back as it was printed, unless the fallback is cut to it |
| `SpecRoundTrip.ParsedSurvivesIff` | `bridge/src/bocco_bridge/motion_spec.py:294-330` | what was parsed from any text survives being printed and parsed, with any fallback, exactly when its name is clean and unmarked or restored by the fallback |
| `Streaming.CompleteSentencePrefix` | `bridge/src/bocco_bridge/streaming.py:9-23` | the longest prefix that ends in a terminator |
| `Streaming.SentenceAssembler.Feed` | `bridge/src/bocco_bridge/streaming.py:55-71` | the chunks emitted and the new buffer and count, as specified on values |
| `Streaming.SentenceAssembler.Flush` | `bridge/src/bocco_bridge/streaming.py:73-91` | the final chunk, if anything speakable is left, and an empty buffer |
| `Streaming.SentenceAssembler.SentenceBoundary` | `bridge/src/bocco_bridge/streaming.py:93-114` | the specified boundary of the buffer |
| `Streaming.BoundaryCorrect` | `bridge/src/bocco_bridge/streaming.py:93-114` | the boundary is the end of the first run of terminators, exactly when another character follows it |
| `Streaming.BoundaryStable` | `bridge/src/bocco_bridge/streaming.py:93-114` | a completed sentence stays the same when more text arrives |
| `Streaming.FeedSplit` | `bridge/src/bocco_bridge/streaming.py:55-71` | feeding a and then b emits and leaves what feeding a+b does |
| `Streaming.SplitsAgree` | `bridge/src/bocco_bridge/streaming.py:55-71` | any two ways of cutting the same text into deltas emit the same chunks and leave the same state |
| `Streaming.ReplyConserved` | `bridge/src/bocco_bridge/streaming.py:55-91` | a whole reply is at most max_chunks chunks with exactly the speakable characters of the text, or of its completed sentences |
| `StreamingShape.StripCut` | `bridge/src/bocco_bridge/streaming.py:63-70` | stripping removes exactly the white space around |
| `StreamingShape.ReplyVerbatim` | `bridge/src/bocco_bridge/streaming.py:55-91` | the chunks are verbatim pieces of the text, in order, with nothing speakable between them |
| `StreamingShape.EarlyChunksAreSentences` | `bridge/src/bocco_bridge/streaming.py:55-71` | every chunk before the flush is exactly one trimmed sentence |
| `StreamingShape.SentencesGoOutAtOnce` | `bridge/src/bocco_bridge/streaming.py:55-71` | after any deltas all but the last chunk allowed have been emitted, or no completed sentence waits in the buffer |
| `StreamingShape.ThreeTerminators` | `bridge/src/bocco_bridge/streaming.py:93-114` | exactly three characters end a sentence |
| `StreamingShape.SpacesAre` | `bridge/src/bocco_bridge/streaming.py:63-70` | the white space that is stripped, character by character |
| `MotionChains.EventDatabase.ReserveMotionBudgetSlot` | `bridge/src/bocco_bridge/db.py:998-1015` | prunes, counts and reserves one slot, as specified |
| `MotionChains.EventDatabase.ReserveAndClaimMotion` | `bridge/src/bocco_bridge/db.py:2072-2116` | claims the next motion when budget allows, otherwise abandons the chain |
| `MotionChains.EventDatabase.EnsureMotionChain` | `bridge/src/bocco_bridge/db.py:1413-1480` | creates a chain and its due events once per source |
| `MotionChains.EventDatabase.DispatchDueMotion` | `bridge/src/bocco_bridge/db.py:1497-1531` | sends the due motion only if the chain rests exactly before it |
| `MotionChains.EventDatabase.CompleteCustomMotion` | `bridge/src/bocco_bridge/db.py:1556-1631` | finishes the motion sent and claims the next if it is ready |
| `MotionChains.EventDatabase.RecordMessageAnchor` | `bridge/src/bocco_bridge/db.py:1650-1754` | picks the message most recently sent to the room within ten seconds and not yet anchored, and moves the pending due times of its chain to the anchor |
| `MotionChains.EventDatabase.AdvanceOnTalkFinished` | `bridge/src/bocco_bridge/db.py:1913-2070` | hears the end of a talk and claims the chain's next motion, as specified; MotionDispatch pins which chain hears it and what is sent |
| `MotionChains.EventDatabase.AdvanceOnMotionFinished` | `bridge/src/bocco_bridge/db.py:1913-2070` | advances the latest chain of the room whose motion in flight is of that kind |
| `MotionDispatch.TalkIsHeardBy` | `bridge/src/bocco_bridge/db.py:1913-1980` | the end of a talk is heard by the chain created last among those that still wait for it, those whose spoken text was heard before the others |
| `MotionDispatch.FinishIsHeardBy` | `bridge/src/bocco_bridge/db.py:1980-2021` | the end of a motion is heard by the chain created last of those that have it in flight |
| `MotionDispatch.SlotIff` | `bridge/src/bocco_bridge/db.py:2081-2096` | although rows are pruned, there is a slot exactly when fewer calls than the limit were made in the last minute |
| `MotionDispatch.SendsExactlyWhen` | `bridge/src/bocco_bridge/db.py:2022-2116` | for every operation: it sends the next motion of a chain exactly when a talk or a motion ended, a cue is due, or a delivery was confirmed while the chain rests before that motion, and there is a slot; without a slot the chain is abandoned; nothing else of it is sent |
| `MotionDispatch.NewChainIsCued` | `bridge/src/bocco_bridge/db.py:1413-1477` | a chain is created once, with one cue per motion at the time it is due |
| `MotionDispatch.AnchorMovesDue` | `bridge/src/bocco_bridge/db.py:1650-1754` | the first time a message is heard to play its chain's motions become due at their distances from that moment; a second time changes nothing |
| `MotionDispatch.AnchorMovesCues` | `bridge/src/bocco_bridge/db.py:1720-1754` | the cues still waiting move with them |
| `MotionDispatch.CuesStay` | `bridge/src/bocco_bridge/db.py:1413-2170` | a cue goes by being processed or at a restart, and moves only when put back or anchored |
| `MotionChainLaws.NextFaithful` | `bridge/src/bocco_bridge/db.py:1413-1631` | one step keeps the counters of every chain and dispatches at most the next motion of one chain |
| `MotionChainLaws.RunFaithful` | `bridge/src/bocco_bridge/db.py:1413-2170` | over every run: finished <= sent <= min(finished+1, length), endings are final, and what was dispatched for a chain is a prefix of it without repeats |
| `MotionChainLaws.EndedIsSilent` | `bridge/src/bocco_bridge/db.py:2072-2170` | a chain that has ended, by completion, expiry, failure or restart, is never touched again and sends nothing more, over any run |
| `MotionChainLaws.AbandonedIsSilent` | `bridge/src/bocco_bridge/db.py:2128-2137` | once a chain is abandoned none of its motions is ever sent again |
| `MotionChainLaws.RestartSilencesAll` | `bridge/src/bocco_bridge/db.py:2144-2170` | after a restart no cue is pending and no chain of before ever sends anything |
| `MotionChainLaws.FaithfulFromTheStart` | `bridge/src/bocco_bridge/db.py:1413-2170` | from the empty tables, every run: counters in order, and what was sent of a chain is a prefix of it |
| `MotionChainLaws.RunBudget` | `bridge/src/bocco_bridge/db.py:998-1015` | with one non-decreasing clock any minute window holds at most the budget of motion calls, on all paths together, though rows are pruned |
| `MotionChainLaws.BudgetFromTheStart` | `bridge/src/bocco_bridge/db.py:998-1015` | the same from the empty tables, for every minute |
| `MotionChainLaws.StrandsIff` | `bridge/src/bocco_bridge/db.py:1497-1631` | a step newly strands a cue exactly under the stated condition on its clock and anchor |
| `MotionChainLaws.RunStrandsNone` | `bridge/src/bocco_bridge/db.py:1497-2065` | with one clock and no re-anchoring no active chain ever rests without its due event pending |
| `MotionChainLaws.NoneStrandedFromTheStart` | `bridge/src/bocco_bridge/db.py:1413-2065` | the same from the empty tables |
| `MotionChainLaws.LaggingClockStrands` | `bridge/src/bocco_bridge/events.py:2249-2256` | a run from the empty tables in which a clock that lags behind the others strands a cue |
| `MotionChainLaws.ReanchoringStrands` | `bridge/src/bocco_bridge/db.py:1701-1741` | a run from the empty tables, with one clock, in which moving the due times after a cue was used strands the next one |
| `EchoLedger.Ledger.RecordDelivery` | `bridge/src/bocco_bridge/db.py:1081-1117` | prunes and remembers one sent message |
| `EchoLedger.Ledger.RecordChunk` | `bridge/src/bocco_bridge/db.py:1159-1204` | prunes and remembers one streamed chunk |
| `EchoLedger.Ledger.ConsumeEcho` | `bridge/src/bocco_bridge/db.py:2283-2368` | suppresses a webhook by id, else by the oldest open send of the same text, else lets it pass |
| `EchoLedger.SelectOldest` | `bridge/src/bocco_bridge/db.py:2328-2361` | the first open row in order of time and then key |
| `EchoLedgerLaws.GreedyIsAssignment` | `bridge/src/bocco_bridge/db.py:2283-2347` | each send suppresses at most one echo, later than it and inside the window |
| `EchoLedgerLaws.GreedyIsMaximum` | `bridge/src/bocco_bridge/db.py:2283-2347` | no pairing of echoes with distinct sends inside the window suppresses more echoes than oldest-first does |
| `EchoLedgerLaws.EchoStepPicks` | `bridge/src/bocco_bridge/db.py:2326-2347` | an incoming webhook with an unknown id does to the whole messages what oldest-first does |
| `EchoLedgerLaws.LedgerIsMaximum` | `bridge/src/bocco_bridge/db.py:2283-2347` | over any run of the ledger's own operations no pairing suppresses more echoes than the ledger does |
| `EchoRetry.RecognisedIff` | `bridge/src/bocco_bridge/db.py:2283-2368` | an attempt recognises an echo exactly when its id is remembered or a send of its text is open |
| `EchoRetry.SendIsRecognisedIff` | `bridge/src/bocco_bridge/db.py:2283-2368` | the echo of the one send of a text, whole or streamed, is recognised by content exactly while the window lasts |
| `EchoRetry.IdIsRecognisedIff` | `bridge/src/bocco_bridge/db.py:1089-1096` | a send is recognised by its new id for a day, or for the window if that is longer |
| `EchoRetry.AttemptUses` | `bridge/src/bocco_bridge/db.py:2336-2368` | an attempt that recognises by content uses up exactly one open send, any other none |
| `EchoRetry.RetryIsRecognisedIff` | `bridge/src/bocco_bridge/events.py:1005-1021` | the retry of a recognised echo, after any unrelated sends, is recognised by id as long as the id is remembered, by content exactly when a send is open besides the one used up |
| `EchoRetry.OneSendIsNotEnough` | `bridge/src/bocco_bridge/events.py:1005-1021` | one send, one echo: when the attempt that consumed the send is cut short the retry does not recognise it |
| `EchoRetry.AnsweredItself` | `bridge/src/bocco_bridge/events.py:1005-1021` | such a run, from the empty ledger |
| `EventQueue.Select` | `bridge/src/bocco_bridge/db.py:543-577` | the first ready row in a deciding order, or none if none is ready |
| `EventQueue.EventTable.Enqueue` | `bridge/src/bocco_bridge/db.py:482-511` | inserts an event once, with the priority of its type; EventTurns pins the order this gives |
| `EventQueue.EventTable.ClaimNext` | `bridge/src/bocco_bridge/db.py:533-597` | acknowledgements first, then the head of the user lane or nothing while it backs off, then the most urgent |
| `EventTurns.AcksGoFirst` | `bridge/src/bocco_bridge/db.py:48-64` | of rows queued by kind, the earliest acknowledgement that is ready is claimed before anything else |
| `EventTurns.UsersGoNext` | `bridge/src/bocco_bridge/db.py:533-577` | otherwise, while a user's message is pending, the earliest pending one is claimed, or nothing while it backs off |
| `EventTurns.RestTakesTurns` | `bridge/src/bocco_bridge/db.py:48-64` | otherwise radar and acceleration go before the signals of motions and recordings, these before other events, and scheduled ones last; jobs with a runner of their own are never claimed |
| `EventTurns.RunByKind` | `bridge/src/bocco_bridge/db.py:482-657` | nothing that happens to an event changes its place |
| `EventTurns.CueIsPassedOverIff` | `bridge/src/bocco_bridge/db.py:1457-1477` | a motion cue inserted by the running program does not have the place of its kind until the tables are opened again: when it would be its turn it is passed over exactly when another signal, an event of another kind, or another such cue that comes first is ready |
| `EventTurns.CueIsPassedOver` | `bridge/src/bocco_bridge/db.py:411-434` | a cue due at 1 is passed over at 3 for the end of a motion that came in at 2 |
| `EventQueueLaws.ClaimIsInTurn` | `bridge/src/bocco_bridge/db.py:533-597` | when a user message is claimed every user message before it is done |
| `EventQueueLaws.RunSound` | `bridge/src/bocco_bridge/events.py:2503-2558` | over every run, with failures, back-off, cancellation, crashes and restarts: a claimed user message found all earlier ones, queued by then, done |
| `EventQueueLaws.StrictlyInOrder` | `bridge/src/bocco_bridge/db.py:516-597` | messages stamped in the order they were queued are taken strictly in that order |
| `EventQueueLaws.DoneStaysDone` | `bridge/src/bocco_bridge/db.py:620-657` | a completed or dead-lettered message is never touched again |
| `EventQueueLaws.RunTries` | `bridge/src/bocco_bridge/events.py:2541-2548` | a user message is tried at most the configured number of times, plus once per interruption |
| `EventQueueLaws.AttemptIsCounted` | `bridge/src/bocco_bridge/events.py:2503-2558` | a claim counts an attempt of one row; it ends completed, or failed and pending after the back-off, or dead-lettered when no attempt is left, or cancelled and pending at once; no other row is touched |
| `EventQueueLaws.UninterruptedTries` | `bridge/src/bocco_bridge/events.py:2541-2548` | as long as nothing is cancelled and nothing crashes, no user message is tried more often than configured |
| `EventQueueLaws.InterruptionIsCounted` | `bridge/src/bocco_bridge/events.py:2503-2558` | each interruption of its processing, by a cancellation or a crash, is counted, and so allows it one more try |
| `EventQueueLaws.WaitingIsKept` | `bridge/src/bocco_bridge/db.py:533-643` | a user message that is not yet available stays exactly as it is, whatever else happens, restarts included |
| `EventQueueLaws.BackoffIsKept` | `bridge/src/bocco_bridge/events.py:2541-2548` | a failed message with attempts to spare is not tried again before a back-off that doubles with every attempt |
| `EventQueueLaws.RestartResumes` | `bridge/src/bocco_bridge/db.py:513-597` | a crash and a restart lose no user message, leave a finished one alone and every other pending with its attempts, and the first one not done is what is claimed next |
| `EventQueueLaws.FromTheStart` | `bridge/src/bocco_bridge/events.py:2503-2558` | from the empty queue, every run: user messages in order, and none tried more often than allowed |
| `PriorityGate.RunSound` | `bridge/src/bocco_bridge/reaction_generation.py:67-147` | in every interleaving at most one backend call is in flight, and a waiter never leaves a background call running unasked to stop |
| `PriorityGate.NobodyOvertakes` | `bridge/src/bocco_bridge/reaction_generation.py:74-130` | while a foreground turn waits no background call starts |
| `PriorityGate.ArrivalCancels` | `bridge/src/bocco_bridge/reaction_generation.py:67-80` | an arrival cancels exactly the background call in flight |
| `PriorityGate.InterruptStopsTheCall` | `bridge/src/bocco_bridge/reaction_generation.py:67-72` | background work can be interrupted at any time, and exactly the call in flight is asked to stop; so is one whose own task is cancelled |
| `PriorityGate.TurnIsGivenBack` | `bridge/src/bocco_bridge/reaction_generation.py:74-147` | over every run the turn is taken exactly when somebody holds it, and who may go next follows from that |
| `PriorityGate.CleanUpFreesOwnTurn` | `bridge/src/bocco_bridge/reaction_generation.py:138-144` | cleaning up after a background call frees the turn, which was its own, and forgets the call |
| `PriorityGate.FromTheStart` | `bridge/src/bocco_bridge/reaction_generation.py:55-147` | from a new gate, every run: one call in flight at most, the counter is the number of waiters, a background call they wait for was asked to stop, and the turn is free exactly when nobody holds it |
| `RankFusion.RankBySimilarity` | `bridge/src/bocco_bridge/embeddings.py:346-392` | the most similar ids of distinct rows: readable and at or above the floor, as many as the limit allows, each before or instead of another only with a higher similarity, or an equal one and the higher id |
| `RankFusion.SimilarIs` | `bridge/src/bocco_bridge/embeddings.py:371-392` | the specified ranking is that list |
| `RankFusion.BestAreMostSimilar` | `bridge/src/bocco_bridge/embeddings.py:391-392` | the best of the negated scores are the most similar |
| `RankFusion.BothBeatOne` | `bridge/src/bocco_bridge/embeddings.py:395-419` | an id that both searches have among their first 61 beats every id that only one of them has, were it the first there |
| `RankFusion.Place62IsATie` | `bridge/src/bocco_bridge/embeddings.py:395-419` | at place 62 in both it does no better than the first of one of them, and the higher id wins |
| `RankFusion.ReciprocalRankFusion` | `bridge/src/bocco_bridge/embeddings.py:395-418` | the best ids by summed reciprocal rank, ties to the higher id: distinct, ranked, as many as the limit and the union allow |
| `RankFusion.BestIsUnique` | `bridge/src/bocco_bridge/embeddings.py:412-418` | scores and limit determine the fused list |
| `RankFusion.FusionKeepsAgreement` | `bridge/src/bocco_bridge/embeddings.py:395-418` | an id above another wherever that one is ranked is above it in the fusion |
| `RankFusion.FusionOfOne` | `bridge/src/bocco_bridge/embeddings.py:395-418` | fusing with an empty ranking changes nothing but the limit |
| `Retrieval.Spread` | `bridge/src/bocco_bridge/transcript.py:941-990` | the even sample of a period's turns, its deduplication never removing anything |
| `Retrieval.PicksRise` | `bridge/src/bocco_bridge/transcript.py:986-990` | the rounded indices rise strictly |
| `Retrieval.SampleIsEven` | `bridge/src/bocco_bridge/transcript.py:941-990` | a sample has min(limit, n) distinct turns and, from two on, includes both ends |
| `Retrieval.TiesGoToEven` | `bridge/src/bocco_bridge/transcript.py:941-990` | an index half way between two numbers becomes the even one |
| `RecallLaws.SampleOfOne` | `bridge/src/bocco_bridge/transcript.py:941-990` | with one turn asked for the sample is the newest; with room for all it is all |
| `Retrieval.PickIsNear` | `bridge/src/bocco_bridge/transcript.py:986-990` | each index is within half a place of even spacing |
| `Retrieval.RetrieveSemantic` | `bridge/src/bocco_bridge/transcript.py:841-900` | the similarity ranking of the vectors swept, all of wanted turns |
| `RecallLaws.SemanticIs` | `bridge/src/bocco_bridge/transcript.py:841-900` | vector search gives the most similar of the newest stored vectors that may be shown |
| `RecallLaws.SweepIs` | `bridge/src/bocco_bridge/transcript.py:841-900` | the vectors swept are the newest ones that may be shown, up to the sweep's limit |
| `RecallLaws.TextSearchIs` | `bridge/src/bocco_bridge/transcript.py:993-1050` | text search gives the first of its ranking that may be shown, up to the limit, in the order of the ranking |
| `Retrieval.RetrieveHybrid` | `bridge/src/bocco_bridge/transcript.py:782-838` | the best turns of both rankings fused, or text search's candidates cut to the limit when no vector hits; distinct and wanted |
| `Retrieval.FusedCount` | `bridge/src/bocco_bridge/transcript.py:812-838` | as many turns as the two rankings hold together, up to the limit |
| `Retrieval.AgreementIsKept` | `bridge/src/bocco_bridge/transcript.py:812-838` | a turn both searches put above another comes before it in the answer |
| `Retrieval.NoHitIff` | `bridge/src/bocco_bridge/transcript.py:868-900` | the sweep finds nothing exactly when nothing swept is similar enough or nothing is asked for |
| `Retrieval.TextAloneIff` | `bridge/src/bocco_bridge/transcript.py:815-819` | without a vector hit the answer is what text search answers exactly when the candidates are as many as the limit or the matches |
| `Retrieval.FewerThanTextAlone` | `bridge/src/bocco_bridge/transcript.py:815-819` | two matches, limit two, one candidate, no vectors: one turn comes back |
| `Retrieval.RetrieveRanked` | `bridge/src/bocco_bridge/transcript.py:744-780` | exactly text search without a vector query or anything to search for, else the fused result |
| `Retrieval.RankedIsUnique` | `bridge/src/bocco_bridge/transcript.py:744-838` | only one list of turns is that result |
| `Retrieval.RetrieveTemporal` | `bridge/src/bocco_bridge/transcript.py:902-939` | the ranked result inside the period, then an even spread of the rest of it; min(limit, N) distinct turns up to a limit of 200 |
| `Retrieval.PeriodIsAnswered` | `bridge/src/bocco_bridge/transcript.py:902-990` | for every limit, the answer is as long as the period and the limit allow exactly unless more than 200 turns are still to be filled in after the topical ones |
| `Retrieval.TemporalIsUnique` | `bridge/src/bocco_bridge/transcript.py:902-990` | only one list of turns is the answer for a period |
| `Retrieval.TopicalCount` | `bridge/src/bocco_bridge/transcript.py:744-838` | how many topical ones there are: what text search gives, or the union of the two rankings, up to the limit |
| `Retrieval.OnlyTheCapComesBack` | `bridge/src/bocco_bridge/transcript.py:941-990` | asked for a whole day of n > 200 turns without a topic, exactly the newest 200 come back |
| `Retrieval.ThinDeflections` | `bridge/src/bocco_bridge/transcript.py:1053-1092` | the newest turns without the deflections older than the newest one |
| `RecallLaws.RecentAre` | `bridge/src/bocco_bridge/transcript.py:679-742` | the recent turns are, of the newest three times as many of the room, all but the deflections with a newer one among them, and of those the newest that fit |
| `Retrieval.KeptHasOne` | `bridge/src/bocco_bridge/transcript.py:1053-1092` | at most one deflection is kept, and every other turn is |
| `Retrieval.OlderDeflectionVanishes` | `bridge/src/bocco_bridge/transcript.py:1053-1092` | an older deflection might as well not have been stored: asking again does not change what is shown |
| `Retrieval.Context` | `bridge/src/bocco_bridge/transcript.py:679-742` | recent and retrieved turns are distinct, of the room and within their limits; the period's answer if it has one, otherwise the ranked search's |
| `ReactionBank.BankTable.EnqueueRefresh` | `bridge/src/bocco_bridge/db.py:2500-2567` | queues a job unless its persona has an active one, superseding all others |
| `ReactionBank.BankTable.ClaimNext` | `bridge/src/bocco_bridge/db.py:2599-2640` | claims the first due job |
| `ReactionBank.RunSound` | `bridge/src/bocco_bridge/reaction_generation.py:225-345` | in every interleaving of late runs: one active job at most, what the bank holds is what was last published there, no job writes a key twice, a completed job published all keys |
| `ReactionBank.CompletedMeansWhole` | `bridge/src/bocco_bridge/reaction_generation.py:272-345` | a job that completed without being superseded left the bank whole for its persona |
| `ReactionBank.OverIsSilent` | `bridge/src/bocco_bridge/db.py:2660-2804` | a job that is over never writes again and is never revived, whatever late calls arrive |
| `ReactionBank.QueueSupersedes` | `bridge/src/bocco_bridge/db.py:2555-2566` | queueing for another persona ends every other job, waiting or in process, and adds one that waits |
| `ReactionBank.PublishingAgainIsNothing` | `bridge/src/bocco_bridge/db.py:2660-2733` | publishing a key again, with whatever phrases, changes nothing and is reported as done |
| `ReactionBank.PutWritesIff` | `bridge/src/bocco_bridge/db.py:2660-2733` | a run writes exactly when its job is the one in process and has not published that key: the phrases it was given, under its persona, and nothing else |
| `ReactionBank.ClaimsTheEarliest` | `bridge/src/bocco_bridge/db.py:2599-2640` | the job claimed is waiting and available, the one available longest, then the one asked for first |
| `ReactionBank.PostponedIsNotClaimed` | `bridge/src/bocco_bridge/db.py:2752-2777` | a job put off is not claimed before its delay is over |
| `ReactionBank.StartTakesUp` | `bridge/src/bocco_bridge/db.py:2599-2640` | starting a run takes the job up with what it had published, and counts an attempt |
| `ReactionBank.JobIsSettled` | `bridge/src/bocco_bridge/db.py:2735-2804` | a job in process waits again for a delay that is not negative, is completed or is dropped; any other job is left alone by all three |
| `ReactionBank.LaterRunsSkipPublished` | `bridge/src/bocco_bridge/reaction_generation.py:225-345` | whichever run takes a job up later, after a retry, a preemption or a restart, is never given a key already published |
| `ReactionBank.RestartResumes` | `bridge/src/bocco_bridge/db.py:2576-2640` | after a restart the active job is the one claimed next, with all it had published |
| `ReactionBank.FromTheStart` | `bridge/src/bocco_bridge/reaction_generation.py:225-345` | from the empty tables, every run: one active job, the bank holds the phrases last published under each key, whole banks, single writes |
| `ReplyDelivery.EffectsTable.SaveResponseIfAbsent` | `bridge/src/bocco_bridge/db.py:1027-1056` | the first response saved stays and is returned |
| `ReplyDelivery.ResponseIsFinal` | `bridge/src/bocco_bridge/db.py:1027-1056` | a stored response never changes |
| `ReplyDelivery.RunSound` | `bridge/src/bocco_bridge/events.py:1065-1386` | nothing was ever sent by an attempt later than the one that recorded a delivery, and whatever was sent whole was the text that answers its message |
| `ReplyDelivery.WholeSaysFromTheStart` | `bridge/src/bocco_bridge/events.py:1065-1072` | from the empty table, over every run: a usable stored response is what every whole delivery of its message said; where an attempt found an unusable one, it said the fallback |
| `ReplyPaths.AnswersFromTheTable` | `bridge/src/bocco_bridge/events.py:1065-1072` | a response found stored is sent unless that was recorded before, as it is if usable and as the fallback if not; it is not remembered again |
| `ReplyPaths.AnswersWhole` | `bridge/src/bocco_bridge/events.py:1154-1200` | a message not answered before gets its reply: sent once, recorded, stored and remembered; a fixed line in its place is not remembered |
| `ReplyPaths.AnswersByStream` | `bridge/src/bocco_bridge/events.py:1202-1386` | a message not answered before can be answered by a stream: every sentence sent once and in order, the first recorded, all together stored and remembered |
| `ReplyDelivery.StreamIsStored` | `bridge/src/bocco_bridge/events.py:1154-1163` | over every run, what a stream held is saved as the response and remembered |
| `ReplyPaths.LostDeliveryIsTriedAgain` | `bridge/src/bocco_bridge/events.py:1192-1200` | a delivery that raised leaves the tables for the next attempt, whether or not it was heard |
| `ReplyPaths.LostChunkIsLeftOut` | `bridge/src/bocco_bridge/events.py:1222-1240` | a first sentence that could not be sent ends the stream and a whole reply is made instead; a later one is left out; one that could not be recorded is kept |
| `ReplyPaths.SingleIsMadeWhole` | `bridge/src/bocco_bridge/events.py:1154-1200` | when nothing was streamed a reply or a fixed line is made whole after all |
| `ReplyPaths.LetGo` | `bridge/src/bocco_bridge/events.py:1065-1154` | a message that needs no answer is let go, and so is an attempt that breaks off |
| `ReplyDelivery.NoSecondReply` | `bridge/src/bocco_bridge/events.py:1202-1386` | once a delivery or chunk is recorded, only further chunks of that attempt are ever sent |
| `ReplyDelivery.StreamedTurnWasSpokenIff` | `bridge/src/bocco_bridge/events.py:1222-1240` | a remembered streamed reply is the chunks of its attempt whose sends returned, and all that was heard of its stream exactly when no chunk was heard whose send raised |
| `ReplyDelivery.StreamedFromTheStart` | `bridge/src/bocco_bridge/events.py:1154-1163` | so it is, from the empty table and over every run, with every streamed reply ever remembered |
| `ReplyDelivery.WholeTurnWasSpokenIff` | `bridge/src/bocco_bridge/events.py:2054-2081` | a whole reply is remembered in any case, and was spoken exactly when the effects flag, as read before sending, was not set |
| `ReplyDelivery.ClosedTurnWasSpokenIff` | `bridge/src/bocco_bridge/events.py:1192-1200` | a remembered whole reply was spoken exactly when its own attempt recorded the delivery |
| `ReplyDelivery.FromTheStart` | `bridge/src/bocco_bridge/events.py:1065-1386` | from the empty table, over any run before and any run after: a recorded message is only ever answered by further chunks of the attempt that recorded it |
| `ReplyWitness.UnspokenTurn` | `bridge/src/bocco_bridge/events.py:1146-1200` | a stream that spoke but was not saved leads to a remembered reply nobody heard |
| `ReplyWitness.HeardAndForgotten` | `bridge/src/bocco_bridge/events.py:1230-1232` | a chunk that was heard although its send raised is missing from the remembered reply |
| `TokenRotation.TokenClient.Publish` | `bridge/src/bocco_bridge/bocco/client.py:755-762` | a save that raised publishes nothing, even if it had succeeded; otherwise the token in use is the durable one |
| `TokenRotation.RunSound` | `bridge/src/bocco_bridge/bocco/client.py:684-785` | over every interleaving: one successful refresh per access token, every token sent was durable first, at most max_retries + 2 requests per call |
| `TokenRotation.RefreshedOnce` | `bridge/src/bocco_bridge/bocco/client.py:722-762` | two successful refreshes are of two different tokens |
| `TokenRotation.LatecomersDoNotRefresh` | `bridge/src/bocco_bridge/bocco/client.py:722-729` | callers behind the lock find the rotation done and ask for nothing |
| `TokenRotation.StaleWaiterAsksForNothing` | `bridge/src/bocco_bridge/bocco/client.py:722-729` | over any run, a caller that waits with a token already replaced asks for no refresh when it gets the lock |
| `TokenRotation.FromTheStart` | `bridge/src/bocco_bridge/bocco/client.py:684-785` | from the start, every run: one success per token, durable first, bounded requests |
| `TokenRotation.RejectedIsNotResent` | `bridge/src/bocco_bridge/bocco/client.py:692-706` | the request after a 401 carries another token |
| `TokenRotation.RefreshesIff` | `bridge/src/bocco_bridge/bocco/client.py:722-731` | a caller that gets the lock refreshes exactly when the token is still the one it saw, and was rejected or is expired |
| `TokenRotation.BeginsAndSends` | `bridge/src/bocco_bridge/bocco/client.py:684-700` | a caller that finds the token expired waits for the lock, forcing nothing; any other may send the token in use at once |
| `TokenRotation.RejectionForcesRefresh` | `bridge/src/bocco_bridge/bocco/client.py:701-706` | a rejected token is refreshed even if it has not expired, unless it was rotated meanwhile; a second rejection ends the call |
| `TokenRotation.LimitedIsRetriedIff` | `bridge/src/bocco_bridge/bocco/client.py:707-717` | a call turned away for the rate is tried again exactly as often as allowed |
| `TokenRotation.ExpiredIsNotSent` | `bridge/src/bocco_bridge/bocco/client.py:684-699` | over any run in which the token it saw stays expired, a caller that begins with an expired token never sends it |
| `TokenRotation.RestartUsesTheStored` | `bridge/src/bocco_bridge/bocco/client.py:760-762` | after a restart the token that was kept is used, the new one exactly if its save had succeeded |
| `DeliveryMonitor.RunSound` | `bridge/src/bocco_bridge/delivery.py:204-375` | over every run: no cycle exceeds its probes, remedies follow the ladder without repeats, silence raises cycles a silence apart |
| `DeliveryMonitor.LookBeginsIff` | `bridge/src/bocco_bridge/delivery.py:253-271` | silence raises a cycle exactly when nothing waits to be probed, the monitor has not given up, a whole silence has passed and the hour is active; a registration is taken up first, at any hour |
| `DeliveryMonitor.NewMonitorWaits` | `bridge/src/bocco_bridge/delivery.py:212-238` | a monitor just started is quiet for a whole silence, and then probes |
| `DeliveryMonitor.SettledProbesIff` | `bridge/src/bocco_bridge/delivery.py:273-288` | the pause before a registration is probed ends with the probe exactly when no webhook came meanwhile at another moment than the last one before it |
| `DeliveryMonitor.WebhookSatisfiesRegistration` | `bridge/src/bocco_bridge/delivery.py:273-288` | a webhook that comes during that pause, later than the one before, makes the probe unnecessary |
| `DeliveryMonitor.CycleEndsAnsweredIff` | `bridge/src/bocco_bridge/delivery.py:296-348` | a cycle that ends is closed then and there, and counts as answered exactly when a webhook was heard while its probe was listened for |
| `DeliveryMonitor.GivesUpIff` | `bridge/src/bocco_bridge/delivery.py:290-361` | the monitor gives up exactly when the last allowed probe of a cycle goes unanswered, after every remedy it may try |
| `DeliveryMonitor.QuietAfterGivingUp` | `bridge/src/bocco_bridge/delivery.py:253-263` | after giving up nothing is sent until a webhook or a registration |
| `DeliveryMonitor.RearmedBySigns` | `bridge/src/bocco_bridge/delivery.py:175-199` | either of them re-arms it, and a registration is taken up at once |
| `DeliveryMonitor.WebhookIsForgottenIff` | `bridge/src/bocco_bridge/delivery.py:323-338` | a webhook during an open cycle is no proof, so that without another sign the cycle can still give up, exactly when a remedy or its back-off is under way |
| `DeliveryMonitor.BackoffWebhookIsForgotten` | `bridge/src/bocco_bridge/delivery.py:395-401` | the run in which the forgotten webhook's cycle gives up, from any such phase |
| `DeliveryMonitor.ForgottenFromTheStart` | `bridge/src/bocco_bridge/delivery.py:323-361` | one such run from a monitor just started |
| `DeliveryMonitor.WebhookDefersSilence` | `bridge/src/bocco_bridge/delivery.py:175-263` | a webhook puts off the next cycle by a whole silence, unless a registration arrives |
| `DeliveryMonitor.EndedCycleIsQuiet` | `bridge/src/bocco_bridge/delivery.py:363-375` | however a cycle ends, and whatever registration it raised itself, no other cycle begins for a whole silence |
| `DeliveryMonitor.RegistrationIsProbed` | `bridge/src/bocco_bridge/delivery.py:253-288` | a registration is probed at any hour, and after giving up, unless a webhook comes first |
| `DeliveryMonitor.FromTheStart` | `bridge/src/bocco_bridge/delivery.py:204-375` | from the start, every run is bounded in that way |

## Left out

- Numbers: floating point is replaced by exact reals; `math.hypot` is a parameter required to be
  the Euclidean length, and random draws are a parameter between -60 and 60.
- Names, request ids, rooms, personas and tokens are numbers where they are only compared, and
  hashes of texts are taken to be injective.
- SQL, JSON, schema migration, full-text search and cosine arithmetic: typed tables, arbitrary
  duplicate-free rankings and arbitrary similarities instead.
- HTTP, server-sent events, subprocesses, tunnels and application wiring: sends are logged steps
  that may fail; a failed send may or may not have been heard.
- Head excursion: rendering may refuse a document whose sampled path leaves the box, as the code
  does; only the rate, timing, format and neutral ending are claimed for every spec.
- MotionLaws.RenderMotionDocument: takes the exact real path; rounding in the last bits of the sampled
  speeds is not modelled.
- Motion document checks on malformed containers, booleans and strings disappear with the types.
- MotionChains.EventDatabase.RecordMessageAnchor: the speech calibration updated in the same
  transaction is not modelled; due times and offsets are given to a chain as parameters.
- EchoLedger.Ledger.ConsumeEcho: rows of sent media are part of the state, but the operation that inserts them is
  not modelled.
- Reactions to shaking that are dispatched directly bypass the motion budget in the code and are
  not counted; the budget law counts reservations.
- EventQueueLaws.RunSound: the runs treat every operation on rows that are not user messages as one
  arbitrary step, since the order of the user lane does not depend on them.
- ReplyDelivery.NoSecondReply: database calls that finish in their thread after the worker was cancelled are
  taken to finish before the next attempt begins.
- ReplyDelivery.RunSound: invisible format characters are stripped once more just before a whole reply is
  sent; the text sent is taken to have none left.
- PriorityGate.TurnIsGivenBack: liveness of the gate under the event loop's scheduling is not modelled, only
  who may go next.
- DeliveryMonitor.WebhookIsForgottenIff: a time-out is taken never to win against a webhook that arrives in
  the same turn of the event loop, which asyncio does not promise alike in every version.
- EchoRetry.RetryIsRecognisedIff: the sender named by a webhook, which is compared after the ledger was asked
  and does not depend on it, is not modelled.
- Command parsing, fast routes, prompts, personas, date words, deixis and Unicode normalisation:
  vocabulary without state.
- Calendar and daylight-saving handling, configuration loading, image rendering.
