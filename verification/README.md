# Nexis Echo: a verified model

Nexis Echo captures the traffic of coding agents, turns it into events on a NATS bus, turns finished
requests into speech jobs in a SQLite store, and has lease-holding workers speak those jobs in chunks. This
project models the parts of it that are hard to get right and proves what they keep. `dafny verify dfyconfig.toml`
checks all of it.

| file | what it models |
|---|---|
| `Strings.dfy` | trimming, joining and splitting of text |
| `Bus.dfy` | the overlap test on subject patterns and the merging of subject lists |
| `Subjects.dfy` | the subject of each event and the pattern that delivers it |
| `Timestamps.dfy` | RFC 3339 stamps as values and as sort keys |
| `Speech.dfy` | cleaning, chunking and summarising |
| `Store.dfy` | the events, jobs and leases tables, as a class whose methods are the store's statements |
| `Worker.dfy` | one worker iteration and the final drain, as a class |
| `Pipeline.dfy` | everything together as a state machine: one step is one statement or transaction |
| `JobSafety.dfy` | what every run keeps about events and jobs |
| `RunOrder.dfy` | what the sort keys of the store say about time, in any run |
| `Requeues.dfy` | when a retry or reset leads to another claim, and when it is undone in silence |
| `DoneEvents.dfy` | when the end of a request gets its job, and when it is lost for good |
| `LostEnds.dfy` | a run in which one is lost |
| `LeaseSafety.dfy` | when the speaker lease excludes, and that it always comes round |
| `Progress.dfy` | from any run: every queued job can still be spoken |
| `EndProgress.dfy` | from any run: an end and its answer can still come to be heard |
| `Sse.dfy` | server-sent events, printed and read |
| `ClaudeStream.dfy` | a streamed Claude response folded back into one message |
| `CodexStream.dfy` | the incremental and the batch summary of a Codex response |
| `CodexResponses.dfy` | what a Codex response says, told by its parts and frames |
| `CodexAgreement.dfy` | when the two say the same |
| `Env.dfy` | the merged environment of the captured command |
| `Gemini.dfy` | telemetry records as events in time order |

Each imperative operation is proved against a specification function or relation, and the properties are
proved of that specification. In `Store.dfy` the methods of `Database` are tied to the functions `Recorded`,
`Enqueued`, `Leased`, `Released`, `Claimed`, `MarkedDone`, `MarkedFailed`, `Retried` and `Reset`; the steps of
`Pipeline.dfy` are the same functions, so what holds of every run holds of the methods.

A state of `Pipeline.dfy` has the tables, a clock, any number of speaker loops and any number of event
handlers. A loop goes through reading the clock, acquiring, claiming, speaking each chunk, marking and
releasing, and any statement may fail or the process may die in between; a handler records its event, polls for the
answer and creates the job. Retry and the startup reset may happen at any time, also while a job is spoken.
`Legal` runs are all sequences of enabled steps. What holds of all of them would say little if few could go on, so
`Progress.dfy` and `EndProgress.dfy` prove that from every run queued jobs can still be spoken, and new ends and answers heard.

## Where the code does not do what one would expect

Each of these is a theorem below, with the exact condition.

- Two speaker loops with one owner id do not exclude each other. No run ever has two loops inside their leases if
  and only if owner ids are distinct, and the background loop and the final drain of one process share theirs.
- Go drops trailing zeros from the fraction of a stamp, so text order reverses time order for precisely the pairs
  within one second in which one fraction is a proper prefix of the other. The eldest queued job is claimed if
  and only if no queued stamp is such a partner of its own; if one is, a partner is claimed. The same holds of answers.
- A recorded end of a request gets its job, unless its handler fails on the way, if and only if the job was there
  already or the latest answer recorded when the handler stopped waiting gives something to say. Otherwise it is lost for
  good: the repeat of a recorded event is dropped, so no redelivery brings the job; only another end of the same request can.
- A mark has no status test, so the late mark of a loop that still recites a job undoes a retry or reset of it without
  another claim. A job that is queued while nobody recites it leaves the queue only by a claim.
- An `input` field on the start of a Claude tool block, even an empty object, is put in front of the fragments:
  the block survives if and only if the start carries none or the fragments are blank.
- The batch form of a Codex summary writes done texts after the deltas that they repeat. When no item brought the first text, the
  forms agree if and only if all done texts, or all after the one that came first, are blank and at the edges of the text.
- The batch form never shows an item that it collected itself, because the list it stores is not of the type it then asks for.
- When the completed frame brings no response, the batch form goes back to an earlier one and the incremental form does
  not: they agree on the calls if and only if that one brought none, and on its text if and only if what was written says it.
- An event reaches no subscription if and only if it is an error, or of unknown kind, without a role, or its subject
  shows a provider or role with white space or an empty token in it: no event of a capture named `my project` is handled.
- Among ASCII blanks, a vertical tab survives cleaning but not trimming: the gap at a cut is at most one space if and
  only if it holds none.
- The Codex reader fails on an event with empty data, where the Claude reader passes over it.
- An environment key that contains `=` cannot be looked up and takes over the variable named by its first part.
- The overlap test takes a final `>` for zero or more tokens, the bus for one or more.

## Model

| member | source | states |
|---|---|---|
| Bus.StreamSubjectsOverlap | internal/bus/client.go:256-270 | Two lists overlap exactly when some pattern of one overlaps some pattern of the other; an empty list overlaps nothing. |
| Bus.MatchedCanMatch | internal/bus/client.go:321-329 | A pattern that matches any subject at all passes the can-match-any test, under either reading of `>`. |
| Bus.AnyWitness | internal/bus/client.go:321-329 | Conversely, a pattern that passes the test has a concrete subject, which the lemma builds. |
| Bus.OverlapHasWitness | internal/bus/client.go:302-319 | Whenever the recursive test says yes there is a concrete subject matched by both patterns. |
| Bus.CommonSubjectOverlaps | internal/bus/client.go:302-319 | Whenever a subject is matched by both patterns the test says yes. |
| Bus.OverlapIsExact | internal/bus/client.go:302-333 | The test is true if and only if the two patterns share a concrete subject, with `*` one token, a final `>` zero or more and any other `>` nothing. |
| Bus.PatternsOverlapIsExact | internal/bus/client.go:295-300 | The same for dotted text: both texts non-empty and some dotted subject matched by both after splitting. |
| Bus.OverlapVersusBus | internal/bus/client.go:302-333 | Against the bus's own rule, one or more tokens under `>`, the test is wrong exactly when a `>`-free pattern is one token shorter than a compatible one that ends in `>`. |
| Bus.OneShortExample | internal/bus/client.go:331-333 | A concrete pair on which the two differ: `a` and `a.>`. |
| Bus.KnownPatterns | internal/bus/client.go:302-333 | Known patterns: a star takes one token, and a final `>` the rest. |
| Bus.MergeSubjects | internal/bus/client.go:272-293 | The merged list is the repeat-free form of the two lists one after the other. |
| Bus.DistinctIsSound | internal/bus/client.go:272-293 | That form has the same members, each once, in the order of their first occurrence. |
| Bus.MergedCovers | internal/bus/client.go:236-254 | A widened stream captures exactly the subjects that the old or the required patterns capture. |
| Subjects.PatternTokens | internal/core/subjects.go:44-54 | Each stream pattern splits into its fixed tokens and, for the open ones, a final `>`. |
| Subjects.SubjectTokens | internal/core/subjects.go:15-42 | Each event's subject starts with the fixed tokens of its kind, goes on unless the kind is closed or it is an error without a role, and has an empty token or white space exactly when a provider or role that it shows has. |
| Subjects.ExactlyOneRoute | internal/core/subjects.go:15-54 | A stream pattern delivers an event if and only if it is the pattern of its kind, the event is not a role-less error, and no provider or role that the subject shows has an empty token or white space. |
| Subjects.SubjectIdentifies | internal/core/subjects.go:15-42 | The subject of a model or tool event tells its kind, provider and role, whatever dots the role holds, if provider names hold none. |
| Subjects.HandledOnce | internal/bus/client.go:153-172 | Subscribing once per pattern calls the handler exactly once per event, and not at all exactly for role-less errors and subjects with an empty token or white space. |
| Subjects.LostEventsExample | internal/core/subjects.go:21-34 | Concrete events that nobody handles: a done agent of a capture named `my project`, or of none, and a request with the role `a..b`. |
| Subjects.KnownSubjects | internal/core/subjects.go:15-42 | The subjects of registry, model and tool events as they are written. |
| Subjects.StateSubjects | internal/core/subjects.go:19-41 | Those of agent states and of errors, with and without a role. |
| Subjects.KnownPatterns | internal/core/subjects.go:44-54 | The seven stream patterns as they are written. |
| Subjects.UnsendableMeans | internal/core/subjects.go:19-35 | A provider or role cannot stand in a subject if and only if it is empty, has a dot at an end or two in a row, or has a space, tab or line end in it. |
| Timestamps.CivilOf | internal/store/store.go:17 | Every instant breaks down into valid calendar fields that make up the same instant. |
| Timestamps.MonthStarts | internal/store/store.go:17 | The calendar in numbers: the days before each month of a common and of a leap year. |
| Timestamps.YearStart | internal/store/store.go:17 | The days before any year are 365 times the year and a day for every fourth year that is no century or a fourth century. |
| Timestamps.OneCivil | internal/store/store.go:17 | No other valid calendar fields make up an instant. |
| Timestamps.KnownStamps | internal/store/store.go:524-533 | Known texts: the epoch, and a quarter second before the end of the leap year 2024, parse to and print from the instants that they name. |
| Timestamps.Chronology | internal/store/store.go:17 | Chronological order is the order of the calendar fields, largest unit first. |
| Timestamps.StampRoundTrip | internal/store/store.go:524-533 | A stored stamp parses back to the instant it was made from, for all years 0 to 9999. |
| Timestamps.FormatInjective | internal/store/store.go:524-547 | Two instants have the same stamp only if they are equal, so ties in a sort key are ties in time. |
| Timestamps.TextLessTotal | internal/store/store.go:348 | The text order of stamps is total and strict. |
| Timestamps.TextOrderVersusTime | internal/store/store.go:348 | Text order is time order, except within one second when one trimmed fraction is a proper prefix of the other, where it is reversed. |
| Timestamps.SwappedPair | internal/store/store.go:17 | A concrete reversed pair: a tenth of a second sorts after fifteen hundredths. |
| Timestamps.RowOrderVersusTime | internal/store/store.go:348 | ORDER BY stamp and id is order by time and id if and only if the two stamps are no such pair. |
| Timestamps.StampedOrder | internal/store/store.go:348 | The same told from the stored texts alone, for any two texts that are stamps. |
| Speech.CleanIsTidy | internal/speech/mode.go:42-50 | Whatever the pattern rewrites do, cleaned text has no markers, single spaces only and no blank ends. |
| Speech.TidyFixedPoint | internal/speech/mode.go:42-50 | The final stages of cleaning leave a text alone if and only if it is tidy, so they need one pass. |
| Speech.TidyKeepsInk | internal/speech/mode.go:42-50 | The final stages lose blanks and markers only: all other characters stay, in order. |
| Speech.TidyIsWords | internal/speech/mode.go:42-50 | In one line: the final stages leave the words, that is the runs without white space and the five markers, with one space between any two. |
| Speech.CutAt | internal/speech/mode.go:68-74 | A cut always makes progress and never passes the limit. |
| Speech.CutFalls | internal/speech/mode.go:68-74 | The cut is at the last of `.`, `!`, `?` and `;` past the middle of the window, or else at the last space after its start, or else at the limit. |
| Speech.Chunk | internal/speech/mode.go:53-79 | The cutting loop terminates and yields the chunks of the cleaned text. |
| Speech.ChunksConserve | internal/speech/mode.go:53-79 | Chunks are non-empty, trimmed and within the limit, and with blank gaps they give the cleaned text back; each gap is at most one space if and only if it holds no vertical tab. |
| Speech.WideGapExample | internal/speech/mode.go:19 | A concrete text with a vertical tab of which a cut loses three blanks. |
| Speech.ShortCutThenFar | internal/speech/mode.go:68-74 | A cut in the first half of its window, together with the next one, passes half of the window; if the blanks after it hold no vertical tab the next cut alone does. |
| Speech.ChunkCountBound | internal/speech/mode.go:62-77 | The number of chunks times half the limit is at most twice the length plus half the limit. |
| Speech.FieldsConserve | internal/speech/mode.go:96-98 | Splitting into sentences drops the sentence ends and nothing else. |
| Speech.FirstSentences | internal/speech/mode.go:92-115 | The loop gives the leading sentences, trimmed, without blank ones, each closed with a full stop. |
| Speech.OpeningIdempotent | internal/speech/mode.go:92-115 | A summary splits into just the sentences that were taken, so summarising it again to that number changes nothing. |
| Speech.OpeningOfSentences | internal/speech/mode.go:92-115 | Of a text of closed sentences the summary is the first of them, word for word. |
| Speech.TruncateBounds | internal/speech/mode.go:117-126 | A truncated text fits its limit, is blank only if the text was, and is the trimmed text when that fits. |
| Speech.TruncateShape | internal/speech/mode.go:117-126 | A text that is too long keeps its beginning, less a blank end, and ends in three dots, or for a limit up to three is just cut. |
| Speech.LimitOf | internal/speech/summarizer.go:17-32 | The limit in force is the configured one if that is positive, and else 220 characters for concise speech and 650 for all other. |
| Speech.BuildBoundsAndKeeps | internal/speech/summarizer.go:34-65 | In every mode, told by its name in any letter case, speech and summary are blank exactly when the cleaned text is empty; summaries, and speech except in heavy mode (`heavy` or `high`), fit the limit; heavy speech is the whole text, and other speech is the first sentence for `concise` and the first three for all else, truncated if they do not fit. |
| Store.Database.RecordEvent | internal/store/store.go:104-132 | An empty key is an error; else the row goes in unless its key is taken, with every column as given and the event's own time if it has one, and the row under the key comes back with whether it is new. |
| Store.Database.LatestAssistantEvent | internal/store/store.go:134-149 | The first answer of the request by final, stamp and id, all descending; none exactly if no response of the request has text. |
| Store.LatestIsUnique | internal/store/store.go:140 | That order leaves one possible result. |
| Store.Database.CreateTTSJob | internal/store/store.go:151-182 | As for events, column by column, with an empty status meaning queued, an absent time meaning now and attempts at 0. |
| Store.Database.AcquireLease | internal/store/store.go:273-312 | Three cases take the lease until now plus its time: no row, the owner's own row, and a row of anybody that has expired at the time read before the transaction; else nothing changes. |
| Store.LeaseIsTaken | internal/store/store.go:293-306 | In each of the three cases the row becomes the new owner's with the new expiry, and in the fourth, a live row of another owner, all tables stay. |
| Store.UnreadableLeaseIsTaken | internal/store/store.go:524-533 | A row whose expiry does not parse reads as the zero time, so it is taken at any time after it. |
| Store.CrashedLeaseExample | internal/store/store.go:295-306 | The row of a crashed process, expired: another process takes it. |
| Store.Database.ReleaseLease | internal/store/store.go:314-320 | Only the owner's own row goes. |
| Store.Database.FirstQueued | internal/store/store.go:342-353 | The queued job that is first by stamp and id, or none if no job is queued. |
| Store.Database.ClaimNextQueuedJob | internal/store/store.go:335-392 | That job becomes speaking with a start and one more attempt, and nothing else changes. |
| Store.Database.MarkJobDone | internal/store/store.go:394-406 | The row is done, with a completion and no error; a missing id changes nothing. |
| Store.Database.MarkJobFailed | internal/store/store.go:408-420 | The row is failed, with a completion and the error. |
| Store.Database.RetryJob | internal/store/store.go:258-271 | The row is queued with no start, completion or error, whatever its status was; attempts stay. |
| Store.Database.ResetInFlightJobs | internal/store/store.go:322-333 | All speaking rows are queued with no start; all others stay. |
| Store.NextIsUnique | internal/store/store.go:342-350 | The claim query has at most one possible result. |
| Store.ClaimIsOldest | internal/store/store.go:342-350 | For any number of queued jobs: the eldest is next if and only if no queued stamp is swapped with its own, and the next is the eldest if and only if none is with its. |
| Store.ClaimTakesYounger | internal/store/store.go:342-350 | A job other than the eldest is claimed if and only if some queued stamp is swapped with the eldest's, and it is then one of those, so within the same second. |
| Store.FoundIsNewest | internal/store/store.go:134-143 | The newest answer in time is the one found if and only if no answer of its standing has a swapped stamp, and the found one is the newest under the same condition. |
| Store.UpdatesKeepSound | internal/store/store.go:258-420 | Claim, mark, retry and reset keep the shape of every row and all unique keys and ids. |
| Store.RecordKeepsSound | internal/store/store.go:104-132 | So does recording an event. |
| Store.EnqueueKeepsSound | internal/store/store.go:151-182 | Inserting a job does if and only if its key is taken or its status is empty or queued. |
| Worker.Speaker.constructor | internal/tts/worker.go:27-43 | The backend name is trimmed and lower-cased, a poll interval or lease time that is not positive becomes half a second or fifteen seconds, and the owner id is that of the process. |
| Worker.Speaker.ProcessOne | internal/tts/worker.go:74-126 | A refused lease changes nothing; with nothing queued only the lease row goes; else the next job, claimed and marked between the first and the last reading of the clock, ends done or, with the message of the call that failed, failed, has one more attempt and is heard as it should be as far as its first failing call, and the lease is given back. |
| Worker.Speaker.Recite | internal/tts/worker.go:95-120 | The calls follow the job's script up to the first failing one and are heard as it should be. |
| Worker.RecitalIsHeard | internal/tts/worker.go:95-120 | What is heard: every call goes to the job's trimmed backend, or if that is empty to the worker's, or the default, or `windows`; no text is blank; a cleaned speech of up to 4500 characters for google in any letter case, or 3500 for all others, is said in one call and a longer one in calls that fit; and the texts in order, up to a failure, are the cleaned speech but for blanks at the cuts. |
| Worker.CallsFit | internal/tts/worker.go:103-110 | A speech that cleans to nothing is said as it stands, so all calls fit the limit if and only if the cleaned speech is not empty or the trimmed raw one fits. |
| Worker.JobVoiceExample | internal/tts/worker.go:95-106 | A job for google of 4000 characters, claimed by a worker for windows: one call, to google. |
| Worker.Speaker.SpeakAll | internal/tts/worker.go:112-120 | Blank chunks are passed over, the first failing call ends the loop, and the log holds those calls in order. |
| Worker.PlayNext | internal/tts/worker.go:62-72 | Performing the next job extends a partial drain in claim order and leaves the other rows alone. |
| Worker.ClaimThenMark | internal/store/store.go:359-420 | Claiming a queued row and marking it leaves a finished row with one more attempt. |
| Worker.Speaker.ProcessPending | internal/tts/worker.go:62-72 | The drain terminates after one round per queued job and one more; each such job is performed once in claim order and heard as it should be, all other rows stay, the speech is the jobs' chunks in that order; a refused lease at the start changes nothing. |
| JobSafety.RunsAreSound | internal/store/schema.go:41-66 | In every run rows keep their shape and ids and keys stay unique, also when a job is retried or reset while it is spoken. |
| JobSafety.StepGrows | internal/store/store.go:104-420 | No step changes a recorded event or what a job was ordered with, and only job creation adds jobs. |
| JobSafety.OnlyStatementsWrite | internal/store/store.go:104-420 | A failed statement, a call to a backend and the death of a process leave all tables as they are. |
| JobSafety.RunsAreTraced | internal/echo/processor.go:71-99 | In every run each job names a recorded answer of its own capture and request with text, and its speech is the non-blank summary of that text. |
| JobSafety.OneJobPerRequest | internal/echo/processor.go:225-228 | In every run there is at most one job per capture, request, mode and backend, however events are repeated and interleaved. |
| JobSafety.RunsArePlain | internal/echo/processor.go:41-56 | In every run exactly the ends of requests are recorded as final, and only model responses carry text. |
| JobSafety.AnswerIsNewest | internal/store/store.go:134-149 | So no answer is ever final, and what a handler finds is the request's last answer by stamp text and id. |
| RunOrder.RunsAreStamped | internal/store/store.go:109-163 | In every run whose clock and event times stay below year 10000, every sort key in the tables is the stamp of an instant, for a job one that is not past the clock. |
| RunOrder.ClaimsAreChronological | internal/store/store.go:342-350 | In every such run, with any number of queued jobs, the next job is the eldest if and only if no queued stamp is swapped with its own. |
| RunOrder.AnswersAreChronological | internal/store/store.go:134-143 | In every such run the found answer is the request's latest in time if and only if no other answer's stamp is swapped with its own. |
| RunOrder.RowsTellTime | internal/store/store.go:108-116 | In every such run a recorded row reads back as the time of its delivered event, however late it was recorded, or without one as a moment not past the clock. |
| RunOrder.AnswersAreChronologicalAsDelivered | internal/store/store.go:134-143 | So, among answers with times of their own, the found one is the latest by the times that the delivered events claim if and only if no other's is swapped with its own. |
| JobSafety.RunsAreSourced | internal/echo/processor.go:32-59 | In every run each recorded row says in all columns what an event delivered earlier to a processor of that capture said, and has its time, or without one that of a moment not past the clock. |
| JobSafety.MatchIsAddress | internal/echo/processor.go:201-206 | An event belongs to a capture by its stable id, and by its role only when it has none. |
| JobSafety.AssistantTextMeans | internal/echo/processor.go:135-149 | Only a model response with a payload has assistant text; it is tidy and keeps all that is neither blank nor marker. |
| JobSafety.JobsSpeakDeliveredAnswers | internal/echo/processor.go:32-101 | End to end: in every run each job's speech is the summary, by a processor of its own capture, mode and backend, of the text of a model response delivered in that run for the same capture and request. |
| JobSafety.RunExtends | internal/store/store.go:104-182 | Whatever follows, events stay as recorded and jobs as ordered. |
| JobSafety.ReplayChangesNothing | internal/echo/processor.go:45-62 | Handling an event again at any later point changes no table and ends its handler. |
| JobSafety.JobKeysDiffer | internal/echo/processor.go:225-228 | With an injective hash and NUL-free parts, two job keys are equal if and only if all four parts are. |
| JobSafety.EventKeysDiffer | internal/echo/processor.go:208-223 | Likewise events with equal keys are equal, so only true repeats are dropped. |
| JobSafety.AnsweredRequestHasJob | internal/echo/processor.go:83-100 | After the create step of a handler with something to say, the request has its job, if the hash is injective and the processors' settings and the delivered requests hold no NUL. |
| DoneEvents.RunsKeepOwnersApart | internal/echo/processor.go:45-71 | In every run a recorded end of a request is in the hands of at most one handler. |
| DoneEvents.RunsTell | internal/echo/processor.go:103-115 | In every run a handler that stopped waiting is over, or ready with the answer that was the latest at that place. |
| DoneEvents.DoneEventSettles | internal/echo/processor.go:71-100 | A recorded end leaves its handler's hands by that handler's create step, timeout or failure. Unless it fails, its order is in the table afterwards if and only if it was there before, or the latest answer recorded when the handler stopped waiting gives something to say. |
| DoneEvents.SettledForGood | internal/echo/processor.go:60-62 | After that no handler ever takes it up again, however often it is delivered. |
| DoneEvents.LostUntilAnotherEnd | internal/echo/processor.go:45-100 | If it was settled without its order, the order comes in no continuation by a redelivery, but only by a handler of another event with another key. |
| LostEnds.LostEndRun | internal/echo/processor.go:108-115 | A run in which an end is recorded, its handler times out and the answer comes a moment later: there is no job, and by the lemmas above no redelivery brings one. |
| JobSafety.AttemptsAreClaims | internal/store/store.go:359-364 | In every run attempts equal the number of claims, which is at most one plus the retries and resets that queued the job again. |
| JobSafety.ClaimsAreExclusive | internal/store/store.go:335-392 | In every run, leases or not, between two claims of a job a retry or reset queued it again. |
| Requeues.LeavesQueue | internal/store/store.go:359-420 | A queued job leaves the queue only by a claim or by the mark of a loop that still recites it. |
| Requeues.RequeueLeadsToClaim | internal/store/store.go:258-333 | In every run a job that is queued while no loop recites it stays queued until it is claimed again. |
| Requeues.LostRetry | internal/store/store.go:394-406 | From any run in which a loop has spoken a job to its end, a retry of it is undone by the loop's mark: the job is done, with no further attempt. |
| LeaseSafety.LiveLeaseRefuses | internal/store/store.go:293-300 | A lease that has not expired is free to its own owner only. |
| LeaseSafety.RunsAreGuarded | internal/tts/worker.go:79-85 | With distinct owners, in every run, whoever is between acquire and release and inside its lease has its own row with its own expiry, whatever loops that overran theirs do. |
| LeaseSafety.AtMostOneInside | internal/tts/worker.go:79-85 | So in every such run at most one loop is inside its lease, and while it is no other owner can acquire, however stale the time it acquires with. |
| LeaseSafety.TimelyRunsAreExclusive | internal/tts/worker.go:79-85 | In a state of such a run in which no loop has overrun its lease, at most one is between acquire and release. |
| LeaseSafety.LateStepsSpareTheHolder | internal/store/store.go:314-320 | In every such run, after any step of another loop, a late claim, mark, release or shutdown included, the holder is still inside with its own row and still keeps every other owner out. |
| LeaseSafety.SharedOwnerRun | internal/echo/run.go:144-207 | Two loops with one owner id have a run in which both are inside their leases at once. |
| LeaseSafety.ExclusiveIffOwnersDistinct | internal/tts/worker.go:39-85 | No run ever has two loops inside their leases if and only if no two loops share an owner id. |
| LeaseSafety.ExpiredLeaseIsTaken | internal/store/store.go:293-306 | In every run, whoever crashed: a loop whose clock reading has reached the stored expiry, or finds no row or its own, becomes the holder by its acquire step. |
| LeaseSafety.NoCrashStopsSpeech | internal/tts/worker.go:79-85 | From every run any idle loop comes to hold the lease by waiting for the stored expiry and trying once. |
| Progress.NextJobCanBeSpoken | internal/tts/worker.go:74-126 | From every run an idle loop can wait for the lease, claim the next job, say its whole script, mark it done and leave no lease behind, and nothing else changes. |
| Progress.FailingCallFailsJob | internal/tts/worker.go:116-119 | From every run in which a loop has something left to say, that call may fail, and the job is then marked failed with the message of that very call. |
| Progress.ShutdownStep | internal/tts/worker.go:49-52 | The last act of a loop removes its own lease row and nobody else's. |
| Progress.AllJobsCanBeSpoken | internal/tts/worker.go:62-72 | From every run an idle loop can go on until nothing is queued, each queued job claimed once, in claim order, and done with one more attempt, and all other rows as they were. |
| EndProgress.AnsweredEndCanBeQueued | internal/echo/processor.go:32-101 | From every run: an end and an answer to it, both new, of which whatever answer is found gives something to say, can be handled so that the request's job is there, queued if it is new. |
| EndProgress.AnsweredEndCanBeHeard | internal/tts/worker.go:62-126 | And from there with an idle loop so that it is spoken and done. |
| Sse.Flush | internal/adapters/claude/stream.go:132-148 | The pending data lines, if any, are decoded as one text and added, passed over, or fail the stream. |
| Sse.ParseSse | internal/adapters/claude/stream.go:125-170 | The scanning loop yields the decoded data texts in order, without end markers, or fails at the first that does not decode; a last event needs no blank line. |
| Sse.PrintedStreamReadsBack | internal/adapters/codex/normalize.go:180-225 | A stream printed with any blanks around its data, other lines, extra blank lines and carriage returns reads back as its payloads, each once and in order, even if the last event lacks its blank line or newline. |
| Sse.ClosingBlankIsOptional | internal/adapters/claude/stream.go:162-167 | A closing blank line never changes the result, unlike in section 9.2.6 of the WHATWG HTML standard. |
| Sse.ReadersAgree | internal/adapters/codex/normalize.go:187-204 | The Codex and Claude readers agree if and only if no event has empty data or the body fails anyway. |
| Sse.EmptyDataExample | internal/adapters/codex/normalize.go:187-204 | On `data:` and a blank line the Codex reader fails and the Claude reader finds no event. |
| Sse.TextGives | internal/adapters/claude/stream.go:132-148 | Text by text: `[DONE]` is passed over by both readers and the empty text by the Claude reader only; any other text is one more event, or fails the stream. |
| Sse.PlainTexts | internal/adapters/codex/normalize.go:187-204 | Texts that all decode give their values in order, with or without the end marker behind them. |
| ClaudeStream.FoldEvents | internal/adapters/claude/stream.go:18-87 | The event loop leaves at each index the block that the events for it make, and the envelope of the whole stream. |
| ClaudeStream.SortInts | internal/adapters/claude/stream.go:89-93 | The indexes come out ascending, each once. |
| ClaudeStream.ParseStreamingResponse | internal/adapters/claude/stream.go:12-123 | The content is the finished text and tool blocks in index order. |
| ClaudeStream.BlockFromProjection | internal/adapters/claude/stream.go:39-77 | A block depends only on the events for its own index. |
| ClaudeStream.InterleavingIsIrrelevant | internal/adapters/claude/stream.go:25-115 | Streams that agree index by index give the same content, however they are interleaved. |
| ClaudeStream.DeltasAddUp | internal/adapters/claude/stream.go:64-77 | Only the concatenation of a block's fragments matters, not where they were cut. |
| ClaudeStream.StartAgain | internal/adapters/claude/stream.go:39-63 | A second start for an index replaces what it names, puts its text behind, and lets its input take the place of all input so far. |
| ClaudeStream.BlockSurvives | internal/adapters/claude/stream.go:57-63 | A block comes out as it was sent if and only if it is a text block, its start carries no input field or its fragments are blank. |
| ClaudeStream.InputSpoiled | internal/adapters/claude/stream.go:57-76 | Otherwise the input comes out as both put together, as it is if that is valid JSON and else as one quoted string. |
| ClaudeStream.SpoiledInputExample | internal/adapters/claude/stream.go:57-76 | A concrete block with `{}` at its start and `{"a":1}` in fragments, which comes out as one quoted string. |
| ClaudeStream.StreamRestoresMessage | internal/adapters/claude/stream.go:12-123 | If each tool's input comes with its start or in its fragments but not in both, any fragmentation and interleaving folds back to the original blocks in index order. |
| ClaudeStream.LastStopWins | internal/adapters/claude/stream.go:36-85 | The message has the last non-empty stop reason of the stream. |
| ClaudeStream.NoStopNoReason | internal/adapters/claude/stream.go:36-85 | Without any, it has none. |
| ClaudeStream.LastStartNames | internal/adapters/claude/stream.go:27-38 | The message has the id and the model of the last start, even where that leaves them out. |
| ClaudeStream.LastRoleWins | internal/adapters/claude/stream.go:34 | Its role is that of the last start that gives one. |
| ClaudeStream.LastKindWins | internal/adapters/claude/stream.go:33 | So is its type. |
| ClaudeStream.NoStartNoNames | internal/adapters/claude/stream.go:18-21 | Without a start it is an assistant's message with neither id nor model. |
| CodexStream.ExtractMessageText | internal/adapters/codex/normalize.go:309-330 | The trimmed non-blank texts of the three part types, in order. |
| CodexStream.SummarizeResponseOutput | internal/adapters/codex/normalize.go:244-263 | The trimmed concatenation of all message texts, and all function calls, in order. |
| CodexStream.SummarizeChatMessage | internal/adapters/codex/normalize.go:279-303 | The tool calls of one chat choice, and its text or the texts of its parts. |
| CodexStream.SummarizeChatChoices | internal/adapters/codex/normalize.go:265-307 | The same over all choices, text trimmed. |
| CodexStream.MessageFormsAgree | internal/adapters/codex/normalize.go:284-330 | One message gives the same texts as an output item and as a chat choice if and only if no part of a list has text of another type and a plain text content is blank. |
| CodexStream.SummarizeDecodedResponse | internal/adapters/codex/normalize.go:227-242 | An output list is summarised, or else a choices list, or else nothing. |
| CodexStream.ResponseStreamState.SummarizeResponseFrame | internal/adapters/codex/messages.go:142-204 | One frame moves the text and the completed flag and reports its text, calls and completion; a body that is no object does nothing. |
| CodexStream.ResponseStreamState.AddItem | internal/adapters/codex/messages.go:169-182 | An item's text is reported, and kept only if there is no text yet. |
| CodexStream.SummarizeEventStream | internal/adapters/codex/normalize.go:130-178 | The batch loop collects deltas and done texts, items and the last completed response, and prefers the response's own text. |
| CodexResponses.PartSays | internal/adapters/codex/normalize.go:322-327 | A part of type `output_text`, `text` or `input_text` with a text that is not blank adds that text trimmed; any other part adds nothing. |
| CodexResponses.ChatPartSays | internal/adapters/codex/normalize.go:292-301 | In a chat message a part counts by its text alone. |
| CodexResponses.ItemSays | internal/adapters/codex/normalize.go:248-260 | An output item is read by its type: a message for its texts, a function call as it stands, any other not at all. |
| CodexResponses.OutputsAppend | internal/adapters/codex/normalize.go:244-263 | Output lists are read from front to back, each item for itself. |
| CodexResponses.ResponseSays | internal/adapters/codex/normalize.go:227-263 | The text of a response of messages is the texts of all their parts, each trimmed, one after the other. |
| CodexResponses.CallsAreListed | internal/adapters/codex/normalize.go:254-255 | Function calls are reported whole and in order. |
| CodexResponses.ChatSays | internal/adapters/codex/normalize.go:265-307 | A chat response of one choice gives its content, if that is a string, and its calls in order. |
| CodexResponses.OrdinaryResponseExample | internal/adapters/codex/normalize.go:309-330 | One message with one `output_text` part `Hi` says "Hi". |
| CodexResponses.NumberTextExample | internal/adapters/codex/normalize.go:424-440 | A number where a text belongs is read as it prints. |
| CodexResponses.FramesByType | internal/adapters/codex/messages.go:148-199 | What a text, done or completed frame reports and keeps, by the type it names. |
| CodexResponses.ItemFrames | internal/adapters/codex/messages.go:169-182 | An item frame, announcing or ending, reports the item's own text and calls. |
| CodexResponses.CompletedBodies | internal/adapters/codex/normalize.go:390-402 | A body is complete by the type `response.completed` or by the status `completed` in any letter case. |
| CodexAgreement.FedText | internal/adapters/codex/messages.go:148-199 | After any frames the incremental text is the text of the first offering frame, unless that is a delta, and then all deltas. |
| CodexAgreement.DonesDecide | internal/adapters/codex/normalize.go:142-145 | Done texts leave the trimmed text as it is if and only if all are blank and each non-empty one comes before or after everything solid. |
| CodexAgreement.IncrementalRefinesBatch | internal/adapters/codex/messages.go:183-199 | On a stream ending in a completed frame both forms agree on completion, on the calls if and only if the frame brings its response or no earlier one brought calls, and on the text if its response has any. If only an earlier response has text, they agree if and only if what was written says the same. Else, if no item or earlier response brought the first text, they agree if and only if the done texts, or those after the one that came first, are blank and at the edges; if one did, they differ without done texts, and without deltas agree if and only if the done texts say the same. |
| CodexAgreement.DonesAtEdgesPlain | internal/adapters/codex/normalize.go:142-145 | That condition holds without done texts or with just the one that came first, and never with one more that is not blank. |
| CodexAgreement.CollectedItemsAreLost | internal/adapters/codex/normalize.go:160-171 | Without a completed response no collected item's text or call shows in the batch summary. |
| CodexAgreement.EchoExample | internal/adapters/codex/normalize.go:141-145 | A concrete stream of which the incremental form says "Hi" and the batch form "HiHi". |
| CodexAgreement.SilentCompletionExample | internal/adapters/codex/normalize.go:153-156 | A concrete stream of which only the batch form reports the call: a response with it, and a completed frame without a response. |
| CodexAgreement.LostItemExample | internal/adapters/codex/normalize.go:160-165 | A stream of one message item, whose text the frame shows and the batch form does not. |
| Env.MergeEnv | internal/echo/run.go:315-339 | In whatever order the map is walked, base keeps its places with the last entry of an overridden key replaced, and each new key follows once. |
| Env.MergeAgreesIffKeysPlain | internal/echo/run.go:315-339 | Lookups in the merged list give extra's values for extra's keys and base's for all others if and only if no added key contains `=`. |
| Env.HiddenVariableExample | internal/echo/run.go:326-337 | A concrete added key with `=` that takes over another variable. |
| Gemini.RoleFrom | internal/adapters/gemini/normalizer.go:192-200 | The role is never empty. |
| Gemini.LogIsOneRecord | internal/adapters/gemini/normalizer.go:70-112 | A log record gives nothing or a known pair at one time for one role that is never empty. |
| Gemini.SpanIsOneRecord | internal/adapters/gemini/normalizer.go:114-167 | So does a span, which may also give one event. |
| Gemini.LogSays | internal/adapters/gemini/normalizer.go:70-112 | A log record by its name, which its body gives before its attributes do: a prompt gives its request and a busy agent, a tool call the call and a tooling agent, with what was attributed, own attributes before the resource's, at the record's time or else the clock's. |
| Gemini.SpanSays | internal/adapters/gemini/normalizer.go:114-167 | A span by its name: a tool gives its result; a model call gives more tooling, nothing, or the response and the end of the turn, and fails if its output does not decode; at its end, or else its start, or else the clock's time. |
| Gemini.TaggedAt | internal/adapters/gemini/normalizer.go:29-53 | Every record has its place behind those of earlier batches, scopes and places, with its own resource. |
| Gemini.TaggedFrom | internal/adapters/gemini/normalizer.go:29-53 | And nothing else is in the list. |
| Gemini.SortStable | internal/adapters/gemini/normalizer.go:55-57 | A permutation sorted by time that keeps the order of equal times. |
| Gemini.StableOrderIsUnique | internal/adapters/gemini/normalizer.go:55-57 | There is only one such permutation, so the library's algorithm does not matter. |
| Gemini.AppendLogs | internal/adapters/gemini/normalizer.go:29-40 | The loops append the events of each log record of a resource in order. |
| Gemini.AppendSpans | internal/adapters/gemini/normalizer.go:42-53 | The same for spans, failing at the first output that does not decode. |
| Gemini.PayloadFails | internal/adapters/gemini/normalizer.go:135-144 | A payload fails if and only if some model call has output messages that do not decode. |
| Gemini.NormalizePayload | internal/adapters/gemini/normalizer.go:26-60 | The events of all records, logs first, as their one stable permutation by time, or failure. |
| Gemini.PairsStayTogether | internal/adapters/gemini/normalizer.go:55-57 | However times interleave, the two events of one record come out side by side and in order. |

## Left out

- Captures, settings and the listing queries of the store: single-row reads and writes that no property here depends on. `UpdateCaptureState` inside `HandleEvent` can only end the handler, which the step `Abandon` allows.
- SQLite: each statement or transaction is one atomic step on maps with unique keys. Driver errors are the `ok: false` outcomes, `Abandon` and `Crash` of `Pipeline.dfy`; the methods of `Store.dfy` and `Worker.dfy` describe statements that succeed.
- Worker.Speaker.ProcessPending: assumes, like its class, that no other process acts on the tables during the drain and that the context is not cancelled; interleaving is the subject of `Pipeline.dfy`.
- The worker's ticker loop appears as repeated steps of a speaker loop, its last release as the step `Shutdown`.
- NUL bytes inside hashed fields and hash collisions: keys are an injective hash of NUL-free fields where a property needs them to differ. SHA-1 is not modelled.
- The pattern rewrites of `Clean` (line ends, code fences, inline code, headings, bullets) are one arbitrary function, so nothing is said about what they remove; cleaning twice may change a text again.
- JSON decoding and encoding: event payloads, response bodies and tool inputs are decoded values, with a validity predicate and an encoder where the code calls for them. How a number that stands for a text prints (it differs between the two Codex decoders) is part of the value.
- Unicode: text is sequences of one-byte characters, white space and letter case are ASCII.
- Timestamps.StampRoundTrip: for years above 9999 Go prints stamps that it does not parse; the model stops at 9999. Zone offsets, a comma before the fraction and the other texts that `time.Parse` accepts but the store never writes read as the zero time.
- LeaseSafety.RunsAreGuarded: needs the clock plus the lease time to stay below year 10000, for the same reason; so do the lemmas that rest on it.
- RunOrder.RunsAreStamped: needs the clock and the times of delivered events to stay below year 10000, for the same reason.
- Progress.AllJobsCanBeSpoken: says what every run can still come to, not that it must: no scheduling is assumed, and calls may go on failing. `EndProgress.AnsweredEndCanBeHeard` likewise.
- CodexAgreement.IncrementalRefinesBatch: says nothing general where an item or an earlier response brought the first text and both deltas and done texts follow; whether the forms then agree depends on what those texts say.
- The bus itself: a subject goes where its tokens match; a `*` or `>` inside a published subject is a token like any other there.
- Speech backends: a call succeeds or fails as it likes. Unknown backends and blank requests inside the registry are part of that choice.
- Gemini.SortStable: works on a sequence by insertion, where the library sorts a slice in place; `StableOrderIsUnique` makes the difference immaterial.
- The search for visible text in Gemini output messages and for text in event payloads (`summarizeOutputMessages`, `extractText`): tree walks over decoded JSON, taken as given values.
- `mergeMaps` and attribute decoding of telemetry: attribute values are given as they print.
- Nil receivers (store, registry, stream state): a nil check each.
- Sse.ParseSse: the scanner's line limit of four megabytes is not modelled.
- The HTTP and WebSocket proxies, the collector, NATS connections and the embedded server: plumbing over libraries.
- Configuration, command-line flags, repository detection, status printing, provider and event-kind parsing: single-branch checks.
