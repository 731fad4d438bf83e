# Speech playback queue and voice-analysis report, in Dafny

This project models two small pieces of a browser app for rehearsing spoken
interviews and presentations against simulated agents.

- **The speech-playback queue** (`src/lib/tts-service.ts`, class `TTSService`).
  It takes requests to voice an agent's message, keeps the synthesized
  utterances in a FIFO queue, and plays one at a time. It broadcasts the
  current speaker (or none) to its subscribers at every change. Module
  `SpeechQueue` (`tts_service.dfy`) models it as a Dafny class with the same
  fields: `audioQueue`, `isPlaying`, `currentAudio`, `enabled`,
  `currentSpeaker` and `speakingCallbacks`. Each method states the complete
  new state. The class invariant says four things:
  - `isPlaying` holds exactly when there is a current audio, and exactly when
    there is a current speaker;
  - the current speaker is the one the latest broadcast announced (none
    before any broadcast);
  - an idle service has an empty queue;
  - every id that was queued has either left the queue, in order, or is still
    waiting in it, in order.

  Three ghost logs make the history visible. One records every broadcast with
  its recipients. One records the `messageId` of each successful enqueue. One
  records each item that left the queue: it either started playing or was
  discarded by `stopAll`.
- **The voice-analysis report** (`src/components/voice-analysis.tsx`).
  `generateVoiceAnalysis` draws ten random integers, grades them, builds an
  ordered list of improvement suggestions and keeps the first two. It also
  formats two durations as `0:SS`. The component colours grades and scores.
  Module `VoiceAnalysis` (`voice_analysis.dfy`) takes each
  `Math.floor(Math.random() * k) + c` as a draw `r < k`. That makes the report
  a deterministic function of its draws.

`wrappers.dfy` holds the `Option` type, which models `T | null`.

Where the code and its comments disagree, the model follows the code. The
comments on lines 35-51 of `src/components/voice-analysis.tsx` give ranges
one higher at the top than the code can produce:
- 68-88: the code gives 68..87;
- 95-125: the code gives 95..124;
- 40-60: the code gives 40..59;
- 3-8: the code gives 3..7;
- 82-94: the code gives 82..93;
- 78-93: the code gives 78..92;
- 77-92: the code gives 77..91.

`InGeneratedRanges` states the real ranges. `MeasureOnto` proves that every
value inside them is reached. `CommentedUpperBoundsUnreachable` proves that
the commented top values are never produced.

The fallback on lines 90-93 ("Continue practicing …") is dead code for
generated reports. The filler-word count is at least 1, so the filler-word
suggestion always fires (`GeneratedAreas`).

The comment on line 89 says "Ensure at least 2 improvements", but the code
only adds the two fallback messages when no suggestion fired. When exactly
one check fires the report has one area; `SingleAreaReachable` exhibits
generated metrics where only the filler-word check fires.

## Model

| member | source | states |
|---|---|---|
| `SpeechQueue.TTSService.constructor` | src/lib/tts-service.ts:16-22 | starts idle and enabled, with an empty queue, no speaker, no subscribers and empty logs; the invariant holds |
| `SpeechQueue.TTSService.SetEnabled` | src/lib/tts-service.ts:24-26 | changes only `enabled` (its frame is that one field) and keeps the invariant |
| `SpeechQueue.TTSService.IsEnabled` | src/lib/tts-service.ts:28-30 | returns the enable flag |
| `SpeechQueue.TTSService.OnSpeakingChange` | src/lib/tts-service.ts:32-34 | adds the callback to the subscriber set, a set so a repeat is one entry; nothing else changes |
| `SpeechQueue.TTSService.Unsubscribe` | src/lib/tts-service.ts:35-37 | afterwards the callback is not in the subscriber set, so no later broadcast reaches it; the other subscribers stay |
| `SpeechQueue.TTSService.NotifySpeakingChange` | src/lib/tts-service.ts:40-43 | sets the current speaker and logs one broadcast with that speaker to exactly the current subscribers |
| `SpeechQueue.TTSService.GetCurrentSpeaker` | src/lib/tts-service.ts:45-47 | returns the current speaker, which is present exactly while playing |
| `SpeechQueue.TTSService.GenerateSpeech` | src/lib/tts-service.ts:49-90 | disabled: no audio; enabled: audio exactly when synthesis succeeded, and then the synthesized one |
| `SpeechQueue.TTSService.QueueSpeech` | src/lib/tts-service.ts:92-111 | disabled or failed synthesis changes nothing and broadcasts nothing; success while playing appends the item at the tail and changes nothing else; success while idle starts that item at once, announces its agent, and leaves the queue empty; success logs the id as enqueued |
| `SpeechQueue.TTSService.PlayNext` | src/lib/tts-service.ts:113-145 | empty queue: idle with no audio and no speaker, and `None` goes to every subscriber; otherwise exactly the head is removed, becomes the current audio, is logged as played, and its agent is announced to every subscriber; the invariant is re-established |
| `SpeechQueue.TTSService.OnPlaybackFinished` | src/lib/tts-service.ts:131-144 | only while there is a current audio (the element that raises these events): when it ends, errors or fails to start, playback advances exactly as `PlayNext` does |
| `SpeechQueue.TTSService.StopAll` | src/lib/tts-service.ts:147-164 | ends idle with an empty queue, no audio and no speaker; `None` goes to every subscriber; every queued item is logged as discarded, in queue order; the playback order is unchanged |
| `SpeechQueue.TTSService.SkipCurrent` | src/lib/tts-service.ts:166-172 | with no current audio nothing changes; otherwise it advances exactly as `PlayNext` does |
| `SpeechQueue.TTSService.GetQueueLength` | src/lib/tts-service.ts:174-176 | returns the number of waiting items |
| `SpeechQueue.TTSService.IsCurrentlyPlaying` | src/lib/tts-service.ts:178-180 | returns `isPlaying`, which holds exactly when there is a current audio; when it is false the queue is empty |
| `SpeechQueue.TTSService.ClearQueue` | src/lib/tts-service.ts:182-184 | has the same effect as `StopAll` |
| `SpeechQueue.PlayedIdsWithoutDiscards` | src/lib/tts-service.ts:105-122 | if nothing was discarded, the ids that became current are exactly the ids that left the queue, in the same order |
| `SpeechQueue.PlayedIdsIgnoresDiscards` | src/lib/tts-service.ts:155-161 | discarding items never adds to or reorders the playback order |
| `SpeechQueue.PlaybackOrderIsEnqueueOrder` | src/lib/tts-service.ts:105-122 | FIFO: without a `stopAll`, the enqueued ids are the played ids followed by the waiting ones |
| `SpeechQueue.PlaybackOrderScenario` | src/lib/tts-service.ts:92-145 | three successful requests made while idle are announced in request order with the queue at 2, 1, 0; then `None` is announced |
| `SpeechQueue.StopAndDisableScenario` | src/lib/tts-service.ts:92-164 | after three requests, `stopAll` gives length 0, not playing and no speaker; a disabled service then ignores requests |
| `VoiceAnalysis.Draw` | src/components/voice-analysis.tsx:36-51 | a draw `r < k` plus offset `c` lies in `c .. c+k-1` |
| `VoiceAnalysis.DrawReaches` | src/components/voice-analysis.tsx:36-51 | a value comes from some draw exactly when it lies in `c .. c+k-1` |
| `VoiceAnalysis.Measure` | src/components/voice-analysis.tsx:36-51 | valid draws give score 68..87, stutters 2..5, filler words 1..2, repetitions 5..9, wpm 95..124, speaking 40..59 s, pauses 3..7 s, clarity 82..93, volume 78..92 and pitch 77..91 |
| `VoiceAnalysis.MeasureOnto` | src/components/voice-analysis.tsx:36-51 | those ranges are exact: every metrics value inside them comes from some valid draws |
| `VoiceAnalysis.CommentedUpperBoundsUnreachable` | src/components/voice-analysis.tsx:35-51 | 88, 125 wpm, 60 s, 8 s, 94, 93 and 92 are never produced |
| `VoiceAnalysis.GetGrade` | src/components/voice-analysis.tsx:54-59 | A iff `v <= t0`; B iff `t0 < v <= t1`; C iff above both and `v <= t2`; D iff above all three |
| `VoiceAnalysis.GetGradeMonotone` | src/components/voice-analysis.tsx:54-59 | with ascending thresholds, a larger value never gets a better grade |
| `VoiceAnalysis.GetPaceGrade` | src/components/voice-analysis.tsx:61-66 | A iff 120..150 wpm; B iff 100..119; C iff 80..99; D iff below 80 or above 150 |
| `VoiceAnalysis.GeneratedGrades` | src/components/voice-analysis.tsx:98-104 | on generated metrics the stutter grade is A exactly at 2 stutters and B otherwise; the filler-word grade is always B; the pace grade is never D |
| `VoiceAnalysis.GetGradeColor` | src/components/voice-analysis.tsx:154-162 | A/B/C/D map to green/blue/yellow/red, each in both directions; any other string maps to grey |
| `VoiceAnalysis.GetScoreColor` | src/components/voice-analysis.tsx:164-169 | green iff the score is at least 90; blue iff 75..89; yellow iff 60..74; red iff below 60 |
| `VoiceAnalysis.GradesAreColoured` | src/components/voice-analysis.tsx:154-162 | no grade the two graders produce is shown grey |
| `VoiceAnalysis.GeneratedScoreColour` | src/components/voice-analysis.tsx:164-169 | a generated overall score is blue exactly from 75 and yellow below; never green or red |
| `VoiceAnalysis.Text` | src/components/voice-analysis.tsx:71-92 | the exact wording of each of the eight messages |
| `VoiceAnalysis.Checks` | src/components/voice-analysis.tsx:70-87 | the six push conditions in source order; six checks, each with its own message, none of them a fallback message; the filler-word check fires iff there is a filler word |
| `VoiceAnalysis.FiredUpTo` | src/components/voice-analysis.tsx:69-87 | the first `k` checks contribute at most `k` suggestions |
| `VoiceAnalysis.FiredExactly` | src/components/voice-analysis.tsx:69-87 | a suggestion is listed exactly when a check carrying it fires |
| `VoiceAnalysis.FiredEmpty` | src/components/voice-analysis.tsx:69-90 | the list is empty exactly when no check fires |
| `VoiceAnalysis.TakeTwo` | src/components/voice-analysis.tsx:114 | `slice(0, 2)` is a prefix of length `min(2, n)` |
| `VoiceAnalysis.Areas` | src/components/voice-analysis.tsx:89-114 | the fallback when nothing fired, then `slice(0, 2)`: always one or two messages; whenever any suggestion fired, the first `min(2, n)` of the `n` triggered suggestions |
| `VoiceAnalysis.AreasFallback` | src/components/voice-analysis.tsx:69-93 | the two encouragement messages are the result exactly when none of the six written checks fires |
| `VoiceAnalysis.SingleAreaReachable` | src/components/voice-analysis.tsx:89-93 | despite the comment "Ensure at least 2 improvements", a generated report can carry exactly one area (only the filler-word check fires) |
| `VoiceAnalysis.GeneratedAreas` | src/components/voice-analysis.tsx:40-93 | for generated metrics the filler-word suggestion always fires, so the fallback is unreachable; the areas are the first one or two triggered suggestions |
| `VoiceAnalysis.CollectImprovements` | src/components/voice-analysis.tsx:69-93 | the six conditional pushes produce exactly the triggered suggestions in check order, or the two fallback messages when none fires |
| `VoiceAnalysis.NatToString` | src/components/voice-analysis.tsx:105-106 | `toString` of a natural gives one or more decimal digits, and exactly one digit iff the number is below 10 |
| `VoiceAnalysis.NatToStringRoundTrip` | src/components/voice-analysis.tsx:105-106 | reading the digits back gives the number |
| `VoiceAnalysis.PadStart` | src/components/voice-analysis.tsx:105-106 | the result has length `max(n, width)`, ends with the input, and everything before that is the pad character |
| `VoiceAnalysis.LeadingZeros` | src/components/voice-analysis.tsx:105-106 | zero padding does not change the value of a digit string |
| `VoiceAnalysis.FormatSeconds` | src/components/voice-analysis.tsx:105-106 | `0:` followed by the zero-padded decimal seconds: at least four characters, `0:` first, digits after |
| `VoiceAnalysis.FormatSecondsRoundTrip` | src/components/voice-analysis.tsx:105-106 | every `0:`-formatted duration reads back as its seconds |
| `VoiceAnalysis.FormatSecondsTwoDigits` | src/components/voice-analysis.tsx:105-106 | below 100 seconds the string is `0:` followed by exactly two digits: tens, then units |
| `VoiceAnalysis.GenerateVoiceAnalysis` | src/components/voice-analysis.tsx:34-116 | the report carries the measured metrics (the durations read back from their strings); repetitions are graded C and filler words B; stutters are graded A iff 2, else B; the pace grade is `getPaceGrade` of wpm and never D; both times are 4 characters; areas are `slice(0, 2)` of the triggered suggestions, one or two of them |

## Left out

- The network synthesis inside `generateSpeech` is not modelled. That covers `fetch('/api/tts')`, the blob, `URL.createObjectURL`/`revokeObjectURL` and `new Audio`. Its outcome is the parameter `synthesis`, with `None` for any failure.
- `HTMLAudioElement` behaviour is not modelled: `play`, `pause`, `currentTime`, `src = ''` and event listeners. An audio is an opaque handle. The `ended`, `error` and rejected-`play()` events are the one method `OnPlaybackFinished`.
- The double advance is not modelled. After a failure the source can advance twice, once from the `error` listener and once from `play().catch`. Each event is modelled as one advance.
- Stale listeners are not modelled. The listeners of a skipped audio remain attached in the source, but events from a non-current audio are not modelled.
- `SpeechQueue.TTSService.QueueSpeech`: the call is one atomic step. In the source, other operations can run while `generateSpeech` is awaited, between the enable check and the `isPlaying` check. The model reads both at call time.
- `SpeechQueue.TTSService.OnSpeakingChange`: a callback is an opaque subscriber id. The callbacks' own effects, including any re-entrant calls, are not modelled.
- `SpeechQueue.TTSService.Unsubscribe`: the source returns a closure, and the model has a method that takes the subscriber id instead.
- `VoiceAnalysis.Text` has no contract: its definition is the eight message literals of lines 71-92, word for word, and nothing beyond their wording is promised about them.
- `console.log` and `console.error` output is not modelled.
- `VoiceAnalysis.GenerateVoiceAnalysis`: `areasForImprovement` holds `Advice` values, not strings. `Text` gives each value's exact wording.
- `VoiceAnalysis.NatToString` models `Number.prototype.toString` only for naturals below 10^21. From 10^21 up JavaScript switches to exponent notation, and the model does not. The durations it formats are at most 59.
- `VoiceAnalysis.GetGrade` requires at least three thresholds, which both call sites pass. With a shorter array, JavaScript would compare against `undefined`, and that case is not modelled.
- `Math.random` is not modelled. Each draw is a parameter `r < k`, and `setTimeout` is not modelled.
- React state, JSX rendering and navigation in `src/components/voice-analysis.tsx` are UI and are not modelled.
- `src/app/interview-practice/page.tsx` is not part of this model. It holds speech-recognition callbacks, the wall-clock debounce, `fetch`, `localStorage` and React state.
- `src/app/api/gemini/interview/route.ts` is not part of this model. It is a thin wrapper over a generative-AI SDK.
- The page, layout, navigation and animation components are UI and are not part of this model.
- Turn-taking, agent selection, response delay and session scoring are not part of this model. They do not appear in the modelled source files.
