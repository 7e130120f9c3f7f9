# Project Cipher trainer, modelled in Dafny

Project Cipher is a browser-based cybersecurity trainer. The learner works
through five case files of missions. Each mission has a briefing and a chat
with a supervisor persona driven by a language model. Once a supervisor reply
contains the mission's trigger phrase, the chat input gives way to a "Begin
Assessment" button (App.tsx:689-697). Pressing it starts the mission's graded
challenge: classify a generated e-mail, submit a password for grading, or
answer a free-text question that a validator prompt judges. A pass records the mission
in the set of completed missions, the agent profile turns that set's size
into a spy rank, and "proceed" walks through the catalog case by case.

This project models that core:

- `Wrappers` holds `Option` and `Outcome`. An `Outcome` is what one awaited
  service call produced: its value, or `Failed` when it threw.
- `Text` holds the JavaScript string operations the trainer relies on:
  `includes`, `indexOf`, `trim`, `replace` with a string pattern, and `${n}`
  for an integer.
- `Types` holds the records and string unions of `types.ts`.
- `Gateway` is the trainer-side contract of `services/geminiService.ts`:
  - the prompts it sends;
  - what it hands back for each service answer;
  - its fixed fallbacks;
  - its rethrow on a generation failure.
- `Layout` holds navigation over any list of cases: positions, the last
  mission of a case, the mission count, reading order, and the bound on a set
  of mission ids.
- `Catalog` is the `cases` literal of `constants.ts` as one constant, with its
  shape facts.
- `Ranks` is the `SPY_RANKS` ladder and the profile's current and next rank.
- `Progression` is the `App` component as a class. It has one field per state
  variable that matters and one method per handler or button.
  - Each handler is one atomic step. The service answer it awaits is a
    parameter, and the request it sends is its result.
  - `Valid()` is the invariant every step keeps.

The class is parameterised by its catalog. Its constructor needs a catalog in
which every case has a mission, and `Catalog.CasesNonEmpty` shows that the
shipped catalog qualifies.

Two behaviours of the code are worth noting:

- The challenge payload stays set on the case-summary screen, because
  `handleProceedFromCompletion` (App.tsx:660-668) does not clear it
  (`Progression.App.HandleProceedFromCompletion`).
- Proceeding from the last mission of the last case shows the case summary
  first. Only that screen's button (App.tsx:764, then App.tsx:645-647) reaches
  the final screen.

## Model

| member | source | states |
|---|---|---|
| Progression.App.constructor | App.tsx:474-486 | Initial state: intake screen, first mission of the first case, nothing recorded, empty transcript, no payload or feedback; the invariant holds |
| Progression.App.StartTraining | App.tsx:494-511 | Sends the mission's supervisor prompt with empty history and "Begin training."; transcript is exactly the supervisor's reply (or the fallback); armed iff the reply contains the trigger phrase; payload and feedback cleared; indices and record unchanged |
| Progression.App.HandleMissionSelect | App.tsx:513-522 | Jumps to (c, m) in briefing from any screen; clears transcript, payload, feedback and the armed flag; keeps the completed set |
| Progression.App.HandleSendMessage | App.tsx:524-548 | Blank or whitespace text changes nothing and sends nothing; otherwise sends the earlier turns as history and appends the user's line, then the reply; the armed flag becomes true once a reply contains the trigger phrase and is never cleared here |
| Progression.App.StartChallenge | App.tsx:550-579 | Which generator is called per challenge kind; on success the payload is the e-mail, the generated question, `{question: prompt}` or `{}`; on generation failure exactly one error line is appended, the phase returns to training and the payload is unchanged |
| Progression.App.HandlePhishingClassification | App.tsx:581-596 | No payload: nothing changes; otherwise correct iff the payload is an e-mail whose `is_phishing` equals the guess; feedback is CORRECT./INCORRECT. plus the explanation; the id is recorded only on a pass; completion screen |
| Progression.App.HandlePasswordSubmit | App.tsx:598-610 | Sends the quoted-password prompt; pass iff score >= 4; feedback `Score: s/4. ` plus the advice; the id is recorded only on a pass; a failed call never passes; completion screen |
| Progression.App.HandleTextChallengeSubmit | App.tsx:612-635 | Sends the validator prompt, with the generated answer spliced in when it applies and the learner's text substituted; pass iff the validator says correct; a failed call never passes; completion screen |
| Progression.App.GoToNext | App.tsx:637-658 | Clears payload and feedback; the three cases: last of last goes to the final screen with indices unchanged, last of a case goes to (c+1, 0), otherwise (c, m+1); the new mission is the next one in reading order; indices stay in bounds |
| Progression.App.HandleProceedFromCompletion | App.tsx:660-668 | At the last mission of a case, even the last case: case summary with indices, payload and feedback untouched; otherwise exactly `goToNext` |
| Progression.App.OpenMessage | App.tsx:674 | Intake to welcome, nothing else changes |
| Progression.App.AcceptWelcome | App.tsx:677 | Welcome to briefing, nothing else changes |
| Progression.App.ProceedFromBriefing | App.tsx:680 | The briefing button starts training for the current mission: the same call, transcript, armed flag, cleared payload and feedback as `startTraining` |
| Progression.App.BeginAssessment | App.tsx:689-697 | Shown only while armed: disarms, then everything `startChallenge` promises: the generator called per kind, on failure the error line appended with the phase back in training and the payload unchanged, on success the challenge screen with the kind's payload; feedback, indices and record unchanged |
| Progression.App.ConfirmProceed | App.tsx:741 | Shown only after a pass: at the last mission of a case the case summary with indices, payload and feedback unchanged, else the next mission's briefing with payload and feedback cleared; record, transcript and armed flag unchanged |
| Progression.App.RetryMission | App.tsx:750 | Shown only after a failure: training restarts for the same mission with payload and feedback cleared; the transcript is exactly the supervisor's new reply, and the flag is armed iff that reply contains the trigger phrase |
| Progression.App.CloseCaseFile | App.tsx:764 | From the case summary (always at a case's last mission): the next case's first briefing, or the final screen after the last case with indices unchanged; payload and feedback cleared; record, transcript and armed flag unchanged |
| Progression.App.Valid | App.tsx:474-486 | The invariant every handler keeps: every case has a mission and the indices name one; recorded ids are catalog ids; a payload only on the challenge, completion and case-summary screens, of the shape the mission's challenge produces; feedback always on the completion screen and only there or on the case summary; the case summary only at a case's last mission, the final screen only at the last mission of the last case |
| Progression.App.Current | App.tsx:491-492 | `currentMission`, the mission at `cases[currentCaseIndex].missions[currentMissionIndex]`; `Progression.App.Valid` keeps those indices in bounds |
| Progression.Truthy | App.tsx:560 | JavaScript truthiness of an optional string field such as `promptGenerator`: present and non-empty; `Progression.App.StartChallenge` states which generator it selects |
| Progression.Fits | App.tsx:555-571 | The payload shape `startChallenge` stores per challenge kind (e-mail, `{}`, generated question, or `{question: prompt}`); `Progression.App.Valid` keeps every stored payload fitting, and `Progression.App.StartChallenge` states the payloads |
| Progression.History | App.tsx:532-535 | History has one entry per earlier message with the same text; role `user` exactly for the learner's lines, `model` for all others |
| Progression.PasswordPasses | App.tsx:602 | A password passes iff its score is at least 4; used by `Progression.App.HandlePasswordSubmit`, whose contract states it |
| Progression.ScoreText | App.tsx:604 | The password feedback text `Score: <score>/4. <advice>`, the score rendered by `Text.Decimal` |
| Progression.InjectsAnswer | App.tsx:619 | The guard: a prompt generator is set and the payload is generated with a non-empty answer and explanation; `Progression.FinalValidatorPrompt` states what it selects |
| Progression.ClassifiedCorrectly | App.tsx:585 | Correct iff the payload is an e-mail and its `is_phishing` equals the guess (any other payload compares `undefined`, so false) |
| Progression.ExplanationOf | App.tsx:588 | The explanation of an e-mail or generated payload; `undefined` for payloads without the field |
| Progression.ClassificationText | App.tsx:588 | Feedback is `CORRECT. ` or `INCORRECT. ` followed by the explanation, which ends the text |
| Progression.FinalValidatorPrompt | App.tsx:614-623 | The validator prompt itself unless a generator is set and the payload has a non-empty answer and explanation; then the first `[CORRECT_ANSWER]` and then the first `[EXPLANATION]` are replaced |
| Progression.Record | App.tsx:592-594 | The completed set after a grading: the id joins exactly on a pass, nothing is removed, nothing else is added, and recording an id already present changes nothing |
| Gateway.TutorResponse | services/geminiService.ts:12-31 | The model's reply on success, the fixed apology on any failure; never a failure |
| Catalog.FallbackNeverArms | services/geminiService.ts:29 | No trigger phrase of the catalog occurs in the fixed apology, so a failed supervisor call never arms the challenge (App.tsx:506, 543) |
| Gateway.GeneratedPhishing | services/geminiService.ts:60-88 | A failure is rethrown (no default e-mail); a success passes the e-mail through |
| Gateway.GeneratedDynamic | services/geminiService.ts:144-168 | A failure is rethrown; a success passes the generated question through |
| Gateway.PasswordPrompt | services/geminiService.ts:92 | The full prompt is the prompt, a space, a double quote, the password and a closing double quote |
| Gateway.PasswordPromptRoundTrip | services/geminiService.ts:92 | The password can be read back out of the full prompt |
| Gateway.PasswordResult | services/geminiService.ts:90-116 | The service's verdict on success; score 0 with the fixed message on failure |
| Gateway.ResponseResult | services/geminiService.ts:118-142 | The service's verdict on success; not correct with the fixed message on failure |
| Gateway.ResponsePrompt | services/geminiService.ts:120 | `validatorPrompt.replace('[USER_INPUT]', userInput)`; its contract is stated by `Gateway.ResponsePromptSplices` and `Gateway.ResponsePromptOfTemplate` |
| Gateway.ResponsePromptSplices | services/geminiService.ts:120 | Only the first `[USER_INPUT]` is replaced: the text before it and after it is kept and the learner's text (without `$`) stands in its place |
| Gateway.ResponsePromptOfTemplate | services/geminiService.ts:120 | For a validator prompt `before + [USER_INPUT] + after` whose `before` has no `]`, the sent prompt is `before + input + after` |
| Gateway.NoPlaceholderInside | services/geminiService.ts:120 | No placeholder occurrence starts inside such a `before` |
| Gateway.Template | constants.ts:60 | Every validator prompt written with the placeholder contains it |
| Text.Contains | App.tsx:506 | `includes`: some offset holds an exact occurrence; `Text.IndexOf` finds one exactly when it holds |
| Text.IndexOf | services/geminiService.ts:120 | `indexOf`: absent iff not contained; otherwise an occurrence with no earlier one |
| Text.IndexOfFrom | services/geminiService.ts:120 | The first occurrence at or after an offset, or none after it |
| Text.ContainsInfix | App.tsx:506 | `includes` holds for a string built around the pattern |
| Text.MissingCharExcludes | App.tsx:506 | `includes` fails when the pattern has a character the string lacks |
| Text.TrimStart | App.tsx:525 | Removes exactly the leading ECMAScript white space |
| Text.TrimEnd | App.tsx:525 | Removes exactly the trailing ECMAScript white space |
| Text.Trim | App.tsx:525 | `trim`; `Text.TrimStrips` states what it returns |
| Text.TrimStrips | App.tsx:525 | The trimmed text neither starts nor ends with white space and occurs in the string with only white space around it |
| Text.IsBlank | App.tsx:525 | `!text.trim()`; `Text.BlankIffAllWhiteSpace` states when it holds |
| Text.BlankIffAllWhiteSpace | App.tsx:525 | `!text.trim()` holds iff every character is white space |
| Text.Substitution | services/geminiService.ts:120 | The ECMAScript `GetSubstitution` patterns `$$`, `$&`, `` $` `` and `$'`; `Text.SubstitutionLiteral` states that a text without `$` is inserted as it is |
| Text.ReplaceFirst | App.tsx:620-622 | `replace` with a string pattern; `Text.ReplaceFirstAbsent` and `Text.ReplaceFirstSplices` state its two cases |
| Text.SubstitutionLiteral | services/geminiService.ts:120 | A replacement without `$` is inserted as it is |
| Text.ReplaceFirstAbsent | App.tsx:620-622 | Without the pattern, `replace` returns the string unchanged |
| Text.ReplaceFirstSplices | App.tsx:620-622 | With the pattern, only its first occurrence is replaced |
| Text.Digits | App.tsx:604 | The decimal digits of a natural number, at least one, no leading zero |
| Text.DigitsRoundTrip | App.tsx:604 | Reading the rendered digits back gives the number |
| Text.Decimal | App.tsx:604 | `${score}`: a minus sign for negatives, then the digits |
| Types.SenderTagsExact | types.ts:2 | A sender is exactly one of `user`, `supervisor`, `ai-assistant`, and each literal names one sender |
| Types.ChallengeTypeTagsExact | types.ts:16 | A challenge type is exactly one of the three literals, and each names one type |
| Layout.OrdinalSuccessor | App.tsx:637-658 | The mission after (c, m) is (c, m+1) inside a case, else (c+1, 0); both are positions one place later in reading order; the last of the last case has the last place |
| Layout.MissionAt | App.tsx:492 | `cases[c].missions[m]` at a position; `Progression.App.Current` reads it |
| Layout.IsLastInCase | App.tsx:642 | `isLastMissionInCase` (also App.tsx:662); `Progression.App.GoToNext` and `Progression.App.HandleProceedFromCompletion` state where it leads |
| Layout.TotalMissionCount | App.tsx:783 | `totalMissions`, the sum of the mission counts; `Layout.CountBySizes` states it for given counts |
| Layout.CountBySizes | App.tsx:783 | For cases with the given mission counts, `totalMissions` is the sum of those counts |
| Layout.OrdinalBounded | App.tsx:783 | Every mission's place in reading order is below `totalMissions` |
| Layout.OrdinalInjective | App.tsx:783 | Distinct positions have distinct places |
| Layout.CountUpToMonotone | App.tsx:783 | The partial mission counts grow along the cases |
| Layout.NonEmptyBySizes | App.tsx:491-492 | Positive mission counts for every case make every `missions[0]` valid |
| Layout.IdsOf | constants.ts:15-255 | The ids of a case's missions, in order |
| Layout.IdsUpTo | App.tsx:783 | The listed ids of the first n cases number exactly their missions |
| Layout.IdsUpToListsIds | constants.ts:15-255 | Every mission of the first n cases has its id listed |
| Layout.SetFromListBounded | App.tsx:476 | A set drawn from a list is no larger than the list |
| Layout.IdSetBounded | App.tsx:476 | A set of mission ids, such as `completedMissionIds`, is no larger than `totalMissions` |
| Catalog.CaseSizes | constants.ts:7-270 | The `cases` literal (`Catalog.Cases`) has five cases with 3, 4, 3, 3 and 3 missions |
| Catalog.MissionCounts | constants.ts:7-270 | The same mission counts, as the list `[3, 4, 3, 3, 3]` |
| Catalog.CasesNonEmpty | constants.ts:13-227 | Every case has a first mission, so `missions[0]` is valid after a case advance |
| Catalog.Positions | constants.ts:7-270 | The sixteen positions, written out |
| Catalog.MissionIdLayout | constants.ts:15-255 | The m-th mission of case c has id 100(c+1)+m+1 |
| Catalog.MissionIdsDistinct | constants.ts:15-255 | No two missions share an id |
| Catalog.CaseIds | constants.ts:9-223 | Case ids are 1 to 5 in order, hence distinct |
| Catalog.TotalMissions | constants.ts:7-270 | `totalMissions` is 16 |
| Catalog.CompletedBounded | App.tsx:476 | Any set of catalog ids has at most sixteen elements |
| Catalog.ChallengeKinds | constants.ts:27-44 | Exactly the first mission is spot-the-phish, exactly the second password-strength, all others text-response |
| Catalog.OptionalFields | constants.ts:56-261 | No prompt generator and no training-complete phrase anywhere; the case-complete phrase is on the last mission of every case and no other |
| Catalog.ValidatorPlaceholders | constants.ts:60-265 | Every text-response validator prompt contains `[USER_INPUT]` |
| Ranks.ThresholdsAscending | App.tsx:937-947 | The `SPY_RANKS` ladder (`Ranks.SpyRanks`): thresholds strictly ascend, starting at zero |
| Ranks.NamesDistinct | App.tsx:937-947 | No two ranks share a name |
| Ranks.Reverse | App.tsx:954 | `[...s].reverse()`: same length, element i is element n-1-i |
| Ranks.Find | App.tsx:954 | `find`: the first rank reached, or none when no rank is reached |
| Ranks.FindFrom | App.tsx:954 | `find` from an offset |
| Ranks.FindIndex | App.tsx:955 | `findIndex`: -1 iff no rank has the name, else an index with that name |
| Ranks.FindIndexFrom | App.tsx:955 | `findIndex` from an offset, the first match |
| Ranks.FindIndexOfUniqueName | App.tsx:955 | A uniquely named rank is found at its own index |
| Ranks.FindReversedIsHighest | App.tsx:954 | Searching the reversed ladder finds the highest rank reached |
| Ranks.CurrentRank | App.tsx:954 | `currentRank`, with `SPY_RANKS[0]` when no rank is reached; `Ranks.CurrentRankIsLevel` states which rank it is |
| Ranks.NextRankIndex | App.tsx:955 | `nextRankIndex`, one past the current rank's index; stated by `Ranks.CurrentRankIsLevel` |
| Ranks.NextRank | App.tsx:956 | `nextRank`, `None` for `null` past the top; stated by `Ranks.CurrentRankIsLevel` |
| Ranks.CurrentRankIsLevel | App.tsx:954-956 | The current rank is the highest rung reached (Recruit when none is); the next rank is the rung above, none at the top |
| Ranks.LevelUnique | App.tsx:954 | Every count has one level |
| Ranks.LevelMonotone | App.tsx:954 | More completed missions never lower the rank |
| Ranks.RankCeiling | App.tsx:945-946 | With at most sixteen missions, Cyber Ghost and Shadow Broker are unreachable and sixteen passes give Master Spy |
| Ranks.CatalogRankCeiling | App.tsx:945-946 | The same ceiling for completed sets of the shipped catalog |

## Left out

- Sound (`playSound`), the typing and progress animations, the timers and all rendering, including `FormattedMessage`, the dashboard/profile view switch, the sidebars and the briefing modal: these are presentation with no effect on progression.
- The percentage progress towards the next rank: it is floating-point arithmetic. Only the rank selection is modelled.
- `isLoading` and async interleavings: each handler is one atomic step, so the `isLoading` guard of `handleSendMessage` and results arriving after navigation are not modelled.
- `userInput`, the text box's draft: it is view state.
- `components/HelpChat.tsx`, `getHelpResponse` and `components/NoteTaker.tsx`: they do not touch progression. The note taker's storage is browser I/O.
- The `console.error` logging in the catch blocks (services/geminiService.ts:28, 85, 113, 139, 165; App.tsx:573): it is output with no effect on state.
- The language-model client (model choice, schemas, network, `JSON.parse`): each call's answer is an `Outcome` parameter, and a malformed JSON answer counts as a failure.
- Gateway.PasswordResult: scores are integers below 10^21 in magnitude; non-integer and NaN scores, and larger ones, which JavaScript renders in exponent form, are not modelled.
- Text.Decimal: integers of magnitude 10^21 or more render in exponent form in JavaScript; that rendering is not modelled.
- Catalog.ValidatorPlaceholders: it proves that each text-response validator prompt contains the placeholder, but not that the learner's text lands exactly where the catalog's placeholder stands. `Gateway.ResponsePromptOfTemplate` states that fact for any template whose text before the placeholder has no `]`.
- `SUPERVISOR_NAME` (constants.ts:5): nothing in the core reads it, so it is not modelled.
