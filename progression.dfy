/**
 * The trainer's progression state machine (App.tsx, the `App` component): the
 * current case and mission, the set of passed missions, the screen, the chat
 * transcript, the "challenge ready" flag and the live challenge with its
 * feedback.  Every handler is one atomic step; the answer of the language-model
 * call it awaits is a parameter, and the request it sends is its result.
 */
module Progression {
  import opened Wrappers
  import opened Text
  import opened Types
  import opened Gateway
  import opened Layout

  /** `GameState` (App.tsx:12). */
  datatype GameState =
    | Intake
    | Welcome
    | Briefing
    | Training
    | InChallenge
    | ChallengeComplete
    | CaseSummary
    | AllMissionsComplete

  /**
   * What `challengeData` holds: the generated e-mail, a static question
   * `{ question }`, a generated question with its answer, or the empty object `{}`.
   */
  datatype Payload =
    | Email(email: PhishingChallenge)
    | Question(question: string)
    | Dynamic(generated: DynamicChallenge)
    | NoFields

  /** `challengeFeedback`. */
  datatype Feedback = Feedback(isCorrect: bool, text: string)

  /** The supervisor line appended to the chat when generating a challenge fails. */
  const ChallengeErrorText: string := "Error generating challenge data. Please try again."

  /** The opening line sent to the supervisor. */
  const BeginTrainingText: string := "Begin training."

  /** A JavaScript truthiness test on an optional string field. */
  predicate Truthy(field: Option<string>) {
    field.Some? && field.value != ""
  }

  /** The payload `startChallenge` stores for a challenge, given a successful generation. */
  predicate Fits(payload: Payload, challenge: Challenge) {
    match challenge.kind
    case SpotThePhish => payload.Email?
    case PasswordStrength => payload == NoFields
    case TextResponse =>
      if Truthy(challenge.promptGenerator) then payload.Dynamic?
      else payload == Question(challenge.prompt)
  }

  /** The earlier chat turns as the model's history: the user's lines as `user`, all others as `model`. */
  function History(messages: seq<Message>): (h: seq<HistoryEntry>)
    ensures |h| == |messages|
    ensures forall i :: 0 <= i < |h| ==> h[i].text == messages[i].text
    ensures forall i :: 0 <= i < |h| ==> (h[i].role == UserRole <==> messages[i].sender == User)
  {
    if messages == [] then []
    else
      var last := messages[|messages| - 1];
      History(messages[..|messages| - 1]) + [HistoryEntry(if last.sender == User then UserRole else ModelRole, last.text)]
  }

  /**
   * `email.is_phishing === guess` for whatever `challengeData` holds: a payload
   * without `is_phishing` compares `undefined` with a boolean, which is false.
   */
  function ClassifiedCorrectly(payload: Payload, guess: bool): (correct: bool)
    ensures correct <==> payload.Email? && payload.email.isPhishing == guess
  {
    match payload
    case Email(e) => e.isPhishing == guess
    case _ => false
  }

  /** `${email.explanation}` for whatever `challengeData` holds; a missing field renders as `undefined`. */
  function ExplanationOf(payload: Payload): (text: string)
    ensures payload.Email? ==> text == payload.email.explanation
    ensures payload.Dynamic? ==> text == payload.generated.explanation
    ensures payload.Question? || payload == NoFields ==> text == "undefined"
  {
    match payload
    case Email(e) => e.explanation
    case Dynamic(d) => d.explanation
    case _ => "undefined"
  }

  /** The feedback text of a classification: the verdict word, a full stop, a space and the explanation. */
  function ClassificationText(correct: bool, explanation: string): (text: string)
    ensures correct ==> text == "CORRECT. " + explanation
    ensures !correct ==> text == "INCORRECT. " + explanation
    ensures text[|text| - |explanation|..] == explanation
  {
    (if correct then "CORRECT. " else "INCORRECT. ") + explanation
  }

  /** A password passes with a score of at least four. */
  predicate PasswordPasses(v: PasswordVerdict) {
    v.score >= 4
  }

  /** The feedback text of a password grading: `Score: <score>/4. <feedback>`. */
  function ScoreText(v: PasswordVerdict): (text: string) {
    "Score: " + Decimal(v.score) + "/4. " + v.feedback
  }

  /** Whether the text validator gets the generated answer and explanation spliced in. */
  predicate InjectsAnswer(challenge: Challenge, data: Option<Payload>) {
    && Truthy(challenge.promptGenerator)
    && data.Some? && data.value.Dynamic?
    && data.value.generated.answer != ""
    && data.value.generated.explanation != ""
  }

  /** `finalValidatorPrompt`: the validator prompt, with the dynamic answer and explanation spliced in when present. */
  function FinalValidatorPrompt(challenge: Challenge, data: Option<Payload>): (prompt: string)
    ensures !InjectsAnswer(challenge, data) ==> prompt == challenge.validatorPrompt
    ensures InjectsAnswer(challenge, data) ==>
              prompt == ReplaceFirst(ReplaceFirst(challenge.validatorPrompt, "[CORRECT_ANSWER]", data.value.generated.answer),
                                     "[EXPLANATION]", data.value.generated.explanation)
  {
    if InjectsAnswer(challenge, data) then
      ReplaceFirst(ReplaceFirst(challenge.validatorPrompt, "[CORRECT_ANSWER]", data.value.generated.answer),
                   "[EXPLANATION]", data.value.generated.explanation)
    else challenge.validatorPrompt
  }

  /** `completedMissionIds` after a graded attempt: the mission's id joins the set exactly on a pass. */
  function Record(completed: set<int>, id: int, correct: bool): (r: set<int>)
    ensures completed <= r
    ensures id in r <==> id in completed || correct
    ensures forall x :: x in r && x != id ==> x in completed
    ensures id in completed ==> r == completed
  {
    if correct then completed + {id} else completed
  }

  class App {
    /** `cases`, the catalog the trainer runs on. */
    const cases: seq<Case>
    var caseIndex: int
    var missionIndex: int
    var completed: set<int>
    var phase: GameState
    var messages: seq<Message>
    var awaitingChallenge: bool
    var challengeData: Option<Payload>
    var feedback: Option<Feedback>

    /**
     * The state every step keeps: the indices name a mission of the catalog,
     * only catalog ids are recorded, a payload exists only from the challenge
     * screen on and fits the current mission, feedback exists exactly on the
     * screens that show it, the case summary is shown only at the last mission
     * of a case, and the final screen only at the last mission of the last case.
     */
    predicate Valid()
      reads this
    {
      && NonEmpty(cases)
      && IsPosition(cases, caseIndex, missionIndex)
      && (forall id :: id in completed ==> IsMissionId(cases, id))
      && (challengeData.Some? ==> phase == InChallenge || phase == ChallengeComplete || phase == CaseSummary)
      && (challengeData.Some? ==> Fits(challengeData.value, MissionAt(cases, caseIndex, missionIndex).challenge))
      && (phase == ChallengeComplete ==> feedback.Some?)
      && (feedback.Some? ==> phase == ChallengeComplete || phase == CaseSummary)
      && (phase == CaseSummary ==> IsLastInCase(cases, caseIndex, missionIndex))
      && (phase == AllMissionsComplete ==> caseIndex == |cases| - 1 && IsLastInCase(cases, caseIndex, missionIndex))
    }

    /** `currentMission`. */
    function Current(): Mission
      reads this
      requires IsPosition(cases, caseIndex, missionIndex)
    {
      MissionAt(cases, caseIndex, missionIndex)
    }

    /**
     * The initial state (App.tsx:474-486) over a catalog (the trainer runs on
     * `Catalog.Cases`, which `CasesNonEmpty` shows to be non-empty): the intake screen
     * at the first mission of the first case, nothing recorded.
     */
    constructor(catalog: seq<Case>)
      requires NonEmpty(catalog)
      ensures Valid()
      ensures cases == catalog
      ensures caseIndex == 0 && missionIndex == 0 && completed == {} && phase == Intake
      ensures messages == [] && !awaitingChallenge && challengeData == None && feedback == None
    {
      cases := catalog;
      caseIndex, missionIndex := 0, 0;
      completed := {};
      phase := Intake;
      messages := [];
      awaitingChallenge := false;
      challengeData, feedback := None, None;
    }

    /**
     * `startTraining`: a fresh conversation with the mission's supervisor, which
     * holds only the supervisor's opening reply; the challenge is armed exactly
     * when that reply contains the mission's trigger phrase.
     */
    method StartTraining(answer: Outcome<string>) returns (call: Call)
      requires Valid()
      modifies this
      ensures Valid()
      ensures call == Converse(old(Current()).supervisorPrompt, [], BeginTrainingText)
      ensures phase == Training
      ensures messages == [Message(Supervisor, TutorResponse(answer))]
      ensures awaitingChallenge <==> Contains(TutorResponse(answer), Current().challengeTriggerPhrase)
      ensures challengeData == None && feedback == None
      ensures caseIndex == old(caseIndex) && missionIndex == old(missionIndex) && completed == old(completed)
    {
      var mission := Current();
      call := Converse(mission.supervisorPrompt, [], BeginTrainingText);
      messages := [];
      challengeData := None;
      feedback := None;
      awaitingChallenge := false;
      phase := Training;
      var reply := TutorResponse(answer);
      messages := [Message(Supervisor, reply)];
      if Contains(reply, mission.challengeTriggerPhrase) {
        awaitingChallenge := true;
      }
    }

    /**
     * `handleMissionSelect`: jump to any mission's briefing with a clean slate,
     * whatever the screen was; the record of passed missions is kept.
     */
    method HandleMissionSelect(c: int, m: int)
      requires Valid() && IsPosition(cases, c, m)
      modifies this
      ensures Valid()
      ensures caseIndex == c && missionIndex == m && phase == Briefing
      ensures messages == [] && challengeData == None && feedback == None && !awaitingChallenge
      ensures completed == old(completed)
    {
      caseIndex := c;
      missionIndex := m;
      phase := Briefing;
      messages := [];
      challengeData := None;
      feedback := None;
      awaitingChallenge := false;
    }

    /**
     * `handleSendMessage`: a blank line is ignored; otherwise the learner's line
     * and then the supervisor's reply are appended, the request carries the
     * earlier turns as history, and the challenge becomes armed once a reply
     * contains the trigger phrase (it is never disarmed here).
     */
    method HandleSendMessage(text: string, answer: Outcome<string>) returns (call: Option<Call>)
      requires Valid()
      modifies this`messages, this`awaitingChallenge
      ensures Valid()
      ensures IsBlank(text) ==> call == None && messages == old(messages) && awaitingChallenge == old(awaitingChallenge)
      ensures !IsBlank(text) ==> call == Some(Converse(Current().supervisorPrompt, History(old(messages)), text))
      ensures !IsBlank(text) ==> messages == old(messages) + [Message(User, text), Message(Supervisor, TutorResponse(answer))]
      ensures !IsBlank(text) ==>
                (awaitingChallenge <==> old(awaitingChallenge) || Contains(TutorResponse(answer), Current().challengeTriggerPhrase))
    {
      if IsBlank(text) {
        return None;
      }
      var mission := Current();
      var reply := TutorResponse(answer);
      var armed := awaitingChallenge || Contains(reply, mission.challengeTriggerPhrase);
      call := Some(Converse(mission.supervisorPrompt, History(messages), text));
      messages := messages + [Message(User, text), Message(Supervisor, reply)];
      awaitingChallenge := armed;
    }

    /**
     * `startChallenge`, called from the training screen: the challenge screen
     * opens with the payload the mission's kind calls for.  A generator that
     * fails sends the learner back to training with one error line and the
     * payload as it was.  `email` and `generated` are the answers of the e-mail and
     * the question generators; only the one the mission calls is read.
     */
    method StartChallenge(email: Outcome<PhishingChallenge>, generated: Outcome<DynamicChallenge>)
      returns (call: Option<Call>)
      requires Valid() && phase == Training
      modifies this
      ensures Valid()
      ensures var ch := Current().challenge;
        && (ch.kind == SpotThePhish ==> call == Some(GeneratePhishing(ch.prompt)))
        && (ch.kind == TextResponse && Truthy(ch.promptGenerator) ==> call == Some(GenerateDynamic(ch.promptGenerator.value)))
        && (ch.kind == PasswordStrength || (ch.kind == TextResponse && !Truthy(ch.promptGenerator)) ==> call == None)
      ensures var ch := Current().challenge;
        var failed := (ch.kind == SpotThePhish && email.Failed?)
                      || (ch.kind == TextResponse && Truthy(ch.promptGenerator) && generated.Failed?);
        && (failed ==> phase == Training && messages == old(messages) + [Message(Supervisor, ChallengeErrorText)]
                       && challengeData == old(challengeData))
        && (!failed ==> phase == InChallenge && messages == old(messages))
        && (!failed && ch.kind == SpotThePhish ==> challengeData == Some(Email(email.value)))
        && (!failed && ch.kind == TextResponse && Truthy(ch.promptGenerator) ==> challengeData == Some(Dynamic(generated.value)))
        && (ch.kind == TextResponse && !Truthy(ch.promptGenerator) ==> challengeData == Some(Question(ch.prompt)))
        && (ch.kind == PasswordStrength ==> challengeData == Some(NoFields))
      ensures caseIndex == old(caseIndex) && missionIndex == old(missionIndex) && completed == old(completed)
      ensures awaitingChallenge == old(awaitingChallenge) && feedback == old(feedback)
    {
      var ch := Current().challenge;
      phase := InChallenge;
      var outcome: Outcome<Payload>;
      if ch.kind == SpotThePhish {
        call := Some(GeneratePhishing(ch.prompt));
        match GeneratedPhishing(email)
        case Ok(e) => outcome := Ok(Email(e));
        case Failed => outcome := Failed;
      } else if ch.kind == TextResponse {
        if Truthy(ch.promptGenerator) {
          call := Some(GenerateDynamic(ch.promptGenerator.value));
          match GeneratedDynamic(generated)
          case Ok(d) => outcome := Ok(Dynamic(d));
          case Failed => outcome := Failed;
        } else {
          call := None;
          outcome := Ok(Question(ch.prompt));
        }
      } else {
        call := None;
        outcome := Ok(NoFields);
      }
      match outcome
      case Ok(payload) =>
        challengeData := Some(payload);
      case Failed =>
        messages := messages + [Message(Supervisor, ChallengeErrorText)];
        phase := Training;
    }

    /**
     * `handlePhishingClassification`: with no payload nothing happens; otherwise
     * the guess is graded against the e-mail's ground truth, the verdict and its
     * explanation become the feedback, a pass records the mission, and the
     * completion screen opens.
     */
    method HandlePhishingClassification(guess: bool)
      requires Valid()
      modifies this
      ensures Valid()
      ensures old(challengeData) == None ==>
                phase == old(phase) && completed == old(completed) && feedback == old(feedback)
      ensures old(challengeData).Some? ==>
                var correct := ClassifiedCorrectly(old(challengeData).value, guess);
                && phase == ChallengeComplete
                && feedback == Some(Feedback(correct, ClassificationText(correct, ExplanationOf(old(challengeData).value))))
                && completed == Record(old(completed), Current().id, correct)
      ensures caseIndex == old(caseIndex) && missionIndex == old(missionIndex) && messages == old(messages)
      ensures awaitingChallenge == old(awaitingChallenge) && challengeData == old(challengeData)
    {
      if challengeData.None? {
        return;
      }
      var payload := challengeData.value;
      var correct := ClassifiedCorrectly(payload, guess);
      feedback := Some(Feedback(correct, ClassificationText(correct, ExplanationOf(payload))));
      completed := Record(completed, Current().id, correct);
      phase := ChallengeComplete;
    }

    /**
     * `handlePasswordSubmit`: the password is graded by the validator; a score of
     * four or more passes and records the mission, the score and the advice
     * become the feedback, and the completion screen opens.
     */
    method HandlePasswordSubmit(password: string, answer: Outcome<PasswordVerdict>) returns (call: Call)
      requires Valid()
      modifies this
      ensures Valid()
      ensures call == ValidatePassword(PasswordPrompt(Current().challenge.validatorPrompt, password))
      ensures var v := PasswordResult(answer);
        && phase == ChallengeComplete
        && feedback == Some(Feedback(PasswordPasses(v), ScoreText(v)))
        && completed == Record(old(completed), Current().id, PasswordPasses(v))
      ensures answer.Failed? ==> !feedback.value.isCorrect && completed == old(completed)
      ensures caseIndex == old(caseIndex) && missionIndex == old(missionIndex) && messages == old(messages)
      ensures awaitingChallenge == old(awaitingChallenge) && challengeData == old(challengeData)
    {
      var mission := Current();
      call := ValidatePassword(PasswordPrompt(mission.challenge.validatorPrompt, password));
      var v := PasswordResult(answer);
      var correct := PasswordPasses(v);
      feedback := Some(Feedback(correct, ScoreText(v)));
      completed := Record(completed, mission.id, correct);
      phase := ChallengeComplete;
    }

    /**
     * `handleTextChallengeSubmit`: the learner's answer is graded by the
     * validator (with the generated answer spliced in for a dynamic challenge);
     * the validator's verdict and explanation become the feedback, a pass
     * records the mission, and the completion screen opens.
     */
    method HandleTextChallengeSubmit(plan: string, answer: Outcome<ResponseVerdict>) returns (call: Call)
      requires Valid()
      modifies this
      ensures Valid()
      ensures call == ValidateResponse(ResponsePrompt(FinalValidatorPrompt(Current().challenge, old(challengeData)), plan))
      ensures var v := ResponseResult(answer);
        && phase == ChallengeComplete
        && feedback == Some(Feedback(v.isCorrect, v.explanation))
        && completed == Record(old(completed), Current().id, v.isCorrect)
      ensures answer.Failed? ==> !feedback.value.isCorrect && completed == old(completed)
      ensures caseIndex == old(caseIndex) && missionIndex == old(missionIndex) && messages == old(messages)
      ensures awaitingChallenge == old(awaitingChallenge) && challengeData == old(challengeData)
    {
      var mission := Current();
      var prompt := FinalValidatorPrompt(mission.challenge, challengeData);
      call := ValidateResponse(ResponsePrompt(prompt, plan));
      var v := ResponseResult(answer);
      feedback := Some(Feedback(v.isCorrect, v.explanation));
      completed := Record(completed, mission.id, v.isCorrect);
      phase := ChallengeComplete;
    }

    /**
     * `goToNext`: the live challenge and its feedback are dropped; the last
     * mission of the last case leads to the final screen, the last mission of
     * any other case to the first mission of the next case, and any other
     * mission to the next one of its case.  The next mission is always the one
     * after the current one in reading order.
     */
    method GoToNext()
      requires Valid()
      modifies this
      ensures Valid()
      ensures challengeData == None && feedback == None
      ensures old(IsLastInCase(cases, caseIndex, missionIndex)) && old(caseIndex) == |cases| - 1 ==>
                phase == AllMissionsComplete && caseIndex == old(caseIndex) && missionIndex == old(missionIndex)
      ensures old(IsLastInCase(cases, caseIndex, missionIndex)) && old(caseIndex) < |cases| - 1 ==>
                phase == Briefing && caseIndex == old(caseIndex) + 1 && missionIndex == 0
      ensures !old(IsLastInCase(cases, caseIndex, missionIndex)) ==>
                phase == Briefing && caseIndex == old(caseIndex) && missionIndex == old(missionIndex) + 1
      ensures phase == Briefing ==> Ordinal(cases, caseIndex, missionIndex) == old(Ordinal(cases, caseIndex, missionIndex)) + 1
      ensures phase == AllMissionsComplete ==> Ordinal(cases, caseIndex, missionIndex) == TotalMissionCount(cases) - 1
      ensures completed == old(completed) && messages == old(messages) && awaitingChallenge == old(awaitingChallenge)
    {
      OrdinalSuccessor(cases, caseIndex, missionIndex);
      feedback := None;
      challengeData := None;
      var lastMission := IsLastInCase(cases, caseIndex, missionIndex);
      var lastCase := caseIndex == |cases| - 1;
      if lastMission && lastCase {
        phase := AllMissionsComplete;
        return;
      }
      if lastMission {
        caseIndex := caseIndex + 1;
        missionIndex := 0;
        phase := Briefing;
      } else {
        missionIndex := missionIndex + 1;
        phase := Briefing;
      }
    }

    /**
     * `handleProceedFromCompletion`: after the last mission of a case, and even
     * of the last case, the case summary opens with the indices, the payload
     * and the feedback untouched; otherwise it is `goToNext`.
     */
    method HandleProceedFromCompletion()
      requires Valid()
      modifies this
      ensures Valid()
      ensures old(IsLastInCase(cases, caseIndex, missionIndex)) ==>
                && phase == CaseSummary
                && caseIndex == old(caseIndex) && missionIndex == old(missionIndex)
                && challengeData == old(challengeData) && feedback == old(feedback)
      ensures !old(IsLastInCase(cases, caseIndex, missionIndex)) ==>
                && phase == Briefing && caseIndex == old(caseIndex) && missionIndex == old(missionIndex) + 1
                && challengeData == None && feedback == None
      ensures completed == old(completed) && messages == old(messages) && awaitingChallenge == old(awaitingChallenge)
    {
      if IsLastInCase(cases, caseIndex, missionIndex) {
        phase := CaseSummary;
      } else {
        GoToNext();
      }
    }

    /** The intake screen's button (App.tsx:674): the welcome message opens. */
    method OpenMessage()
      requires Valid() && phase == Intake
      modifies this
      ensures Valid()
      ensures phase == Welcome
      ensures caseIndex == old(caseIndex) && missionIndex == old(missionIndex) && completed == old(completed)
      ensures messages == old(messages) && awaitingChallenge == old(awaitingChallenge)
      ensures challengeData == old(challengeData) && feedback == old(feedback)
    {
      phase := Welcome;
    }

    /** The welcome screen's button (App.tsx:677): the first briefing opens. */
    method AcceptWelcome()
      requires Valid() && phase == Welcome
      modifies this
      ensures Valid()
      ensures phase == Briefing
      ensures caseIndex == old(caseIndex) && missionIndex == old(missionIndex) && completed == old(completed)
      ensures messages == old(messages) && awaitingChallenge == old(awaitingChallenge)
      ensures challengeData == old(challengeData) && feedback == old(feedback)
    {
      phase := Briefing;
    }

    /** The briefing screen's button (App.tsx:680): training starts. */
    method ProceedFromBriefing(answer: Outcome<string>) returns (call: Call)
      requires Valid() && phase == Briefing
      modifies this
      ensures Valid()
      ensures call == Converse(Current().supervisorPrompt, [], BeginTrainingText)
      ensures phase == Training && messages == [Message(Supervisor, TutorResponse(answer))]
      ensures awaitingChallenge <==> Contains(TutorResponse(answer), Current().challengeTriggerPhrase)
      ensures challengeData == None && feedback == None
      ensures caseIndex == old(caseIndex) && missionIndex == old(missionIndex) && completed == old(completed)
    {
      call := StartTraining(answer);
    }

    /**
     * The training screen's "Begin Assessment" button (App.tsx:692), shown only
     * while the challenge is armed: it is disarmed and the challenge starts.
     */
    method BeginAssessment(email: Outcome<PhishingChallenge>, generated: Outcome<DynamicChallenge>)
      returns (call: Option<Call>)
      requires Valid() && phase == Training && awaitingChallenge
      modifies this
      ensures Valid()
      ensures !awaitingChallenge
      ensures var ch := Current().challenge;
        && (ch.kind == SpotThePhish ==> call == Some(GeneratePhishing(ch.prompt)))
        && (ch.kind == TextResponse && Truthy(ch.promptGenerator) ==> call == Some(GenerateDynamic(ch.promptGenerator.value)))
        && (ch.kind == PasswordStrength || (ch.kind == TextResponse && !Truthy(ch.promptGenerator)) ==> call == None)
      ensures var ch := Current().challenge;
        var failed := (ch.kind == SpotThePhish && email.Failed?)
                      || (ch.kind == TextResponse && Truthy(ch.promptGenerator) && generated.Failed?);
        && (failed ==> phase == Training && messages == old(messages) + [Message(Supervisor, ChallengeErrorText)]
                       && challengeData == old(challengeData))
        && (!failed ==> phase == InChallenge && messages == old(messages))
        && (!failed && ch.kind == SpotThePhish ==> challengeData == Some(Email(email.value)))
        && (!failed && ch.kind == TextResponse && Truthy(ch.promptGenerator) ==> challengeData == Some(Dynamic(generated.value)))
        && (ch.kind == TextResponse && !Truthy(ch.promptGenerator) ==> challengeData == Some(Question(ch.prompt)))
        && (ch.kind == PasswordStrength ==> challengeData == Some(NoFields))
      ensures caseIndex == old(caseIndex) && missionIndex == old(missionIndex) && completed == old(completed)
      ensures feedback == old(feedback)
    {
      awaitingChallenge := false;
      call := StartChallenge(email, generated);
    }

    /** The completion screen's "Yes" button (App.tsx:741), shown only after a pass. */
    method ConfirmProceed()
      requires Valid() && phase == ChallengeComplete && feedback.value.isCorrect
      modifies this
      ensures Valid()
      ensures phase == CaseSummary || phase == Briefing
      ensures phase == CaseSummary <==> old(IsLastInCase(cases, caseIndex, missionIndex))
      ensures old(IsLastInCase(cases, caseIndex, missionIndex)) ==>
                && caseIndex == old(caseIndex) && missionIndex == old(missionIndex)
                && challengeData == old(challengeData) && feedback == old(feedback)
      ensures !old(IsLastInCase(cases, caseIndex, missionIndex)) ==>
                && caseIndex == old(caseIndex) && missionIndex == old(missionIndex) + 1
                && challengeData == None && feedback == None
      ensures completed == old(completed) && messages == old(messages) && awaitingChallenge == old(awaitingChallenge)
    {
      HandleProceedFromCompletion();
    }

    /** The completion screen's "Retry Mission" button (App.tsx:750), shown only after a failure. */
    method RetryMission(answer: Outcome<string>) returns (call: Call)
      requires Valid() && phase == ChallengeComplete && !feedback.value.isCorrect
      modifies this
      ensures Valid()
      ensures call == Converse(Current().supervisorPrompt, [], BeginTrainingText)
      ensures phase == Training && challengeData == None && feedback == None
      ensures messages == [Message(Supervisor, TutorResponse(answer))]
      ensures awaitingChallenge <==> Contains(TutorResponse(answer), Current().challengeTriggerPhrase)
      ensures caseIndex == old(caseIndex) && missionIndex == old(missionIndex) && completed == old(completed)
    {
      call := StartTraining(answer);
    }

    /** The case summary's button (App.tsx:764): on to the next case, or to the final screen after the last. */
    method CloseCaseFile()
      requires Valid() && phase == CaseSummary
      modifies this
      ensures Valid()
      ensures old(caseIndex) == |cases| - 1 ==>
                phase == AllMissionsComplete && caseIndex == old(caseIndex) && missionIndex == old(missionIndex)
      ensures old(caseIndex) < |cases| - 1 ==> phase == Briefing && caseIndex == old(caseIndex) + 1 && missionIndex == 0
      ensures challengeData == None && feedback == None && completed == old(completed)
      ensures messages == old(messages) && awaitingChallenge == old(awaitingChallenge)
    {
      GoToNext();
    }
  }
}
