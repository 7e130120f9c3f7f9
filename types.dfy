/**
 * The shapes of the trainer's data (types.ts).  The TypeScript string-literal
 * unions become enumerations; `Tag`/`Parse` pairs give back the literal each
 * value stands for, so that "exactly one of these three strings" is a fact
 * proved below rather than a comment.
 */
module Types {
  import opened Wrappers

  /** Who wrote a chat message: `'user' | 'supervisor' | 'ai-assistant'`. */
  datatype Sender = User | Supervisor | AiAssistant

  function SenderTag(s: Sender): string {
    match s
    case User => "user"
    case Supervisor => "supervisor"
    case AiAssistant => "ai-assistant"
  }

  function ParseSender(tag: string): Option<Sender> {
    if tag == "user" then Some(User)
    else if tag == "supervisor" then Some(Supervisor)
    else if tag == "ai-assistant" then Some(AiAssistant)
    else None
  }

  /** A sender field holds exactly one of the three literals, and each literal names one sender. */
  lemma SenderTagsExact(s: Sender, tag: string)
    ensures ParseSender(tag) == Some(s) <==> SenderTag(s) == tag
    ensures ParseSender(tag).Some? <==> tag in {"user", "supervisor", "ai-assistant"}
  {
  }

  /** One line of the training conversation. */
  datatype Message = Message(sender: Sender, text: string)

  /** A generated e-mail to classify, with the ground truth and the reason for it. */
  datatype PhishingChallenge = PhishingChallenge(
    senderName: string,
    senderEmail: string,
    subject: string,
    body: string,
    isPhishing: bool,
    explanation: string)

  /** `'spot-the-phish' | 'password-strength' | 'text-response'`. */
  datatype ChallengeType = SpotThePhish | PasswordStrength | TextResponse

  function ChallengeTypeTag(t: ChallengeType): string {
    match t
    case SpotThePhish => "spot-the-phish"
    case PasswordStrength => "password-strength"
    case TextResponse => "text-response"
  }

  function ParseChallengeType(tag: string): Option<ChallengeType> {
    if tag == "spot-the-phish" then Some(SpotThePhish)
    else if tag == "password-strength" then Some(PasswordStrength)
    else if tag == "text-response" then Some(TextResponse)
    else None
  }

  /** A challenge type is exactly one of the three literals, and each literal names one type. */
  lemma ChallengeTypeTagsExact(t: ChallengeType, tag: string)
    ensures ParseChallengeType(tag) == Some(t) <==> ChallengeTypeTag(t) == tag
    ensures ParseChallengeType(tag).Some? <==> tag in {"spot-the-phish", "password-strength", "text-response"}
  {
  }

  /**
   * The graded exercise of a mission.  `promptGenerator` is not declared in
   * types.ts, yet App.tsx reads it (as `undefined` for every entry of the
   * catalog); it is kept here as an optional field so that the dynamic branch
   * of the handlers can be stated.
   */
  datatype Challenge = Challenge(
    kind: ChallengeType,
    prompt: string,
    validatorPrompt: string,
    promptGenerator: Option<string>)

  /** One lesson: a briefing, a supervisor persona, a challenge and its trigger phrases. */
  datatype Mission = Mission(
    id: int,
    title: string,
    briefing: string,
    learningObjective: string,
    supervisorPrompt: string,
    challenge: Challenge,
    challengeTriggerPhrase: string,
    caseCompleteTriggerPhrase: Option<string>,
    trainingCompleteTriggerPhrase: Option<string>)

  /** A themed, ordered group of missions with a closing lesson. */
  datatype Case = Case(
    id: int,
    title: string,
    description: string,
    missions: seq<Mission>,
    summary: string)
}
