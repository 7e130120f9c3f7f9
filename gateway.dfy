/**
 * The local contract of the evaluation service client (services/geminiService.ts).
 * The calls themselves (model, schema, network, JSON parsing) are not modelled:
 * what the service answered arrives as an `Outcome`, and each function below
 * says what the client hands back to the trainer for that answer and which
 * prompt it sends.
 */
module Gateway {
  import opened Wrappers
  import opened Text
  import opened Types

  /** The placeholder the text-challenge validator prompts carry for the learner's answer. */
  const UserInputPlaceholder: string := "[USER_INPUT]"

  /** A validator prompt with the placeholder between `before` and `after`. */
  function Template(before: string, after: string): (prompt: string)
    ensures Contains(prompt, UserInputPlaceholder)
  {
    ContainsInfix(before, UserInputPlaceholder, after);
    before + UserInputPlaceholder + after
  }

  /**
   * What `getTutorResponse` returns when the chat call throws.  Written in
   * pieces, which is the same string; each piece is short, so the facts about
   * which characters it lacks can be proved.
   */
  const TutorFallback: string :=
    "An error occurred " + "while communicating " + "with the supervisor. " + "Please try again."

  // Characters the apology lacks, one lemma each, and its length: together
  // they keep every trigger phrase of the catalog out of it.

  lemma FallbackLacksQuestionMark() ensures '?' !in TutorFallback {}
  lemma FallbackLacksLowerF() ensures 'f' !in TutorFallback {}
  lemma FallbackLacksUpperF() ensures 'F' !in TutorFallback {}
  lemma FallbackLacksHyphen() ensures '-' !in TutorFallback {}
  lemma FallbackLacksComma() ensures ',' !in TutorFallback {}
  lemma FallbackLength() ensures |TutorFallback| == 76 {}

  /** What `validatePasswordStrength` returns when the call throws. */
  const PasswordFallbackFeedback: string := "Could not analyze password strength due to an error."

  /** What `validateChallengeResponse` returns when the call throws. */
  const ResponseFallbackExplanation: string := "Could not validate your plan due to an error."

  /** A history entry of the chat API: `'user'` or `'model'`, and the text part. */
  datatype Role = UserRole | ModelRole
  datatype HistoryEntry = HistoryEntry(role: Role, text: string)

  /** The JSON answers of the three structured calls. */
  datatype PasswordVerdict = PasswordVerdict(score: int, feedback: string)
  datatype ResponseVerdict = ResponseVerdict(isCorrect: bool, explanation: string)
  datatype DynamicChallenge = DynamicChallenge(question: string, answer: string, explanation: string)

  /** A request the trainer issues: which operation, with which prompt or conversation. */
  datatype Call =
    | Converse(systemInstruction: string, history: seq<HistoryEntry>, newMessage: string)
    | GeneratePhishing(prompt: string)
    | ValidatePassword(fullPrompt: string)
    | ValidateResponse(fullPrompt: string)
    | GenerateDynamic(promptGenerator: string)

  /** `getTutorResponse`: the reply text, or the fixed apology; it never throws. */
  function TutorResponse(answer: Outcome<string>): (reply: string)
    ensures answer.Ok? ==> reply == answer.value
    ensures answer.Failed? ==> reply == TutorFallback
  {
    match answer
    case Ok(text) => text
    case Failed => TutorFallback
  }

  /** `generatePhishingChallenge`: a failure is rethrown, never replaced by a default e-mail. */
  function GeneratedPhishing(answer: Outcome<PhishingChallenge>): (r: Outcome<PhishingChallenge>)
    ensures r.Failed? <==> answer.Failed?
    ensures answer.Ok? ==> r == Ok(answer.value)
  {
    match answer
    case Ok(email) => Ok(email)
    case Failed => Failed
  }

  /** `generateDynamicTextChallenge`: likewise rethrows on failure. */
  function GeneratedDynamic(answer: Outcome<DynamicChallenge>): (r: Outcome<DynamicChallenge>)
    ensures r.Failed? <==> answer.Failed?
    ensures answer.Ok? ==> r == Ok(answer.value)
  {
    match answer
    case Ok(challenge) => Ok(challenge)
    case Failed => Failed
  }

  /** The prompt `validatePasswordStrength` sends: the prompt, a space, and the password in double quotes. */
  function PasswordPrompt(prompt: string, password: string): (full: string)
    ensures |full| == |prompt| + |password| + 3
    ensures full[..|prompt|] == prompt
    ensures full[|prompt|..|prompt| + 2] == " \""
    ensures full[|prompt| + 2..|full| - 1] == password
    ensures full[|full| - 1] == '"'
  {
    prompt + " \"" + password + "\""
  }

  /** The password quoted in a full prompt built from `prompt`. */
  function QuotedPassword(prompt: string, full: string): string
    requires |prompt| + 3 <= |full|
  {
    full[|prompt| + 2..|full| - 1]
  }

  /** The password can be read back from the prompt: two passwords never give the same prompt. */
  lemma PasswordPromptRoundTrip(prompt: string, password: string)
    ensures QuotedPassword(prompt, PasswordPrompt(prompt, password)) == password
  {
  }

  /** `validatePasswordStrength`: the service's verdict, or score 0 with a fixed explanation. */
  function PasswordResult(answer: Outcome<PasswordVerdict>): (v: PasswordVerdict)
    ensures answer.Ok? ==> v == answer.value
    ensures answer.Failed? ==> v == PasswordVerdict(0, PasswordFallbackFeedback)
  {
    match answer
    case Ok(verdict) => verdict
    case Failed => PasswordVerdict(0, PasswordFallbackFeedback)
  }

  /** The prompt `validateChallengeResponse` sends: the first placeholder replaced by the learner's text. */
  function ResponsePrompt(validatorPrompt: string, userInput: string): string {
    ReplaceFirst(validatorPrompt, UserInputPlaceholder, userInput)
  }

  /**
   * Everything around the first placeholder is kept; the learner's text (when it has
   * no `$` replacement pattern) stands in its place; a later placeholder stays.
   */
  lemma ResponsePromptSplices(validatorPrompt: string, userInput: string)
    requires Contains(validatorPrompt, UserInputPlaceholder) && '$' !in userInput
    ensures exists i ::
              && 0 <= i <= |validatorPrompt| - |UserInputPlaceholder|
              && OccursAt(validatorPrompt, UserInputPlaceholder, i)
              && (forall j :: 0 <= j < i ==> !OccursAt(validatorPrompt, UserInputPlaceholder, j))
              && ResponsePrompt(validatorPrompt, userInput)
                 == validatorPrompt[..i] + userInput + validatorPrompt[i + |UserInputPlaceholder|..]
  {
    ReplaceFirstSplices(validatorPrompt, UserInputPlaceholder, userInput);
  }

  /** With no `]` before the placeholder, no occurrence of it starts inside `before`. */
  lemma NoPlaceholderInside(before: string, after: string, j: nat)
    requires ']' !in before && j < |before|
    ensures !OccursAt(Template(before, after), UserInputPlaceholder, j)
  {
    var s := Template(before, after);
    var p := UserInputPlaceholder;
    if j + |p| <= |s| {
      var k := j + |p| - 1;
      if k < |before| {
        assert s[k] == before[k];
      } else {
        assert s[k] == p[k - |before|];
      }
      assert s[j..j + |p|][|p| - 1] == s[k];
    }
  }

  /**
   * For a template whose text before the placeholder has no `]` (so no earlier,
   * overlapping placeholder), the learner's text lands exactly where the
   * placeholder stood.
   */
  lemma ResponsePromptOfTemplate(before: string, after: string, userInput: string)
    requires ']' !in before && '$' !in userInput
    ensures ResponsePrompt(Template(before, after), userInput) == before + userInput + after
  {
    var s := Template(before, after);
    var p := UserInputPlaceholder;
    var i := IndexOf(s, p).value;
    assert OccursAt(s, p, |before|) by {
      assert s[|before|..|before| + |p|] == p;
    }
    forall j | 0 <= j < |before| ensures !OccursAt(s, p, j) {
      NoPlaceholderInside(before, after, j);
    }
    SubstitutionLiteral(userInput, p, s[..i], s[i + |p|..]);
    assert s[..i] == before;
    assert s[i + |p|..] == after;
  }

  /** `validateChallengeResponse`: the service's verdict, or "not correct" with a fixed explanation. */
  function ResponseResult(answer: Outcome<ResponseVerdict>): (v: ResponseVerdict)
    ensures answer.Ok? ==> v == answer.value
    ensures answer.Failed? ==> v == ResponseVerdict(false, ResponseFallbackExplanation)
  {
    match answer
    case Ok(verdict) => verdict
    case Failed => ResponseVerdict(false, ResponseFallbackExplanation)
  }
}
