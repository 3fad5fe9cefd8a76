/** The dialogue state machine of conversation_handler.py: a ConversationState
    object that the handler updates in place, and a ConversationHandler that
    sanitises each message, records it, checks for an exit and dispatches on
    the phase to the greeting, information-gathering, tech-stack,
    technical-question, conclusion and fallback steps.

    Every call into the language-model gateway is recorded in the gateway's
    log, so the contracts say which prompt each step sends and which reply
    it passes on. */
module Conversation {
  import opened Ascii
  import opened Wrappers
  import opened Config
  import Utils
  import Llm

  // ===========================================================================
  // Fixed replies and prompt templates

  /** The answer to a message that sanitises to nothing. */
  function Reprompt(): string {
    "I didn't quite catch that. " + "Could you please try again?"
  }

  /** _generate_field_prompt's request to the model (conversation_handler.py:293-302). */
  function FieldPrompt(field: string, previousResponse: string): string {
    "The candidate just told us: \"" + previousResponse
    + "\"\n        \n" + "Now we need to ask for "
    + "their " + ReplaceChar(field, '_', ' ')
    + ".\n" + "Generate a natural, "
    + "conversational response " + "that:\n"
    + "1. Briefly acknowledges " + "what they said\n"
    + "2. Asks for: " + FieldQuestion(field)
    + "\n\n" + "Keep it friendly and "
    + "concise (1-2 sentences)."
  }

  /** _generate_validation_response (conversation_handler.py:306-320). */
  function ValidationResponse(field: string, invalidValue: string): (r: string)
    ensures var lead := "I notice the email '";
            field == Email ==> |lead| + |invalidValue| <= |r| && r[..|lead|] == lead
                               && r[|lead|..|lead| + |invalidValue|] == invalidValue
  {
    if field == Email then
      var lead := "I notice the email '";
      var rest := "' might have a small typo. " + "Could you please provide a "
                  + "valid email address? For " + "example: name@example.com";
      assert (lead + invalidValue + rest)[..|lead|] == lead;
      assert (lead + invalidValue + rest)[|lead|..|lead| + |invalidValue|] == invalidValue;
      lead + invalidValue + rest
    else if field == Phone then
      "I'd like to make sure I " + "have your correct phone "
      + "number. Could you please " + "provide it in a standard "
      + "format? For example: " + "+1234567890 or 123-456-7890"
    else "Could you please provide a " + "valid " + field + "?"
  }

  /** Only the email reply quotes what was typed: the phone reply and the
      reply for any other field do not depend on it. */
  lemma ValidationResponseIgnoresValue(field: string, a: string, b: string)
    requires field != Email
    ensures ValidationResponse(field, a) == ValidationResponse(field, b)
  {
  }

  /** _generate_tech_stack_prompt (conversation_handler.py:322-332). */
  function TechStackPrompt(info: map<string, string>): (r: string)
    ensures var lead := "Thank you for sharing that information, ";
            var name := if FullName in info then info[FullName] else "there";
            |lead| + |name| <= |r| && r[..|lead|] == lead && r[|lead|..|lead| + |name|] == name
  {
    var lead := "Thank you for sharing that " + "information, ";
    var name := Utils.Get(info, FullName, "there");
    var rest := "! Now, let's talk about " + "your technical skills. "
                + "Please tell me about your " + "tech stack - including the "
                + "programming languages, " + "frameworks, databases, and "
                + "tools you're proficient in. " + "The more detail you "
                + "provide, the better I can " + "assess your technical "
                + "background.";
    assert lead == "Thank you for sharing that information, ";
    assert (lead + name + rest)[..|lead|] == lead;
    assert (lead + name + rest)[|lead|..|lead| + |name|] == name;
    lead + name + rest
  }

  /** The answer to a tech stack in which nothing was recognised. */
  function TechStackReprompt(): string {
    "I'd like to understand your " + "technical background "
    + "better. Could you please " + "specify the programming "
    + "languages, frameworks, " + "databases, or tools you "
    + "work with? For example: " + "Python, Django, PostgreSQL, "
    + "Docker, etc."
  }

  /** The reply that acknowledges the stack and carries the generated questions. */
  function TechStackAck(techList: string, questions: string): string {
    "Excellent! I can see you " + "have experience with " + techList
    + ". That's a great " + "combination of skills!\n\n"
    + "Now, I'd like to ask you " + "some technical questions to "
    + "better understand your " + "proficiency. Please take "
    + "your time with each " + "question.\n\n"
    + questions
    + "\n\n" + "Please share your thoughts "
    + "on these questions. You can " + "answer them in any order, "
    + "or let me know if you'd " + "like to discuss any "
    + "particular topic in more " + "detail."
  }

  /** The request that has the model evaluate an answer (conversation_handler.py:231-244). */
  function EvaluationPrompt(context: string, message: string): string {
    "The candidate has provided " + "responses to technical "
    + "questions.\n        \n" + "Previous context:\n"
    + context + "\n\nTheir latest response: " + message
    + "\n\n" + "Evaluate their response "
    + "professionally:\n" + "1. Acknowledge their answer "
    + "briefly\n" + "2. If they answered well, "
    + "provide positive feedback\n" + "3. If they want to discuss "
    + "more or have questions, " + "engage appropriately\n"
    + "4. After sufficient " + "technical discussion, ask "
    + "if they have any questions " + "about the role or company\n\n"
    + "Keep the response concise " + "and professional. Do not "
    + "provide detailed answers or " + "solutions."
  }

  /** The request sent for a message in the conclusion phase (conversation_handler.py:269-272). */
  function ClosingPrompt(message: string): string {
    "The candidate said: '" + message
    + "'. Respond briefly and " + "professionally, then remind "
    + "them that their application " + "is complete and they can "
    + "type 'bye' to end."
  }

  /** `history[-n:]` */
  function LastN(h: seq<Message>, n: nat): (r: seq<Message>)
    ensures |r| == Utils.Min(n, |h|)
    ensures r == h[|h| - |r|..]
  {
    if |h| > n then h[|h| - n..] else h
  }

  // ===========================================================================
  // Moving from technical questions to the conclusion

  const ConclusionIndicators: seq<string> := [
    "that's all", "done", "finished", "no more", "nothing else",
    "that covers", "i think that's it", "any questions about"
  ]

  /** Some conclusion indicator occurs in the lower-cased message. */
  predicate ConclusionIndicated(message: string) {
    exists k :: 0 <= k < |ConclusionIndicators| && Contains(Lower(message), ConclusionIndicators[k])
  }

  /** "that's all" and "no more" are exit keywords as well, and the exit check
      comes first, so a message that holds one of them ends the conversation
      instead of moving it to the conclusion. */
  lemma IndicatorsShadowedByExit(message: string)
    requires Contains(Lower(message), ConclusionIndicators[0])
             || Contains(Lower(message), ConclusionIndicators[3])
    ensures ConclusionIndicated(message)
    ensures Utils.ExitIntent(message)
  {
    assert ConclusionIndicators[0] == ExitKeywords[8];
    assert ConclusionIndicators[3] == ExitKeywords[9];
    var lower := Lower(message);
    if Contains(lower, ExitKeywords[8]) {
      Utils.ContainsStrip(lower, ExitKeywords[8]);
    } else {
      Utils.ContainsStrip(lower, ExitKeywords[9]);
    }
  }

  // ===========================================================================
  // Information gathering as a function of the state it reads

  /** What the gathering step asks next: a field, the tech stack, or the
      same field again after an invalid value. */
  datatype Ask = AskField(field: string) | AskTechStack | Invalid(field: string)

  /** The candidate information, the field cursor and the next question after
      one gathering step. */
  datatype Gathered = Gathered(info: map<string, string>, index: int, ask: Ask)

  /** The value stored for a field: years of experience as the rendering of
      the number read from the message when there is one, everything else
      as written. */
  function StoredValue(field: string, message: string): string {
    if field == YearsOfExperience then
      match Utils.ExperienceOf(message)
      case Some(d) => Utils.Render(d)
      case None => message
    else message
  }

  /** conversation_handler.py:128-173 without its side effects: the first
      message is the name; every later one is checked, when it is an email
      or a phone number, and stored under the field asked for before it. */
  function Gather(info: map<string, string>, index: int, message: string): (r: Gathered)
    requires 0 <= index <= |FieldsToCollect|
    ensures info.Keys <= r.info.Keys
    ensures forall k :: k in r.info && k !in FieldsToCollect ==> k in info && r.info[k] == info[k]
  {
    if index == 0 then
      Gathered(info[FullName := message], 2, AskField(FieldsToCollect[1]))
    else
      var prev := FieldsToCollect[index - 1];
      if prev == Email && !Utils.ValidateEmail(message) then Gathered(info, index, Invalid(Email))
      else if prev == Phone && !Utils.ValidatePhone(message) then Gathered(info, index, Invalid(Phone))
      else
        var stored := info[prev := StoredValue(prev, message)];
        if index >= |FieldsToCollect| then Gathered(stored, index, AskTechStack)
        else Gathered(stored, index + 1, AskField(FieldsToCollect[index]))
  }

  /** The first n fields have been stored. */
  predicate Collected(info: map<string, string>, n: int) {
    forall k :: 0 <= k < n && k < |FieldsToCollect| ==> FieldsToCollect[k] in info
  }

  lemma CollectedStore(info: map<string, string>, n: int, key: string, value: string)
    requires Collected(info, n)
    ensures Collected(info[key := value], n)
  {
  }

  /** The cursor stays within the six fields; the entries before the field
      being asked for are present, and all six once the tech stack is asked
      for; the tech stack is asked for exactly when the sixth field arrives. */
  lemma GatherKeepsFields(info: map<string, string>, index: int, message: string)
    requires 0 <= index <= |FieldsToCollect|
    requires Collected(info, index - 1)
    ensures var g := Gather(info, index, message);
            && 2 <= g.index <= |FieldsToCollect|
            && index <= g.index
            && Collected(g.info, g.index - 1)
            && (g.ask == AskTechStack <==> index == |FieldsToCollect|)
            && (g.ask == AskTechStack ==> Collected(g.info, |FieldsToCollect|))
            && (g.ask.AskField? ==> g.ask.field == FieldsToCollect[g.index - 1])
  {
    var g := Gather(info, index, message);
    if index == 0 {
      CollectedStore(info, 0, FullName, message);
      assert Collected(g.info, 1);
    } else {
      var prev := FieldsToCollect[index - 1];
      CollectedStore(info, index - 1, prev, StoredValue(prev, message));
      if !g.ask.Invalid? {
        assert Collected(g.info, index);
      }
    }
  }

  /** The first message is stored as the name, whatever it says. */
  lemma GatherStoresName(info: map<string, string>, message: string)
    ensures Gather(info, 0, message).info == info[FullName := message]
    ensures Gather(info, 0, message).ask == AskField(Email)
  {
  }

  /** An invalid email or phone number is asked for again, and nothing is
      stored or advanced; these are the only two rejections. */
  lemma GatherRejects(info: map<string, string>, index: int, message: string)
    requires 0 <= index <= |FieldsToCollect|
    ensures var g := Gather(info, index, message);
            && (g.ask.Invalid? <==>
                  (index == 2 && !Utils.ValidateEmail(message))
                  || (index == 3 && !Utils.ValidatePhone(message)))
            && (g.ask.Invalid? ==> g.info == info && g.index == index)
            && (g.ask == Invalid(Email) <==> index == 2 && !Utils.ValidateEmail(message))
  {
  }

  /** Once past the name, a message that is not rejected is stored under the
      field asked for before it, the years of experience as the number read
      from it when there is one. */
  lemma GatherStores(info: map<string, string>, index: int, message: string)
    requires 0 < index <= |FieldsToCollect|
    ensures var g := Gather(info, index, message);
            !g.ask.Invalid? ==>
              && g.info == info[FieldsToCollect[index - 1] := StoredValue(FieldsToCollect[index - 1], message)]
              && (index == 4 ==>
                    g.info[YearsOfExperience]
                      == match Utils.ExperienceOf(message)
                         case Some(d) => Utils.Render(d)
                         case None => message)
  {
  }

  // ===========================================================================
  // Years of experience as the questions step reads them back

  /** `float(info.get('years_of_experience', '0'))`, with a failed conversion as 0. */
  function ExperienceYears(info: map<string, string>): Llm.Years {
    match Utils.ParseDecimal(Utils.Get(info, YearsOfExperience, "0"))
    case Some(d) => Llm.FloatYears(d)
    case None => Llm.ZeroYears
  }

  /** Leading zeros do not change a number. */
  lemma {:induction false} NatOfLeadingZero(w: string)
    ensures Utils.NatOf("0" + w) == Utils.NatOf(w)
    decreases |w|
  {
    if w != [] {
      var init := w[..|w| - 1];
      assert ("0" + w)[..|w|] == "0" + init;
      NatOfLeadingZero(init);
    }
  }

  lemma {:induction false} NatOfDropLeadingZeros(w: string)
    ensures Utils.NatOf(Utils.DropLeadingZeros(w)) == Utils.NatOf(w)
    decreases |w|
  {
    if |w| > 1 && w[0] == '0' {
      NatOfDropLeadingZeros(w[1..]);
      assert w == "0" + w[1..];
      NatOfLeadingZero(w[1..]);
    }
  }

  lemma ParseDecimalStartsWithDigit(s: string)
    ensures Utils.ParseDecimal(s).Some? ==> |s| > 0 && IsDigit(s[0])
  {
    var r := Utils.ParseDecimal(s);
    if r.Some? {
      var w := r.value.whole;
      assert |w| > 0 && IsDigit(w[0]);
      var p := Utils.FindFirst(s, '.');
      if p < 0 {
        assert w == s;
      } else {
        assert w == s[..p];
      }
    }
  }

  /** The difficulty the questions are pitched at is the band of the number
      the candidate gave: a stored rendering is read back as the same whole
      years, and a message without digits reads as 0 years. */
  lemma StoredYearsBand(info: map<string, string>, message: string)
    ensures var y := ExperienceYears(info[YearsOfExperience := StoredValue(YearsOfExperience, message)]);
            match Utils.ExperienceOf(message)
            case Some(d) => Llm.YearsBand(y) == Llm.Band(Utils.Value(d))
            case None => Llm.YearsBand(y) == Llm.EntryLevel()
  {
    match Utils.ExperienceOf(message)
    case Some(d) =>
      ExperienceWellFormed(message);
      Utils.RenderParseRoundTrip(d);
      var s := Utils.Render(d);
      var e := Utils.ParseDecimal(s).value;
      assert Utils.Get(info[YearsOfExperience := s], YearsOfExperience, "0") == s;
      NatOfDropLeadingZeros(d.whole);
      Llm.YearsBandIsBand(Llm.FloatYears(d));
    case None =>
      assert Utils.FirstNumber(message).None?;
      ParseDecimalStartsWithDigit(message);
  }

  /** What validate_experience returns is a well-formed decimal. */
  lemma ExperienceWellFormed(message: string)
    ensures Utils.ExperienceOf(message).Some? ==> Utils.WellFormed(Utils.ExperienceOf(message).value)
  {
    if Utils.FirstNumber(message).None? {
      Utils.WordFromWellFormed(Lower(message), 0);
    }
  }

  /** `info.get('desired_positions', 'Software Developer')` */
  function PositionOf(info: map<string, string>): string {
    Utils.Get(info, DesiredPositions, "Software Developer")
  }

  // ===========================================================================
  // The state and the handler

  /** A field, a stack, a questions step or a conclusion that follows the
      collection of all six fields. */
  predicate Later(p: Phase) {
    p == TechStack || p == TechnicalQuestions || p == Conclusion
  }

  /** The handler's state as one step sees it on entry: the fields of
      ConversationState it reads or writes, and the gateway's record. */
  datatype View = View(phase: Phase, info: map<string, string>, index: int, history: seq<Message>,
                       parsed: seq<string>, questions: string, asked: bool, model: Llm.Snapshot)

  /** The dataclass of conversation_handler.py:28-41. */
  class ConversationState {
    var phase: Phase
    var candidateInfo: map<string, string>
    var currentFieldIndex: int
    var conversationHistory: seq<Message>
    var techStackParsed: seq<string>
    var technicalQuestionsAsked: bool
    var questionsGenerated: string
    var awaitingValidation: Option<string>

    /** The cursor stays within the six fields, the fields before it are
        present, all six are present from the tech-stack phase on, and the
        questions phase is only reached with a recognised stack. */
    predicate Valid()
      reads this
    {
      && 0 <= currentFieldIndex <= |FieldsToCollect|
      && (phase == Greeting ==> currentFieldIndex == 0)
      && Collected(candidateInfo, currentFieldIndex - 1)
      && (Later(phase) ==> Collected(candidateInfo, |FieldsToCollect|))
      && (phase == TechnicalQuestions || phase == Conclusion ==>
            TechStackField in candidateInfo && techStackParsed != [] && technicalQuestionsAsked)
    }

    /** The defaults of the dataclass. */
    constructor()
      ensures Valid()
      ensures phase == Greeting && candidateInfo == map[] && currentFieldIndex == 0
      ensures conversationHistory == [] && techStackParsed == []
      ensures !technicalQuestionsAsked && questionsGenerated == "" && awaitingValidation == None
    {
      phase := Greeting;
      candidateInfo := map[];
      currentFieldIndex := 0;
      conversationHistory := [];
      techStackParsed := [];
      technicalQuestionsAsked := false;
      questionsGenerated := "";
      awaitingValidation := None;
    }
  }

  class ConversationHandler {
    const llm: Llm.LlmClient
    var state: ConversationState

    predicate Valid()
      reads this, state, llm
    {
      state.Valid() && llm.Valid()
    }

    /** The assistant turn r was appended to the history, and nothing else. */
    predicate Replied(before: seq<Message>, r: string)
      reads this, state
    {
      state.conversationHistory == before + [Message(Assistant, r)]
    }

    ghost function Current(): View
      reads this, state, llm, llm.remote
    {
      View(state.phase, state.candidateInfo, state.currentFieldIndex, state.conversationHistory,
           state.techStackParsed, state.questionsGenerated, state.technicalQuestionsAsked, llm.Snap())
    }

    /** Since before, the gateway answered one more request, this prompt, with
        r, and kept its mode. */
    ghost predicate Asked(before: View, prompt: string, r: string)
      reads llm
    {
      llm.log == before.model.log + [Llm.Exchange(prompt, r)] && llm.demoMode == before.model.demoMode
    }

    /** Since before, the gateway was not called. */
    ghost predicate NotCalled(before: View)
      reads llm, llm.remote
    {
      llm.Snap() == before.model
    }

    /** The parsed stack, the questions and their flag are as before. */
    predicate StackKept(before: View)
      reads this, state
    {
      state.techStackParsed == before.parsed && state.questionsGenerated == before.questions
      && state.technicalQuestionsAsked == before.asked
    }

    /** Only the phase, the history and the gateway may have moved since before. */
    predicate FieldsKept(before: View)
      reads this, state
    {
      state.candidateInfo == before.info && state.currentFieldIndex == before.index && StackKept(before)
    }

    // -------------------------------------------------------------------------
    // What each step does, from the state before it to the state after it

    /** _handle_greeting: the name is stored and the email asked for. */
    ghost predicate GreetingStep(before: View, message: string, r: string)
      reads this, state, llm
    {
      && state.phase == InfoGathering
      && state.candidateInfo == before.info[FullName := message]
      && state.currentFieldIndex == 2
      && Asked(before, FieldPrompt(Email, message), r)
      && StackKept(before) && Replied(before.history, r)
    }

    /** _handle_info_gathering, as Gather says: a rejected email or phone
        number is answered without the model, the sixth field is followed
        by the tech-stack prompt, any other field by the model's question. */
    ghost predicate InfoStep(before: View, message: string, r: string)
      reads this, state, llm, llm.remote
    {
      && 0 <= before.index <= |FieldsToCollect|
      && var g := Gather(before.info, before.index, message);
         && state.candidateInfo == g.info
         && state.currentFieldIndex == g.index
         && state.phase == (if g.ask == AskTechStack then TechStack else InfoGathering)
         && (match g.ask
             case AskField(f) => Asked(before, FieldPrompt(f, message), r)
             case AskTechStack => r == TechStackPrompt(g.info) && NotCalled(before)
             case Invalid(f) => r == ValidationResponse(f, message) && NotCalled(before))
         && StackKept(before) && Replied(before.history, r)
    }

    /** _handle_tech_stack: the raw message is stored and parsed; nothing
        recognised asks again without the model, otherwise the questions are
        generated for the parsed stack, the stored years and the position,
        and acknowledged in the reply. */
    ghost predicate TechStackStep(before: View, message: string, r: string)
      reads this, state, llm, llm.remote
    {
      && state.candidateInfo == before.info[TechStackField := message]
      && Utils.TechStackOf(state.techStackParsed, message)
      && state.currentFieldIndex == before.index
      && (state.techStackParsed == [] ==>
            && state.phase == before.phase && r == TechStackReprompt() && NotCalled(before)
            && state.questionsGenerated == before.questions && state.technicalQuestionsAsked == before.asked)
      && (state.techStackParsed != [] ==>
            && state.phase == TechnicalQuestions && state.technicalQuestionsAsked
            && Asked(before, Llm.TechnicalQuestionsPrompt(state.techStackParsed, ExperienceYears(state.candidateInfo),
                                                          PositionOf(state.candidateInfo)), state.questionsGenerated)
            && r == TechStackAck(Join(state.techStackParsed, ", "), state.questionsGenerated))
      && Replied(before.history, r)
    }

    /** _handle_technical_questions: the answer is sent for evaluation over
        the last six history entries; a conclusion indicator discards that
        evaluation and the model writes the conclusion instead. */
    ghost predicate QuestionsStep(before: View, message: string, r: string)
      reads this, state, llm
    {
      && (var evaluation := EvaluationPrompt(Utils.Transcript(LastN(before.history, 6)), message);
          var n := |before.model.log|;
          if ConclusionIndicated(message) then
            && state.phase == Conclusion
            && |llm.log| == n + 2 && llm.log[..n] == before.model.log
            && llm.log[n].prompt == evaluation
            && llm.log[n + 1] == Llm.Exchange(Llm.ConclusionPrompt(Utils.CandidateSummary(before.info)), r)
            && llm.demoMode == before.model.demoMode
          else
            state.phase == before.phase && Asked(before, evaluation, r))
      && FieldsKept(before) && Replied(before.history, r)
    }

    /** _handle_conclusion without an exit intent: the model answers a
        closing prompt that quotes the message. */
    ghost predicate ConclusionStep(before: View, message: string, r: string)
      reads this, state, llm
    {
      state.phase == before.phase && Asked(before, ClosingPrompt(message), r)
      && FieldsKept(before) && Replied(before.history, r)
    }

    /** _handle_exit: the conversation ends with the model's conclusion over
        the summary of what was collected. */
    ghost predicate ExitStep(before: View, r: string)
      reads this, state, llm
    {
      state.phase == Ended && Asked(before, Llm.ConclusionPrompt(Utils.CandidateSummary(before.info)), r)
      && FieldsKept(before) && Replied(before.history, r)
    }

    /** _handle_fallback: the model answers the message itself. */
    ghost predicate FallbackStep(before: View, message: string, r: string)
      reads this, state, llm
    {
      state.phase == before.phase && Asked(before, message, r)
      && FieldsKept(before) && Replied(before.history, r)
    }

    /** The step that the phase before selects. */
    ghost predicate Stepped(before: View, message: string, r: string)
      reads this, state, llm, llm.remote
    {
      match before.phase
      case Greeting => GreetingStep(before, message, r)
      case InfoGathering => InfoStep(before, message, r)
      case TechStack => TechStackStep(before, message, r)
      case TechnicalQuestions => QuestionsStep(before, message, r)
      case Conclusion => ConclusionStep(before, message, r)
      case Ended => FallbackStep(before, message, r)
    }

    /** Each step keeps the phase or moves it on to the next one, and an exit
        ends the conversation: the phases are only ever walked forwards. No
        step changes whether the gateway is in demo mode. */
    lemma StepMovesForward(before: View, message: string, r: string)
      requires Stepped(before, message, r) || ExitStep(before, r)
      ensures state.phase == before.phase || state.phase == Succ(before.phase) || state.phase == Ended
      ensures llm.demoMode == before.model.demoMode
    {
    }

    /** conversation_handler.py:50-58 */
    constructor(llm: Llm.LlmClient)
      requires llm.Valid()
      ensures Valid()
      ensures this.llm == llm && fresh(state)
      ensures state.phase == Greeting && state.candidateInfo == map[] && state.currentFieldIndex == 0
      ensures state.conversationHistory == [] && state.techStackParsed == [] && !state.technicalQuestionsAsked
      ensures state.questionsGenerated == "" && state.awaitingValidation == None
    {
      this.llm := llm;
      state := new ConversationState();
    }

    /** conversation_handler.py:60-63: a fresh default state, and the
        gateway's history back to the system prompt alone. */
    method Reset()
      requires Valid()
      modifies this, llm
      ensures Valid()
      ensures fresh(state)
      ensures state.phase == Greeting && state.candidateInfo == map[] && state.currentFieldIndex == 0
      ensures state.conversationHistory == [] && state.techStackParsed == [] && !state.technicalQuestionsAsked
      ensures state.questionsGenerated == "" && state.awaitingValidation == None
      ensures llm.Valid() && llm.history == [Message(System, llm.systemPrompt)]
      ensures llm.log == old(llm.log) && llm.demoMode == old(llm.demoMode) && llm.waits == old(llm.waits)
    {
      state := new ConversationState();
      llm.ResetChat();
    }

    /** conversation_handler.py:339-344 */
    method AddToHistory(role: Role, content: string)
      modifies state`conversationHistory
      ensures state.conversationHistory == old(state.conversationHistory) + [Message(role, content)]
    {
      state.conversationHistory := state.conversationHistory + [Message(role, content)];
    }

    /** conversation_handler.py:65-75: the greeting is recorded and the phase
        moves to information gathering, from whatever phase it was in. */
    method GetInitialGreeting() returns (r: string)
      requires Valid()
      modifies state`phase, state`conversationHistory, llm, llm.remote
      ensures Valid()
      ensures state.phase == InfoGathering
      ensures Replied(old(state.conversationHistory), r) && llm.LastCall(old(llm.log), Llm.GreetingPrompt(), r)
      ensures llm.demoMode == old(llm.demoMode)
    {
      r := llm.GenerateGreeting();
      AddToHistory(Assistant, r);
      state.phase := InfoGathering;
    }

    /** `self.llm.generate_response(prompt)` as the steps see it: one call,
        logged with its answer. */
    method CallModel(prompt: string) returns (r: string)
      requires llm.Valid()
      modifies llm, llm.remote
      ensures llm.Valid() && llm.LastCall(old(llm.log), prompt, r) && llm.demoMode == old(llm.demoMode)
    {
      r := llm.GenerateResponse(prompt, None, 3);
    }

    /** conversation_handler.py:291-304 */
    method GenerateFieldPrompt(field: string, previousResponse: string) returns (r: string)
      requires llm.Valid()
      modifies llm, llm.remote
      ensures llm.Valid()
      ensures llm.LastCall(old(llm.log), FieldPrompt(field, previousResponse), r) && llm.demoMode == old(llm.demoMode)
    {
      var prompt := FieldPrompt(field, previousResponse);
      r := CallModel(prompt);
    }

    /** conversation_handler.py:334-337 */
    method GenerateConclusion() returns (r: string)
      requires llm.Valid()
      modifies llm, llm.remote
      ensures llm.Valid()
      ensures llm.LastCall(old(llm.log), Llm.ConclusionPrompt(Utils.CandidateSummary(state.candidateInfo)), r)
      ensures llm.demoMode == old(llm.demoMode)
    {
      var summary := Utils.FormatCandidateSummary(state.candidateInfo);
      r := llm.GenerateConclusion(summary);
    }

    /** conversation_handler.py:125-173, stated through Gather. */
    method HandleInfoGathering(message: string) returns (r: string, ended: bool)
      requires Valid() && state.phase == InfoGathering
      modifies state`candidateInfo, state`currentFieldIndex, state`phase, state`conversationHistory, llm, llm.remote
      ensures Valid() && InfoStep(old(Current()), message, r) && !ended
    {
      var ask := RecordAnswer(message);
      match ask {
        case Invalid(f) =>
          r := ValidationResponse(f, message);
        case AskTechStack =>
          r := TechStackPrompt(state.candidateInfo);
        case AskField(f) =>
          r := GenerateFieldPrompt(f, message);
      }
      AddToHistory(Assistant, r);
      return r, false;
    }

    /** conversation_handler.py:128-170: the check, the store and the cursor
        step of one gathering message; what is asked next is returned. */
    method RecordAnswer(message: string) returns (ask: Ask)
      requires Valid() && state.phase == InfoGathering
      modifies state`candidateInfo, state`currentFieldIndex, state`phase
      ensures Valid()
      ensures var g := Gather(old(state.candidateInfo), old(state.currentFieldIndex), message);
              && state.candidateInfo == g.info
              && state.currentFieldIndex == g.index
              && ask == g.ask
              && state.phase == (if g.ask == AskTechStack then TechStack else InfoGathering)
    {
      var st := state;
      ghost var g := Gather(st.candidateInfo, st.currentFieldIndex, message);
      GatherKeepsFields(st.candidateInfo, st.currentFieldIndex, message);
      if st.currentFieldIndex > 0 {
        var prevField := FieldsToCollect[st.currentFieldIndex - 1];
        if prevField == Email && !Utils.ValidateEmail(message) {
          return Invalid(Email);
        } else if prevField == Phone && !Utils.ValidatePhone(message) {
          return Invalid(Phone);
        } else if prevField == YearsOfExperience {
          var years := Utils.ValidateExperience(message);
          if years.Some? {
            st.candidateInfo := st.candidateInfo[prevField := Utils.Render(years.value)];
          } else {
            st.candidateInfo := st.candidateInfo[prevField := message];
          }
        } else {
          st.candidateInfo := st.candidateInfo[prevField := message];
        }
      } else {
        st.candidateInfo := st.candidateInfo[FullName := message];
        st.currentFieldIndex := 1;
      }
      if st.currentFieldIndex >= |FieldsToCollect| {
        st.phase := TechStack;
        return AskTechStack;
      }
      var currentField := FieldsToCollect[st.currentFieldIndex];
      st.currentFieldIndex := st.currentFieldIndex + 1;
      return AskField(currentField);
    }

    /** conversation_handler.py:119-123: the first message after the start is
        the name. */
    method HandleGreeting(message: string) returns (r: string, ended: bool)
      requires Valid() && state.phase == Greeting
      modifies state`candidateInfo, state`currentFieldIndex, state`phase, state`conversationHistory, llm, llm.remote
      ensures Valid() && GreetingStep(old(Current()), message, r) && !ended
    {
      state.phase := InfoGathering;
      r, ended := HandleInfoGathering(message);
    }

    /** conversation_handler.py:175-224: the raw message is stored as the tech
        stack before it is parsed; nothing recognised asks again, otherwise
        the questions are generated for the parsed stack, the years read
        back from the stored field and the desired position. */
    method HandleTechStack(message: string) returns (r: string, ended: bool)
      requires Valid() && state.phase == TechStack
      modifies state`techStackParsed, state`candidateInfo, state`phase, state`questionsGenerated,
               state`technicalQuestionsAsked, state`conversationHistory, llm, llm.remote
      ensures Valid() && TechStackStep(old(Current()), message, r) && !ended
    {
      var parsed := StoreTechStack(message);
      if parsed == [] {
        r := TechStackReprompt();
        AddToHistory(Assistant, r);
      } else {
        r := AskTechnicalQuestions();
      }
      return r, false;
    }

    /** conversation_handler.py:185-189: the raw message under tech_stack, the
        parsed list beside it. */
    method StoreTechStack(message: string) returns (parsed: seq<string>)
      requires Valid() && state.phase == TechStack
      modifies state`techStackParsed, state`candidateInfo
      ensures Valid()
      ensures state.candidateInfo == old(state.candidateInfo)[TechStackField := message]
      ensures state.techStackParsed == parsed && Utils.TechStackOf(parsed, message)
    {
      var st := state;
      parsed := Utils.ParseTechStack(message);
      CollectedStore(st.candidateInfo, |FieldsToCollect|, TechStackField, message);
      st.techStackParsed, st.candidateInfo := parsed, st.candidateInfo[TechStackField := message];
    }

    /** conversation_handler.py:199-219: questions for the stored stack, the
        years and the position, acknowledged in one reply. */
    method AskTechnicalQuestions() returns (r: string)
      requires Valid() && state.phase == TechStack
      requires TechStackField in state.candidateInfo && state.techStackParsed != []
      modifies state`phase, state`questionsGenerated, state`technicalQuestionsAsked, state`conversationHistory,
               llm, llm.remote
      ensures Valid()
      ensures state.phase == TechnicalQuestions && state.technicalQuestionsAsked
      ensures llm.LastCall(old(llm.log), Llm.TechnicalQuestionsPrompt(state.techStackParsed,
                                                                    ExperienceYears(state.candidateInfo),
                                                                    PositionOf(state.candidateInfo)),
                           state.questionsGenerated)
      ensures llm.demoMode == old(llm.demoMode)
      ensures r == TechStackAck(Join(state.techStackParsed, ", "), state.questionsGenerated)
      ensures Replied(old(state.conversationHistory), r)
    {
      var st := state;
      var info := st.candidateInfo;
      var questions := llm.GenerateTechnicalQuestions(st.techStackParsed, ExperienceYears(info), PositionOf(info));
      r := TechStackAck(Join(st.techStackParsed, ", "), questions);
      st.phase, st.questionsGenerated, st.technicalQuestionsAsked := TechnicalQuestions, questions, true;
      st.conversationHistory := st.conversationHistory + [Message(Assistant, r)];
    }

    /** conversation_handler.py:226-260: the answer is always sent for
        evaluation, over a transcript of the last six history entries; a
        conclusion indicator then discards that evaluation and concludes. */
    method HandleTechnicalQuestions(message: string) returns (r: string, ended: bool)
      requires Valid() && state.phase == TechnicalQuestions
      modifies state`phase, state`conversationHistory, llm, llm.remote
      ensures Valid() && QuestionsStep(old(Current()), message, r) && !ended
    {
      var recent := LastN(state.conversationHistory, 6);
      var context := Utils.FormatConversationForLlm(recent);
      var prompt := EvaluationPrompt(context, message);
      var response := CallModel(prompt);
      if ConclusionIndicated(message) {
        state.phase := Conclusion;
        var conclusionResponse := GenerateConclusion();
        AddToHistory(Assistant, conclusionResponse);
        return conclusionResponse, false;
      }
      AddToHistory(Assistant, response);
      return response, false;
    }

    /** conversation_handler.py:277-283: the phase ends and the model writes
        the closing message from the summary of what was collected. */
    method HandleExit() returns (r: string)
      requires Valid()
      modifies state`phase, state`conversationHistory, llm, llm.remote
      ensures Valid() && ExitStep(old(Current()), r)
    {
      state.phase := Ended;
      var summary := Utils.FormatCandidateSummary(state.candidateInfo);
      r := llm.GenerateConclusion(summary);
      AddToHistory(Assistant, r);
    }

    /** conversation_handler.py:262-275 */
    method HandleConclusion(message: string) returns (r: string, ended: bool)
      requires Valid()
      modifies state`phase, state`conversationHistory, llm, llm.remote
      ensures Valid()
      ensures ended <==> Utils.ExitIntent(message)
      ensures ended ==> ExitStep(old(Current()), r)
      ensures !ended ==> ConclusionStep(old(Current()), message, r)
    {
      var exit := Utils.CheckExitIntent(message);
      if exit {
        r := HandleExit();
        return r, true;
      }
      r := CallModel(ClosingPrompt(message));
      AddToHistory(Assistant, r);
      return r, false;
    }

    /** conversation_handler.py:285-289: the history argument is handed on
        and ignored by the gateway. */
    method HandleFallback(message: string) returns (r: string, ended: bool)
      requires Valid()
      modifies state`conversationHistory, llm, llm.remote
      ensures Valid() && FallbackStep(old(Current()), message, r) && !ended
    {
      r := llm.GenerateWithHistory(message, state.conversationHistory);
      AddToHistory(Assistant, r);
      return r, false;
    }

    /** conversation_handler.py:77-117: an empty message is asked for again
        and changes nothing; otherwise it joins the history, an exit intent
        ends the conversation from any phase, and every other message takes
        the step of the current phase, as Stepped spells out phase by phase. */
    method ProcessMessage(userMessage: string) returns (r: string, ended: bool)
      requires Valid()
      modifies state`phase, state`candidateInfo, state`currentFieldIndex, state`conversationHistory,
               state`techStackParsed, state`questionsGenerated, state`technicalQuestionsAsked, llm, llm.remote
      ensures Valid()
      ensures var s := Utils.SanitizeInput(userMessage);
              s == "" ==> r == Reprompt() && !ended && unchanged(state) && unchanged(llm, llm.remote)
      ensures var s := Utils.SanitizeInput(userMessage);
              s != "" ==> (ended <==> Utils.ExitIntent(s))
      ensures var s := Utils.SanitizeInput(userMessage);
              var entered := old(Current()).(history := old(state.conversationHistory) + [Message(User, s)]);
              s != "" ==> if Utils.ExitIntent(s) then ExitStep(entered, r) else Stepped(entered, s, r)
      ensures llm.demoMode == old(llm.demoMode)
    {
      var message := Utils.SanitizeInput(userMessage);
      if message == "" {
        return Reprompt(), false;
      }
      AddToHistory(User, message);
      var exit := Utils.CheckExitIntent(message);
      if exit {
        r := HandleExit();
        return r, true;
      }
      r, ended := Dispatch(message);
    }

    /** conversation_handler.py:103-117: the step of the current phase. */
    method Dispatch(message: string) returns (r: string, ended: bool)
      requires Valid() && !Utils.ExitIntent(message)
      modifies state`phase, state`candidateInfo, state`currentFieldIndex, state`conversationHistory,
               state`techStackParsed, state`questionsGenerated, state`technicalQuestionsAsked, llm, llm.remote
      ensures Valid() && Stepped(old(Current()), message, r) && !ended
    {
      match state.phase {
        case Greeting =>
          r, ended := HandleGreeting(message);
        case InfoGathering =>
          r, ended := HandleInfoGathering(message);
        case TechStack =>
          r, ended := HandleTechStack(message);
        case TechnicalQuestions =>
          r, ended := HandleTechnicalQuestions(message);
        case Conclusion =>
          r, ended := HandleConclusion(message);
        case Ended =>
          r, ended := HandleFallback(message);
      }
    }

    /** conversation_handler.py:346-348 */
    function GetCandidateInfo(): map<string, string>
      reads this, state
    {
      state.candidateInfo
    }

    /** conversation_handler.py:350-352 */
    function GetConversationHistory(): seq<Message>
      reads this, state
    {
      state.conversationHistory
    }

    /** conversation_handler.py:354-356, as the phase's name. */
    function GetCurrentPhase(): string
      reads this, state
    {
      PhaseName(state.phase)
    }

    /** conversation_handler.py:358-360 */
    function IsEnded(): bool
      reads this, state
    {
      state.phase == Ended
    }
  }
}
