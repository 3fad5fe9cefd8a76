/** The gateway to the language model (llm_client.py): demo-mode selection,
    the retrying request loop with its bounded history, the prompt builders
    for questions, greeting and conclusion, and the canned demo replies.

    The hosted chat-completion service is a RemoteModel: a scripted sequence of
    outcomes, one consumed per request, so every behaviour of the client is a
    function of that script. */
module Llm {
  import opened Ascii
  import opened Wrappers
  import opened Config
  import Utils

  // ===========================================================================
  // The remote service

  /** The outcome of one `chat.completions.create` call: the returned content,
      or an exception of any kind. */
  datatype Reply = Success(text: string) | Failure

  /** The outcome the script gives for the next request; an exhausted script fails. */
  function Head(replies: seq<Reply>): Reply {
    if replies == [] then Failure else replies[0]
  }

  /** The script after k requests. */
  function Drop(replies: seq<Reply>, k: nat): (r: seq<Reply>)
    ensures |r| == if k <= |replies| then |replies| - k else 0
  {
    if k <= |replies| then replies[k..] else []
  }

  /** The outcome of request number i (counting from 0). */
  function NthReply(replies: seq<Reply>, i: nat): Reply {
    Head(Drop(replies, i))
  }

  class RemoteModel {
    /** The outcomes of the coming requests, in order. */
    var replies: seq<Reply>
    /** Every message list sent so far. */
    ghost var requests: seq<seq<Message>>

    constructor(script: seq<Reply>)
      ensures replies == script && requests == []
    {
      replies := script;
      requests := [];
    }

    /** One request: consumes the next scripted outcome. */
    method Create(messages: seq<Message>) returns (reply: Reply)
      modifies this
      ensures reply == Head(old(replies))
      ensures replies == Drop(old(replies), 1)
      ensures requests == old(requests) + [messages]
    {
      reply := Head(replies);
      replies := Drop(replies, 1);
      requests := requests + [messages];
    }
  }

  // ===========================================================================
  // The retry loop as a function of the script

  /** How a request loop ends: answered on the attempt after `failures` failed
      attempts, or given up after `failures` failed attempts. */
  datatype Outcome = Answered(text: string, failures: nat) | GaveUp(failures: nat)

  function RetryFrom(replies: seq<Reply>, attempt: nat, maxRetries: int): Outcome
    decreases maxRetries - attempt
  {
    if attempt >= maxRetries then GaveUp(attempt)
    else match NthReply(replies, attempt)
      case Success(text) => Answered(text, attempt)
      case Failure => RetryFrom(replies, attempt + 1, maxRetries)
  }

  /** `for attempt in range(max_retries)` over the scripted outcomes. */
  function Retry(replies: seq<Reply>, maxRetries: int): Outcome {
    RetryFrom(replies, 0, maxRetries)
  }

  lemma {:induction false} RetryFromMeaning(replies: seq<Reply>, attempt: nat, maxRetries: int)
    requires forall i :: 0 <= i < attempt ==> NthReply(replies, i).Failure?
    ensures var o := RetryFrom(replies, attempt, maxRetries);
            && (forall i :: 0 <= i < o.failures ==> NthReply(replies, i).Failure?)
            && (o.Answered? ==> o.failures < maxRetries && NthReply(replies, o.failures) == Success(o.text))
            && (o.GaveUp? ==> o.failures == if maxRetries < attempt then attempt else maxRetries)
    decreases maxRetries - attempt
  {
    if attempt < maxRetries && NthReply(replies, attempt).Failure? {
      RetryFromMeaning(replies, attempt + 1, maxRetries);
    }
  }

  /** The loop answers with the first successful attempt among the first
      max_retries ones, and gives up after max_retries failures otherwise. */
  lemma RetryMeaning(replies: seq<Reply>, maxRetries: int)
    ensures var o := Retry(replies, maxRetries);
            && (forall i :: 0 <= i < o.failures ==> NthReply(replies, i).Failure?)
            && (o.Answered? ==> o.failures < maxRetries && NthReply(replies, o.failures) == Success(o.text))
            && (o.GaveUp? ==> o.failures == if maxRetries < 0 then 0 else maxRetries)
  {
    RetryFromMeaning(replies, 0, maxRetries);
  }

  /** With the default of three attempts, a first success answers at once, and
      two failures followed by a success still answer. */
  lemma RetryExamples(t: string)
    ensures Retry([Success(t)], 3) == Answered(t, 0)
    ensures Retry([Failure, Failure, Success(t)], 3) == Answered(t, 2)
    ensures Retry([Failure, Failure, Failure, Success(t)], 3) == GaveUp(3)
    ensures Retry([], 3) == GaveUp(3)
  {
    var s := [Failure, Failure, Failure, Success(t)];
    assert NthReply(s, 0) == Failure;
    assert NthReply(s, 1) == Failure;
    assert NthReply(s, 2) == Failure;
  }

  /** How many requests a loop with this outcome sent. */
  function Consumed(o: Outcome): nat {
    match o
    case Answered(_, failures) => failures + 1
    case GaveUp(failures) => failures
  }

  /** How many times a loop with this outcome slept: after every failure but a final one. */
  function WaitCount(o: Outcome): nat {
    match o
    case Answered(_, failures) => failures
    case GaveUp(failures) => if failures == 0 then 0 else failures - 1
  }

  /** n copies of x. */
  function Repeat<T>(x: T, n: nat): (r: seq<T>)
    ensures |r| == n
  {
    if n == 0 then [] else Repeat(x, n - 1) + [x]
  }

  lemma {:induction false} RepeatMeaning<T>(x: T, n: nat)
    ensures forall i :: 0 <= i < n ==> Repeat(x, n)[i] == x
  {
    if n > 0 {
      RepeatMeaning(x, n - 1);
    }
  }

  function Pow2(n: nat): (r: nat)
    ensures r >= 1
  {
    if n == 0 then 1 else 2 * Pow2(n - 1)
  }

  /** The waits `(2 ** attempt) * 1` of the first n retries, in seconds. */
  function Backoff(n: nat): (r: seq<nat>)
    ensures |r| == n
  {
    if n == 0 then [] else Backoff(n - 1) + [Pow2(n - 1)]
  }

  lemma {:induction false} BackoffMeaning(n: nat)
    ensures forall i :: 0 <= i < n ==> Backoff(n)[i] == Pow2(i)
  {
    if n > 0 {
      BackoffMeaning(n - 1);
    }
  }

  lemma DropStep(replies: seq<Reply>, k: nat)
    ensures Drop(Drop(replies, k), 1) == Drop(replies, k + 1)
    ensures Head(Drop(replies, k)) == NthReply(replies, k)
  {
  }

  lemma RepeatStep<T>(x: T, n: nat)
    ensures Repeat(x, n + 1) == Repeat(x, n) + [x]
  {
  }

  lemma BackoffStep(n: nat)
    ensures Backoff(n + 1) == Backoff(n) + [Pow2(n)]
  {
  }

  /** One attempt of the loop decides, or hands on to the next. */
  lemma RetryFromStep(replies: seq<Reply>, attempt: nat, maxRetries: int)
    requires attempt < maxRetries
    ensures NthReply(replies, attempt).Success? ==>
              RetryFrom(replies, attempt, maxRetries) == Answered(NthReply(replies, attempt).text, attempt)
    ensures NthReply(replies, attempt).Failure? ==>
              RetryFrom(replies, attempt, maxRetries) == RetryFrom(replies, attempt + 1, maxRetries)
    ensures NthReply(replies, attempt).Failure? && attempt + 1 == maxRetries ==>
              RetryFrom(replies, attempt, maxRetries) == GaveUp(attempt + 1)
  {
  }

  /** The waits double from one second. */
  lemma BackoffDoubles(n: nat)
    ensures forall i :: 0 < i < n ==> Backoff(n)[i] == 2 * Backoff(n)[i - 1]
    ensures n > 0 ==> Backoff(n)[0] == 1
  {
    BackoffMeaning(n);
  }

  // ===========================================================================
  // The history window

  const MaxHistory := 21

  /** `[h[0]] + h[-20:]` once the history is longer than 21 entries: the first
      entry (the system prompt) survives, with the 20 latest after it. */
  function Window(h: seq<Message>): (r: seq<Message>)
  {
    if |h| > MaxHistory then [h[0]] + h[|h| - 20..] else h
  }

  lemma WindowProperties(h: seq<Message>)
    ensures |Window(h)| == if |h| > MaxHistory then MaxHistory else |h|
    ensures |h| > 0 ==> Window(h)[0] == h[0]
    ensures |h| >= 20 ==> Window(h)[|Window(h)| - 20..] == h[|h| - 20..]
  {
  }

  /** The history after a series of answered exchanges. */
  function AfterExchanges(h: seq<Message>, turns: seq<(string, string)>): seq<Message>
  {
    if turns == [] then h
    else
      var last := turns[|turns| - 1];
      Window(AfterExchanges(h, turns[..|turns| - 1]) + [Message(User, last.0), Message(Assistant, last.1)])
  }

  /** One exchange appended to a window-sized history and cut back. */
  lemma WindowAppendPair(prior: seq<Message>, u: Message, a: Message)
    requires 1 <= |prior| <= MaxHistory
    ensures var w := Window(prior + [u, a]);
            && |w| == Utils.Min(|prior| + 2, MaxHistory)
            && w[0] == prior[0]
            && w[|w| - 1] == a
            && w[|w| - 2] == u
  {
  }

  lemma AfterExchangesStep(h: seq<Message>, turns: seq<(string, string)>)
    requires turns != []
    ensures AfterExchanges(h, turns)
            == Window(AfterExchanges(h, turns[..|turns| - 1])
                      + [Message(User, turns[|turns| - 1].0), Message(Assistant, turns[|turns| - 1].1)])
  {
  }

  /** Starting from the system prompt alone, n answered exchanges leave
      min(1 + 2n, 21) entries, the system prompt first and the latest
      exchange last. */
  lemma {:induction false} ExchangesKeepSystemPrompt(system: Message, turns: seq<(string, string)>)
    ensures var h := AfterExchanges([system], turns);
            && |h| == Utils.Min(1 + 2 * |turns|, MaxHistory)
            && h[0] == system
            && (turns != [] ==>
                  (h[|h| - 1] == Message(Assistant, turns[|turns| - 1].1)
                   && h[|h| - 2] == Message(User, turns[|turns| - 1].0)))
  {
    if turns != [] {
      var init := turns[..|turns| - 1];
      var prior := AfterExchanges([system], init);
      ExchangesKeepSystemPrompt(system, init);
      var last := turns[|turns| - 1];
      WindowAppendPair(prior, Message(User, last.0), Message(Assistant, last.1));
      AfterExchangesStep([system], turns);
    }
  }

  // ===========================================================================
  // Prompts and demo replies

  /** `f"Context:\n{context}\n\nTask:\n{prompt}"` when the context is non-empty. */
  function FullPrompt(prompt: string, context: Option<string>): string {
    if context.Some? && context.value != "" then
      "Context:\n" + context.value + "\n\nTask:\n" + prompt
    else prompt
  }

  /** The four canned replies of `_get_demo_response`. Long texts in this
      module are written as concatenations of short pieces; the strings are
      exactly the source's. */
  datatype DemoReply = Welcome | QuestionsReply | Closing | Generic

  function DemoText(k: DemoReply): string {
    match k
    case Welcome =>
      "\U{1F44B} Welcome to TalentScout! " + "I'm your AI Hiring "
      + "Assistant.\n\n" + "I'm here to help with your "
      + "initial screening for tech " + "positions. This process "
      + "will take about 5-10 " + "minutes.\n\n"
      + "**Note:** Running in DEMO " + "MODE - Connect a valid API "
      + "key for full AI " + "capabilities.\n\n"
      + "Let's get started! **What " + "is your full name?**"
    case QuestionsReply =>
      "Based on your tech stack, " + "here are some technical "
      + "questions:\n\n" + "**Python:**\n"
      + "1. Explain the difference " + "between `list` and `tuple` "
      + "in Python.\n" + "2. What is a decorator and "
      + "how would you use it?\n" + "3. How does Python handle "
      + "memory management?\n\n" + "Please share your thoughts "
      + "on these questions!"
    case Closing =>
      "\U{1F389} Thank you for completing " + "the screening process!\n\n"
      + "**Next Steps:**\n" + "- Our team will review your "
      + "responses within 5-7 " + "business days\n"
      + "- If selected, you'll " + "receive an email for the "
      + "next interview round\n" + "- For questions, contact us "
      + "at hr@talentscout.com\n\n" + "We appreciate your time and "
      + "interest in TalentScout. " + "Good luck! \U{1F340}"
    case Generic =>
      "Thank you for your " + "response! This is helpful "
      + "information.\n\n" + "Would you like to continue "
      + "with the screening process?"
  }

  /** Which canned reply the keywords of the lower-cased prompt select. */
  function DemoKind(prompt: string): DemoReply {
    var lower := Lower(prompt);
    if Contains(lower, "greeting") || Contains(lower, "welcome") then Welcome
    else if Contains(lower, "technical") || Contains(lower, "question") then QuestionsReply
    else if Contains(lower, "conclusion") || Contains(lower, "closing") then Closing
    else Generic
  }

  /** The four canned replies are different texts: each starts with its own character. */
  lemma DemoTextDistinct()
    ensures forall a: DemoReply, b: DemoReply :: DemoText(a) == DemoText(b) ==> a == b
  {
    forall a: DemoReply, b: DemoReply | DemoText(a) == DemoText(b)
      ensures a == b
    {
      assert DemoText(a)[0] == DemoText(b)[0];
    }
  }

  /** `_get_demo_response` (llm_client.py:200-236): the first keyword pair
      found in the lower-cased prompt, in the order greeting, questions,
      conclusion, picks the reply; without one, the generic reply. */
  function DemoResponse(prompt: string): (r: string)
    ensures var p := Lower(prompt);
            var welcome := Contains(p, "greeting") || Contains(p, "welcome");
            var questions := Contains(p, "technical") || Contains(p, "question");
            var closing := Contains(p, "conclusion") || Contains(p, "closing");
            && (r == DemoText(Welcome) <==> welcome)
            && (r == DemoText(QuestionsReply) <==> !welcome && questions)
            && (r == DemoText(Closing) <==> !welcome && !questions && closing)
            && (r == DemoText(Generic) <==> !welcome && !questions && !closing)
  {
    DemoTextDistinct();
    DemoText(DemoKind(prompt))
  }

  /** Upper-case letters in the prompt select the same reply. */
  lemma DemoResponseIgnoresCase(prompt: string)
    ensures DemoKind(Upper(prompt)) == DemoKind(prompt)
  {
    assert Lower(Upper(prompt)) == Lower(prompt);
  }

  /** The prompt of generate_greeting; its first line ends in a space. */
  function GreetingPrompt(): string {
    "Generate a warm, " + "professional greeting for a "
    + "new candidate starting \n" + "the screening process. "
    + "Include:\n" + "1. Welcome to TalentScout\n"
    + "2. Brief explanation of the " + "screening purpose\n"
    + "3. Ask for their name to " + "begin\n\n"
    + "Keep it concise (3-4 " + "sentences), friendly, and "
    + "professional."
  }

  function ConclusionPrompt(candidateSummary: string): string {
    "The screening process is " + "complete. Generate a "
    + "professional closing " + "message.\n\n"
    + "Candidate Summary:\n"
    + candidateSummary
    + "\n\n" + "Include:\n"
    + "1. Thank them for their " + "time\n"
    + "2. Confirm their " + "information has been "
    + "recorded\n" + "3. Explain next steps "
    + "(review within 5-7 business " + "days)\n"
    + "4. Provide contact email: " + "hr@talentscout.com\n"
    + "5. End on a positive, " + "encouraging note\n\n"
    + "Keep it professional and " + "warm."
  }

  /** The `experience_years` float handed in: a parsed decimal, or the integer 0
      of a failed conversion. */
  datatype Years = FloatYears(value: Utils.Decimal) | ZeroYears

  /** What `f"{experience_years}"` prints. */
  function YearsText(y: Years): string {
    match y
    case FloatYears(d) => Utils.Render(d)
    case ZeroYears => "0"
  }

  function YearsValue(y: Years): real {
    match y
    case FloatYears(d) => Utils.Value(d)
    case ZeroYears => 0.0
  }

  datatype Level = Level(difficulty: string, focus: string)

  function EntryLevel(): Level {
    Level("entry-level to intermediate",
          "fundamental concepts, basic " + "implementations, and "
          + "learning ability")
  }

  function MidLevel(): Level {
    Level("intermediate to advanced",
          "practical application, " + "problem-solving, and best "
          + "practices")
  }

  function SeniorLevel(): Level {
    Level("advanced to expert",
          "system design, architecture " + "decisions, and technical "
          + "leadership")
  }

  /** The difficulty band for a number of years: below 2, below 5, or more. */
  function Band(years: real): Level {
    if years < 2.0 then EntryLevel()
    else if years < 5.0 then MidLevel()
    else SeniorLevel()
  }

  /** The band of the years handed in, decided on the whole years alone. */
  function YearsBand(y: Years): Level {
    match y
    case ZeroYears => EntryLevel()
    case FloatYears(d) =>
      var n := Utils.NatOf(d.whole);
      if n < 2 then EntryLevel() else if n < 5 then MidLevel() else SeniorLevel()
  }

  /** Deciding on the whole years is the float comparison of the source: a
      stored "4.9" is still below 5, so 0-1 years give the entry band, 2-4 the
      middle one, 5 and over the senior one. */
  lemma YearsBandIsBand(y: Years)
    ensures YearsBand(y) == Band(YearsValue(y))
  {
    if y.FloatYears? {
      Utils.ValueBelow(y.value, 2);
      Utils.ValueBelow(y.value, 5);
    }
  }

  /** Higher experience never gets an easier band. */
  lemma BandMonotone(a: real, b: real)
    requires a <= b
    ensures Band(a) == SeniorLevel() ==> Band(b) == SeniorLevel()
    ensures Band(b) == EntryLevel() ==> Band(a) == EntryLevel()
  {
  }

  /** The fixed instructions that close the question prompt. */
  function QuestionRules(): string {
    "For each technology, " + "generate 3-5 questions "
    + "that:\n" + "1. Test both theoretical "
    + "understanding and practical " + "knowledge\n"
    + "2. Include at least one " + "scenario-based question\n"
    + "3. Cover common challenges " + "and best practices\n"
    + "4. Are progressively " + "challenging\n\n"
    + "Format the output clearly " + "with technology headers and "
    + "numbered questions.\n" + "Make questions specific and "
    + "relevant to real-world " + "scenarios."
  }

  function TechnicalQuestionsPrompt(techStack: seq<string>, years: Years, position: string): string {
    var level := YearsBand(years);
    "Generate technical " + "interview questions for a "
    + "candidate with the " + "following profile:\n\n"
    + "Technologies: " + Join(techStack, ", ") + "\n"
    + "Experience: " + YearsText(years) + " years\n"
    + "Position: " + position + "\n"
    + "Difficulty Level: " + level.difficulty + "\n"
    + "Focus Areas: " + level.focus + "\n\n"
    + QuestionRules()
  }

  // ===========================================================================
  // The client

  /** One call of generate_response, as the caller saw it: the prompt it gave
      and the text it got back. */
  datatype Exchange = Exchange(prompt: string, response: string)

  /** `api_key or os.getenv(...)`: an absent or empty explicit key falls back
      to the environment. */
  function EffectiveKey(explicitKey: Option<string>, envKey: Option<string>): Option<string> {
    if explicitKey.Some? && explicitKey.value != "" then explicitKey else envKey
  }

  /** A key that is absent, empty or a `YOUR_...` placeholder selects demo mode. */
  predicate PlaceholderKey(key: Option<string>) {
    key.None? || key.value == "" || (|key.value| >= 5 && key.value[..5] == "YOUR_")
  }

  /** The client's mutable state, and its model's, at one moment. */
  datatype Snapshot = Snapshot(log: seq<Exchange>, demoMode: bool, history: seq<Message>, waits: seq<nat>,
                               replies: seq<Reply>, requests: seq<seq<Message>>)

  class LlmClient {
    const apiKey: Option<string>
    const systemPrompt: string
    const remote: RemoteModel
    var demoMode: bool
    var history: seq<Message>
    /** The sleeps taken between attempts, in seconds. */
    ghost var waits: seq<nat>
    /** Every generate_response call so far. */
    ghost var log: seq<Exchange>

    /** The history never outgrows the window. */
    predicate Valid()
      reads this
    {
      |history| <= MaxHistory
    }

    /** llm_client.py:20-56: without a usable key, demo mode; otherwise one test
        request whose non-empty answer installs the system prompt, and whose
        failure selects demo mode. */
    constructor(explicitKey: Option<string>, envKey: Option<string>, remote: RemoteModel, systemPrompt: string)
      modifies remote
      ensures Valid()
      ensures apiKey == EffectiveKey(explicitKey, envKey)
      ensures this.remote == remote && this.systemPrompt == systemPrompt
      ensures waits == [] && log == []
      ensures PlaceholderKey(apiKey) ==>
                demoMode && history == [] && unchanged(remote)
      ensures !PlaceholderKey(apiKey) ==>
                && remote.replies == Drop(old(remote.replies), 1)
                && remote.requests == old(remote.requests) + [[Message(User, "Say OK")]]
                && demoMode == Head(old(remote.replies)).Failure?
                && history == (match Head(old(remote.replies))
                               case Success(t) => if t != "" then [Message(System, systemPrompt)] else []
                               case Failure => [])
    {
      apiKey := EffectiveKey(explicitKey, envKey);
      this.systemPrompt := systemPrompt;
      this.remote := remote;
      waits := [];
      log := [];
      demoMode := false;
      history := [];
      new;
      if PlaceholderKey(apiKey) {
        demoMode := true;
        return;
      }
      var test := remote.Create([Message(User, "Say OK")]);
      match test {
        case Success(t) =>
          if t != "" {
            history := [Message(System, systemPrompt)];
          }
        case Failure =>
          demoMode := true;
      }
    }

    /** The part of the client's state a call can change, and of its model's. */
    ghost function Snap(): Snapshot
      reads this, remote
    {
      Snapshot(log, demoMode, history, waits, remote.replies, remote.requests)
    }

    /** What the request loop did, from state s: answered with the first
        successful attempt, or fell back to the given reply; the history holds
        the answered exchange or is as before; one request per attempt, each
        carrying the history with the prompt appended; a doubling sleep after
        each failure but a final one. */
    ghost predicate Retried(s: Snapshot, fullPrompt: string, fallback: string, maxRetries: int, r: string)
      reads this, remote
    {
      var o := Retry(s.replies, maxRetries);
      var sent := s.history + [Message(User, fullPrompt)];
      && r == (if o.Answered? then o.text else fallback)
      && history == (if o.Answered? then Window(sent + [Message(Assistant, o.text)]) else s.history)
      && remote.replies == Drop(s.replies, Consumed(o))
      && remote.requests == s.requests + Repeat(sent, Consumed(o))
      && waits == s.waits + Backoff(WaitCount(o))
    }

    /** After the calls s, one more generate_response call sent this prompt
        and returned r. */
    ghost predicate LastCall(s: seq<Exchange>, prompt: string, r: string)
      reads this
    {
      log == s + [Exchange(prompt, r)]
    }

    /** What one generate_response call did, from state s, in full. */
    ghost predicate Responded(s: Snapshot, prompt: string, context: Option<string>, maxRetries: int, r: string)
      reads this, remote
    {
      && log == s.log + [Exchange(prompt, r)]
      && demoMode == s.demoMode
      && if s.demoMode then
           && r == DemoResponse(prompt)
           && history == s.history && waits == s.waits
           && remote.replies == s.replies && remote.requests == s.requests
         else
           Retried(s, FullPrompt(prompt, context), DemoResponse(prompt), maxRetries, r)
    }

    /** One attempt of the request loop (llm_client.py:82-107): the prompt is
        appended and the history sent; an answer is appended and the history
        windowed, a failure takes the prompt back off. */
    method Attempt(fullPrompt: string) returns (reply: Reply)
      requires Valid()
      modifies this, remote
      ensures Valid()
      ensures reply == Head(old(remote.replies))
      ensures remote.replies == Drop(old(remote.replies), 1)
      ensures remote.requests == old(remote.requests) + [old(history) + [Message(User, fullPrompt)]]
      ensures history == match reply
                         case Success(text) =>
                           Window(old(history) + [Message(User, fullPrompt)] + [Message(Assistant, text)])
                         case Failure => old(history)
      ensures log == old(log) && waits == old(waits) && demoMode == old(demoMode)
    {
      history := history + [Message(User, fullPrompt)];
      reply := remote.Create(history);
      if reply.Success? {
        history := history + [Message(Assistant, reply.text)];
        if |history| > MaxHistory {
          history := [history[0]] + history[|history| - 20..];
        }
        return;
      }
      if |history| > 0 && history[|history| - 1].role == User {
        history := history[..|history| - 1];
      }
    }

    /** The request loop of llm_client.py:81-116; `fallback` is the canned
        reply returned once the attempts run out. */
    method RequestLoop(fullPrompt: string, fallback: string, maxRetries: int) returns (r: string)
      requires Valid()
      modifies this, remote
      ensures Valid()
      ensures Retried(old(Snap()), fullPrompt, fallback, maxRetries, r)
      ensures log == old(log) && demoMode == old(demoMode)
    {
      ghost var script := remote.replies;
      ghost var sent := history + [Message(User, fullPrompt)];
      var attempt := 0;
      while attempt < maxRetries
        invariant 0 <= attempt && (attempt < maxRetries || attempt == 0)
        invariant RetryFrom(script, attempt, maxRetries) == Retry(script, maxRetries)
        invariant Valid() && history == old(history) && log == old(log) && demoMode == old(demoMode)
        invariant remote.replies == Drop(script, attempt)
        invariant remote.requests == old(remote.requests) + Repeat(sent, attempt)
        invariant waits == old(waits) + Backoff(attempt)
        decreases maxRetries - attempt
      {
        var reply := Attempt(fullPrompt);
        DropStep(script, attempt);
        RepeatStep(sent, attempt);
        RetryFromStep(script, attempt, maxRetries);
        if reply.Success? {
          return reply.text;
        }
        if attempt < maxRetries - 1 {
          BackoffStep(attempt);
          waits := waits + [Pow2(attempt)];
        } else {
          return fallback;
        }
        attempt := attempt + 1;
      }
      return fallback;
    }

    /** llm_client.py:58-116: in demo mode the canned reply; otherwise up to
        max_retries attempts, each sending the history with the prompt appended,
        rolling the prompt back on failure and sleeping 2**attempt seconds
        before the next attempt; the first answer is kept in the windowed
        history and returned; the canned reply once the attempts run out. */
    method GenerateResponse(prompt: string, context: Option<string>, maxRetries: int) returns (r: string)
      requires Valid()
      modifies this, remote
      ensures Valid()
      ensures Responded(old(Snap()), prompt, context, maxRetries, r)
    {
      if demoMode {
        r := DemoResponse(prompt);
      } else {
        var fullPrompt := FullPrompt(prompt, context);
        r := RequestLoop(fullPrompt, DemoResponse(prompt), maxRetries);
      }
      log := log + [Exchange(prompt, r)];
    }

    /** llm_client.py:118-124: the history argument is not used. The
        methods below are generate_response on one prompt; their contracts
        name that prompt and leave the rest to GenerateResponse's. */
    method GenerateWithHistory(userMessage: string, conversationHistory: seq<Message>) returns (r: string)
      requires Valid()
      modifies this, remote
      ensures Valid()
      ensures LastCall(old(log), userMessage, r) && demoMode == old(demoMode)
    {
      r := GenerateResponse(userMessage, None, 3);
    }

    /** llm_client.py:126-162 */
    method GenerateTechnicalQuestions(techStack: seq<string>, experienceYears: Years, position: string)
      returns (r: string)
      requires Valid()
      modifies this, remote
      ensures Valid()
      ensures LastCall(old(log), TechnicalQuestionsPrompt(techStack, experienceYears, position), r)
      ensures demoMode == old(demoMode)
    {
      r := GenerateResponse(TechnicalQuestionsPrompt(techStack, experienceYears, position), None, 3);
    }

    /** llm_client.py:164-174 */
    method GenerateGreeting() returns (r: string)
      requires Valid()
      modifies this, remote
      ensures Valid()
      ensures LastCall(old(log), GreetingPrompt(), r) && demoMode == old(demoMode)
    {
      r := GenerateResponse(GreetingPrompt(), None, 3);
    }

    /** llm_client.py:176-192 */
    method GenerateConclusion(candidateSummary: string) returns (r: string)
      requires Valid()
      modifies this, remote
      ensures Valid()
      ensures LastCall(old(log), ConclusionPrompt(candidateSummary), r) && demoMode == old(demoMode)
    {
      r := GenerateResponse(ConclusionPrompt(candidateSummary), None, 3);
    }

    /** llm_client.py:194-198 */
    method ResetChat()
      modifies this
      ensures Valid()
      ensures history == [Message(System, systemPrompt)]
      ensures demoMode == old(demoMode) && waits == old(waits) && log == old(log)
    {
      history := [Message(System, systemPrompt)];
    }
  }
}
