# TalentScout Hiring Assistant — a verified model of its core

TalentScout screens job candidates in a chat. The core modelled here has three parts.

- **The validators and formatters** (`utils.py`). These cover email and phone checks, reading years of experience, picking technologies out of a tech-stack answer, spotting an exit keyword, sanitising input, the candidate summary and the transcript handed to the model.
- **The language-model gateway** (`llm_client.py`). It chooses demo mode when no key works. Otherwise it runs a retrying request loop with exponential back-off and keeps a bounded chat history that always starts with the system prompt. It also builds the question, greeting and conclusion prompts and returns canned demo replies.
- **The dialogue state machine** (`conversation_handler.py`). A `ConversationState` object is updated in place by a `ConversationHandler`. The handler sanitises each message, records it, checks for an exit and dispatches on the phase: greeting, information gathering, tech stack, technical questions, conclusion, or the fallback.

The Dafny project has one module per source file, plus two modules of shared vocabulary:

| file | module | models |
|---|---|---|
| `config.dfy` | `Config` | `config.py`: the phases, field names, field questions, exit keywords, and the chat message type |
| `ascii.dfy` | `Ascii` | the string operations the source uses: `lower`, `upper`, `title`, `strip`, `split`, `join`, `in` and `re.split` on a character class |
| `wrappers.dfy` | `Wrappers` | `Option` |
| `utils.dfy` | `Utils` | `utils.py` |
| `llm_client.dfy` | `Llm` | `llm_client.py` |
| `conversation.dfy` | `Conversation` | `conversation_handler.py` |

The hosted chat-completion service is modelled as a `RemoteModel` object: a scripted sequence of replies, each a `Success` or a `Failure`, consumed one per request. An exception of any kind is a `Failure`. Every behaviour of the gateway is therefore a function of the script.

The gateway records each `generate_response` call in a ghost log of (prompt, reply) pairs. The conversation handler's contracts use this log to say which prompt each step sent and which reply it passed on. `ProcessMessage` states the whole step:
- an empty message gets the fixed re-prompt and changes nothing;
- otherwise the message is recorded;
- an exit keyword ends the conversation with the conclusion prompt over the candidate summary;
- every other message takes the step of its phase. The `Stepped` predicate and its per-phase predicates spell these steps out. Each one says what the phase, the collected fields, the cursor, the tech-stack fields, the gateway log and the history become, and which fields stay as they were.

Behaviour of the code worth knowing:

- **Tech-stack order.** `parse_tech_stack` returns `list(set(identified))[:15]` (utils.py:126). The order is Python's set order, not the order of discovery. `Utils.ParseTechStack` leaves the order open. It promises distinct elements, all identified, and `min(15, #distinct)` of them.
- **Bad tech stack is still stored.** A tech-stack answer with no recognised technology is still stored under `tech_stack`, and its empty parse under `tech_stack_parsed` (conversation_handler.py:178-179). Only the phase stays.
- **Two waits, not three.** Back-off waits 1s and then 2s: there is no wait after the last failed attempt (llm_client.py:109-114).
- **Empty test reply.** At construction, a test reply with empty content leaves demo mode off and the history empty (llm_client.py:47-52). Only an exception selects demo mode.
- **Conclusion phrases that also exit.** The indicator phrases "that's all" and "no more" are exit keywords too. Since the exit check comes first, they end the conversation instead of leading to the conclusion (`Conversation.IndicatorsShadowedByExit`).
- **Substring exit matching.** Any message containing "end", such as "backend", is an exit (`Utils.ExitOnEnd`).
- **Greeting from any phase.** `get_initial_greeting` sets the phase to information gathering whatever it was before (conversation_handler.py:74).

## Model

| member | source | states |
|---|---|---|
| Utils.ValidateEmail | utils.py:14-25 | true exactly when the stripped text is in the language of the email pattern: a non-empty local part, `@`, a non-empty domain, a dot, and at least two letters |
| Utils.EmailMatchesIff | utils.py:24 | the backtracking-free reading of the pattern (first `@`, last `.`) accepts exactly the texts the regular expression accepts |
| Utils.EmailIgnoresSurroundingSpace | utils.py:25 | whitespace around the address never changes the verdict |
| Utils.EmailNeedsAt | utils.py:24 | a text without `@` is never a valid address |
| Utils.ValidatePhone | utils.py:28-43 | valid exactly when, with whitespace, `-`, `.`, `(` and `)` removed, what is left is an optional leading `+` and then 10 to 15 digits and nothing else |
| Utils.RemoveSeparators | utils.py:40 | no whitespace, `-`, `.`, `(` or `)` is left |
| Utils.RemoveSeparatorsAppend | utils.py:40 | removing separators distributes over concatenation |
| Utils.PhoneIgnoresSeparator | utils.py:39-43 | inserting one separator anywhere never changes whether a phone number is valid |
| Utils.PhoneDigitCount | utils.py:41-43 | a run of digits, with or without a leading `+`, is valid exactly when it has 10 to 15 digits |
| Utils.FirstNumber | utils.py:57-59 | none exactly when the text has no digit; otherwise the maximal `\d+(\.\d+)?` number starting at the first digit |
| Utils.ValidateExperience | utils.py:46-73 | the loop returns the first number in the text, else the value of the first table word contained in the lower-cased text, else none |
| Utils.ExperienceFirstNumber | utils.py:57-59 | when the first digit is at position i, the result is the number read from i, whatever words the text contains |
| Utils.ExperienceNumberExamples | utils.py:57-59 | "5 years" gives 5 and "2.5 yrs" gives 2.5 |
| Utils.ExperienceNone | utils.py:62-71 | "none" reads as 1, because it contains "one" |
| Utils.ParseDecimal | conversation_handler.py:194-198 | the model of `float(...)` accepts only digit text with an optional fraction, and what it returns is a well-formed decimal |
| Utils.RenderParseRoundTrip | conversation_handler.py:146-151 | a stored rendering `str(float(x))` parses back to a decimal that renders to the same text, so a stored number survives the later `float(...)` unchanged |
| Utils.ValueBelow | llm_client.py:133-141 | comparing a decimal's value with a whole number of years is comparing its whole part |
| Utils.KeywordHits | utils.py:115-117 | every hit is a normalised known keyword that occurs in the text; no hits exactly when no keyword occurs |
| Utils.AddCustom | utils.py:120-124 | keeps what was identified and appends only stripped pieces longer than one character whose lower case is not yet present |
| Utils.AddCustomEmpty | utils.py:121-124 | nothing is added to an empty list exactly when every piece strips to at most one character |
| Utils.IdentifiedElements | utils.py:112-124 | every identified entry is a normalised keyword found in the lower-cased text or a stripped piece longer than one character |
| Utils.IdentifiedEmptyIff | utils.py:112-124 | nothing is identified exactly when no keyword occurs and every piece strips to at most one character |
| Utils.CollectKeywords | utils.py:115-117 | the keyword loop builds the keyword hits, in order |
| Utils.CollectCustom | utils.py:120-124 | the loop over the pieces builds the custom entries |
| Utils.ListOfSet | utils.py:126 | `list(set(...))`: the same elements, no duplicates, as many as the set has |
| Utils.FirstDistinct | utils.py:126 | `[:15]` of the listed set: distinct, at most 15, drawn from the identified list, `min(15, #distinct)` long, empty exactly when nothing was identified |
| Utils.ParseTechStack | utils.py:76-126 | the result is `TechStackOf` the text: at most 15 distinct identified technologies, `min(15, #distinct)` of them, empty exactly when nothing was identified |
| Utils.CheckExitIntent | utils.py:129-146 | true exactly when some exit keyword is a substring of the lower-cased, stripped message |
| Utils.ExitIntentIff | utils.py:139-144 | stripping never matters: the keywords neither start nor end with a space |
| Utils.ExitIntentAppend | utils.py:142-144 | adding text after a message with exit intent keeps the intent |
| Utils.ExitOnEnd | utils.py:142-144 | any message containing "end", such as "backend", is an exit |
| Utils.NoExitInLoveJava | utils.py:139-146 | "I love Java" is not an exit |
| Utils.NoTagLeftMeaning | utils.py:166 | "no tag left" means that no `<` is followed anywhere later by a `>` |
| Utils.StripTagsNoTag | utils.py:166 | what `re.sub(r'<[^>]*>', '', s)` leaves has no tag |
| Utils.StripTagsChars | utils.py:166 | tag removal introduces no character |
| Utils.SanitizeInput | utils.py:149-169 | the result has at most 2000 characters and no tag, and a whitespace-only input sanitises to "" |
| Utils.FormatCandidateSummary | utils.py:172-203 | the loop builds `CandidateSummary` |
| Utils.SummaryLinesSplit | utils.py:182-203 | when no value spans lines, the summary is 11 lines: 3 header lines, the 7 labelled fields in fixed order ("Not provided" for a missing key), and the closing rule |
| Utils.SummaryIgnoresOtherKeys | utils.py:198-200 | keys other than the seven fields never change the summary |
| Utils.FormatConversationForLlm | utils.py:262-277 | the loop builds `Transcript` |
| Utils.TranscriptAppend | utils.py:272-277 | for any contents, each message adds one line, "Candidate: " for user turns and "Assistant: " otherwise, after a newline unless it is the first |
| Utils.TranscriptLines | utils.py:272-277 | when no content spans lines, the transcript splits back into one line per message, starting "Candidate: " exactly for user turns |
| Llm.RemoteModel.Create | llm_client.py:86-91 | one request consumes the next scripted reply, an exhausted script fails, and the message list sent is recorded |
| Llm.RetryFromMeaning | llm_client.py:81-114 | from any attempt, an answer comes from the first successful attempt; giving up comes after exactly `max_retries` failures |
| Llm.RetryMeaning | llm_client.py:81-116 | the loop answers with the first success among the first `max_retries` replies, having failed before it; otherwise it gives up after `max_retries` failures |
| Llm.RetryExamples | llm_client.py:81-116 | success at once, success on the third try, three failures, and an exhausted script |
| Llm.BackoffMeaning | llm_client.py:109-112 | the i-th wait is `2 ** i` seconds |
| Llm.BackoffDoubles | llm_client.py:110 | each wait doubles the previous one, starting at 1 second |
| Llm.WindowProperties | llm_client.py:98-100 | for every history, the window has at most 21 entries, keeps the first entry and keeps the latest 20 |
| Llm.WindowAppendPair | llm_client.py:84-100 | after an exchange, the window keeps the system prompt and ends with the user turn and then the answer |
| Llm.ExchangesKeepSystemPrompt | llm_client.py:84-100 | after any number of answered exchanges, the history starts with the system prompt, has `min(1 + 2n, 21)` entries and ends with the last exchange |
| Llm.DemoResponse | llm_client.py:200-236 | on the lower-cased prompt: the welcome reply exactly when "greeting" or "welcome" occurs; the sample questions exactly when neither does and "technical" or "question" does; the closing reply exactly when none of those do and "conclusion" or "closing" does; the generic reply exactly when none of the six occurs |
| Llm.DemoResponseIgnoresCase | llm_client.py:202 | the demo reply does not depend on letter case |
| Llm.YearsBandIsBand | llm_client.py:133-141 | the band chosen from the whole years is the one the float comparisons `< 2` and `< 5` choose |
| Llm.BandMonotone | llm_client.py:133-141 | more experience never gives an easier band |
| Llm.LlmClient.constructor | llm_client.py:20-56 | absent, empty or `YOUR_` key: demo mode, no request. Otherwise one "Say OK" request: a failure selects demo mode; a non-empty answer installs the system prompt |
| Llm.LlmClient.Attempt | llm_client.py:82-107 | one request carrying the history plus the prompt; an answer is appended and windowed, a failure leaves the history as before |
| Llm.LlmClient.RequestLoop | llm_client.py:81-116 | `Retried`: the reply, history, requests and doubling waits are those of `Retry` over the script, with the fallback reply after a give-up |
| Llm.LlmClient.GenerateResponse | llm_client.py:58-116 | `Responded`: in demo mode the canned reply and nothing else changes; otherwise the context-prefixed prompt goes through the request loop with the canned reply as fallback; the call is logged |
| Llm.LlmClient.GenerateWithHistory | llm_client.py:118-124 | one generate_response call on the bare message; the history argument is not used |
| Llm.LlmClient.GenerateTechnicalQuestions | llm_client.py:126-162 | one call on the question prompt, with the stack, years, position and the difficulty band of the years |
| Llm.LlmClient.GenerateGreeting | llm_client.py:164-174 | one call on the fixed greeting prompt |
| Llm.LlmClient.GenerateConclusion | llm_client.py:176-192 | one call on the closing prompt carrying the summary |
| Llm.LlmClient.ResetChat | llm_client.py:194-198 | the history is the system prompt alone; the mode is unchanged |
| Conversation.ValidationResponse | conversation_handler.py:306-320 | the email reply opens by quoting the value that was typed |
| Conversation.ValidationResponseIgnoresValue | conversation_handler.py:306-320 | the phone reply and the reply for any other field do not depend on the value typed |
| Conversation.TechStackPrompt | conversation_handler.py:322-332 | the prompt opens by thanking the candidate by the stored name, or "there" when no name is stored |
| Conversation.LastN | conversation_handler.py:229 | `history[-6:]`: the latest `min(6, len)` entries |
| Conversation.IndicatorsShadowedByExit | conversation_handler.py:250-253 | a message holding "that's all" or "no more" is both a conclusion indicator and an exit, so the earlier exit check takes it |
| Conversation.Gather | conversation_handler.py:128-173 | a gathering step never removes a stored entry, and it changes no entry outside the six fields it collects |
| Conversation.GatherKeepsFields | conversation_handler.py:128-173 | the cursor stays in 2..6 and never moves back; every earlier field stays stored; the tech stack is asked for exactly when the last field was pending, and the next question is the field under the cursor |
| Conversation.GatherStoresName | conversation_handler.py:154-157 | the first answer is stored as the name, and the email is asked for next |
| Conversation.GatherRejects | conversation_handler.py:135-144 | a step is rejected exactly when it answers the email with an invalid address or the phone with an invalid number; a rejected step stores nothing and keeps the cursor |
| Conversation.GatherStores | conversation_handler.py:146-153 | an accepted answer is stored under the pending field; years are stored as the rendered number when one is read, else as written |
| Conversation.StoredYearsBand | conversation_handler.py:194-198 | the band the questions get is the band of the number read from the experience answer; an unreadable answer gives the entry band |
| Conversation.ConversationState.constructor | conversation_handler.py:28-41 | the dataclass defaults |
| Conversation.ConversationHandler.constructor | conversation_handler.py:50-58 | a fresh state over the given gateway holding every dataclass default: phase greeting, no fields, cursor 0, empty history, empty parse, no questions text, no questions asked, nothing awaiting validation |
| Conversation.ConversationHandler.Reset | conversation_handler.py:60-63 | a fresh state holding every dataclass default, as for the constructor; the gateway history back to the system prompt alone, with its mode, waits and log as they were |
| Conversation.ConversationHandler.AddToHistory | conversation_handler.py:339-344 | appends exactly one message |
| Conversation.ConversationHandler.GetInitialGreeting | conversation_handler.py:65-75 | one greeting call whose reply is recorded and returned; the phase becomes information gathering; the gateway's demo mode stays as it was |
| Conversation.ConversationHandler.GenerateFieldPrompt | conversation_handler.py:291-304 | one call on the field prompt that quotes the previous answer and asks the field's question; the gateway's demo mode stays as it was |
| Conversation.ConversationHandler.GenerateConclusion | conversation_handler.py:334-337 | one conclusion call over the summary of the collected fields; the gateway's demo mode stays as it was |
| Conversation.ConversationHandler.RecordAnswer | conversation_handler.py:128-170 | the fields, the cursor and the phase become those of `Gather`, and the next question is returned |
| Conversation.ConversationHandler.HandleInfoGathering | conversation_handler.py:125-173 | `InfoStep`: fields and cursor as `Gather` gives them; a field prompt through the model, the fixed tech-stack prompt with the phase moved on, or the validation reply without a model call; the reply is recorded; the gateway's demo mode stays as it was |
| Conversation.ConversationHandler.HandleGreeting | conversation_handler.py:119-123 | `GreetingStep`: the message is stored as the name, the cursor is 2, and the model is asked for the email prompt; the gateway's demo mode stays as it was |
| Conversation.ConversationHandler.StoreTechStack | conversation_handler.py:177-179 | the raw message is stored under `tech_stack`, and the parse is `TechStackOf` the message |
| Conversation.ConversationHandler.AskTechnicalQuestions | conversation_handler.py:190-224 | the phase moves on; one question call for the parsed stack, the stored years and the position; the reply acknowledges the stack and carries the questions; the gateway's demo mode stays as it was |
| Conversation.ConversationHandler.HandleTechStack | conversation_handler.py:175-224 | `TechStackStep`: the stack stored and parsed; with nothing identified, the re-prompt and no call; otherwise the question call and the acknowledgement, in the technical-questions phase; the gateway's demo mode stays as it was |
| Conversation.ConversationHandler.HandleTechnicalQuestions | conversation_handler.py:226-260 | `QuestionsStep`: the evaluation call on the last six turns and the answer, always; on a conclusion indicator, a second call for the conclusion, whose reply is returned, in the conclusion phase; the gateway's demo mode stays as it was |
| Conversation.ConversationHandler.HandleExit | conversation_handler.py:277-283 | `ExitStep`: the phase ends and the conclusion call over the summary gives the reply; the fields stay; the gateway's demo mode stays as it was |
| Conversation.ConversationHandler.HandleConclusion | conversation_handler.py:262-275 | ends exactly on exit intent, as `ExitStep`; otherwise one call on the closing prompt quoting the message, with the phase kept; the gateway's demo mode stays as it was |
| Conversation.ConversationHandler.HandleFallback | conversation_handler.py:285-289 | `FallbackStep`: one call on the bare message, whose reply is recorded; the gateway's demo mode stays as it was |
| Conversation.ConversationHandler.Dispatch | conversation_handler.py:100-117 | `Stepped`: the step of the current phase; the gateway's demo mode stays as it was |
| Conversation.ConversationHandler.ProcessMessage | conversation_handler.py:77-117 | an empty sanitised message gets the re-prompt and changes nothing; otherwise it is recorded, and it ends the conversation exactly on exit intent, as `ExitStep`, or else takes the step of its phase as `Stepped`; in every case the gateway's demo mode stays as it was |
| Conversation.ConversationHandler.StepMovesForward | conversation_handler.py:77-117 | every step and every exit leaves the phase where it was, moves it to the next phase or ends the conversation: the phases are only walked forwards; no step changes the gateway's demo mode |

## Left out

- **Unicode.** `str.lower`, `upper`, `title`, `strip`, `split` and the regular-expression classes `\s` and `\d` act on ASCII only. Python applies them to all of Unicode.
- Utils.Render: renders `str(float(x))` positionally only. Python's exponent forms ("1e+16" at or above 1e16, "1e-05" for 0.00001), the rounding of any decimal a double cannot hold exactly, which can happen from 16 significant digits on ("9007199254740993" becomes "9007199254740992.0"; "1.9999999999999999" becomes "2.0", which moves the candidate from the entry band to the middle band at conversation_handler.py:196 and llm_client.py:133-141) and "inf" for huge digit runs are not modelled.
- Conversation.ExperienceYears: `float(experience)` at conversation_handler.py:196 also accepts "inf", "nan", signs, surrounding spaces and exponent forms. A raw stored "inf" makes the source prompt "Experience: inf years" with the advanced band (llm_client.py:139-141); the model gives 0 years and the entry band.
- **Logging.** The `print` calls (llm_client.py:34, 48, 54-55, 111) have no effect on state.
- **Field order.** `candidate_info` is a Python dict with insertion order, and the app iterates `info.items()` (app.py:266). The model keeps it as an unordered map: the summary has its own fixed order, but the app's display order is not modelled.
- **Missing reply content.** `response.choices[0].message.content` can be `None`; a scripted `Success` always carries a string.
- **The service.** The chat-completion service, Groq's SDK and its model name, `max_tokens` and `temperature` are replaced by the scripted `RemoteModel`, a concrete class rather than an interface. A request records only the message list.
- **Sleeping.** `time.sleep` is recorded as a ghost list of waits.
- **Environment and system prompt.** The environment lookup `os.getenv("GROQ_API_KEY")` is a constructor parameter. So is the `SYSTEM_PROMPT` text of prompts.py, which is not part of this model.
- **Not modelled.** `save_candidate_data` (file output, clock) and `get_greeting_time` (clock), utils.py:206-259; the Streamlit front ends app.py and streamlit_app.py.
- Conversation.ConversationHandler.GetCandidateInfo, GetConversationHistory, GetCurrentPhase, IsEnded: plain reads of the state with no contract; the copies the source returns are values here.
- **Unused field.** `awaiting_validation` is kept as a field that nothing reads or writes after construction, as in the source.
- Utils.ParseTechStack: the order of `list(set(...))` is left open (any enumeration of the set), so the model does not say which 15 are kept when more are identified.
- Llm.LlmClient.GenerateWithHistory: states only the logged call and the unchanged mode. What the call does to the history, the script and the waits is `GenerateResponse`'s `Responded` and is not restated.
- Llm.LlmClient.GenerateTechnicalQuestions: states only the logged call on the question prompt and the unchanged mode, not the rest of `Responded`.
- Llm.LlmClient.GenerateGreeting: states only the logged call on the greeting prompt and the unchanged mode, not the rest of `Responded`.
- Llm.LlmClient.GenerateConclusion: states only the logged call on the closing prompt and the unchanged mode, not the rest of `Responded`.
- Conversation.ConversationHandler.GenerateFieldPrompt, GenerateConclusion, GetInitialGreeting and the phase handlers: state which calls went into the log and what the state becomes. The model's own history, the script and the waits after those calls are left to the gateway's contracts.
- Utils.SummaryLinesSplit: the line-by-line reading needs values without newlines; with a newline in a value the summary has more lines.
- Utils.TranscriptLines: the split-back reading needs contents without newlines. `Utils.TranscriptAppend` states the line structure for any contents.
