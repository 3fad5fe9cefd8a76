/** The constants of config.py that carry behaviour: the conversation phases, the
    order in which the six candidate fields are collected, their questions and the
    exit keywords; and the role-tagged message both the dialogue and the gateway
    keep in their histories. */
module Config {

  /** ConversationPhase (config.py:7-14), as a closed enumeration. */
  datatype Phase = Greeting | InfoGathering | TechStack | TechnicalQuestions | Conclusion | Ended

  /** The linear order of the phases; Ended has no successor. */
  function Succ(p: Phase): Phase {
    match p
    case Greeting => InfoGathering
    case InfoGathering => TechStack
    case TechStack => TechnicalQuestions
    case TechnicalQuestions => Conclusion
    case Conclusion => Ended
    case Ended => Ended
  }

  /** The phase name as config.py spells it. */
  function PhaseName(p: Phase): string {
    match p
    case Greeting => "greeting"
    case InfoGathering => "info_gathering"
    case TechStack => "tech_stack"
    case TechnicalQuestions => "technical_questions"
    case Conclusion => "conclusion"
    case Ended => "ended"
  }

  /** The `role` of a history entry: "system", "user" or "assistant". */
  datatype Role = System | User | Assistant

  /** A `{"role": ..., "content": ...}` history entry. */
  datatype Message = Message(role: Role, content: string)

  const FullName := "full_name"
  const Email := "email"
  const Phone := "phone"
  const YearsOfExperience := "years_of_experience"
  const DesiredPositions := "desired_positions"
  const CurrentLocation := "current_location"
  const TechStackField := "tech_stack"

  /** The six fields gathered one by one before the tech stack, in order. */
  const FieldsToCollect: seq<string> :=
    [FullName, Email, Phone, YearsOfExperience, DesiredPositions, CurrentLocation]

  /** FIELD_PROMPTS.get(field, "Could you please provide your {field}?") */
  function FieldQuestion(field: string): string {
    if field == FullName then "What is your full name?"
    else if field == Email then "What is your email address?"
    else if field == Phone then "What is your phone number?"
    else if field == YearsOfExperience then "How many years of professional experience do you have?"
    else if field == DesiredPositions then "What position(s) are you interested in?"
    else if field == CurrentLocation then "Where are you currently located?"
    else if field == TechStackField then
      "Please tell me about your tech stack - including programming languages, frameworks, databases, and tools you're proficient in."
    else "Could you please provide your " + field + "?"
  }

  /** EXIT_KEYWORDS */
  const ExitKeywords: seq<string> := [
    "bye", "goodbye", "exit", "quit", "end", "stop",
    "thank you", "thanks", "that's all", "no more",
    "end conversation", "close", "terminate"
  ]
}
