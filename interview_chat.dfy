/** The mock reply of the interview-coach chatbot: a priority-ordered keyword
    classification of the lowercased message, then one of the chosen category's
    templates with the job role filled in. */
module InterviewChat {
  import opened Common

  /** The `response_type` the keyword tests pick; `Other` is the default branch. */
  datatype Category = Hello | Help | Technical | Behavioral | Feedback | Other

  const HelloWords: seq<string> := ["hello", "hi", "hey"]
  const HelpWords: seq<string> := ["help", "what", "how"]
  const TechnicalWords: seq<string> := ["technical", "code", "programming", "technology"]
  const BehavioralWords: seq<string> := ["behavioral", "experience", "situation", "story"]
  const FeedbackWords: seq<string> := ["feedback", "improve", "better", "practice"]

  /** The keyword list that selects each category (none selects `Other`). */
  function Keywords(c: Category): seq<string> {
    match c
    case Hello => HelloWords
    case Help => HelpWords
    case Technical => TechnicalWords
    case Behavioral => BehavioralWords
    case Feedback => FeedbackWords
    case Other => []
  }

  /** The position of each category in the order the tests are made. */
  function Rank(c: Category): nat {
    match c
    case Hello => 0
    case Help => 1
    case Technical => 2
    case Behavioral => 3
    case Feedback => 4
    case Other => 5
  }

  /** The if/elif chain over `message.lower()`. The result is the first category,
      in test order, whose keyword list has a word inside the lowercased message;
      `Other` when none has. */
  function Classify(message: string): (c: Category)
    ensures c != Other ==> ContainsAny(Keywords(c), Lower(message))
    ensures forall d | Rank(d) < Rank(c) :: !ContainsAny(Keywords(d), Lower(message))
    ensures c == Other <==> forall d | d != Other :: !ContainsAny(Keywords(d), Lower(message))
  {
    var m := Lower(message);
    if ContainsAny(HelloWords, m) then Hello
    else if ContainsAny(HelpWords, m) then Help
    else if ContainsAny(TechnicalWords, m) then Technical
    else if ContainsAny(BehavioralWords, m) then Behavioral
    else if ContainsAny(FeedbackWords, m) then Feedback
    else Other
  }

  /** Lowering twice is lowering once. */
  lemma {:induction false} LowerIdempotent(s: string)
    ensures Lower(Lower(s)) == Lower(s)
  {
    var once := Lower(s);
    forall i | 0 <= i < |s| ensures Lower(once)[i] == once[i] {
      assert once[i] == LowerChar(s[i]);
    }
  }

  /** Messages that differ only in the case of their letters get the same category. */
  lemma ClassifyIgnoresCase(a: string, b: string)
    requires SameIgnoringCase(a, b)
    ensures Classify(a) == Classify(b)
  {
    assert Lower(a) == Lower(b);
  }

  /** In particular the category of a message is that of its lowercase form. */
  lemma ClassifyLowercase(message: string)
    ensures Classify(Lower(message)) == Classify(message)
  {
    LowerIdempotent(message);
  }

  /** Keywords are matched as substrings, not words: any message containing "this"
      (which contains "hi") is a greeting, whatever else it says. */
  lemma ThisIsAGreeting(message: string)
    requires IsSubstring("this", Lower(message))
    ensures Classify(message) == Hello
  {
    assert OccursAt("hi", "this", 1);
    SubstringTransitive("hi", "this", Lower(message));
    assert HelloWords[1] == "hi";
  }

  /** The category order decides between keywords of two lists: a message with both
      "how" and "code" but no greeting word is a help request. */
  lemma HelpBeforeTechnical(message: string)
    requires !ContainsAny(HelloWords, Lower(message))
    requires IsSubstring("how", Lower(message)) && IsSubstring("code", Lower(message))
    ensures Classify(message) == Help
  {
    assert HelpWords[2] == "how";
  }

  // ---------------------------------------------------------------------------
  // Templates

  const HelloTemplates: seq<Template> := [
    Template("Hello! I'm your AI interview coach for the ", " position. How can I help you prepare today?"),
    Template("Hi there! Ready to practice some interview questions for the ", " role? What would you like to work on?"),
    Template("Welcome! I'm here to help you ace your ", " interview. What's on your mind?")
  ]

  const HelpTemplates: seq<Template> := [
    Template("I can help you practice interview questions, give feedback on your answers, and provide tips for the ", " position. What would you like to focus on?"),
    Template("I'm here to support your interview preparation for the ", " role. We can practice technical questions, behavioral questions, or general interview tips. What interests you?"),
    Template("Let's work on your ", " interview skills! I can ask you questions, provide feedback, or give you specific tips. What would be most helpful?")
  ]

  const TechnicalTemplates: seq<Template> := [
    Template("Great! Let's practice some technical questions for the ", " position. Can you tell me about your experience with [relevant technology]?"),
    Template("Technical skills are crucial for the ", " role. What's your strongest technical skill, and how would you demonstrate it in an interview?"),
    Template("For the ", " position, technical questions often focus on problem-solving. How do you approach debugging a complex issue?")
  ]

  const BehavioralTemplates: seq<Template> := [
    Template("Behavioral questions are important for the ", " role. Can you tell me about a challenging project you worked on?"),
    Template("Let's practice behavioral questions for the ", " position. How do you handle working with difficult team members?"),
    Template("Behavioral questions help assess your soft skills for the ", " role. Tell me about a time you had to learn something quickly.")
  ]

  const FeedbackTemplates: seq<Template> := [
    Template("I'd be happy to give you feedback on your ", " interview preparation. What specific area would you like me to focus on?"),
    Template("Feedback is crucial for improving your ", " interview skills. What aspect of your preparation would you like me to evaluate?"),
    Template("Let's work on improving your ", " interview responses. What's a question you find challenging?")
  ]

  const DefaultTemplates: seq<Template> := [
    Template("That's an interesting point about the ", " role. Can you elaborate on that?"),
    Template("Good question! For the ", " position, that's definitely something to consider. What's your take on it?"),
    Template("I appreciate your input on the ", " role. How do you think that would apply in a real interview setting?"),
    Template("That's a great perspective for the ", " position. What other aspects of the role are you thinking about?")
  ]

  /** The `responses` dictionary, keyed by category. */
  const Responses: map<Category, seq<Template>> := map[
    Hello := HelloTemplates, Help := HelpTemplates, Technical := TechnicalTemplates,
    Behavioral := BehavioralTemplates, Feedback := FeedbackTemplates]

  /** The templates a category draws from: the default list for `Other`, otherwise
      `responses.get(response_type, responses["help"])`. Every keyword category is a
      key of the dictionary, so the fallback to the help templates is never taken;
      each keyword category has three templates and the default list four. */
  function Pool(c: Category): (r: seq<Template>)
    ensures c == Other ==> r == DefaultTemplates
    ensures c != Other ==> c in Responses && r == Responses[c]
    ensures |r| == if c == Other then 4 else 3
  {
    assert c != Other ==> c in Responses;
    if c == Other then DefaultTemplates
    else if c in Responses then Responses[c]
    else HelpTemplates  // `responses["help"]`
  }

  /** `generate_mock_response(message, job_role)`, with `pick` the index
      `random.choice` draws from the category's templates. The reply is one of the
      category's templates with the role in its field, so it mentions the role. */
  function GenerateMockResponse(message: string, role: string, pick: nat): (r: string)
    requires pick < |Pool(Classify(message))|
    ensures exists t | t in Pool(Classify(message)) :: r == t.Fill(role)
    ensures IsSubstring(role, r)
  {
    Pool(Classify(message))[pick].Fill(role)
  }

  /** With no keyword in the message the reply is a default template, filled. */
  lemma UnmatchedUsesDefault(message: string, role: string, pick: nat)
    requires forall d | d != Other :: !ContainsAny(Keywords(d), Lower(message))
    requires pick < 4
    ensures Classify(message) == Other
    ensures GenerateMockResponse(message, role, pick) == DefaultTemplates[pick].Fill(role)
  {
  }

  /** `chat_with_interview_bot(message, job_role)`: the service's reply text when it
      answers; the mock reply when the service is unavailable or raises. */
  function ChatWithInterviewBot(message: string, role: string, ai: AiCall, pick: nat): (r: string)
    requires pick < |Pool(Classify(message))|
    ensures ai.Replied? ==> r == ai.payload
    ensures !ai.Replied? ==> r == GenerateMockResponse(message, role, pick)
    ensures !ai.Replied? ==> IsSubstring(role, r)
  {
    match ai
    case Replied(text) => text
    case _ => GenerateMockResponse(message, role, pick)
  }
}
