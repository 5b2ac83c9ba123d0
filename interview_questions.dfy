/** The mock interview-question generator: the role's question bank (or a default
    one), the first four questions of each kind, fixed answering tips and a drawn
    difficulty; and the choice between it and the remote model service. */
module InterviewQuestions {
  import opened Common

  /** The technical and the behavioral questions kept for one role. */
  datatype QuestionBank = QuestionBank(technical: seq<string>, behavioral: seq<string>)

  /** One entry of a category's `questions` list. */
  datatype Question = Question(question: string, tips: string, difficulty: string)

  /** One entry of `interview_questions`. */
  datatype QuestionCategory = QuestionCategory(category: string, questions: seq<Question>)

  /** What `get_interview_questions` returns: the mock `interview_questions` list or
      the service's parsed reply, kept opaque. */
  datatype InterviewQuestions = Mock(categories: seq<QuestionCategory>) | AiQuestions(payload: string)

  const SoftwareEngineerQuestions := QuestionBank(
    [
      "Explain the difference between REST and GraphQL APIs.",
      "How would you optimize a slow database query?",
      "Describe the SOLID principles in object-oriented design.",
      "How do you handle version control in a team environment?",
      "Explain the concept of microservices architecture."
    ],
    [
      "Tell me about a challenging project you worked on.",
      "How do you handle disagreements with team members?",
      "Describe a time when you had to learn a new technology quickly.",
      "How do you prioritize tasks when working on multiple projects?",
      "Tell me about a bug you couldn't solve and how you handled it."
    ])

  const DataScientistQuestions := QuestionBank(
    [
      "Explain the difference between supervised and unsupervised learning.",
      "How would you handle missing data in a dataset?",
      "Describe the bias-variance tradeoff in machine learning.",
      "How do you evaluate the performance of a classification model?",
      "Explain the concept of overfitting and how to prevent it."
    ],
    [
      "Tell me about a data analysis project you're proud of.",
      "How do you communicate complex findings to non-technical stakeholders?",
      "Describe a time when your analysis led to a significant business impact.",
      "How do you stay updated with the latest ML/AI trends?",
      "Tell me about a time when you had to work with messy data."
    ])

  const ProductManagerQuestions := QuestionBank(
    [
      "How do you prioritize features in a product roadmap?",
      "Explain the difference between OKRs and KPIs.",
      "How would you conduct user research for a new feature?",
      "Describe your approach to A/B testing.",
      "How do you measure product success?"
    ],
    [
      "Tell me about a product you launched that failed and what you learned.",
      "How do you handle competing priorities from different stakeholders?",
      "Describe a time when you had to make a decision with incomplete data.",
      "How do you gather and incorporate user feedback?",
      "Tell me about a time when you had to say no to a feature request."
    ])

  const DefaultQuestions := QuestionBank(
    [
      "Explain your technical background and experience.",
      "How do you approach problem-solving?",
      "Describe a project you worked on recently.",
      "How do you stay updated with technology trends?",
      "What tools and technologies are you most comfortable with?"
    ],
    [
      "Tell me about yourself and your background.",
      "Why are you interested in this position?",
      "Describe a challenging situation you faced at work.",
      "How do you handle stress and pressure?",
      "Where do you see yourself in 5 years?"
    ])

  /** `role_questions`, keyed by the exact role name. */
  const RoleQuestions: map<string, QuestionBank> := map[
    "Software Engineer" := SoftwareEngineerQuestions,
    "Data Scientist" := DataScientistQuestions,
    "Product Manager" := ProductManagerQuestions]

  const Difficulties: seq<string> := ["Easy", "Medium", "Hard"]
  const TechnicalTips := "Focus on your experience and provide specific examples."
  const BehavioralTips := "Use the STAR method: Situation, Task, Action, Result."
  const MaxQuestions := 4

  /** `role_questions.get(job_role, default)` */
  function BankFor(role: string): (b: QuestionBank)
    ensures role in RoleQuestions ==> b == RoleQuestions[role]
    ensures role !in RoleQuestions ==> b == DefaultQuestions
  {
    if role in RoleQuestions then RoleQuestions[role] else DefaultQuestions
  }

  /** Every bank, the default one included, holds five questions of each kind. */
  lemma BankSizes(role: string)
    ensures |BankFor(role).technical| == 5 && |BankFor(role).behavioral| == 5
  {
  }

  /** A difficulty drawn by `random.choice(["Easy", "Medium", "Hard"])`. */
  predicate ValidDraws(draws: seq<nat>) {
    forall k | 0 <= k < |draws| :: draws[k] < |Difficulties|
  }

  /** The list comprehension over `pool[:4]`: one question per kept entry, in pool
      order, each with the category's tips and its own drawn difficulty. */
  function Category(pool: seq<string>, tips: string, draws: seq<nat>): (qs: seq<Question>)
    requires |draws| == |Take(pool, MaxQuestions)| && ValidDraws(draws)
    ensures |qs| == |draws| <= MaxQuestions
    ensures forall k | 0 <= k < |qs| ::
      && qs[k].question == pool[k]
      && qs[k].tips == tips
      && qs[k].difficulty in Difficulties
  {
    var kept := Take(pool, MaxQuestions);
    seq(|kept|, k requires 0 <= k < |kept| => Question(kept[k], tips, Difficulties[draws[k]]))
  }

  /** `generate_mock_questions(job_role, experience_level)` (the level is not used),
      with the difficulty draws of the technical and of the behavioral questions.
      Two categories, Technical then Behavioral, four questions each: the first four
      of the role's bank in bank order, with the category's tips. */
  function GenerateMockQuestions(role: string, techDraws: seq<nat>, behavDraws: seq<nat>)
    : (r: seq<QuestionCategory>)
    requires |techDraws| == MaxQuestions && ValidDraws(techDraws)
    requires |behavDraws| == MaxQuestions && ValidDraws(behavDraws)
    ensures |r| == 2
    ensures r[0].category == "Technical" && r[1].category == "Behavioral"
    ensures |r[0].questions| == MaxQuestions && |r[1].questions| == MaxQuestions
    ensures forall k | 0 <= k < MaxQuestions ::
      && r[0].questions[k].question == BankFor(role).technical[k]
      && r[0].questions[k].tips == TechnicalTips
      && r[0].questions[k].difficulty in Difficulties
    ensures forall k | 0 <= k < MaxQuestions ::
      && r[1].questions[k].question == BankFor(role).behavioral[k]
      && r[1].questions[k].tips == BehavioralTips
      && r[1].questions[k].difficulty in Difficulties
  {
    var bank := BankFor(role);
    BankSizes(role);
    [QuestionCategory("Technical", Category(bank.technical, TechnicalTips, techDraws)),
     QuestionCategory("Behavioral", Category(bank.behavioral, BehavioralTips, behavDraws))]
  }

  /** A role outside the three known ones gets the questions of the default bank. */
  lemma UnknownRoleUsesDefault(role: string, techDraws: seq<nat>, behavDraws: seq<nat>)
    requires role != "Software Engineer" && role != "Data Scientist" && role != "Product Manager"
    requires |techDraws| == MaxQuestions && ValidDraws(techDraws)
    requires |behavDraws| == MaxQuestions && ValidDraws(behavDraws)
    ensures var r := GenerateMockQuestions(role, techDraws, behavDraws);
      forall k | 0 <= k < MaxQuestions ::
        r[0].questions[k].question == DefaultQuestions.technical[k]
        && r[1].questions[k].question == DefaultQuestions.behavioral[k]
  {
    assert role !in RoleQuestions;
  }

  /** `get_interview_questions(job_role, experience_level)`: the service is asked only
      for a non-empty role; its reply is returned when it answers, and the mock
      questions are returned when the role is empty, the service is unavailable or
      the call raises. */
  function GetInterviewQuestions(role: string, ai: AiCall, techDraws: seq<nat>, behavDraws: seq<nat>)
    : (r: InterviewQuestions)
    requires |techDraws| == MaxQuestions && ValidDraws(techDraws)
    requires |behavDraws| == MaxQuestions && ValidDraws(behavDraws)
    ensures role == "" ==> r == Mock(GenerateMockQuestions(role, techDraws, behavDraws))
    ensures role != "" && ai.Replied? ==> r == AiQuestions(ai.payload)
    ensures !ai.Replied? ==> r == Mock(GenerateMockQuestions(role, techDraws, behavDraws))
  {
    if role != "" && ai.Replied? then AiQuestions(ai.payload)
    else Mock(GenerateMockQuestions(role, techDraws, behavDraws))
  }
}
