/** The mock career-guidance generator: the role's skill gaps (or default ones),
    three entries of each shuffled suggestion pool and two fixed texts; and the
    choice between it and the remote model service. */
module CareerGuidance {
  import opened Common

  /** `skill_gaps`, keyed by the exact role name. */
  const SkillGaps: map<string, seq<string>> := map[
    "Software Engineer" := ["Advanced algorithms", "System design", "Cloud architecture"],
    "Data Scientist" := ["Machine learning", "Statistical analysis", "Big data tools"],
    "Product Manager" := ["User research", "Data analysis", "Stakeholder management"],
    "DevOps Engineer" := ["Container orchestration", "Infrastructure as code", "Monitoring tools"],
    "UI/UX Designer" := ["User research", "Prototyping tools", "Design systems"]]

  const DefaultGaps: seq<string> := ["Technical skills", "Industry knowledge", "Practical experience"]

  const DevelopmentPlans: seq<string> := [
    "Take online courses in relevant technologies",
    "Build portfolio projects to showcase skills",
    "Network with professionals in the field",
    "Attend industry conferences and workshops",
    "Contribute to open source projects"]

  const Certifications: seq<string> := [
    "AWS Certified Solutions Architect",
    "Google Cloud Professional",
    "Microsoft Azure Developer",
    "Certified Scrum Master",
    "Professional certification in relevant field"]

  const ProjectIdeas: seq<string> := [
    "Build a full-stack web application",
    "Create a mobile app with modern frameworks",
    "Develop a data analysis dashboard",
    "Contribute to an open source project",
    "Create a portfolio website"]

  const EstimatedTime := "6-12 months depending on commitment"
  const ReadinessIndicator := "Ready for entry-level positions, needs improvement for senior roles"
  const Kept := 3

  /** The mock guidance record; `estimatedTime` is the `total_estimated_time` entry of
      `estimated_timeline`. */
  datatype Guidance = Guidance(
    skillGapAnalysis: seq<string>, skillDevelopmentPlan: seq<string>,
    certificationsCourses: seq<string>, projectIdeas: seq<string>,
    estimatedTime: string, jobReadinessIndicator: string)

  /** What `get_career_guidance` returns: the mock record or the service's parsed
      reply, kept opaque. */
  datatype CareerAdvice = MockGuidance(guidance: Guidance) | AiGuidance(payload: string)

  lemma PoolFacts()
    ensures |DevelopmentPlans| == 5 && Distinct(DevelopmentPlans)
    ensures |Certifications| == 5 && Distinct(Certifications)
    ensures |ProjectIdeas| == 5 && Distinct(ProjectIdeas)
  {
  }

  // ---------------------------------------------------------------------------
  // random.shuffle

  /** The draws of one `random.shuffle` of `n` items: for i = n-1 down to 1 it draws
      j in [0, i] and swaps items i and j; `draws[k]` is the draw of the k-th swap. */
  predicate ValidDraws(n: nat, draws: seq<nat>) {
    && |draws| == (if n == 0 then 0 else n - 1)
    && forall k | 0 <= k < |draws| :: draws[k] <= n - 1 - k
  }

  /** `x[i], x[j] = x[j], x[i]` */
  function Swap<T>(s: seq<T>, i: nat, j: nat): (r: seq<T>)
    requires i < |s| && j < |s|
    ensures |r| == |s|
  {
    s[i := s[j]][j := s[i]]
  }

  lemma SwapPermutes<T>(s: seq<T>, i: nat, j: nat)
    requires i < |s| && j < |s|
    ensures multiset(Swap(s, i, j)) == multiset(s)
  {
  }

  /** The list after the first `steps` swaps of the shuffle. */
  function ShuffleSteps<T>(s: seq<T>, draws: seq<nat>, steps: nat): (r: seq<T>)
    requires ValidDraws(|s|, draws) && steps <= |draws|
    ensures |r| == |s|
  {
    if steps == 0 then s
    else Swap(ShuffleSteps(s, draws, steps - 1), |s| - steps, draws[steps - 1])
  }

  /** The list `random.shuffle` leaves behind: a rearrangement of `s`, keeping every
      item as often as it occurred. */
  function Shuffled<T>(s: seq<T>, draws: seq<nat>): (r: seq<T>)
    requires ValidDraws(|s|, draws)
    ensures |r| == |s| && multiset(r) == multiset(s)
  {
    ShufflePermutes(s, draws, |draws|);
    ShuffleSteps(s, draws, |draws|)
  }

  /** One swap of the shuffle keeps the multiset of items. */
  lemma ShuffleStep<T>(s: seq<T>, draws: seq<nat>, done: nat)
    requires ValidDraws(|s|, draws) && done < |draws|
    requires multiset(ShuffleSteps(s, draws, done)) == multiset(s)
    ensures multiset(ShuffleSteps(s, draws, done + 1)) == multiset(s)
  {
    SwapPermutes(ShuffleSteps(s, draws, done), |s| - (done + 1), draws[done]);
  }

  lemma ShuffleStart<T>(s: seq<T>, draws: seq<nat>)
    requires ValidDraws(|s|, draws)
    ensures multiset(ShuffleSteps(s, draws, 0)) == multiset(s)
  {
  }

  /** Shuffling only rearranges: every item is kept, as often as it occurred. */
  lemma {:induction false} ShufflePermutes<T>(s: seq<T>, draws: seq<nat>, steps: nat)
    requires ValidDraws(|s|, draws) && steps <= |draws|
    ensures multiset(ShuffleSteps(s, draws, steps)) == multiset(s)
  {
    if steps == 0 {
      ShuffleStart(s, draws);
    } else {
      var done := steps - 1;
      ShufflePermutes(s, draws, done);
      ShuffleStep(s, draws, done);
    }
  }

  /** `random.shuffle(a)` on an array, in place. */
  method Shuffle(a: array<string>, draws: seq<nat>)
    requires ValidDraws(a.Length, draws)
    modifies a
    ensures a[..] == Shuffled(old(a[..]), draws)
  {
    for k := 0 to |draws|
      invariant a[..] == ShuffleSteps(old(a[..]), draws, k)
    {
      var i, j := a.Length - 1 - k, draws[k];
      ghost var before := a[..];
      var t := a[i];
      a[i] := a[j];
      a[j] := t;
      assert a[..] == before[i := before[j]][j := before[i]];
    }
  }

  /** The first three items of a shuffled five-item pool without repetitions are three
      different items of the pool. */
  lemma ShuffledPrefix(pool: seq<string>, draws: seq<nat>)
    requires |pool| == 5 && Distinct(pool) && ValidDraws(|pool|, draws)
    ensures var p := Take(Shuffled(pool, draws), Kept);
      |p| == Kept && Distinct(p) && forall x | x in p :: x in pool
  {
    var sh := Shuffled(pool, draws);
    PermutationDistinct(sh, pool);
    var p := Take(sh, Kept);
    forall x | x in p ensures x in pool {
      assert x in sh;
      assert x in multiset(sh);
    }
  }

  // ---------------------------------------------------------------------------
  // The mock guidance

  /** `skill_gaps.get(current_role, default)[:3]`: the role's three gaps for the five
      known roles, the three default gaps for any other role. */
  function Gaps(role: string): (r: seq<string>)
    ensures |r| == Kept
    ensures role in SkillGaps ==> r == SkillGaps[role]
    ensures role !in SkillGaps ==> r == DefaultGaps
  {
    Take(if role in SkillGaps then SkillGaps[role] else DefaultGaps, Kept)
  }

  /** What `generate_mock_guidance(current_role, ...)` returns, with the three shuffles'
      draws (the other arguments are not used): three gaps, three different entries
      of each suggestion pool, and the fixed timeline and readiness texts. */
  function MockGuidanceOf(role: string, plans: seq<nat>, certs: seq<nat>, projects: seq<nat>): (g: Guidance)
    requires ValidDraws(5, plans) && ValidDraws(5, certs) && ValidDraws(5, projects)
    ensures g.skillGapAnalysis == Gaps(role) && |g.skillGapAnalysis| == Kept
    ensures |g.skillDevelopmentPlan| == Kept && Distinct(g.skillDevelopmentPlan)
    ensures forall x | x in g.skillDevelopmentPlan :: x in DevelopmentPlans
    ensures |g.certificationsCourses| == Kept && Distinct(g.certificationsCourses)
    ensures forall x | x in g.certificationsCourses :: x in Certifications
    ensures |g.projectIdeas| == Kept && Distinct(g.projectIdeas)
    ensures forall x | x in g.projectIdeas :: x in ProjectIdeas
    ensures g.estimatedTime == EstimatedTime && g.jobReadinessIndicator == ReadinessIndicator
  {
    PoolFacts();
    ShuffledPrefix(DevelopmentPlans, plans);
    ShuffledPrefix(Certifications, certs);
    ShuffledPrefix(ProjectIdeas, projects);
    Guidance(
      Gaps(role),
      Take(Shuffled(DevelopmentPlans, plans), Kept),
      Take(Shuffled(Certifications, certs), Kept),
      Take(Shuffled(ProjectIdeas, projects), Kept),
      EstimatedTime, ReadinessIndicator)
  }

  /** One pool of `generate_mock_guidance`: the list literal built afresh, shuffled in
      place, and its first three items. */
  method ShuffleAndKeep(pool: seq<string>, draws: seq<nat>) returns (kept: seq<string>)
    requires ValidDraws(|pool|, draws)
    ensures kept == Take(Shuffled(pool, draws), Kept)
  {
    var list := new string[|pool|](i requires 0 <= i < |pool| => pool[i]);
    assert list[..] == pool;
    Shuffle(list, draws);
    kept := Take(list[..], Kept);
  }

  /** `generate_mock_guidance`: shuffles the three pools in place and keeps the first
      three items of each. */
  method GenerateMockGuidance(role: string, plans: seq<nat>, certs: seq<nat>, projects: seq<nat>)
    returns (g: Guidance)
    requires ValidDraws(5, plans) && ValidDraws(5, certs) && ValidDraws(5, projects)
    ensures g == MockGuidanceOf(role, plans, certs, projects)
  {
    PoolFacts();
    var planKept := ShuffleAndKeep(DevelopmentPlans, plans);
    var certKept := ShuffleAndKeep(Certifications, certs);
    var ideaKept := ShuffleAndKeep(ProjectIdeas, projects);
    g := Guidance(Gaps(role), planKept, certKept, ideaKept, EstimatedTime, ReadinessIndicator);
  }

  /** `get_career_guidance(current_role, experience_years, skills, interests)`: the
      service is asked only when a role or skills are given; its reply is returned
      when it answers, the mock guidance when both are empty, the service is
      unavailable or the call raises. */
  function GetCareerGuidance(role: string, skills: string, ai: AiCall,
                             plans: seq<nat>, certs: seq<nat>, projects: seq<nat>): (r: CareerAdvice)
    requires ValidDraws(5, plans) && ValidDraws(5, certs) && ValidDraws(5, projects)
    ensures role == "" && skills == "" ==> r == MockGuidance(MockGuidanceOf(role, plans, certs, projects))
    ensures (role != "" || skills != "") && ai.Replied? ==> r == AiGuidance(ai.payload)
    ensures !ai.Replied? ==> r == MockGuidance(MockGuidanceOf(role, plans, certs, projects))
  {
    if (role != "" || skills != "") && ai.Replied? then AiGuidance(ai.payload)
    else MockGuidance(MockGuidanceOf(role, plans, certs, projects))
  }
}
