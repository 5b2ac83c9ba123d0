/** The mock job-listing generator: six to eight listings, each echoing the given
    position and location or drawing them from fixed pools; and the choice between
    it and the remote model service. */
module JobMatcher {
  import opened Common

  const JobTitles: seq<string> := [
    "Software Engineer", "Frontend Developer", "Backend Developer",
    "Full Stack Developer", "Data Scientist", "DevOps Engineer",
    "Product Manager", "UI/UX Designer", "QA Engineer", "System Administrator"]

  const Companies: seq<string> := [
    "TechCorp", "InnovateSoft", "Digital Solutions", "CloudTech", "DataFlow",
    "WebWorks", "AppStudio", "CodeCraft", "DevHub", "TechStart"]

  const Locations: seq<string> := [
    "San Francisco, CA", "New York, NY", "Austin, TX", "Seattle, WA",
    "Boston, MA", "Denver, CO", "Chicago, IL", "Remote", "Hybrid"]

  const Descriptions: seq<string> := [
    "Join our dynamic team to build innovative solutions using cutting-edge technologies.",
    "We're looking for a passionate developer to help us scale our platform.",
    "Opportunity to work on exciting projects with modern tech stack.",
    "Help us transform the industry with your technical expertise.",
    "Collaborate with talented engineers in a fast-paced environment."]

  const MinJobs := 6
  const MaxJobs := 8
  const MaxDaysAgo := 30

  /** One listing of `jobs`. */
  datatype Job = Job(title: string, company: string, location: string,
                     postedDate: string, description: string, url: string)

  /** What `find_job_matches` returns: the mock listings or the service's parsed
      reply, kept opaque. */
  datatype JobMatches = MockJobs(jobs: seq<Job>) | AiJobs(payload: string)

  /** The random draws of one loop iteration: indexes for `random.choice` over the
      title, company, location and description pools, and `random.randint(1, 30)`. */
  datatype JobDraw = JobDraw(title: nat, company: nat, location: nat, daysAgo: nat, description: nat)

  /** A draw is in range; the title and location draws matter, and are made, only
      when the corresponding argument is empty. */
  predicate ValidDraw(d: JobDraw, position: string, location: string) {
    && (position == "" ==> d.title < |JobTitles|)
    && d.company < |Companies|
    && (location == "" ==> d.location < |Locations|)
    && 1 <= d.daysAgo <= MaxDaysAgo
    && d.description < |Descriptions|
  }

  predicate ValidDraws(draws: seq<JobDraw>, position: string, location: string) {
    forall k | 0 <= k < |draws| :: ValidDraw(draws[k], position, location)
  }

  /** The listing one iteration appends; `postedDate` stands for formatting the date
      that many days before now. */
  function JobOf(position: string, location: string, d: JobDraw, postedDate: nat -> string): (j: Job)
    requires ValidDraw(d, position, location)
    ensures position != "" ==> j.title == position
    ensures position == "" ==> j.title in JobTitles
    ensures location != "" ==> j.location == location
    ensures location == "" ==> j.location in Locations
    ensures j.company in Companies && j.description in Descriptions && j.url == "#"
    ensures exists days | 1 <= days <= MaxDaysAgo :: j.postedDate == postedDate(days)
  {
    Job(
      if position != "" then position else JobTitles[d.title],
      Companies[d.company],
      if location != "" then location else Locations[d.location],
      postedDate(d.daysAgo),
      Descriptions[d.description],
      "#")
  }

  /** The listings of the whole loop, one per draw, in draw order: every listing
      echoes the position and the location when given and draws them from the pools
      otherwise, takes company and description from their pools, links to "#" and
      was posted 1 to 30 days back. */
  function JobsOf(position: string, location: string, draws: seq<JobDraw>, postedDate: nat -> string)
    : (jobs: seq<Job>)
    requires ValidDraws(draws, position, location)
    ensures |jobs| == |draws|
    ensures forall k | 0 <= k < |draws| :: jobs[k] == JobOf(position, location, draws[k], postedDate)
    ensures forall j | j in jobs :: if position != "" then j.title == position else j.title in JobTitles
    ensures forall j | j in jobs :: if location != "" then j.location == location else j.location in Locations
    ensures forall j | j in jobs :: j.company in Companies && j.description in Descriptions && j.url == "#"
    ensures forall j | j in jobs :: exists days | 1 <= days <= MaxDaysAgo :: j.postedDate == postedDate(days)
  {
    var jobs := seq(|draws|, k requires 0 <= k < |draws| => JobOf(position, location, draws[k], postedDate));
    assert forall j | j in jobs :: exists k | 0 <= k < |draws| :: j == JobOf(position, location, draws[k], postedDate);
    jobs
  }

  lemma JobsOfSnoc(position: string, location: string, draws: seq<JobDraw>, d: JobDraw,
                   postedDate: nat -> string)
    requires ValidDraws(draws + [d], position, location)
    ensures ValidDraws(draws, position, location) && ValidDraw(d, position, location)
    ensures JobsOf(position, location, draws + [d], postedDate)
         == JobsOf(position, location, draws, postedDate) + [JobOf(position, location, d, postedDate)]
  {
    assert forall k | 0 <= k < |draws| :: draws[k] == (draws + [d])[k];
    assert (draws + [d])[|draws|] == d;
  }

  /** `generate_mock_jobs(job_position, location, skills)` (skills are not used), with
      `count` the value `random.randint(6, 8)` gave and one draw per listing. */
  method GenerateMockJobs(position: string, location: string, count: nat,
                          draws: seq<JobDraw>, postedDate: nat -> string)
    returns (jobs: seq<Job>)
    requires MinJobs <= count <= MaxJobs && |draws| == count
    requires ValidDraws(draws, position, location)
    ensures jobs == JobsOf(position, location, draws, postedDate)
    ensures MinJobs <= |jobs| <= MaxJobs
  {
    jobs := [];
    for i := 0 to count
      invariant jobs == JobsOf(position, location, draws[..i], postedDate)
    {
      var d := draws[i];
      var title := if position != "" then position else JobTitles[d.title];
      var company := Companies[d.company];
      var jobLocation := if location != "" then location else Locations[d.location];
      var posted := postedDate(d.daysAgo);
      var job := Job(title, company, jobLocation, posted, Descriptions[d.description], "#");
      assert job == JobOf(position, location, d, postedDate);
      assert draws[..i + 1] == draws[..i] + [d];
      JobsOfSnoc(position, location, draws[..i], d, postedDate);
      jobs := jobs + [job];
    }
    assert draws[..count] == draws;
  }

  /** `find_job_matches(job_position, location, skills)`: the service is asked only for
      a non-empty position; its reply is returned when it answers, the mock listings
      when the position is empty, the service is unavailable or the call raises. */
  function FindJobMatches(position: string, location: string, ai: AiCall,
                          draws: seq<JobDraw>, postedDate: nat -> string): (r: JobMatches)
    requires MinJobs <= |draws| <= MaxJobs && ValidDraws(draws, position, location)
    ensures position == "" ==> r == MockJobs(JobsOf(position, location, draws, postedDate))
    ensures position != "" && ai.Replied? ==> r == AiJobs(ai.payload)
    ensures !ai.Replied? ==> r == MockJobs(JobsOf(position, location, draws, postedDate))
  {
    if position != "" && ai.Replied? then AiJobs(ai.payload)
    else MockJobs(JobsOf(position, location, draws, postedDate))
  }
}
