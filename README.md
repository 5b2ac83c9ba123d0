# Intelligent career advisor: the deterministic core

The advisor is a small web application. It turns an uploaded resume into a structured record. It also offers interview practice questions, a chat with an interview coach, career guidance, and job listings. When a remote generative-model service is configured, each feature can ask it. Structuring raw text and the chat always ask it; structuring an upload asks it only once text has been extracted. The interview questions and the job listings ask it only when a role or a position is given, and the career guidance asks only when a role or skills are given. When the service is not asked, is missing, raises, or replies with something that does not parse, the feature falls back to a local, rule-based or template-based path. This project models those local paths and the fallback policy around them:

- **Resume structuring** (`ResumeParser`, in `resume_parser.dfy`):
  - text extraction from the stored upload: existence and size checks, a plain-text read, then the first PDF library, then the second;
  - the rule-based field extractor and its "Not found" / "Not specified" sentinels;
  - the 34-skill vocabulary scan, cut to ten;
  - the two-pattern education and experience collectors;
  - the capped additive score;
  - the orchestration that only surfaces an extraction failure as an error.
- **Interview coach chat** (`InterviewChat`):
  - the priority-ordered keyword classification of the lowercased message;
  - the category's response templates with the role filled in.
- **Interview questions** (`InterviewQuestions`): the role's question bank, or the default bank; the first four of each kind, with fixed tips and a drawn difficulty.
- **Career guidance** (`CareerGuidance`):
  - the role's skill gaps;
  - three suggestion pools shuffled in place by the algorithm of CPython's `random.shuffle`, keeping three items of each.
- **Job listings** (`JobMatcher`): six to eight mock listings that echo the requested position and location or draw them from fixed pools.
- **Shared pieces** (`Common`): ASCII lowercasing, Python's whitespace test behind `strip()`, substring search, `{role}` template formatting, and sequence lemmas about filtering, ordering and distinctness.

External effects become explicit inputs:

- **Regular expressions** are an abstract `Engine`. It lists the matches `re.finditer` gives, left to right; `re.search` is its first match.
- **The PDF libraries and the file system** are a `StoredFile` value of observed outcomes.
- **The remote service** is an `AiCall`: `Unavailable`, `Raised`, or `Replied(payload)`. A reply that fails to parse counts as `Raised`.
- **Every random draw** (`random.choice`, `random.randint`, the swap positions of `random.shuffle`) is a parameter. A `requires` clause states the draw's range.
- **The current time** is a formatted-timestamp parameter, or a function from "days ago" to a date string.

## Model

| member | source | states |
|---|---|---|
| ResumeParser.VocabularyFacts | resume_parser.py:242-248 | the skill vocabulary has 34 entries and none repeats |
| ResumeParser.Scan | resume_parser.py:250-255 | at most `limit` entries come back, each one a vocabulary entry that satisfies the test |
| ResumeParser.Skills | resume_parser.py:239-255 | at most ten skills come back, each one a vocabulary entry whose word-boundary search succeeds on the text |
| ResumeParser.ExtractSkills | resume_parser.py:250-255 | the loop that appends each found skill, followed by the cut to ten, computes exactly the vocabulary-order selection |
| ResumeParser.ScanInOrder | resume_parser.py:250-255 | over a vocabulary without repeats, the selection has no repeats and keeps vocabulary order; a qualifying entry is missing only if `limit` earlier entries were kept |
| ResumeParser.SkillsInVocabularyOrder | resume_parser.py:250-255 | skills come in vocabulary order, not text order, without duplicates; a mentioned skill is dropped only when ten skills earlier in the vocabulary were found |
| ResumeParser.ScanOfTwo | resume_parser.py:250-253 | when exactly two vocabulary entries qualify, the selection is those two, in vocabulary order |
| ResumeParser.SkillsOfPythonAndReact | resume_parser.py:250-255 | a text whose only vocabulary matches are Python and React yields exactly ["Python", "React"] |
| ResumeParser.EducationEntries | resume_parser.py:257-276 | the education list is never empty, and is the single all-"Not specified" entry exactly when neither degree pattern matches |
| ResumeParser.ExperienceEntries | resume_parser.py:278-298 | the experience list is never empty, and is the single "No experience found" entry exactly when neither job pattern matches |
| ResumeParser.CollectEntries | resume_parser.py:268-274 | the nested loops over patterns and their matches append one entry per match, pattern by pattern |
| ResumeParser.TwoPatternEntries | resume_parser.py:268-274 | the entries of the two patterns are all first-pattern entries, then all second-pattern entries |
| ResumeParser.EntriesOrShape | resume_parser.py:257-298 | the result is never empty: the sentinel alone when nothing matches, otherwise one entry per match in pattern order |
| ResumeParser.ExtractEducation | resume_parser.py:257-276 | the education loop plus its empty-list fallback computes the education entries |
| ResumeParser.EducationShape | resume_parser.py:257-276 | at least one entry; the all-"Not specified" entry exactly when no degree pattern matches; otherwise one entry per match, holding the whole match as its degree and the institution and years placeholders |
| ResumeParser.ExtractExperience | resume_parser.py:278-298 | the experience loop plus its empty-list fallback computes the experience entries |
| ResumeParser.ExperienceShape | resume_parser.py:278-298 | at least one entry; the "No experience found" entry exactly when no job pattern matches; otherwise one entry per match, holding its two groups and the duration and responsibilities placeholders |
| ResumeParser.ResumeScore | resume_parser.py:300-314 | the score always lies between 50 and 95 |
| ResumeParser.CalculateResumeScore | resume_parser.py:300-314 | the stepwise accumulation with the final cap equals the capped formula, so it is between 50 and 95 |
| ResumeParser.ScoreMonotone | resume_parser.py:300-314 | adding skills, degrees or positions never lowers the score |
| ResumeParser.ScoreExample | resume_parser.py:300-314 | 3 skills, 1 degree and 0 positions score 61; 10 skills, 2 degrees and 3 positions hit the cap of 95 |
| ResumeParser.BasicParse | resume_parser.py:200-237 | every field is populated: name, email and phone come from the first match or are "Not found"; the summary is the fixed placeholder; there are at most ten skills, and at least one entry each of education and experience; the score is the capped formula and so lies between 65 and 95 |
| ResumeParser.ExtractedText | resume_parser.py:34-112 | a missing or empty file gives None; a non-empty plain-text read is returned as is; any text returned is non-empty; PDF text is never blank; when the first library yields pages, the result is what those pages give; when the first library raises, the result is what the second library's pages give, or None when it raises too |
| ResumeParser.SecondLibraryOnlyAfterFailure | resume_parser.py:64-108 | once the first PDF library produces pages, the second library's outcome cannot change the result |
| ResumeParser.BlankFirstLibraryIsFinal | resume_parser.py:79-81 | blank text from the first PDF library ends extraction with None, without trying the second library |
| ResumeParser.PdfText | resume_parser.py:69-83 | one library's outcome is None exactly when its joined page text is blank, and otherwise that joined, non-empty text |
| ResumeParser.JoinPages | resume_parser.py:69-77 | the page loop concatenates the pages' texts in page order |
| ResumeParser.PdfAttempt | resume_parser.py:69-83 | one library attempt returns the joined text, or None when it is blank |
| ResumeParser.ExtractTextFromPdf | resume_parser.py:34-112 | the step-by-step procedure with its early returns yields the extraction outcome |
| ResumeParser.ParseResumeText | resume_parser.py:182-198 | never an error: the service's reply with a timestamp when there is one, otherwise the rule-based record |
| ResumeParser.ParseResumeFile | resume_parser.py:150-180 | a save failure and an extraction failure are the only errors, each with its message; otherwise the same policy as for raw text, applied to the extracted text |
| ResumeParser.ExtractionFailureIsFinal | resume_parser.py:158-161 | after an extraction failure, neither the service nor the rule-based parser influences the result |
| InterviewChat.Classify | interview_prep2.py:84-95 | the category is the first one, in test order, with a keyword inside the lowercased message; "other" means no list has a keyword in it (both directions) |
| InterviewChat.LowerIdempotent | interview_prep2.py:84 | lowercasing twice is lowercasing once |
| InterviewChat.ClassifyIgnoresCase | interview_prep2.py:84-95 | messages that differ only in letter case get the same category |
| InterviewChat.ClassifyLowercase | interview_prep2.py:84-95 | a message and its lowercase form get the same category |
| InterviewChat.ThisIsAGreeting | interview_prep2.py:86-87 | keywords match as substrings: any message containing "this", which contains "hi", is a greeting |
| InterviewChat.HelpBeforeTechnical | interview_prep2.py:86-91 | a message with "how" and "code" and no greeting word is a help request, not a technical one |
| InterviewChat.Pool | interview_prep2.py:96-107 | the default list for an unmatched message; every keyword category is a key of the response dictionary, so the fallback to the help templates is never used; three templates per keyword category, four default ones |
| InterviewChat.GenerateMockResponse | interview_prep2.py:51-108 | the reply is one of the chosen category's templates with the role in its field, so it contains the role |
| InterviewChat.UnmatchedUsesDefault | interview_prep2.py:96-104 | a message without any keyword is answered with a filled default template |
| InterviewChat.ChatWithInterviewBot | interview_prep2.py:18-49 | the service's reply text when it answers; otherwise the mock reply, which contains the role |
| Common.Lower | interview_prep2.py:84 | the lowercased message has the same length, differs from the message only in letter case, and holds no upper-case letter |
| Common.Template.Fill | interview_prep2.py:104-108 | the filled template keeps both literal parts around the role and contains the role |
| Common.FormatRole | interview_prep2.py:104-108 | on text whose only braces are `{role}` fields (all the templates the source formats, interview_prep2.py:57-79, 99-102), `str.format(role=...)` replaces each field with the role; in the model, text without an opening brace is returned unchanged |
| Common.FormatTemplate | interview_prep2.py:104-108 | `str.format(role=...)` applied to a template with one field and no other braces is filling that field |
| InterviewQuestions.BankFor | interview_prep.py:126-142 | the three known roles get their own bank; every other role, the empty role included, gets the default bank |
| InterviewQuestions.BankSizes | interview_prep.py:75-142 | every bank holds five technical and five behavioral questions |
| InterviewQuestions.Category | interview_prep.py:146-155 | one question per kept pool entry, in pool order, at most four, each with the category's tips and a difficulty of Easy, Medium or Hard |
| InterviewQuestions.GenerateMockQuestions | interview_prep.py:71-172 | exactly two categories, Technical then Behavioral, with four questions each: the bank's first four in bank order, each with the category's tips and a valid difficulty |
| InterviewQuestions.UnknownRoleUsesDefault | interview_prep.py:126-142 | a role outside the three known ones gets the default bank's questions |
| InterviewQuestions.GetInterviewQuestions | interview_prep.py:18-69 | the service is asked only for a non-empty role; its reply is returned when it answers, the mock questions otherwise |
| CareerGuidance.Gaps | career_guidance.py:62-107 | three gaps: the role's own for the five known roles, the default ones for any other role |
| CareerGuidance.PoolFacts | career_guidance.py:72-96 | each suggestion pool has five different entries |
| CareerGuidance.SwapPermutes | career_guidance.py:102-104 | swapping two positions keeps every item, as often as it occurred |
| CareerGuidance.ShuffleStep | career_guidance.py:102-104 | one swap step of the shuffle keeps the multiset of items |
| CareerGuidance.ShufflePermutes | career_guidance.py:102-104 | shuffling only rearranges: the multiset of items is unchanged |
| CareerGuidance.ShuffleSteps | career_guidance.py:102-104 | the list after the first swaps of CPython's downward Fisher–Yates shuffle keeps its length |
| CareerGuidance.Shuffled | career_guidance.py:102-104 | the list `random.shuffle` leaves behind is a rearrangement of the original: same length, every item as often as before |
| CareerGuidance.Shuffle | career_guidance.py:102-104 | the in-place Fisher–Yates loop leaves the array holding the shuffled list its draws determine |
| CareerGuidance.ShuffledPrefix | career_guidance.py:102-110 | the first three items of a shuffled pool of five distinct items are three different items of that pool |
| CareerGuidance.MockGuidanceOf | career_guidance.py:59-113 | the mock guidance's gaps are the role's own gaps (`Gaps`), three of them; each suggestion list holds three different entries of its own pool; the timeline and readiness texts are fixed |
| CareerGuidance.ShuffleAndKeep | career_guidance.py:72-110 | a pool list built afresh, shuffled in place and cut to three gives the first three items of the shuffled pool |
| CareerGuidance.GenerateMockGuidance | career_guidance.py:59-113 | copying, shuffling in place and cutting to three produces the mock guidance those draws determine |
| CareerGuidance.GetCareerGuidance | career_guidance.py:18-57 | the service is asked only when a role or skills are given; its reply is returned when it answers, the mock guidance otherwise |
| JobMatcher.JobOf | job_matcher.py:93-109 | a listing echoes a non-empty position or location and otherwise draws it from its pool; company and description come from their pools, the url is "#", and the posting date is 1 to 30 days back |
| JobMatcher.JobsOf | job_matcher.py:92-109 | one listing per iteration, in iteration order; every listing echoes a given position and location or draws them from the pools, takes company and description from their pools, links to "#" and was posted 1 to 30 days back |
| JobMatcher.GenerateMockJobs | job_matcher.py:62-111 | the listing loop builds exactly the listings its draws determine, six to eight of them |
| JobMatcher.FindJobMatches | job_matcher.py:19-60 | the service is asked only for a non-empty position; its reply is returned when it answers, the mock listings otherwise |

## Left out

- Prompt texts (`get_resume_prompt` and the prompts in `chat_with_ai`, `get_questions_with_ai`, `get_guidance_with_ai` and `find_jobs_with_ai`): the remote service is opaque, so the model keeps only whether it answered. Its reply is kept as an uninterpreted payload. The JSON decoding of that payload is part of the `Replied`/`Raised` outcome.
- Regular-expression semantics (character classes, `\b`, `re.IGNORECASE`, lazy `.*?`): the patterns are named, not interpreted. What each one matches is an input.
- The PDF libraries and UTF-8 decoding: these are observed outcomes in `StoredFile`. A library that raised on any page counts as having failed as a whole.
- Saving the upload to `uploads/temp_resume.pdf` and creating the directory: this is a `SaveOutcome` input. Concurrent overwrites of the shared temporary path are not modelled.
- Debug and warning printing, `datetime.now()` and the date formatting: the printing has no effect on results. The time is an input string, or a function from days back to a date string.
- The action order of the random draws: each listing's or question's draws are grouped per item, and the interleaving of calls on Python's generator is not modelled.
- `Common.Lower`: `str.lower` is modelled on ASCII letters only. Non-ASCII case mappings (Unicode special casing) are not modelled.
- Common.FormatRole: models `str.format(role=...)` only on text whose braces all belong to `{role}` fields, which is all the source formats. It does not model the `{{` and `}}` escapes, the ValueError Python raises on a lone `}`, the KeyError on any other field name, or conversions and format specs; the model copies such characters through unchanged.
- InterviewChat templates: each response literal is stored as the text before and after its `{role}` field. `Common.FormatTemplate` proves that formatting such a template is filling it, provided its literal parts have no braces. That brace-freeness is visible in the constants but not checked mechanically.
- The `except` branches no input can reach: the "Error in basic parsing" branch of `parse_resume_basic`, the outer `except` of `extract_text_from_pdf`, the outer `except` of `parse_resume_text`, and the outer `except` of the four feature dispatchers. These would need an exception inside code that cannot raise on the modelled inputs. The dispatchers' handlers all fall back to the mock result, which the model already returns for `Raised`.
- Parameters the mock paths ignore: `experience_level`; `experience_years`, `skills` and `interests` in the guidance mock; `skills` in the job mock. They appear only where the source uses them, in the choice of whether to ask the service.
- Default argument values (`job_role="Software Engineer"` of `chat_with_interview_bot`, and the empty-string defaults of the other dispatchers): every model operation takes its arguments explicitly.
- The web front end (`app.py`) and the API-key configuration (`config.py`): the availability of the service is the `AiCall` outcome.
- Two details of the code that the model keeps as written:
  - blank text from the first PDF library returns None (resume_parser.py:79-81); the second library is tried only when the first raises;
  - skills are found by a word-boundary regular-expression search (resume_parser.py:252), which the model keeps abstract.
