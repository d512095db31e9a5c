# EarlySignal.AI decision rules in Dafny

EarlySignal.AI flags students at risk of dropping out. A FastAPI backend
scores students with fixed rules and a machine-learning probability. A
Next.js frontend lists, filters and summarises them. This project models
the logic of both sides in Dafny and proves what each rule promises:

- `util.dfy` (module `Util`): shared building blocks.
  - `Option` and `Result`.
  - Order-preserving `Filter` and `Map`, with lemmas about them.
  - The JavaScript string operations the frontend relies on: `toLowerCase` on ASCII letters, `replace` of the first occurrence, `startsWith`/`endsWith`, integer `toString` and base-ten `parseInt`.
- `ml_predict.dfy` (module `MlPredict`), covering `backend/app/ml/predict.py`:
  - feature-vector preparation;
  - the three-band risk level;
  - the ordered risk-factor list;
  - confidence banding;
  - the rule-based fallback score;
  - assembly of the prediction result.
- `predict_router.dfy` (module `PredictRouter`), covering `backend/app/routers/predict.py`:
  - the recommendation list built from threshold tests;
  - the single-request endpoint;
  - the batch endpoint.
- `risk_engine.dfy` (module `RiskEngine`): `calculate_risk`, the additive rule score.
- `risk_router.dfy` (module `RiskRouter`): POST /analyze-risk.
  - The High/Medium/Low decision.
  - The per-student update of the `risk` field. The student collection is an in-memory table (`class StudentsCollection`) keyed by student_id.
- `api.dfy` (module `Api`), covering `frontend/services/api.ts`:
  - query construction;
  - normalisation of backend documents;
  - the mock-data fallback;
  - student details with their fallback and rethrow;
  - dashboard statistics.
- `students_page.dfy` (module `StudentsPage`): the students page's filter selections, the filter effect and the change and reset handlers.
- `sidebar.dfy` (module `Sidebar`): the active-entry rules of the sidebar and the closing of the mobile sheet.
- `upload_page.dfy` (module `UploadPage`): the upload page's file-acceptance rule and its handlers, as a class over the page's state.

Inputs from outside the modelled code are parameters:

- the machine-learning probability;
- the outcome of each HTTP request (the parsed body, or the error it raised);
- the bundled mock students. `frontend/lib/mock-data` is not part of this model.

Where the code and the general description of the system disagree, the model follows the code:

- Normalisation reads only the nested `risk.level` and `risk.ml_probability`. Flat `risk_level` and `dropout_probability` fields are never read.
- A falsy probability defaults to 0.1, not 0.0.
- The email is the lower-cased name with only its first space turned into a dot. It is not the name with all spaces removed.
- `getStudentDetail` rethrows when no mock student matches.
- The backend's GET /students ignores the query string, so the filters only act on the mock fallback.
- The backend's upload reply holds only a `message`. The upload page's success text therefore reports "Processed undefined students".
- The risk analysis writes capitalised levels ("High", "Medium", "Low"). The dashboard statistics count only lowercase "high", "medium" and "low", so over analysed backend data all three counts are 0.

## Model

| member | source | states |
|---|---|---|
| Util.LowerString | frontend/services/api.ts:68 | same length; each ASCII capital becomes its lower-case letter, every other character is kept, and no ASCII capital remains |
| Util.ReplaceFirst | frontend/services/api.ts:68 | `replace` with a one-character pattern keeps the length and changes only the first occurrence: the text before it has no occurrence, the text after it is untouched, and an absent pattern leaves the string unchanged |
| Util.IntToStringRoundTrip | frontend/services/api.ts:57 | base-ten `parseInt` reads back every integer that `toString` writes, so a semester sent as a query parameter parses back to itself |
| Util.ParseInt | frontend/app/students/page.tsx:74 | `parseInt` gives a number only for text that contains a decimal digit, and a negative number only for text that contains a minus sign |
| MlPredict.PrepareFeatures | backend/app/ml/predict.py:5-18 | one value per feature name, in the given order; a present numeric value is kept, and a missing, None or "" value becomes 0 |
| MlPredict.CalculateRiskLevel | backend/app/ml/predict.py:71-84 | high iff probability > 0.7, attendance < 60 or backlogs >= 3; medium iff not high and (probability > 0.4, attendance < 75 or backlogs >= 1); low otherwise; missing keys read as attendance 100 and backlogs 0 |
| MlPredict.RiskLevelMonotone | backend/app/ml/predict.py:71-84 | raising the probability or the backlogs, or lowering the attendance, never lowers the band |
| MlPredict.IdentifyRiskFactors | backend/app/ml/predict.py:86-107 | the factor list built by the five appends equals the specification `RiskFactors`: the checks that fire, or the single sentinel |
| MlPredict.FiredEntries | backend/app/ml/predict.py:96-105 | a factor is in the list exactly when it is one of the five candidate checks and its test fires; at most 5 entries |
| MlPredict.FiredInCheckOrder | backend/app/ml/predict.py:96-105 | the fired factors appear in check order: attendance, marks, backlogs, study hours, failures |
| MlPredict.RiskFactorsShape | backend/app/ml/predict.py:96-107 | the result has 1 to 5 entries; it is exactly the sentinel "No significant risk factors identified" iff no test fires, and otherwise the fired factors |
| MlPredict.PredictionConfidence | backend/app/ml/predict.py:109-116 | low on [0.4, 0.6], medium on [0.2, 0.4) and (0.6, 0.8], high below 0.2 or above 0.8 |
| MlPredict.ConfidenceSymmetric | backend/app/ml/predict.py:109-116 | p and 1 - p always get the same confidence label |
| MlPredict.FallbackScore | backend/app/ml/predict.py:118-151 | the score lies in [0, 0.9], so the 0.95 cap never binds; it is 0 iff attendance >= 75, marks >= 60 and backlogs <= 0 |
| MlPredict.EstimateRiskFallback | backend/app/ml/predict.py:118-151 | the step-by-step accumulation, including the unused `factors` counter and the cap, computes `FallbackScore` |
| MlPredict.StudentData | backend/app/ml/predict.py:51-57 | the record passed to the helpers has exactly the five feature keys |
| MlPredict.PredictDropout | backend/app/ml/predict.py:48-69 | the probability is passed through; prediction is 1 iff probability > 0.5; level, factors and confidence are the helpers' results on the same record; the level is high iff probability > 0.7, attendance < 60 or backlogs >= 3 |
| PredictRouter.GenerateRecommendations | backend/app/routers/predict.py:97-171 | the list grown by `+=` and `append` equals the group-by-group specification `Recommendations` and is never empty |
| PredictRouter.RecommendationsShape | backend/app/routers/predict.py:109-171 | between 2 and 12 items; the last two are the risk-level pair; the "no specific interventions" fallback never appears |
| PredictRouter.RecommendationsInGroupOrder | backend/app/routers/predict.py:108-169 | items come group by group in the order attendance, marks, backlogs, study hours, failures, risk level |
| PredictRouter.LevelTail | backend/app/routers/predict.py:154-171 | whatever the record, the returned list ends with the level's pair: mentor and weekly monitoring for "high", monthly monitoring and support programs for "medium", and the low-risk pair for every other string |
| PredictRouter.AttendanceBands | backend/app/routers/predict.py:108-118 | attendance < 60 adds the two critical items, 60 <= attendance < 75 adds the two warning items, and 75 or more adds neither; the bands exclude each other |
| PredictRouter.TierSizes | backend/app/routers/predict.py:120-145 | examples of the band sizes: marks (< 40 / < 60), backlogs (>= 3 / > 0) and study hours (< 2 / < 4) each add 2, 1 or 0 items |
| PredictRouter.MissingStudyHours | backend/app/routers/predict.py:102-145 | without a study_hours key the hours default to 0 and both time-management items are recommended |
| PredictRouter.PredictStudentDropout | backend/app/routers/predict.py:47-65 | the response is the prediction for the request plus the recommendations for the prediction's level |
| PredictRouter.PredictBatch | backend/app/routers/predict.py:71-91 | total is the number of requests, and the predictions are the single-request responses mapped over the requests in order |
| PredictRouter.BatchElementwise | backend/app/routers/predict.py:77-91 | the i-th batch prediction is the single-request response to the i-th request |
| RiskEngine.RuleScore | backend/app/services/risk_engine.py:1-13 | the score (attendance bit + absences bit + repeated subjects) never exceeds 2 + the number of subjects |
| RiskEngine.CalculateRisk | backend/app/services/risk_engine.py:1-13 | the accumulated score is [attendance < 75] + [consecutive_absences >= 5] + the number of subjects with attempts_used >= 2, and lies in [0, 2 + subjects] |
| RiskEngine.AppendSubject | backend/app/services/risk_engine.py:9-11 | appending a subject adds exactly 1 when attempts_used >= 2, adds 0 otherwise, and never lowers the score |
| RiskEngine.OrderIndependent | backend/app/services/risk_engine.py:9-11 | any reordering of the subjects gives the same score |
| RiskEngine.AllRepeated | backend/app/services/risk_engine.py:9-11 | when every subject was attempted at least twice, the score is at least the number of subjects |
| RiskRouter.DecideLevel | backend/app/routers/risk.py:19-23 | High iff score >= 3 or probability > 0.7; Medium iff score == 2 and probability <= 0.7; Low iff score < 2 and probability <= 0.7; always one of the three capitalised labels |
| RiskRouter.ScoreOneIsLow | backend/app/routers/risk.py:19-23 | corollary of `DecideLevel`, as an example: scores 0 and 1 give Low when the probability is at most 0.7; a score of 1 is not Medium |
| RiskRouter.ProbabilityOverrides | backend/app/routers/risk.py:20 | corollary of `DecideLevel`, as an example: a probability above 0.7 gives High whatever the score |
| RiskRouter.Analyzed | backend/app/routers/risk.py:12-34 | the analysed document keeps its student record and gains a risk whose rule score is that student's score and whose level is a capitalised label |
| RiskRouter.AnalyzeTwice | backend/app/routers/risk.py:12-34 | the written risk does not depend on an earlier one, so analysing twice with the same model equals analysing once |
| RiskRouter.StudentsCollection.Analyze | backend/app/routers/risk.py:9-36 | the set of student_ids is unchanged; every document's risk becomes {rule score, probability, level} computed from its own record; student records are unchanged; the table stays keyed by student_id; the reply is "Risk analysis completed" |
| Api.BuildQuery | frontend/services/api.ts:55-58 | the parameters appended step by step equal the specification `QueryParams` |
| Api.QueryParamsSpec | frontend/services/api.ts:55-58 | a parameter is present iff its filter is truthy (semester 0 and "" count as absent) and carries the filter's value; keys keep the order department, semester, risk_level; the semester parameter parses back to the semester |
| Api.Email | frontend/services/api.ts:68 | the address is as long as the name plus the domain and ends in "@university.edu" |
| Api.EmailFirstSpaceOnly | frontend/services/api.ts:68 | only the first space becomes a dot and later spaces stay: "A B C" gives "a.b c@university.edu" |
| Api.EmailNoSpace | frontend/services/api.ts:68 | a name without spaces is only lower-cased |
| Api.Normalize | frontend/services/api.ts:65-76 | fails with a TypeError iff the name is missing; otherwise id and student_id are both the backend student_id, and semester, gpa, level and probability take 1, 3.0, "low" and 0.1 when falsy, with the level's case kept |
| Api.DefaultsOverrideFalsy | frontend/services/api.ts:71-75 | a stored probability of 0 becomes 0.1; a document without risk reads as "low" with 0.1; semester 0 becomes 1 |
| Api.NormalizeAll | frontend/services/api.ts:65-76 | succeeds iff every document has a name; the result has the input's length, and the i-th record is the normalisation of the i-th document |
| Api.BackendListPreserved | frontend/services/api.ts:63-76 | over a successful response getStudents returns one record per document, in order, with id and student_id from the backend |
| Api.GetStudents | frontend/services/api.ts:50-87 | when the request succeeds and every document has a name, one record per document; after a failed request, exactly the mock students that match every truthy filter |
| Api.NamelessFallsBack | frontend/services/api.ts:60-85 | one nameless document sends the whole result to the mock fallback |
| Api.MockFallback | frontend/services/api.ts:80-85 | the fallback is an order-preserving subsequence of the mock students, holding exactly those that match every supplied filter, and all of them when there are no filters |
| Api.DetailFactors | frontend/services/api.ts:122-126 | 3 factors for "high", 2 for "medium", 1 otherwise |
| Api.DetailRecommendations | frontend/services/api.ts:127-129 | 3 recommendations for "high", 2 otherwise |
| Api.FindById | frontend/services/api.ts:134 | returns nothing iff no mock student has the id, and otherwise the first one with that id |
| Api.DetailFallback | frontend/services/api.ts:131-163 | the detail fails iff the request raised an error and no mock student has the id; it then fails with that same error; a fallback detail is the matching mock student's |
| Api.GetStudentDetail | frontend/services/api.ts:90-164 | without an error the detail is the backend document, with its student_id; every detail, backend or fallback, carries the canned attendance and score trends |
| Api.DetailListsFollowRawLevel | frontend/services/api.ts:97-130 | over backend data the factor and recommendation lists follow the raw stored level, not the defaulted one |
| Api.Divide | frontend/services/api.ts:228 | the mean is NaN exactly when the list is empty |
| Api.BackendStats | frontend/services/api.ts:224-235 | the total is the number of documents, each level count is at most the total, and the mean is NaN iff there are no documents |
| Api.MockStats | frontend/services/api.ts:240-251 | the total is the number of mock students, each level count is at most the total, and the mean is NaN iff there are none |
| Api.GetDashboardStats | frontend/services/api.ts:217-253 | the total is the backend list's length after a successful request and the mock list's after a failed one; no level count exceeds it; the mean is NaN iff the total is 0 |
| Api.BackendCounts | frontend/services/api.ts:224-227 | high + medium + low never exceeds the total, and equals it iff every document's level is exactly "high", "medium" or "low" |
| Api.AnalysedLevelsNotCounted | frontend/services/api.ts:225-227 | when every level was written by the risk analysis (capitalised), all three counts are 0 and their sum is below a non-zero total |
| Api.MockCountsComplete | frontend/services/api.ts:240-246 | mock students with lowercase levels are each counted once, so the counts add up to the total |
| Api.BackendMean | frontend/services/api.ts:228 | the mean is NaN iff the list is empty, and lies in [0, 1] when every stored probability does |
| Api.SumBounds | frontend/services/api.ts:228 | the sum of (ml_probability \|\| 0) lies between 0 and the length when every stored probability is in [0, 1] |
| StudentsPage.QueryOr | frontend/app/students/page.tsx:44-48 | a present non-empty query value is taken, otherwise the sentinel |
| StudentsPage.InitialSelection | frontend/app/students/page.tsx:44-48 | each of the three initial selections is its query value or its "All ..." sentinel |
| StudentsPage.Visible | frontend/app/students/page.tsx:66-82 | the shown list is an order-preserving subsequence of the students and holds exactly the students that match all three selections |
| StudentsPage.ApplyFilters | frontend/app/students/page.tsx:66-82 | the three successive narrowings, each skipped at its sentinel, give exactly `Visible` |
| StudentsPage.HandleFilterChange | frontend/app/students/page.tsx:84-89 | exactly the named key takes the new value, and the other two are unchanged |
| StudentsPage.HandleReset | frontend/app/students/page.tsx:91-97 | all three selections return to their sentinels |
| StudentsPage.ResetShowsAll | frontend/app/students/page.tsx:91-97 | after a reset every loaded student is shown, in order |
| StudentsPage.SentinelLiftsConstraint | frontend/app/students/page.tsx:69-71 | selecting "All Departments" leaves only the semester and risk-level constraints |
| StudentsPage.UnparsableSemesterHidesAll | frontend/app/students/page.tsx:73-75 | a semester selection that parseInt cannot read (NaN) hides every student |
| StudentsPage.SemesterSelection | frontend/app/students/page.tsx:73-75 | a numeric semester selection matches exactly the students in that semester |
| Sidebar.IsActiveMain | frontend/components/Sidebar.tsx:58-59 | an active main entry's href is always a prefix of the path, and the "/" entry is active iff the path is exactly "/" |
| Sidebar.IsActiveSecondary | frontend/components/Sidebar.tsx:83 | a secondary entry is active only where the main rule would also make it active |
| Sidebar.ActiveMain | frontend/components/Sidebar.tsx:57-59 | the highlighted entries are exactly the menu entries whose test holds, in menu order |
| Sidebar.PrefixActivates | frontend/components/Sidebar.tsx:58-59 | examples: "/students/42" and also "/studentsX" activate "/students", because the prefix test is textual |
| Sidebar.HrefsIndependent | frontend/components/Sidebar.tsx:24-30 | no main href other than "/" is a prefix of another |
| Sidebar.AtMostOneActive | frontend/components/Sidebar.tsx:24-59 | for any path no two main entries are active together, so at most one is highlighted |
| Sidebar.SecondaryExactOnly | frontend/components/Sidebar.tsx:58-83 | no secondary entry is active on a path strictly below its href, where a main entry with the same non-root href would be |
| Sidebar.OnOpenChange | frontend/components/Sidebar.tsx:147 | the sheet takes the requested open state |
| Sidebar.OnNavigate | frontend/components/Sidebar.tsx:154 | following an entry from the sheet closes it |
| UploadPage.Acceptable | frontend/app/upload/page.tsx:48 | a name ending in .xlsx is accepted whatever its type; for every other name, including one ending in .csv, acceptance is exactly a text/csv type |
| UploadPage.SuccessText | frontend/app/upload/page.tsx:88-91 | the text starts with "Successfully uploaded! Processed N students" and ends with ", analyzed M" exactly when rows_analyzed is truthy |
| UploadPage.BackendReplyText | frontend/app/upload/page.tsx:90 | the backend's reply, which has no row counts, renders as "Processed undefined students" |
| UploadPage.UploadPage.constructor | frontend/app/upload/page.tsx:24-29 | the page starts with no highlight, no file, no message, no result and not loading |
| UploadPage.UploadPage.HandleDrag | frontend/app/upload/page.tsx:31-39 | dragenter/dragover set the highlight, dragleave clears it, any other event leaves it; nothing else changes |
| UploadPage.UploadPage.Choose | frontend/app/upload/page.tsx:46-57 | no file changes nothing; an acceptable first file is taken and the message cleared; an unacceptable one keeps the current file and shows the CSV/Excel error; highlight, loading and result are untouched |
| UploadPage.UploadPage.HandleDrop | frontend/app/upload/page.tsx:41-58 | the highlight is always cleared; an acceptable first file is taken and the message cleared; an unacceptable one shows the CSV/Excel error and keeps the current file; no file changes nothing |
| UploadPage.UploadPage.HandleFileChange | frontend/app/upload/page.tsx:60-73 | the same acceptance rule for the picked file, with the highlight untouched |
| UploadPage.UploadPage.HandleUpload | frontend/app/upload/page.tsx:75-105 | with no file, the "select a file first" error is shown and nothing is sent; otherwise the file is sent; success stores the reply, shows its success text and clears the file; failure shows the failure text and keeps the file; loading is false after a send |

## Left out

- The machine-learning pipeline (`predict_dropout_probability`, model and scaler loading, `predict_proba`, and the sklearn model of `backend/app/services/ml_model.py`) is left out. The probability is a parameter of the operations that use it.
- Floating point is left out. `round(…, 4)`, `round(…, 2)`, `0.1 * backlogs` and `toFixed` are exact `real` arithmetic here.
- The text of the risk factors is left out. Each factor is a datatype value that carries its number; Python's f-string number formatting is not modelled.
- Features that are non-empty, non-numeric strings are left out, because what `float()` does with them (parse or raise) is not modelled. `np.array` wrapping is also left out, and the feature order is a parameter.
- The pydantic field bounds of `PredictionRequest` are written as a predicate but not enforced. The endpoints' `HTTPException` wrapping is left out. Through the endpoints every key is present, because the request fills in every field (study_hours defaults to 4, backend/app/routers/predict.py:21); the defaults of `generate_recommendations` only apply to a direct call with a partial record, which is what PredictRouter.MissingStudyHours describes.
- MongoDB is left out: cursors, network writes and the order of `find()`. The table is keyed by student_id, so duplicate student_ids cannot be represented.
- RiskRouter.StudentsCollection.Analyze: every document is a typed student, so the contract covers only well-formed tables. A document missing attendance, consecutive_absences or academics (for example a row uploaded from a CSV without those columns), or one whose academics is not a list, makes `calculate_risk` raise KeyError or TypeError (backend/app/services/risk_engine.py:4-9). The request then stops mid-loop with the earlier documents already updated. That error path is not modelled, and neither is RiskEngine.CalculateRisk on such documents.
- preprocessing, upload, alerts, email and configuration on the backend are left out, because they are I/O and foreign libraries.
- `fetch`, `response.ok`, JSON parsing and `console.error` are left out. Each request's outcome is an input.
- `uploadData`, `analyzeRisk` and `sendAlerts` are left out, because they only forward the request and rethrow.
- `analyzeAllStudents` and `handleAnalyzeAll` are left out, because the former is not defined in api.ts.
- JavaScript NaN from non-number fields is left out. So are `toLowerCase` on non-ASCII letters, and `parseInt` prefixes such as "0x".
- Util.ParseInt: skips only the six ASCII white-space characters; JavaScript also skips no-break space, the byte-order mark, the line and paragraph separators and the other Unicode space separators, which the model reads as non-digits.
- React rendering, effect scheduling and async interleaving are left out. Handlers are sequential transitions.
- Three parts of the students page are left out: the page's own `loadStudents` effect, its loading flag, and its catch branch, which `getStudents` never reaches. The page's student shape is the one `Api` produces.
- Resetting the DOM file input after an upload (`fileInputRef`) is left out.
- Icons, class names and all presentation-only components are left out.
- UploadPage.UploadPage.HandleUpload: on the no-file path the contract says `loading` is unchanged rather than false, because the handler returns before touching it.
