# LLMs-Tools, modelled in Dafny

LLMs-Tools is a set of small command-line and web tools built around a chat
model. Three of them (the CV analyzer, the AI tutor and the synthetic-data
creator) share one prompt-building base class; the web summarizer does not.
This project models the deterministic core of those three tools and proves properties about it:

- **Base prompt generator** (`base/base_class.py`). It holds a default system
  prompt, wraps a text into a user prompt, and builds the `[system, user]`
  message pair every tool sends. Modelled in `Base.dfy`.
- **CV / job-description analyzer** (`CV-Job-analyzer/cv_job_analyze.py`).
  This is an object with mutable fields: the job description, the CV text
  extracted page by page from an uploaded PDF, and the last analysis. Its
  Flask route stores what a POST carries and analyses once both inputs are
  present. Modelled as a class in `CvJobAnalyzer.dfy`.
- **AI tutor** (`Simple-AI-tutor/ai_tutor.py`). This is an object that
  remembers the last question and the last reply. Its `/chat` route stores a
  question and its `/stream` route asks the model about it. Modelled as a
  class in `AiTutor.dfy`.
- **Synthetic-data creator** (`Synthetic-data-creator/create_datasets.py`).
  It takes a parsed instruction (entities with columns and row counts) and
  generates one table per entity. Entities without a foreign key are
  generated first, then the ones with a foreign key. Each row is built in two
  passes. The first pass fills integer primary keys with the row index, other
  integer and float columns with random values, string columns named name,
  email or product with fake values, and foreign keys with a recorded key of
  the referenced entity; any other simple string column, and every complex
  column, gets None. The second pass asks the model for the complex columns,
  given the row so far as context. Modelled in `SyntheticSchema.dfy`,
  `SyntheticValues.dfy`, `SyntheticDataset.dfy` and `SyntheticPlanner.dfy`.

Supporting modules:

- `Wrappers.dfy`: `Option` and `Result`.
- `Dicts.dfy`: an insertion-ordered Python `dict` as a list of entries.
- `Normalise.dfy`: the two regular-expression substitutions the tools apply
  to their prompts. `re.sub(r"[ \t]+", " ", s)` is `CollapseBlanks`, and
  `re.sub(r"\t+| {2,}", " ", s)` is `CollapseTabsAndSpaceRuns`.

The outside world enters as parameters.

- The chat model is a function from a model name and messages to a reply.
  For the tutor it also takes the stream flag.
- numpy and Faker are `Chance` oracles. Each draw is a function of the cell
  it is made for, and is constrained only as far as the code constrains it.
- A PDF is its sequence of page texts.

Generation errors are values. Each exception that an instruction of the
modelled shape can make the generator raise is a `GenError` case. The
modelled shape is columns with a name, a type and integer constraints. The
exceptions are:

- the constraints assertion;
- a missing, malformed or unknown reference;
- an empty key list;
- numpy's rejection of an integer range that is empty or has a bound outside
  int64;
- numpy's OverflowError for a float range whose bounds, or whose width
  computed in doubles, lie beyond the largest double.

`Result` carries the error, so the first failure stops generation, as the
exception does.

## Model

| member | source | states |
|---|---|---|
| Base.BasePromptGenerator.constructor | base/base_class.py:2-3 | a new generator holds the default system prompt |
| Base.UserPrompt | base/base_class.py:5-7 | the user prompt is the fixed prefix followed by the text, unchanged |
| Base.UserPromptRoundTrip | base/base_class.py:5-7 | the text can be read back from its prompt, and only prompts built from a text read back as that text |
| Base.CreateMessage | base/base_class.py:9-13 | exactly two messages: the system prompt with role "system", then the user prompt with role "user" |
| Base.CreateMessageRoundTrip | base/base_class.py:9-13 | both prompts can be read back from the message pair, and only a message pair built from them reads back as them |
| Dicts.Keys | Synthetic-data-creator/create_datasets.py:182 | a dict has one key per entry |
| Dicts.GetSomeIffKey | Synthetic-data-creator/create_datasets.py:104 | `.get(k)` finds a value exactly when `k` is among the keys |
| Dicts.PutGet | Synthetic-data-creator/create_datasets.py:108 | after `d[k] = v`, looking up `k` gives `v` and every other key gives what it gave before |
| Dicts.PutKeys | Synthetic-data-creator/create_datasets.py:61-62 | assignment keeps the key order: an existing key stays in place, a new key goes at the end, and keys stay unique |
| Normalise.CollapseBlanks | CV-Job-analyzer/cv_job_analyze.py:41 | the result has no tab and no two adjacent spaces; it is empty only for empty input; it is never longer than the input; a leading blank becomes one space |
| Normalise.CollapseBlanksKeepsText | CV-Job-analyzer/cv_job_analyze.py:69 | the substitution changes only blanks: the non-blank characters stay the same, in the same order |
| Normalise.CollapseBlanksFixedPoints | CV-Job-analyzer/cv_job_analyze.py:69 | a string is left unchanged exactly when it has no tab and no double space |
| Normalise.CollapseBlanksIdempotent | CV-Job-analyzer/cv_job_analyze.py:41 | applying the substitution twice gives the same result as once |
| Normalise.CollapseBlanksAppend | CV-Job-analyzer/cv_job_analyze.py:41 | where the left part does not end in a blank, the substitution works on the two parts separately |
| Normalise.CollapseBlanksRun | CV-Job-analyzer/cv_job_analyze.py:69 | a maximal run of spaces and tabs between two texts becomes exactly one space, and the texts on either side are collapsed on their own |
| Normalise.CollapseTabsAndSpaceRuns | Simple-AI-tutor/ai_tutor.py:70 | the result has no tab; it is empty only for empty input; it is never longer than the input |
| Normalise.CollapseTabsAndSpaceRunsKeepsText | Simple-AI-tutor/ai_tutor.py:83 | the substitution changes only blanks: the non-blank characters stay the same, in the same order |
| Normalise.CollapseTabsAndSpaceRunsFixedPoints | Simple-AI-tutor/ai_tutor.py:83 | a string is left unchanged exactly when it has no tab and no double space |
| Normalise.CollapseTabsAndSpaceRunsAppend | Simple-AI-tutor/ai_tutor.py:70 | where the two parts do not meet in two equal characters, the substitution works on them separately |
| Normalise.TabRunBecomesSpace | Simple-AI-tutor/ai_tutor.py:83 | a maximal run of tabs becomes exactly one space |
| Normalise.SpaceRunBecomesSpace | Simple-AI-tutor/ai_tutor.py:83 | a maximal run of two or more spaces becomes exactly one space |
| Normalise.LoneSpaceIsKept | Simple-AI-tutor/ai_tutor.py:83 | a single space between two texts that do not touch it with a space is kept as it is |
| Normalise.TabThenSpaceLeavesDoubleSpace | Simple-AI-tutor/ai_tutor.py:83 | a tab followed by one space becomes two spaces, which a second application collapses: unlike the analyzer's pattern, this one is not idempotent |
| CvJobAnalyzer.Show | CV-Job-analyzer/cv_job_analyze.py:63-66 | a present value is rendered as itself in the f-string |
| CvJobAnalyzer.UserPrompt | CV-Job-analyzer/cv_job_analyze.py:59-69 | the prompt has no tab and no double space, and the substitution leaves it unchanged |
| CvJobAnalyzer.UserPromptKeepsInputs | CV-Job-analyzer/cv_job_analyze.py:60-69 | apart from blanks, the prompt is the template's text with the job description and then the CV text in their places |
| CvJobAnalyzer.PagesTextAppend | CV-Job-analyzer/cv_job_analyze.py:56-57 | the CV text of a page list is the texts of its parts, joined in order |
| CvJobAnalyzer.PageInCvText | CV-Job-analyzer/cv_job_analyze.py:56-57 | the CV text starts with the text of the pages before page `i`, and page `i`'s text comes right after it |
| CvJobAnalyzer.CvJobDescriptionAnalyzer.constructor | CV-Job-analyzer/cv_job_analyze.py:15-46 | the analyzer keeps the client, its system prompt is the blank-collapsed prompt text, and every other field starts as None |
| CvJobAnalyzer.CvJobDescriptionAnalyzer.GetJobDescription | CV-Job-analyzer/cv_job_analyze.py:48-49 | sets the job description and changes nothing else |
| CvJobAnalyzer.CvJobDescriptionAnalyzer.GetCvContent | CV-Job-analyzer/cv_job_analyze.py:51-57 | records the file; for a file, the CV text becomes the concatenation of all its pages in order; for None, the previous CV text stays |
| CvJobAnalyzer.CvJobDescriptionAnalyzer.Analyze | CV-Job-analyzer/cv_job_analyze.py:71-81 | stores the prompt built from the current inputs, sends exactly one system/user pair to "gpt-4o-mini", and stores and returns its reply |
| CvJobAnalyzer.StoreSubmission | CV-Job-analyzer/cv_job_analyze.py:98-102 | a text submission sets the job description; otherwise an upload sets the file and the CV text; a PDF submission without a file fails and changes nothing |
| CvJobAnalyzer.AnalyzeWhenReady | CV-Job-analyzer/cv_job_analyze.py:104-109 | analyses exactly when both a job description and a CV text are present, then clears the job description and the file but keeps the CV text; otherwise nothing changes |
| CvJobAnalyzer.HandlePost | CV-Job-analyzer/cv_job_analyze.py:96-109 | a POST stores its input and analyses exactly when both inputs are then present; an analysis stores the prompt built from the job description and the CV text and returns the reply; without an analysis, no request is sent and the stored result is unchanged |
| CvJobAnalyzer.StaleCvIsReused | CV-Job-analyzer/cv_job_analyze.py:104-109 | the CV text survives the reset after an analysis, so a second job description alone is analysed against the first CV |
| AiTutor.UserPrompt | Simple-AI-tutor/ai_tutor.py:77-84 | the prompt has no tab and is no longer than its template |
| AiTutor.UserPromptKeepsQuestion | Simple-AI-tutor/ai_tutor.py:77-84 | apart from blanks, the prompt is the template's text with the question in its place |
| AiTutor.AITutor.constructor | Simple-AI-tutor/ai_tutor.py:17-72 | the tutor keeps the model name and the client, its system prompt is the normalised prompt text, and there is no question and no reply yet |
| AiTutor.AITutor.GetQuestion | Simple-AI-tutor/ai_tutor.py:74-75 | remembers the question and changes nothing else |
| AiTutor.AITutor.GetResponse | Simple-AI-tutor/ai_tutor.py:86-96 | with no question, nothing is sent and None is returned; otherwise exactly one request is sent, with the system prompt and the question's prompt, and its reply is stored and returned |
| AiTutor.Chat | Simple-AI-tutor/ai_tutor.py:128-136 | a missing or empty message gives 400 "Error: Empty message" and keeps the question; any other message gives 200 "Message received" and becomes the question |
| AiTutor.Stream | Simple-AI-tutor/ai_tutor.py:138-144 | with a question, it answers with a streamed reply to it; without one, it sends nothing and answers with the previous reply, if any |
| AiTutor.AskThenStream | Simple-AI-tutor/ai_tutor.py:128-144 | after `/chat` stores a question, each `/stream` asks about that same question again |
| SyntheticSchema.IsSimpleColumn | Synthetic-data-creator/create_datasets.py:119-124 | a column is simple exactly when its type is a simple type and its name is not a complex role |
| SyntheticSchema.Lower | Synthetic-data-creator/create_datasets.py:144 | lower-casing keeps the length and maps every character through the ASCII case map |
| SyntheticSchema.LowerIsLower | Synthetic-data-creator/create_datasets.py:148 | a lower-cased string has no capital letter, and lower-casing it again changes nothing |
| SyntheticSchema.Range | Synthetic-data-creator/create_datasets.py:93 | `list(range(n))` is `0..n-1` in order, and empty for a negative `n` |
| SyntheticSchema.FirstDot | Synthetic-data-creator/create_datasets.py:102 | finds the first dot, and none exactly when there is no dot |
| SyntheticSchema.SplitReference | Synthetic-data-creator/create_datasets.py:102 | splitting succeeds exactly when the reference has one dot, and the two parts joined by the dot give the reference back |
| SyntheticSchema.SplitReferenceRoundTrip | Synthetic-data-creator/create_datasets.py:102 | a dot-free entity name and column name joined by a dot split back into the same two |
| SyntheticValues.RandInt | Synthetic-data-creator/create_datasets.py:152-154 | `randint(lo, hi)` fails with the int64 error exactly when `lo` or `hi - 1` lies outside int64, fails with the empty-range error exactly when the bounds are in int64 and `hi <= lo`, and otherwise gives a value in `[lo, hi)` |
| SyntheticValues.RandIntCovers | Synthetic-data-creator/create_datasets.py:152-154 | every value of a non-empty int64 range can be drawn; a range with a bound outside int64 yields only the int64 error |
| SyntheticValues.GenerateSimpleValue | Synthetic-data-creator/create_datasets.py:138-173 | bad constraints fail the assertion; an integer primary key is the row index; other integers lie within the bounds (default [1, 1000)), fail with the int64 error exactly when a bound lies outside int64, and otherwise fail only on an empty range; a float succeeds exactly when `np.random.uniform` accepts its bounds (both round to finite doubles and so does their difference) and otherwise fails with the overflow error; a string is faked for the names "name", "email" and "product" and is None for any other name |
| SyntheticValues.SmallBoundsUniformOk | Synthetic-data-creator/create_datasets.py:156-162 | float bounds smaller than 2^52 in size never make `np.random.uniform` overflow |
| SyntheticValues.DefaultFloatSucceeds | Synthetic-data-creator/create_datasets.py:156-157 | a float column without constraints draws from [1.0, 1000.0) and always gets a float |
| SyntheticValues.GenerateValueOneColumn | Synthetic-data-creator/create_datasets.py:127-135 | a complex column gets None |
| SyntheticValues.ReferencedKeys | Synthetic-data-creator/create_datasets.py:101-104 | a missing reference fails, and a reference without exactly one dot fails |
| SyntheticValues.ReferencedKeysCases | Synthetic-data-creator/create_datasets.py:101-104 | for `entity.column`: an entity not yet recorded fails, a column that is not one of its primary keys fails, and otherwise the recorded key list is returned |
| SyntheticValues.ForeignKeyValue | Synthetic-data-creator/create_datasets.py:100-105 | a foreign key succeeds exactly when the referenced key list is found and non-empty; the value is then one of its members; the lookup's error or the empty-list error otherwise |
| SyntheticValues.ForeignKeyCovers | Synthetic-data-creator/create_datasets.py:103-105 | every recorded key of the referenced column can be drawn |
| SyntheticValues.FirstPassValueCases | Synthetic-data-creator/create_datasets.py:100-107 | a foreign key gets a recorded key, a simple column a generated value and any other column None; only a foreign key consults the key index |
| SyntheticValues.NatText | Synthetic-data-creator/create_datasets.py:187 | the decimal text of a number is non-empty, all digits, and has no leading zero |
| SyntheticValues.IntTextRoundTrip | Synthetic-data-creator/create_datasets.py:187 | the printed text of an integer reads back as that integer |
| SyntheticValues.ContainsIdIsSubstring | Synthetic-data-creator/create_datasets.py:185 | the scan finds "id" exactly when "id" occurs somewhere in the name |
| SyntheticValues.ContextLine | Synthetic-data-creator/create_datasets.py:185-187 | a cell contributes nothing exactly when its value is None or its name contains "id" |
| SyntheticValues.LinesPrefix | Synthetic-data-creator/create_datasets.py:184-187 | appending cells does not change the lines of the cells already there |
| SyntheticValues.ContextAppend | Synthetic-data-creator/create_datasets.py:182-188 | the context of a row is the contexts of its parts, in row order |
| SyntheticValues.ContextEmpty | Synthetic-data-creator/create_datasets.py:182-188 | the context is empty exactly when every cell is skipped |
| SyntheticValues.GenerateContext | Synthetic-data-creator/create_datasets.py:182-188 | the loop builds the row's context: one line per kept cell, in row order |
| SyntheticValues.ComplexUserMessageParts | Synthetic-data-creator/create_datasets.py:193-206 | the user message names the entity and holds the row's context after the field line |
| SyntheticValues.ComplexValueMessages | Synthetic-data-creator/create_datasets.py:191-211 | the request is the system/user pair of the base class, with the fixed system message and the user message of the entity, the column and the context |
| SyntheticValues.GenerateComplexValue | Synthetic-data-creator/create_datasets.py:176-179 | the value is the model's reply to the system message and the user message built from the entity, the column and the row's context |
| SyntheticDataset.DedupMembers | Synthetic-data-creator/create_datasets.py:108 | removing repeated names keeps every name and adds none: a row's keys are exactly the column names |
| SyntheticDataset.DedupDistinct | Synthetic-data-creator/create_datasets.py:108 | with distinct column names, the row keys are the column names in order |
| SyntheticDataset.GatherShape | Synthetic-data-creator/create_datasets.py:97-114 | the rows are collected exactly when every row succeeds, in order; otherwise the first failing row's error is reported |
| SyntheticDataset.FillKeys | Synthetic-data-creator/create_datasets.py:98-108 | the first-pass row's keys are the column names in first-occurrence order, with no repeats |
| SyntheticDataset.FillCell | Synthetic-data-creator/create_datasets.py:98-108 | the last write wins: a column's cell holds that column's first-pass value when no later column has the same name |
| SyntheticDataset.FirstPassRow | Synthetic-data-creator/create_datasets.py:98-108 | the first-pass loop computes the first-pass row, or the first column's error |
| SyntheticDataset.SecondPassRow | Synthetic-data-creator/create_datasets.py:110-113 | the second-pass loop computes the second-pass row |
| SyntheticDataset.GenerateOneDataset | Synthetic-data-creator/create_datasets.py:89-116 | the method computes the entity's rows and its primary-key dict, or the first error |
| SyntheticDataset.RowResultAt | Synthetic-data-creator/create_datasets.py:97-114 | row `i` fails with its first pass's error, or is the second pass over the first-pass row |
| SyntheticDataset.PrimaryKeyDictShape | Synthetic-data-creator/create_datasets.py:93-95 | the primary-key dict has one unique key per column whose role is exactly "primary_key", each mapped to `range(count)` |
| SyntheticDataset.OneDatasetRows | Synthetic-data-creator/create_datasets.py:97-116 | a dataset is produced exactly when every row succeeds, and then it holds the rows in order; otherwise it fails with the first row's error |
| SyntheticDataset.OneDatasetKeys | Synthetic-data-creator/create_datasets.py:93-116 | a produced dataset records keys exactly for the columns whose role is "primary_key", each with the keys `0 .. count-1` |
| SyntheticDataset.SecondPassKeys | Synthetic-data-creator/create_datasets.py:110-113 | the second pass changes no key and keeps keys unique |
| SyntheticDataset.SecondPassCell | Synthetic-data-creator/create_datasets.py:110-113 | with distinct column names, after the second pass a column's cell is the model's reply when it was complex and still None, and is otherwise kept |
| SyntheticDataset.RowKeys | Synthetic-data-creator/create_datasets.py:98-114 | every generated row has the column names as its keys, in first-occurrence order and with no repeats |
| SyntheticDataset.RowCell | Synthetic-data-creator/create_datasets.py:98-114 | with distinct column names, each cell is the first-pass value, replaced by the model's reply for a complex column left None |
| SyntheticDataset.PrimaryKeyCellIsRowIndex | Synthetic-data-creator/create_datasets.py:147-149 | with distinct column names, an integer primary-key column holds the row index |
| SyntheticDataset.ForeignKeyCellIsRecordedKey | Synthetic-data-creator/create_datasets.py:100-105 | with distinct column names, a foreign-key cell holds a key recorded for the referenced column |
| SyntheticDataset.IntegerCellInBounds | Synthetic-data-creator/create_datasets.py:150-155 | with distinct column names, a non-key integer cell lies within its constraints |
| SyntheticDataset.EmptyCells | Synthetic-data-creator/create_datasets.py:164-172 | with distinct column names and for a column that is not a foreign key: after the first pass a complex column holds None and the second pass fills it with text; a simple string column not named name, email or product holds None after both passes |
| SyntheticDataset.SecondPassKeepsFilledCells | Synthetic-data-creator/create_datasets.py:110-113 | with distinct column names, the second pass never overwrites a cell that the first pass filled |
| SyntheticDataset.RowsIgnoreIndex | Synthetic-data-creator/create_datasets.py:89-108 | an entity without foreign keys generates the same rows whatever key index it is given |
| SyntheticDataset.IndexUnusedWithoutForeignKeys | Synthetic-data-creator/create_datasets.py:57-62 | an entity without foreign keys generates the same dataset whatever key index it is given |
| SyntheticSchema.HasForeignKeyIsAny | Synthetic-data-creator/create_datasets.py:59-66 | an entity has a foreign key exactly when the left-to-right `any` scan over its columns finds one |
| SyntheticPlanner.GroupAppend | Synthetic-data-creator/create_datasets.py:57-71 | selecting the entities of one kind distributes over concatenation |
| SyntheticPlanner.GroupKind | Synthetic-data-creator/create_datasets.py:59 | the first loop handles only entities without a foreign key, the second only entities with one |
| SyntheticPlanner.GroupsPartition | Synthetic-data-creator/create_datasets.py:57-71 | together the two loops handle every entity exactly once |
| SyntheticPlanner.PlanShape | Synthetic-data-creator/create_datasets.py:57-71 | the generation order is a permutation of the entities in which every entity without a foreign key comes before every entity with one |
| SyntheticPlanner.RunSticky | Synthetic-data-creator/create_datasets.py:57-71 | once an entity fails, nothing after it is generated and its error is the result |
| SyntheticPlanner.RunKeys | Synthetic-data-creator/create_datasets.py:61-71 | both result dicts are keyed by the generated entity names, in first-occurrence order and with no repeats |
| SyntheticPlanner.RunMirror | Synthetic-data-creator/create_datasets.py:61-71 | the key index holds, under each name, the primary-key dict of the dataset stored under that name |
| SyntheticPlanner.RunRecords | Synthetic-data-creator/create_datasets.py:57-71 | the dataset stored under a name is the one generated for the last entity with that name, with the keys recorded before it |
| SyntheticPlanner.AllRecorded | Synthetic-data-creator/create_datasets.py:57-71 | with distinct names, each entity's stored dataset is generated from the keys of the entities before it in the order |
| SyntheticPlanner.RecordedKeys | Synthetic-data-creator/create_datasets.py:93-95 | with distinct names, each entity's recorded keys are `range(count)` for each primary-key column |
| SyntheticPlanner.ResultKeys | Synthetic-data-creator/create_datasets.py:61-71 | after success, a name is in both result dicts exactly when some entity has that name |
| SyntheticPlanner.DependentsSeeAllPrimaries | Synthetic-data-creator/create_datasets.py:64-69 | every entity with a foreign key sees the recorded keys of every entity without one |
| SyntheticPlanner.ForwardReferenceFails | Synthetic-data-creator/create_datasets.py:102-104 | a reference to an entity generated later (or never) fails with an unknown entity |
| SyntheticPlanner.GenerateDatasets | Synthetic-data-creator/create_datasets.py:52-71 | the two loops compute the generation plan's result: every entity without a foreign key, then every one with one, stopping at the first error |

## Left out

- JSON parsing of the instruction (create_datasets.py:53-54) is out: generation starts from the parsed entities.
- Saving the tables as Excel files and the markdown summary text (create_datasets.py:73-86) are file I/O and formatting, and are out.
- The planner model that writes the instruction and the Gradio interface (create_datasets.py:214-259) are out: streaming UI and network I/O.
- PDF text extraction by PyPDF2 is out: a PDF is given as the texts of its pages.
- The Flask apps, `render_template` and `markdown` of the GET response (cv_job_analyze.py:111-121), argument parsing, dotenv and the API-key check in `main` are web and process I/O, and are out.
- `base/utils.py` (`get_stream`) is not part of this model: `/stream` returns the stored reply, not its event stream.
- `Web-summarizer/web_summarize.py` and `draft.py` are not part of this model.
- The base class in the repository defines no `inference` and no `model_name`, and its constructor takes no arguments, while ai_tutor.py:19 and create_datasets.py:42 pass arguments to it. The model takes the model name and the chat client as parameters, as the calling code evidently expects.
- The chat model is a deterministic function of its model name and messages (and stream flag). Repeated calls with equal messages give equal replies, which the real model does not promise.
- Random draws are keyed by the cell (entity name, row, column position), so two entities with the same name share their draws.
- `Chance.uniform` yields the printed text of a rounded float draw. The drawn value is not modelled, and neither is its relation to the bounds. Whether the bounds are accepted is modelled exactly, by rounding them to doubles.
- `Chance.fake` stands for Faker's name, email and title-cased word. The formats it returns are not modelled.
- `Lower` and `IsPrimaryKeyRole` lower-case ASCII letters only; Python's `lower()` also maps other scripts.
- The first loop of `generate_datasets` passes no key index (None) to `generate_one_dataset`. The model passes the empty index, and `IndexUnusedWithoutForeignKeys` shows that an entity without foreign keys never consults it.
- `CvJobAnalyzer.CvJobDescriptionAnalyzer.Analyze`: the `exit(0)` branch of cv_job_analyze.py:73-75 is dead because the prompt is never None, so it is not modelled.
- `AiTutor.AskThenStream` requires a non-empty question, because it describes the successful `/chat` call; the empty case is covered by `AiTutor.Chat`.
- `SyntheticValues.ReferencedKeys` states only the two failures the reference text decides; its lookups are stated in `SyntheticValues.ReferencedKeysCases`.
- `SyntheticValues.GenerateSimpleValue` says of a successful float draw only that it is a float, because the drawn value is not modelled.
- Constraints are integers in the model. An instruction whose constraints are JSON floats or strings, or whose columns lack a name or a type, is outside the modelled shape. Such instructions are not modelled, and the exceptions some of them raise (a KeyError for a missing field, a TypeError for text constraints) have no `GenError` case.
- `SyntheticValues.RandInt` uses int64 as numpy's default integer type, as on Linux and macOS and with NumPy 2 everywhere. On Windows with NumPy before 2 the default is int32, and narrower bounds are rejected there.
- The two system prompts that go through a substitution are written as concatenations of short pieces, which keeps the solver's evaluation of the substitution cheap. Their text is the source's, but the pieces carry no meaning; the other templates have one piece per source line.
- A PDF that PyPDF2 cannot read is out. `get_cv_content` records the file and sets the CV text to "" before extraction (cv_job_analyze.py:52-57), so a failed extraction leaves an empty or partial CV text that a later job description is analysed against. The model's PDF always yields its pages.
- Flask serves requests on several threads, so handlers can interleave on the shared analyzer and tutor (cv_job_analyze.py:104-109). The model treats each handler as one atomic step and does not capture interleavings.
