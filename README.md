# New Nerd, modelled in Dafny

New Nerd is a web application for schools. It has three parts:

- a teacher interface (`newnerd-interface/`): question generation, a local question history, exports, a document library, a chat assistant and a light/dark theme;
- a student interface (`aluno-interface/`): a cognitive diagnostic, the question panel and the answer and result pages, a document library, a study chat and a helper for the database;
- Supabase edge functions (`supabase/functions/`): `embed`, `generate-question`, `process-file` and `chat-ia`.

This project models the deterministic rules of those parts in Dafny and proves properties about them. It covers:

- the scoring of the diagnostic and its constant tables;
- the history store and its statistics;
- text and CSV export;
- generation dispatch;
- the library's upload queues, status machines, type filters and search merge;
- the edge functions' CORS and status decisions and their normalisation of requests and replies;
- the student pages' filters, flags and averages;
- the assembly of the chat history;
- the theme switch.

Every answer from the database, the storage bucket, the chat or embedding model, the clock or a random source is a parameter of the operation that reads it. Mutable page state is held in classes: the history store, the diagnostic, the library pages, the chat pages, the panels and the theme page. Rules that only compute a value are functions, and lemmas connect them.

Shared modules:

- `Js` holds JSON-like values with JavaScript's truthiness, `||`, `??` and `String(v)`.
- `Text` holds the string methods the application uses.
- `Seqs` holds `filter`.
- `Wrappers` holds `Option` and `Result`.
- `EdgeHttp` holds the request shape the edge functions share.
- `ChatHistory` holds what the two chat pages share.
- `Library` holds what the two library pages share.
- `StudentAnswers` holds how the student pages read answer rows.

Where the code and the application's description disagree, the model follows the code. An example is the teacher chat: when `functions.invoke` answers with data carrying an `error`, that error is thrown inside the `try`, so the page falls back to the direct request (`ChatProfessor.FallbackOrder`). Other places where the code behaves differently from what a reader would expect are stated as lemmas:

- The two clients of `embed` send bodies that the function rejects or truncates (`EmbedClients.PageCallsRejected`, `EmbedClients.ManagerChunkCut`). The student manager cuts 28000-character chunks, and the server keeps 12000 characters of each.
- The two chat pages store the user's message before reading the history back, so the model receives that message twice (`ChatHistory.CurrentMessageRepeated`).
- The result page escapes only `&`, `<` and `>` and leaves quotes as they are (`ResultadoPage.Passes3Each`).

## Model

| member | source | states |
|---|---|---|
| Diagnostico.SumEvensAppend | aluno-interface/js/diagnostico.js:46-50 | the sum of the even numbers of a concatenation is the sum over each part |
| Diagnostico.MemoryKeys | aluno-interface/js/diagnostico.js:46-50 | the memory key of each shipped preset (8, 8, 20, 40) |
| Diagnostico.Confidence | aluno-interface/js/diagnostico.js:54 | a confidence lies in 0..100, equals an in-range answer, and is 0 for an unparsable one |
| Diagnostico.SpeedScore | aluno-interface/js/diagnostico.js:129-130 | 10 exactly under the good band, 8 exactly between the bands, 5 otherwise |
| Diagnostico.SpeedScoreMonotone | aluno-interface/js/diagnostico.js:129-130 | a slower reaction never earns a higher score |
| Diagnostico.CptScore | aluno-interface/js/diagnostico.js:205-215 | the CPT score always lies in 3..10, the target count floored at 1 |
| Diagnostico.CptScoreMonotone | aluno-interface/js/diagnostico.js:207-215 | more hits never lower the score and more false alarms never raise it |
| Diagnostico.NextLevel | aluno-interface/js/diagnostico.js:279-280 | a correct answer raises the level by one rank, capped at C |
| Diagnostico.PickItem | aluno-interface/js/diagnostico.js:237-242 | the fallback item for an empty bank, otherwise an item of the level's bank |
| Diagnostico.ShippedPicksAreValid | aluno-interface/js/diagnostico.js:237-242 | for the shipped presets every draw is a bank item with a valid answer index |
| Diagnostico.LevelAfterRank | aluno-interface/js/diagnostico.js:276-292 | the level only rises, by one rank per correct answer, never past C |
| Diagnostico.ProbeNext | aluno-interface/js/diagnostico.js:271-293 | no choice changes nothing; otherwise a point per correct answer, the level raised, the counter advanced, answered after the third item |
| Diagnostico.ProbeRunMatchesLevelAfter | aluno-interface/js/diagnostico.js:271-293 | a run of answers ends at the level LevelAfter gives, with one point per correct answer |
| Diagnostico.SocioScore | aluno-interface/js/diagnostico.js:348-358 | the socio-emotional score lies in 3..12 and is 12 exactly for high/retry/low |
| Diagnostico.Calibration | aluno-interface/js/diagnostico.js:360-378 | the calibration lies in 0..100 and is 0 when no cognitive score is positive |
| Diagnostico.MetacogCalibration | aluno-interface/js/diagnostico.js:360-378 | the loop over the five scores computes Calibration |
| Diagnostico.DeviationZero | aluno-interface/js/diagnostico.js:369-375 | no deviation when every positive score equals its confidence point |
| Diagnostico.PerfectCalibration | aluno-interface/js/diagnostico.js:360-378 | confidence matching every positive score gives calibration 100 |
| Diagnostico.Classify | aluno-interface/js/diagnostico.js:380-411 | the band is Atenção/Adequado/Avançado exactly by the cuts, with its badge, and the percentile is within 1..99 |
| Diagnostico.InterpolationInRange | aluno-interface/js/diagnostico.js:405-409 | the interpolated percentile stays within the band's range |
| Diagnostico.ClassifyPercentileInBand | aluno-interface/js/diagnostico.js:380-411 | for 0 ≤ score ≤ max the percentile falls inside the band's range |
| Diagnostico.MetaQualityLabel | aluno-interface/js/diagnostico.js:413-417 | 75 and above is under-confident, 45..65 calibrated, every other value over-confident |
| Diagnostico.WeakRows | aluno-interface/js/diagnostico.js:490-497 | the numbers of the table rows whose score is weak, each once, strictly ascending, and every weak row among them |
| Diagnostico.RecommendationsFrom | aluno-interface/js/diagnostico.js:490-497 | a row is recommended exactly when its score is in the weak range, and entry i is table row WeakRows[i], so the rows come in table order |
| Diagnostico.MembersStep | aluno-interface/js/diagnostico.js:490-497 | pushing row k when it applies keeps "recommended exactly when weak" from row k on |
| Diagnostico.OrderStep | aluno-interface/js/diagnostico.js:490-497 | pushing row k when it applies keeps entry i equal to table row WeakRows[i] |
| Diagnostico.Recommendations | aluno-interface/js/diagnostico.js:490-497 | at most seven rows, exactly those whose score is weak, in table order |
| Diagnostico.NoRecommendationsIffAllStrong | aluno-interface/js/diagnostico.js:490-497 | no recommendation exactly when no score is weak |
| Diagnostico.Diagnose | aluno-interface/js/diagnostico.js:420-447 | a diagnosis exists exactly when the form and tests are complete; the cognitive total is the sum of the five scores |
| Diagnostico.CompleteDiagnosisInScale | aluno-interface/js/diagnostico.js:420-447 | a complete diagnosis has a cognitive total in 19..50 whose percentile lies in its band |
| Diagnostico.Diagnostic.constructor | aluno-interface/js/diagnostico.js:546-606 | the initial state after applyPreset: zero scores, fresh probes, the preset's flexibility count |
| Diagnostico.Diagnostic.ApplyPreset | aluno-interface/js/diagnostico.js:546-606 | resets memory, speed and logic scores and both probes, keeps flexibility, CPT scores and confidences |
| Diagnostico.Diagnostic.HandleMemoryCheck | aluno-interface/js/diagnostico.js:52-65 | 10 for the preset's key, 4 for anything else; only the memory score and confidence change |
| Diagnostico.Diagnostic.HandleFlexClick | aluno-interface/js/diagnostico.js:68-87 | the first click only starts; later clicks score 4 on red, else 10 |
| Diagnostico.Diagnostic.AdvanceFlexRule | aluno-interface/js/diagnostico.js:89-109 | counts a change and raises the go/no-go signal after the preset's number of changes |
| Diagnostico.Diagnostic.GoNoGoTimeout | aluno-interface/js/diagnostico.js:100-107 | not clicking on red scores 10; the signal is lowered either way |
| Diagnostico.Diagnostic.ScheduleSpeedBox | aluno-interface/js/diagnostico.js:112-121 | the trial is disarmed and nothing else changes |
| Diagnostico.Diagnostic.SpeedBoxShown | aluno-interface/js/diagnostico.js:117-120 | the trial is armed with the current time |
| Diagnostico.Diagnostic.HandleSpeedClick | aluno-interface/js/diagnostico.js:123-135 | only an armed trial without a reaction counts; the floored reaction is scored against the bands |
| Diagnostico.Diagnostic.StartCpt | aluno-interface/js/diagnostico.js:194-203 | ignored while running; otherwise stimuli loaded and counters zeroed |
| Diagnostico.Diagnostic.StepCpt | aluno-interface/js/diagnostico.js:171-192 | finishes when stopped or out of stimuli, else shows the next and arms a response |
| Diagnostico.Diagnostic.CloseResponseWindow | aluno-interface/js/diagnostico.js:187-191 | a late press no longer counts |
| Diagnostico.Diagnostic.RegisterCptResponse | aluno-interface/js/diagnostico.js:152-169 | only while running and armed; a hit on the target, else a false alarm; at most one response per stimulus |
| Diagnostico.Diagnostic.FinishCpt | aluno-interface/js/diagnostico.js:205-218 | stops the test and stores CptScore of its counts |
| Diagnostico.Diagnostic.HandleLogicChange | aluno-interface/js/diagnostico.js:221-234 | 10 for the preset's answer, 4 otherwise |
| Diagnostico.Diagnostic.LitNext | aluno-interface/js/diagnostico.js:271-293 | the reading probe advances by ProbeNext; answered after the third item |
| Diagnostico.Diagnostic.MatNext | aluno-interface/js/diagnostico.js:322-344 | the maths probe advances by ProbeNext; answered after the third item |
| Diagnostico.Diagnostic.GenerateDiagnosis | aluno-interface/js/diagnostico.js:420-447 | the diagnosis of the current state; none unless complete |
| DiagnosticoData.NormsWellFormed | aluno-interface/js/diagnostico-data.js:250-272 | every shipped norm has c1 < c2 < max, so all three bands are non-empty |
| DiagnosticoData.PresetsWellFormed | aluno-interface/js/diagnostico-data.js:2-248 | every preset has increasing speed bands, its logic answer among the options, a CPT target, an ordered ISI range and valid non-empty banks |
| DiagnosticoData.CptTargetsNonEmpty | aluno-interface/js/diagnostico-data.js:2-248 | every preset has a CPT target and an ordered ISI range |
| DiagnosticoData.BanksValid | aluno-interface/js/diagnostico-data.js:2-248 | every bank item's answer key indexes into its options |
| DiagnosticoUi.Clamp | aluno-interface/js/diagnostico-ui.js:5 | the result lies in [min, max], equals an in-range input and the nearer bound otherwise |
| DiagnosticoUi.ProgressPercent | aluno-interface/js/diagnostico-ui.js:30 | the percentage lies in 0..100 and equals Math.round(answered / 15 * 100) capped at 100 |
| DiagnosticoUi.UpdateProgress | aluno-interface/js/diagnostico-ui.js:8-33 | the counting steps give ProgressPercent of the answered steps |
| DiagnosticoUi.ProgressTopsOutAt80 | aluno-interface/js/diagnostico-ui.js:8-33 | with one checked radio per group at most 12 steps count, so the bar never passes 80% |
| DiagnosticoUi.ProgressCountsOnlyAnswered | aluno-interface/js/diagnostico-ui.js:13-21 | a score counts only when positive and a probe only when answered |
| DiagnosticoUi.Page.ShowFeedback | aluno-interface/js/diagnostico-ui.js:54-60 | a missing element is left alone; otherwise text, class `feedback <type>`, not hidden |
| DiagnosticoUi.Page.ClickOption | aluno-interface/js/diagnostico-ui.js:35-52 | without a radio nothing changes; otherwise only the clicked label of its group is selected and its radio checked |
| Storage.WithMetadata | newnerd-interface/js/storage.js:14-19 | the stored record carries the new id and both timestamps and keeps every other field of the question |
| Storage.Cap | newnerd-interface/js/storage.js:24-26 | at most MAX_HISTORY_ITEMS entries, the first ones, kept in order |
| Storage.FindIndex | newnerd-interface/js/storage.js:95 | -1 exactly when no record has the id, else the first position that has it |
| Storage.FindById | newnerd-interface/js/storage.js:54-57 | none exactly when no record has the id, else the first record that has it |
| Storage.WithoutId | newnerd-interface/js/storage.js:65 | no record with the id remains, every other record is kept, nothing is added |
| Storage.WithoutIdIdempotent | newnerd-interface/js/storage.js:62-73 | removing an id twice is removing it once |
| Storage.WithoutIdKeepsOrder | newnerd-interface/js/storage.js:65 | the kept records are a subsequence of the history, in order |
| Storage.Updated | newnerd-interface/js/storage.js:98-102 | the changes override the old fields, other fields are kept, and ultima_atualizacao is fresh |
| Storage.Bump | newnerd-interface/js/storage.js:150-155 | the key's count goes up by one, every other count is unchanged (the three counter updates at lines 150, 154 and 155) |
| Storage.TallyIsMultiset | newnerd-interface/js/storage.js:147-160 | the tally holds exactly the keys that occur, each with its number of occurrences |
| Storage.Statistics | newnerd-interface/js/storage.js:138-160 | the total is the number of records, and each grouping counts exactly the keys that occur, each with the number of records that carry it |
| Storage.StatisticsStep | newnerd-interface/js/storage.js:147-160 | counting one more record updates the statistics of the prefix read so far |
| Storage.StatisticsPartition | newnerd-interface/js/storage.js:138-160 | each grouping counts every record once, so the counts add up to the total |
| Storage.KeysMembership | newnerd-interface/js/storage.js:147-157 | a key is counted exactly when some record of the history carries it |
| Storage.HistoryStore.SalvarQuestao | newnerd-interface/js/storage.js:9-36 | the record goes to the front, the list is cut to the limit, and a failing write returns null and stores nothing |
| Storage.HistoryStore.QuestaoById | newnerd-interface/js/storage.js:54-57 | the stored history's first record with the id |
| Storage.HistoryStore.RemoverQuestao | newnerd-interface/js/storage.js:62-73 | the history without the id, or false and no change when the write fails |
| Storage.HistoryStore.LimparHistorico | newnerd-interface/js/storage.js:78-87 | the key is removed and the history reads as empty; false and no change on failure |
| Storage.HistoryStore.AtualizarQuestao | newnerd-interface/js/storage.js:92-112 | only the first record with the id is updated; null and no change without a match or on failure |
| Storage.HistoryStore.Tema | newnerd-interface/js/storage.js:124-126 | the stored theme, or "light" when none or an empty one is stored |
| Storage.HistoryStore.SetTema | newnerd-interface/js/storage.js:128-130 | the theme is stored and the history is untouched |
| Storage.HistoryStore.GetEstatisticas | newnerd-interface/js/storage.js:135-165 | the loop's result equals Statistics of the history |
| Export.ItemLine | newnerd-interface/js/export.js:18-48 | every item line is non-empty and ends in a newline (the item templates at lines 19, 33, 39, 41 and 48) |
| Export.ItemLines | newnerd-interface/js/export.js:18-20 | one line per item, in list order |
| Export.AppendLines | newnerd-interface/js/export.js:18-20 | the loop appends the item lines in order |
| Export.FormatarQuestaoTexto | newnerd-interface/js/export.js:9-53 | the text grown section by section is QuestionText |
| Export.HeaderShape | newnerd-interface/js/export.js:10-15 | the header opens with the rule and "QUESTÃO idx+1" and ends in a newline |
| Export.AlternativesGrow | newnerd-interface/js/export.js:17-24 | the alternatives section only extends the text and keeps its final newline |
| Export.StatementsGrow | newnerd-interface/js/export.js:29-35 | the statements section only extends the text and keeps its final newline |
| Export.ColumnsGrow | newnerd-interface/js/export.js:37-43 | the columns section only extends the text and keeps its final newline |
| Export.CriteriaGrow | newnerd-interface/js/export.js:45-50 | the criteria section only extends the text and keeps its final newline |
| Export.QuestionText | newnerd-interface/js/export.js:9-53 | every text opens with the rule and its label and ends in a blank line |
| Export.LinesInOrder | newnerd-interface/js/export.js:18-34 | items are written in list order (the forEach loops at lines 18-20 and 30-34) |
| Export.StatementVerdict | newnerd-interface/js/export.js:32-33 | a statement reads VERDADEIRO exactly when true (correta, else valor), FALSO otherwise |
| Export.CellText | newnerd-interface/js/export.js:511 | a nullish cell is "", any other is String(v) |
| Export.DoubleQuotes | newnerd-interface/js/export.js:511 | doubling quotes never shortens the text |
| Export.Cells | newnerd-interface/js/export.js:503-514 | the six cells of a question, in column order |
| Export.RowTexts | newnerd-interface/js/export.js:513-515 | one data line per question, in input order |
| Export.BuildCsv | newnerd-interface/js/export.js:512-515 | the loop builds the header then one line per question (the same construction is repeated inside exportAllZIP at lines 556-559) |
| Export.ReadQuotedInverse | newnerd-interface/js/export.js:511 | a quote-doubled text followed by a closing quote reads back as the text |
| Export.ReadQuotedCell | newnerd-interface/js/export.js:511 | a quoted cell followed by a separator reads back as the cell |
| Export.ReadLineInverse | newnerd-interface/js/export.js:514 | an encoded line reads back as its cells |
| Export.ReadRowsInverse | newnerd-interface/js/export.js:513-515 | the data lines read back as the cell table |
| Export.CsvRoundTrip | newnerd-interface/js/export.js:503-515 | parsing the CSV gives back every question's six cells, each String(v ?? "") of its property |
| Export.SafeTitle | newnerd-interface/js/export.js:519 | spaces become "_", every other character is kept |
| Export.BaseNameShape | newnerd-interface/js/export.js:541 | a download name has no space and holds the safe title after "newnerd-" |
| Export.ExportAllCsv | newnerd-interface/js/export.js:498-523 | nothing for a missing or empty batch, else the CSV under its file name |
| Export.JsonExportName | newnerd-interface/js/export.js:478-495 | nothing for a missing or empty batch, else the JSON file name |
| Export.ExportAllZip | newnerd-interface/js/export.js:526-576 | nothing for an empty batch or a missing ZIP library; else the JSON, the same CSV as exportAllCSV and the same text as copyAllQuestions under one base name, downloaded as that base name plus ".zip" |
| Export.QuestionTexts | newnerd-interface/js/export.js:353-354 | the text of every question with its position |
| Export.CopyAllText | newnerd-interface/js/export.js:345-364 | nothing for an empty batch, else the texts joined by newlines |
| Export.CopyAllInOrder | newnerd-interface/js/export.js:353-355 | the copied text lists the questions in batch order, question i labelled i+1 |
| Generator.GenerateOne | newnerd-interface/js/generator.js:40-88 | an abort gives the timeout message; a question comes only from a 2xx reply with a non-blank body that parses; it is truthy and carries a truthy type |
| Generator.GenerateOneErrors | newnerd-interface/js/generator.js:43-64 | a failing status, a blank body and an empty envelope each end the request with their message |
| Generator.NoFetchInMessages | newnerd-interface/js/generator.js:64-86 | neither message mentions "fetch", so the catch block rethrows them unchanged (the throw at line 64 and the catch at lines 84-86) |
| Generator.InferType | newnerd-interface/js/generator.js:66-75 | an object stays an object and always ends with a truthy type; anything truthy stays truthy |
| Generator.InferTypeOnlyFillsMissing | newnerd-interface/js/generator.js:67-76 | an existing type is kept; otherwise only tipo_questao is added |
| Generator.InferredTypePriority | newnerd-interface/js/generator.js:67-74 | the inference rules in priority order, each as an if-and-only-if |
| Generator.RequestBody | newnerd-interface/js/generator.js:12-17 | the parameters plus the variation tag v<index>_<now>, the seed and the timestamp |
| Generator.ExemploDiferente | newnerd-interface/js/generator.js:94-108 | the prompt at index mod 10 |
| Generator.ExemplosPeriodic | newnerd-interface/js/generator.js:107 | the prompts repeat with period ten |
| Generator.ExemplosCovered | newnerd-interface/js/generator.js:107 | any ten consecutive indices use every prompt |
| Generator.Concurrency | newnerd-interface/js/generator.js:129 | between 1 and 3, equal to a quantity in that range |
| Generator.GenerateMultiple | newnerd-interface/js/generator.js:114-195 | the successes and failures of indices 0..quantidade-1, with the counts and concurrency reported |
| Generator.EachIndexOnce | newnerd-interface/js/generator.js:135-161 | every index is claimed once: successes and failures add up, each failure records its 1-based index |
| Generator.BaseParams | newnerd-interface/js/generator.js:198-203 | the four fields buildParams always sets |
| Generator.BuildParams | newnerd-interface/js/generator.js:197-209 | disciplina only when set and not "auto", the trimmed criteria only when not blank; a non-string criterion throws |
| Generator.DistribuirTopicos | newnerd-interface/js/generator.js:314-320 | quantidade topics, the i-th being topicos[i mod n] |
| Generator.TopicsCycle | newnerd-interface/js/generator.js:317 | the distribution cycles with period n and its first round uses each topic once |
| Generator.TypeRequests | newnerd-interface/js/generator.js:257-279 | one request per question of the type, none for zero or less |
| Generator.GenerateBlock | newnerd-interface/js/generator.js:247-294 | the questions of one type are appended in order, each the answer to its request of the plan; the first failure stops with its message, every earlier request having succeeded |
| Generator.GerarProvaCompleta | newnerd-interface/js/generator.js:214-311 | the exam answers the plan request by request; the first failure aborts it with its message |
| Generator.OffsetGrows | newnerd-interface/js/generator.js:248-296 | a type's block ends before any later type's block starts |
| Generator.PlanLength | newnerd-interface/js/generator.js:248-296 | the plan up to a type has as many entries as the quantities before it |
| Generator.PlanEntry | newnerd-interface/js/generator.js:248-296 | the types come in order, each as one block, with round-robin topics and the running request index |
| Generator.PlanSize | newnerd-interface/js/generator.js:244 | with no negative quantity the exam has totalQuestoes questions |
| Generator.RenderGuards | newnerd-interface/js/generator.js:330-385 | a missing question or statement gives the error fragment; exactly the alternatives matching the key are marked correct |
| FileBiblioteca.Basename | modules/FileBiblioteca.js:3-9 | the basename has no slash, is a suffix of the name, and is the whole name or follows its last slash |
| FileBiblioteca.BasenameUnique | newnerd-interface/js/FileBiblioteca.js:2-8 | any slash-free suffix that starts the name or follows a slash is the basename: the characterisation is unique |
| FileBiblioteca.BasenameOfPath | modules/FileBiblioteca.js:3-9 | the basename of `dir/b` is `b` when `b` has no slash |
| FileBiblioteca.BasenameExtends | modules/FileBiblioteca.js:3-9 | appending a slash-free piece to a name extends its basename by that piece |
| FileBiblioteca.LastIndexOf | modules/FileBiblioteca.js:13 | -1 or a position holding the character, with no occurrence after it |
| FileBiblioteca.ExtOfName | modules/FileBiblioteca.js:11-15 | the extension of `stem.ext` is `ext` lower-cased, for a dot- and slash-free `ext` |
| FileBiblioteca.LowerBasename | modules/FileBiblioteca.js:11-15 | lower-casing commutes with taking the basename |
| FileBiblioteca.LowerLastDot | modules/FileBiblioteca.js:13-14 | lower-casing keeps the position of the last dot |
| FileBiblioteca.ExtIgnoresCase | newnerd-interface/js/FileBiblioteca.js:10-14 | the extension does not depend on the letter case of the name |
| FileBiblioteca.MimeEntries | modules/FileBiblioteca.js:19-34 | every table entry is a non-empty type other than the generic binary one, so the fallback applies only to unlisted extensions |
| FileBiblioteca.GuessMime | modules/FileBiblioteca.js:17-36 | the guessed type is never empty, and is the generic binary type exactly when the extension is not in the table |
| FileBiblioteca.GuessMimeOfName | modules/FileBiblioteca.js:17-36 | the type of `stem.ext` is the table's entry for `ext` in any letter case, and application/octet-stream for an unlisted extension |
| FileBiblioteca.GuessMimeIgnoresCase | newnerd-interface/js/FileBiblioteca.js:16-35 | the guessed type does not depend on the letter case of the name |
| FileBiblioteca.DocxText | modules/FileBiblioteca.js:94-114 | "" when the extractor is missing or fails, otherwise text with no leading or trailing white space |
| FileBiblioteca.NoTextExtension | modules/FileBiblioteca.js:44-55 | a name whose last character ends none of the text extensions has no text extension |
| FileBiblioteca.ExtractModules | modules/FileBiblioteca.js:38-92 | a text file yields a prefix of its content of at most 30000 characters, and null when it cannot be read; anything else yields the Word text, the skip marker or null |
| FileBiblioteca.ModulesClassifiesByName | modules/FileBiblioteca.js:69-85 | a .pdf name yields null and a .zip, .mp3 or .mp4 name yields the SKIP_AI marker, in any letter case |
| FileBiblioteca.ExtractInterface | newnerd-interface/js/FileBiblioteca.js:37-80 | a text type or extension reads the whole file; otherwise only a Word name or type yields anything, the Word text; there is no skip marker |
| FileBiblioteca.CopiesDifferOnMedia | newnerd-interface/js/FileBiblioteca.js:37-80 | the interface copy returns null for media files the shared module marks SKIP_AI |
| FileBiblioteca.CopiesAgreeOnText | newnerd-interface/js/FileBiblioteca.js:58-61 | on a text extension both copies read the file, and only the shared module truncates to 30000 characters |
| FileBiblioteca.InterfaceReadsByMime | newnerd-interface/js/FileBiblioteca.js:53-61 | only the interface copy reads a file whose MIME type is textual when its name has no known extension |
| UiBiblioteca.Escape | modules/UIBiblioteca.js:16-28 | the result holds no `<`, `>`, `"` or `'`, is never shorter, and a text without special characters is unchanged |
| UiBiblioteca.EscapeRoundTrip | newnerd-interface/js/UIBiblioteca.js:18-30 | decoding the entities back gives the original text: escaping loses nothing |
| UiBiblioteca.StatusBadge | modules/UIBiblioteca.js:30-41 | the badge is the span wrapping the status's label |
| UiBiblioteca.BadgeLabelsFaithful | modules/UIBiblioteca.js:31-40 | the six known statuses get six different labels, and any other status is shown verbatim |
| UiBiblioteca.TitleFallback | modules/UIBiblioteca.js:60-65 | the title is the first truthy entry of its fallback chain and is never empty |
| UiBiblioteca.RenderDocs | modules/UIBiblioteca.js:43-58 | nothing changes without a container; the empty state exactly for a missing or empty list; otherwise card i is the card of document i |
| UiBiblioteca.SemanticCards | modules/UIBiblioteca.js:66-71 | a card is semantic exactly when the document has a numeric score, and semantic cards omit the status line |
| UiBiblioteca.SnippetContent | modules/UIBiblioteca.js:75-81 | the snippet exists exactly when a text field is truthy, and decodes to at most the text's first 200 characters followed by "..." |
| UiBiblioteca.CopiesDifferOnPath | newnerd-interface/js/UIBiblioteca.js:44-128 | the two copies render the same title, flags and snippet; only the shared one falls back to `caminho_arquivo` and calls the given instance |
| Library.NewItems | newnerd-interface/js/biblioteca-professor.js:131-138 | one item per picked file, in order, each pending |
| Library.NewItemsPending | newnerd-interface/js/biblioteca-professor.js:160-166 | files just added are all picked up by the next upload of the pending items, after the earlier pending ones |
| Library.Sanitize | newnerd-interface/js/biblioteca-professor.js:179 | the clean name holds only accepted characters and is never longer than the original |
| Library.SanitizeCleanPrefix | newnerd-interface/js/biblioteca-professor.js:179 | a prefix of accepted characters is kept as it is |
| Library.SanitizeRun | newnerd-interface/js/biblioteca-professor.js:179 | a whole run of rejected characters, however long, becomes a single "_" |
| Library.SanitizeFixes | newnerd-interface/js/biblioteca-professor.js:179 | a name is unchanged exactly when it is already clean, and sanitising twice changes nothing more |
| Library.StoragePathShape | newnerd-interface/js/biblioteca-professor.js:180 | the storage path is in the owner's folder and its last segment is the timestamp, "_" and the clean name |
| Library.TextToSend | newnerd-interface/js/biblioteca-professor.js:236-242 | nothing for a .pdf path or an empty extraction, else a prefix of at most 30000 characters that is the whole text when it fits |
| Library.UploadEachAt | newnerd-interface/js/biblioteca-professor.js:166 | the i-th upload is the i-th pending item's, at its own time and with its own answer |
| Library.UploadInTurn | newnerd-interface/js/biblioteca-professor.js:160-168 | the loop uploads every pending item in turn, as the specification sequence says |
| Library.StatusMachine | newnerd-interface/js/biblioteca-professor.js:174-230 | an item starts "uploading", only moves forward, ends "ready" or "error", fails exactly when storage, the insert or (teacher only) the final update fails, and is "processing" exactly when the AI is not skipped |
| Library.EmbedCallShape | newnerd-interface/js/biblioteca-professor.js:207-257 | the embeddings call is made after a successful insert unless the file is marked SKIP_AI, names the storage path and the owner, and carries at most 30000 characters, none for a PDF |
| Library.Matchers | newnerd-interface/js/biblioteca-professor.js:282-293 | a type without a table entry matches on itself |
| Library.FilterByType | newnerd-interface/js/biblioteca-professor.js:295-300 | exactly the documents whose lower-cased name ends with, or whose type contains, one of the type's matchers |
| Library.TypeFilterCases | newnerd-interface/js/biblioteca-professor.js:282-300 | an unlisted type filters on itself, and a name ending in ".pdf" always passes the "pdf" tab |
| Library.TitleSearch | newnerd-interface/js/biblioteca-professor.js:376-380 | exactly the documents whose lower-cased title contains the lower-cased query |
| Library.EmptySearchKeepsAll | newnerd-interface/js/biblioteca-professor.js:376-380 | the empty query keeps every document |
| Library.IndexOf | newnerd-interface/js/biblioteca-professor.js:349-356 | -1 exactly when the key is absent from the map, else the position holding it |
| Library.PutKeeps | newnerd-interface/js/biblioteca-professor.js:350-351 | setting an entry keeps keys unique, adds its key, and keeps every score above the threshold |
| Library.AddKeywordKeeps | newnerd-interface/js/biblioteca-professor.js:353-357 | a keyword row adds its key at score 1.0 without duplicating keys or lowering other forced scores |
| Library.MergeAiFacts | newnerd-interface/js/biblioteca-professor.js:349-352 | the AI rows kept are exactly those at or above 0.45, each key once |
| Library.MergeKeywordShape | newnerd-interface/js/biblioteca-professor.js:353-357 | merging the keyword rows keeps keys unique and scores above the threshold, and adds exactly the keyword keys |
| Library.MergeKeywordForced | newnerd-interface/js/biblioteca-professor.js:353-357 | every keyword row's key ends at score 1.0 |
| Library.InsertByScoreSorted | newnerd-interface/js/biblioteca-professor.js:359-361 | inserting into a descending list keeps it descending and adds exactly the entry |
| Library.SortByScoreSorted | newnerd-interface/js/biblioteca-professor.js:359-361 | the sort is a permutation in descending score order |
| Library.MergeHits | newnerd-interface/js/biblioteca-professor.js:348-361 | the loops build the merged map and return it sorted, as the specification function says |
| Library.MergeMeaning | newnerd-interface/js/biblioteca-professor.js:348-361 | no key twice, every score at least 0.45, exactly the strong AI keys and the keyword keys, keyword keys at 1.0, descending order |
| Library.SemanticSearch | newnerd-interface/js/biblioteca-professor.js:305-370 | no search for a blank query, "nothing found" exactly when the merge is empty, else the sorted merge |
| BibliotecaProfessorPage.PerformSemanticSearch | newnerd-interface/js/biblioteca-professor.js:306-374 | no search for a blank query; otherwise the grid shows the sorted merge of the teacher's keyword and AI hits, or "Nada encontrado" when the merge is empty |
| BibliotecaProfessorPage.BibliotecaProfessor.constructor | newnerd-interface/js/biblioteca-professor.js:19-23 | the id is the development teacher id (or null) and the list and queue start empty |
| BibliotecaProfessorPage.BibliotecaProfessor.AddFiles | newnerd-interface/js/biblioteca-professor.js:131-140 | the queue gains one pending item per file, in order, and nothing else changes |
| BibliotecaProfessorPage.BibliotecaProfessor.LoadDocuments | newnerd-interface/js/biblioteca-professor.js:262-272 | without a teacher id nothing changes; otherwise the answer (or the empty list) becomes the list and is rendered |
| BibliotecaProfessorPage.BibliotecaProfessor.UploadAll | newnerd-interface/js/biblioteca-professor.js:160-172 | signs in when there is no id, stops when nothing is pending, else uploads each pending item in turn, empties the queue and reloads |
| BibliotecaProfessorPage.BibliotecaProfessor.ApplyTypeFilter | newnerd-interface/js/biblioteca-professor.js:275-302 | no type or "all" reloads the list; any other type shows exactly the documents its matchers accept, the list unchanged |
| BibliotecaProfessorPage.BibliotecaProfessor.HandleSearch | newnerd-interface/js/biblioteca-professor.js:376-382 | nothing changes without the grid, the empty state exactly when no title contains the query, else card i is the card of the i-th document whose title contains it |
| BibliotecaAlunoPage.LoadedView | aluno-interface/js/biblioteca-aluno.js:287-291 | each loaded row is adapted in place, one for one |
| BibliotecaAlunoPage.FilteredView | aluno-interface/js/biblioteca-aluno.js:374-377 | each filtered or searched row is adapted in place, one for one |
| BibliotecaAlunoPage.CardsLinkStoragePath | aluno-interface/js/biblioteca-aluno.js:287-291 | a loaded row links its own `caminho_arquivo`, and a filtered row does whenever it has one |
| BibliotecaAlunoPage.PerformSemanticSearch | aluno-interface/js/biblioteca-aluno.js:298-365 | no search for a blank query; otherwise the sorted merge of the student's keyword and AI hits, or "Nada encontrado" when it is empty |
| BibliotecaAlunoPage.BibliotecaAluno.constructor | aluno-interface/js/biblioteca-aluno.js:32-34 | no student id, and an empty list and queue |
| BibliotecaAlunoPage.BibliotecaAluno.EnsureAuth | aluno-interface/js/biblioteca-aluno.js:122-132 | the profile's id when it has one, else the id is kept |
| BibliotecaAlunoPage.BibliotecaAluno.AddFiles | aluno-interface/js/biblioteca-aluno.js:136-145 | the queue gains one pending item per file, in order, and nothing else changes |
| BibliotecaAlunoPage.BibliotecaAluno.LoadDocuments | aluno-interface/js/biblioteca-aluno.js:276-295 | without a student id nothing changes; otherwise the rows become the list and are rendered adapted |
| BibliotecaAlunoPage.BibliotecaAluno.UploadAll | aluno-interface/js/biblioteca-aluno.js:165-177 | signs in when there is no id, stops when nothing is pending, else uploads each pending item in turn, empties the queue and reloads |
| BibliotecaAlunoPage.BibliotecaAluno.ApplyTypeFilter | aluno-interface/js/biblioteca-aluno.js:489-520 | no type or "all" reloads; any other type shows exactly the adapted documents its matchers accept |
| BibliotecaAlunoPage.BibliotecaAluno.HandleSearch | aluno-interface/js/biblioteca-aluno.js:369-379 | nothing changes without the grid, the empty state exactly when no title contains the query, else card i is the card of the i-th matching document with its storage path as `caminho` |
| BibliotecaManagerPage.Admit | aluno-interface/js/biblioteca.js:133-168 | the queue only grows, by at most one item per offered file |
| BibliotecaManagerPage.AdmitSnoc | aluno-interface/js/biblioteca.js:136-167 | each offered file is skipped when the queue so far or the library holds it, else appended as pending |
| BibliotecaManagerPage.AdmitAdds | aluno-interface/js/biblioteca.js:137-167 | the queue stays free of duplicates and every added item is a pending copy of an offered file the library does not hold |
| BibliotecaManagerPage.AdmitCovers | aluno-interface/js/biblioteca.js:136-167 | every offered file ends up in the queue unless the library holds it |
| BibliotecaManagerPage.StatusClassCases | aluno-interface/js/biblioteca.js:204-213 | any status shows one of the five classes; an unknown status, including "gerando embeddings...", shows as pending |
| BibliotecaManagerPage.UploadFileStatuses | aluno-interface/js/biblioteca.js:252-328 | an upload starts "enviando...", ends "sucesso" or "erro", passes "gerando embeddings..." exactly when the row was inserted, and succeeds exactly when the row was inserted and the embeddings call, if any, went through |
| BibliotecaManagerPage.Chunks | aluno-interface/js/biblioteca.js:748-752 | as many slices as the text needs at 28000 characters each |
| BibliotecaManagerPage.ChunkText | aluno-interface/js/biblioteca.js:748-752 | the chunking loop yields exactly the consecutive 28000-character slices |
| BibliotecaManagerPage.ChunksRebuild | aluno-interface/js/biblioteca.js:748-752 | the slices put back together give the text; all but the last have exactly 28000 characters and none is empty |
| BibliotecaManagerPage.Entries | aluno-interface/js/biblioteca.js:760-769 | one request entry per chunk |
| BibliotecaManagerPage.GerarEmbeddings | aluno-interface/js/biblioteca.js:739-780 | the request sent is the one the specification function describes |
| BibliotecaManagerPage.EntryAt | aluno-interface/js/biblioteca.js:760-769 | entry k carries chunk k, its number k+1, the total, the document id and the title |
| BibliotecaManagerPage.EmbedBodyChunks | aluno-interface/js/biblioteca.js:739-780 | blank text sends nothing; otherwise the chunks are numbered 1 to n, each carries n, and their texts rebuild the text |
| BibliotecaManagerPage.FileIconOrder | aluno-interface/js/biblioteca.js:458-470 | the csv icon needs a type without "text", and the text icon goes to exactly the textual types that are not PDF or Word |
| BibliotecaManagerPage.Display | aluno-interface/js/biblioteca.js:400-456 | nothing without the grid, the empty state exactly for no documents, else card i is the card of document i, whose view button is enabled exactly when the document is not processing |
| BibliotecaManagerPage.TypeFiltered | aluno-interface/js/biblioteca.js:498-522 | the documents shown are drawn from the list and never more |
| BibliotecaManagerPage.TypeFilterCases | aluno-interface/js/biblioteca.js:498-522 | "all" and unknown types keep every document; a known type keeps exactly the documents its MIME test accepts |
| BibliotecaManagerPage.SearchedCases | aluno-interface/js/biblioteca.js:476-492 | a blank query keeps every document; any other keeps exactly those whose lower-cased title contains the lower-cased query |
| BibliotecaManagerPage.TotalSizeAppend | aluno-interface/js/biblioteca.js:690-693 | the total size splits over a concatenation |
| BibliotecaManagerPage.TotalSizeUnsized | aluno-interface/js/biblioteca.js:691 | documents without a size add nothing |
| BibliotecaManagerPage.TotalSizeNonNegative | aluno-interface/js/biblioteca.js:690-693 | non-negative sizes give a non-negative total |
| BibliotecaManagerPage.BibliotecaManager.constructor | aluno-interface/js/biblioteca.js:8-44 | the page starts for the signed-in user with an empty list and queue |
| BibliotecaManagerPage.BibliotecaManager.Stats | aluno-interface/js/biblioteca.js:684-695 | the count shown is the number of documents |
| BibliotecaManagerPage.BibliotecaManager.AddFilesToQueue | aluno-interface/js/biblioteca.js:133-177 | the queue becomes the admitted queue and the count added is exactly its growth |
| BibliotecaManagerPage.BibliotecaManager.LoadDocuments | aluno-interface/js/biblioteca.js:374-395 | an error leaves the list; otherwise the rows (or none) become the list and are displayed |
| BibliotecaManagerPage.BibliotecaManager.UploadAllFiles | aluno-interface/js/biblioteca.js:218-250 | with nothing pending nothing changes; otherwise every pending item is uploaded side by side and the queue is emptied |
| BibliotecaManagerPage.BibliotecaManager.ApplyTypeFilter | aluno-interface/js/biblioteca.js:498-522 | the grid shows the type-filtered documents |
| BibliotecaManagerPage.BibliotecaManager.HandleSearch | aluno-interface/js/biblioteca.js:476-492 | the grid shows the searched documents |
| BibliotecaManagerPage.UploadAllAtOnce | aluno-interface/js/biblioteca.js:235 | item k's upload happens at its own time with its own answers |
| EmbedFunction.CorsEchoesOrigin | supabase/functions/embed/index.ts:27-39 | since the allowed set holds "*", a non-empty origin is echoed and a missing one becomes "*" |
| EmbedFunction.NormChunk | supabase/functions/embed/index.ts:86-89 | a normalised chunk's text has at most 12000 characters |
| EmbedFunction.Normalized | supabase/functions/embed/index.ts:85-89 | one normalised entry per entry of `chunks[]`, in order |
| EmbedFunction.KeptChunks | supabase/functions/embed/index.ts:85-90 | never more chunks than entries |
| EmbedFunction.KeptChunksFilter | supabase/functions/embed/index.ts:85-90 | keeping entry by entry is the filter of the normalised entries by non-blank text |
| EmbedFunction.ChunksOfCases | supabase/functions/embed/index.ts:81-102 | no chunk exceeds 12000 characters; `chunks[]` keeps exactly its entries with non-blank cut text; `content` gives one chunk exactly when it is a non-blank string; anything else gives none |
| EmbedFunction.Texts | supabase/functions/embed/index.ts:140 | one model input per chunk |
| EmbedFunction.Scan | supabase/functions/embed/index.ts:183-197 | the index found lies between the start and the length |
| EmbedFunction.ScanFacts | supabase/functions/embed/index.ts:183-197 | every item before the index is an array embedding, and the item at the index, if any, is not |
| EmbedFunction.ScanStopsAt | supabase/functions/embed/index.ts:183-197 | the scan stops at the first item that is not an array embedding |
| EmbedFunction.FirstInvalid | supabase/functions/embed/index.ts:183-197 | the validation loop returns the first index whose item is not an array embedding, as the scan says |
| EmbedFunction.Rows | supabase/functions/embed/index.ts:200-212 | one row per chunk |
| EmbedFunction.AfterModel | supabase/functions/embed/index.ts:140-251 | after the model is called with exactly the chunk texts, rows are prepared only when it answered with enough array embeddings, and never a preflight or a 400 |
| EmbedFunction.Validated | supabase/functions/embed/index.ts:77-136 | the body's checks never answer as a preflight |
| EmbedFunction.ValidatedCalls | supabase/functions/embed/index.ts:107-140 | the model is called exactly when the body names a teacher and has text |
| EmbedFunction.ValidatedRejects | supabase/functions/embed/index.ts:107-136 | a body turned away by the checks gets a 400 and causes no write |
| EmbedFunction.Serve | supabase/functions/embed/index.ts:41-259 | the handler's steps with the validation loop give the answer the specification function gives |
| EmbedFunction.Handle | supabase/functions/embed/index.ts:41-259 | a preflight answers exactly OPTIONS, an unconfigured POST fails with nothing sent, the model is given inputs only for a configured POST naming a teacher with at least one chunk, and rows exist only after model inputs |
| EmbedFunction.MethodHandling | supabase/functions/embed/index.ts:45-54 | OPTIONS answers "ok", any method other than POST answers 405, and neither calls the model or the database |
| EmbedFunction.ValidationOrder | supabase/functions/embed/index.ts:107-136 | a missing teacher id is reported before missing text, both as 400 without calls; the model is called exactly when both are present |
| EmbedFunction.RowsPairChunks | supabase/functions/embed/index.ts:140-212 | the model gets exactly the chunk texts; rows are written only when every returned item is an array embedding, and row i pairs chunk i with embedding i |
| EmbedFunction.RowMetadata | supabase/functions/embed/index.ts:206-211 | a row's metadata keeps the chunk's own entries and adds the model, the dimension count and the time |
| EmbedFunction.InvalidIndexNamed | supabase/functions/embed/index.ts:183-196 | the first item that is not an array embedding yields a 500 naming its index, and nothing is written |
| EmbedFunction.SuccessCount | supabase/functions/embed/index.ts:237-251 | a 200 answers a POST whose rows were stored, and its count is the number of rows the database returned |
| EmbedFunction.ThrowingAnswers | supabase/functions/embed/index.ts:140-258 | a non-empty text in place of the embeddings makes the handler throw, and a null entry among the inserted rows leaves no success body and no 200; a model call that rejects or cannot be read is a 500 with its message and nothing written, and an insert call that does is a 500 with its message after the rows were sent |
| EmbedClients.PageCallsRejected | supabase/functions/embed/index.ts:77-120 | a library page's `{ record, text }` call names no teacher at the top level, so it always gets a 400 and nothing is embedded |
| EmbedClients.ManagerChunkCut | supabase/functions/embed/index.ts:83-90 | the manager's single chunk names the user and reaches the model cut to its first 12000 characters |
| EmbedClients.ManagerSingleEntry | aluno-interface/js/biblioteca.js:748-769 | a non-blank text of at most 28000 characters goes as a single entry holding all of it |
| EmbedClients.SingleEntryChunks | supabase/functions/embed/index.ts:83-90 | a one-entry `chunks[]` keeps that entry normalised, or nothing |
| EdgeHttp.AllowOrigin | supabase/functions/embed/index.ts:27-31 | the allowed origin is "*" or the request's own origin |
| EdgeHttp.AllowOriginEchoes | supabase/functions/generate-question/index.ts:26-30 | with "*" in the allowed set, a non-empty origin is echoed and a missing one becomes "*" |
| GenerateQuestionFunction.CorsHeaders | supabase/functions/generate-question/index.ts:26-38 | the allowed origin is the request's non-empty origin, else "*" |
| GenerateQuestionFunction.DefaultTipoAsWritten | supabase/functions/generate-question/index.ts:54-58 | the type is `tipo_questao`, else `tipo`, else "multipla_escolha", lower-cased; a `null` body or a non-string type throws |
| GenerateQuestionFunction.ParamsOf | supabase/functions/generate-question/index.ts:53-64 | no parameters exactly for a `null` body (reading a field of it throws) or a truthy non-string type; otherwise subject, grade and difficulty are truthy, the quantity is not nullish and the topic is truthy or "" |
| GenerateQuestionFunction.ParamsDefaults | supabase/functions/generate-question/index.ts:54-64 | subject, grade and difficulty default to truthy values, a missing type asks for multiple choice, the topic is `tema` else `mensagem`, and the quantity defaults to 1 only when missing |
| GenerateQuestionFunction.TipoLowerCase | supabase/functions/generate-question/index.ts:58 | the type passed on has no capital letters |
| GenerateQuestionFunction.StyleCycle | supabase/functions/generate-question/index.ts:75-91 | a non-negative seed picks style `seed mod 10`, cycling with period 10; a negative seed not divisible by 10 indexes past the list |
| GenerateQuestionFunction.FormatFor | supabase/functions/generate-question/index.ts:94-170 | there is no type-specific format exactly for a type other than discursiva, multipla_escolha and verdadeiro_falso |
| GenerateQuestionFunction.PluralCases | supabase/functions/generate-question/index.ts:177 | a count given as a number or as its decimal text is plural exactly when it exceeds one; a missing or null count is not |
| GenerateQuestionFunction.ReshapeCases | supabase/functions/generate-question/index.ts:236-251 | an array is kept, a truthy `questoes` is taken, any other non-null value becomes a one-question list, and null fails |
| GenerateQuestionFunction.Stamped | supabase/functions/generate-question/index.ts:257-262 | one stamped question per question |
| GenerateQuestionFunction.StampedQuestions | supabase/functions/generate-question/index.ts:254-262 | every question carries the same token count and "openai" and keeps its other properties |
| GenerateQuestionFunction.Rows | supabase/functions/generate-question/index.ts:269-289 | one question row per question |
| GenerateQuestionFunction.EmbeddingRows | supabase/functions/generate-question/index.ts:302-326 | one embedding row per question row |
| GenerateQuestionFunction.RowFallbacks | supabase/functions/generate-question/index.ts:269-326 | type, subject, grade and difficulty come from the question or else the request, so are never empty, and the embedding row points back at its question by id and holds its statement |
| GenerateQuestionFunction.AfterChat | supabase/functions/generate-question/index.ts:200-345 | after the model call, rows are written exactly together with embedding rows, and only for a teacher with a parsed, reshaped answer |
| GenerateQuestionFunction.Posted | supabase/functions/generate-question/index.ts:52-74 | a POST body is never answered as a preflight or a 405 |
| GenerateQuestionFunction.Handle | supabase/functions/generate-question/index.ts:43-353 | the status is 200, 400, 405, 500 or 502; the model is called only for a POST with readable parameters, rows are written only after it and always with their embedding rows, and an unreadable body is answered with the thrown error |
| GenerateQuestionFunction.MethodHandling | supabase/functions/generate-question/index.ts:43-50 | OPTIONS alone gets the preflight, any other non-POST gets a 405, and neither reaches the model |
| GenerateQuestionFunction.TemaRequired | supabase/functions/generate-question/index.ts:59-73 | a 400 exactly when the topic of a readable body is missing, and then neither the model nor the database is called; a `null` body is answered 500 by the catch at lines 347-352 |
| GenerateQuestionFunction.ThrowingCall | supabase/functions/generate-question/index.ts:202-352 | a model call that rejects or cannot be read is a 500 with the exception's message, after the prompt was sent and with nothing written |
| GenerateQuestionFunction.SuccessShape | supabase/functions/generate-question/index.ts:236-345 | a success lists the reshaped questions, each with the same token count, and rows are written exactly when a teacher is named |
| GenerateQuestionFunction.RowsNeedTeacher | supabase/functions/generate-question/index.ts:264-289 | rows are written only for a teacher id, and row i is built from stamped question i |
| ProcessFileFunction.Collapse | supabase/functions/process-file/index.ts:66 | collapsing white space never lengthens the text |
| ProcessFileFunction.CollapseStart | supabase/functions/process-file/index.ts:66 | the collapsed text starts with a space exactly when the text does |
| ProcessFileFunction.CollapseVisible | supabase/functions/process-file/index.ts:66 | collapsing keeps every visible character, in order |
| ProcessFileFunction.CollapseSingle | supabase/functions/process-file/index.ts:66 | after collapsing, white space occurs only as single plain spaces |
| ProcessFileFunction.TrimIsSlice | supabase/functions/process-file/index.ts:66 | trimming cuts only white space off both ends |
| ProcessFileFunction.TrimVisible | supabase/functions/process-file/index.ts:66 | trimming keeps every visible character |
| ProcessFileFunction.CleanTextFacts | supabase/functions/process-file/index.ts:66 | the cleaned text has at most 8000 characters, no white space at either end, only single spaces inside, and every visible character of the first 8000 in order |
| ProcessFileFunction.AfterDownload | supabase/functions/process-file/index.ts:65-117 | after the download of the path, the answer is never a preflight |
| ProcessFileFunction.AfterBody | supabase/functions/process-file/index.ts:32-62 | the body's checks never answer as a preflight |
| ProcessFileFunction.Handle | supabase/functions/process-file/index.ts:14-128 | an unconfigured call fails as not configured and an empty body as an empty body, both touching nothing; an update or an embedding happens only after a download for a configured call whose body names the document, the table and the bucket |
| ProcessFileFunction.PreflightFirst | supabase/functions/process-file/index.ts:14-17 | OPTIONS alone answers "ok" and touches nothing; every other answer that is not a 200 is a 500 failure |
| ProcessFileFunction.FieldsRequired | supabase/functions/process-file/index.ts:35-40 | a body missing any of the three fields is a 500 before any read, download or write |
| ProcessFileFunction.PathFallback | supabase/functions/process-file/index.ts:52-56 | a falsy row is reported as not found; the path downloaded is `caminho`, else `caminho_arquivo`, else `path`, and a row with none is a 500 with nothing downloaded |
| ProcessFileFunction.ThrowingCall | supabase/functions/process-file/index.ts:86-126 | an embedding call that rejects or cannot be read is a 500 with the exception's message, after the cleaned text was sent and with no update |
| ProcessFileFunction.ShortTextIgnored | supabase/functions/process-file/index.ts:68-82 | a cleaned text under 10 characters is answered "Ignored" without an embedding, and only marks the row ready on the teacher's table |
| ProcessFileFunction.ReadyOnlyForProfessor | supabase/functions/process-file/index.ts:104-112 | status "ready" is written exactly on the teacher's table, and a processed row also gets the vector and the cleaned text |
| ChatIaFunction.AllowedOriginCases | supabase/functions/chat-ia/index.ts:7-25 | an origin is allowed exactly when it parses and its hostname is a loopback name; a missing or unparsable origin never is |
| ChatIaFunction.CorsHeaders | supabase/functions/chat-ia/index.ts:27-44 | the allowed origin is the origin when trusted, else empty, and the requested headers are echoed or defaulted |
| ChatIaFunction.Handle | supabase/functions/chat-ia/index.ts:46-130 | CORS headers are missing exactly for a preflight from an untrusted origin; what is sent to the model is the prompt built from the request body, and an answer comes only from a successful completion of a sent prompt |
| ChatIaFunction.PromptChoice | supabase/functions/chat-ia/index.ts:87-102 | only the role "tutor_estudos" selects the Socratic prompt; the caller's message array follows it unchanged, a missing one gives no messages and a string gives one message per character; a readable body is non-null with `mensagens` missing, an array or a string |
| ChatIaFunction.ReplyDefaults | supabase/functions/chat-ia/index.ts:113-115 | the reply text defaults to "" and the tokens to 0, while present values pass through, even falsy ones |
| ChatIaFunction.PreflightCases | supabase/functions/chat-ia/index.ts:53-58 | a preflight from an untrusted origin gets a bare 204, from a trusted one a 200 with CORS headers |
| ChatIaFunction.DecisionOrder | supabase/functions/chat-ia/index.ts:60-106 | any method but POST is a 405, an untrusted POST is a 403 whose body is never read, and the model is called only for a trusted POST |
| ChatIaFunction.AnswerShape | supabase/functions/chat-ia/index.ts:113-120 | a 200 carries the model's text or "" and its token count or 0 |
| ChatIaFunction.ThrowingCall | supabase/functions/chat-ia/index.ts:94-128 | a model call that rejects or cannot be read is a 500 with the exception's message and the CORS headers, after the messages were sent |
| StudentAnswers.AnswerIndex | aluno-interface/js/questao.js:77 | -1 exactly when no answer names the question, else the first position whose answer does |
| StudentAnswers.FindAnswer | aluno-interface/js/questao.js:77 | none exactly when no answer names the question, else the first answer that does |
| StudentAnswers.NumberOf | aluno-interface/js/questao.js:297 | `Number` gives NaN for undefined and 0 for null, 0 for blank text, and a one-number array's number |
| StudentAnswers.NumberOfTrims | aluno-interface/js/questao.js:297 | text reads as its trimmed text does, so white space around a number is ignored |
| StudentAnswers.NumberOfIntText | aluno-interface/js/questao.js:297 | `Number` reads the printed text of any integer back as that integer, so a grade sent as text counts at its value |
| StudentAnswers.Passes | aluno-interface/js/questao.js:297-298 | an answer passes only when it has a truthy grade (a missing grade counts as 0) |
| StudentAnswers.PassCases | aluno-interface/js/questao.js:297-298 | a missing grade counts as 0 and fails; a grade given as a number, as the text of one or as a one-number array passes exactly from 6 up |
| StudentAnswers.MeanOrZero | aluno-interface/js/questao.js:376-388 | "-" exactly for no answers, else the sum of the grades (each read by `Number`, unreadable ones as 0) over the count |
| StudentAnswers.GradeSumBounds | aluno-interface/js/questao.js:382 | grades on the 0 to 10 scale sum to between 0 and 10 times the count |
| StudentAnswers.MeanOnScale | aluno-interface/js/questao.js:380-384 | when every grade lies on the 0 to 10 scale, so does the mean |
| StudentAnswers.UngradedCountsZero | aluno-interface/js/questao.js:382 | an answer without a grade adds nothing to the sum |
| StudentAnswers.CoercedMean | aluno-interface/js/painel.js:136-145 | "-" exactly for no answers, else a mean that is NaN exactly when some grade cannot be read by `Number` |
| StudentAnswers.GradeAgrees | aluno-interface/js/painel.js:139 | on a readable grade, the activity page (questao.js:382) and the panel read the same number, a missing grade falling back to 0 before or after the conversion |
| StudentAnswers.CoercedSumNaN | aluno-interface/js/painel.js:139 | the panel's sum is NaN exactly when some grade cannot be read |
| StudentAnswers.SumsAgree | aluno-interface/js/painel.js:139 | when every grade can be read the panel's sum equals the activity page's |
| StudentAnswers.MeansAgree | aluno-interface/js/painel.js:136-145 | when every grade can be read the two pages show the same mean |
| StudentAnswers.MeansDiffer | aluno-interface/js/painel.js:139 | a non-numeric grade makes the panel's mean NaN where the activity page counts it as 0 |
| QuestaoPage.TipoLabelSpaces | aluno-interface/js/questao.js:92 | the type label has the type's length, no "_", and every other character kept |
| QuestaoPage.ResumoCases | aluno-interface/js/questao.js:87-90 | a statement over 80 characters shows its first 80 and "...", a shorter one shows whole |
| QuestaoPage.CardAnswered | aluno-interface/js/questao.js:77-101 | a card is marked answered exactly when some answer names its question, and then holds one of the answers |
| QuestaoPage.CardsFor | aluno-interface/js/questao.js:76-121 | one card per question, in order |
| QuestaoPage.BuildCards | aluno-interface/js/questao.js:76-121 | the loop appends exactly one card per question, the i-th card built from the i-th question |
| QuestaoPage.GridFor | aluno-interface/js/questao.js:66-121 | the empty message exactly for no questions, else the cards |
| QuestaoPage.OptionsOf | aluno-interface/js/questao.js:159-170 | one radio per alternative whose value has `"` escaped and whose label is the text |
| QuestaoPage.WidgetFor | aluno-interface/js/questao.js:134-180 | true/false wins over multiple choice, multiple choice gives one radio per alternative or the missing-alternatives error, anything else a text area, and no radio value holds a bare `"` |
| QuestaoPage.OptionsUnquoted | aluno-interface/js/questao.js:159-166 | escaping `"` as `&quot;` leaves no bare `"` in any radio value |
| QuestaoPage.Payload | aluno-interface/js/questao.js:191-224 | a blank answer writes nothing; otherwise the row is pending, holds the answer as text, and as the chosen alternative only when a radio was picked |
| QuestaoPage.CorrectedFields | aluno-interface/js/questao.js:274-280 | a corrected answer is no longer pending, has the correction's grade, and keeps every other field |
| QuestaoPage.Send | aluno-interface/js/questao.js:191-294 | nothing is sent for a blank answer, a failed insert shows the error, and the result is corrected exactly when the webhook answered |
| QuestaoPage.ResultFor | aluno-interface/js/questao.js:296-350 | a pending answer shows the waiting heading, otherwise the heading says whether the grade reached 6; the official answer and the improvement points show only when present |
| QuestaoPage.EmptyFiltersKeepAll | aluno-interface/js/questao.js:390-401 | with both filters empty every question stays, in order |
| QuestaoPage.FilteredMembers | aluno-interface/js/questao.js:393-399 | a question is shown exactly when it is loaded and matches both filters |
| QuestaoPage.QuestoesQuery | aluno-interface/js/questao.js:43-50 | the query always restricts to the student's grade and to the teacher exactly when the profile names one |
| QuestaoPage.QuestaoPage.constructor | aluno-interface/js/questao.js:1-31 | the page starts with the profile, no questions, answers or current question, and nothing drawn |
| QuestaoPage.QuestaoPage.CarregarDados | aluno-interface/js/questao.js:33-63 | the answers are always taken; a failing question query keeps the questions and shows the error, else the loaded questions are drawn |
| QuestaoPage.QuestaoPage.RenderizarGrid | aluno-interface/js/questao.js:66-121 | the grid becomes the empty message or one card per question, and nothing else changes |
| QuestaoPage.QuestaoPage.AbrirQuestao | aluno-interface/js/questao.js:124-188 | the question becomes the current one and its widget is drawn |
| QuestaoPage.QuestaoPage.AplicarFiltros | aluno-interface/js/questao.js:390-401 | the matching loaded questions are drawn while the loaded list stays |
| PainelPage.TipoBadgeFirstOnly | aluno-interface/js/painel.js:96-98 | the badge turns only the type's first "_" into a space, and a type without "_" shows as it is |
| PainelPage.TipoBadgeKeepsSecond | aluno-interface/js/painel.js:96-98 | a type with two "_" keeps the second on the panel, where the activity page replaces both |
| PainelPage.PreviewShape | aluno-interface/js/painel.js:111-113 | the preview is the statement's first 100 characters (or all of a shorter one) followed by "..." |
| PainelPage.CardsFor | aluno-interface/js/painel.js:86-124 | one card per question, in order |
| PainelPage.SameAnsweredFlag | aluno-interface/js/painel.js:88 | the panel and the activity page mark the same questions answered, with the same answer |
| PainelPage.FilterCases | aluno-interface/js/painel.js:153-164 | with no filter every question stays in order; otherwise a question stays exactly when it matches both filters |
| PainelPage.PanelQuery | aluno-interface/js/painel.js:38-51 | no query at all without a teacher; with one, exactly the two filters on the teacher and on the grade |
| PainelPage.NoTeacherDiffers | aluno-interface/js/painel.js:38-45 | without a teacher the panel makes no query, and so keeps no question, while the activity page still queries the whole grade |
| PainelPage.TeacherQueriesAgree | aluno-interface/js/painel.js:46-51 | with a teacher, the panel asks for the same two filters as the activity page |
| PainelPage.PainelPage.constructor | aluno-interface/js/painel.js:1-36 | the page starts with the profile, no questions or answers, and nothing drawn |
| PainelPage.PainelPage.CarregarQuestoes | aluno-interface/js/painel.js:38-59 | the database is asked exactly when the profile names a teacher; no teacher, an error or a non-array answer leave the list empty |
| PainelPage.PainelPage.CarregarRespostas | aluno-interface/js/painel.js:61-74 | the answers, or the empty list on an error or a non-array answer |
| PainelPage.PainelPage.ExibirQuestoes | aluno-interface/js/painel.js:76-125 | the empty message for no questions, else one full card per loaded question |
| PainelPage.PainelPage.AplicarFiltros | aluno-interface/js/painel.js:153-211 | the matching questions as short cards, or the no-match message; the loaded list stays |
| ResponderPage.EscapeHtmlAppend | aluno-interface/js/responder.js:211-218 | escaping a concatenation escapes each part |
| ResponderPage.EscapeHtmlChar | aluno-interface/js/responder.js:211-218 | each character becomes its own entity, and no later pass touches an entity |
| ResponderPage.EscapeHtmlEach | aluno-interface/js/responder.js:211-218 | the five passes in order amount to replacing each character by its entity once |
| ResponderPage.EscapeHtmlRoundTrip | aluno-interface/js/responder.js:211-218 | since "&" goes first nothing is escaped twice, and decoding the entities gives the text back |
| ResponderPage.KeptLines | aluno-interface/js/responder.js:105-108 | the kept lines are never more than the lines, and each is non-empty with no white space at either end |
| ResponderPage.AlternativesCases | aluno-interface/js/responder.js:97-110 | the first truthy of the four fields is taken, and a string that is not JSON becomes its trimmed, non-empty lines without line breaks |
| ResponderPage.KeptLinesFromPieces | aluno-interface/js/responder.js:105-108 | a kept line holds no line break when the lines hold none |
| ResponderPage.OptionTexts | aluno-interface/js/responder.js:118-128 | the escaped text of every alternative, in order |
| ResponderPage.WidgetFor | aluno-interface/js/responder.js:112-148 | multiple choice without a usable list falls back to the text area and with one shows each alternative escaped; true/false gives its two radios; anything else a text area |
| ResponderPage.OptionsRoundTrip | aluno-interface/js/responder.js:120-127 | reading the entities back out of each escaped alternative gives its text |
| ResponderPage.HeaderCases | aluno-interface/js/responder.js:61-66 | only the first "_" of the type becomes a space; a missing statement shows "—" and a missing subject or grade "" |
| ResponderPage.Open | aluno-interface/js/responder.js:19-80 | no profile, no question id, or the question shown with its header and widget, each exactly in its case |
| ResponderPage.ElapsedSeconds | aluno-interface/js/responder.js:157-160 | at least one second, and exactly one when the timer never started |
| ResponderPage.BlankAnswersDiffer | aluno-interface/js/responder.js:163-171 | an answer of spaces is sent here, while the activity page refuses it |
| ResponderPage.Submit | aluno-interface/js/responder.js:151-207 | nothing is sent exactly for an empty answer; a failed send (no reply) gives the button back; a reply with a truthy `resposta_id`, else `id`, opens exactly that result page, and a reply with neither sends the student back to the panel |
| ResultadoPage.Passes3Append | aluno-interface/js/resultado.js:119-124 | the three passes over a concatenation escape each part |
| ResultadoPage.Passes3Each | aluno-interface/js/resultado.js:119-124 | the passes replace each "&", "<" and ">" by its entity once and leave every other character, quotes included |
| ResultadoPage.EscapeHtmlRoundTrip | aluno-interface/js/resultado.js:119-124 | a falsy value shows as nothing, any other as its text, which decoding recovers; quotes stay unescaped |
| ResultadoPage.Render | aluno-interface/js/resultado.js:44-116 | a missing question draws nothing; otherwise the page passes exactly with a passing grade, says correct exactly when `correta` is truthy, shows the key only with a key and the feedback only with some, and offers the contest for the answer's own id |
| ResultadoPage.RenderGrade | aluno-interface/js/resultado.js:44-47 | the page passes exactly from grade 6, and a missing grade counts as 0 and fails |
| ResultadoPage.RenderBlocks | aluno-interface/js/resultado.js:78-103 | the key shows only with a key, its justification only with one, and the feedback only when there is some |
| ResultadoPage.ShownAsIs | aluno-interface/js/resultado.js:119-124 | a non-empty text without "&", "<" or ">" is shown as it is |
| ResultadoPage.NoAnswerCase | aluno-interface/js/resultado.js:50-51 | with neither an alternative nor a text the page says "Sem resposta" |
| ResultadoPage.RenderAnswer | aluno-interface/js/resultado.js:50-51 | the student's answer shown is the alternative, else the text |
| ResultadoPage.NoEntities | aluno-interface/js/resultado.js:119-124 | a text without "&", "<" or ">" escapes to itself |
| ResultadoPage.Open | aluno-interface/js/resultado.js:3-42 | a missing id asks nothing and shows the error; otherwise the id is queried; the page is shown exactly when the id is present and a row with a non-null question came back, and then shows that row's rendering |
| HistoryPage.ItemCases | newnerd-interface/js/history.js:25-54 | the preview is the first 80 characters and "..."; a missing discipline shows "Geral" and a missing date "Sem data"; grade and difficulty appear only when set |
| HistoryPage.RenderItems | newnerd-interface/js/history.js:25-54 | the loop appends exactly one entry per record, as the specification sequence says |
| HistoryPage.SkipIsFilter | newnerd-interface/js/history.js:143-150 | skipping a filter whose test accepts everything is the same as applying it |
| HistoryPage.FilteredHistory | newnerd-interface/js/history.js:134-177 | never more records than the history; every record kept passes the type, discipline and date filters, and every record that passes them is kept |
| HistoryPage.StageFacts | newnerd-interface/js/history.js:140-170 | a filter that is applied keeps only what it tests true and drops nothing it tests true, and a skipped one keeps everything |
| HistoryPage.FilteredHistoryIsOneFilter | newnerd-interface/js/history.js:134-177 | the filters in sequence keep exactly the records passing the combined test, in stored order |
| HistoryPage.ThreeFilters | newnerd-interface/js/history.js:143-176 | three filters in a row are one filter by their conjunction |
| HistoryPage.NoFilterKeepsAll | newnerd-interface/js/history.js:134-177 | with no filter chosen, or an unknown period, the whole history stays |
| HistoryPage.Search | newnerd-interface/js/history.js:250-276 | none exactly for a blank term, else the records in which the term occurs |
| HistoryPage.SearchMembers | newnerd-interface/js/history.js:262-272 | a record is found exactly when the lower-cased term occurs in its statement, discipline or type |
| HistoryPage.HistoryPage.constructor | newnerd-interface/js/history.js:8-12 | the page starts over the store with nothing drawn and no current question |
| HistoryPage.HistoryPage.LoadHistory | newnerd-interface/js/history.js:8-58 | the "nothing yet" placeholder for an empty history, else one entry per stored record |
| HistoryPage.HistoryPage.DisplayFiltered | newnerd-interface/js/history.js:182-229 | the "none found" placeholder, or one entry per record |
| HistoryPage.HistoryPage.LoadQuestionFromHistory | newnerd-interface/js/history.js:63-79 | found exactly when a record has the id, and then the first such record becomes current; otherwise nothing changes |
| HistoryPage.HistoryPage.DeleteQuestion | newnerd-interface/js/history.js:84-103 | nothing happens unless confirmed; the record is removed and the list redrawn exactly when the write succeeds |
| HistoryPage.HistoryPage.ClearHistory | newnerd-interface/js/history.js:108-129 | nothing happens unless confirmed; on success the history is empty, the placeholder shows and the result panel closes |
| HistoryPage.HistoryPage.ApplyFilters | newnerd-interface/js/history.js:134-177 | the list shows the stored history narrowed by the chosen filters |
| HistoryPage.HistoryPage.SearchQuestions | newnerd-interface/js/history.js:250-276 | a blank term draws the whole history, any other the records it is found in |
| SupabaseManager.ExcerptCases | aluno-interface/js/supabase-manager.js:248-250 | a falsy content gives ""; a content of at most 300 characters is kept whole; a longer one gives its first 300 and "..." |
| SupabaseManager.FormatarResultados | aluno-interface/js/supabase-manager.js:244-257 | one hit per row, in the rows' order |
| SupabaseManager.HitFields | aluno-interface/js/supabase-manager.js:245-256 | each hit keeps its row's ids; the full text is the content or ""; the title falls back to "Sem título"; a falsy similarity shows "N/A" |
| SupabaseManager.FormatAppend | aluno-interface/js/supabase-manager.js:244-257 | formatting a concatenation formats each part, so no row is dropped, added or moved |
| SupabaseManager.BuscarBibliotecaSemantica | aluno-interface/js/supabase-manager.js:192-239 | the search is called exactly when the options can be read and the embedding succeeded, with the query's embedding and the student; it succeeds exactly when the call answers data that is not null, with that data; null data fails with the error thrown by `data.length` |
| SupabaseManager.SemanticDefaults | aluno-interface/js/supabase-manager.js:193 | without options the call uses threshold 0.3 and ten matches, and a given option is passed unchanged |
| SupabaseManager.DocumentsQuery | aluno-interface/js/supabase-manager.js:124-139 | the query always restricts to the student and has at most three conditions; reading null filters throws |
| SupabaseManager.QueryConditions | aluno-interface/js/supabase-manager.js:131-138 | the type condition is present exactly when a type is given, the title pattern exactly when a search text is given, wrapped in "%" |
| SupabaseManager.BuscarDocumentos | aluno-interface/js/supabase-manager.js:124-151 | the rows, or [] for a null answer; an error is passed on |
| SupabaseManager.UploadPath | aluno-interface/js/supabase-manager.js:61-62 | the path starts in the student's folder and ends with "_" and the file's name |
| SupabaseManager.Manager.constructor | aluno-interface/js/supabase-manager.js:12-13 | no client and not set up |
| SupabaseManager.Manager.Initialize | aluno-interface/js/supabase-manager.js:16-45 | the first call creates the client from the URL and key; any later call changes nothing |
| SupabaseManager.InitializeAll | aluno-interface/js/supabase-manager.js:16-17 | over any sequence of set-up calls, the client is the first call's, and there is none without a call |
| ChatHistory.Reverse | aluno-interface/js/chat-ia-aluno.js:204 | the reversal has the same length and reads the sequence backwards |
| ChatHistory.NewestFirst | aluno-interface/js/chat-ia-aluno.js:197-202 | the query returns the min(n, count) newest messages, newest first |
| ChatHistory.Chronological | aluno-interface/js/chat-ia-aluno.js:204 | reversing the query's answer gives the newest messages in the order they were written |
| ChatHistory.FromRows | aluno-interface/js/chat-ia-aluno.js:204-207 | one chat message per row, in order |
| ChatHistory.HistoryFromQuery | aluno-interface/js/chat-ia-aluno.js:197-207 | the history holds at most six messages, the session's newest, oldest first, each "usuario" row as the user's and every other as the assistant's |
| ChatHistory.AsValues | newnerd-interface/js/chat-ia-professor.js:218-220 | one `{ role, content }` object per message, in order |
| ChatHistory.Saved | aluno-interface/js/chat-ia-aluno.js:158-163 | a successful write appends the user's row and a failed one leaves the rows as they were |
| ChatHistory.Replayed | aluno-interface/js/chat-ia-aluno.js:122-124 | one bubble per stored row, with its content and sender, in order |
| ChatHistory.LoadedCases | aluno-interface/js/chat-ia-aluno.js:116-125 | an empty session shows only the welcome; any other shows its messages, each with its content |
| ChatHistory.CurrentMessageRepeated | aluno-interface/js/chat-ia-aluno.js:156-214 | when the write succeeds, the user's message is both the history's last entry and the final message sent, so the model reads it twice |
| ChatAluno.Request | aluno-interface/js/chat-ia-aluno.js:204-214 | the request is the system prompt, then the history in order, then the new message as the user's |
| ChatAluno.RequestShape | aluno-interface/js/chat-ia-aluno.js:196-214 | with the queried history the request holds at most eight messages, exactly eight once six are stored, and only its first is a system message |
| ChatAluno.ChamarIA | aluno-interface/js/chat-ia-aluno.js:186-236 | without a local or global key nothing is sent and the call fails with the missing-key message; with one the request is sent, and the call succeeds exactly when the model answers |
| ChatAluno.BubbleIsReply | aluno-interface/js/chat-ia-aluno.js:176-182 | the bubble after the user's is the model's reply or "Erro: " with the error's message, the missing-key error when no key is set |
| ChatAluno.ExchangeFacts | aluno-interface/js/chat-ia-aluno.js:155-183 | one exchange sends the request over the history read back after the message was stored, shows the reply bubble, and keeps the message and a stored reply |
| ChatAluno.RecoveryReplays | aluno-interface/js/chat-ia-aluno.js:141-148 | a recovery ends with a session exactly when `iniciarSessao` opened one with a truthy id; the page then holds that session's rows and its replay, or no rows and the welcome alone for a new session; a recovery without a session keeps the box |
| ChatAluno.ChatAlunoPage.constructor | aluno-interface/js/chat-ia-aluno.js:1 | a new page has no session, no stored message and an empty box |
| ChatAluno.ChatAlunoPage.IniciarSessao | aluno-interface/js/chat-ia-aluno.js:71-101 | the active session is opened with its messages, else a student session is inserted and opened empty; a failed insert changes nothing; the box is then replayed |
| ChatAluno.ChatAlunoPage.CarregarHistorico | aluno-interface/js/chat-ia-aluno.js:103-126 | without a session the box is kept; with one it shows the stored messages, or the welcome for an empty session |
| ChatAluno.ChatAlunoPage.Recover | aluno-interface/js/chat-ia-aluno.js:12-45 | the session, rows and box become those of the session `iniciarSessao` opens, replayed, when the start reaches it; otherwise nothing changes |
| ChatAluno.ChatAlunoPage.EnviarMensagem | aluno-interface/js/chat-ia-aluno.js:129-184 | a blank input sends nothing and changes nothing; a lost session is first recovered, which replaces the rows and the box with the recovered session's; a page still without a session sends nothing and keeps the box; otherwise the exchange runs with the trimmed message on the recovered rows and box |
| ChatAluno.ChatAlunoPage.Send | aluno-interface/js/chat-ia-aluno.js:138-184 | the session is kept or becomes the recovered one; without a session after that nothing is sent and the box is kept; with one the request is sent over the recovered rows, and the box and the rows are the recovered ones extended by the exchange |
| ChatAluno.ChatAlunoPage.Exchange | aluno-interface/js/chat-ia-aluno.js:150-183 | the session is kept; the model is sent the history read back (none when the read fails) and the message exactly when a key exists; the message's bubble is followed by the reply, the model's error or the missing-key error; the message is stored when its insert succeeds and the reply when it came and its own insert succeeds |
| ChatProfessor.NextAttempt | newnerd-interface/js/chat-ia-professor.js:33-41 | another attempt is scheduled exactly while fewer than five were made, and it is the next one |
| ChatProfessor.AttemptsBounded | newnerd-interface/js/chat-ia-professor.js:16-41 | a start without a client is tried at most six times in all, numbered consecutively up to five |
| ChatProfessor.NewSession | newnerd-interface/js/chat-ia-professor.js:110-118 | the new session belongs to the teacher, and the edge function reads its context as the teaching assistant |
| ChatProfessor.JoinStarts | newnerd-interface/js/chat-ia-professor.js:143-149 | joined pieces begin with the first piece |
| ChatProfessor.FirstNameCases | newnerd-interface/js/chat-ia-professor.js:143-149 | the first name is empty for a missing name, otherwise a prefix of the name without a space, the whole name when it has no space |
| ChatProfessor.NoSeparatorOnePiece | newnerd-interface/js/chat-ia-professor.js:146 | splitting a text without the separator gives the text alone |
| ChatProfessor.GreetingShown | newnerd-interface/js/chat-ia-professor.js:140-150 | an empty session shows exactly one message, the greeting with the teacher's first name |
| ChatProfessor.Messages | newnerd-interface/js/chat-ia-professor.js:208-213 | the messages are the history in order followed by the new message as the user's |
| ChatProfessor.MessagesShape | newnerd-interface/js/chat-ia-professor.js:200-213 | with the queried history at most seven messages go out: the newest stored ones in the order written, then the new one |
| ChatProfessor.BodyAsReceived | newnerd-interface/js/chat-ia-professor.js:217-225 | the edge function reads the body sent as the teaching assistant's conversation with exactly these messages |
| ChatProfessor.ChamarIAProfessor | newnerd-interface/js/chat-ia-professor.js:199-253 | the invoke's reply is used exactly when it neither fails nor carries an error; otherwise the direct request's outcome decides |
| ChatProfessor.FallbackOrder | newnerd-interface/js/chat-ia-professor.js:226-252 | a failed invoke or one whose data carries an error falls back to the direct request; a direct request that fails or carries an error is an error |
| ChatProfessor.ReplyBubble | newnerd-interface/js/chat-ia-professor.js:189-196 | the bubble is the assistant's: the reply, or "Erro ao processar." for any error |
| ChatProfessor.RecoveryReplays | newnerd-interface/js/chat-ia-professor.js:164-167 | a send that recovers a session holds that session's rows and its replay, the greeting alone for a new session; a recovery without a session keeps the box; a start under way changes nothing |
| ChatProfessor.ChatProfessorPage.constructor | newnerd-interface/js/chat-ia-professor.js:3-4 | a new page is not starting, has no client, teacher or session, and shows nothing |
| ChatProfessor.ChatProfessorPage.TentarIniciar | newnerd-interface/js/chat-ia-professor.js:16-59 | nothing happens while starting or once started; without a client the next attempt is scheduled; with one the teacher is checked and the session opened; the client, teacher, session, rows and box become Restarted of the old ones |
| ChatProfessor.ChatProfessorPage.IniciarSessao | newnerd-interface/js/chat-ia-professor.js:100-129 | the active session is opened with its messages, else a teacher session is inserted and opened empty; a failed insert changes nothing; the box is then replayed |
| ChatProfessor.ChatProfessorPage.CarregarHistorico | newnerd-interface/js/chat-ia-professor.js:131-155 | without a session the box is kept; with one it shows the stored messages, or the greeting for an empty session |
| ChatProfessor.ChatProfessorPage.Exchange | newnerd-interface/js/chat-ia-professor.js:169-197 | the message is shown; without a client the error bubble follows and nothing is stored; with one the edge function gets the queried history and the message, its reply is shown, and the message and a successful reply are stored |
| ChatProfessor.ChatProfessorPage.EnviarMensagem | newnerd-interface/js/chat-ia-professor.js:157-198 | a blank input changes nothing; without a client or a session `tentarIniciar` runs first and the rows and box become the recovered session's; a page still without a session sends nothing and keeps the box; otherwise the exchange runs with the trimmed message on the recovered rows and box, and without a client the box shows "Erro ao processar." |
| ChatProfessor.ChatProfessorPage.Send | newnerd-interface/js/chat-ia-professor.js:164-198 | client, teacher and session are those `tentarIniciar` leaves; no session means nothing sent and the box kept; otherwise the exchange's outcome over the recovered rows and box, with "Erro ao processar." and no row stored when there is no client |
| Theme.FirstWithId | newnerd-interface/js/theme.js:7 | the element found is the first with the id, and none is found exactly when no element has it |
| Theme.CountAppend | newnerd-interface/js/theme.js:9-14 | appending an element adds one to its id's count and nothing to the others |
| Theme.CountNone | newnerd-interface/js/theme.js:7-8 | no element has the id exactly when none is found |
| Theme.Without | newnerd-interface/js/theme.js:43-45 | removing an element keeps the others in order |
| Theme.RemoveKeepsOther | newnerd-interface/js/theme.js:41-45 | removing an element of another id keeps the count of this one |
| Theme.RemoveDropsOne | newnerd-interface/js/theme.js:41-45 | removing an element with the id leaves one fewer |
| Theme.UpdateKeepsCount | newnerd-interface/js/theme.js:19-27 | changing an element's text and label keeps every id's count |
| Theme.UpdateKeepsFirst | newnerd-interface/js/theme.js:19-27 | changing an element's text and label keeps the first element of every id where it was |
| Theme.Icon | newnerd-interface/js/theme.js:22 | the sun shows exactly while the theme is dark |
| Theme.Label | newnerd-interface/js/theme.js:23-26 | the label names the light theme exactly while the theme is dark |
| Theme.Toggled | newnerd-interface/js/theme.js:35-38 | the next theme is light exactly after dark, and it is always dark or light |
| Theme.ToggleTwice | newnerd-interface/js/theme.js:35-38 | toggling twice returns to dark or light, and from any other state ends on light |
| Theme.InitialTheme | newnerd-interface/js/theme.js:50-57 | a stored non-empty theme is used as it is; otherwise the theme is dark exactly when the system prefers dark, else light |
| Theme.Page.constructor | newnerd-interface/js/theme.js:2-3 | the page starts without a theme attribute, with the given elements and storage |
| Theme.Page.EnsureButton | newnerd-interface/js/theme.js:6-17 | the returned element is a toggle button; an existing first one is kept and nothing changes; otherwise one is appended at the end of the body |
| Theme.Page.SetIcon | newnerd-interface/js/theme.js:19-27 | without a toggle button nothing changes; otherwise the first one shows the theme's icon and label and no id's count changes |
| Theme.Page.ApplyTheme | newnerd-interface/js/theme.js:29-33 | the attribute is the theme, the theme is stored under "nn-theme", and the button shows its icon and label |
| Theme.Page.ToggleTheme | newnerd-interface/js/theme.js:35-38 | the attribute and the stored theme become light after dark and dark otherwise |
| Theme.Page.Init | newnerd-interface/js/theme.js:40-58 | one injected button is removed, exactly one toggle button is added when none exists, and the initial theme is applied and stored |
| Theme.InitLeavesOneButton | newnerd-interface/js/theme.js:40-58 | any started page has a toggle button: exactly one when it began with at most one, and the same number otherwise |

## Left out

- I/O of every kind is a parameter of the operation that reads it: Supabase queries, storage, RPC and function calls, `fetch`, the chat and embedding models, authentication, `localStorage` reads, the clock, `setTimeout`/`setInterval` and `Math.random`. The order in which asynchronous calls interleave is not modelled. Each operation is modelled as the sequential run of its `await`s.
- DOM construction and the HTML markup of the pages are not modelled. Only the decisions they show are: flags, fallbacks, titles, snippets, escaping and which blocks appear. The typing indicator, scrolling, `alert`/`confirm` dialogs (their answers are parameters), event wiring (`configurarEventosUI`, `btn.onclick`), the Markdown rendering of chat replies and the theme button's `type`, `title` and `className` are also left out.
- Numbers read from JSON are whole numbers (`Js.Num(int)`). Rational scores, averages and similarities are `real` where the rules use them. Floating-point rounding, `toFixed`, `formatSize`/`formatFileSize`, percentages shown on screen and `custo_estimado` are not modelled.
- Text.Lower: lower-cases only the ASCII and Latin-1 capital letters. JavaScript's `toLowerCase` folds every Unicode capital, so the case-insensitive comparisons (file extensions, type filters, searches) agree with the source only on text written with those letters.
- `String(v)` of a number is the decimal text of an integer. Fractional numbers and exponent notation are not modelled, because every number of the model is whole.
- The PDF, Word, JSON and ZIP encoders of the exports are third-party libraries and are not modelled. Their file names and the CSV and text inside the ZIP are; whether the ZIP library is loaded is a parameter of ExportAllZip.
- TextToSend, ExtractModules, Chunks, NormChunk, CleanTextFacts, ResumoCases, PreviewShape, SnippetContent, ExcerptCases and the history and generator previews: a Dafny string counts code points, while JavaScript's `length`, `slice` and `substring` count UTF-16 code units. On text with characters outside the Basic Multilingual Plane, such as emoji, every length cut (30000, 28000, 12000, 8000, 300, 200, 100 and 80 characters) falls at a different place than in the source, and the source's cuts can split a surrogate pair, which the model cannot.
- FormatarQuestaoTexto and QuestionText: the source throws a TypeError in three cases where the model writes text. A non-empty string `alternativas` has no `forEach`, and the model skips the section. A truthy `coluna_a` or `coluna_b` that is not an array has no `forEach`, and the model writes the heading over an empty list. A `null` item has no `letra`, and the model prints "undefined". CopyAllText and ExportAllZip inherit this.
- `JSON.parse` is a parameter (an `Option` of the parsed value) where the source parses text.
- URL parsing in the `chat-ia` edge function is a parameter (the host name, or None when the origin does not parse).
- The diagnostic's stimulus generation (`makeStimuli`, random and timed) and `salvarDiagnostico` (a database write) are not modelled. The stimuli and the reaction times are inputs.
- Generator.GenerateMultiple: the worker pool is modelled by its index dispatch and counting. Each index is claimed once, in order. Concurrent workers and the order in which their results arrive are not modelled.
- GuessMime: `guessMimeByExtension` looks extensions up in a plain object. Extensions such as "constructor" that name `Object.prototype` members would return functions in JavaScript. The model treats them as unknown extensions.
- Library.Matchers: the type filter looks the chosen type up in a plain object as well. A type such as "constructor" that names an `Object.prototype` member yields a function, whose `.some` throws a TypeError; the model matches such a type as itself.
- QuestaoPage.AlternativesOf: when `JSON.parse` of a string `alternativas` gives a non-empty string, `forEach` is missing, and when it gives `null`, `.length` is; both throw a TypeError in the source. The model reads no alternatives and shows the missing-alternatives message.
- Generator.AlternativeClasses: a multiple-choice question whose `alternativas` is truthy but not an array (a string, an object) makes `forEach` throw a TypeError in the source. The model lists no alternatives.
- GenerateQuestionFunction.StyleIndex: `%` first converts the seed to a number, so a numeric string picks the style of that number and `true` picks style 1. The model gives every seed that is not a number no style.
- GenerateQuestionFunction.Stamp: the source spreads any `q` into the new object, so a string gives its characters under the keys "0", "1", … and an array its items by index. The model keeps only an object's own fields.
- StudentAnswers.NumberOf: JavaScript's `Number` also reads exponent notation ("1e3"), hexadecimal, binary and octal literals ("0x1A", "0b1", "0o7") and "Infinity". The model reads them as `NaN` (None).
- BibliotecaManagerPage.UploadFile: a `file.text()` that rejects ends the upload in "erro" in the source. The model takes the text as an input that was read.
- Storage.Tokens and Storage.SumTokens: a string `tokens_usados` turns the running total into text by concatenation, and `true` adds 1. The model counts only numbers and adds 0 for the rest.
- Storage.HistoryStore.History: the stored value is absent, unparsable or an array of records. JSON that parses to anything else is returned as it is by the source, and the later `unshift`, `find` or `filter` throws; the model does not represent it.
- The Word text extractor (`mammoth`) and file reading are parameters of `tryExtractText`.
- The library pages' preview and remove actions, and the panel's `clearFilters`, are DOM-only and are not modelled.
- `BibliotecaManager`'s `performSemanticSearch`, `displaySearchResults`, `viewDocument`, `deleteDocument` and `triggerProcessing` are left out: they forward to the database, storage or other pages and render the result.
- BibliotecaManagerPage.BibliotecaManager.UploadAllFiles: the uploads start together in the source. The model gives each its own answers and does not capture how their status updates interleave.
- ChatAluno.ChatAlunoPage.Recover: the student chat's `tentarIniciar` is modelled by its outcome only. The parameter `start` says whether it reached `iniciarSessao`, with the user's id and the session queries' answers; how it gets the client and the signed-in user is not modelled. The student page does not track its database client, so the model treats a page with a session as ready. The source runs `tentarIniciar` for a page that has a session but no client as well: it either opens the session again, or it finds no client, and then its first database call throws and the box shows "Erro: " with the message. The teacher chat's `verificarAuthProfessorChat` is a parameter, the teacher it returns.
- Storage.Statistics: `porTipo` and `porDisciplina` are plain objects, and `stats.porTipo[k] || 0` looks the key up through `Object.prototype`. A `tipo_questao` or `disciplina` such as "constructor" or "toString" finds a function, so its count becomes text ("function Object() { [native code] }1"), and "__proto__" loses its count. The model counts these keys like any other, in Tally, Bump and GetEstatisticas alike. HistoryPage.TipoShown (`QUESTION_TYPES[...]`) and UiBiblioteca.BadgeText (the status label table) look their keys up the same way: such a key shows a function's text in the source, and the model shows the key itself.
- String methods on values that are not strings: QuestaoPage.TipoLabel (`.replace`), PainelPage.TipoBadge and PainelPage.Preview (`.replace`, `.substring`), ResponderPage.HeaderFor (`.replace`), HistoryPage.ItemFor (`.substring`), SupabaseManager.Excerpt (`.substring`) and ChatProfessor.FirstName (`.split`) call the method on the field as it is. A truthy number, boolean, array or object there has no such method and throws a TypeError in the source; the model converts it with `String(v)` first and goes on.
- UiBiblioteca.PathTail, UiBiblioteca.Title, UiBiblioteca.Snippet and UiBiblioteca.CardOf: `(s || "").replace` in `escapeHtml`, `.split("/")` of the path and `.slice` of the raw text are called on the field as it is. A truthy title, path or text that is a number, boolean, array or object has no such method and throws a TypeError in the source; the model converts it with `String(v)` first and goes on.
- Library.DocName, Library.DocMime and Library.TitleHas, with BibliotecaManagerPage.Searched: `.toLowerCase()` is called on `nome_original`, `titulo` or `tipo_arquivo` as stored, so a truthy value that is not a string throws a TypeError in the source; the model lower-cases `String(v)`.
- BibliotecaManagerPage.FileIcon and BibliotecaManagerPage.DocMime: `(mimeType || "").toLowerCase()` and `(doc.tipo_arquivo || "").toLowerCase()` throw a TypeError for a truthy value that is not a string; the model lower-cases `String(v)`.
- QuestaoPage.Resumo: an array `enunciado` longer than 80 items has no `.substring` and throws a TypeError in the source; the model shows `String(v)` whole, since only a string is cut.
- HistoryPage.Hit: `.toLowerCase()` on a truthy `enunciado`, `disciplina` or `tipo_questao` that is not a string throws a TypeError in the source; the model searches `String(v)`.
- EmbedFunction.MetaFields and EmbedFunction.Row: `...c.metadata` spreads a string's characters and an array's items under the keys "0", "1", … into the row's metadata. The model keeps only an object's own fields and nothing for any other value.
- Generator.Letra: a `null` or `undefined` entry of `alternativas` makes `alt.letra` throw a TypeError in the source. The model reads its letter as undefined, so the entry gets the class "".
- BibliotecaManagerPage.SizeOf: `acc + (doc.metadata?.size || 0)` turns the total into text when a size is a string, and adds 1 for `true`. The model adds 0 for every size that is not a number.
- ChatAluno.ChamarIA and ChatAluno.NotOkMessage: when the failed answer's JSON is `null`, reading `errData.error` throws a TypeError, and the bubble shows that error's message. The model reads the missing field as undefined and shows "OpenAI: " with the status text.
- Messages written to the console are not modelled.

