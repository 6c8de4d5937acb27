# Emotion analysis of São Paulo FC supporters' posts — a Dafny model

The program collects posts about one São Paulo FC match from the X recent-search API. It splits the match into 15-minute windows: four before kickoff, eight during the match and eight after it. For each window it pages through the search results. It labels every post with an emotion chosen from a language model's scores, and saves each window's posts as a CSV file. It then reports:

- per-phase and overall statistics;
- the percentage of each emotion label;
- a bar chart of five emotion columns;
- a summary table with the predominant emotion of each phase.

This project models that core in Dafny and proves what it promises. The model covers the following, each in the form of the code it models:

- **Window calculator** (`windows.dfy`): an imperative method with three appending loops, proved equal to a closed-form schedule.
- **Page-collection loop** (`collection.dfy`): a method with a `while` loop, proved equal to a recursive unfolding of the loop. The unfolding is then proved to concatenate pages in arrival order, to terminate, and to respect the request-size rule, the next-token chain and the soft cap.
- **Label selection and in-place enrichment** (`emotions.dfy`): a stable insertion sort followed by the first mappable entry, and an array loop that writes each post's label.
- **Aggregation and statistics** (`aggregation.dfy` and part of `pipeline.dfy`): pure functions.
- **Output folders and CSV files** (`storage.dfy`): a `FileSystem` class whose directories and files the methods update.
- **Chart values and summary table** (`visualization.dfy`).
- **The whole script** (`pipeline.dfy`), from the run identifier to the report.

Timestamps are integer minutes since 0001-01-01 00:00 (`calendar.dfy`). Percentages are exact `real`s. A dictionary with insertion order is a sequence of (label, value) pairs (`records.dfy`).

Every external service is a parameter:

- The search endpoint is a function from (window number, request number, request) to a response.
- The language model is a function from text to its list of (label, score) pairs.
- The text-cleaning function is a function from string to string.

Two inconsistencies of the program are modelled as written:

- The aggregation labels (`alegria, raiva, tristeza, surpresa, medo`, src/config.py:22) are not the chart and table columns (`raiva, alegria, frustracao, ironia, neutro`, src/visualizacao.py:28 and :69). So the frustracao, ironia and neutro columns are always 0. The predominant label can be one that has no column. `Visualization.AllSadRow` makes this concrete.
- `criar_pasta_resultados` returns (data folder, results folder) (src/utils.py:28). The script unpacks the pair the other way round (main.py:22). So the CSV files land in `resultados/...` and the chart and table land in `data/...`. `Pipeline.Run` states both halves. Every JSON call and every CSV file the run writes is under the `resultados` folder, and no file other than those CSVs changes during the phases. The report's chart and table paths are in the `data` folder.

## Model

| member | source | states |
|---|---|---|
| Windows.Slot | src/janelas.py:10-11 | every window ends exactly 15 minutes after it starts |
| Windows.Schedule | src/janelas.py:9-25 | 4 pre-match, 8 during and 8 post-match windows; pre starts at kickoff − 60 and ends at kickoff, during starts at kickoff, post starts at kickoff + 120 where during ends, and post ends at kickoff + 240 |
| Windows.ComputeWindows | src/janelas.py:5-27 | the three appending loops produce exactly the closed-form schedule |
| Windows.TimelineIsSlots | src/janelas.py:9-25 | pre ++ during ++ post is the 20 back-to-back slots kickoff − 60 + 15·i |
| Windows.TimelineChain | src/janelas.py:9-25 | the 20 windows form one gap-free, non-overlapping, strictly increasing chain from kickoff − 60 to kickoff + 240 |
| Windows.ScheduleShift | src/janelas.py:10-24 | shifting the kickoff by d shifts every window bound by exactly d |
| Aggregation.Percentages | src/agregacao.py:6-18 | empty input gives an empty dictionary; otherwise the keys are exactly the aggregation labels in order, each value is 100·count/total and lies in [0, 100] |
| Aggregation.PercentBounds | src/agregacao.py:14 | a share is non-negative, at most 100 for count ≤ total, 100 exactly when count = total, and 0 exactly when count = 0 |
| Aggregation.PercentagesLookup | src/agregacao.py:13-16 | looking up an aggregation label gives its share, even when no post carries it; any other label, neutro among them, is absent |
| Aggregation.PercentagesSum | src/agregacao.py:7-16 | the values sum to 100·(posts labelled inside the list)/total, which is at most 100 and equals 100 exactly when no post has an outside label |
| Aggregation.CountLabelPermutation | src/agregacao.py:11 | reordering a batch changes no label count |
| Aggregation.PercentagesPermutation | src/agregacao.py:11 | the percentages do not depend on the order of the batch |
| EmotionAnalysis.LowerChar | src/analise_emocoes.py:33 | a capital becomes the small letter at the same alphabet position, any other character is kept, and the result is never a capital |
| EmotionAnalysis.Lower | src/analise_emocoes.py:33 | the length is kept, no capital is left, and a string without capitals is its own image |
| EmotionAnalysis.LowerAt | src/analise_emocoes.py:33 | helper, not a property of the source: each position of the lower-cased string holds that position's character lower-cased, linking Lower to LowerChar's contract |
| EmotionAnalysis.LowerIdempotent | src/analise_emocoes.py:33 | lower-casing twice is lower-casing once |
| EmotionAnalysis.MappingKeysLower | src/analise_emocoes.py:33-34 | every key of the label mapping is already lower case, so lower-casing never moves a key away from itself |
| EmotionAnalysis.CapitalLabelMappable | src/analise_emocoes.py:33-34 | a capitalised label such as "JOY" lowers to a mapping key and is mapped to alegria |
| EmotionAnalysis.SortByScoreCorrect | src/analise_emocoes.py:32 | the sort returns a permutation of the results, highest score first |
| EmotionAnalysis.FirstMappable | src/analise_emocoes.py:32-36 | the early-return loop returns a mappable entry of the list, and finds none exactly when no entry is mappable |
| EmotionAnalysis.Classify | src/analise_emocoes.py:27-37 | an empty result list gives ("neutro", 0.0); a neutro label always comes with confidence 0.0 |
| EmotionAnalysis.ClassifyLabel | src/analise_emocoes.py:13-37 | the label returned is a value of the mapping or neutro |
| EmotionAnalysis.NeutralNotMapped | src/analise_emocoes.py:13-25 | no model label maps to neutro |
| EmotionAnalysis.MappingValuesAreEmotions | src/analise_emocoes.py:13-25 | the mapping's values are exactly the five aggregation labels |
| EmotionAnalysis.Best | src/analise_emocoes.py:32-35 | reference choice: a mappable entry of maximal score, the earliest such one, or none when nothing is mappable |
| EmotionAnalysis.FirstMappableInsert | src/analise_emocoes.py:32-35 | inserting into the sorted list moves its first mappable entry exactly as one more step of a left-to-right best scan |
| EmotionAnalysis.FirstOfSortedIsBest | src/analise_emocoes.py:32-35 | the search over the stably sorted list returns the reference best entry, so ties keep the original order |
| EmotionAnalysis.ClassifyIsBest | src/analise_emocoes.py:32-37 | the result is the mapped label and score of the best mappable entry, or ("neutro", 0.0) when none is mappable |
| EmotionAnalysis.EnrichAll | src/analise_emocoes.py:40-43 | same length, and each post is that post enriched |
| EmotionAnalysis.Annotate | src/analise_emocoes.py:41-43 | one loop step sets emotion and confidence from the model's verdict on the raw text |
| EmotionAnalysis.AnalyzeTweets | src/analise_emocoes.py:39-44 | returns the same array, whose contents are every original post enriched in place |
| EmotionAnalysis.EnrichedShape | src/analise_emocoes.py:41-43 | enrichment keeps every other field; the label is an aggregation label or neutro, and neutro only with confidence 0.0 |
| Collection.Query | src/coleta.py:30-31 | the query opens with "(to:" + profile + " OR " and closes with ") lang:pt" |
| Collection.HashtagsJoined | src/coleta.py:30 | the seven club hashtags joined by " OR ", in their configured order |
| Collection.QueryText | src/coleta.py:30-31 | the whole query string: replies to the profile or any of #SPFC, #SãoPauloFC, #VamosSãoPaulo, #Tricolores, #saopaulofc, #spfc, #tricolores, in Portuguese |
| Collection.RequestSize | src/coleta.py:38-47 | max_results is 10 below 10 remaining, the remaining count between 10 and 100, and 100 above; it always lies in [10, 100] and never exceeds what remains once 10 remain |
| Collection.MakeRecord | src/coleta.py:75-86 | a record copies id, text and created_at, sets the window start, copies retweet_count and like_count when present, reads missing metrics as 0 and has no emotion yet; it fails exactly when id, text or created_at is missing |
| Collection.PageRecords | src/coleta.py:75-86 | a page yields one record per item in order, or fails exactly when some item fails |
| Collection.FetchPage | src/coleta.py:37-100 | one iteration sends the request of the loop's rule; it either ends the loop as the recursive unfolding does, or appends a non-empty page that stays under the cap and hands on the next token |
| Collection.CollectTweets | src/coleta.py:22-102 | the loop returns the posts, requests and stop reason of the recursive unfolding of the loop |
| Collection.CollectFromStep | src/coleta.py:36-100 | an iteration either ends with one request and the accumulator plus that response's contribution, or continues with the page appended |
| Collection.CollectFromConcatenates | src/coleta.py:33-102 | from any iteration on, the result is the accumulator followed by every response's page in arrival order |
| Collection.CollectConcatenates | src/coleta.py:33-102 | the posts returned are exactly the concatenation of the pages received, in order, with none dropped or truncated |
| Collection.CollectFromRequestFields | src/coleta.py:49-59 | every request carries the query, the window bounds and a size in [10, 100]; the first carries the token it was given, if truthy |
| Collection.CollectFromTokenChain | src/coleta.py:58-59 | each later request carries the non-empty next_token of the 200 reply to the request before it |
| Collection.CollectRequests | src/coleta.py:34-91 | the first request has no next_token and each later one carries the previous reply's; all carry the query and a size in [10, 100] |
| Collection.CollectFromRequestCount | src/coleta.py:71-93 | termination bound: at most max(limit − accumulated, 1) requests |
| Collection.CollectRequestCount | src/coleta.py:71-93 | one call sends between 1 and max(limit, 1) requests |
| Collection.CollectFromSoftCap | src/coleta.py:44-93 | when the server honours max_results, the result has at most limit + 9 posts; if the loop stopped on the cap, at least limit |
| Collection.CollectSoftCap | src/coleta.py:44-93 | the cap is soft: fewer than limit + 10 posts (at most 10 for a non-positive cap), and at least limit when it stopped on the cap |
| Storage.MakeDirsEffect | src/utils.py:22 | makedirs fails exactly on an empty path, an existing path or a file ancestor, and then changes nothing; otherwise it adds the path and only missing ancestors, and the filesystem stays consistent |
| Storage.FileSystem.MakeDirs | src/utils.py:22-26 | the directories become those of makedirs; files are unchanged |
| Storage.DataPathInjective | src/utils.py:16-20 | distinct counters give distinct data paths |
| Storage.FirstFreeUnique | src/utils.py:14-20 | the counter picked is determined by the filesystem |
| Storage.FileSystem.FreeDataPath | src/utils.py:14-20 | the counter is the smallest n ≥ 1 whose data path does not exist, every smaller one exists, and the path returned is that counter's |
| Storage.FoldersResult | src/utils.py:22-28 | on success the pair is (data path, results path) with the same counter |
| Storage.FoldersUsual | src/utils.py:11-28 | with data/ and resultados/ present, exactly the two new directories are added and returned as (data, results); if the results path already exists the call fails after creating the data folder |
| Storage.FileSystem.CreateResultFolders | src/utils.py:7-28 | picks the first free counter and leaves the directories and result of the two makedirs; files are unchanged |
| Storage.JoinInjective | src/utils.py:36 | joining one folder with relative names is injective |
| Storage.CsvPathInjective | src/utils.py:35-36 | within one phase and folder, distinct window starts give distinct CSV files |
| Storage.SaveResult | src/utils.py:31-39 | a failed write leaves the files unchanged |
| Storage.SaveEffect | src/utils.py:31-39 | an empty batch writes nothing; otherwise the batch replaces its own file and no other, or fails and changes nothing; the filesystem stays consistent |
| Storage.FileSystem.SaveTweetsCsv | src/utils.py:31-41 | the files become those of the save, at the etapa_YYYYMMDD_HHMM.csv path; directories are unchanged |
| Text.NatStr | src/utils.py:16 | the decimal rendering is a non-empty digit string, one digit exactly below 10, with no leading zero |
| Text.NatStrValue | src/utils.py:16 | the rendering denotes the number |
| Text.NatStrInjective | src/utils.py:16-20 | distinct counters have distinct renderings |
| Text.ZeroPadValue | src/utils.py:35 | zero padding keeps the number denoted |
| Text.ZeroPadTwo | src/utils.py:35 | a number below 100 pads to exactly two characters |
| Calendar.FromMinutes | src/utils.py:35 | a minute timestamp has a valid date and time of day (day within its month's length, leap years included) that denotes it back |
| Calendar.DaysInMonth | src/utils.py:35 | every month has between 28 and 31 days |
| Calendar.YearOfStart | src/utils.py:35 | the day count of a day of a year falls in that year, at that day of the year |
| Calendar.MonthOfStart | src/utils.py:35 | the day of the year of a day of a month falls in that month, at that day |
| Calendar.DateOfDays | src/utils.py:35 | the day count of a valid date splits back into its year, month and day |
| Calendar.FromToMinutes | src/utils.py:35 | a valid date and time is recovered from the timestamp it denotes, so the two conversions are inverse |
| Calendar.YearStartClosed | src/utils.py:35 | the days before a year are 365 per earlier year plus the multiples of 4, less those of 100, plus those of 400 |
| Calendar.LeapCountStep | src/utils.py:35 | one more year adds a multiple of 4, 100 or 400 exactly when it is one, and its length follows the leap rule |
| Calendar.LastMinuteDenotes | src/janelas.py:21-24 | the last minute of the date range is 9999-12-31 23:59, and year 10000 would start on the minute after it |
| Calendar.ToMinutesBelowNextYear | src/utils.py:35 | a date and time lies between the first minute of its year and the first minute of the next |
| Calendar.FourDigitYears | src/janelas.py:21-24 | a timestamp has a year of at most four digits exactly when it is not after the last minute of the date range |
| Calendar.RenderFields | src/utils.py:35 | the %Y%m%d_%H%M rendering reads back field by field |
| Calendar.StampInjective | src/utils.py:35 | distinct minute timestamps have distinct renderings |
| Text.Remove | main.py:19 | the result lacks the character, is no longer than the input and has only characters of the input |
| Text.RemoveAppend | main.py:19 | removing a character distributes over concatenation |
| Pipeline.DataHoraOfWellFormed | main.py:19 | a date DD-MM-AAAA and a time HH:MM give the identifier DDMMAAAA_HHMM |
| Pipeline.DataHoraShape | main.py:19 | the identifier is the date without '-', '_', then the time without ':', and has no '/' unless the inputs had one |
| Pipeline.Statistics | main.py:43-47 | total is the length; neutral is the number of neutro posts and at most the total; the percentage is neutral/total·100, or 0 for no posts, and lies in [0, 100] |
| Pipeline.StatisticsOverall | main.py:66-69 | over pre ++ during ++ post, the total and the neutral count are the sums of the per-phase values |
| Pipeline.LabelledPartition | main.py:45 | every labelled post is counted either neutral or under one aggregation label |
| Pipeline.PercentagesAndNeutralMakeWhole | main.py:43-67 | for a non-empty classified batch, the aggregation percentages plus the neutral percentage make 100 |
| Pipeline.Batches | main.py:30-32 | one classified batch per window, each with classifier labels |
| Pipeline.PhaseFromAccumulates | main.py:28-36 | a phase that is not aborted returns its batches concatenated in window order and calls the JSON saver once per window |
| Pipeline.PhaseResult | main.py:28-36 | on success the phase's posts are the windows' batches in order, with length the sum of the batch lengths; the JSON calls are CallsOf the windows, one per window with the phase name, the window start and that batch, empty batches included; every post is labelled |
| Pipeline.PhaseFromFiles | main.py:30-33 | when no save fails and the paths are distinct, each window with a non-empty batch has that batch at its path, and every other path is as it was |
| Pipeline.CsvPathsDistinct | src/utils.py:35-36 | windows with distinct starts get distinct CSV files |
| Pipeline.PhaseFiles | main.py:28-36 | processar_etapa with distinct window starts, when no save fails: each window with a non-empty batch has that batch in its etapa_YYYYMMDD_HHMM.csv file, and every other path is as before |
| Pipeline.SavedFrom | main.py:28-36 | PhaseFiles for any list of batches |
| Pipeline.PathsSaved | main.py:33 | helper, not a property of the source: the per-path file facts of PhaseFromFiles restated per window through the CSV paths |
| Pipeline.OtherPhaseUntouched | main.py:33-40 | a phase never writes the CSV file of another phase whose name differs |
| Pipeline.SavedKept | main.py:38-40 | the CSV files of one phase survive a later phase with another name |
| Pipeline.ScheduleDistinctStarts | src/janelas.py:9-25 | within each phase of the schedule, no two windows start at the same minute |
| Pipeline.SlotsWithinDateRange | src/janelas.py:15-17 | back-to-back windows from a non-negative start that end by the last minute of the date range all lie in it, with four-digit years |
| Pipeline.ScheduleWithinDateRange | src/janelas.py:9-25 | when the last window ends by 9999-12-31 23:59, every window of the schedule lies in the date range and its start has a four-digit year |
| Pipeline.ChainSaved | main.py:38-40 | three phases writing in turn leave every phase's CSV files in place and touch no other path |
| Pipeline.PhasesFiles | main.py:38-40 | after three phases that did not fail, every non-empty batch of every phase is in its CSV file under the folder, and every other path is as before |
| Pipeline.PhasesResult | main.py:38-40 | a run that did not fail: each phase's posts are its batches in order, the JSON calls are the pre, during and post calls one after another, and the files are as PhasesFiles says |
| Pipeline.CollectAndClassify | main.py:31-32 | one window's batch is coletar_tweets followed by analisar_tweets |
| Pipeline.ProcessWindow | main.py:31-33 | collects the expected batch and saves it as its CSV; directories are unchanged |
| Pipeline.ProcessWindows | main.py:30-35 | the loop leaves the posts, files, JSON calls and error of the phase definition; directories are unchanged |
| Pipeline.ProcessPhase | main.py:28-36 | processar_etapa leaves exactly the outcome of the phase definition |
| Pipeline.RunPhases | main.py:38-40 | the three phases chained over one filesystem (caps 75, 100 and 100; each phase starts from the files the previous one left; the first failed save aborts): posts, files, JSON calls and error are exactly those of Phases; directories are unchanged; on success each phase is its windows' batches in order, labelled, with one JSON call per window |
| Pipeline.Summarize | main.py:43-86 | the per-phase and overall statistics, chart values, table rows and chart and table file names are those of the three phases' posts |
| Pipeline.Run | main.py:19-86 | picks the first free counter; the directories are those the folder creation leaves; on success the CSV folder is the resultados path and the chart/table folder is the data path (the swapped unpacking); each phase is its batches in order; the JSON calls are the three phases' calls, each into the resultados path; every non-empty window batch is in its CSV file under the resultados path and no file other than those CSVs changed during the phases; the report summarises the phases; on a folder-creation error the files are untouched, and otherwise the files and the error are exactly those of Phases from the created directories |
| Visualization.ChartValues | src/visualizacao.py:28-29 | five values in the column order raiva, alegria, frustracao, ironia, neutro, a missing key giving 0 |
| Visualization.ChartColumn | src/visualizacao.py:28-29 | over aggregation output, a column is its label's share, or 0 when the batch is empty or the column is not an aggregation label |
| Visualization.ChartOfAggregation | src/visualizacao.py:28-29 | over aggregation output, frustracao, ironia and neutro are always 0, raiva and alegria are their shares, and an empty batch gives five zeros |
| Visualization.ArgMax | src/visualizacao.py:76 | max picks an entry of maximal value, the earliest such one in insertion order |
| Visualization.SummaryTable | src/visualizacao.py:58-86 | the nested appending loops build exactly the fixed-order table rows |
| Visualization.SummaryShape | src/visualizacao.py:61-89 | three rows in the order pre_jogo, durante_jogo, pos_jogo, with 7 cells like the headers: the display name, the five column values and the predominant label; a missing or empty phase gives zeros and "-" |
| Visualization.SummaryRowShape | src/visualizacao.py:81-84 | one row is the name, the five values in column order and the predominant label |
| Visualization.PredominantOfAggregation | src/visualizacao.py:72-78 | over aggregation output the predominant is "-" for an empty batch, and otherwise an aggregation label with the largest count |
| Visualization.AllSadRow | src/visualizacao.py:69-86 | a batch labelled all tristeza gives a row whose predominant is tristeza while all five value columns are 0 |
| Visualization.ChartAndTableDistinct | src/visualizacao.py:44-102 | the chart file is never the table file |
| Visualization.OutputPathsInjective | src/visualizacao.py:44-102 | distinct identifiers give distinct chart files and distinct table files |
| Records.FlattenLength | main.py:35 | the concatenation of batches has the sum of their lengths |

## Left out

- `limpar_texto` (src/coleta.py:12-19) depends on regular expressions, emoji names and Unicode lower-casing. It is an abstract `clean` function parameter.
- The HTTP request, the JSON decoding of the response and `time.sleep` are left out: the endpoint's replies are a function parameter that also models a raised exception (`Raised`) and an undecodable body.
- The transformers pipeline (src/analise_emocoes.py:6-10) is an abstract classifier from text to (label, score) list.
- EmotionAnalysis.Lower handles ASCII letters only. No mapping key can be reached from a non-ASCII character, so membership tests agree with Python's `str.lower`.
- pandas CSV serialisation is left out. A file's contents are the list of posts last written there. The only errors modelled are a missing parent folder and a path that is a folder.
- `salvar_tweets_json` is imported by main.py but is not part of this model. Its calls are recorded as a log of (folder, phase, window start, posts).
- `strptime` parsing of the kickoff and ISO formatting of the window bounds are left out. Times are integer minutes, and the kickoff is a parameter beside the date and time strings it came from.
- Pipeline.Run: the chart file (`plt.savefig`, src/visualizacao.py:45) and the table file (`open(caminho, "w")`, src/visualizacao.py:103) written into the data folder are not reflected in `FileSystem.files`. The report only carries their paths, because the chart image and the formatted table are not modelled.
- Pipeline.Run requires the kickoff to be at least an hour after 0001-01-01 00:00, so that no window starts before the origin of the minute count, and at most 240 minutes before 9999-12-31 23:59 (`Calendar.LastMinute`), so that the last post-match window ends inside the date range. Outside either bound the timedelta arithmetic of src/janelas.py:10-24 raises OverflowError after main.py:22 has already created both folders. The model does not represent that abort: it has no run for such a kickoff.
- Calendar.Render always pads the year to four digits. The C library's `%Y` may render years below 1000 without padding.
- src/fine_tuning.py (model training) and the loading of the token from the environment file in src/config.py are left out. Only the constants are modelled.
- Drawing the chart, formatting the table with tabulate, printing to the console and the one-decimal formatting of percentages are left out. Table value cells and chart values hold exact percentages.
- `os.path.join` is modelled on plain strings, without normalisation. Paths are strings with '/' separators.
- The `input()` prompts and the console output of main.py are left out. Opponent, date, time and kickoff are parameters.
- An exception raised by makedirs or by a CSV write aborts the script. The model returns it as an `Err` result or an error value and performs nothing after it.
