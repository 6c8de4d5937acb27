// The match run (main.py): the run identifier, the per-phase collection /
// classification / saving loop, the per-phase statistics and the script's wiring
// of folders, windows, caps, aggregation, chart and table.
module Pipeline {
  import opened Records
  import Text
  import Config
  import Windows
  import Collection
  import EmotionAnalysis
  import Aggregation
  import Storage
  import Visualization
  import Calendar

  // ---------------------------------------------------------------------------
  // The run identifier

  /** data_hora: the date with every '-' removed, '_', the time with every ':' removed. */
  function DataHora(date: string, time: string): string {
    Text.Remove(date, '-') + "_" + Text.Remove(time, ':')
  }

  /** A digit string holds no separator. */
  lemma {:induction false} DigitsLackSeparator(s: string, c: char)
    requires Text.IsDigits(s) && !('0' <= c <= '9')
    ensures c !in s
  {
  }

  /** Removing c from a, c, b where a lacks c leaves a followed by b without c. */
  lemma {:induction false} RemoveSkip(a: string, c: char, b: string)
    requires c !in a
    ensures Text.Remove(a + [c] + b, c) == a + Text.Remove(b, c)
  {
    Text.RemoveAppend(a, [c] + b, c);
    Text.RemoveAbsent(a, c);
    assert a + [c] + b == a + ([c] + b);
    assert ([c] + b)[1..] == b;
  }

  lemma {:induction false} DateDigits(dd: string, mm: string, yyyy: string)
    requires Text.IsDigits(dd) && Text.IsDigits(mm) && Text.IsDigits(yyyy)
    ensures Text.Remove(dd + "-" + mm + "-" + yyyy, '-') == dd + mm + yyyy
  {
    DigitsLackSeparator(dd, '-');
    DigitsLackSeparator(mm, '-');
    DigitsLackSeparator(yyyy, '-');
    var rest := mm + ['-'] + yyyy;
    assert dd + "-" + mm + "-" + yyyy == dd + ['-'] + rest;
    RemoveSkip(dd, '-', rest);
    RemoveSkip(mm, '-', yyyy);
    Text.RemoveAbsent(yyyy, '-');
  }

  lemma {:induction false} TimeDigits(hh: string, mi: string)
    requires Text.IsDigits(hh) && Text.IsDigits(mi)
    ensures Text.Remove(hh + ":" + mi, ':') == hh + mi
  {
    DigitsLackSeparator(hh, ':');
    DigitsLackSeparator(mi, ':');
    assert hh + ":" + mi == hh + [':'] + mi;
    RemoveSkip(hh, ':', mi);
    Text.RemoveAbsent(mi, ':');
  }

  /** For a date typed as DD-MM-AAAA and a time as HH:MM, the identifier is DDMMAAAA_HHMM. */
  lemma {:induction false} DataHoraOfWellFormed(dd: string, mm: string, yyyy: string, hh: string, mi: string)
    requires Text.IsDigits(dd) && Text.IsDigits(mm) && Text.IsDigits(yyyy)
    requires Text.IsDigits(hh) && Text.IsDigits(mi)
    ensures DataHora(dd + "-" + mm + "-" + yyyy, hh + ":" + mi) == dd + mm + yyyy + "_" + hh + mi
  {
    DateDigits(dd, mm, yyyy);
    TimeDigits(hh, mi);
  }

  /** The identifier has no '-' before its separator, and no '/' unless the inputs had
      one: the folder names built from it then stay one level deep. */
  lemma {:induction false} DataHoraShape(date: string, time: string)
    ensures var id := DataHora(date, time);
      && '-' !in Text.Remove(date, '-') && ':' !in Text.Remove(time, ':')
      && |id| == |Text.Remove(date, '-')| + 1 + |Text.Remove(time, ':')|
      && id[|Text.Remove(date, '-')|] == '_'
      && ('/' !in date && '/' !in time ==> '/' !in id)
  {
  }

  // ---------------------------------------------------------------------------
  // Statistics

  /** estatisticas_tweets: total, neutral count, neutral percentage (0 for no posts). */
  datatype Stats = Stats(total: nat, neutral: nat, percent: real)

  function Statistics(posts: seq<Post>): (s: Stats)
    ensures s.total == |posts|
    ensures s.neutral == Aggregation.CountLabel(posts, Config.Neutral) && s.neutral <= s.total
    ensures s.total > 0 ==> s.percent == Aggregation.Percent(s.neutral, s.total)
    ensures s.total == 0 ==> s.percent == 0.0
    ensures 0.0 <= s.percent <= 100.0
  {
    var n := Aggregation.CountLabel(posts, Config.Neutral);
    if |posts| > 0 then
      Aggregation.PercentBounds(n, |posts|);
      Stats(|posts|, n, Aggregation.Percent(n, |posts|))
    else Stats(0, n, 0.0)
  }

  /** Over the concatenation of the phases, the totals and the neutral counts add up. */
  lemma {:induction false} StatisticsAppend(a: seq<Post>, b: seq<Post>)
    ensures Statistics(a + b).total == Statistics(a).total + Statistics(b).total
    ensures Statistics(a + b).neutral == Statistics(a).neutral + Statistics(b).neutral
  {
    Aggregation.CountLabelAppend(a, b, Config.Neutral);
  }

  lemma {:induction false} StatisticsOverall(pre: seq<Post>, during: seq<Post>, post: seq<Post>)
    ensures var s := Statistics(pre + during + post);
      && s.total == Statistics(pre).total + Statistics(during).total + Statistics(post).total
      && s.neutral == Statistics(pre).neutral + Statistics(during).neutral + Statistics(post).neutral
  {
    StatisticsAppend(pre, during);
    StatisticsAppend(pre + during, post);
  }

  /** Every post carries a label the classifier can produce. */
  predicate Labelled(posts: seq<Post>) {
    forall i :: 0 <= i < |posts| ==>
      posts[i].emotion.Some? &&
      (posts[i].emotion.value in Config.Emotions || posts[i].emotion.value == Config.Neutral)
  }

  lemma {:induction false} EnrichAllLabelled(ps: seq<Post>, classifier: string -> seq<ModelScore>)
    ensures Labelled(EmotionAnalysis.EnrichAll(ps, classifier))
  {
    var r := EmotionAnalysis.EnrichAll(ps, classifier);
    forall i | 0 <= i < |r|
      ensures r[i].emotion.Some? &&
        (r[i].emotion.value in Config.Emotions || r[i].emotion.value == Config.Neutral)
    {
      EmotionAnalysis.EnrichedShape(ps[i], classifier);
    }
  }

  /** A labelled post is either neutral or counted under an aggregation label. */
  lemma {:induction false} LabelledPartition(posts: seq<Post>)
    requires Labelled(posts)
    ensures Aggregation.CountIn(posts, Config.Emotions) + Aggregation.CountLabel(posts, Config.Neutral) == |posts|
  {
    if posts != [] {
      assert Config.Neutral !in Config.Emotions;
      assert Labelled(posts[1..]) by {
        forall i | 0 <= i < |posts[1..]|
          ensures posts[1..][i] == posts[i + 1]
        {
        }
      }
      LabelledPartition(posts[1..]);
    }
  }

  /** For a non-empty batch of classified posts, the aggregation percentages and the
      neutral percentage together make 100. */
  lemma {:induction false} PercentagesAndNeutralMakeWhole(posts: seq<Post>)
    requires Labelled(posts) && posts != []
    ensures Aggregation.Classified(posts)
    ensures Aggregation.SumValues(Aggregation.Percentages(posts)) + Statistics(posts).percent == 100.0
  {
    Aggregation.PercentagesSum(posts);
    LabelledPartition(posts);
    var inside := Aggregation.CountIn(posts, Config.Emotions);
    var neutral := Aggregation.CountLabel(posts, Config.Neutral);
    Aggregation.PercentAdd(inside, neutral, |posts|);
    Aggregation.PercentBounds(|posts|, |posts|);
  }

  // ---------------------------------------------------------------------------
  // processar_etapa

  /** The HTTP service as the run sees it: the response to the k-th request of the
      collection call for window number w of a phase. */
  type Api = (nat, nat, Collection.Request) -> Collection.Response

  function WindowServer(api: Api, w: nat): (nat, Collection.Request) -> Collection.Response {
    (k: nat, req: Collection.Request) => api(w, k, req)
  }

  /** The classified batch of window number i. */
  function Batch(windows: seq<Windows.Window>, i: nat, limit: int, api: Api,
                 classifier: string -> seq<ModelScore>, clean: string -> string): seq<Post>
    requires i < |windows|
  {
    var collected := Collection.Collect(windows[i], limit, Config.ClubProfile, WindowServer(api, i), clean);
    EmotionAnalysis.EnrichAll(collected.posts, classifier)
  }

  /** Every window's classified batch, in window order; each carries classifier labels. */
  function Batches(windows: seq<Windows.Window>, limit: int, api: Api,
                   classifier: string -> seq<ModelScore>, clean: string -> string): (bs: seq<seq<Post>>)
    ensures |bs| == |windows|
    ensures forall i :: 0 <= i < |bs| ==> Labelled(bs[i])
  {
    var bs := seq(|windows|, i requires 0 <= i < |windows| => Batch(windows, i, limit, api, classifier, clean));
    assert forall i :: 0 <= i < |bs| ==> Labelled(bs[i]) by {
      forall i | 0 <= i < |bs|
        ensures Labelled(bs[i])
      {
        var collected := Collection.Collect(windows[i], limit, Config.ClubProfile, WindowServer(api, i), clean);
        EnrichAllLabelled(collected.posts, classifier);
      }
    }
    bs
  }

  /** A call of the JSON saver, whose body is not part of this model. */
  datatype SaveCall = SaveCall(folder: string, phase: string, windowStart: int, tweets: seq<Post>)

  /** What a phase leaves behind: its posts, the CSV files, the JSON saver calls, and
      the error that aborted it, if any. */
  datatype PhaseOutcome = PhaseOutcome(
    posts: seq<Post>, files: map<string, seq<Post>>, jsonCalls: seq<SaveCall>, err: Option<Storage.Error>)

  predicate StartsNonNegative(windows: seq<Windows.Window>) {
    forall i :: 0 <= i < |windows| ==> windows[i].start >= 0
  }

  /** The phase loop from window i on, over the windows' batches: save the CSV (a
      failure aborts the run), record the JSON call, accumulate. */
  function PhaseFrom(dirs: set<string>, files: map<string, seq<Post>>, windows: seq<Windows.Window>,
                     batches: seq<seq<Post>>, paths: seq<string>, i: nat, acc: seq<Post>, calls: seq<SaveCall>,
                     phase: string, folder: string): PhaseOutcome
    requires |batches| == |windows| && |paths| == |windows|
    decreases |windows| - i
  {
    if i >= |windows| then PhaseOutcome(acc, files, calls, None)
    else
      var saved := Storage.SaveResult(dirs, files, batches[i], paths[i]);
      if saved.0.Some? then PhaseOutcome(acc, files, calls, saved.0)
      else PhaseFrom(dirs, saved.1, windows, batches, paths, i + 1, acc + batches[i],
                     calls + [SaveCall(folder, phase, windows[i].start, batches[i])], phase, folder)
  }

  /** The CSV file of each window. */
  function CsvPaths(windows: seq<Windows.Window>, folder: string, phase: string): (ps: seq<string>)
    requires StartsNonNegative(windows)
    ensures |ps| == |windows|
  {
    seq(|windows|, i requires 0 <= i < |windows| => Storage.CsvPath(folder, phase, windows[i].start))
  }

  /** processar_etapa for the given windows, cap and services. */
  function Phase(dirs: set<string>, files: map<string, seq<Post>>, windows: seq<Windows.Window>,
                 limit: int, phase: string, folder: string,
                 api: Api, classifier: string -> seq<ModelScore>, clean: string -> string): PhaseOutcome
    requires StartsNonNegative(windows)
  {
    PhaseFrom(dirs, files, windows, Batches(windows, limit, api, classifier, clean),
              CsvPaths(windows, folder, phase), 0, [], [], phase, folder)
  }

  /** The JSON calls of windows i, i+1, ... */
  function CallsOf(windows: seq<Windows.Window>, batches: seq<seq<Post>>, i: nat,
                   phase: string, folder: string): (cs: seq<SaveCall>)
    requires |batches| == |windows| && i <= |windows|
    ensures |cs| == |windows| - i
    ensures forall j :: 0 <= j < |cs| ==> cs[j] == SaveCall(folder, phase, windows[i + j].start, batches[i + j])
  {
    seq(|windows| - i, j requires 0 <= j < |windows| - i =>
      SaveCall(folder, phase, windows[i + j].start, batches[i + j]))
  }

  lemma {:induction false} CallsOfCons(windows: seq<Windows.Window>, batches: seq<seq<Post>>, i: nat, phase: string, folder: string)
    requires |batches| == |windows| && i < |windows|
    ensures CallsOf(windows, batches, i, phase, folder)
         == [SaveCall(folder, phase, windows[i].start, batches[i])] + CallsOf(windows, batches, i + 1, phase, folder)
  {
    var lhs := CallsOf(windows, batches, i, phase, folder);
    var rhs := [SaveCall(folder, phase, windows[i].start, batches[i])] + CallsOf(windows, batches, i + 1, phase, folder);
    forall j | 0 <= j < |lhs|
      ensures lhs[j] == rhs[j]
    {
      if j > 0 {
        assert i + j == (i + 1) + (j - 1);
      }
    }
  }

  /** A phase that was not aborted returns what it had accumulated followed by the
      remaining batches in window order, and called the JSON saver once per remaining
      window, empty batches included; every post keeps its classifier label. */
  lemma {:induction false} PhaseFromAccumulates(
    dirs: set<string>, files: map<string, seq<Post>>, windows: seq<Windows.Window>,
    batches: seq<seq<Post>>, paths: seq<string>, i: nat, acc: seq<Post>, calls: seq<SaveCall>, phase: string, folder: string)
    requires |batches| == |windows| && |paths| == |windows| && i <= |windows|
    ensures var o := PhaseFrom(dirs, files, windows, batches, paths, i, acc, calls, phase, folder);
      o.err.None? ==>
        && o.posts == acc + Flatten(batches[i..])
        && o.jsonCalls == calls + CallsOf(windows, batches, i, phase, folder)
    decreases |windows| - i
  {
    if i < |windows| {
      var saved := Storage.SaveResult(dirs, files, batches[i], paths[i]);
      if saved.0.None? {
        var call := SaveCall(folder, phase, windows[i].start, batches[i]);
        PhaseFromAccumulates(dirs, saved.1, windows, batches, paths, i + 1, acc + batches[i], calls + [call], phase, folder);
        assert batches[i..] == [batches[i]] + batches[i + 1..];
        FlattenCons(batches[i], batches[i + 1..]);
        CallsOfCons(windows, batches, i, phase, folder);
      }
    } else {
      assert batches[i..] == [];
    }
  }

  lemma {:induction false} PhaseFromLabelled(
    dirs: set<string>, files: map<string, seq<Post>>, windows: seq<Windows.Window>,
    batches: seq<seq<Post>>, paths: seq<string>, i: nat, acc: seq<Post>, calls: seq<SaveCall>, phase: string, folder: string)
    requires |batches| == |windows| && |paths| == |windows|
    requires forall j :: 0 <= j < |batches| ==> Labelled(batches[j])
    requires Labelled(acc)
    ensures Labelled(PhaseFrom(dirs, files, windows, batches, paths, i, acc, calls, phase, folder).posts)
    decreases |windows| - i
  {
    if i < |windows| {
      var saved := Storage.SaveResult(dirs, files, batches[i], paths[i]);
      if saved.0.None? {
        LabelledAppend(acc, batches[i]);
        PhaseFromLabelled(dirs, saved.1, windows, batches, paths, i + 1, acc + batches[i],
                          calls + [SaveCall(folder, phase, windows[i].start, batches[i])], phase, folder);
      }
    }
  }

  /** processar_etapa, when no save fails: the phase's posts are its windows' batches
      concatenated in window order (so the length is the sum of the batch lengths), the
      JSON saver was called once per window with the phase name, the window start and
      that window's batch; every post carries a classifier label. */
  lemma {:induction false} PhaseResult(dirs: set<string>, files: map<string, seq<Post>>, windows: seq<Windows.Window>,
                    limit: int, phase: string, folder: string,
                    api: Api, classifier: string -> seq<ModelScore>, clean: string -> string)
    requires StartsNonNegative(windows)
    ensures var o := Phase(dirs, files, windows, limit, phase, folder, api, classifier, clean);
      var bs := Batches(windows, limit, api, classifier, clean);
      && Labelled(o.posts)
      && (o.err.None? ==>
            && o.posts == Flatten(bs)
            && |o.posts| == TotalLength(bs)
            && o.jsonCalls == CallsOf(windows, bs, 0, phase, folder)
            && |o.jsonCalls| == |windows|
            && (forall j :: 0 <= j < |windows| ==>
                  o.jsonCalls[j] == SaveCall(folder, phase, windows[j].start, bs[j])))
  {
    var bs := Batches(windows, limit, api, classifier, clean);
    var ps := CsvPaths(windows, folder, phase);
    PhaseFromAccumulates(dirs, files, windows, bs, ps, 0, [], [], phase, folder);
    PhaseFromLabelled(dirs, files, windows, bs, ps, 0, [], [], phase, folder);
    assert bs[0..] == bs;
    assert [] + CallsOf(windows, bs, 0, phase, folder) == CallsOf(windows, bs, 0, phase, folder);
    FlattenLength(bs);
  }

  /** Path q is present in both maps with the same contents, or absent from both. */
  predicate SameAt(before: map<string, seq<Post>>, after: map<string, seq<Post>>, q: string) {
    && (q in after <==> q in before)
    && (q in before ==> after[q] == before[q])
  }

  /** The phase loop's effect on the files, when no save fails and the paths are
      distinct: the path of each window with a non-empty batch holds that batch, and
      every other path is as it was (an empty batch writes nothing). */
  lemma {:induction false} PhaseFromFiles(
    dirs: set<string>, files: map<string, seq<Post>>, windows: seq<Windows.Window>,
    batches: seq<seq<Post>>, paths: seq<string>, i: nat, acc: seq<Post>, calls: seq<SaveCall>, phase: string, folder: string)
    requires |batches| == |windows| && |paths| == |windows| && i <= |windows|
    requires forall j, k :: i <= j < k < |paths| ==> paths[j] != paths[k]
    ensures var o := PhaseFrom(dirs, files, windows, batches, paths, i, acc, calls, phase, folder);
      o.err.None? ==>
        && (forall j :: i <= j < |windows| && batches[j] != [] ==> paths[j] in o.files && o.files[paths[j]] == batches[j])
        && (forall q :: (forall j :: i <= j < |windows| && batches[j] != [] ==> q != paths[j]) ==> SameAt(files, o.files, q))
    decreases |windows| - i
  {
    if i < |windows| {
      var saved := Storage.SaveResult(dirs, files, batches[i], paths[i]);
      if saved.0.None? {
        var call := SaveCall(folder, phase, windows[i].start, batches[i]);
        PhaseFromFiles(dirs, saved.1, windows, batches, paths, i + 1, acc + batches[i], calls + [call], phase, folder);
        var o := PhaseFrom(dirs, saved.1, windows, batches, paths, i + 1, acc + batches[i], calls + [call], phase, folder);
        assert saved.1 == if batches[i] == [] then files else files[paths[i] := batches[i]];
        if o.err.None? {
          forall q | (forall j :: i <= j < |windows| && batches[j] != [] ==> q != paths[j])
            ensures SameAt(files, o.files, q)
          {
            assert batches[i] != [] ==> q != paths[i];
            assert SameAt(saved.1, o.files, q);
          }
          if batches[i] != [] {
            assert SameAt(saved.1, o.files, paths[i]);
          }
        }
      }
    }
  }

  /** No two windows of the list start at the same minute. */
  predicate DistinctStarts(windows: seq<Windows.Window>) {
    forall j, k :: 0 <= j < k < |windows| ==> windows[j].start != windows[k].start
  }

  /** After a phase, the CSV file of each of its windows with a non-empty batch holds
      that batch. */
  predicate SavedCsvs(files: map<string, seq<Post>>, folder: string, phase: string,
                      windows: seq<Windows.Window>, bs: seq<seq<Post>>)
    requires StartsNonNegative(windows) && |bs| == |windows|
  {
    forall j :: 0 <= j < |windows| && bs[j] != [] ==>
      && Storage.CsvPath(folder, phase, windows[j].start) in files
      && files[Storage.CsvPath(folder, phase, windows[j].start)] == bs[j]
  }

  /** q is not the CSV file of any window of the phase with a non-empty batch. */
  predicate Untouched(q: string, folder: string, phase: string, windows: seq<Windows.Window>, bs: seq<seq<Post>>)
    requires StartsNonNegative(windows) && |bs| == |windows|
  {
    forall j :: 0 <= j < |windows| && bs[j] != [] ==> q != Storage.CsvPath(folder, phase, windows[j].start)
  }

  /** processar_etapa's CSV files, when no save fails and no two windows share a start:
      each window with a non-empty batch has that batch in its CSV file, and every
      other path of the filesystem is as before. */
  lemma {:induction false} PhaseFiles(dirs: set<string>, files: map<string, seq<Post>>, windows: seq<Windows.Window>,
                    limit: int, phase: string, folder: string,
                    api: Api, classifier: string -> seq<ModelScore>, clean: string -> string)
    requires StartsNonNegative(windows) && DistinctStarts(windows)
    requires phase != [] && phase[0] != '/'
    ensures var o := Phase(dirs, files, windows, limit, phase, folder, api, classifier, clean);
      var bs := Batches(windows, limit, api, classifier, clean);
      o.err.None? ==>
        && SavedCsvs(o.files, folder, phase, windows, bs)
        && forall q :: Untouched(q, folder, phase, windows, bs) ==> SameAt(files, o.files, q)
  {
    SavedFrom(dirs, files, windows, Batches(windows, limit, api, classifier, clean), phase, folder);
  }

  /** PhaseFiles for any batches. */
  lemma {:induction false} SavedFrom(dirs: set<string>, files: map<string, seq<Post>>, windows: seq<Windows.Window>,
                                     bs: seq<seq<Post>>, phase: string, folder: string)
    requires StartsNonNegative(windows) && DistinctStarts(windows) && |bs| == |windows|
    requires phase != [] && phase[0] != '/'
    ensures var o := PhaseFrom(dirs, files, windows, bs, CsvPaths(windows, folder, phase), 0, [], [], phase, folder);
      o.err.None? ==>
        && SavedCsvs(o.files, folder, phase, windows, bs)
        && forall q :: Untouched(q, folder, phase, windows, bs) ==> SameAt(files, o.files, q)
  {
    var ps := CsvPaths(windows, folder, phase);
    var o := PhaseFrom(dirs, files, windows, bs, ps, 0, [], [], phase, folder);
    CsvPathsDistinct(windows, folder, phase);
    PhaseFromFiles(dirs, files, windows, bs, ps, 0, [], [], phase, folder);
    if o.err.None? {
      PathsSaved(files, o.files, folder, phase, windows, bs, ps);
    }
  }

  /** PhaseFromFiles's conclusion over the CSV paths, restated per window. */
  lemma {:induction false} PathsSaved(before: map<string, seq<Post>>, after: map<string, seq<Post>>,
                                      folder: string, phase: string,
                                      windows: seq<Windows.Window>, bs: seq<seq<Post>>, ps: seq<string>)
    requires StartsNonNegative(windows) && |bs| == |windows|
    requires ps == CsvPaths(windows, folder, phase)
    requires forall j :: 0 <= j < |windows| && bs[j] != [] ==> ps[j] in after && after[ps[j]] == bs[j]
    requires forall q :: (forall j :: 0 <= j < |windows| && bs[j] != [] ==> q != ps[j]) ==> SameAt(before, after, q)
    ensures SavedCsvs(after, folder, phase, windows, bs)
    ensures forall q :: Untouched(q, folder, phase, windows, bs) ==> SameAt(before, after, q)
  {
    forall q | Untouched(q, folder, phase, windows, bs)
      ensures SameAt(before, after, q)
    {
      assert forall j :: 0 <= j < |windows| && bs[j] != [] ==> q != ps[j];
    }
  }

  /** Distinct window starts give each window of a phase its own CSV file. */
  lemma {:induction false} CsvPathsDistinct(windows: seq<Windows.Window>, folder: string, phase: string)
    requires StartsNonNegative(windows) && DistinctStarts(windows)
    requires phase != [] && phase[0] != '/'
    ensures var ps := CsvPaths(windows, folder, phase);
      forall j, k :: 0 <= j < k < |ps| ==> ps[j] != ps[k]
  {
    var ps := CsvPaths(windows, folder, phase);
    forall j, k | 0 <= j < k < |ps|
      ensures ps[j] != ps[k]
    {
      if ps[j] == ps[k] {
        Storage.CsvPathInjective(folder, phase, windows[j].start, windows[k].start);
      }
    }
  }

  /** Phases whose names differ at some position never write each other's files. */
  lemma {:induction false} OtherPhaseUntouched(folder: string, p1: string, t: nat, p2: string,
                                               windows: seq<Windows.Window>, bs: seq<seq<Post>>, k: nat)
    requires StartsNonNegative(windows) && |bs| == |windows|
    requires p1 != [] && p1[0] != '/' && p2 != [] && p2[0] != '/'
    requires k < |p1| && k < |p2| && p1[k] != p2[k]
    ensures Untouched(Storage.CsvPath(folder, p1, t), folder, p2, windows, bs)
  {
    forall j | 0 <= j < |windows| && bs[j] != []
      ensures Storage.CsvPath(folder, p1, t) != Storage.CsvPath(folder, p2, windows[j].start)
    {
      var n1 := Storage.CsvName(p1, t);
      var n2 := Storage.CsvName(p2, windows[j].start);
      assert n1[k] == p1[k] && n2[k] == p2[k];
      if Storage.CsvPath(folder, p1, t) == Storage.CsvPath(folder, p2, windows[j].start) {
        Storage.JoinInjective(folder, n1, n2);
      }
    }
  }

  /** The CSV files of one phase survive a later phase whose name differs at position k. */
  lemma {:induction false} SavedKept(before: map<string, seq<Post>>, after: map<string, seq<Post>>, folder: string,
                                     p1: string, w1: seq<Windows.Window>, b1: seq<seq<Post>>,
                                     p2: string, w2: seq<Windows.Window>, b2: seq<seq<Post>>, k: nat)
    requires StartsNonNegative(w1) && |b1| == |w1| && StartsNonNegative(w2) && |b2| == |w2|
    requires p1 != [] && p1[0] != '/' && p2 != [] && p2[0] != '/'
    requires k < |p1| && k < |p2| && p1[k] != p2[k]
    requires SavedCsvs(before, folder, p1, w1, b1)
    requires forall q :: Untouched(q, folder, p2, w2, b2) ==> SameAt(before, after, q)
    ensures SavedCsvs(after, folder, p1, w1, b1)
  {
    forall j | 0 <= j < |w1| && b1[j] != []
      ensures Storage.CsvPath(folder, p1, w1[j].start) in after
      ensures after[Storage.CsvPath(folder, p1, w1[j].start)] == b1[j]
    {
      OtherPhaseUntouched(folder, p1, w1[j].start, p2, w2, b2, k);
      assert SameAt(before, after, Storage.CsvPath(folder, p1, w1[j].start));
    }
  }

  lemma {:induction false} LabelledAppend(a: seq<Post>, b: seq<Post>)
    requires Labelled(a) && Labelled(b)
    ensures Labelled(a + b)
  {
    forall j | 0 <= j < |a + b|
      ensures (a + b)[j] == if j < |a| then a[j] else b[j - |a|]
    {
    }
  }

  /** One window of processar_etapa: coletar_tweets, then analisar_tweets in place on
      the collected list. */
  method CollectAndClassify(windows: seq<Windows.Window>, i: nat, limit: int, api: Api,
                            classifier: string -> seq<ModelScore>, clean: string -> string)
    returns (batch: seq<Post>)
    requires i < |windows|
    ensures batch == Batch(windows, i, limit, api, classifier, clean)
  {
    var collected, _, _ := Collection.CollectTweets(windows[i], limit, Config.ClubProfile, WindowServer(api, i), clean);
    var buffer := new Post[|collected|](k requires 0 <= k < |collected| => collected[k]);
    assert buffer[..] == collected;
    var analysed := EmotionAnalysis.AnalyzeTweets(buffer, classifier);
    batch := analysed[..];
  }

  /** processar_etapa(janelas_etapa, limite, nome_etapa), saving into `folder`. */
  method ProcessPhase(fs: Storage.FileSystem, windows: seq<Windows.Window>, limit: int, phase: string,
                      folder: string, api: Api,
                      classifier: string -> seq<ModelScore>, clean: string -> string)
    returns (posts: seq<Post>, jsonCalls: seq<SaveCall>, err: Option<Storage.Error>)
    requires StartsNonNegative(windows)
    modifies fs
    ensures PhaseOutcome(posts, fs.files, jsonCalls, err)
         == Phase(old(fs.dirs), old(fs.files), windows, limit, phase, folder, api, classifier, clean)
    ensures fs.dirs == old(fs.dirs)
  {
    ghost var batches := Batches(windows, limit, api, classifier, clean);
    ghost var paths := CsvPaths(windows, folder, phase);
    posts, jsonCalls, err := ProcessWindows(fs, windows, limit, phase, folder, api, classifier, clean, batches, paths);
  }

  /** The loop of processar_etapa, against the windows' batches and CSV paths. */
  method ProcessWindows(fs: Storage.FileSystem, windows: seq<Windows.Window>, limit: int, phase: string,
                        folder: string, api: Api,
                        classifier: string -> seq<ModelScore>, clean: string -> string,
                        ghost batches: seq<seq<Post>>, ghost paths: seq<string>)
    returns (posts: seq<Post>, jsonCalls: seq<SaveCall>, err: Option<Storage.Error>)
    requires StartsNonNegative(windows)
    requires |batches| == |windows| && |paths| == |windows|
    requires forall j :: 0 <= j < |windows| ==> batches[j] == Batch(windows, j, limit, api, classifier, clean)
    requires forall j :: 0 <= j < |windows| ==> paths[j] == Storage.CsvPath(folder, phase, windows[j].start)
    modifies fs
    ensures PhaseOutcome(posts, fs.files, jsonCalls, err)
         == PhaseFrom(old(fs.dirs), old(fs.files), windows, batches, paths, 0, [], [], phase, folder)
    ensures fs.dirs == old(fs.dirs)
  {
    posts := [];
    jsonCalls := [];
    err := None;
    ghost var target := PhaseFrom(fs.dirs, fs.files, windows, batches, paths, 0, [], [], phase, folder);
    var i := 0;
    while i < |windows|
      invariant 0 <= i <= |windows|
      invariant fs.dirs == old(fs.dirs)
      invariant err.None?
      invariant target == PhaseFrom(fs.dirs, fs.files, windows, batches, paths, i, posts, jsonCalls, phase, folder)
    {
      var batch;
      ghost var files := fs.files;
      batch, err := ProcessWindow(fs, windows, i, limit, phase, folder, api, classifier, clean, batches[i], paths[i]);
      if err.Some? {
        assert fs.files == files;
        return;
      }
      jsonCalls := jsonCalls + [SaveCall(folder, phase, windows[i].start, batch)];
      posts := posts + batch;
      i := i + 1;
    }
  }

  /** One window of processar_etapa: collect, classify, save the CSV. */
  method ProcessWindow(fs: Storage.FileSystem, windows: seq<Windows.Window>, i: nat, limit: int, phase: string,
                       folder: string, api: Api,
                       classifier: string -> seq<ModelScore>, clean: string -> string,
                       ghost expected: seq<Post>, ghost path: string)
    returns (batch: seq<Post>, err: Option<Storage.Error>)
    requires i < |windows| && windows[i].start >= 0
    requires expected == Batch(windows, i, limit, api, classifier, clean)
    requires path == Storage.CsvPath(folder, phase, windows[i].start)
    modifies fs
    ensures batch == expected
    ensures (err, fs.files) == Storage.SaveResult(old(fs.dirs), old(fs.files), expected, path)
    ensures fs.dirs == old(fs.dirs)
  {
    batch := CollectAndClassify(windows, i, limit, api, classifier, clean);
    err := fs.SaveTweetsCsv(batch, folder, phase, windows[i].start);
  }

  // ---------------------------------------------------------------------------
  // The script

  /** Everything one run produces besides the files themselves. */
  datatype Report = Report(
    csvFolder: string,            // where the CSV files went
    outputFolder: string,         // where the chart and table went
    pre: seq<Post>, during: seq<Post>, post: seq<Post>,
    phaseStats: seq<Stats>,
    overall: Stats,
    chart: seq<real>,
    chartFile: string,
    table: seq<seq<Visualization.Cell>>,
    tableFile: string,
    jsonCalls: seq<SaveCall>)

  /** The dictionary of per-phase percentages handed to the table. */
  function PhaseMap(pre: seq<Post>, during: seq<Post>, post: seq<Post>): map<string, Dist>
    requires Aggregation.Classified(pre) && Aggregation.Classified(during) && Aggregation.Classified(post)
  {
    map["pre_jogo" := Aggregation.Percentages(pre),
        "durante_jogo" := Aggregation.Percentages(during),
        "pos_jogo" := Aggregation.Percentages(post)]
  }

  /** With the kickoff at least an hour after the origin of time, no window starts
      before it. */
  lemma {:induction false} ScheduleStartsNonNegative(kickoff: int)
    requires kickoff >= 60
    ensures var w := Windows.Schedule(kickoff);
      StartsNonNegative(w.pre) && StartsNonNegative(w.during) && StartsNonNegative(w.post)
  {
  }

  /** Every window lies inside Python's date range, so the year of its start has at
      most four digits. */
  predicate WithinDateRange(ws: seq<Windows.Window>) {
    forall j :: 0 <= j < |ws| ==>
      && 0 <= ws[j].start <= ws[j].end <= Calendar.LastMinute
      && Calendar.FromMinutes(ws[j].start).year <= 9999
  }

  /** A run of back-to-back windows from a non-negative base that ends by LastMinute
      is inside the date range. */
  lemma {:induction false} SlotsWithinDateRange(ws: seq<Windows.Window>, base: int)
    requires base >= 0 && base + Windows.WindowMinutes * |ws| <= Calendar.LastMinute
    requires forall j :: 0 <= j < |ws| ==> ws[j] == Windows.Slot(base, j)
    ensures WithinDateRange(ws)
  {
    forall j | 0 <= j < |ws| ensures Calendar.FromMinutes(ws[j].start).year <= 9999 {
      Calendar.FourDigitYears(ws[j].start);
    }
  }

  /** With the last window ending by 9999-12-31 23:59, as datetime requires, every
      window of the schedule is inside the date range. */
  lemma {:induction false} ScheduleWithinDateRange(kickoff: int)
    requires kickoff >= 60 && kickoff + 240 <= Calendar.LastMinute
    ensures var w := Windows.Schedule(kickoff);
      WithinDateRange(w.pre) && WithinDateRange(w.during) && WithinDateRange(w.post)
  {
    var w := Windows.Schedule(kickoff);
    SlotsWithinDateRange(w.pre, kickoff - 60);
    SlotsWithinDateRange(w.during, kickoff);
    SlotsWithinDateRange(w.post, kickoff + 120);
  }

  /** The pre-match, during and post-match windows of the schedule each start at
      distinct minutes. */
  lemma {:induction false} ScheduleDistinctStarts(kickoff: int)
    ensures var w := Windows.Schedule(kickoff);
      DistinctStarts(w.pre) && DistinctStarts(w.during) && DistinctStarts(w.post)
  {
    var w := Windows.Schedule(kickoff);
    assert forall j :: 0 <= j < |w.pre| ==> w.pre[j].start == kickoff - 60 + Windows.WindowMinutes * j;
    assert forall j :: 0 <= j < |w.during| ==> w.during[j].start == kickoff + Windows.WindowMinutes * j;
    assert forall j :: 0 <= j < |w.post| ==> w.post[j].start == kickoff + 120 + Windows.WindowMinutes * j;
  }

  /** What the three phases leave behind: each phase's posts, the files, the JSON
      calls so far and the error that aborted the run, if any. */
  datatype RunOutcome = RunOutcome(
    pre: seq<Post>, during: seq<Post>, post: seq<Post>,
    files: map<string, seq<Post>>, calls: seq<SaveCall>, err: Option<Storage.Error>)

  /** The three phases in order over one filesystem, pre-match capped at 75 posts per
      window and the other two at 100, all saving into `folder`; each phase starts from
      the files the previous one left, and the first failed save aborts the rest. */
  function Phases(dirs: set<string>, files: map<string, seq<Post>>, windows: Windows.MatchWindows, folder: string,
                  apiPre: Api, apiDuring: Api, apiPost: Api,
                  classifier: string -> seq<ModelScore>, clean: string -> string): RunOutcome
    requires StartsNonNegative(windows.pre) && StartsNonNegative(windows.during) && StartsNonNegative(windows.post)
  {
    var a := Phase(dirs, files, windows.pre, Config.LimitPreMatch, "pre_jogo", folder, apiPre, classifier, clean);
    if a.err.Some? then RunOutcome(a.posts, [], [], a.files, a.jsonCalls, a.err)
    else
      var b := Phase(dirs, a.files, windows.during, Config.LimitDuringPost, "durante_jogo", folder,
                     apiDuring, classifier, clean);
      if b.err.Some? then RunOutcome(a.posts, b.posts, [], b.files, a.jsonCalls + b.jsonCalls, b.err)
      else
        var c := Phase(dirs, b.files, windows.post, Config.LimitDuringPost, "pos_jogo", folder,
                       apiPost, classifier, clean);
        RunOutcome(a.posts, b.posts, c.posts, c.files, a.jsonCalls + b.jsonCalls + c.jsonCalls, c.err)
  }

  /** The CSV files of a completed run: every window of every phase with a non-empty
      batch has it in its CSV file under `folder`, and every other path is as before. */
  ghost predicate RunSaved(before: map<string, seq<Post>>, after: map<string, seq<Post>>, folder: string,
                     windows: Windows.MatchWindows, bPre: seq<seq<Post>>, bDuring: seq<seq<Post>>, bPost: seq<seq<Post>>)
    requires StartsNonNegative(windows.pre) && StartsNonNegative(windows.during) && StartsNonNegative(windows.post)
    requires |bPre| == |windows.pre| && |bDuring| == |windows.during| && |bPost| == |windows.post|
  {
    && SavedCsvs(after, folder, "pre_jogo", windows.pre, bPre)
    && SavedCsvs(after, folder, "durante_jogo", windows.during, bDuring)
    && SavedCsvs(after, folder, "pos_jogo", windows.post, bPost)
    && forall q ::
         Untouched(q, folder, "pre_jogo", windows.pre, bPre)
         && Untouched(q, folder, "durante_jogo", windows.during, bDuring)
         && Untouched(q, folder, "pos_jogo", windows.post, bPost)
         ==> SameAt(before, after, q)
  }

  /** A run that no save aborted: each phase's posts are its batches in window order,
      the JSON calls are the three phases' calls one after another, and the files are
      as RunSaved says. */
  lemma {:induction false} PhasesResult(dirs: set<string>, files: map<string, seq<Post>>, windows: Windows.MatchWindows,
                                        folder: string, apiPre: Api, apiDuring: Api, apiPost: Api,
                                        classifier: string -> seq<ModelScore>, clean: string -> string)
    requires StartsNonNegative(windows.pre) && StartsNonNegative(windows.during) && StartsNonNegative(windows.post)
    requires DistinctStarts(windows.pre) && DistinctStarts(windows.during) && DistinctStarts(windows.post)
    ensures var o := Phases(dirs, files, windows, folder, apiPre, apiDuring, apiPost, classifier, clean);
      var bPre := Batches(windows.pre, Config.LimitPreMatch, apiPre, classifier, clean);
      var bDuring := Batches(windows.during, Config.LimitDuringPost, apiDuring, classifier, clean);
      var bPost := Batches(windows.post, Config.LimitDuringPost, apiPost, classifier, clean);
      o.err.None? ==>
        && o.pre == Flatten(bPre) && o.during == Flatten(bDuring) && o.post == Flatten(bPost)
        && o.calls == CallsOf(windows.pre, bPre, 0, "pre_jogo", folder)
                    + CallsOf(windows.during, bDuring, 0, "durante_jogo", folder)
                    + CallsOf(windows.post, bPost, 0, "pos_jogo", folder)
        && RunSaved(files, o.files, folder, windows, bPre, bDuring, bPost)
  {
    var o := Phases(dirs, files, windows, folder, apiPre, apiDuring, apiPost, classifier, clean);
    var a := Phase(dirs, files, windows.pre, Config.LimitPreMatch, "pre_jogo", folder, apiPre, classifier, clean);
    if a.err.None? {
      var b := Phase(dirs, a.files, windows.during, Config.LimitDuringPost, "durante_jogo", folder,
                     apiDuring, classifier, clean);
      if b.err.None? {
        var c := Phase(dirs, b.files, windows.post, Config.LimitDuringPost, "pos_jogo", folder,
                       apiPost, classifier, clean);
        if c.err.None? {
          PhaseResult(dirs, files, windows.pre, Config.LimitPreMatch, "pre_jogo", folder, apiPre, classifier, clean);
          PhaseResult(dirs, a.files, windows.during, Config.LimitDuringPost, "durante_jogo", folder,
                      apiDuring, classifier, clean);
          PhaseResult(dirs, b.files, windows.post, Config.LimitDuringPost, "pos_jogo", folder,
                      apiPost, classifier, clean);
          PhasesFiles(dirs, files, windows, folder, apiPre, apiDuring, apiPost, classifier, clean);
        }
      }
    }
  }

  /** The file half of PhasesResult. */
  lemma {:induction false} PhasesFiles(dirs: set<string>, files: map<string, seq<Post>>, windows: Windows.MatchWindows,
                                       folder: string, apiPre: Api, apiDuring: Api, apiPost: Api,
                                       classifier: string -> seq<ModelScore>, clean: string -> string)
    requires StartsNonNegative(windows.pre) && StartsNonNegative(windows.during) && StartsNonNegative(windows.post)
    requires DistinctStarts(windows.pre) && DistinctStarts(windows.during) && DistinctStarts(windows.post)
    ensures var o := Phases(dirs, files, windows, folder, apiPre, apiDuring, apiPost, classifier, clean);
      o.err.None? ==>
        RunSaved(files, o.files, folder, windows,
                 Batches(windows.pre, Config.LimitPreMatch, apiPre, classifier, clean),
                 Batches(windows.during, Config.LimitDuringPost, apiDuring, classifier, clean),
                 Batches(windows.post, Config.LimitDuringPost, apiPost, classifier, clean))
  {
    var a := Phase(dirs, files, windows.pre, Config.LimitPreMatch, "pre_jogo", folder, apiPre, classifier, clean);
    if a.err.None? {
      var b := Phase(dirs, a.files, windows.during, Config.LimitDuringPost, "durante_jogo", folder,
                     apiDuring, classifier, clean);
      if b.err.None? {
        var c := Phase(dirs, b.files, windows.post, Config.LimitDuringPost, "pos_jogo", folder,
                       apiPost, classifier, clean);
        if c.err.None? {
          PhaseFiles(dirs, files, windows.pre, Config.LimitPreMatch, "pre_jogo", folder, apiPre, classifier, clean);
          PhaseFiles(dirs, a.files, windows.during, Config.LimitDuringPost, "durante_jogo", folder,
                     apiDuring, classifier, clean);
          PhaseFiles(dirs, b.files, windows.post, Config.LimitDuringPost, "pos_jogo", folder,
                     apiPost, classifier, clean);
          ChainSaved(files, a.files, b.files, c.files, folder, windows,
                     Batches(windows.pre, Config.LimitPreMatch, apiPre, classifier, clean),
                     Batches(windows.during, Config.LimitDuringPost, apiDuring, classifier, clean),
                     Batches(windows.post, Config.LimitDuringPost, apiPost, classifier, clean));
        }
      }
    }
  }

  /** Three phases writing in turn (files, then a, b and c) leave each phase's CSV files
      in place, since the phase names differ, and touch no other path. */
  lemma {:induction false} ChainSaved(files: map<string, seq<Post>>, a: map<string, seq<Post>>,
                                      b: map<string, seq<Post>>, c: map<string, seq<Post>>,
                                      folder: string, windows: Windows.MatchWindows,
                                      bPre: seq<seq<Post>>, bDuring: seq<seq<Post>>, bPost: seq<seq<Post>>)
    requires StartsNonNegative(windows.pre) && StartsNonNegative(windows.during) && StartsNonNegative(windows.post)
    requires |bPre| == |windows.pre| && |bDuring| == |windows.during| && |bPost| == |windows.post|
    requires SavedCsvs(a, folder, "pre_jogo", windows.pre, bPre)
    requires forall q :: Untouched(q, folder, "pre_jogo", windows.pre, bPre) ==> SameAt(files, a, q)
    requires SavedCsvs(b, folder, "durante_jogo", windows.during, bDuring)
    requires forall q :: Untouched(q, folder, "durante_jogo", windows.during, bDuring) ==> SameAt(a, b, q)
    requires SavedCsvs(c, folder, "pos_jogo", windows.post, bPost)
    requires forall q :: Untouched(q, folder, "pos_jogo", windows.post, bPost) ==> SameAt(b, c, q)
    ensures RunSaved(files, c, folder, windows, bPre, bDuring, bPost)
  {
    var pre, during, post := "pre_jogo", "durante_jogo", "pos_jogo";
    assert pre[0] == 'p' && during[0] == 'd' && post[0] == 'p' && pre[1] == 'r' && post[1] == 'o';
    SavedKept(a, b, folder, pre, windows.pre, bPre, during, windows.during, bDuring, 0);
    SavedKept(b, c, folder, pre, windows.pre, bPre, post, windows.post, bPost, 1);
    SavedKept(b, c, folder, during, windows.during, bDuring, post, windows.post, bPost, 0);
    forall q | Untouched(q, folder, pre, windows.pre, bPre)
               && Untouched(q, folder, during, windows.during, bDuring)
               && Untouched(q, folder, post, windows.post, bPost)
      ensures SameAt(files, c, q)
    {
      assert SameAt(files, a, q) && SameAt(a, b, q) && SameAt(b, c, q);
    }
  }

  /** The three phases in order, pre-match capped at 75 posts per window and the other
      two at 100, all saving into `folder`; the first failed save aborts the rest. The
      returned posts, calls and error, and the files left behind, are those Phases
      describes; on success each phase's posts are its windows' batches in order. */
  method RunPhases(fs: Storage.FileSystem, windows: Windows.MatchWindows, folder: string,
                   apiPre: Api, apiDuring: Api, apiPost: Api,
                   classifier: string -> seq<ModelScore>, clean: string -> string)
    returns (pre: seq<Post>, during: seq<Post>, post: seq<Post>, calls: seq<SaveCall>,
             err: Option<Storage.Error>)
    requires StartsNonNegative(windows.pre) && StartsNonNegative(windows.during) && StartsNonNegative(windows.post)
    modifies fs
    ensures fs.dirs == old(fs.dirs)
    ensures RunOutcome(pre, during, post, fs.files, calls, err)
         == Phases(old(fs.dirs), old(fs.files), windows, folder, apiPre, apiDuring, apiPost, classifier, clean)
    ensures err.None? ==>
      && pre == Flatten(Batches(windows.pre, Config.LimitPreMatch, apiPre, classifier, clean))
      && during == Flatten(Batches(windows.during, Config.LimitDuringPost, apiDuring, classifier, clean))
      && post == Flatten(Batches(windows.post, Config.LimitDuringPost, apiPost, classifier, clean))
      && Labelled(pre) && Labelled(during) && Labelled(post)
      && |calls| == |windows.pre| + |windows.during| + |windows.post|
  {
    during, post := [], [];
    PhaseResult(fs.dirs, fs.files, windows.pre, Config.LimitPreMatch, "pre_jogo",
                folder, apiPre, classifier, clean);
    var callsDuring, callsPost;
    pre, calls, err := ProcessPhase(fs, windows.pre, Config.LimitPreMatch, "pre_jogo",
                                    folder, apiPre, classifier, clean);
    if err.Some? {
      return;
    }
    PhaseResult(fs.dirs, fs.files, windows.during, Config.LimitDuringPost, "durante_jogo",
                folder, apiDuring, classifier, clean);
    during, callsDuring, err := ProcessPhase(fs, windows.during, Config.LimitDuringPost, "durante_jogo",
                                             folder, apiDuring, classifier, clean);
    calls := calls + callsDuring;
    if err.Some? {
      return;
    }
    PhaseResult(fs.dirs, fs.files, windows.post, Config.LimitDuringPost, "pos_jogo",
                folder, apiPost, classifier, clean);
    post, callsPost, err := ProcessPhase(fs, windows.post, Config.LimitDuringPost, "pos_jogo",
                                         folder, apiPost, classifier, clean);
    calls := calls + callsPost;
  }

  /** A report's statistics, chart values, table and output files are those of its
      own three phases' posts: per phase and over all posts, the chart and table files
      named after the identifier in the output folder. */
  predicate Summarizes(rep: Report, dataHora: string) {
    var all := rep.pre + rep.during + rep.post;
    && Labelled(rep.pre) && Labelled(rep.during) && Labelled(rep.post)
    && rep.phaseStats == [Statistics(rep.pre), Statistics(rep.during), Statistics(rep.post)]
    && rep.overall == Statistics(all)
    && rep.chart == Visualization.ChartValues(Aggregation.Percentages(all))
    && rep.table == Visualization.SummaryRows(PhaseMap(rep.pre, rep.during, rep.post))
    && rep.chartFile == Visualization.ChartPath(rep.outputFolder, dataHora)
    && rep.tableFile == Visualization.TablePath(rep.outputFolder, dataHora)
  }

  /** The statistics, the chart values and the summary table of a completed run, each
      computed from the three phases' posts. */
  method Summarize(csvFolder: string, outputFolder: string, dataHora: string,
                   pre: seq<Post>, during: seq<Post>, post: seq<Post>, calls: seq<SaveCall>)
    returns (rep: Report)
    requires Labelled(pre) && Labelled(during) && Labelled(post)
    ensures rep.csvFolder == csvFolder && rep.outputFolder == outputFolder
    ensures rep.pre == pre && rep.during == during && rep.post == post && rep.jsonCalls == calls
    ensures Summarizes(rep, dataHora)
  {
    var all := pre + during + post;
    LabelledAppend(pre, during);
    LabelledAppend(pre + during, post);
    var stats := [Statistics(pre), Statistics(during), Statistics(post)];
    var overall := Statistics(all);
    var chart := Visualization.ChartValues(Aggregation.Percentages(all));
    var table := Visualization.SummaryTable(PhaseMap(pre, during, post));
    var chartFile := Visualization.ChartPath(outputFolder, dataHora);
    var tableFile := Visualization.TablePath(outputFolder, dataHora);
    rep := Report(csvFolder, outputFolder, pre, during, post, stats, overall,
                  chart, chartFile, table, tableFile, calls);
  }

  /** The script from the identifier on: create the folders (unpacking the returned
      pair as (results, data), the reverse of the order it is returned in), lay out the
      windows, run the three phases with caps 75, 100 and 100, then build the statistics,
      the chart values and the table. `n` is the EXEC counter chosen. */
  method Run(fs: Storage.FileSystem, opponent: string, date: string, time: string, kickoff: int,
             apiPre: Api, apiDuring: Api, apiPost: Api,
             classifier: string -> seq<ModelScore>, clean: string -> string)
    returns (r: Storage.Result<Report>, ghost n: nat)
    requires kickoff >= 60
    requires kickoff + 240 <= Calendar.LastMinute
    modifies fs
    ensures var base := Storage.BaseName(opponent, DataHora(date, time));
      var w := Windows.Schedule(kickoff);
      var bPre := Batches(w.pre, Config.LimitPreMatch, apiPre, classifier, clean);
      var bDuring := Batches(w.during, Config.LimitDuringPost, apiDuring, classifier, clean);
      var bPost := Batches(w.post, Config.LimitDuringPost, apiPost, classifier, clean);
      var csvFolder := Storage.ResultsPath(base, n);
      && Storage.FirstFree(old(fs.dirs), old(fs.files.Keys), base, n)
      && fs.dirs == Storage.FoldersResult(old(fs.dirs), old(fs.files.Keys), base, n).1
      && (r.Ok? ==>
            && r.value.csvFolder == csvFolder
            && r.value.outputFolder == Storage.DataPath(base, n)
            && r.value.pre == Flatten(bPre)
            && r.value.during == Flatten(bDuring)
            && r.value.post == Flatten(bPost)
            && r.value.jsonCalls == CallsOf(w.pre, bPre, 0, "pre_jogo", csvFolder)
                                  + CallsOf(w.during, bDuring, 0, "durante_jogo", csvFolder)
                                  + CallsOf(w.post, bPost, 0, "pos_jogo", csvFolder)
            && |r.value.jsonCalls| == |w.pre| + |w.during| + |w.post|
            && RunSaved(old(fs.files), fs.files, csvFolder, w, bPre, bDuring, bPost)
            && Summarizes(r.value, DataHora(date, time)))
    ensures var base := Storage.BaseName(opponent, DataHora(date, time));
      var folders := Storage.FoldersResult(old(fs.dirs), old(fs.files.Keys), base, n);
      && (folders.0.Err? ==> r == Storage.Err(folders.0.error) && fs.files == old(fs.files))
      && (folders.0.Ok? ==>
            var o := Phases(folders.1, old(fs.files), Windows.Schedule(kickoff), Storage.ResultsPath(base, n),
                            apiPre, apiDuring, apiPost, classifier, clean);
            && fs.files == o.files
            && (r.Err? <==> o.err.Some?)
            && (o.err.Some? ==> r == Storage.Err(o.err.value)))
  {
    var dataHora := DataHora(date, time);
    var folders;
    folders, n := fs.CreateResultFolders(opponent, dataHora);
    if folders.Err? {
      r := Storage.Err(folders.error);
      return;
    }
    var (pastaResultados, pastaData) := folders.value;
    var windows := Windows.ComputeWindows(kickoff);
    ScheduleStartsNonNegative(kickoff);
    ScheduleDistinctStarts(kickoff);
    PhasesResult(fs.dirs, fs.files, windows, pastaData, apiPre, apiDuring, apiPost, classifier, clean);
    var pre, during, post, calls, err := RunPhases(fs, windows, pastaData, apiPre, apiDuring, apiPost, classifier, clean);
    if err.Some? {
      r := Storage.Err(err.value);
      return;
    }
    var report := Summarize(pastaData, pastaResultados, dataHora, pre, during, post, calls);
    r := Storage.Ok(report);
  }
}
