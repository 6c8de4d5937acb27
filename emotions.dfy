// Emotion classification (src/analise_emocoes.py). The text classifier itself is an
// input: a function from a text to the (label, score) list it returns for that text.
module EmotionAnalysis {
  import opened Records
  import Config

  /** MAPEAMENTO: classifier labels (lower case) to the project's emotion labels. */
  const Mapping: map<string, string> := map[
    "joy" := "alegria", "happiness" := "alegria", "love" := "alegria", "optimism" := "alegria",
    "anger" := "raiva", "annoyance" := "raiva", "disgust" := "raiva",
    "sadness" := "tristeza", "grief" := "tristeza",
    "fear" := "medo",
    "surprise" := "surpresa"]

  /** Lower-casing of ASCII letters. No label of the mapping can be reached from a
      non-ASCII character by str.lower(), so membership tests agree with Python's. */
  predicate IsUpper(c: char) {
    'A' <= c <= 'Z'
  }

  /** One character of str.lower() on ASCII text: a capital becomes the small letter at
      the same place in the alphabet, and any other character is kept. */
  function LowerChar(c: char): (r: char)
    ensures IsUpper(c) ==> 'a' <= r <= 'z' && r as int - 'a' as int == c as int - 'A' as int
    ensures !IsUpper(c) ==> r == c
    ensures !IsUpper(r)
  {
    if 'A' <= c <= 'Z' then (c as int + 32) as char else c
  }

  /** str.lower() on ASCII text, character by character: no capital is left, and a
      string without capitals is its own image. */
  function Lower(s: string): (r: string)
    ensures |r| == |s|
    ensures forall i :: 0 <= i < |r| ==> !IsUpper(r[i])
    ensures (forall i :: 0 <= i < |s| ==> !IsUpper(s[i])) ==> r == s
  {
    seq(|s|, i requires 0 <= i < |s| => LowerChar(s[i]))
  }

  /** Each character of the lower-cased string is its own character lower-cased. */
  lemma {:induction false} LowerAt(s: string, i: int)
    requires 0 <= i < |s|
    ensures Lower(s)[i] == LowerChar(s[i])
  {
  }

  /** Lower-casing twice is lower-casing once. */
  lemma {:induction false} LowerIdempotent(s: string)
    ensures Lower(Lower(s)) == Lower(s)
  {
    var r := Lower(s);
    assert forall i :: 0 <= i < |r| ==> !IsUpper(r[i]);
  }

  /** The mapping's keys are already lower case, so each is found when the classifier
      returns it as it is. */
  lemma {:induction false} MappingKeysLower()
    ensures forall k :: k in Mapping ==> Lower(k) == k
  {
    forall k | k in Mapping
      ensures Lower(k) == k
    {
      assert forall i :: 0 <= i < |k| ==> !IsUpper(k[i]);
    }
  }

  /** A label in capitals is looked up by its lower-case form: "JOY" maps to alegria. */
  lemma {:induction false} CapitalLabelMappable(score: real)
    ensures Lower("JOY") == "joy"
    ensures Mappable(ModelScore("JOY", score)) && Mapping[Lower("JOY")] == "alegria"
  {
    var r := Lower("JOY");
    assert r[0] == 'j' && r[1] == 'o' && r[2] == 'y';
    assert r == "joy";
  }

  predicate Mappable(r: ModelScore) {
    Lower(r.name) in Mapping
  }

  predicate SortedByScore(s: seq<ModelScore>) {
    forall i, j :: 0 <= i < j < |s| ==> s[i].score >= s[j].score
  }

  /** Places x after every element scoring at least as much, so among equal scores
      the element inserted later comes later. */
  function InsertByScore(s: seq<ModelScore>, x: ModelScore): seq<ModelScore> {
    if s == [] then [x]
    else if x.score > s[0].score then [x] + s
    else [s[0]] + InsertByScore(s[1..], x)
  }

  lemma {:induction false} InsertByScoreMultiset(s: seq<ModelScore>, x: ModelScore)
    ensures multiset(InsertByScore(s, x)) == multiset(s) + multiset{x}
  {
    if s != [] && x.score <= s[0].score {
      assert s == [s[0]] + s[1..];
      InsertByScoreMultiset(s[1..], x);
    }
  }

  /** Every element of the list after insertion scores at most the larger of x's
      score and the head's. */
  lemma {:induction false} InsertByScoreBound(s: seq<ModelScore>, x: ModelScore, top: real)
    requires x.score <= top && forall k :: 0 <= k < |s| ==> s[k].score <= top
    ensures forall k :: 0 <= k < |InsertByScore(s, x)| ==> InsertByScore(s, x)[k].score <= top
  {
    if s != [] && x.score <= s[0].score {
      InsertByScoreBound(s[1..], x, top);
    }
  }

  /** Insertion keeps a sorted list sorted. */
  lemma {:induction false} InsertByScoreSorted(s: seq<ModelScore>, x: ModelScore)
    requires SortedByScore(s)
    ensures SortedByScore(InsertByScore(s, x))
  {
    if s != [] {
      var r := InsertByScore(s, x);
      if x.score > s[0].score {
        assert r == [x] + s;
        forall i, j | 0 <= i < j < |r| ensures r[i].score >= r[j].score {
          assert r[j] == s[j - 1];
          if i > 0 {
            assert r[i] == s[i - 1];
          }
        }
      } else {
        var rest := InsertByScore(s[1..], x);
        assert r == [s[0]] + rest;
        InsertByScoreSorted(s[1..], x);
        InsertByScoreBound(s[1..], x, s[0].score);
        forall i, j | 0 <= i < j < |r| ensures r[i].score >= r[j].score {
          assert r[j] == rest[j - 1];
          if i > 0 {
            assert r[i] == rest[i - 1];
          }
        }
      }
    }
  }

  /** sorted(results, key=score, reverse=True): a stable sort, highest score first. */
  function SortByScore(rs: seq<ModelScore>): seq<ModelScore> {
    if rs == [] then [] else InsertByScore(SortByScore(rs[..|rs| - 1]), rs[|rs| - 1])
  }

  /** The sort returns a permutation of its input, highest score first. */
  lemma {:induction false} SortByScoreCorrect(rs: seq<ModelScore>)
    ensures multiset(SortByScore(rs)) == multiset(rs)
    ensures SortedByScore(SortByScore(rs))
  {
    if rs != [] {
      var prefix, x := rs[..|rs| - 1], rs[|rs| - 1];
      assert rs == prefix + [x];
      SortByScoreCorrect(prefix);
      InsertByScoreMultiset(SortByScore(prefix), x);
      InsertByScoreSorted(SortByScore(prefix), x);
    }
  }

  /** The first mappable entry of a list, as the early-return loop finds it. */
  function FirstMappable(s: seq<ModelScore>): (r: Option<ModelScore>)
    ensures r.Some? ==> r.value in s && Mappable(r.value)
    ensures r.None? <==> forall i :: 0 <= i < |s| ==> !Mappable(s[i])
  {
    if s == [] then None
    else if Mappable(s[0]) then Some(s[0])
    else FirstMappable(s[1..])
  }

  /** classificar_emocao, given the classifier's output for the text. */
  function Classify(results: seq<ModelScore>): (r: (string, real))
    ensures r.0 == Config.Neutral ==> r.1 == 0.0
    ensures results == [] ==> r == (Config.Neutral, 0.0)
  {
    if results == [] then (Config.Neutral, 0.0)
    else match FirstMappable(SortByScore(results))
      case Some(best) =>
        NeutralNotMapped(Lower(best.name));
        (Mapping[Lower(best.name)], best.score)
      case None => (Config.Neutral, 0.0)
  }

  /** The label picked is a value of the mapping or the neutral one. */
  lemma {:induction false} ClassifyLabel(results: seq<ModelScore>)
    ensures Classify(results).0 in Mapping.Values || Classify(results).0 == Config.Neutral
  {
    if results != [] {
      var f := FirstMappable(SortByScore(results));
      if f.Some? {
        assert Mapping[Lower(f.value.name)] in Mapping.Values;
      }
    }
  }

  lemma {:induction false} NeutralNotMapped(k: string)
    requires k in Mapping
    ensures Mapping[k] != Config.Neutral
  {
  }

  /** One step of a left-to-right scan for the best mappable entry: a later entry
      replaces the current best only with a strictly higher score. */
  function Better(best: Option<ModelScore>, x: ModelScore): Option<ModelScore> {
    if !Mappable(x) then best
    else if best.None? || x.score > best.value.score then Some(x)
    else best
  }

  /** Reference definition: the highest-scoring mappable entry, the earliest one on
      ties, or None when no entry is mappable. */
  function Best(rs: seq<ModelScore>): (b: Option<ModelScore>)
    ensures b.None? <==> forall j :: 0 <= j < |rs| ==> !Mappable(rs[j])
    ensures b.Some? ==> Mappable(b.value)
    ensures b.Some? ==> forall j :: 0 <= j < |rs| && Mappable(rs[j]) ==> rs[j].score <= b.value.score
    ensures b.Some? ==>
      exists i :: 0 <= i < |rs| && rs[i] == b.value
        && forall j :: 0 <= j < i && Mappable(rs[j]) ==> rs[j].score < b.value.score
  {
    if rs == [] then None
    else
      var prefix := rs[..|rs| - 1];
      var b := Best(prefix);
      var x := rs[|rs| - 1];
      assert forall j :: 0 <= j < |rs| - 1 ==> rs[j] == prefix[j];
      var r := Better(b, x);
      assert r == Some(x) ==> rs[|rs| - 1] == r.value;
      r
  }

  /** Inserting x into a sorted list moves its first mappable entry exactly as one
      more step of the scan would. */
  lemma {:induction false} FirstMappableInsert(s: seq<ModelScore>, x: ModelScore)
    requires SortedByScore(s)
    ensures FirstMappable(InsertByScore(s, x)) == Better(FirstMappable(s), x)
  {
    if s != [] && x.score <= s[0].score {
      assert SortedByScore(s[1..]);
      FirstMappableInsert(s[1..], x);
      var f := FirstMappable(s[1..]);
      if f.Some? {
        assert f.value in s;
        assert f.value.score <= s[0].score;
      }
    } else if s != [] {
      var f := FirstMappable(s);
      if f.Some? {
        var k :| 0 <= k < |s| && s[k] == f.value;
        assert f.value.score <= s[0].score;
      }
    }
  }

  /** The search over the stably sorted list finds the reference best entry. */
  lemma {:induction false} FirstOfSortedIsBest(rs: seq<ModelScore>)
    ensures FirstMappable(SortByScore(rs)) == Best(rs)
  {
    if rs != [] {
      FirstOfSortedIsBest(rs[..|rs| - 1]);
      SortByScoreCorrect(rs[..|rs| - 1]);
      FirstMappableInsert(SortByScore(rs[..|rs| - 1]), rs[|rs| - 1]);
    }
  }

  /** The label picked is the mapping of the highest-scoring mappable entry (the
      earliest on ties) with its score; with no mappable entry it is neutral, 0.0. */
  lemma {:induction false} ClassifyIsBest(results: seq<ModelScore>)
    ensures Classify(results) ==
      match Best(results)
      case Some(b) => (Mapping[Lower(b.name)], b.score)
      case None => (Config.Neutral, 0.0)
  {
    FirstOfSortedIsBest(results);
  }

  /** The post with the classifier's verdict on its raw text attached. */
  function Enriched(p: Post, classifier: string -> seq<ModelScore>): Post {
    var (emo, conf) := Classify(classifier(p.text));
    p.(emotion := Some(emo), confidence := Some(conf))
  }

  function EnrichAll(ps: seq<Post>, classifier: string -> seq<ModelScore>): (r: seq<Post>)
    ensures |r| == |ps| && forall i :: 0 <= i < |ps| ==> r[i] == Enriched(ps[i], classifier)
  {
    seq(|ps|, i requires 0 <= i < |ps| => Enriched(ps[i], classifier))
  }

  /** The body of analisar_tweets's loop for one post: classify the raw text and
      write emotion and confidence. */
  method Annotate(t: Post, classifier: string -> seq<ModelScore>) returns (u: Post)
    ensures u == Enriched(t, classifier)
  {
    var (emo, conf) := Classify(classifier(t.text));
    u := t.(emotion := Some(emo), confidence := Some(conf));
  }

  /** analisar_tweets: classifies each post's raw text and writes emotion and
      confidence into the post in place; returns the same list. */
  method AnalyzeTweets(tweets: array<Post>, classifier: string -> seq<ModelScore>) returns (r: array<Post>)
    modifies tweets
    ensures r == tweets
    ensures tweets[..] == EnrichAll(old(tweets[..]), classifier)
  {
    ghost var target := EnrichAll(tweets[..], classifier);
    for i := 0 to tweets.Length
      invariant forall k :: 0 <= k < i ==> tweets[k] == target[k]
      invariant forall k :: i <= k < tweets.Length ==> tweets[k] == old(tweets[k])
    {
      var u := Annotate(tweets[i], classifier);
      assert u == target[i];
      tweets[i] := u;
    }
    assert tweets[..] == target;
    r := tweets;
  }

  /** The labels produced are exactly the aggregation labels plus the neutral one. */
  lemma {:induction false} MappingValuesAreEmotions()
    ensures Mapping.Values == set e | e in Config.Emotions
  {
    assert Mapping["joy"] == "alegria";
    assert Mapping["anger"] == "raiva";
    assert Mapping["sadness"] == "tristeza";
    assert Mapping["surprise"] == "surpresa";
    assert Mapping["fear"] == "medo";
  }

  /** An enriched post keeps every field except emotion and confidence, and its label
      is an aggregation label or neutral, neutral only with confidence 0.0. */
  lemma {:induction false} EnrichedShape(p: Post, classifier: string -> seq<ModelScore>)
    ensures var q := Enriched(p, classifier);
      && q.id == p.id && q.text == p.text && q.retweets == p.retweets && q.likes == p.likes
      && q.cleanText == p.cleanText && q.timestamp == p.timestamp && q.window == p.window
      && q.emotion.Some? && q.confidence.Some?
      && (q.emotion.value in Config.Emotions || q.emotion.value == Config.Neutral)
      && (q.emotion.value == Config.Neutral ==> q.confidence.value == 0.0)
  {
    ClassifyLabel(classifier(p.text));
    MappingValuesAreEmotions();
  }
}
