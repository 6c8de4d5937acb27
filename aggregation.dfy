// Emotion aggregation (src/agregacao.py): the percentage of posts carrying each
// label of the fixed aggregation list, as a dictionary in that list's order.
module Aggregation {
  import opened Records
  import Config

  /** Every post carries an emotion key: the aggregation indexes it directly. */
  predicate Classified(posts: seq<Post>) {
    forall i :: 0 <= i < |posts| ==> posts[i].emotion.Some?
  }

  /** Number of posts whose emotion is the given label. */
  function CountLabel(posts: seq<Post>, emo: string): (n: nat)
    ensures n <= |posts|
  {
    if posts == [] then 0
    else (if posts[0].emotion == Some(emo) then 1 else 0) + CountLabel(posts[1..], emo)
  }

  /** Number of posts whose emotion is one of the labels. */
  function CountIn(posts: seq<Post>, labels: seq<string>): (n: nat)
    ensures n <= |posts|
  {
    if posts == [] then 0
    else
      (if posts[0].emotion.Some? && posts[0].emotion.value in labels then 1 else 0)
        + CountIn(posts[1..], labels)
  }

  /** (count / total) * 100 over exact reals. */
  function Percent(count: nat, total: nat): real
    requires total > 0
  {
    (count as real / total as real) * 100.0
  }

  /** The facts about a ratio of a non-negative number to a positive one that the
      share bounds rest on. */
  lemma {:induction false} RatioFacts(c: real, t: real)
    requires 0.0 <= c && 0.0 < t
    ensures 0.0 <= c / t
    ensures c <= t ==> c / t <= 1.0
    ensures c / t == 1.0 <==> c == t
    ensures c / t == 0.0 <==> c == 0.0
  {
  }

  lemma {:induction false} PercentBounds(count: nat, total: nat)
    requires total > 0
    ensures 0.0 <= Percent(count, total)
    ensures count <= total ==> Percent(count, total) <= 100.0
    ensures Percent(count, total) == 100.0 <==> count == total
    ensures Percent(count, total) == 0.0 <==> count == 0
  {
    RatioFacts(count as real, total as real);
  }

  lemma {:induction false} PercentAdd(a: nat, b: nat, total: nat)
    requires total > 0
    ensures Percent(a, total) + Percent(b, total) == Percent(a + b, total)
  {
    var x, y, t := a as real, b as real, total as real;
    assert x / t + y / t == (x + y) / t;
  }

  /** The share of each label in a batch of n posts, in the labels' order. */
  function Shares(posts: seq<Post>, labels: seq<string>, n: nat): Dist
    requires n > 0
  {
    if labels == [] then []
    else [(labels[0], Percent(CountLabel(posts, labels[0]), n))] + Shares(posts, labels[1..], n)
  }

  /** percentual_emocoes: an empty dictionary for an empty batch, otherwise every
      aggregation label mapped to 100 * count / total, labels with no post mapped to 0. */
  function Percentages(posts: seq<Post>): (d: Dist)
    requires Classified(posts)
    ensures posts == [] <==> d == []
    ensures posts != [] ==> Keys(d) == Config.Emotions
    ensures forall i :: 0 <= i < |d| ==>
      d[i].1 == Percent(CountLabel(posts, d[i].0), |posts|)
    ensures forall i :: 0 <= i < |d| ==> 0.0 <= d[i].1 <= 100.0
  {
    if |posts| == 0 then [] else
      var d := Shares(posts, Config.Emotions, |posts|);
      SharesShape(posts, Config.Emotions, |posts|);
      d
  }

  lemma {:induction false} SharesShape(posts: seq<Post>, labels: seq<string>, n: nat)
    requires n > 0 && |posts| <= n
    ensures var d := Shares(posts, labels, n);
      && Keys(d) == labels
      && (forall i :: 0 <= i < |d| ==> d[i].1 == Percent(CountLabel(posts, d[i].0), n))
      && (forall i :: 0 <= i < |d| ==> 0.0 <= d[i].1 <= 100.0)
  {
    var d := Shares(posts, labels, n);
    if labels != [] {
      var rest := Shares(posts, labels[1..], n);
      var c := CountLabel(posts, labels[0]);
      assert d == [(labels[0], Percent(c, n))] + rest;
      SharesShape(posts, labels[1..], n);
      PercentBounds(c, n);
      forall i | 0 <= i < |d|
        ensures d[i].1 == Percent(CountLabel(posts, d[i].0), n) && 0.0 <= d[i].1 <= 100.0
      {
        if i > 0 {
          assert d[i] == rest[i - 1];
        }
      }
      assert Keys(d) == [labels[0]] + Keys(rest);
    }
  }

  /** The value looked up for an aggregation label is that label's share; any other
      label (the neutral one, for instance) is absent from the dictionary. */
  lemma {:induction false} PercentagesLookup(posts: seq<Post>, emo: string, default: real)
    requires Classified(posts) && posts != []
    ensures emo in Config.Emotions ==>
      Get(Percentages(posts), emo, default) == Percent(CountLabel(posts, emo), |posts|)
    ensures emo !in Config.Emotions ==> Get(Percentages(posts), emo, default) == default
  {
    var d := Percentages(posts);
    assert Keys(d) == Config.Emotions;
    if emo in Config.Emotions {
      var i :| 0 <= i < |Config.Emotions| && Config.Emotions[i] == emo;
      assert d[i].0 == emo;
      GetAt(d, i, default);
    } else {
      GetAbsent(d, emo, default);
    }
  }

  function SumValues(d: Dist): real {
    if d == [] then 0.0 else d[0].1 + SumValues(d[1..])
  }

  function SumCounts(posts: seq<Post>, labels: seq<string>): nat {
    if labels == [] then 0 else CountLabel(posts, labels[0]) + SumCounts(posts, labels[1..])
  }

  predicate Distinct(labels: seq<string>) {
    forall i, j :: 0 <= i < j < |labels| ==> labels[i] != labels[j]
  }

  lemma {:induction false} CountInCons(posts: seq<Post>, e: string, labels: seq<string>)
    requires e !in labels
    ensures CountIn(posts, [e] + labels) == CountLabel(posts, e) + CountIn(posts, labels)
  {
    if posts != [] {
      CountInCons(posts[1..], e, labels);
    }
  }

  /** For distinct labels, adding up the per-label counts counts the posts in the list once. */
  lemma {:induction false} SumCountsIsCountIn(posts: seq<Post>, labels: seq<string>)
    requires Distinct(labels)
    ensures SumCounts(posts, labels) == CountIn(posts, labels)
  {
    if labels == [] {
      CountInEmpty(posts);
    } else {
      assert labels == [labels[0]] + labels[1..];
      assert labels[0] !in labels[1..];
      SumCountsIsCountIn(posts, labels[1..]);
      CountInCons(posts, labels[0], labels[1..]);
    }
  }

  lemma {:induction false} CountInEmpty(posts: seq<Post>)
    ensures CountIn(posts, []) == 0
  {
    if posts != [] {
      CountInEmpty(posts[1..]);
    }
  }

  lemma {:induction false} SharesSum(posts: seq<Post>, labels: seq<string>, n: nat)
    requires n > 0
    ensures SumValues(Shares(posts, labels, n)) == Percent(SumCounts(posts, labels), n)
  {
    if labels != [] {
      SharesSum(posts, labels[1..], n);
      PercentAdd(CountLabel(posts, labels[0]), SumCounts(posts, labels[1..]), n);
    } else {
      PercentBounds(0, n);
    }
  }

  /** Posts outside the aggregation list count toward the total but toward no label. */
  function Outside(posts: seq<Post>): nat {
    |posts| - CountIn(posts, Config.Emotions)
  }

  /** The percentages add up to 100 * (posts labelled inside the list) / total, at most
      100, and exactly 100 when no post carries a label outside the list. */
  lemma {:induction false} PercentagesSum(posts: seq<Post>)
    requires Classified(posts) && posts != []
    ensures SumValues(Percentages(posts)) == Percent(CountIn(posts, Config.Emotions), |posts|)
    ensures SumValues(Percentages(posts)) <= 100.0
    ensures SumValues(Percentages(posts)) == 100.0 <==> Outside(posts) == 0
  {
    SharesSum(posts, Config.Emotions, |posts|);
    SumCountsIsCountIn(posts, Config.Emotions);
    PercentBounds(CountIn(posts, Config.Emotions), |posts|);
  }

  lemma {:induction false} CountLabelAppend(a: seq<Post>, b: seq<Post>, emo: string)
    ensures CountLabel(a + b, emo) == CountLabel(a, emo) + CountLabel(b, emo)
  {
    if a == [] {
      assert a + b == b;
    } else {
      assert (a + b)[1..] == a[1..] + b;
      CountLabelAppend(a[1..], b, emo);
    }
  }

  lemma {:induction false} CountLabelRemove(b: seq<Post>, j: nat, emo: string)
    requires j < |b|
    ensures CountLabel(b, emo)
      == CountLabel(b[..j] + b[j + 1..], emo) + (if b[j].emotion == Some(emo) then 1 else 0)
  {
    var rest := [b[j]] + b[j + 1..];
    assert b == b[..j] + rest;
    CountLabelAppend(b[..j], rest, emo);
    CountLabelAppend(b[..j], b[j + 1..], emo);
    assert rest[1..] == b[j + 1..];
  }

  lemma {:induction false} MultisetRemove(b: seq<Post>, j: nat)
    requires j < |b|
    ensures multiset(b[..j] + b[j + 1..]) == multiset(b) - multiset{b[j]}
  {
    assert b == b[..j] + [b[j]] + b[j + 1..];
  }

  /** Reordering a batch changes no label count. */
  lemma {:induction false} CountLabelPermutation(a: seq<Post>, b: seq<Post>, emo: string)
    requires multiset(a) == multiset(b)
    ensures CountLabel(a, emo) == CountLabel(b, emo)
    decreases |a|
  {
    if a == [] {
      assert |b| == |multiset(b)| == 0;
    } else {
      var x := a[0];
      assert x in multiset(b);
      var j :| 0 <= j < |b| && b[j] == x;
      var b' := b[..j] + b[j + 1..];
      MultisetRemove(b, j);
      assert a == [x] + a[1..];
      assert multiset(a[1..]) == multiset(a) - multiset{x};
      CountLabelPermutation(a[1..], b', emo);
      CountLabelRemove(b, j, emo);
    }
  }

  lemma {:induction false} SharesPermutation(a: seq<Post>, b: seq<Post>, labels: seq<string>, n: nat)
    requires n > 0 && multiset(a) == multiset(b)
    ensures Shares(a, labels, n) == Shares(b, labels, n)
  {
    if labels != [] {
      CountLabelPermutation(a, b, labels[0]);
      SharesPermutation(a, b, labels[1..], n);
    }
  }

  /** The result does not depend on the order of the batch. */
  lemma {:induction false} PercentagesPermutation(a: seq<Post>, b: seq<Post>)
    requires Classified(a) && multiset(a) == multiset(b)
    ensures Classified(b) && Percentages(a) == Percentages(b)
  {
    assert |a| == |multiset(a)| == |multiset(b)| == |b|;
    forall i | 0 <= i < |b| ensures b[i].emotion.Some? {
      assert b[i] in multiset(a);
    }
    if a != [] {
      SharesPermutation(a, b, Config.Emotions, |a|);
    }
  }
}
