// The records that flow through the pipeline: a collected post (the dict built per
// API item), the classifier's (label, score) output, and an insertion-ordered
// label-to-percentage dictionary.
module Records {

  datatype Option<T> = None | Some(value: T)

  /** One collected post. The emotion and confidence keys are absent (None) until
      the post has been classified. */
  datatype Post = Post(
    id: string,
    text: string,
    retweets: int,
    likes: int,
    cleanText: string,
    timestamp: string,
    window: int,
    emotion: Option<string>,
    confidence: Option<real>)

  /** One entry of the classifier's output list. */
  datatype ModelScore = ModelScore(name: string, score: real)

  /** A dictionary from labels to percentages, keys in insertion order. */
  type Dist = seq<(string, real)>

  function Keys(d: Dist): (ks: seq<string>)
    ensures |ks| == |d| && forall i :: 0 <= i < |d| ==> ks[i] == d[i].0
  {
    seq(|d|, i requires 0 <= i < |d| => d[i].0)
  }

  /** dict.get(key, default). */
  function Get(d: Dist, key: string, default: real): real {
    if d == [] then default
    else if d[0].0 == key then d[0].1
    else Get(d[1..], key, default)
  }

  /** The value stored under key by entry i, when i is the first entry with that key. */
  lemma {:induction false} GetAt(d: Dist, i: nat, default: real)
    requires i < |d| && forall j :: 0 <= j < i ==> d[j].0 != d[i].0
    ensures Get(d, d[i].0, default) == d[i].1
  {
    if i > 0 {
      GetAt(d[1..], i - 1, default);
    }
  }

  /** A key stored nowhere gives the default. */
  lemma {:induction false} GetAbsent(d: Dist, key: string, default: real)
    requires forall j :: 0 <= j < |d| ==> d[j].0 != key
    ensures Get(d, key, default) == default
  {
    if d != [] {
      GetAbsent(d[1..], key, default);
    }
  }

  /** The batches one after the other. */
  function Flatten(ss: seq<seq<Post>>): seq<Post> {
    if ss == [] then [] else ss[0] + Flatten(ss[1..])
  }

  lemma {:induction false} FlattenSnoc(ss: seq<seq<Post>>, s: seq<Post>)
    ensures Flatten(ss + [s]) == Flatten(ss) + s
  {
    if ss == [] {
      assert [] + [s] == [s];
    } else {
      assert (ss + [s])[1..] == ss[1..] + [s];
      FlattenSnoc(ss[1..], s);
    }
  }

  /** Flattening a page in front of the rest. */
  lemma {:induction false} FlattenCons(first: seq<Post>, rest: seq<seq<Post>>)
    ensures Flatten([first] + rest) == first + Flatten(rest)
  {
    assert ([first] + rest)[1..] == rest;
  }

  /** The length of the concatenation is the sum of the batch lengths. */
  function TotalLength(ss: seq<seq<Post>>): nat {
    if ss == [] then 0 else |ss[0]| + TotalLength(ss[1..])
  }

  lemma {:induction false} FlattenLength(ss: seq<seq<Post>>)
    ensures |Flatten(ss)| == TotalLength(ss)
  {
    if ss != [] {
      FlattenLength(ss[1..]);
    }
  }
}
