// The paginated collector (coletar_tweets in src/coleta.py). The search endpoint is an
// input: `server(k, req)` is what the k-th request of one collection call, sent with
// parameters `req`, yields. Text cleaning is an input function as well.
module Collection {
  import opened Records
  import opened Text
  import Config
  import Windows

  /** The public_metrics object of an API item; a missing count reads as 0. */
  datatype Metrics = Metrics(retweetCount: Option<int>, likeCount: Option<int>)

  /** One item of the response's "data" list. The keys indexed directly
      (id, text, created_at) may be missing, which raises inside the page comprehension. */
  datatype ApiTweet = ApiTweet(
    id: Option<string>,
    text: Option<string>,
    createdAt: Option<string>,
    metrics: Option<Metrics>)

  /** The decoded JSON body: "data" (an absent list is empty) and meta's "next_token". */
  datatype Body = Body(data: seq<ApiTweet>, nextToken: Option<string>)

  /** What one call to the endpoint yields: the call raised, or a reply whose body
      may fail to decode (None). */
  datatype Response = Raised | Reply(status: int, body: Option<Body>)

  /** The query parameters of one request. */
  datatype Request = Request(
    query: string,
    startTime: int,
    endTime: int,
    maxResults: int,
    nextToken: Option<string>)

  /** Why the loop ended. */
  datatype Stop = BadStatus(code: int) | EmptyPage | NoNextToken | CapReached | Failed

  /** Everything one collection call produces: the accumulated posts (its return value),
      the requests it sent, and the branch that ended the loop. */
  datatype Outcome = Outcome(posts: seq<Post>, requests: seq<Request>, stop: Stop)

  /** The search query: replies to the profile or any of the club hashtags, in Portuguese. */
  function Query(profile: string): (q: string)
    ensures IsPrefix("(to:" + profile + " OR ", q) && IsSuffix(") lang:pt", q)
  {
    var q := "(to:" + profile + " OR " + JoinWith(" OR ", Config.ClubHashtags) + ") lang:pt";
    assert q[..|"(to:" + profile + " OR "|] == "(to:" + profile + " OR ";
    q
  }

  /** The club hashtags joined by " OR ", written out. */
  lemma {:induction false} HashtagsJoined()
    ensures JoinWith(" OR ", Config.ClubHashtags) ==
      "#SPFC" + " OR " + "#SãoPauloFC" + " OR " + "#VamosSãoPaulo" + " OR " + "#Tricolores"
      + " OR " + "#saopaulofc" + " OR " + "#spfc" + " OR " + "#tricolores"
  {
    var sep := " OR ";
    var h := Config.ClubHashtags;
    assert JoinWith(sep, h[..1]) == h[0];
    assert JoinWith(sep, h[..2]) == h[0] + sep + h[1] by { assert h[..2][..1] == h[..1]; }
    assert JoinWith(sep, h[..3]) == h[0] + sep + h[1] + sep + h[2] by { assert h[..3][..2] == h[..2]; }
    assert JoinWith(sep, h[..4]) == h[0] + sep + h[1] + sep + h[2] + sep + h[3] by { assert h[..4][..3] == h[..3]; }
    assert JoinWith(sep, h[..5]) == h[0] + sep + h[1] + sep + h[2] + sep + h[3] + sep + h[4]
      by { assert h[..5][..4] == h[..4]; }
    assert JoinWith(sep, h[..6]) == h[0] + sep + h[1] + sep + h[2] + sep + h[3] + sep + h[4] + sep + h[5]
      by { assert h[..6][..5] == h[..5]; }
    assert JoinWith(sep, h) == h[0] + sep + h[1] + sep + h[2] + sep + h[3] + sep + h[4] + sep + h[5] + sep + h[6]
      by { assert h[..6] == h[..|h| - 1]; }
  }

  /** The query written out: replies to the profile or any of the seven club hashtags. */
  lemma {:induction false} QueryText(profile: string)
    ensures Query(profile) ==
      "(to:" + profile + " OR "
      + ("#SPFC" + " OR " + "#SãoPauloFC" + " OR " + "#VamosSãoPaulo" + " OR " + "#Tricolores"
         + " OR " + "#saopaulofc" + " OR " + "#spfc" + " OR " + "#tricolores")
      + ") lang:pt"
  {
    HashtagsJoined();
  }

  /** max_results of a request when `remaining` items are still missing. */
  function RequestSize(remaining: int): (n: int)
    ensures 10 <= n <= 100
    ensures remaining >= 10 ==> n <= remaining
    ensures 10 <= remaining <= 100 ==> n == remaining
    ensures remaining < 10 ==> n == 10
    ensures remaining > 100 ==> n == 100
  {
    if remaining < 10 then 10 else if remaining < 100 then remaining else 100
  }

  /** A token counts only when present and non-empty (Python truthiness). */
  predicate Truthy(token: Option<string>) {
    token.Some? && token.value != ""
  }

  /** The record built for one API item, or None when a directly indexed key is missing. */
  function MakeRecord(t: ApiTweet, windowStart: int, clean: string -> string): (r: Option<Post>)
    ensures r.None? <==> t.id.None? || t.text.None? || t.createdAt.None?
    ensures r.Some? ==>
      && r.value.id == t.id.value && r.value.text == t.text.value
      && r.value.timestamp == t.createdAt.value && r.value.window == windowStart
      && r.value.cleanText == clean(t.text.value)
      && r.value.emotion.None? && r.value.confidence.None?
    ensures r.Some? && (t.metrics.None? || t.metrics.value.retweetCount.None?) ==> r.value.retweets == 0
    ensures r.Some? && (t.metrics.None? || t.metrics.value.likeCount.None?) ==> r.value.likes == 0
    ensures r.Some? && t.metrics.Some? && t.metrics.value.retweetCount.Some? ==>
      r.value.retweets == t.metrics.value.retweetCount.value
    ensures r.Some? && t.metrics.Some? && t.metrics.value.likeCount.Some? ==>
      r.value.likes == t.metrics.value.likeCount.value
  {
    if t.id.None? || t.text.None? || t.createdAt.None? then None
    else
      var m := if t.metrics.Some? then t.metrics.value else Metrics(None, None);
      Some(Post(
        t.id.value,
        t.text.value,
        if m.retweetCount.Some? then m.retweetCount.value else 0,
        if m.likeCount.Some? then m.likeCount.value else 0,
        clean(t.text.value),
        t.createdAt.value,
        windowStart,
        None,
        None))
  }

  /** The records of one page, or None when any item lacks a directly indexed key
      (the comprehension raises and the page is not appended). */
  function PageRecords(data: seq<ApiTweet>, windowStart: int, clean: string -> string): (r: Option<seq<Post>>)
    ensures r.None? <==> exists k :: 0 <= k < |data| && MakeRecord(data[k], windowStart, clean).None?
    ensures r.Some? ==> |r.value| == |data|
    ensures r.Some? ==> forall k :: 0 <= k < |data| ==> MakeRecord(data[k], windowStart, clean) == Some(r.value[k])
  {
    if data == [] then Some([])
    else match (MakeRecord(data[0], windowStart, clean), PageRecords(data[1..], windowStart, clean))
      case (Some(p), Some(ps)) =>
        assert forall k :: 1 <= k < |data| ==> data[k] == data[1..][k - 1];
        Some([p] + ps)
      case (None, _) => None
      case (_, None) =>
        var k :| 0 <= k < |data[1..]| && MakeRecord(data[1..][k], windowStart, clean).None?;
        assert data[k + 1] == data[1..][k];
        None
  }

  /** The loop from its i-th iteration on, with `acc` accumulated and `token` the last
      page's next_token. */
  function CollectFrom(
    w: Windows.Window, limit: int, query: string,
    server: (nat, Request) -> Response, clean: string -> string,
    i: nat, acc: seq<Post>, token: Option<string>): Outcome
    decreases if limit - |acc| > 0 then limit - |acc| else 0
  {
    var req := Request(query, w.start, w.end, RequestSize(limit - |acc|),
                       if Truthy(token) then token else None);
    match server(i, req)
    case Raised => Outcome(acc, [req], Failed)
    case Reply(status, body) =>
      if status != 200 then Outcome(acc, [req], BadStatus(status))
      else if body.None? then Outcome(acc, [req], Failed)
      else if |body.value.data| == 0 then Outcome(acc, [req], EmptyPage)
      else match PageRecords(body.value.data, w.start, clean)
        case None => Outcome(acc, [req], Failed)
        case Some(page) =>
          var acc' := acc + page;
          var next := body.value.nextToken;
          if !Truthy(next) then Outcome(acc', [req], NoNextToken)
          else if |acc'| >= limit then Outcome(acc', [req], CapReached)
          else
            var rest := CollectFrom(w, limit, query, server, clean, i + 1, acc', next);
            Outcome(rest.posts, [req] + rest.requests, rest.stop)
  }

  /** What coletar_tweets does for one window. */
  function Collect(w: Windows.Window, limit: int, profile: string,
                   server: (nat, Request) -> Response, clean: string -> string): Outcome
  {
    CollectFrom(w, limit, Query(profile), server, clean, 0, [], None)
  }

  /** One iteration of coletar_tweets's loop: build the parameters, send the request,
      and either end the loop (with the branch that ends it) or append the page and
      carry the new next_token on. */
  method FetchPage(w: Windows.Window, limit: int, query: string,
                   server: (nat, Request) -> Response, clean: string -> string,
                   i: nat, posts: seq<Post>, nextToken: Option<string>)
    returns (req: Request, posts': seq<Post>, nextToken': Option<string>, stop: Option<Stop>)
    ensures req == RequestAt(w, limit, query, posts, nextToken)
    ensures stop.Some? ==>
      CollectFrom(w, limit, query, server, clean, i, posts, nextToken) == Outcome(posts', [req], stop.value)
    ensures stop.None? ==>
      && |posts| < |posts'| < limit
      && var rest := CollectFrom(w, limit, query, server, clean, i + 1, posts', nextToken');
         CollectFrom(w, limit, query, server, clean, i, posts, nextToken)
           == Outcome(rest.posts, [req] + rest.requests, rest.stop)
  {
    posts', nextToken' := posts, nextToken;
    var missing := limit - |posts|;
    var maxResults;
    if missing < 10 {
      maxResults := 10;
    } else {
      maxResults := if missing < 100 then missing else 100;
    }
    req := Request(query, w.start, w.end, maxResults, None);
    if nextToken.Some? && nextToken.value != "" {
      req := req.(nextToken := nextToken);
    }
    var response := server(i, req);
    if response.Raised? {
      stop := Some(Failed);
      return;
    }
    if response.status != 200 {
      stop := Some(BadStatus(response.status));
      return;
    }
    if response.body.None? {
      stop := Some(Failed);
      return;
    }
    var data := response.body.value.data;
    if |data| == 0 {
      stop := Some(EmptyPage);
      return;
    }
    var page := PageRecords(data, w.start, clean);
    if page.None? {
      stop := Some(Failed);
      return;
    }
    posts' := posts + page.value;
    nextToken' := response.body.value.nextToken;
    if !(nextToken'.Some? && nextToken'.value != "") {
      stop := Some(NoNextToken);
      return;
    }
    if |posts'| >= limit {
      stop := Some(CapReached);
      return;
    }
    stop := None;
  }

  /** coletar_tweets: requests pages until the API stops, fails, runs out of pages or the
      accumulated count reaches the cap, and returns the posts accumulated so far. */
  method CollectTweets(w: Windows.Window, limit: int, profile: string,
                       server: (nat, Request) -> Response, clean: string -> string)
    returns (posts: seq<Post>, requests: seq<Request>, stop: Stop)
    ensures Outcome(posts, requests, stop) == Collect(w, limit, profile, server, clean)
  {
    var query := Query(profile);
    posts := [];
    var nextToken: Option<string> := None;
    requests := [];
    var i: nat := 0;
    while true
      invariant |posts| > 0 ==> |posts| < limit
      invariant Collect(w, limit, profile, server, clean) ==
        var rest := CollectFrom(w, limit, query, server, clean, i, posts, nextToken);
        Outcome(rest.posts, requests + rest.requests, rest.stop)
      decreases if limit - |posts| > 0 then limit - |posts| else 0
    {
      var req, posts', nextToken', ended := FetchPage(w, limit, query, server, clean, i, posts, nextToken);
      ghost var before := requests;
      requests := requests + [req];
      posts, nextToken := posts', nextToken';
      if ended.Some? {
        stop := ended.value;
        break;
      }
      ghost var rest := CollectFrom(w, limit, query, server, clean, i + 1, posts, nextToken);
      assert before + ([req] + rest.requests) == requests + rest.requests;
      i := i + 1;
    }
  }

  /** The number of items a response carries (0 when it carries no decodable page). */
  function PageSize(r: Response): nat {
    if r.Reply? && r.body.Some? then |r.body.value.data| else 0
  }

  /** The records a response adds to the accumulator: its page when the reply is a 200
      with a decodable, non-empty, well-formed page, and nothing otherwise. */
  function Contribution(r: Response, windowStart: int, clean: string -> string): seq<Post> {
    if r.Reply? && r.status == 200 && r.body.Some? && |r.body.value.data| > 0 then
      match PageRecords(r.body.value.data, windowStart, clean)
      case Some(page) => page
      case None => []
    else []
  }

  /** The contribution of each request sent, starting from the i-th. */
  function Contributions(server: (nat, Request) -> Response, i: nat, reqs: seq<Request>,
                         windowStart: int, clean: string -> string): (cs: seq<seq<Post>>)
    ensures |cs| == |reqs|
    ensures forall k :: 0 <= k < |reqs| ==> cs[k] == Contribution(server(i + k, reqs[k]), windowStart, clean)
  {
    seq(|reqs|, k requires 0 <= k < |reqs| => Contribution(server(i + k, reqs[k]), windowStart, clean))
  }

  /** Whether the i-th iteration with `acc` accumulated goes on to a next request, and
      with which accumulator and token. */
  predicate Continues(r: Response, limit: int, acc: seq<Post>, windowStart: int, clean: string -> string) {
    && r.Reply? && r.status == 200 && r.body.Some? && |r.body.value.data| > 0
    && PageRecords(r.body.value.data, windowStart, clean).Some?
    && Truthy(r.body.value.nextToken)
    && |acc + PageRecords(r.body.value.data, windowStart, clean).value| < limit
  }

  /** The request the i-th iteration sends. */
  function RequestAt(w: Windows.Window, limit: int, query: string, acc: seq<Post>, token: Option<string>): Request {
    Request(query, w.start, w.end, RequestSize(limit - |acc|), if Truthy(token) then token else None)
  }

  /** One unfolding of the loop: a single request when the iteration ends it, the
      request followed by the rest of the loop otherwise. */
  lemma {:induction false} CollectFromStep(
    w: Windows.Window, limit: int, query: string,
    server: (nat, Request) -> Response, clean: string -> string,
    i: nat, acc: seq<Post>, token: Option<string>)
    ensures var c := CollectFrom(w, limit, query, server, clean, i, acc, token);
      var req := RequestAt(w, limit, query, acc, token);
      var r := server(i, req);
      if Continues(r, limit, acc, w.start, clean) then
        var page := PageRecords(r.body.value.data, w.start, clean).value;
        var rest := CollectFrom(w, limit, query, server, clean, i + 1, acc + page, r.body.value.nextToken);
        c == Outcome(rest.posts, [req] + rest.requests, rest.stop)
      else
        c.requests == [req] && c.posts == acc + Contribution(r, w.start, clean)
  {
  }

  /** The contributions of a request followed by others. */
  lemma {:induction false} ContributionsCons(server: (nat, Request) -> Response, i: nat, req: Request, reqs: seq<Request>,
                          windowStart: int, clean: string -> string)
    ensures Contributions(server, i, [req] + reqs, windowStart, clean)
         == [Contribution(server(i, req), windowStart, clean)] + Contributions(server, i + 1, reqs, windowStart, clean)
  {
    var all := [req] + reqs;
    var lhs := Contributions(server, i, all, windowStart, clean);
    var tail := Contributions(server, i + 1, reqs, windowStart, clean);
    var rhs := [Contribution(server(i, req), windowStart, clean)] + tail;
    assert |lhs| == |rhs|;
    forall k | 0 <= k < |lhs|
      ensures lhs[k] == rhs[k]
    {
      if k > 0 {
        assert all[k] == reqs[k - 1];
        assert i + k == (i + 1) + (k - 1);
        assert tail[k - 1] == Contribution(server(i + k, reqs[k - 1]), windowStart, clean);
        assert rhs[k] == tail[k - 1];
      }
    }
  }

  /** The inductive step of `CollectFromConcatenates`, on plain sequences. */
  lemma {:induction false} ConcatenatesStep(server: (nat, Request) -> Response, i: nat, req: Request, restReqs: seq<Request>,
                         windowStart: int, clean: string -> string,
                         acc: seq<Post>, page: seq<Post>, posts: seq<Post>)
    requires page == Contribution(server(i, req), windowStart, clean)
    requires posts == (acc + page) + Flatten(Contributions(server, i + 1, restReqs, windowStart, clean))
    ensures posts == acc + Flatten(Contributions(server, i, [req] + restReqs, windowStart, clean))
  {
    var restCs := Contributions(server, i + 1, restReqs, windowStart, clean);
    ContributionsCons(server, i, req, restReqs, windowStart, clean);
    FlattenAfter(acc, page, restCs, Contributions(server, i, [req] + restReqs, windowStart, clean));
  }

  /** Appending a page, then the rest, is appending the flattening of page and rest. */
  lemma {:induction false} FlattenAfter(acc: seq<Post>, page: seq<Post>, rest: seq<seq<Post>>, cs: seq<seq<Post>>)
    requires cs == [page] + rest
    ensures (acc + page) + Flatten(rest) == acc + Flatten(cs)
  {
    FlattenCons(page, rest);
  }

  /** The posts returned are what had been accumulated followed by every response's
      page in arrival order: no page is dropped once appended, none is truncated. */
  lemma {:induction false} CollectFromConcatenates(
    w: Windows.Window, limit: int, query: string,
    server: (nat, Request) -> Response, clean: string -> string,
    i: nat, acc: seq<Post>, token: Option<string>)
    ensures var c := CollectFrom(w, limit, query, server, clean, i, acc, token);
      c.posts == acc + Flatten(Contributions(server, i, c.requests, w.start, clean))
    decreases if limit - |acc| > 0 then limit - |acc| else 0
  {
    var req := RequestAt(w, limit, query, acc, token);
    var r := server(i, req);
    CollectFromStep(w, limit, query, server, clean, i, acc, token);
    if Continues(r, limit, acc, w.start, clean) {
      var page := PageRecords(r.body.value.data, w.start, clean).value;
      var next := r.body.value.nextToken;
      var rest := CollectFrom(w, limit, query, server, clean, i + 1, acc + page, next);
      CollectFromConcatenates(w, limit, query, server, clean, i + 1, acc + page, next);
      ConcatenatesStep(server, i, req, rest.requests, w.start, clean, acc, page, rest.posts);
    } else {
      var first := Contribution(r, w.start, clean);
      assert Contributions(server, i, [req], w.start, clean) == [first];
      FlattenCons(first, []);
    }
  }

  /** coletar_tweets returns exactly the concatenation of the pages it received, in order. */
  lemma {:induction false} CollectConcatenates(w: Windows.Window, limit: int, profile: string,
                            server: (nat, Request) -> Response, clean: string -> string)
    ensures var c := Collect(w, limit, profile, server, clean);
      c.posts == Flatten(Contributions(server, 0, c.requests, w.start, clean))
  {
    CollectFromConcatenates(w, limit, Query(profile), server, clean, 0, [], None);
  }

  /** Every request carries the query, the window bounds and a size in [10, 100]; the
      first carries the token the iteration was given. */
  lemma {:induction false} CollectFromRequestFields(
    w: Windows.Window, limit: int, query: string,
    server: (nat, Request) -> Response, clean: string -> string,
    i: nat, acc: seq<Post>, token: Option<string>)
    ensures var c := CollectFrom(w, limit, query, server, clean, i, acc, token);
      && |c.requests| >= 1
      && c.requests[0].nextToken == (if Truthy(token) then token else None)
      && (forall k :: 0 <= k < |c.requests| ==>
            && c.requests[k].query == query
            && c.requests[k].startTime == w.start && c.requests[k].endTime == w.end
            && 10 <= c.requests[k].maxResults <= 100)
    decreases if limit - |acc| > 0 then limit - |acc| else 0
  {
    var req := RequestAt(w, limit, query, acc, token);
    var r := server(i, req);
    CollectFromStep(w, limit, query, server, clean, i, acc, token);
    if Continues(r, limit, acc, w.start, clean) {
      var page := PageRecords(r.body.value.data, w.start, clean).value;
      CollectFromRequestFields(w, limit, query, server, clean, i + 1, acc + page, r.body.value.nextToken);
    }
  }

  /** The k-th request (numbering from i) carries the non-empty next_token of the 200
      reply to the request before it. */
  predicate Chained(server: (nat, Request) -> Response, i: nat, reqs: seq<Request>, k: nat)
    requires 0 < k < |reqs|
  {
    var r := server(i + k - 1, reqs[k - 1]);
    && r.Reply? && r.status == 200 && r.body.Some?
    && Truthy(r.body.value.nextToken)
    && reqs[k].nextToken == r.body.value.nextToken
  }

  /** Each request after the first carries the non-empty next_token of the 200 reply
      to the request before it. */
  lemma {:induction false} CollectFromTokenChain(
    w: Windows.Window, limit: int, query: string,
    server: (nat, Request) -> Response, clean: string -> string,
    i: nat, acc: seq<Post>, token: Option<string>)
    ensures var c := CollectFrom(w, limit, query, server, clean, i, acc, token);
      forall k :: 0 < k < |c.requests| ==> Chained(server, i, c.requests, k)
    decreases if limit - |acc| > 0 then limit - |acc| else 0
  {
    var c := CollectFrom(w, limit, query, server, clean, i, acc, token);
    var req := RequestAt(w, limit, query, acc, token);
    var r := server(i, req);
    CollectFromStep(w, limit, query, server, clean, i, acc, token);
    if Continues(r, limit, acc, w.start, clean) {
      var page := PageRecords(r.body.value.data, w.start, clean).value;
      var next := r.body.value.nextToken;
      var rest := CollectFrom(w, limit, query, server, clean, i + 1, acc + page, next);
      CollectFromTokenChain(w, limit, query, server, clean, i + 1, acc + page, next);
      CollectFromRequestFields(w, limit, query, server, clean, i + 1, acc + page, next);
      assert c.requests == [req] + rest.requests;
      forall k | 0 < k < |c.requests|
        ensures Chained(server, i, c.requests, k)
      {
        if k > 1 {
          assert Chained(server, i + 1, rest.requests, k - 1);
          assert c.requests[k] == rest.requests[k - 1];
          assert c.requests[k - 1] == rest.requests[k - 2];
          assert i + k - 1 == (i + 1) + (k - 1) - 1;
        } else {
          assert c.requests[1] == rest.requests[0];
          assert rest.requests[0].nextToken == next;
        }
      }
    }
  }

  /** For one call: the first request has no next_token, every later one carries the
      previous reply's; every request has the query and a size in [10, 100]. */
  lemma {:induction false} CollectRequests(w: Windows.Window, limit: int, profile: string,
                        server: (nat, Request) -> Response, clean: string -> string)
    ensures var c := Collect(w, limit, profile, server, clean);
      && c.requests[0].nextToken.None?
      && (forall k :: 0 <= k < |c.requests| ==>
            c.requests[k].query == Query(profile) && 10 <= c.requests[k].maxResults <= 100)
      && (forall k :: 0 < k < |c.requests| ==> Chained(server, 0, c.requests, k))
  {
    CollectFromRequestFields(w, limit, Query(profile), server, clean, 0, [], None);
    CollectFromTokenChain(w, limit, Query(profile), server, clean, 0, [], None);
  }

  /** Termination bound: every iteration that does not end the loop appends at least one
      record and leaves the count below the cap, so at most max(limit, 1) requests are sent. */
  lemma {:induction false} CollectFromRequestCount(
    w: Windows.Window, limit: int, query: string,
    server: (nat, Request) -> Response, clean: string -> string,
    i: nat, acc: seq<Post>, token: Option<string>)
    ensures var c := CollectFrom(w, limit, query, server, clean, i, acc, token);
      1 <= |c.requests| <= (if limit - |acc| > 1 then limit - |acc| else 1)
    decreases if limit - |acc| > 0 then limit - |acc| else 0
  {
    var c := CollectFrom(w, limit, query, server, clean, i, acc, token);
    if |c.requests| > 1 {
      var req := c.requests[0];
      var r := server(i, req);
      var page := PageRecords(r.body.value.data, w.start, clean).value;
      var next := r.body.value.nextToken;
      CollectFromRequestCount(w, limit, query, server, clean, i + 1, acc + page, next);
    }
  }

  lemma {:induction false} CollectRequestCount(w: Windows.Window, limit: int, profile: string,
                            server: (nat, Request) -> Response, clean: string -> string)
    ensures 1 <= |Collect(w, limit, profile, server, clean).requests| <= (if limit > 1 then limit else 1)
  {
    CollectFromRequestCount(w, limit, Query(profile), server, clean, 0, [], None);
  }

  /** The server never returns more items than a request asks for. */
  ghost predicate HonoursMaxResults(server: (nat, Request) -> Response) {
    forall n: nat, req: Request :: PageSize(server(n, req)) <= req.maxResults
  }

  /** The cap is soft: nothing truncates, but with a server that honours max_results the
      result stays below limit + 10 (at most 10 for a non-positive cap); it reaches the cap
      whenever the loop ended on the cap. */
  lemma {:induction false} CollectFromSoftCap(
    w: Windows.Window, limit: int, query: string,
    server: (nat, Request) -> Response, clean: string -> string,
    i: nat, acc: seq<Post>, token: Option<string>)
    requires HonoursMaxResults(server)
    requires acc == [] || |acc| < limit
    ensures var c := CollectFrom(w, limit, query, server, clean, i, acc, token);
      && |c.posts| <= (if limit >= 1 then limit + 9 else 10)
      && (c.stop == CapReached ==> |c.posts| >= limit)
    decreases if limit - |acc| > 0 then limit - |acc| else 0
  {
    var req := Request(query, w.start, w.end, RequestSize(limit - |acc|),
                       if Truthy(token) then token else None);
    var r := server(i, req);
    assert PageSize(r) <= req.maxResults;
    if r.Reply? && r.status == 200 && r.body.Some? && |r.body.value.data| > 0 {
      var pr := PageRecords(r.body.value.data, w.start, clean);
      if pr.Some? {
        var next := r.body.value.nextToken;
        assert |acc + pr.value| <= (if limit >= 1 then limit + 9 else 10);
        if Truthy(next) && |acc + pr.value| < limit {
          CollectFromSoftCap(w, limit, query, server, clean, i + 1, acc + pr.value, next);
        }
      }
    }
  }

  lemma {:induction false} CollectSoftCap(w: Windows.Window, limit: int, profile: string,
                       server: (nat, Request) -> Response, clean: string -> string)
    requires HonoursMaxResults(server)
    ensures var c := Collect(w, limit, profile, server, clean);
      && (limit >= 1 ==> |c.posts| < limit + 10)
      && (limit < 1 ==> |c.posts| <= 10)
      && (c.stop == CapReached ==> |c.posts| >= limit)
  {
    CollectFromSoftCap(w, limit, Query(profile), server, clean, 0, [], None);
  }
}
