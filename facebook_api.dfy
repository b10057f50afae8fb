/**
  The Graph API client. Every operation builds one HTTP request (a verb, a
  URL under the configured base URL, and query parameters), hands it to the
  network and returns the decoded JSON reply. The network together with the
  JSON decoding of its answer is an oracle `network`; the three configuration
  constants are the fields of `Config`.
*/
module FacebookApi {
  import opened Wrappers
  import opened Json

  /** The configuration constants the client reads. */
  datatype Config = Config(graphApiBaseUrl: string, pageId: string, pageAccessToken: string)

  datatype Verb = GET | POST | DELETE

  /** One outbound request, as handed to the HTTP library. */
  datatype HttpRequest = HttpRequest(verb: Verb, url: string, params: map<string, string>)

  /** The network plus the decoding of the reply body. */
  type Network = HttpRequest -> Value

  const AccessTokenKey := "access_token"
  const FeedFields := "id,message,created_time"
  const CommentFields := "id,message,from,created_time"
  const DefaultPeriod := "lifetime"

  /** A caller's parameter dictionary, which the generic request method updates in place. */
  class ParamDict {
    var entries: map<string, string>

    constructor (entries: map<string, string>)
      ensures this.entries == entries
    {
      this.entries := entries;
    }
  }

  /** The request URL: the base URL, a slash, then the endpoint. */
  function Url(base: string, endpoint: string): (url: string)
    ensures |url| == |base| + 1 + |endpoint|
    ensures url[..|base|] == base && url[|base|] == '/' && url[|base| + 1..] == endpoint
  {
    base + "/" + endpoint
  }

  /** The parameters after the access token is stored under its key. */
  function WithToken(params: map<string, string>, token: string): (sent: map<string, string>)
    ensures sent.Keys == params.Keys + {AccessTokenKey}
    ensures sent[AccessTokenKey] == token
    ensures forall k :: k in params && k != AccessTokenKey ==> sent[k] == params[k]
  {
    params[AccessTokenKey := token]
  }

  /** A parameter the caller may omit takes its default. */
  function PeriodOrDefault(period: Option<string>): (p: string)
    ensures period.None? ==> p == DefaultPeriod
    ensures period.Some? ==> p == period.value
  {
    match period
    case None => DefaultPeriod
    case Some(p) => p
  }

  /** `sep.join(parts)` with a comma as the separator. */
  function JoinCommas(parts: seq<string>): (joined: string)
    ensures |parts| == 0 ==> joined == ""
    ensures |parts| > 0 ==> parts[0] <= joined
    ensures |parts| > 1 ==> |parts[0]| < |joined| && joined[|parts[0]|] == ','
  {
    if |parts| == 0 then ""
    else if |parts| == 1 then parts[0]
    else parts[0] + "," + JoinCommas(parts[1..])
  }

  /** `s.split(",")`: the pieces between commas; the empty string splits into one empty piece. */
  function SplitCommas(s: string): (pieces: seq<string>)
    ensures |pieces| >= 1
    ensures forall k :: 0 <= k < |pieces| ==> ',' !in pieces[k]
  {
    if s == [] then [""]
    else
      var rest := SplitCommas(s[1..]);
      if s[0] == ',' then [""] + rest else [[s[0]] + rest[0]] + rest[1..]
  }

  lemma {:induction false} SplitWithoutComma(p: string)
    requires ',' !in p
    ensures SplitCommas(p) == [p]
  {
    if p != [] {
      SplitWithoutComma(p[1..]);
      assert [p[0]] + p[1..] == p;
    }
  }

  lemma {:induction false} SplitAtFirstComma(p: string, t: string)
    requires ',' !in p
    ensures SplitCommas(p + "," + t) == [p] + SplitCommas(t)
  {
    if p == [] {
      assert p + "," + t == [','] + t;
      assert ([','] + t)[1..] == t;
    } else {
      var s := p + "," + t;
      assert s[0] == p[0] && s[1..] == p[1..] + "," + t;
      SplitAtFirstComma(p[1..], t);
      assert [p[0]] + p[1..] == p;
    }
  }

  /** Splitting the comma-joined metric names recovers the list when it is non-empty and no name holds a comma. */
  lemma {:induction false} SplitJoinRoundTrip(parts: seq<string>)
    requires |parts| > 0
    requires forall i :: 0 <= i < |parts| ==> ',' !in parts[i]
    ensures SplitCommas(JoinCommas(parts)) == parts
  {
    if |parts| == 1 {
      SplitWithoutComma(parts[0]);
    } else {
      SplitJoinRoundTrip(parts[1..]);
      SplitAtFirstComma(parts[0], JoinCommas(parts[1..]));
      assert [parts[0]] + parts[1..] == parts;
    }
  }

  /** The empty metric list does not round-trip: it joins to "", which splits into [""]. */
  lemma EmptyMetricListDoesNotRoundTrip()
    ensures JoinCommas([]) == ""
    ensures SplitCommas(JoinCommas([])) == [""]
  {
  }

  /** Joining adds exactly one separator between neighbouring names and nothing else. */
  lemma {:induction false} JoinCommasLength(parts: seq<string>)
    requires |parts| > 0
    ensures |JoinCommas(parts)| == Sum(parts) + |parts| - 1
  {
    if |parts| > 1 {
      JoinCommasLength(parts[1..]);
    }
  }

  function Sum(parts: seq<string>): nat
  {
    if parts == [] then 0 else |parts[0]| + Sum(parts[1..])
  }

  /**
    The generic request: the URL is the base URL joined to the endpoint, and the
    access token is written into the caller's dictionary, replacing any entry
    already under that key, before the dictionary is sent as query parameters.
  */
  method Request(cfg: Config, network: Network, verb: Verb, endpoint: string, params: ParamDict)
    returns (reply: Value)
    modifies params
    ensures params.entries == WithToken(old(params.entries), cfg.pageAccessToken)
    ensures reply == network(HttpRequest(verb, Url(cfg.graphApiBaseUrl, endpoint), params.entries))
  {
    var url := cfg.graphApiBaseUrl + "/" + endpoint;
    params.entries := params.entries[AccessTokenKey := cfg.pageAccessToken];
    reply := network(HttpRequest(verb, url, params.entries));
  }

  /** POST on the page feed with the message. */
  method PostMessage(cfg: Config, network: Network, message: string) returns (reply: Value)
    ensures reply == network(HttpRequest(POST, Url(cfg.graphApiBaseUrl, cfg.pageId + "/feed"),
                                         map["message" := message, AccessTokenKey := cfg.pageAccessToken]))
  {
    var params := new ParamDict(map["message" := message]);
    reply := Request(cfg, network, POST, cfg.pageId + "/feed", params);
  }

  /** POST on the comments of a comment, with the message. */
  method ReplyToComment(cfg: Config, network: Network, commentId: string, message: string) returns (reply: Value)
    ensures reply == network(HttpRequest(POST, Url(cfg.graphApiBaseUrl, commentId + "/comments"),
                                         map["message" := message, AccessTokenKey := cfg.pageAccessToken]))
  {
    var params := new ParamDict(map["message" := message]);
    reply := Request(cfg, network, POST, commentId + "/comments", params);
  }

  /** GET on the page's posts, asking for their id, message and creation time. */
  method GetPosts(cfg: Config, network: Network) returns (reply: Value)
    ensures reply == network(HttpRequest(GET, Url(cfg.graphApiBaseUrl, cfg.pageId + "/posts"),
                                         map["fields" := FeedFields, AccessTokenKey := cfg.pageAccessToken]))
  {
    var params := new ParamDict(map["fields" := FeedFields]);
    reply := Request(cfg, network, GET, cfg.pageId + "/posts", params);
  }

  /** GET on a post's comments, asking for their id, message, author and creation time. */
  method GetComments(cfg: Config, network: Network, postId: string) returns (reply: Value)
    ensures reply == network(HttpRequest(GET, Url(cfg.graphApiBaseUrl, postId + "/comments"),
                                         map["fields" := CommentFields, AccessTokenKey := cfg.pageAccessToken]))
  {
    var params := new ParamDict(map["fields" := CommentFields]);
    reply := Request(cfg, network, GET, postId + "/comments", params);
  }

  /** DELETE on the bare post id; the only parameter sent is the access token. */
  method DeletePost(cfg: Config, network: Network, postId: string) returns (reply: Value)
    ensures reply == network(HttpRequest(DELETE, Url(cfg.graphApiBaseUrl, postId),
                                         map[AccessTokenKey := cfg.pageAccessToken]))
  {
    var params := new ParamDict(map[]);
    reply := Request(cfg, network, DELETE, postId, params);
  }

  /** DELETE on the bare comment id; the only parameter sent is the access token. */
  method DeleteComment(cfg: Config, network: Network, commentId: string) returns (reply: Value)
    ensures reply == network(HttpRequest(DELETE, Url(cfg.graphApiBaseUrl, commentId),
                                         map[AccessTokenKey := cfg.pageAccessToken]))
  {
    var params := new ParamDict(map[]);
    reply := Request(cfg, network, DELETE, commentId, params);
  }

  /** GET on a post's insights for one metric string and a period that defaults to "lifetime". */
  method GetInsights(cfg: Config, network: Network, postId: string, metric: string, period: Option<string>)
    returns (reply: Value)
    ensures reply == network(HttpRequest(GET, Url(cfg.graphApiBaseUrl, postId + "/insights"),
                                         map["metric" := metric, "period" := PeriodOrDefault(period),
                                             AccessTokenKey := cfg.pageAccessToken]))
  {
    var p := PeriodOrDefault(period);
    var params := new ParamDict(map["metric" := metric, "period" := p]);
    reply := Request(cfg, network, GET, postId + "/insights", params);
  }

  /** The insights request for several metrics at once: their names joined with commas, in list order. */
  method GetBulkInsights(cfg: Config, network: Network, postId: string, metrics: seq<string>, period: Option<string>)
    returns (reply: Value)
    ensures reply == network(HttpRequest(GET, Url(cfg.graphApiBaseUrl, postId + "/insights"),
                                         map["metric" := JoinCommas(metrics), "period" := PeriodOrDefault(period),
                                             AccessTokenKey := cfg.pageAccessToken]))
  {
    var metricStr := JoinCommas(metrics);
    reply := GetInsights(cfg, network, postId, metricStr, period);
  }
}
