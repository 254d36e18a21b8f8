/** The API check of `src/checks.py` as functions of the HTTP replies: which
    endpoints are probed, how each reply is classified, the aggregate status
    the loop leaves behind and the metric writes it makes. */
module ApiProbe {
  import opened Common
  import opened Statuses
  import opened Results
  import opened Metrics
  import opened Configuration

  /** An entry of the `endpoints` argument. Its "method" only shapes the
      request, whose outcome is an input here. */
  datatype Endpoint = Endpoint(url: string)

  /** One entry of `results["endpoints"]`. */
  datatype ApiEndpoint =
      /** A response arrived: its time, code, message and classification. */
    | Reached(url: string, responseTime: real, statusCode: int, message: string, status: Status)
      /** The request raised: recorded with status "error" and code 503. */
    | Unreachable(url: string, status: Status, statusCode: int, error: string)

  const ServiceUnavailable := 503

  /** `http://{host}:{port}/health`, the self-probe used when no endpoint is given. */
  function DefaultUrl(api: ApiSettings): string
  {
    "http://" + api.host + ":" + IntToString(api.port) + "/health"
  }

  /** The endpoints the check requests: those given, or the single default
      endpoint when none (an empty list or `None`) is given. */
  function EffectiveEndpoints(api: ApiSettings, endpoints: seq<Endpoint>): (r: seq<Endpoint>)
    ensures endpoints == [] ==> r == [Endpoint(DefaultUrl(api))]
    ensures endpoints != [] ==> r == endpoints
  {
    if endpoints == [] then [Endpoint(DefaultUrl(api))] else endpoints
  }

  /** `response_data.get("message", "No message provided")`, where a body
      that is not JSON reads as `{"message": "Non-JSON response"}`. */
  function MessageOf(body: Body): (r: string)
    ensures body.NonJson? ==> r == "Non-JSON response"
    ensures body.Json? && body.message.Some? ==> r == body.message.value
    ensures body.Json? && body.message.None? ==> r == "No message provided"
  {
    match body
    case NonJson => "Non-JSON response"
    case Json(m) => m.GetOr("No message provided")
  }

  /** How one reply is classified: 200 healthy, 429 ("Too Many Requests",
      section 4 of RFC 6585) warning, any other code or a failed request error. */
  function ReplyStatus(reply: HttpReply): (s: Status)
    ensures s == Healthy <==> reply.Response? && reply.statusCode == 200
    ensures s == Warning <==> reply.Response? && reply.statusCode == 429
    ensures s == Error <==> !(reply.Response? && (reply.statusCode == 200 || reply.statusCode == 429))
  {
    match reply
    case RequestFailed(_) => Error
    case Response(code, _, _) => if code == 200 then Healthy else if code == 429 then Warning else Error
  }

  /** The entry recorded for one endpoint. */
  function ClassifyReply(e: Endpoint, reply: HttpReply): (r: ApiEndpoint)
    ensures r.url == e.url && r.status == ReplyStatus(reply)
    ensures reply.RequestFailed? ==> r.Unreachable? && r.statusCode == ServiceUnavailable && r.error == reply.error
    ensures reply.Response? ==> r.Reached? && r.statusCode == reply.statusCode
                                && r.responseTime == reply.elapsed && r.message == MessageOf(reply.body)
  {
    match reply
    case RequestFailed(err) => Unreachable(e.url, Error, ServiceUnavailable, err)
    case Response(code, elapsed, body) => Reached(e.url, elapsed, code, MessageOf(body), ReplyStatus(reply))
  }

  /** The `results["endpoints"]` list the loop builds: one entry per
      endpoint, in order. */
  function EndpointResults(endpoints: seq<Endpoint>, replies: seq<HttpReply>): (r: seq<ApiEndpoint>)
    requires |endpoints| == |replies|
    ensures |r| == |endpoints|
    ensures forall i :: 0 <= i < |r| ==> r[i] == ClassifyReply(endpoints[i], replies[i])
  {
    if endpoints == [] then []
    else
      var n := |endpoints| - 1;
      EndpointResults(endpoints[..n], replies[..n]) + [ClassifyReply(endpoints[n], replies[n])]
  }

  /** The `results["status"]` the loop leaves: it starts healthy and every
      reply that is not a 200 overwrites it with its own classification, so
      the last such reply wins. */
  function ApiStatus(replies: seq<HttpReply>): (s: Status)
    ensures s != Skipped
  {
    if replies == [] then Healthy
    else
      var last := replies[|replies| - 1];
      if ReplyStatus(last) == Healthy then ApiStatus(replies[..|replies| - 1]) else ReplyStatus(last)
  }

  /** The aggregate is healthy iff every endpoint answered 200. */
  lemma {:induction false} ApiStatusHealthyIff(replies: seq<HttpReply>)
    ensures ApiStatus(replies) == Healthy <==> forall i :: 0 <= i < |replies| ==> ReplyStatus(replies[i]) == Healthy
  {
    if replies != [] {
      var n := |replies| - 1;
      ApiStatusHealthyIff(replies[..n]);
      assert forall i :: 0 <= i < n ==> replies[..n][i] == replies[i];
    }
  }

  /** Otherwise it is the classification of the last endpoint that did not
      answer 200. */
  lemma {:induction false} ApiStatusIsLastNonHealthy(replies: seq<HttpReply>, j: nat)
    requires j < |replies| && ReplyStatus(replies[j]) != Healthy
    requires forall k :: j < k < |replies| ==> ReplyStatus(replies[k]) == Healthy
    ensures ApiStatus(replies) == ReplyStatus(replies[j])
  {
    var n := |replies| - 1;
    if j < n {
      assert replies[..n][j] == replies[j];
      ApiStatusIsLastNonHealthy(replies[..n], j);
    }
  }

  /** So the aggregate is not the maximum severity: an endpoint in error
      followed by a rate-limited one leaves warning. */
  lemma ApiStatusIsNotMaximum()
    ensures var replies := [Response(500, 0.1, NonJson), Response(429, 0.1, NonJson)];
            ReplyStatus(replies[0]) == Error && ApiStatus(replies) == Warning
  {
  }

  /** What `check_api_health` returns: skipped when the check is disabled;
      otherwise one entry per effective endpoint and the last-write status. */
  function ApiOutcome(api: ApiSettings, endpoints: seq<Endpoint>, replies: seq<HttpReply>): (r: CheckResult<ApiEndpoint>)
    requires api.enabled ==> |replies| == |EffectiveEndpoints(api, endpoints)|
    ensures !api.enabled ==> r == Notice(Skipped, "API health check disabled")
    ensures api.enabled ==>
              && r.Endpoints? && r.status == ApiStatus(replies)
              && |r.endpoints| == |EffectiveEndpoints(api, endpoints)|
              && forall i :: 0 <= i < |r.endpoints| ==>
                   r.endpoints[i] == ClassifyReply(EffectiveEndpoints(api, endpoints)[i], replies[i])
  {
    if !api.enabled then Notice(Skipped, "API health check disabled")
    else Endpoints(ApiStatus(replies), EndpointResults(EffectiveEndpoints(api, endpoints), replies))
  }

  /** The metric writes for one endpoint inside the loop: last status code,
      request count by code, response time and health flag; a failed request
      records code 503 and no response time. */
  function ProbeEvents(container: string, e: Endpoint, reply: HttpReply): (r: seq<Event>)
    ensures |r| == if reply.Response? then 4 else 3
    ensures WritesOnly(r, {ApiResponseTime, ApiRequestCount, ApiLastStatusCode, ApiHealth})
    ensures LabelledWith(r, container)
    ensures forall i :: 0 <= i < |r| ==> r[i].labels.endpoint == Some(e.url)
    ensures r[0] == Event(ApiLastStatusCode, EndpointLabels(container, e.url),
                          Set((if reply.Response? then reply.statusCode else ServiceUnavailable) as real))
    ensures r[|r| - 1] == HealthGauge(container, e, reply)
  {
    var labels := EndpointLabels(container, e.url);
    match reply
    case Response(code, elapsed, _) =>
      [Event(ApiLastStatusCode, labels, Set(code as real)),
       Event(ApiRequestCount, StatusCodeLabels(container, e.url, IntToString(code)), Inc),
       Event(ApiResponseTime, labels, Observe(elapsed)),
       Event(ApiHealth, labels, Set(Flag(code == 200)))]
    case RequestFailed(_) =>
      [Event(ApiLastStatusCode, labels, Set(ServiceUnavailable as real)),
       Event(ApiRequestCount, StatusCodeLabels(container, e.url, IntToString(ServiceUnavailable)), Inc),
       Event(ApiHealth, labels, Set(0.0))]
  }

  /** The writes of the whole loop, endpoint by endpoint. */
  function ProbeEventsAll(container: string, endpoints: seq<Endpoint>, replies: seq<HttpReply>): (r: seq<Event>)
    requires |endpoints| == |replies|
    ensures WritesOnly(r, {ApiResponseTime, ApiRequestCount, ApiLastStatusCode, ApiHealth})
    ensures LabelledWith(r, container)
  {
    if endpoints == [] then []
    else
      var n := |endpoints| - 1;
      LabelledConcat(ProbeEventsAll(container, endpoints[..n], replies[..n]), ProbeEvents(container, endpoints[n], replies[n]), container);
      ProbeEventsAll(container, endpoints[..n], replies[..n]) + ProbeEvents(container, endpoints[n], replies[n])
  }

  /** The health-gauge write for one endpoint: 1 iff it answered 200. */
  function HealthGauge(container: string, e: Endpoint, reply: HttpReply): Event
  {
    Event(ApiHealth, EndpointLabels(container, e.url), Set(Flag(ReplyStatus(reply) == Healthy)))
  }

  /** Each endpoint's writes hold exactly one health-gauge write. */
  lemma ProbeHealthGauge(container: string, e: Endpoint, reply: HttpReply)
    ensures Named(ProbeEvents(container, e, reply), ApiHealth) == [HealthGauge(container, e, reply)]
  {
    var es := ProbeEvents(container, e, reply);
    assert Named(es, ApiHealth) == Named(es[1..], ApiHealth);
    assert Named(es[1..], ApiHealth) == Named(es[2..], ApiHealth);
    if reply.Response? {
      assert Named(es[2..], ApiHealth) == Named(es[3..], ApiHealth);
    }
  }

  /** The loop sets the health gauge once per endpoint, in order, to 1 iff
      the endpoint answered 200. */
  lemma {:induction false} ProbeHealthGauges(container: string, endpoints: seq<Endpoint>, replies: seq<HttpReply>)
    requires |endpoints| == |replies|
    ensures var health := Named(ProbeEventsAll(container, endpoints, replies), ApiHealth);
            && |health| == |endpoints|
            && forall i :: 0 <= i < |endpoints| ==> health[i] == HealthGauge(container, endpoints[i], replies[i])
  {
    if endpoints != [] {
      var n := |endpoints| - 1;
      var pre := ProbeEventsAll(container, endpoints[..n], replies[..n]);
      var last := ProbeEvents(container, endpoints[n], replies[n]);
      assert ProbeEventsAll(container, endpoints, replies) == pre + last;
      ProbeHealthGauges(container, endpoints[..n], replies[..n]);
      NamedConcat(pre, last, ApiHealth);
      ProbeHealthGauge(container, endpoints[n], replies[n]);
      var init := Named(pre, ApiHealth);
      var health := init + [HealthGauge(container, endpoints[n], replies[n])];
      assert Named(ProbeEventsAll(container, endpoints, replies), ApiHealth) == health;
      forall i | 0 <= i < |endpoints|
        ensures health[i] == HealthGauge(container, endpoints[i], replies[i])
      {
        if i < n {
          assert health[i] == init[i];
          assert endpoints[..n][i] == endpoints[i] && replies[..n][i] == replies[i];
        } else {
          assert health[i] == HealthGauge(container, endpoints[n], replies[n]);
        }
      }
    }
  }
}
