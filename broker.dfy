/** The RabbitMQ check of `src/checks.py` as functions of the two
    management-API replies (`/api/overview`, then `/api/queues`): the result
    it returns and the metric writes it makes on the way. */
module Broker {
  import opened Common
  import opened Statuses
  import opened Results
  import opened Metrics

  /** The parts of the `/api/overview` body the check reads. */
  datatype Overview = Overview(
    version: string, erlangVersion: string, connections: int, queues: int, exchanges: int)

  /** One element of the `/api/queues` body. */
  datatype QueueInfo = QueueInfo(name: string, messages: int)

  /** A management-API request: it raised a `RequestException`, or it
      answered with a status code and (when that is 200) a decoded body. */
  datatype BrokerReply<T> = ConnectFailed(error: string) | Answered(statusCode: int, body: T)

  /** The broker metrics are labelled with this fixed container name, not
      the monitored container's. */
  const BrokerLabel := "rabbitmq"

  function ConnectError(error: string): string
  {
    "Failed to connect to RabbitMQ: " + error
  }

  /** What `check_rabbitmq_health` returns. */
  function BrokerOutcome<E>(overview: BrokerReply<Overview>, listing: BrokerReply<seq<QueueInfo>>): (r: CheckResult<E>)
    ensures r.status == Healthy <==> overview.Answered? && overview.statusCode == 200 && listing.Answered?
    ensures r.status == Healthy || r.status == Error
    ensures overview.ConnectFailed? ==> r == Notice(Error, ConnectError(overview.error))
    ensures overview.Answered? && overview.statusCode != 200 ==>
              r == Notice(Error, "RabbitMQ API returned status " + IntToString(overview.statusCode))
    ensures overview.Answered? && overview.statusCode == 200 && listing.ConnectFailed? ==>
              r == Notice(Error, ConnectError(listing.error))
    ensures r.status == Healthy ==>
              var o := overview.body;
              r == Broker(Healthy, "RabbitMQ is running",
                          BrokerDetails(o.version, o.erlangVersion, o.connections, o.queues, o.exchanges))
  {
    match overview
    case ConnectFailed(e) => Notice(Error, ConnectError(e))
    case Answered(code, o) =>
      if code != 200 then Notice(Error, "RabbitMQ API returned status " + IntToString(code))
      else match listing
        case ConnectFailed(e) => Notice(Error, ConnectError(e))
        case Answered(_, _) =>
          Broker(Healthy, "RabbitMQ is running",
                 BrokerDetails(o.version, o.erlangVersion, o.connections, o.queues, o.exchanges))
  }

  function QueueGauge(q: QueueInfo): Event
  {
    Event(RabbitmqQueueMessages, QueueLabels(BrokerLabel, q.name), Set(q.messages as real))
  }

  /** The loop over a non-empty listing: one message-count gauge per queue, in order. */
  function QueueGauges(queues: seq<QueueInfo>): (r: seq<Event>)
    ensures |r| == |queues|
    ensures forall i :: 0 <= i < |queues| ==> r[i] == QueueGauge(queues[i])
  {
    if queues == [] then []
    else QueueGauges(queues[..|queues| - 1]) + [QueueGauge(queues[|queues| - 1])]
  }

  /** The writes for a listing that answered 200: an empty one is recorded
      as a "default" queue with 0 messages instead of being left out. */
  function ListingEvents(queues: seq<QueueInfo>): (r: seq<Event>)
    ensures |r| == if queues == [] then 1 else |queues|
    ensures WritesOnly(r, {RabbitmqQueueMessages})
    ensures LabelledWith(r, BrokerLabel)
    ensures forall i :: 0 <= i < |queues| ==> r[i].labels.queue == Some(queues[i].name)
  {
    if queues == [] then [Event(RabbitmqQueueMessages, QueueLabels(BrokerLabel, "default"), Set(0.0))]
    else QueueGauges(queues)
  }

  function UpEvent(up: bool): Event
  {
    Event(RabbitmqUp, ContainerLabels(BrokerLabel), Set(Flag(up)))
  }

  /** All writes of `check_rabbitmq_health`, in order. A failed queue request
      comes after the "up" and connection gauges were set, so it sets "up"
      back to 0; a listing answered with another code writes nothing. */
  function BrokerEvents(overview: BrokerReply<Overview>, listing: BrokerReply<seq<QueueInfo>>): (r: seq<Event>)
    ensures r != [] && r[0] == UpEvent(overview.Answered? && overview.statusCode == 200)
    ensures WritesOnly(r, {RabbitmqUp, RabbitmqConnectionCount, RabbitmqQueueMessages})
    ensures LabelledWith(r, BrokerLabel)
    ensures !(overview.Answered? && overview.statusCode == 200) ==> |r| == 1
  {
    match overview
    case ConnectFailed(_) => [UpEvent(false)]
    case Answered(code, o) =>
      if code != 200 then [UpEvent(false)]
      else
        [UpEvent(true),
         Event(RabbitmqConnectionCount, ContainerLabels(BrokerLabel), Set(o.connections as real))]
        + match listing
          case ConnectFailed(_) => [UpEvent(false)]
          case Answered(qcode, queues) => if qcode == 200 then ListingEvents(queues) else []
  }

  /** An empty listing yields exactly one placeholder gauge. */
  lemma EmptyListingPlaceholder(overview: BrokerReply<Overview>)
    requires overview.Answered? && overview.statusCode == 200
    ensures Named(BrokerEvents(overview, Answered(200, [])), RabbitmqQueueMessages)
            == [Event(RabbitmqQueueMessages, QueueLabels(BrokerLabel, "default"), Set(0.0))]
  {
    var events := BrokerEvents(overview, Answered(200, []));
    assert Named(events, RabbitmqQueueMessages) == Named(events[1..], RabbitmqQueueMessages);
    assert Named(events[1..], RabbitmqQueueMessages) == Named(events[2..], RabbitmqQueueMessages);
  }

  /** The last "up" gauge the check writes agrees with its result: 1 iff
      the result is healthy. */
  lemma LastUpAgreesWithOutcome(overview: BrokerReply<Overview>, listing: BrokerReply<seq<QueueInfo>>)
    ensures var ups := Named(BrokerEvents(overview, listing), RabbitmqUp);
            ups != [] && ups[|ups| - 1] == UpEvent(BrokerOutcome<()>(overview, listing).status == Healthy)
  {
    if overview.Answered? && overview.statusCode == 200 {
      var o := overview.body;
      var head := [UpEvent(true),
                   Event(RabbitmqConnectionCount, ContainerLabels(BrokerLabel), Set(o.connections as real))];
      assert Named(head, RabbitmqUp) == [UpEvent(true)];
      var tail := match listing
                  case ConnectFailed(_) => [UpEvent(false)]
                  case Answered(qcode, queues) => if qcode == 200 then ListingEvents(queues) else [];
      assert BrokerEvents(overview, listing) == head + tail;
      NamedConcat(head, tail, RabbitmqUp);
      match listing
      case ConnectFailed(_) =>
        assert Named(tail, RabbitmqUp) == [UpEvent(false)];
      case Answered(qcode, queues) =>
        if qcode == 200 {
          NamedOutside(ListingEvents(queues), {RabbitmqQueueMessages}, RabbitmqUp);
        }
    }
  }
}
