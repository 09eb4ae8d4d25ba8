/** The route and delivery commands, which loops of every storage mode accept besides those of the role policy: routes
    are prepared, their deliveries begun and observed, and results staged from them. */
module Deliveries {
  import opened Base
  import opened Records
  import opened Commands
  import opened Authority
  import opened Kernel

  datatype Route = Route(delivery: Str, goal: Str, intent: Str, target: Str)

  /** PREPARED, ATTEMPT_COMMITTED, or the state of an observation. */
  datatype DeliveryState = Prepared | Sent(state: Observation)

  /** The single automatic attempt is consumed when it begins. */
  datatype Delivery = Delivery(route: Str, target: Str, consumed: bool, state: DeliveryState, attempt: Option<Str>)

  /** An attempt of a delivery, which lives in the same collection as those of effects. */
  datatype Send = Send(delivery: Str, key: Str, requestDigest: Str, target: Str, state: Observation)

  datatype Traffic = Traffic(routes: map<Str, Route>, deliveries: map<Str, Delivery>, sends: map<Str, Send>)

  const NO_TRAFFIC := Traffic(map[], map[], map[])

  /** A result staged from a delivery names its route instead of an effect and a goal. */
  datatype RoutedResult = RoutedResult(
    attempt: Str, delivery: Str, route: Str, outcome: Outcome, report: Str, acknowledged: bool, artifact: Option<Str>)

  /** Machine bindings are absent when the command does not carry them; a receipt is the one the command carries, if it
      is registered, trusted and in time. */
  datatype RouteCommand =
    | BindHost(host: Option<Str>, receipt: Option<Receipt>)
    | PrepareRoute(goal: Option<Str>, target: Option<Str>, route: Option<Str>, delivery: Option<Str>, intent: string)
    | BeginDelivery(subject: Str, attempt: Option<Str>, key: Option<Str>)
    | ObserveDelivery(subject: Str, receipt: Option<Receipt>)
    | StageResult(subject: Str, result: Option<Str>, report: Option<Str>, outcome: Outcome, summary: string)

  const BIND := Text("bind")
  const SEND := Text("send")

  /** `_binding` */
  function Given(binding: Option<Str>): Result<Str> {
    if binding.Some? then Ok(binding.value) else Err(Rejected(InvalidCommand))
  }

  function Checked(receipt: Option<Receipt>, loop: Str, about: About): Result<Receipt> {
    if receipt.None? then Err(Rejected(ReceiptRequired))
    else if !Concerns(receipt.value, loop, about) then Err(Rejected(ReceiptIdentityMismatch))
    else Ok(receipt.value)
  }

  /** `_bind_host_resource`: the host to bind and the receipt it is bound by. */
  function BoundHost(loop: Str, c: RouteCommand): Result<(Str, Receipt)>
    requires c.BindHost?
  {
    var host :- Given(c.host);
    var receipt :- Checked(c.receipt, loop, About(BIND, host, None, None, None));
    Ok((host, receipt))
  }

  /** `_prepare_route` */
  function AfterPrepareRoute(t: Traffic, goals: set<Str>, active: set<Str>, c: RouteCommand): Result<Traffic>
    requires c.PrepareRoute?
  {
    var goal :- Given(c.goal);
    var target :- Given(c.target);
    var route :- Given(c.route);
    var delivery :- Given(c.delivery);
    if goal !in goals then Err(Fault)
    else
      :- Need(goal in active, InvalidTransition);
      :- Need(!Blank(c.intent), InvalidCommand);
      var intent := Digest(ReasonText("loopskill-route-intent-v1\n", c.intent));
      Ok(t.(routes := t.routes[route := Route(delivery, goal, intent, target)],
            deliveries := t.deliveries[delivery := Delivery(route, target, false, Prepared, None)]))
  }

  /** `_begin_delivery` */
  function AfterBegin(t: Traffic, c: RouteCommand): Result<Traffic>
    requires c.BeginDelivery?
  {
    var delivery :- Get(t.deliveries, c.subject);
    :- Need(delivery.state == Prepared && !delivery.consumed, AttemptAlreadyConsumed);
    var route :- Get(t.routes, delivery.route);
    var attempt :- Given(c.attempt);
    var key :- Given(c.key);
    Ok(t.(deliveries := t.deliveries[c.subject := delivery.(attempt := Some(attempt), consumed := true,
                                                             state := Sent(Committed))],
          sends := t.sends[attempt := Send(c.subject, key, Digest(SendContent(route.intent, route.target)),
                                           route.target, Committed)]))
  }

  /** `_observe_delivery` */
  function AfterSend(t: Traffic, loop: Str, c: RouteCommand): Result<Traffic>
    requires c.ObserveDelivery?
  {
    var send :- Get(t.sends, c.subject);
    var delivery :- Get(t.deliveries, send.delivery);
    var about := About(SEND, send.delivery, Some(c.subject), Some(send.target), Some(send.requestDigest));
    var receipt :- Checked(c.receipt, loop, about);
    :- Need(receipt.key == Some(send.key), ReceiptIdentityMismatch);
    var sighted :- Sighted(receipt, send.state, c.subject);
    Ok(t.(sends := t.sends[c.subject := send.(state := sighted.0)],
          deliveries := t.deliveries[send.delivery := delivery.(state := Sent(sighted.0))]))
  }

  /** `_stage_result`: the reference of the result, and its record. */
  function StagedByRoute(t: Traffic, c: RouteCommand): Result<(Str, RoutedResult)>
    requires c.StageResult?
  {
    var route :- Get(t.routes, c.subject);
    var delivery :- Get(t.deliveries, route.delivery);
    :- Need(delivery.state.Sent? && delivery.state.state != Committed, InvalidTransition);
    var result :- Given(c.result);
    var report :- Given(c.report);
    :- Need(!Blank(c.summary), ResourceLimitExceeded);
    if delivery.attempt.None? then Err(Fault)
    else Ok((result, RoutedResult(delivery.attempt.value, route.delivery, c.subject, c.outcome, report, false, None)))
  }
}
