/**
 * The OPC UA side of the gateway: the connection supervisor with its bounded
 * retry budget, the subscription callback that classifies values and routes the
 * keepalive node, the registry of active subscriptions, and the option list a
 * client session is created with. The protocol library (endpoint discovery,
 * sessions, monitors) is abstract: its answers are inputs.
 */
module OpcUa {
  import opened Wrappers
  import opened Payloads
  import opened Config

  /** The node whose value changes signal that the session is alive. */
  const KeepaliveNodeId: string := "i=2258"

  /** The numeric value of `ua.StatusOK`. */
  const StatusOK: nat := 0

  // ---------------------------------------------------------------------------
  // Classification of the dynamic value type
  // ---------------------------------------------------------------------------

  /** The closed set of datatype tags an exported sample can carry. */
  datatype Tag = Int | U8 | U16 | U32 | I8 | I16 | I32 | I64 | F32 | F64 | Bool | Str

  /** The text of a tag as it appears in the payload's `Datatype` field. */
  function TagName(t: Tag): string {
    match t
    case Int => "Int"
    case U8 => "u8"
    case U16 => "u16"
    case U32 => "u32"
    case I8 => "i8"
    case I16 => "i16"
    case I32 => "i32"
    case I64 => "i64"
    case F32 => "f32"
    case F64 => "f64"
    case Bool => "Bool"
    case Str => "Str"
  }

  /** The type switch of the data-change callback. */
  function Classify(v: GoValue): (t: Tag)
    ensures t == Str <==> v.GoUint64? || v.GoString? || v.GoOther?
  {
    match v
    case GoInt(_) => Int
    case GoUint8(_) => U8
    case GoUint16(_) => U16
    case GoUint32(_) => U32
    case GoInt8(_) => I8
    case GoInt16(_) => I16
    case GoInt32(_) => I32
    case GoInt64(_) => I64
    case GoFloat32 => F32
    case GoFloat64 => F64
    case GoBool(_) => Bool
    case _ => Str
  }

  /** The Go name of a value's dynamic type; None for a type the model does not name. */
  function GoTypeName(v: GoValue): Option<string> {
    match v
    case GoInt(_) => Some("int")
    case GoInt8(_) => Some("int8")
    case GoInt16(_) => Some("int16")
    case GoInt32(_) => Some("int32")
    case GoInt64(_) => Some("int64")
    case GoUint8(_) => Some("uint8")
    case GoUint16(_) => Some("uint16")
    case GoUint32(_) => Some("uint32")
    case GoUint64(_) => Some("uint64")
    case GoFloat32 => Some("float32")
    case GoFloat64 => Some("float64")
    case GoBool(_) => Some("bool")
    case GoString(_) => Some("string")
    case GoOther => None
  }

  /** The classification table, keyed by Go type name; every other type is "Str". */
  const TypeTable: map<string, string> := map[
    "int" := "Int", "uint8" := "u8", "uint16" := "u16", "uint32" := "u32",
    "int8" := "i8", "int16" := "i16", "int32" := "i32", "int64" := "i64",
    "float32" := "f32", "float64" := "f64", "bool" := "Bool"]

  /** The tag of every value is the table's entry for its type, and "Str" off the table. */
  lemma ClassifyFollowsTable(v: GoValue)
    ensures TagName(Classify(v)) ==
      match GoTypeName(v)
      case Some(name) => if name in TypeTable then TypeTable[name] else "Str"
      case None => "Str"
  {
  }

  // ---------------------------------------------------------------------------
  // The data-change callback
  // ---------------------------------------------------------------------------

  /** A node id as rendered by `NodeID.String()` and `NodeID.StringID()`. */
  datatype NodeId = NodeId(text: string, stringId: string)

  /** A `monitor.DataChangeMessage`: the sample, its status and its error. */
  datatype Notification = Notification(
    nodeId: NodeId,
    value: GoValue,
    sourceTimestamp: nat,
    status: nat,
    error: Option<string>)

  /** What the callback does with one notification. */
  datatype Routing = Dropped | Keepalive | Forward(payload: Payload)

  /** The callback's decision for one notification. */
  function Route(n: Notification): (r: Routing)
    ensures r.Dropped? <==> n.error.Some? || n.status != StatusOK
    ensures r.Keepalive? <==> n.error.None? && n.status == StatusOK && n.nodeId.text == KeepaliveNodeId
    ensures r.Forward? <==> n.error.None? && n.status == StatusOK && n.nodeId.text != KeepaliveNodeId
    ensures r.Forward? ==> r.payload.id == n.nodeId.text && r.payload.id != KeepaliveNodeId
    ensures r.Forward? ==> r.payload.name == n.nodeId.stringId && r.payload.ts == n.sourceTimestamp
    ensures r.Forward? ==> r.payload.value == n.value && r.payload.dataType == TagName(Classify(n.value))
    ensures r.Forward? ==> r.payload.server == ""
  {
    if n.error.Some? then Dropped
    else if n.status != StatusOK then Dropped
    else if n.nodeId.text == KeepaliveNodeId then Keepalive
    else Forward(Payload(n.value, n.sourceTimestamp, n.nodeId.stringId, n.nodeId.text, TagName(Classify(n.value)), ""))
  }

  // ---------------------------------------------------------------------------
  // Client creation
  // ---------------------------------------------------------------------------

  datatype TokenType = AnonymousToken | UserNameToken

  /** The `opcua.Option` values the client is built with. */
  datatype ClientOption =
    | ApplicationName(name: string)
    | AutoReconnect(enabled: bool)
    | ReconnectInterval(duration: nat)
    | SecurityPolicy(policy: string)
    | SecurityMode(mode: string)
    | AuthUsername(username: string, password: string)
    | AuthAnonymous
    | SecurityFromEndpoint(token: TokenType)
    | CertificateFile(path: string)
    | PrivateKeyFile(path: string)

  const UserPasswordAuth: string := "User&Password"
  const CertificateAuth: string := "Certificate"
  const CertificatePath: string := "./certs/cert.pem"
  const PrivateKeyPath: string := "./certs/key.pem"

  /** An option that chooses how the session authenticates. */
  predicate IsAuthOption(o: ClientOption) {
    o.AuthUsername? || o.AuthAnonymous? || o.SecurityFromEndpoint?
  }

  /** The options every client gets. */
  function BaseOptions(c: OpcConnection): (opts: seq<ClientOption>)
    ensures forall o :: o in opts ==> !IsAuthOption(o) && !o.CertificateFile? && !o.PrivateKeyFile?
  {
    [ApplicationName("guanaco"), AutoReconnect(true), ReconnectInterval(10 * Second),
     SecurityPolicy(c.policy), SecurityMode(c.mode)]
  }

  /** The switch on the authentication type. */
  function AuthOptions(a: OpcAuthentication): (opts: seq<ClientOption>)
    ensures AuthUsername(a.credentials.username, a.credentials.password) in opts <==> a.authType == UserPasswordAuth
    ensures SecurityFromEndpoint(UserNameToken) in opts <==> a.authType == UserPasswordAuth
    ensures AuthAnonymous in opts <==> a.authType != UserPasswordAuth && a.authType != CertificateAuth
    ensures SecurityFromEndpoint(AnonymousToken) in opts <==> a.authType != UserPasswordAuth && a.authType != CertificateAuth
    ensures a.authType == CertificateAuth ==> opts == []
    ensures forall o :: o in opts ==> IsAuthOption(o)
  {
    if a.authType == UserPasswordAuth then
      [AuthUsername(a.credentials.username, a.credentials.password), SecurityFromEndpoint(UserNameToken)]
    else if a.authType == CertificateAuth then
      []
    else
      [AuthAnonymous, SecurityFromEndpoint(AnonymousToken)]
  }

  /** The certificate and key files, for every policy except "None". */
  function CertificateOptions(policy: string): (opts: seq<ClientOption>)
    ensures CertificateFile(CertificatePath) in opts <==> policy != "None"
    ensures PrivateKeyFile(PrivateKeyPath) in opts <==> policy != "None"
    ensures forall o :: o in opts ==> !IsAuthOption(o)
  {
    if policy != "None" then [CertificateFile(CertificatePath), PrivateKeyFile(PrivateKeyPath)] else []
  }

  /** The option list `CreateClient` passes to `opcua.NewClient`. */
  function Options(c: OpcConnection): (opts: seq<ClientOption>)
    ensures |opts| >= 5 && opts[..5] == BaseOptions(c)
    ensures forall o :: o in opts <==>
      o in BaseOptions(c) || o in AuthOptions(c.authentication) || o in CertificateOptions(c.policy)
  {
    var base, auth, cert := BaseOptions(c), AuthOptions(c.authentication), CertificateOptions(c.policy);
    assert (base + auth + cert)[..5] == base;
    base + auth + cert
  }

  /**
   * The authentication options: user name and password for "User&Password",
   * none for "Certificate", anonymous for every other type.
   */
  lemma OptionsAuthSelection(c: OpcConnection)
    ensures AuthUsername(c.authentication.credentials.username, c.authentication.credentials.password) in Options(c)
            <==> c.authentication.authType == UserPasswordAuth
    ensures SecurityFromEndpoint(UserNameToken) in Options(c) <==> c.authentication.authType == UserPasswordAuth
    ensures AuthAnonymous in Options(c)
            <==> c.authentication.authType != UserPasswordAuth && c.authentication.authType != CertificateAuth
    ensures SecurityFromEndpoint(AnonymousToken) in Options(c)
            <==> c.authentication.authType != UserPasswordAuth && c.authentication.authType != CertificateAuth
    ensures c.authentication.authType == CertificateAuth ==> forall o :: o in Options(c) ==> !IsAuthOption(o)
  {
    assert forall o :: o in BaseOptions(c) ==> !IsAuthOption(o);
    assert forall o :: o in CertificateOptions(c.policy) ==> !IsAuthOption(o);
  }

  /** The certificate and key files are options iff the policy is not "None". */
  lemma OptionsCertificateSelection(c: OpcConnection)
    ensures CertificateFile(CertificatePath) in Options(c) <==> c.policy != "None"
    ensures PrivateKeyFile(PrivateKeyPath) in Options(c) <==> c.policy != "None"
  {
    assert forall o :: o in BaseOptions(c) ==> !o.CertificateFile? && !o.PrivateKeyFile?;
    assert forall o :: o in AuthOptions(c.authentication) ==> IsAuthOption(o);
  }

  /** The server address `opc.tcp://host:port`. */
  datatype Url = Url(host: string, port: int)

  datatype EndpointDescription = EndpointDescription(url: string, securityPolicyUri: string, securityMode: string)

  /** A connected client session and the options it was opened with. */
  datatype Client = Client(url: Url, options: seq<ClientOption>)

  /**
   * What the environment answers while a client is created: the endpoint list
   * (or the discovery error), the result of generating a key pair, and the
   * result of `NewClient` followed by `Connect`.
   */
  datatype ConnectEnv = ConnectEnv(
    endpoints: Result<seq<EndpointDescription>>,
    keyPair: Outcome,
    session: Outcome)

  const NoEndpointsError: string := "no endpoints found - check configuration"

  /** A key pair is generated only for a secured policy with auto-creation on. */
  predicate NeedsKeyPair(c: OpcConnection) {
    c.policy != "None" && c.certificate.autoCreate
  }

  function CreateClient(c: OpcConnection, env: ConnectEnv): (r: Result<Client>)
    ensures env.endpoints.Failure? ==> r == Failure(env.endpoints.error)
    ensures env.endpoints == Success([]) ==> r == Failure(NoEndpointsError)
    ensures r.Success? <==>
      && env.endpoints.Success? && |env.endpoints.value| > 0
      && (NeedsKeyPair(c) ==> env.keyPair.Ok?)
      && env.session.Ok?
    ensures r.Success? ==> r.value.url == Url(c.endpoint, c.port) && r.value.options == Options(c)
  {
    match env.endpoints
    case Failure(e) => Failure(e)
    case Success(eps) =>
      if |eps| < 1 then Failure(NoEndpointsError)
      else if NeedsKeyPair(c) && env.keyPair.Err? then Failure(env.keyPair.error)
      else if env.session.Err? then Failure(env.session.error)
      else Success(Client(Url(c.endpoint, c.port), Options(c)))
  }

  // ---------------------------------------------------------------------------
  // Subscription setup
  // ---------------------------------------------------------------------------

  /**
   * The configured node ids whose monitored-item registration succeeded, in
   * order; `added[i]` is the answer of the `AddMonitorItems` call for `ids[i]`.
   */
  function MonitoredItems(ids: seq<string>, added: seq<bool>): (m: seq<string>)
    requires |added| == |ids|
    ensures |m| <= |ids|
    ensures forall x :: x in m ==> x in ids
    decreases |ids|
  {
    if ids == [] then []
    else
      var n := |ids| - 1;
      MonitoredItems(ids[..n], added[..n]) + (if added[n] then [ids[n]] else [])
  }

  /**
   * A failed registration skips that call only: an id is monitored iff some call
   * for it succeeded, and the rest of the batch is kept.
   */
  lemma {:induction false} MonitoredItemsExact(ids: seq<string>, added: seq<bool>)
    requires |added| == |ids|
    ensures forall x :: x in MonitoredItems(ids, added) <==> exists i :: 0 <= i < |ids| && ids[i] == x && added[i]
    ensures |MonitoredItems(ids, added)| <= |ids|
    decreases |ids|
  {
    if ids != [] {
      var n := |ids| - 1;
      var init, prefix := ids[..n], added[..n];
      MonitoredItemsExact(init, prefix);
      forall x
        ensures x in MonitoredItems(ids, added) <==> exists i :: 0 <= i < |ids| && ids[i] == x && added[i]
      {
        if x in MonitoredItems(init, prefix) {
          var i :| 0 <= i < n && init[i] == x && prefix[i];
          assert ids[i] == x && added[i];
        }
        if exists i :: 0 <= i < |ids| && ids[i] == x && added[i] {
          var i :| 0 <= i < |ids| && ids[i] == x && added[i];
          if i < n {
            assert init[i] == x && prefix[i];
          }
        }
      }
    }
  }

  /** An entry of the `Subs` registry: the nodes its subscription monitors. */
  datatype SubscriptionRecord = SubscriptionRecord(nodeIds: seq<string>)

  // ---------------------------------------------------------------------------
  // The supervisor as a state machine
  // ---------------------------------------------------------------------------

  /** The answers to one connection attempt: `CreateClient`, then `InitSubs`. */
  datatype Attempt = Attempt(connect: ConnectEnv, monitor: Outcome)

  /**
   * The supervisor's globals: the retry budget, the consecutive misses counted so
   * far, the connection flag, the time of the last keepalive, the current client,
   * and whether the supervision loop is still running.
   */
  datatype Supervision = Supervision(
    retryCount: int,
    currentRetryCount: int,
    conActive: bool,
    lastKeepalive: nat,
    client: Option<Client>,
    running: bool)

  /** One input the supervisor reacts to: a poll of the loop, or a callback. */
  datatype Event =
    | Poll(now: nat, attempt: Attempt)
    | DataChange(at: nat, notification: Notification)

  /** The keepalive threshold: six subscription intervals, in seconds. */
  function KeepaliveTimeout(interval: int): int {
    6 * interval * Second
  }

  /** The health check: time since the last keepalive exceeds the threshold. */
  predicate Missed(now: nat, lastKeepalive: nat, interval: int) {
    now - lastKeepalive > KeepaliveTimeout(interval)
  }

  /** Whether an attempt yields a client and a node monitor. */
  predicate Reconnects(cfg: OpcConfig, att: Attempt) {
    CreateClient(cfg.connection, att.connect).Success? && att.monitor.Ok?
  }

  /** The part of `InitSuperVisor` before its loop. */
  function Started(cfg: OpcConfig, s: Supervision, first: Attempt): (r: Supervision)
    ensures r.retryCount == cfg.connection.retries
    ensures r.currentRetryCount == s.currentRetryCount && r.lastKeepalive == s.lastKeepalive
    ensures r.running <==> Reconnects(cfg, first)
    ensures r.running ==> r.conActive && r.client.Some?
    ensures !r.running ==> r.conActive == s.conActive
  {
    var r := s.(retryCount := cfg.connection.retries);
    match CreateClient(cfg.connection, first.connect)
    case Failure(_) => r.(client := None, running := false)
    case Success(c) =>
      if first.monitor.Err? then r.(client := Some(c), running := false)
      else r.(client := Some(c), conActive := true, running := true)
  }

  /** One iteration of the supervision loop. */
  function PollStep(cfg: OpcConfig, s: Supervision, now: nat, att: Attempt): (r: Supervision)
    ensures !Missed(now, s.lastKeepalive, cfg.subscription.interval) ==> r == s
    ensures r.retryCount == s.retryCount && r.lastKeepalive == s.lastKeepalive
    ensures s.running && Missed(now, s.lastKeepalive, cfg.subscription.interval) ==>
      && (r.running <==> s.running && s.currentRetryCount + 1 <= s.retryCount)
      && (!r.running ==> r.currentRetryCount == s.currentRetryCount + 1 && r.conActive == s.conActive)
      && (r.running && Reconnects(cfg, att) ==> r.currentRetryCount == 0 && r.conActive && r.client.Some?)
      && (r.running && !Reconnects(cfg, att) ==> r.currentRetryCount == s.currentRetryCount + 1 && !r.conActive)
  {
    if !Missed(now, s.lastKeepalive, cfg.subscription.interval) then s
    else
      var misses := s.currentRetryCount + 1;
      if s.retryCount < misses then s.(currentRetryCount := misses, running := false)
      else match CreateClient(cfg.connection, att.connect)
        case Failure(_) => s.(currentRetryCount := misses, conActive := false, client := None)
        case Success(c) =>
          if att.monitor.Err? then s.(currentRetryCount := misses, conActive := false, client := Some(c))
          else s.(currentRetryCount := 0, conActive := true, client := Some(c))
  }

  /** The callback's effect on the supervisor, with the payloads it publishes. */
  function Notify(s: Supervision, at: nat, n: Notification): (r: (Supervision, seq<Payload>))
    ensures r.0 == s.(lastKeepalive := r.0.lastKeepalive)
    ensures r.0.lastKeepalive != s.lastKeepalive ==> Route(n).Keepalive? && r.0.lastKeepalive == at
    ensures Route(n).Keepalive? ==> r.0.lastKeepalive == at && r.1 == []
    ensures Route(n).Dropped? ==> r == (s, [])
    ensures |r.1| == 1 <==> Route(n).Forward?
    ensures Route(n).Forward? ==> r.1 == [Route(n).payload]
    ensures |r.1| <= 1
    ensures forall p :: p in r.1 ==> p.id != KeepaliveNodeId && p.server == ""
  {
    match Route(n)
    case Dropped => (s, [])
    case Keepalive => (s.(lastKeepalive := at), [])
    case Forward(p) => (s, [p])
  }

  function Apply(cfg: OpcConfig, s: Supervision, e: Event): (Supervision, seq<Payload>) {
    match e
    case Poll(now, att) => (PollStep(cfg, s, now, att), [])
    case DataChange(at, n) => Notify(s, at, n)
  }

  /** The loop over a sequence of events, stopping when the loop exits. */
  function Run(cfg: OpcConfig, s: Supervision, events: seq<Event>): (r: (Supervision, seq<Payload>))
    ensures !s.running ==> r == (s, [])
    ensures r.0.retryCount == s.retryCount
    ensures |r.1| <= |events|
    decreases |events|
  {
    if events == [] || !s.running then (s, [])
    else
      var (s1, out1) := Apply(cfg, s, events[0]);
      var (s2, out2) := Run(cfg, s1, events[1..]);
      (s2, out1 + out2)
  }

  /** A running loop handles the first event, then runs on the rest. */
  lemma RunUnfold(cfg: OpcConfig, s: Supervision, events: seq<Event>)
    requires events != [] && s.running
    ensures Run(cfg, s, events) ==
      (Run(cfg, Apply(cfg, s, events[0]).0, events[1..]).0,
       Apply(cfg, s, events[0]).1 + Run(cfg, Apply(cfg, s, events[0]).0, events[1..]).1)
  {
  }

  /** Handling event `i` of a running loop keeps what remains of the run unchanged. */
  lemma RunAdvance(cfg: OpcConfig, before: Supervision, after: Supervision, out: seq<Payload>,
                   events: seq<Event>, i: nat, published: seq<Payload>, goal: (Supervision, seq<Payload>))
    requires i < |events| && before.running
    requires (after, out) == Apply(cfg, before, events[i])
    requires Run(cfg, before, events[i..]).0 == goal.0
    requires published + Run(cfg, before, events[i..]).1 == goal.1
    ensures Run(cfg, after, events[i + 1..]).0 == goal.0
    ensures published + out + Run(cfg, after, events[i + 1..]).1 == goal.1
  {
    assert events[i..][0] == events[i] && events[i..][1..] == events[i + 1..];
    RunUnfold(cfg, before, events[i..]);
    var rest := Run(cfg, after, events[i + 1..]).1;
    assert published + out + rest == published + (out + rest);
  }

  /**
   * While the loop runs, the miss counter never exceeds the budget (except a
   * zero counter under a negative budget), and an active connection has a
   * client and no pending misses.
   */
  ghost predicate Inv(s: Supervision) {
    s.running ==>
      && 0 <= s.currentRetryCount
      && (s.currentRetryCount == 0 || s.currentRetryCount <= s.retryCount)
      && (s.conActive ==> s.currentRetryCount == 0 && s.client.Some?)
  }

  lemma StartedInv(cfg: OpcConfig, s: Supervision, first: Attempt)
    requires s.currentRetryCount == 0
    ensures Inv(Started(cfg, s, first))
  {
  }

  lemma {:induction false} RunPreservesInv(cfg: OpcConfig, s: Supervision, events: seq<Event>)
    requires Inv(s)
    ensures Inv(Run(cfg, s, events).0)
    decreases |events|
  {
    if events != [] && s.running {
      var (s1, _) := Apply(cfg, s, events[0]);
      assert Inv(s1);
      RunPreservesInv(cfg, s1, events[1..]);
    }
  }

  /** Every event is a poll that sees a missed keepalive and whose reconnect fails. */
  ghost predicate FailedMisses(cfg: OpcConfig, lastKeepalive: nat, events: seq<Event>) {
    forall i :: 0 <= i < |events| ==>
      && events[i].Poll?
      && Missed(events[i].now, lastKeepalive, cfg.subscription.interval)
      && !Reconnects(cfg, events[i].attempt)
  }

  /**
   * A streak of missed keepalives with failing reconnects counts one retry per
   * poll, and ends the loop exactly when the counter passes the budget.
   */
  lemma {:induction false} MissStreak(cfg: OpcConfig, s: Supervision, events: seq<Event>)
    requires s.running && s.currentRetryCount <= s.retryCount
    requires FailedMisses(cfg, s.lastKeepalive, events)
    ensures Run(cfg, s, events).0.running <==> s.currentRetryCount + |events| <= s.retryCount
    ensures Run(cfg, s, events).0.running ==>
      Run(cfg, s, events).0.currentRetryCount == s.currentRetryCount + |events|
    ensures !Run(cfg, s, events).0.running ==> Run(cfg, s, events).0.currentRetryCount == s.retryCount + 1
    decreases |events|
  {
    if events != [] {
      var e := events[0];
      assert e.Poll? && Missed(e.now, s.lastKeepalive, cfg.subscription.interval) && !Reconnects(cfg, e.attempt);
      var s1 := PollStep(cfg, s, e.now, e.attempt);
      RunUnfold(cfg, s, events);
      assert Run(cfg, s, events).0 == Run(cfg, s1, events[1..]).0;
      if s1.running {
        assert FailedMisses(cfg, s1.lastKeepalive, events[1..]) by {
          forall i | 0 <= i < |events[1..]|
            ensures events[1..][i] == events[i + 1]
          {
          }
        }
        MissStreak(cfg, s1, events[1..]);
      }
    }
  }

  /**
   * From a fresh connection with budget R, R consecutive failed misses keep the
   * loop running and the (R+1)-th ends it.
   */
  lemma BudgetExhausted(cfg: OpcConfig, s: Supervision, events: seq<Event>)
    requires s.running && s.currentRetryCount == 0 && 0 <= s.retryCount
    requires |events| == s.retryCount + 1 && FailedMisses(cfg, s.lastKeepalive, events)
    ensures Run(cfg, s, events[..s.retryCount]).0.running
    ensures !Run(cfg, s, events).0.running
  {
    assert FailedMisses(cfg, s.lastKeepalive, events[..s.retryCount]);
    MissStreak(cfg, s, events[..s.retryCount]);
    MissStreak(cfg, s, events);
  }

  /** When the first connection attempt fails there is no retry and nothing is published. */
  lemma StartFailureIsFinal(cfg: OpcConfig, s: Supervision, first: Attempt, events: seq<Event>)
    requires !Reconnects(cfg, first)
    ensures Run(cfg, Started(cfg, s, first), events) == (Started(cfg, s, first), [])
  {
  }

  /** No payload published by the loop is the keepalive node, and none carries a server yet. */
  lemma {:induction false} RunNeverPublishesKeepalive(cfg: OpcConfig, s: Supervision, events: seq<Event>)
    ensures forall p :: p in Run(cfg, s, events).1 ==> p.id != KeepaliveNodeId && p.server == ""
    decreases |events|
  {
    if events != [] && s.running {
      var (s1, out1) := Apply(cfg, s, events[0]);
      RunNeverPublishesKeepalive(cfg, s1, events[1..]);
    }
  }

  /** Every payload the loop publishes is the forwarded payload of one of its data changes. */
  lemma {:induction false} RunPublishesRouted(cfg: OpcConfig, s: Supervision, events: seq<Event>)
    ensures forall p :: p in Run(cfg, s, events).1 ==>
      exists i :: 0 <= i < |events| && events[i].DataChange? && Route(events[i].notification) == Forward(p)
    decreases |events|
  {
    if events != [] && s.running {
      var (s1, out1) := Apply(cfg, s, events[0]);
      var rest := events[1..];
      RunPublishesRouted(cfg, s1, rest);
      forall p | p in Run(cfg, s, events).1
        ensures exists i :: 0 <= i < |events| && events[i].DataChange? && Route(events[i].notification) == Forward(p)
      {
        if p in out1 {
          assert events[0].DataChange? && Route(events[0].notification) == Forward(p);
        } else {
          var j :| 0 <= j < |rest| && rest[j].DataChange? && Route(rest[j].notification) == Forward(p);
          assert events[j + 1] == rest[j];
        }
      }
    }
  }

  // ---------------------------------------------------------------------------
  // The supervisor with its globals updated in place
  // ---------------------------------------------------------------------------

  class Supervisor {
    const cfg: OpcConfig
    var retryCount: int
    var currentRetryCount: int
    var conActive: bool
    var lastKeepalive: nat
    var client: Option<Client>
    var running: bool
    var subs: map<uint32, SubscriptionRecord>

    function State(): Supervision
      reads this
    {
      Supervision(retryCount, currentRetryCount, conActive, lastKeepalive, client, running)
    }

    /** The package globals at program start. */
    constructor (cfg: OpcConfig)
      ensures this.cfg == cfg
      ensures State() == Supervision(0, 0, false, 0, None, false) && subs == map[]
    {
      this.cfg := cfg;
      retryCount, currentRetryCount, conActive, lastKeepalive := 0, 0, false, 0;
      client, running, subs := None, false, map[];
    }

    /** `InitSuperVisor` up to its loop: first connection and subscription. */
    method Start(first: Attempt)
      modifies this
      ensures State() == Started(cfg, old(State()), first) && subs == map[]
    {
      retryCount := cfg.connection.retries;
      subs := map[];
      var c := CreateClient(cfg.connection, first.connect);
      if c.Failure? {
        client := None;
        running := false;
        return;
      }
      client := Some(c.value);
      if first.monitor.Err? {
        running := false;
        return;
      }
      conActive := true;
      running := true;
    }

    /** One iteration of the supervision loop at time `now`. */
    method Poll(now: nat, att: Attempt)
      modifies this
      ensures State() == PollStep(cfg, old(State()), now, att) && subs == old(subs)
    {
      if now - lastKeepalive > KeepaliveTimeout(cfg.subscription.interval) {
        currentRetryCount := currentRetryCount + 1;
        if retryCount < currentRetryCount {
          running := false;
          return;
        }
        conActive := false;
        var c := CreateClient(cfg.connection, att.connect);
        if c.Failure? {
          client := None;
          return;
        }
        client := Some(c.value);
        if att.monitor.Err? {
          return;
        }
        conActive := true;
        currentRetryCount := 0;
      }
    }

    /** The data-change callback; returns the payloads handed to the export manager. */
    method OnDataChange(at: nat, n: Notification) returns (published: seq<Payload>)
      modifies this`lastKeepalive
      ensures (State(), published) == Notify(old(State()), at, n)
    {
      published := [];
      if n.error.Some? {
        return;
      } else if n.status != StatusOK {
        return;
      }
      var dt := TagName(Classify(n.value));
      if n.nodeId.text == KeepaliveNodeId {
        lastKeepalive := at;
      } else {
        published := [Payload(n.value, n.sourceTimestamp, n.nodeId.stringId, n.nodeId.text, dt, "")];
      }
    }

    /** One event: a poll of the loop or a data-change callback. */
    method Handle(e: Event) returns (out: seq<Payload>)
      modifies this
      ensures (State(), out) == Apply(cfg, old(State()), e) && subs == old(subs)
    {
      match e
      case Poll(now, att) =>
        Poll(now, att);
        out := [];
      case DataChange(at, n) =>
        out := OnDataChange(at, n);
    }

    /** `InitSuperVisor`: start, then the loop over the events until it exits. */
    method Supervise(first: Attempt, events: seq<Event>) returns (published: seq<Payload>)
      modifies this
      ensures (State(), published) == Run(cfg, Started(cfg, old(State()), first), events)
      ensures subs == map[]
    {
      Start(first);
      assert State() == Started(cfg, old(State()), first);
      ghost var goal := Run(cfg, State(), events);
      published := [];
      var i := 0;
      assert events[i..] == events;
      while i < |events| && running
        invariant 0 <= i <= |events|
        invariant Run(cfg, State(), events[i..]).0 == goal.0
        invariant published + Run(cfg, State(), events[i..]).1 == goal.1
        invariant subs == map[]
        decreases |events| - i
      {
        ghost var before := State();
        var out := Handle(events[i]);
        RunAdvance(cfg, before, State(), out, events, i, published, goal);
        published := published + out;
        i := i + 1;
      }
      assert Run(cfg, State(), events[i..]) == (State(), []);
      assert published + [] == published;
    }

    /**
     * `CreateSubscription` once `Subscribe` has answered: register every
     * configured node id (`added[i]` answers the call for the i-th; a failure
     * skips that call), then the keepalive node;
     * only a subscription whose keepalive item was added enters `Subs`.
     */
    method CreateSubscription(subscription: Option<uint32>, added: seq<bool>, keepaliveOk: bool)
      returns (monitored: seq<string>)
      requires |added| == |cfg.subscription.nodeIds|
      modifies this`subs
      ensures subscription.None? ==> monitored == []
      ensures subscription.Some? ==>
        monitored == MonitoredItems(cfg.subscription.nodeIds, added) + (if keepaliveOk then [KeepaliveNodeId] else [])
      ensures subs == if subscription.Some? && keepaliveOk
                      then old(subs)[subscription.value := SubscriptionRecord(monitored)]
                      else old(subs)
    {
      monitored := [];
      if subscription.None? {
        return;
      }
      var ids := cfg.subscription.nodeIds;
      var i := 0;
      while i < |ids|
        invariant 0 <= i <= |ids|
        invariant monitored == MonitoredItems(ids[..i], added[..i])
      {
        assert ids[..i + 1][..i] == ids[..i] && added[..i + 1][..i] == added[..i];
        if added[i] {
          monitored := monitored + [ids[i]];
        }
        i := i + 1;
      }
      assert ids[..i] == ids && added[..i] == added;
      if !keepaliveOk {
        return;
      }
      monitored := monitored + [KeepaliveNodeId];
      subs := subs[subscription.value := SubscriptionRecord(monitored)];
    }

    /** `TerminateSub`: the subscription's entry, and only it, leaves the registry. */
    method TerminateSub(id: uint32)
      modifies this`subs
      ensures subs == old(subs) - {id}
    {
      subs := subs - {id};
    }
  }
}
