/**
 * The provisioning workflow of WioLinkCLI/Program.cs (`RunProvisioning`):
 * log in, register a placeholder node, have the operator join the device's
 * access point, configure the device (the one retryable phase), have the
 * operator join an internet access point, poll until the node is online,
 * and rename it.
 *
 * Everything the workflow consumes from outside is an explicit input
 * (`Environment`): the DNS answer for the server, each decoded directory
 * response, the datagrams each device exchange sees, and the operator's
 * console lines. `Provision` states the whole run as a function, phase by
 * phase; `RunProvisioning` is the imperative workflow, proved equal to it;
 * the lemmas state what the run promises.
 */
module Provisioning {
  import opened Wrappers
  import opened DirectoryService
  import opened DeviceProtocol
  import opened OperatorPrompt

  /** The online poll lists the nodes at most this many times. */
  const PollAttempts: nat := 60
  /** Firmware below this version cannot resolve host names. */
  const HostNameVersion: real := 1.2

  /** The options of the `prov` verb; an absent password is rendered as "" wherever it is used. */
  datatype ProvOptions = ProvOptions(
    name: string, server: string, user: string, password: string,
    wifiSsid: string, wifiPassword: string)

  datatype Environment = Environment(
    addresses: seq<string>,                      // the DNS answer for the server, in order
    login: Option<LoginResponse>,                // decoded body of the login reply
    create: Option<CreateNodeResponse>,          // decoded body of the create reply
    traffic: seq<seq<Datagram>>,                 // datagrams seen by the 1st, 2nd, ... exchange
    listings: seq<Option<NodeListResponse>>,     // decoded bodies of the 1st, 2nd, ... listing
    rename: Option<ResultResponse>,              // decoded body of the rename reply
    console: seq<Option<string>>)                // the operator's lines

  /** What one exchange hears: its scripted datagrams, or silence once the script runs out. */
  function Traffic(env: Environment, k: nat): seq<Datagram>
  {
    if k < |env.traffic| then env.traffic[k] else []
  }

  datatype Failure =
    | NoServerAddress                     // DNS failed or gave no address
    | LoginRejected(message: Option<string>)
    | CreateRejected(message: Option<string>)
    | ListRejected(message: Option<string>)
    | SerialNotListed                     // `.First()` found no node with the serial
    | RenameRejected(message: Option<string>)
    | OperatorAbort                       // the operator declined a retry

  /** `AwaitingAnswer`: input ended at the retry question, which is then asked forever. */
  datatype RunOutcome = Done | Failed(failure: Failure) | AwaitingAnswer

  /** What the run does to the outside world: directory calls (with the header they carry) and datagrams. */
  datatype Event = Call(op: Operation, authorization: Option<AuthHeader>) | Send(command: Command)

  datatype Run = Run(outcome: RunOutcome, trace: seq<Event>)

  function Sends(commands: seq<Command>): (events: seq<Event>)
    ensures |events| == |commands|
    ensures forall i :: 0 <= i < |commands| ==> events[i] == Send(commands[i])
  {
    seq(|commands|, i requires 0 <= i < |commands| => Send(commands[i]))
  }

  function Repeat(e: Event, n: nat): (events: seq<Event>)
    ensures |events| == n
    ensures forall i :: 0 <= i < n ==> events[i] == e
  {
    seq(n, _ => e)
  }

  // ---------------------------------------------------------------------
  // The configure phase

  /** The server field the firmware can use: the resolved address for old firmware, else the host name. */
  function ServerField(version: real, address: string, host: string): (r: string)
    ensures r == address || r == host
    ensures version >= HostNameVersion ==> r == host
  {
    if version < HostNameVersion then address else host
  }

  /** What one configure attempt needs: Wi-Fi credentials, node identity and both forms of the server. */
  datatype Setup = Setup(ssid: string, password: string, nodeKey: string, nodeSn: string, host: string, address: string)

  datatype AttemptRun = AttemptRun(configured: bool, commands: seq<Command>)

  /** One attempt: the version query, and the configuration when the version came back. */
  function Attempt(s: Setup, versionTraffic: seq<Datagram>, configTraffic: seq<Datagram>, parse: string -> Option<real>)
    : (a: AttemptRun)
    ensures 1 <= |a.commands| <= 2 && a.commands[0] == Version
    ensures a.configured ==> |a.commands| == 2
  {
    match Await(Version, versionTraffic, parse)
    case TimedOut => AttemptRun(false, [Version])
    case Resolved(reply, _) =>
      var command := ApConfig(s.ssid, s.password, s.nodeKey, s.nodeSn, ServerField(reply.version, s.address, s.host));
      AttemptRun(Await(command, configTraffic, parse).Resolved?, [Version, command])
  }

  /**
   * An APCFG goes out exactly when the device reported a version, and its
   * server field is the resolved address when that version is below 1.2 and
   * the host name as given otherwise.
   */
  lemma DialectChoice(s: Setup, versionTraffic: seq<Datagram>, configTraffic: seq<Datagram>, parse: string -> Option<real>)
    ensures var a := Attempt(s, versionTraffic, configTraffic, parse);
      var v := Await(Version, versionTraffic, parse);
      && (|a.commands| == 2 <==> v.Resolved?)
      && (v.Resolved? ==>
            && v.reply.VersionIs?
            && parse(versionTraffic[v.index].payload) == Some(v.reply.version)
            && a.commands[1].ApConfig?
            && a.commands[1].server == (if v.reply.version < 1.2 then s.address else s.host)
            && a.commands[1] == ApConfig(s.ssid, s.password, s.nodeKey, s.nodeSn, a.commands[1].server))
      && (a.configured <==> v.Resolved? && Await(a.commands[1], configTraffic, parse).Resolved?)
  {
    AwaitFirstAccepted(Version, versionTraffic, parse);
  }

  /** The attempt that starts at exchange `k` hears exchanges `k` and `k + 1`. */
  function Attempts(s: Setup, env: Environment, parse: string -> Option<real>): nat -> AttemptRun
  {
    (k: nat) => Attempt(s, Traffic(env, k), Traffic(env, k + 1), parse)
  }

  lemma AttemptAt(s: Setup, env: Environment, parse: string -> Option<real>, k: nat)
    ensures Attempts(s, env, parse)(k) == Attempt(s, Traffic(env, k), Traffic(env, k + 1), parse)
  {
  }

  lemma AttemptsApply(s: Setup, env: Environment, parse: string -> Option<real>)
    ensures forall k: nat :: Attempts(s, env, parse)(k) == Attempt(s, Traffic(env, k), Traffic(env, k + 1), parse)
  {
    forall k: nat
      ensures Attempts(s, env, parse)(k) == Attempt(s, Traffic(env, k), Traffic(env, k + 1), parse)
    {
      AttemptAt(s, env, parse, k);
    }
  }

  /** An APCFG for the setup: its Wi-Fi credentials and node identity, and one of the two forms of the server. */
  predicate ConfigFor(c: Command, s: Setup)
  {
    && c.ApConfig?
    && c == ApConfig(s.ssid, s.password, s.nodeKey, s.nodeSn, c.server)
    && (c.server == s.address || c.server == s.host)
  }

  /**
   * Every attempt starts with one VERSION, sends at most one APCFG after it
   * (an APCFG for the setup), and is configured only after it.
   */
  ghost predicate WellShaped(attempt: nat -> AttemptRun, s: Setup)
  {
    forall k: nat ::
      && 1 <= |attempt(k).commands| <= 2 && attempt(k).commands[0] == Version
      && (|attempt(k).commands| == 2 ==> ConfigFor(attempt(k).commands[1], s))
      && (attempt(k).configured ==> |attempt(k).commands| == 2)
  }

  lemma AttemptsWellShaped(s: Setup, env: Environment, parse: string -> Option<real>)
    ensures WellShaped(Attempts(s, env, parse), s)
  {
    forall k: nat
      ensures var a := Attempts(s, env, parse)(k);
        |a.commands| == 2 ==> ConfigFor(a.commands[1], s)
    {
      AttemptAt(s, env, parse, k);
      DialectChoice(s, Traffic(env, k), Traffic(env, k + 1), parse);
    }
  }

  datatype ConfigureEnd = Configured | Declined | Unanswered

  datatype ConfigureRun = ConfigureRun(end: ConfigureEnd, commands: seq<Command>, attempts: nat)

  /**
   * The configure loop from exchange `k` and console line `pos` on, after
   * `attempts` earlier attempts that sent `sent`: an attempt that times out
   * asks the operator, and a yes replays the whole phase from the version
   * query. `attempt` is `Attempts` of the run's setup and environment.
   */
  function ConfigureLoop(
    attempt: nat -> AttemptRun, console: seq<Option<string>>,
    k: nat, pos: nat, sent: seq<Command>, attempts: nat)
    : ConfigureRun
    decreases |console| - pos
  {
    var a := attempt(k);
    if a.configured then ConfigureRun(Configured, sent + a.commands, attempts + 1)
    else
      match Confirm(console, pos)
      case NoAnswer => ConfigureRun(Unanswered, sent + a.commands, attempts + 1)
      case Confirmed(retry, next) =>
        if !retry then ConfigureRun(Declined, sent + a.commands, attempts + 1)
        else ConfigureLoop(attempt, console, k + |a.commands|, next, sent + a.commands, attempts + 1)
  }

  function CountVersion(commands: seq<Command>): nat
  {
    if commands == [] then 0 else (if commands[0].Version? then 1 else 0) + CountVersion(commands[1..])
  }

  function CountApcfg(commands: seq<Command>): nat
  {
    if commands == [] then 0 else (if commands[0].ApConfig? then 1 else 0) + CountApcfg(commands[1..])
  }

  lemma {:induction false} CountsAppend(a: seq<Command>, b: seq<Command>)
    ensures CountVersion(a + b) == CountVersion(a) + CountVersion(b)
    ensures CountApcfg(a + b) == CountApcfg(a) + CountApcfg(b)
  {
    if a == [] {
      assert a + b == b;
    } else {
      CountsAppend(a[1..], b);
      assert (a + b)[1..] == a[1..] + b;
    }
  }

  /** A VERSION, optionally followed by an APCFG, holds one VERSION and the rest APCFG. */
  lemma AttemptCounts(cs: seq<Command>)
    requires 1 <= |cs| <= 2 && cs[0] == Version && (|cs| == 2 ==> cs[1].ApConfig?)
    ensures CountVersion(cs) == 1 && CountApcfg(cs) == |cs| - 1
  {
    if |cs| == 2 {
      var last := [cs[1]];
      assert last[1..] == [];
      assert cs[1..] == last;
    } else {
      assert cs[1..] == [];
    }
  }

  /**
   * Every attempt sends one VERSION and at most one APCFG, so each confirmed
   * retry adds one VERSION and at most one APCFG to what was sent.
   */
  lemma {:induction false} AttemptsCounted(
    attempt: nat -> AttemptRun, s: Setup, console: seq<Option<string>>,
    k: nat, pos: nat, sent: seq<Command>, attempts: nat)
    requires WellShaped(attempt, s)
    ensures var r := ConfigureLoop(attempt, console, k, pos, sent, attempts);
      && r.attempts > attempts && |r.commands| > |sent|
      && CountVersion(r.commands) == CountVersion(sent) + (r.attempts - attempts)
      && CountApcfg(r.commands) <= CountApcfg(sent) + (r.attempts - attempts)
    decreases |console| - pos
  {
    var cs := attempt(k).commands;
    AttemptCounts(cs);
    CountsAppend(sent, cs);
    var c := Confirm(console, pos);
    if c.Confirmed? && c.retry {
      AttemptsCounted(attempt, s, console, k + |cs|, c.next, sent + cs, attempts + 1);
    }
  }

  /**
   * Two configure exchanges time out, the operator answers "y" twice, and the
   * third attempt is acknowledged: three VERSION and three APCFG datagrams.
   */
  lemma TwoRetriesSendThreeApcfg(attempt: nat -> AttemptRun, s: Setup, console: seq<Option<string>>)
    requires WellShaped(attempt, s)
    requires console == [Some("y"), Some("y")]
    requires |attempt(0).commands| == 2 && !attempt(0).configured
    requires |attempt(2).commands| == 2 && !attempt(2).configured
    requires attempt(4).configured
    ensures var r := ConfigureLoop(attempt, console, 0, 0, [], 0);
      && r.end == Configured && r.attempts == 3
      && r.commands == attempt(0).commands + attempt(2).commands + attempt(4).commands
      && CountVersion(r.commands) == 3 && CountApcfg(r.commands) == 3
  {
    var a0, a2, a4 := attempt(0).commands, attempt(2).commands, attempt(4).commands;
    assert Confirm(console, 0) == Confirmed(true, 1);
    assert Confirm(console, 1) == Confirmed(true, 2);
    ConfigureStep(attempt, console, 0, 0, [], 0);
    ConfigureStep(attempt, console, 2, 1, a0, 1);
    ConfigureStep(attempt, console, 4, 2, a0 + a2, 2);
    assert [] + a0 == a0;
    AttemptCounts(a0);
    AttemptCounts(a2);
    AttemptCounts(a4);
    CountsAppend(a0, a2);
    CountsAppend(a0 + a2, a4);
  }

  /**
   * The loop keeps what was sent before it, starts with the attempt at
   * exchange `k`, and makes at least that one attempt.
   */
  lemma {:induction false} LoopKeepsSent(
    attempt: nat -> AttemptRun, console: seq<Option<string>>,
    k: nat, pos: nat, sent: seq<Command>, attempts: nat)
    ensures var r := ConfigureLoop(attempt, console, k, pos, sent, attempts);
      var first := sent + attempt(k).commands;
      && r.attempts > attempts
      && |r.commands| >= |first| && r.commands[..|first|] == first
    decreases |console| - pos
  {
    var a := attempt(k);
    var first := sent + a.commands;
    var c := Confirm(console, pos);
    if !a.configured && c.Confirmed? && c.retry {
      var k' := k + |a.commands|;
      LoopKeepsSent(attempt, console, k', c.next, first, attempts + 1);
      var r := ConfigureLoop(attempt, console, k', c.next, first, attempts + 1);
      assert r.commands[..|first|] == (r.commands[..|first + attempt(k').commands|])[..|first|];
    } else {
      assert first[..|first|] == first;
    }
  }

  /** One turn of the configure loop, case by case. */
  lemma ConfigureStep(
    attempt: nat -> AttemptRun, console: seq<Option<string>>,
    k: nat, pos: nat, sent: seq<Command>, attempts: nat)
    ensures var a := attempt(k);
      var c := Confirm(console, pos);
      var r := ConfigureLoop(attempt, console, k, pos, sent, attempts);
      if a.configured then r == ConfigureRun(Configured, sent + a.commands, attempts + 1)
      else if c.NoAnswer? then r == ConfigureRun(Unanswered, sent + a.commands, attempts + 1)
      else if !c.retry then r == ConfigureRun(Declined, sent + a.commands, attempts + 1)
      else r == ConfigureLoop(attempt, console, k + |a.commands|, c.next, sent + a.commands, attempts + 1)
  {
  }

  /**
   * The configure loop depends on the attempts and on the console lines from
   * `pos` on, and on nothing else.
   */
  lemma {:induction false} LoopAgrees(
    attempt: nat -> AttemptRun, other: nat -> AttemptRun,
    console: seq<Option<string>>, otherConsole: seq<Option<string>>,
    k: nat, pos: nat, sent: seq<Command>, attempts: nat)
    requires forall j: nat :: attempt(j) == other(j)
    requires |console| == |otherConsole|
    requires forall j :: pos <= j < |console| ==> console[j] == otherConsole[j]
    ensures ConfigureLoop(attempt, console, k, pos, sent, attempts)
         == ConfigureLoop(other, otherConsole, k, pos, sent, attempts)
    decreases |console| - pos
  {
    ConfirmAgrees(console, otherConsole, pos);
    var a := attempt(k);
    var c := Confirm(console, pos);
    if !a.configured && c.Confirmed? && c.retry {
      LoopAgrees(attempt, other, console, otherConsole, k + |a.commands|, c.next, sent + a.commands, attempts + 1);
    }
  }

  /** The commands end with an APCFG for the setup, after at least the VERSION before it. */
  predicate EndsConfiguring(commands: seq<Command>, s: Setup)
  {
    |commands| >= 2 && ConfigFor(commands[|commands| - 1], s)
  }

  /** A configured run ends with the APCFG the device acknowledged, an APCFG for the setup. */
  lemma {:induction false} ConfiguredEndsWithApcfg(
    attempt: nat -> AttemptRun, s: Setup, console: seq<Option<string>>,
    k: nat, pos: nat, sent: seq<Command>, attempts: nat)
    requires WellShaped(attempt, s)
    ensures var r := ConfigureLoop(attempt, console, k, pos, sent, attempts);
      r.end == Configured ==> EndsConfiguring(r.commands, s)
    decreases |console| - pos
  {
    var a := attempt(k);
    var all := sent + a.commands;
    var c := Confirm(console, pos);
    if c.Confirmed? && c.retry && !a.configured {
      ConfiguredEndsWithApcfg(attempt, s, console, k + |a.commands|, c.next, all, attempts + 1);
    } else if a.configured {
      assert all[|all| - 1] == a.commands[1];
    }
  }

  // ---------------------------------------------------------------------
  // The online poll

  /** `.Where(n => n.node_sn == sn).First()`: the position of the first node with the serial. */
  function FirstWithSerial(nodes: seq<Node>, sn: string): (r: Option<nat>)
    ensures r.Some? ==>
      r.value < |nodes| && nodes[r.value].nodeSn == sn
      && forall j :: 0 <= j < r.value ==> nodes[j].nodeSn != sn
    ensures r.None? ==> forall j :: 0 <= j < |nodes| ==> nodes[j].nodeSn != sn
  {
    if nodes == [] then None
    else if nodes[0].nodeSn == sn then Some(0)
    else
      match FirstWithSerial(nodes[1..], sn)
      case None => None
      case Some(j) => Some(j + 1)
  }

  /** What one listing says about the registered node. */
  datatype Sighting = Online | Offline | ListError(message: Option<string>) | Missing

  function Sight(listing: Option<NodeListResponse>, sn: string): Sighting
  {
    match CheckList(listing)
    case Rejected(m) => ListError(m)
    case Accepted(resp) =>
      match FirstWithSerial(resp.nodes.value, sn)
      case None => Missing
      case Some(j) => if resp.nodes.value[j].online then Online else Offline
  }

  /**
   * A listing sees the node online exactly when it is accepted, some node
   * carries the serial and the first such node is online; it misses the node
   * exactly when it is accepted and no node carries the serial.
   */
  lemma SightMeaning(listing: Option<NodeListResponse>, sn: string)
    ensures Sight(listing, sn).ListError? <==> CheckList(listing).Rejected?
    ensures Sight(listing, sn).ListError? ==> Sight(listing, sn).message == CheckList(listing).message
    ensures Sight(listing, sn) == Online <==>
      && CheckList(listing).Accepted?
      && exists j :: FirstCarrier(listing.value.nodes.value, sn, j) && listing.value.nodes.value[j].online
    ensures Sight(listing, sn) == Missing <==>
      && CheckList(listing).Accepted?
      && forall j :: 0 <= j < |listing.value.nodes.value| ==> listing.value.nodes.value[j].nodeSn != sn
  {
    if CheckList(listing).Accepted? {
      var nodes := listing.value.nodes.value;
      match FirstWithSerial(nodes, sn)
      case None =>
      case Some(j) =>
        assert FirstCarrier(nodes, sn, j);
        forall k | FirstCarrier(nodes, sn, k)
          ensures k == j
        {
        }
    }
  }

  /** Node `j` carries the serial and no node before it does. */
  predicate FirstCarrier(nodes: seq<Node>, sn: string, j: int)
  {
    0 <= j < |nodes| && nodes[j].nodeSn == sn && forall i :: 0 <= i < j ==> nodes[i].nodeSn != sn
  }

  datatype PollEnd = SeenOnline | GaveUp | ListFailed(message: Option<string>) | SerialMissing

  datatype PollRun = PollRun(end: PollEnd, listings: nat)

  /** The poll from attempt `i` on: list, look the node up, stop when it is online. */
  function PollFrom(listings: seq<Option<NodeListResponse>>, sn: string, i: nat): PollRun
    requires |listings| >= PollAttempts
    decreases PollAttempts - i
  {
    if i >= PollAttempts then PollRun(GaveUp, 0)
    else
      match Sight(listings[i], sn)
      case Online => PollRun(SeenOnline, 1)
      case ListError(m) => PollRun(ListFailed(m), 1)
      case Missing => PollRun(SerialMissing, 1)
      case Offline =>
        var rest := PollFrom(listings, sn, i + 1);
        PollRun(rest.end, rest.listings + 1)
  }

  /**
   * The poll makes at most 60 listings; every listing but the last saw the
   * node offline; it stops at the first listing that sees the node online;
   * and it gives up, without failing, only after all 60 saw it offline.
   */
  lemma PollStopsAtFirstOnline(listings: seq<Option<NodeListResponse>>, sn: string, i: nat)
    requires |listings| >= PollAttempts && i <= PollAttempts
    ensures var r := PollFrom(listings, sn, i);
      && r.listings <= PollAttempts - i
      && (forall j :: i <= j < i + r.listings - 1 ==> Sight(listings[j], sn) == Offline)
      && (r.end == GaveUp <==> r.listings == PollAttempts - i && forall j :: i <= j < PollAttempts ==> Sight(listings[j], sn) == Offline)
      && (r.end == SeenOnline ==> r.listings >= 1 && Sight(listings[i + r.listings - 1], sn) == Online)
      && (r.end.ListFailed? ==> r.listings >= 1 && Sight(listings[i + r.listings - 1], sn) == ListError(r.end.message))
      && (r.end == SerialMissing ==> r.listings >= 1 && Sight(listings[i + r.listings - 1], sn) == Missing)
  {
    PollOfflineBefore(listings, sn, i);
    PollLastSighting(listings, sn, i);
  }

  lemma {:induction false} PollOfflineBefore(listings: seq<Option<NodeListResponse>>, sn: string, i: nat)
    requires |listings| >= PollAttempts && i <= PollAttempts
    ensures var r := PollFrom(listings, sn, i);
      && r.listings <= PollAttempts - i
      && (forall j :: i <= j < i + r.listings - 1 ==> Sight(listings[j], sn) == Offline)
      && (r.end == GaveUp <==> r.listings == PollAttempts - i && forall j :: i <= j < PollAttempts ==> Sight(listings[j], sn) == Offline)
    decreases PollAttempts - i
  {
    if i < PollAttempts && Sight(listings[i], sn) == Offline {
      PollOfflineBefore(listings, sn, i + 1);
    }
  }

  lemma {:induction false} PollLastSighting(listings: seq<Option<NodeListResponse>>, sn: string, i: nat)
    requires |listings| >= PollAttempts && i <= PollAttempts
    ensures var r := PollFrom(listings, sn, i);
      && r.listings <= PollAttempts - i
      && (r.end == SeenOnline ==> r.listings >= 1 && Sight(listings[i + r.listings - 1], sn) == Online)
      && (r.end.ListFailed? ==> r.listings >= 1 && Sight(listings[i + r.listings - 1], sn) == ListError(r.end.message))
      && (r.end == SerialMissing ==> r.listings >= 1 && Sight(listings[i + r.listings - 1], sn) == Missing)
    decreases PollAttempts - i
  {
    if i < PollAttempts && Sight(listings[i], sn) == Offline {
      PollLastSighting(listings, sn, i + 1);
    }
  }

  // ---------------------------------------------------------------------
  // The whole run

  /** The run, phase by phase. */
  function Provision(o: ProvOptions, env: Environment, parse: string -> Option<real>): Run
    requires |env.listings| >= PollAttempts
  {
    if |env.addresses| == 0 then Run(Failed(NoServerAddress), [])
    else
      var login := Call(UserLogin(o.user, o.password), None);
      match CheckLogin(env.login)
      case Rejected(m) => Run(Failed(LoginRejected(m)), [login])
      case Accepted(user) => AfterLogin(o, env, parse, TokenHeader(user.token), [login])
  }

  /** Registration and configuration, with the session's header `auth`. */
  function AfterLogin(o: ProvOptions, env: Environment, parse: string -> Option<real>, auth: Option<AuthHeader>, trace: seq<Event>)
    : Run
    requires |env.listings| >= PollAttempts && |env.addresses| > 0
  {
    var create := Call(CreateNode(TemporaryNodeName, BoardWioNode1_0), auth);
    match CheckCreate(env.create)
    case Rejected(m) => Run(Failed(CreateRejected(m)), trace + [create])
    case Accepted(node) => AfterRegistration(o, env, auth, node.nodeSn.value, trace + [create], ConfigurePhaseOf(o, env, parse))
  }

  /** The rest of a run once node `sn` is registered, given how its configure phase `c` went. */
  function AfterRegistration(o: ProvOptions, env: Environment, auth: Option<AuthHeader>, sn: string, trace: seq<Event>, c: ConfigureRun)
    : Run
    requires |env.listings| >= PollAttempts
  {
    var t := trace + Sends(c.commands);
    match c.end
    case Declined => Run(Failed(OperatorAbort), t)
    case Unanswered => Run(AwaitingAnswer, t)
    case Configured => AfterConfigure(o, env, auth, sn, t)
  }

  /** The online poll and the rename. */
  function AfterConfigure(o: ProvOptions, env: Environment, auth: Option<AuthHeader>, sn: string, trace: seq<Event>): Run
    requires |env.listings| >= PollAttempts
  {
    var p := PollFrom(env.listings, sn, 0);
    var t := trace + Repeat(Call(ListNodes, auth), p.listings);
    match p.end
    case ListFailed(m) => Run(Failed(ListRejected(m)), t)
    case SerialMissing => Run(Failed(SerialNotListed), t)
    case _ =>
      var rename := Call(RenameNode(sn, o.name), auth);
      match CheckResult(env.rename)
      case Rejected(m) => Run(Failed(RenameRejected(m)), t + [rename])
      case Accepted(_) => Run(Done, t + [rename])
  }

  // ---------------------------------------------------------------------
  // What the run promises

  /** The phase an event belongs to; a run's events never go back to an earlier phase. */
  function Phase(e: Event): nat
  {
    match e
    case Send(_) => 2
    case Call(op, _) =>
      match op
      case UserLogin(_, _) => 0
      case CreateNode(_, _) => 1
      case ListNodes => 3
      case RenameNode(_, _) => 4
      case DeleteNode(_) => 5
  }

  ghost predicate InPhaseOrder(trace: seq<Event>)
  {
    forall i, j :: 0 <= i < j < |trace| ==> Phase(trace[i]) <= Phase(trace[j])
  }

  ghost predicate PhasesWithin(trace: seq<Event>, lo: nat, hi: nat)
  {
    forall i :: 0 <= i < |trace| ==> lo <= Phase(trace[i]) <= hi
  }

  /** How many events of `trace` belong to phase `p`. */
  function CountPhase(trace: seq<Event>, p: nat): nat
  {
    if trace == [] then 0
    else CountPhase(trace[..|trace| - 1], p) + (if Phase(trace[|trace| - 1]) == p then 1 else 0)
  }

  lemma {:induction false} CountPhaseAppend(a: seq<Event>, b: seq<Event>, p: nat)
    ensures CountPhase(a + b, p) == CountPhase(a, p) + CountPhase(b, p)
    decreases |b|
  {
    if b == [] {
      assert a + b == a;
    } else {
      var b' := b[..|b| - 1];
      CountPhaseAppend(a, b', p);
      assert (a + b)[..|a + b| - 1] == a + b';
    }
  }

  /** Events of a single phase: all of them are counted for it and none for any other. */
  lemma {:induction false} CountPhaseUniform(trace: seq<Event>, q: nat, p: nat)
    requires PhasesWithin(trace, q, q)
    ensures CountPhase(trace, p) == if p == q then |trace| else 0
    decreases |trace|
  {
    if trace != [] {
      CountPhaseUniform(trace[..|trace| - 1], q, p);
    }
  }

  /** Appending a block whose phases are no earlier than everything before keeps the order. */
  lemma ChainPhases(a: seq<Event>, b: seq<Event>, lo: nat, mid: nat, hi: nat)
    requires lo <= mid <= hi
    requires InPhaseOrder(a) && PhasesWithin(a, lo, mid)
    requires InPhaseOrder(b) && PhasesWithin(b, mid, hi)
    ensures InPhaseOrder(a + b) && PhasesWithin(a + b, lo, hi)
  {
    var t := a + b;
    forall i, j | 0 <= i < j < |t|
      ensures Phase(t[i]) <= Phase(t[j])
    {
      if j < |a| {
        assert t[i] == a[i] && t[j] == a[j];
      } else if i >= |a| {
        assert t[i] == b[i - |a|] && t[j] == b[j - |a|];
      } else {
        assert t[i] == a[i] && t[j] == b[j - |a|];
      }
    }
    forall i | 0 <= i < |t|
      ensures lo <= Phase(t[i]) <= hi
    {
      if i < |a| {
        assert t[i] == a[i];
      } else {
        assert t[i] == b[i - |a|];
      }
    }
  }

  /** The summary of a run's trace: phase order and how often each phase's call is made. */
  ghost predicate WellOrderedTrace(trace: seq<Event>)
  {
    && InPhaseOrder(trace)
    && CountPhase(trace, 0) <= 1 && CountPhase(trace, 1) <= 1
    && CountPhase(trace, 3) <= PollAttempts && CountPhase(trace, 4) <= 1
    && CountPhase(trace, 5) == 0
  }

  /** Appending a block `b` of phase `q` adds `|b|` to the count of `q` and nothing to any other. */
  lemma CountBlock(a: seq<Event>, b: seq<Event>, q: nat, p: nat)
    requires PhasesWithin(b, q, q)
    ensures CountPhase(a + b, p) == CountPhase(a, p) + (if p == q then |b| else 0)
  {
    CountPhaseAppend(a, b, p);
    CountPhaseUniform(b, q, p);
  }

  /** The poll lists at most `PollAttempts` times. */
  lemma {:induction false} PollBounded(listings: seq<Option<NodeListResponse>>, sn: string, i: nat)
    requires |listings| >= PollAttempts
    requires i <= PollAttempts
    ensures PollFrom(listings, sn, i).listings <= PollAttempts - i
    decreases PollAttempts - i
  {
    if i < PollAttempts && Sight(listings[i], sn) == Offline {
      PollBounded(listings, sn, i + 1);
    }
  }

  /** Appending a block of phase `q` to a trace of phases `lo` to `q`: the order, and the count of each phase. */
  lemma AppendBlock(a: seq<Event>, b: seq<Event>, lo: nat, q: nat)
    requires lo <= q
    requires InPhaseOrder(a) && PhasesWithin(a, lo, q) && PhasesWithin(b, q, q)
    ensures InPhaseOrder(a + b) && PhasesWithin(a + b, lo, q)
    ensures CountPhase(a + b, 0) == CountPhase(a, 0) + (if q == 0 then |b| else 0)
    ensures CountPhase(a + b, 1) == CountPhase(a, 1) + (if q == 1 then |b| else 0)
    ensures CountPhase(a + b, 2) == CountPhase(a, 2) + (if q == 2 then |b| else 0)
    ensures CountPhase(a + b, 3) == CountPhase(a, 3) + (if q == 3 then |b| else 0)
    ensures CountPhase(a + b, 4) == CountPhase(a, 4) + (if q == 4 then |b| else 0)
    ensures CountPhase(a + b, 5) == CountPhase(a, 5) + (if q == 5 then |b| else 0)
  {
    assert InPhaseOrder(b) by {
      forall i, j | 0 <= i < j < |b| ensures Phase(b[i]) <= Phase(b[j]) { }
    }
    ChainPhases(a, b, lo, q, q);
    CountBlock(a, b, q, 0);
    CountBlock(a, b, q, 1);
    CountBlock(a, b, q, 2);
    CountBlock(a, b, q, 3);
    CountBlock(a, b, q, 4);
    CountBlock(a, b, q, 5);
  }

  lemma RepeatWithin(e: Event, n: nat)
    ensures PhasesWithin(Repeat(e, n), Phase(e), Phase(e))
  {
  }

  lemma SendsWithin(commands: seq<Command>)
    ensures PhasesWithin(Sends(commands), 2, 2)
  {
  }

  /** After the configure phase the run appends its listings and, unless the poll failed, the rename. */
  lemma AfterConfigureTrace(o: ProvOptions, env: Environment, auth: Option<AuthHeader>, sn: string, trace: seq<Event>)
    requires |env.listings| >= PollAttempts
    ensures var p := PollFrom(env.listings, sn, 0);
      var t := trace + Repeat(Call(ListNodes, auth), p.listings);
      var r := AfterConfigure(o, env, auth, sn, trace);
      && (p.end.ListFailed? || p.end == SerialMissing ==> r.trace == t)
      && (p.end == SeenOnline || p.end == GaveUp ==> r.trace == t + [Call(RenameNode(sn, o.name), auth)])
  {
  }

  lemma AfterConfigureInOrder(o: ProvOptions, env: Environment, auth: Option<AuthHeader>, sn: string, trace: seq<Event>)
    requires |env.listings| >= PollAttempts
    requires InPhaseOrder(trace) && PhasesWithin(trace, 0, 2)
    ensures var t := AfterConfigure(o, env, auth, sn, trace).trace;
      && InPhaseOrder(t) && PhasesWithin(t, 0, 4)
      && CountPhase(t, 0) == CountPhase(trace, 0) && CountPhase(t, 1) == CountPhase(trace, 1)
      && CountPhase(t, 3) <= PollAttempts + CountPhase(trace, 3) && CountPhase(t, 4) <= 1 + CountPhase(trace, 4)
      && CountPhase(t, 5) == CountPhase(trace, 5)
  {
    var p := PollFrom(env.listings, sn, 0);
    var t := AfterConfigure(o, env, auth, sn, trace).trace;
    AfterConfigureTrace(o, env, auth, sn, trace);
    PollBounded(env.listings, sn, 0);
    var lists := Repeat(Call(ListNodes, auth), p.listings);
    RepeatWithin(Call(ListNodes, auth), p.listings);
    AppendBlock(trace, lists, 0, 3);
    if t != trace + lists {
      var rename := Call(RenameNode(sn, o.name), auth);
      assert t == trace + lists + [rename];
      RepeatWithin(rename, 1);
      assert Repeat(rename, 1) == [rename];
      AppendBlock(trace + lists, [rename], 0, 4);
    }
  }

  /** What the configure phase of a run works with: the options' Wi-Fi and server, the registered node, the first address. */
  function SetupOf(o: ProvOptions, env: Environment): Setup
    requires |env.addresses| > 0 && CheckCreate(env.create).Accepted?
  {
    var node := CheckCreate(env.create).value;
    Setup(o.wifiSsid, o.wifiPassword, node.nodeKey.value, node.nodeSn.value, o.server, env.addresses[0])
  }

  /** The configure phase of a run whose registration was accepted, from the first ENTER on. */
  function ConfigurePhaseOf(o: ProvOptions, env: Environment, parse: string -> Option<real>): ConfigureRun
    requires |env.addresses| > 0 && CheckCreate(env.create).Accepted?
  {
    ConfigureLoop(Attempts(SetupOf(o, env), env, parse), env.console, 0, Enter(env.console, 0), [], 0)
  }

  /**
   * The line read at the first ENTER checkpoint is discarded: whatever the
   * operator types there, the run is the same.
   */
  lemma EnterLineIgnored(o: ProvOptions, env: Environment, parse: string -> Option<real>, line: Option<string>)
    requires |env.listings| >= PollAttempts && |env.console| > 0
    ensures Provision(o, env.(console := env.console[0 := line]), parse) == Provision(o, env, parse)
  {
    var typed := env.(console := env.console[0 := line]);
    ProvisionTrace(o, env, parse);
    ProvisionTrace(o, typed, parse);
    if |env.addresses| > 0 && CheckLogin(env.login).Accepted? {
      var auth := TokenHeader(CheckLogin(env.login).value.token);
      var login := [Call(UserLogin(o.user, o.password), None)];
      AfterLoginTrace(o, env, parse, auth, login);
      AfterLoginTrace(o, typed, parse, auth, login);
      if CheckCreate(env.create).Accepted? {
        ConfigurePhaseIgnoresEnter(o, env, parse, line);
        var sn := CheckCreate(env.create).value.nodeSn.value;
        var c := ConfigurePhaseOf(o, env, parse);
        RegistrationIgnoresConsole(o, env, typed, auth, sn, login + [Call(CreateNode(TemporaryNodeName, BoardWioNode1_0), auth)], c);
      }
    }
  }

  lemma ConfigurePhaseIgnoresEnter(o: ProvOptions, env: Environment, parse: string -> Option<real>, line: Option<string>)
    requires |env.console| > 0 && |env.addresses| > 0 && CheckCreate(env.create).Accepted?
    ensures ConfigurePhaseOf(o, env.(console := env.console[0 := line]), parse) == ConfigurePhaseOf(o, env, parse)
  {
    var typed := env.(console := env.console[0 := line]);
    var s := SetupOf(o, env);
    assert SetupOf(o, typed) == s;
    forall j: nat
      ensures Attempts(s, typed, parse)(j) == Attempts(s, env, parse)(j)
    {
      AttemptAt(s, typed, parse, j);
      AttemptAt(s, env, parse, j);
      assert Traffic(typed, j) == Traffic(env, j) && Traffic(typed, j + 1) == Traffic(env, j + 1);
    }
    LoopAgrees(Attempts(s, typed, parse), Attempts(s, env, parse), typed.console, env.console, 0, 1, [], 0);
  }

  /** What follows the configure phase reads the listings and the rename reply, never the console. */
  lemma RegistrationIgnoresConsole(
    o: ProvOptions, env: Environment, typed: Environment, auth: Option<AuthHeader>, sn: string, trace: seq<Event>, c: ConfigureRun)
    requires |env.listings| >= PollAttempts
    requires typed == env.(console := typed.console)
    ensures AfterRegistration(o, typed, auth, sn, trace, c) == AfterRegistration(o, env, auth, sn, trace, c)
  {
    if c.end == Configured {
      assert AfterConfigure(o, typed, auth, sn, trace + Sends(c.commands)) == AfterConfigure(o, env, auth, sn, trace + Sends(c.commands));
    }
  }

  /** After login the run appends the registration, then the datagrams of the configure phase, then the rest. */
  lemma AfterLoginTrace(o: ProvOptions, env: Environment, parse: string -> Option<real>, auth: Option<AuthHeader>, trace: seq<Event>)
    requires |env.listings| >= PollAttempts && |env.addresses| > 0
    ensures var create := Call(CreateNode(TemporaryNodeName, BoardWioNode1_0), auth);
      var r := AfterLogin(o, env, parse, auth, trace);
      if CheckCreate(env.create).Rejected? then r == Run(Failed(CreateRejected(CheckCreate(env.create).message)), trace + [create])
      else r == AfterRegistration(o, env, auth, CheckCreate(env.create).value.nodeSn.value, trace + [create], ConfigurePhaseOf(o, env, parse))
  {
  }

  /** The configure phase's datagrams and what follows keep the order, whatever the configure phase did. */
  lemma AfterRegistrationInOrder(o: ProvOptions, env: Environment, auth: Option<AuthHeader>, sn: string, trace: seq<Event>, c: ConfigureRun)
    requires |env.listings| >= PollAttempts
    requires InPhaseOrder(trace) && PhasesWithin(trace, 0, 1)
    ensures var t := AfterRegistration(o, env, auth, sn, trace, c).trace;
      && InPhaseOrder(t) && PhasesWithin(t, 0, 4)
      && CountPhase(t, 0) == CountPhase(trace, 0) && CountPhase(t, 1) == CountPhase(trace, 1)
      && CountPhase(t, 3) <= PollAttempts + CountPhase(trace, 3) && CountPhase(t, 4) <= 1 + CountPhase(trace, 4)
      && CountPhase(t, 5) == CountPhase(trace, 5)
  {
    SendsWithin(c.commands);
    AppendBlock(trace, Sends(c.commands), 0, 2);
    if c.end == Configured {
      AfterConfigureInOrder(o, env, auth, sn, trace + Sends(c.commands));
    }
  }

  lemma AfterLoginInOrder(o: ProvOptions, env: Environment, parse: string -> Option<real>, auth: Option<AuthHeader>, trace: seq<Event>)
    requires |env.listings| >= PollAttempts && |env.addresses| > 0
    requires InPhaseOrder(trace) && PhasesWithin(trace, 0, 0)
    ensures var t := AfterLogin(o, env, parse, auth, trace).trace;
      && InPhaseOrder(t) && PhasesWithin(t, 0, 4)
      && CountPhase(t, 0) == CountPhase(trace, 0) && CountPhase(t, 1) == 1
      && CountPhase(t, 3) <= PollAttempts && CountPhase(t, 4) <= 1 && CountPhase(t, 5) == 0
  {
    AfterLoginTrace(o, env, parse, auth, trace);
    var create := Call(CreateNode(TemporaryNodeName, BoardWioNode1_0), auth);
    RegistrationBlock(trace, create);
    if CheckCreate(env.create).Accepted? {
      AfterRegistrationInOrder(o, env, auth, CheckCreate(env.create).value.nodeSn.value, trace + [create], ConfigurePhaseOf(o, env, parse));
    }
  }

  /** A login trace followed by the one registration call. */
  lemma RegistrationBlock(trace: seq<Event>, create: Event)
    requires InPhaseOrder(trace) && PhasesWithin(trace, 0, 0) && Phase(create) == 1
    ensures var t := trace + [create];
      && InPhaseOrder(t) && PhasesWithin(t, 0, 1)
      && CountPhase(t, 0) == CountPhase(trace, 0) && CountPhase(t, 1) == 1
      && CountPhase(t, 3) == 0 && CountPhase(t, 4) == 0 && CountPhase(t, 5) == 0
  {
    CountPhaseUniform(trace, 0, 1);
    CountPhaseUniform(trace, 0, 3);
    CountPhaseUniform(trace, 0, 4);
    CountPhaseUniform(trace, 0, 5);
    RepeatWithin(create, 1);
    assert Repeat(create, 1) == [create];
    AppendBlock(trace, [create], 0, 1);
  }

  /**
   * A run goes through its phases in order and never returns to an earlier
   * one: login, registration, datagrams to the device, listings, rename. It
   * logs in and registers at most once, lists at most 60 times, renames at
   * most once and never deletes a node.
   */
  lemma PhasesInOrder(o: ProvOptions, env: Environment, parse: string -> Option<real>)
    requires |env.listings| >= PollAttempts
    ensures WellOrderedTrace(Provision(o, env, parse).trace)
  {
    var login := [Call(UserLogin(o.user, o.password), None)];
    if |env.addresses| > 0 {
      CountPhaseUniform(login, 0, 0);
      if CheckLogin(env.login).Accepted? {
        AfterLoginInOrder(o, env, parse, TokenHeader(CheckLogin(env.login).value.token), login);
      }
    }
  }

  /** The run up to the end of login. */
  lemma ProvisionTrace(o: ProvOptions, env: Environment, parse: string -> Option<real>)
    requires |env.listings| >= PollAttempts
    ensures var r := Provision(o, env, parse);
      var login := Call(UserLogin(o.user, o.password), None);
      if |env.addresses| == 0 then r == Run(Failed(NoServerAddress), [])
      else if CheckLogin(env.login).Rejected? then r == Run(Failed(LoginRejected(CheckLogin(env.login).message)), [login])
      else r == AfterLogin(o, env, parse, TokenHeader(CheckLogin(env.login).value.token), [login])
  {
  }

  /** Every directory call in `trace` carries the header `h`. */
  ghost predicate CallsCarry(trace: seq<Event>, h: Option<AuthHeader>)
  {
    forall i :: 0 <= i < |trace| && trace[i].Call? ==> trace[i].authorization == h
  }

  lemma CallsCarryAppend(a: seq<Event>, b: seq<Event>, h: Option<AuthHeader>)
    requires CallsCarry(a, h) && CallsCarry(b, h)
    ensures CallsCarry(a + b, h)
  {
    forall i | 0 <= i < |a + b| && (a + b)[i].Call?
      ensures (a + b)[i].authorization == h
    {
      if i < |a| {
        assert (a + b)[i] == a[i];
      } else {
        assert (a + b)[i] == b[i - |a|];
      }
    }
  }

  /** A trace that extends `trace` by directory calls with header `h` and datagrams only. */
  ghost predicate ExtendsCarrying(t: seq<Event>, trace: seq<Event>, h: Option<AuthHeader>)
  {
    |t| >= |trace| && t[..|trace|] == trace && CallsCarry(t[|trace|..], h)
  }

  lemma ExtendsCarryingAppend(trace: seq<Event>, rest: seq<Event>, h: Option<AuthHeader>)
    requires CallsCarry(rest, h)
    ensures ExtendsCarrying(trace + rest, trace, h)
  {
    assert (trace + rest)[..|trace|] == trace && (trace + rest)[|trace|..] == rest;
  }

  lemma ExtendsCarryingTrans(t2: seq<Event>, t1: seq<Event>, t0: seq<Event>, h: Option<AuthHeader>)
    requires ExtendsCarrying(t1, t0, h) && ExtendsCarrying(t2, t1, h)
    ensures ExtendsCarrying(t2, t0, h)
  {
    var a, b := t1[|t0|..], t2[|t1|..];
    assert t1 == t0 + a;
    assert t2 == t1 + b;
    CallsCarryAppend(a, b, h);
    assert t2 == t0 + (a + b);
    ExtendsCarryingAppend(t0, a + b, h);
  }

  lemma AfterConfigureCarries(o: ProvOptions, env: Environment, auth: Option<AuthHeader>, sn: string, trace: seq<Event>)
    requires |env.listings| >= PollAttempts
    ensures ExtendsCarrying(AfterConfigure(o, env, auth, sn, trace).trace, trace, auth)
  {
    var p := PollFrom(env.listings, sn, 0);
    var lists := Repeat(Call(ListNodes, auth), p.listings);
    var rename := [Call(RenameNode(sn, o.name), auth)];
    AfterConfigureTrace(o, env, auth, sn, trace);
    ExtendsCarryingAppend(trace, lists, auth);
    CallsCarryAppend(lists, rename, auth);
    assert trace + lists + rename == trace + (lists + rename);
    ExtendsCarryingAppend(trace, lists + rename, auth);
  }

  lemma SendsCarry(commands: seq<Command>, h: Option<AuthHeader>)
    ensures CallsCarry(Sends(commands), h)
  {
  }

  lemma AfterRegistrationCarries(o: ProvOptions, env: Environment, auth: Option<AuthHeader>, sn: string, trace: seq<Event>, c: ConfigureRun)
    requires |env.listings| >= PollAttempts
    ensures ExtendsCarrying(AfterRegistration(o, env, auth, sn, trace, c).trace, trace, auth)
  {
    var t := trace + Sends(c.commands);
    SendsCarry(c.commands, auth);
    ExtendsCarryingAppend(trace, Sends(c.commands), auth);
    if c.end == Configured {
      AfterConfigureCarries(o, env, auth, sn, t);
      ExtendsCarryingTrans(AfterRegistration(o, env, auth, sn, trace, c).trace, t, trace, auth);
    }
  }

  /** Everything the run appends after login is a directory call with the session's header or a datagram. */
  lemma AfterLoginCarries(o: ProvOptions, env: Environment, parse: string -> Option<real>, auth: Option<AuthHeader>, trace: seq<Event>)
    requires |env.listings| >= PollAttempts && |env.addresses| > 0
    ensures ExtendsCarrying(AfterLogin(o, env, parse, auth, trace).trace, trace, auth)
  {
    AfterLoginTrace(o, env, parse, auth, trace);
    var create := [Call(CreateNode(TemporaryNodeName, BoardWioNode1_0), auth)];
    ExtendsCarryingAppend(trace, create, auth);
    if CheckCreate(env.create).Accepted? {
      AfterRegistrationCarries(o, env, auth, CheckCreate(env.create).value.nodeSn.value, trace + create, ConfigurePhaseOf(o, env, parse));
      ExtendsCarryingTrans(AfterLogin(o, env, parse, auth, trace).trace, trace + create, trace, auth);
    }
  }

  /**
   * The login call goes out without a header; once login is accepted, every
   * later directory call carries the header `SetToken` installs for the
   * token the login returned.
   */
  lemma TokenOnLaterCalls(o: ProvOptions, env: Environment, parse: string -> Option<real>)
    requires |env.listings| >= PollAttempts
    ensures var t := Provision(o, env, parse).trace;
      && (|t| > 0 ==> t[0] == Call(UserLogin(o.user, o.password), None))
      && (|t| > 1 ==>
            && CheckLogin(env.login).Accepted?
            && CallsCarry(t[1..], Some(AuthHeader("token", env.login.value.token.value))))
  {
    ProvisionTrace(o, env, parse);
    if |env.addresses| > 0 && CheckLogin(env.login).Accepted? {
      var login := Call(UserLogin(o.user, o.password), None);
      AfterLoginCarries(o, env, parse, TokenHeader(env.login.value.token), [login]);
    }
  }

  /**
   * A run that ends with the operator declining a retry, or with input
   * ending at the retry question, stops in the configure phase: after the
   * registration it has sent at least one datagram, the last thing it did,
   * and it never lists or renames.
   */
  lemma AbortStopsBeforePoll(o: ProvOptions, env: Environment, parse: string -> Option<real>)
    requires |env.listings| >= PollAttempts
    ensures var r := Provision(o, env, parse);
      r.outcome == Failed(OperatorAbort) || r.outcome == AwaitingAnswer ==>
        && |r.trace| >= 3 && r.trace[|r.trace| - 1].Send?
        && forall i :: 0 <= i < |r.trace| ==> Phase(r.trace[i]) <= 2
  {
    ProvisionTrace(o, env, parse);
    var r := Provision(o, env, parse);
    if |env.addresses| > 0 && CheckLogin(env.login).Accepted? && CheckCreate(env.create).Accepted? {
      var login := Call(UserLogin(o.user, o.password), None);
      var auth := TokenHeader(env.login.value.token);
      var create := Call(CreateNode(TemporaryNodeName, BoardWioNode1_0), auth);
      AfterLoginTrace(o, env, parse, auth, [login]);
      ConfigureSendsSomething(o, env, parse);
      assert [login] + [create] == [login, create];
      StopsInRegistration(o, env, auth, CheckCreate(env.create).value.nodeSn.value, [login, create], ConfigurePhaseOf(o, env, parse));
    }
  }

  lemma StopsInRegistration(o: ProvOptions, env: Environment, auth: Option<AuthHeader>, sn: string, pre: seq<Event>, c: ConfigureRun)
    requires |env.listings| >= PollAttempts
    requires |pre| == 2 && Phase(pre[0]) <= 2 && Phase(pre[1]) <= 2 && |c.commands| >= 1
    ensures var r := AfterRegistration(o, env, auth, sn, pre, c);
      r.outcome == Failed(OperatorAbort) || r.outcome == AwaitingAnswer ==>
        && |r.trace| >= 3 && r.trace[|r.trace| - 1].Send?
        && forall i :: 0 <= i < |r.trace| ==> Phase(r.trace[i]) <= 2
  {
    if c.end != Configured {
      StopsInConfigure(pre, c.commands);
    }
  }

  /** The configure phase always sends at least the first VERSION. */
  lemma ConfigureSendsSomething(o: ProvOptions, env: Environment, parse: string -> Option<real>)
    requires |env.addresses| > 0 && CheckCreate(env.create).Accepted?
    ensures |ConfigurePhaseOf(o, env, parse).commands| >= 1
  {
    AttemptsWellShaped(SetupOf(o, env), env, parse);
    AttemptsCounted(Attempts(SetupOf(o, env), env, parse), SetupOf(o, env), env.console, 0, Enter(env.console, 0), [], 0);
  }

  lemma StopsInConfigure(pre: seq<Event>, commands: seq<Command>)
    requires |pre| == 2 && Phase(pre[0]) <= 2 && Phase(pre[1]) <= 2 && |commands| >= 1
    ensures var t := pre + Sends(commands);
      && |t| >= 3 && t[|t| - 1].Send?
      && forall i :: 0 <= i < |t| ==> Phase(t[i]) <= 2
  {
    var t := pre + Sends(commands);
    forall i | 0 <= i < |t|
      ensures Phase(t[i]) <= 2
    {
      if i >= 2 {
        assert t[i] == Send(commands[i - 2]);
      }
    }
  }

  /** The poll decides whether the rename follows; the rename's reply decides whether the run is done. */
  lemma AfterConfigureOutcome(o: ProvOptions, env: Environment, auth: Option<AuthHeader>, sn: string, trace: seq<Event>)
    requires |env.listings| >= PollAttempts
    ensures var r := AfterConfigure(o, env, auth, sn, trace);
      var p := PollFrom(env.listings, sn, 0);
      && (r.outcome == Done ==> CheckResult(env.rename).Accepted?)
      && (p.end == SeenOnline || p.end == GaveUp ==>
            && |r.trace| == |trace| + p.listings + 1
            && r.trace[..|trace|] == trace
            && r.trace[|trace|..|r.trace| - 1] == Repeat(Call(ListNodes, auth), p.listings)
            && r.trace[|r.trace| - 1] == Call(RenameNode(sn, o.name), auth)
            && (r.outcome == Done <==> CheckResult(env.rename).Accepted?))
      && (p.end.ListFailed? || p.end == SerialMissing ==> r.outcome != Done)
  {
    AfterConfigureTrace(o, env, auth, sn, trace);
    var p := PollFrom(env.listings, sn, 0);
    var lists := Repeat(Call(ListNodes, auth), p.listings);
    var t := trace + lists + [Call(RenameNode(sn, o.name), auth)];
    assert t[..|trace|] == trace;
    assert t[|trace|..|t| - 1] == lists;
  }

  /**
   * A run is done only when login, registration and the rename were
   * accepted; its last two calls are a listing and the rename of the
   * registered node to the requested name, both with the session's header,
   * and the last datagram it sent is an APCFG for that node, after which it
   * only called the directory.
   */
  lemma DoneMeansRenamed(o: ProvOptions, env: Environment, parse: string -> Option<real>)
    requires |env.listings| >= PollAttempts
    ensures var r := Provision(o, env, parse);
      r.outcome == Done ==>
        && |env.addresses| > 0 && CheckLogin(env.login).Accepted? && CheckCreate(env.create).Accepted?
        && CheckResult(env.rename).Accepted?
        && |r.trace| >= 6
        && EndsWithRename(r.trace, env.create.value.nodeSn.value, o.name, Some(AuthHeader("token", env.login.value.token.value)))
        && LastSendConfigures(r.trace, SetupOf(o, env))
  {
    ProvisionTrace(o, env, parse);
    if |env.addresses| > 0 && CheckLogin(env.login).Accepted? {
      AfterLoginDone(o, env, parse, TokenHeader(env.login.value.token), [Call(UserLogin(o.user, o.password), None)]);
    }
  }

  /**
   * A run is done exactly when the server name resolved, login and
   * registration were accepted, the device acknowledged an APCFG, the poll
   * either saw the node online or used up its 60 listings with the node
   * offline, and the rename was accepted.
   */
  lemma DoneIff(o: ProvOptions, env: Environment, parse: string -> Option<real>)
    requires |env.listings| >= PollAttempts
    ensures Provision(o, env, parse).outcome == Done <==>
      && |env.addresses| > 0
      && CheckLogin(env.login).Accepted?
      && CheckCreate(env.create).Accepted?
      && ConfigurePhaseOf(o, env, parse).end == Configured
      && PollReachesRename(PollFrom(env.listings, CheckCreate(env.create).value.nodeSn.value, 0).end)
      && CheckResult(env.rename).Accepted?
  {
    ProvisionTrace(o, env, parse);
    if |env.addresses| > 0 && CheckLogin(env.login).Accepted? {
      var auth := TokenHeader(CheckLogin(env.login).value.token);
      var login := [Call(UserLogin(o.user, o.password), None)];
      AfterLoginTrace(o, env, parse, auth, login);
      if CheckCreate(env.create).Accepted? {
        var sn := CheckCreate(env.create).value.nodeSn.value;
        var trace := login + [Call(CreateNode(TemporaryNodeName, BoardWioNode1_0), auth)];
        AfterRegistrationDoneIff(o, env, auth, sn, trace, ConfigurePhaseOf(o, env, parse));
      }
    }
  }

  /** The poll ends in a way that goes on to the rename. */
  predicate PollReachesRename(e: PollEnd)
  {
    e == SeenOnline || e == GaveUp
  }

  lemma AfterRegistrationDoneIff(
    o: ProvOptions, env: Environment, auth: Option<AuthHeader>, sn: string, trace: seq<Event>, c: ConfigureRun)
    requires |env.listings| >= PollAttempts
    ensures AfterRegistration(o, env, auth, sn, trace, c).outcome == Done <==>
      c.end == Configured && PollReachesRename(PollFrom(env.listings, sn, 0).end) && CheckResult(env.rename).Accepted?
  {
    if c.end == Configured {
      AfterConfigureOutcome(o, env, auth, sn, trace + Sends(c.commands));
    }
  }

  lemma AfterLoginDone(o: ProvOptions, env: Environment, parse: string -> Option<real>, auth: Option<AuthHeader>, trace: seq<Event>)
    requires |env.listings| >= PollAttempts && |env.addresses| > 0
    ensures var r := AfterLogin(o, env, parse, auth, trace);
      r.outcome == Done ==>
        && CheckCreate(env.create).Accepted? && CheckResult(env.rename).Accepted?
        && |r.trace| >= |trace| + 5
        && EndsWithRename(r.trace, env.create.value.nodeSn.value, o.name, auth)
        && LastSendConfigures(r.trace, SetupOf(o, env))
  {
    AfterLoginTrace(o, env, parse, auth, trace);
    if CheckCreate(env.create).Accepted? {
      var create := Call(CreateNode(TemporaryNodeName, BoardWioNode1_0), auth);
      ConfiguredPhaseEndsWithApcfg(o, env, parse);
      AfterRegistrationDone(o, env, auth, env.create.value.nodeSn.value, trace + [create], ConfigurePhaseOf(o, env, parse), SetupOf(o, env));
    }
  }

  lemma AfterRegistrationDone(o: ProvOptions, env: Environment, auth: Option<AuthHeader>, sn: string, trace: seq<Event>, c: ConfigureRun, s: Setup)
    requires |env.listings| >= PollAttempts
    requires c.end == Configured ==> EndsConfiguring(c.commands, s)
    ensures var r := AfterRegistration(o, env, auth, sn, trace, c);
      r.outcome == Done ==>
        && CheckResult(env.rename).Accepted?
        && |r.trace| >= |trace| + 4
        && EndsWithRename(r.trace, sn, o.name, auth)
        && LastSendConfigures(r.trace, s)
  {
    var r := AfterRegistration(o, env, auth, sn, trace, c);
    if r.outcome == Done {
      var t := trace + Sends(c.commands);
      AfterConfigureDone(o, env, auth, sn, t);
      var rest := r.trace[|t|..];
      assert r.trace == t + rest;
      LastSendThenCalls(trace, c.commands, rest, s);
    }
  }

  lemma AfterConfigureDone(o: ProvOptions, env: Environment, auth: Option<AuthHeader>, sn: string, trace: seq<Event>)
    requires |env.listings| >= PollAttempts
    ensures var r := AfterConfigure(o, env, auth, sn, trace);
      r.outcome == Done ==>
        && CheckResult(env.rename).Accepted?
        && |r.trace| >= |trace| + 2 && r.trace[..|trace|] == trace
        && (forall j :: |trace| <= j < |r.trace| ==> r.trace[j].Call?)
        && EndsWithRename(r.trace, sn, o.name, auth)
  {
    AfterConfigureOutcome(o, env, auth, sn, trace);
    PollListsOnDone(env.listings, sn);
    var r := AfterConfigure(o, env, auth, sn, trace);
    if r.outcome == Done {
      var p := PollFrom(env.listings, sn, 0);
      var lists := r.trace[|trace|..|r.trace| - 1];
      assert lists == Repeat(Call(ListNodes, auth), p.listings);
      forall j | |trace| <= j < |r.trace|
        ensures r.trace[j].Call?
      {
        if j < |r.trace| - 1 {
          assert r.trace[j] == lists[j - |trace|];
        }
      }
      assert r.trace[|r.trace| - 2] == lists[|lists| - 1];
    }
  }

  /** The last two events are a listing and the rename of `sn` to `name`, both with header `h`. */
  predicate EndsWithRename(trace: seq<Event>, sn: string, name: string, h: Option<AuthHeader>)
  {
    |trace| >= 2 && trace[|trace| - 2] == Call(ListNodes, h) && trace[|trace| - 1] == Call(RenameNode(sn, name), h)
  }

  /** The last datagram in `trace` is an APCFG for the setup, and only directory calls follow it. */
  ghost predicate LastSendConfigures(trace: seq<Event>, s: Setup)
  {
    exists i :: 0 <= i < |trace| && trace[i].Send? && ConfigFor(trace[i].command, s)
      && forall j :: i < j < |trace| ==> trace[j].Call?
  }

  /** The configure phase of a run, when it ends configured, ends with an APCFG for the run's setup. */
  lemma ConfiguredPhaseEndsWithApcfg(o: ProvOptions, env: Environment, parse: string -> Option<real>)
    requires |env.addresses| > 0 && CheckCreate(env.create).Accepted?
    ensures var c := ConfigurePhaseOf(o, env, parse);
      c.end == Configured ==> EndsConfiguring(c.commands, SetupOf(o, env))
  {
    AttemptsWellShaped(SetupOf(o, env), env, parse);
    ConfiguredEndsWithApcfg(Attempts(SetupOf(o, env), env, parse), SetupOf(o, env), env.console, 0, Enter(env.console, 0), [], 0);
  }

  lemma LastSendThenCalls(pre: seq<Event>, commands: seq<Command>, calls: seq<Event>, s: Setup)
    requires EndsConfiguring(commands, s)
    requires forall j :: 0 <= j < |calls| ==> calls[j].Call?
    ensures LastSendConfigures(pre + Sends(commands) + calls, s)
  {
    var t := pre + Sends(commands) + calls;
    var i := |pre| + |commands| - 1;
    assert t[i] == Send(commands[|commands| - 1]);
    forall j | i < j < |t|
      ensures t[j].Call?
    {
      assert t[j] == calls[j - i - 1];
    }
  }

  /** A poll that lets the rename follow listed at least once. */
  lemma PollListsOnDone(listings: seq<Option<NodeListResponse>>, sn: string)
    requires |listings| >= PollAttempts
    ensures var p := PollFrom(listings, sn, 0);
      p.end == SeenOnline || p.end == GaveUp ==> p.listings >= 1
  {
    PollStopsAtFirstOnline(listings, sn, 0);
  }

  /**
   * The poll does not fail when it runs out: once the device is configured,
   * 60 listings that all see the node offline are followed by the rename all
   * the same, and the run is done exactly when the rename is accepted.
   */
  lemma PollExhaustionStillRenames(o: ProvOptions, env: Environment, parse: string -> Option<real>)
    requires |env.listings| >= PollAttempts
    requires |env.addresses| > 0 && CheckLogin(env.login).Accepted? && CheckCreate(env.create).Accepted?
    requires ConfigurePhaseOf(o, env, parse).end == Configured
    requires forall j :: 0 <= j < PollAttempts ==> Sight(env.listings[j], env.create.value.nodeSn.value) == Offline
    ensures var r := Provision(o, env, parse);
      && ListedThenRenamed(r.trace, env.create.value.nodeSn.value, o.name, Some(AuthHeader("token", env.login.value.token.value)))
      && (r.outcome == Done <==> CheckResult(env.rename).Accepted?)
  {
    ProvisionTrace(o, env, parse);
    var auth := TokenHeader(env.login.value.token);
    var login := Call(UserLogin(o.user, o.password), None);
    var create := Call(CreateNode(TemporaryNodeName, BoardWioNode1_0), auth);
    AfterLoginTrace(o, env, parse, auth, [login]);
    var t := [login] + [create] + Sends(ConfigurePhaseOf(o, env, parse).commands);
    GiveUpStillRenames(o, env, auth, env.create.value.nodeSn.value, t);
  }

  /** The last `PollAttempts` + 1 events are that many listings and the rename of `sn` to `name`, all with header `h`. */
  predicate ListedThenRenamed(trace: seq<Event>, sn: string, name: string, h: Option<AuthHeader>)
  {
    && |trace| > PollAttempts
    && trace[|trace| - 1 - PollAttempts..|trace| - 1] == Repeat(Call(ListNodes, h), PollAttempts)
    && trace[|trace| - 1] == Call(RenameNode(sn, name), h)
  }

  lemma GiveUpStillRenames(o: ProvOptions, env: Environment, auth: Option<AuthHeader>, sn: string, trace: seq<Event>)
    requires |env.listings| >= PollAttempts
    requires forall j :: 0 <= j < PollAttempts ==> Sight(env.listings[j], sn) == Offline
    ensures var r := AfterConfigure(o, env, auth, sn, trace);
      && ListedThenRenamed(r.trace, sn, o.name, auth)
      && (r.outcome == Done <==> CheckResult(env.rename).Accepted?)
  {
    PollStopsAtFirstOnline(env.listings, sn, 0);
    AfterConfigureOutcome(o, env, auth, sn, trace);
    var r := AfterConfigure(o, env, auth, sn, trace);
    assert |r.trace| - 1 - PollAttempts == |trace|;
  }

  // ---------------------------------------------------------------------
  // The workflow

  lemma SendsAppend(a: seq<Command>, b: seq<Command>)
    ensures Sends(a + b) == Sends(a) + Sends(b)
  {
  }

  lemma RepeatOneMore(e: Event, n: nat)
    ensures Repeat(e, n + 1) == Repeat(e, n) + [e]
  {
  }

  /** The body of the configure loop's `try`: query the version, then configure in the right dialect. */
  method TryConfigure(s: Setup, versionTraffic: seq<Datagram>, configTraffic: seq<Datagram>, parse: string -> Option<real>)
    returns (a: AttemptRun)
    ensures a == Attempt(s, versionTraffic, configTraffic, parse)
  {
    var _, version := GetNodeVersion(versionTraffic, parse);
    if version.TimedOut? {
      return AttemptRun(false, [Version]);
    }
    var server := if version.reply.version < HostNameVersion then s.address else s.host;
    var _, ack := ConfigureNode(s.nodeSn, s.nodeKey, s.ssid, s.password, server, configTraffic, parse);
    a := AttemptRun(ack.Resolved?, [Version, ApConfig(s.ssid, s.password, s.nodeKey, s.nodeSn, server)]);
  }

  /**
   * The configure loop of `RunProvisioning`, from console line `pos`: an
   * attempt, and after a timeout the retry question.
   */
  method Configure(s: Setup, env: Environment, parse: string -> Option<real>, pos: nat, ghost attempt: nat -> AttemptRun)
    returns (r: ConfigureRun, next: nat)
    requires pos <= |env.console|
    requires forall j: nat :: attempt(j) == Attempt(s, Traffic(env, j), Traffic(env, j + 1), parse)
    ensures r == ConfigureLoop(attempt, env.console, 0, pos, [], 0)
    ensures next <= |env.console|
  {
    var k: nat := 0;
    next := pos;
    var sent: seq<Command> := [];
    var attempts := 0;
    while true
      invariant next <= |env.console|
      invariant ConfigureLoop(attempt, env.console, 0, pos, [], 0) == ConfigureLoop(attempt, env.console, k, next, sent, attempts)
      decreases |env.console| - next
    {
      var a := TryConfigure(s, Traffic(env, k), Traffic(env, k + 1), parse);
      ConfigureStep(attempt, env.console, k, next, sent, attempts);
      if a.configured {
        r := ConfigureRun(Configured, sent + a.commands, attempts + 1);
        break;
      }
      var answer := RetryConfirmation(env.console, next);
      if answer.NoAnswer? {
        r := ConfigureRun(Unanswered, sent + a.commands, attempts + 1);
        break;
      }
      if !answer.retry {
        r, next := ConfigureRun(Declined, sent + a.commands, attempts + 1), answer.next;
        break;
      }
      sent, attempts := sent + a.commands, attempts + 1;
      k, next := k + |a.commands|, answer.next;
    }
  }

  /**
   * The online poll of `RunProvisioning`: up to `PollAttempts` listings, each
   * sent with the client's current header, stopping when the node is online.
   */
  method AwaitOnline(service: DirectoryClient, listings: seq<Option<NodeListResponse>>, sn: string)
    returns (p: PollRun, calls: seq<Event>)
    requires |listings| >= PollAttempts
    ensures p == PollFrom(listings, sn, 0)
    ensures calls == Repeat(Call(ListNodes, service.authorization), p.listings)
  {
    calls := [];
    for i := 0 to PollAttempts
      invariant PollFrom(listings, sn, 0) == PollRun(PollFrom(listings, sn, i).end, PollFrom(listings, sn, i).listings + i)
      invariant calls == Repeat(Call(ListNodes, service.authorization), i)
    {
      RepeatOneMore(Call(ListNodes, service.authorization), i);
      calls := calls + [Call(ListNodes, service.authorization)];
      var nodes2 := CheckList(listings[i]);
      if nodes2.Rejected? {
        return PollRun(ListFailed(nodes2.message), i + 1), calls;
      }
      var node := FirstWithSerial(nodes2.value.nodes.value, sn);
      if node.None? {
        return PollRun(SerialMissing, i + 1), calls;
      }
      if nodes2.value.nodes.value[node.value].online {
        return PollRun(SeenOnline, i + 1), calls;
      }
    }
    p := PollRun(GaveUp, PollAttempts);
  }

  /** The configure phase of `RunProvisioning` for one setup, from console line `pos`. */
  method ConfigurePhase(s: Setup, env: Environment, parse: string -> Option<real>, pos: nat)
    returns (r: ConfigureRun, next: nat)
    requires pos <= |env.console|
    ensures r == ConfigureLoop(Attempts(s, env, parse), env.console, 0, pos, [], 0)
    ensures next <= |env.console|
  {
    AttemptsApply(s, env, parse);
    r, next := Configure(s, env, parse, pos, Attempts(s, env, parse));
  }

  /** The end of `RunProvisioning` once the node is configured: the online poll and the rename. */
  method Finish(o: ProvOptions, env: Environment, service: DirectoryClient, sn: string, trace: seq<Event>)
    returns (run: Run)
    requires |env.listings| >= PollAttempts
    ensures run == AfterConfigure(o, env, service.authorization, sn, trace)
  {
    var polled, calls := AwaitOnline(service, env.listings, sn);
    var t := trace + calls;
    if polled.end.ListFailed? {
      return Run(Failed(ListRejected(polled.end.message)), t);
    }
    if polled.end == SerialMissing {
      return Run(Failed(SerialNotListed), t);
    }

    // Give the node its final name.
    t := t + [Call(RenameNode(sn, o.name), service.authorization)];
    var renamed := CheckResult(env.rename);
    if renamed.Rejected? {
      return Run(Failed(RenameRejected(renamed.message)), t);
    }
    return Run(Done, t);
  }

  /** `RunProvisioning`: the phases in order. */
  method RunProvisioning(o: ProvOptions, env: Environment, parse: string -> Option<real>) returns (run: Run)
    requires |env.listings| >= PollAttempts
    ensures run == Provision(o, env, parse)
  {
    if |env.addresses| == 0 {
      return Run(Failed(NoServerAddress), []);
    }
    var serverIp := env.addresses[0];
    var service := new DirectoryClient("https://" + o.server);

    // Log in.
    var trace := [Call(UserLogin(o.user, o.password), service.authorization)];
    var user := CheckLogin(env.login);
    if user.Rejected? {
      return Run(Failed(LoginRejected(user.message)), trace);
    }
    service.SetToken(user.value.token);

    // Register the node under its placeholder name.
    trace := trace + [Call(CreateNode(TemporaryNodeName, BoardWioNode1_0), service.authorization)];
    var newNode := CheckCreate(env.create);
    if newNode.Rejected? {
      return Run(Failed(CreateRejected(newNode.message)), trace);
    }
    var sn, key := newNode.value.nodeSn.value, newNode.value.nodeKey.value;

    // The operator joins the device's access point; then the device is configured.
    var pos := Enter(env.console, 0);
    var setup := Setup(o.wifiSsid, o.wifiPassword, key, sn, o.server, serverIp);
    var configured;
    configured, pos := ConfigurePhase(setup, env, parse, pos);
    trace := trace + Sends(configured.commands);
    if configured.end == Declined {
      return Run(Failed(OperatorAbort), trace);
    }
    if configured.end == Unanswered {
      return Run(AwaitingAnswer, trace);
    }

    // The operator joins an internet access point; then the node is polled and renamed.
    pos := Enter(env.console, pos);
    run := Finish(o, env, service, sn, trace);
  }
}
