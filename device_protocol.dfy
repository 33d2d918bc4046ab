/**
 * The UDP command protocol spoken to an unconfigured device in access-point
 * mode (the exchange helpers of WioLinkCLI/Program.cs).
 *
 * One exchange binds the local port, arms a receiver, waits the settle
 * interval, sends one command datagram to the device, and then resolves on
 * the first datagram that comes from the device's endpoint and has the shape
 * the command expects; a deadline measured from the start of the exchange
 * cancels the receive. Sockets, tasks and the cancellation token are replaced
 * by a sequence of datagrams, each stamped with its arrival time in
 * milliseconds after the exchange started.
 */
module DeviceProtocol {
  import opened Wrappers

  const NodeIp: string := "192.168.4.1"
  const NodePort: nat := 1025
  /** The receive is cancelled this many milliseconds after the exchange starts. */
  const ExchangeTimeoutMs: nat := 4000
  /** The command is sent this many milliseconds after the receiver is armed. */
  const SettleDelayMs: nat := 1000

  const VersionText: string := "VERSION"
  const ApcfgPrefix: string := "APCFG: "
  /** The only reply that acknowledges a configuration. */
  const OkReply: string := "ok\r\n"

  function DigitChar(d: nat): char
    requires d < 10
  {
    (48 + d) as char
  }

  /** Decimal rendering of a natural number, as string interpolation prints it. */
  function Decimal(n: nat): (s: string)
    ensures |s| >= 1
  {
    if n < 10 then [DigitChar(n)] else Decimal(n / 10) + [DigitChar(n % 10)]
  }

  /** `IPEndPoint.ToString()` for an IPv4 address: address, colon, port. */
  function EndpointText(ip: string, port: nat): string
  {
    ip + ":" + Decimal(port)
  }

  /** The sender text every accepted reply must carry. */
  const DeviceEndpoint: string := "192.168.4.1:1025"

  /** The literal the receive loops compare against is how the device's endpoint prints. */
  lemma DeviceEndpointText()
    ensures EndpointText(NodeIp, NodePort) == DeviceEndpoint
  {
    assert Decimal(1) == "1";
    assert Decimal(10) == "10";
    assert Decimal(102) == "102";
    assert Decimal(1025) == "1025";
  }

  // ---------------------------------------------------------------------
  // Commands and their encoding

  datatype Command =
    | Version
    | ApConfig(ssid: string, password: string, nodeKey: string, nodeSn: string, server: string)

  /** The text of the datagram that carries a command, before its ASCII encoding; the server field is written twice. */
  function Encode(c: Command): string
  {
    match c
    case Version => VersionText
    case ApConfig(ssid, password, key, sn, server) =>
      ApcfgPrefix + ssid + "\t" + password + "\t" + key + "\t" + sn + "\t" + server + "\t" + server + "\t"
  }

  /**
   * VERSION is the only command sent as the text "VERSION"; every APCFG text
   * starts with "APCFG: " and ends with the tab after the last field.
   */
  lemma EncodeShape(c: Command)
    ensures c.Version? <==> Encode(c) == VersionText
    ensures c.ApConfig? ==> ApcfgPrefix <= Encode(c) && Encode(c)[|Encode(c)| - 1] == '\t'
  {
    if c.ApConfig? {
      var e := Encode(c);
      assert e[0] == 'A' != VersionText[0];
    }
  }

  predicate TabFree(s: string)
  {
    '\t' !in s
  }

  predicate FieldsTabFree(c: Command)
  {
    c.ApConfig? ==>
      TabFree(c.ssid) && TabFree(c.password) && TabFree(c.nodeKey) && TabFree(c.nodeSn) && TabFree(c.server)
  }

  /** The tab-separated fields of a string (one more field than there are tabs). */
  function SplitTabs(s: string): (fields: seq<string>)
    ensures |fields| >= 1
  {
    if s == [] then [""]
    else
      var rest := SplitTabs(s[1..]);
      if s[0] == '\t' then [""] + rest else [[s[0]] + rest[0]] + rest[1..]
  }

  lemma {:induction false} SplitAfterField(a: string, b: string)
    requires TabFree(a)
    ensures SplitTabs(a + "\t" + b) == [a] + SplitTabs(b)
  {
    if a == [] {
      assert a + "\t" + b == "\t" + b;
      assert ("\t" + b)[1..] == b;
    } else {
      SplitAfterField(a[1..], b);
      assert (a + "\t" + b)[1..] == a[1..] + "\t" + b;
      assert [a[0]] + a[1..] == a;
    }
  }

  lemma FieldThenRest(pre: string, field: string, rest: string)
    ensures pre + field + "\t" + rest == pre + (field + "\t" + rest)
  {
  }

  /** The APCFG text is the prefix followed by the fields, each closed by a tab. */
  lemma ApcfgBody(ssid: string, password: string, key: string, sn: string, server: string)
    ensures var s := Encode(ApConfig(ssid, password, key, sn, server));
      ApcfgPrefix <= s
      && s[|ApcfgPrefix|..] == ssid + "\t" + (password + "\t" + (key + "\t" + (sn + "\t" + (server + "\t" + (server + "\t" + "")))))
  {
    var p5 := ApcfgPrefix + ssid + "\t";
    var p4 := p5 + password + "\t";
    var p3 := p4 + key + "\t";
    var p2 := p3 + sn + "\t";
    var p1 := p2 + server + "\t";
    var r1 := server + "\t" + "";
    var r2 := server + "\t" + r1;
    var r3 := sn + "\t" + r2;
    var r4 := key + "\t" + r3;
    var r5 := password + "\t" + r4;
    assert Encode(ApConfig(ssid, password, key, sn, server)) == p1 + server + "\t" + "";
    FieldThenRest(p1, server, "");
    FieldThenRest(p2, server, r1);
    FieldThenRest(p3, sn, r2);
    FieldThenRest(p4, key, r3);
    FieldThenRest(p5, password, r4);
    FieldThenRest(ApcfgPrefix, ssid, r5);
  }

  /**
   * The body of an APCFG datagram splits into SSID, Wi-Fi password, node key,
   * node serial, the server twice, and an empty field after the closing tab.
   */
  lemma ApcfgFields(ssid: string, password: string, key: string, sn: string, server: string)
    requires TabFree(ssid) && TabFree(password) && TabFree(key) && TabFree(sn) && TabFree(server)
    ensures var s := Encode(ApConfig(ssid, password, key, sn, server));
      ApcfgPrefix <= s
      && SplitTabs(s[|ApcfgPrefix|..]) == [ssid, password, key, sn, server, server, ""]
  {
    var t6 := server + "\t" + "";
    var t5 := server + "\t" + t6;
    var t4 := sn + "\t" + t5;
    var t3 := key + "\t" + t4;
    var t2 := password + "\t" + t3;
    var t1 := ssid + "\t" + t2;
    ApcfgBody(ssid, password, key, sn, server);
    assert SplitTabs("") == [""];
    SplitAfterField(server, "");
    SplitAfterField(server, t6);
    SplitAfterField(sn, t5);
    SplitAfterField(key, t4);
    SplitAfterField(password, t3);
    SplitAfterField(ssid, t2);
  }

  /** Reads a command back from datagram text: the inverse of `Encode` on tab-free fields. */
  function DecodeCommand(s: string): Option<Command>
  {
    if s == VersionText then Some(Version)
    else if ApcfgPrefix <= s then
      var f := SplitTabs(s[|ApcfgPrefix|..]);
      if |f| == 7 && f[4] == f[5] && f[6] == "" then Some(ApConfig(f[0], f[1], f[2], f[3], f[4]))
      else None
    else None
  }

  /**
   * The datagram of a command whose fields are tab-free ASCII decodes back to
   * that command: on such commands, what goes on the wire is injective.
   */
  lemma DecodeEncode(c: Command)
    requires FieldsTabFree(c) && FieldsAscii(c)
    ensures DecodeCommand(Ascii(Encode(c))) == Some(c)
  {
    EncodeAscii(c);
    AsciiKeepsAscii(Encode(c));
    if c.ApConfig? {
      ApcfgFields(c.ssid, c.password, c.nodeKey, c.nodeSn, c.server);
      assert Encode(c)[0] == 'A';
    }
  }

  lemma TabJoin(x: string, y: string, rest: string)
    ensures x + "\t" + (y + "\t" + rest) == (x + "\t" + y) + "\t" + rest
  {
  }

  /** Without escaping, a tab inside a field moves the field boundaries: two configurations share one datagram. */
  lemma TabInFieldIsAmbiguous(key: string, sn: string, server: string)
    ensures ApConfig("a\tb", "c", key, sn, server) != ApConfig("a", "b\tc", key, sn, server)
    ensures Encode(ApConfig("a\tb", "c", key, sn, server)) == Encode(ApConfig("a", "b\tc", key, sn, server))
  {
    var e1, e2 := Encode(ApConfig("a\tb", "c", key, sn, server)), Encode(ApConfig("a", "b\tc", key, sn, server));
    var rest := key + "\t" + (sn + "\t" + (server + "\t" + (server + "\t" + "")));
    ApcfgBody("a\tb", "c", key, sn, server);
    ApcfgBody("a", "b\tc", key, sn, server);
    TabJoin("a\tb", "c", rest);
    TabJoin("a", "b\tc", rest);
    assert "a\tb" + "\t" + "c" == "a" + "\t" + "b\tc";
    assert e1 == ApcfgPrefix + e1[|ApcfgPrefix|..];
    assert e2 == ApcfgPrefix + e2[|ApcfgPrefix|..];
  }

  // ---------------------------------------------------------------------
  // The bytes on the wire

  /**
   * `Encoding.ASCII.GetBytes` on one character of the command text: an ASCII
   * character stays, any other becomes '?', and a character outside the Basic
   * Multilingual Plane (two UTF-16 code units in .NET) becomes "??".
   */
  function AsciiChar(ch: char): string
  {
    if ch as int < 0x80 then [ch] else if ch as int >= 0x1_0000 then "??" else "?"
  }

  predicate IsAscii(s: string)
  {
    forall ch :: ch in s ==> ch as int < 0x80
  }

  predicate FieldsAscii(c: Command)
  {
    c.ApConfig? ==>
      IsAscii(c.ssid) && IsAscii(c.password) && IsAscii(c.nodeKey) && IsAscii(c.nodeSn) && IsAscii(c.server)
  }

  /** The bytes `Encoding.ASCII.GetBytes` sends for a text, one character per byte: always ASCII. */
  function Ascii(s: string): string
  {
    if s == [] then [] else AsciiChar(s[0]) + Ascii(s[1..])
  }

  /** Whatever the text, the bytes sent are ASCII. */
  lemma {:induction false} AsciiIsAscii(s: string)
    ensures IsAscii(Ascii(s))
    decreases |s|
  {
    if s != [] {
      AsciiIsAscii(s[1..]);
    }
  }

  lemma {:induction false} AsciiAppend(a: string, b: string)
    ensures Ascii(a + b) == Ascii(a) + Ascii(b)
    decreases |a|
  {
    if a == [] {
      assert a + b == b;
    } else {
      var ab := a + b;
      assert ab[0] == a[0] && ab[1..] == a[1..] + b;
      assert Ascii(ab) == AsciiChar(a[0]) + Ascii(a[1..] + b);
      AsciiAppend(a[1..], b);
      assert Ascii(a) == AsciiChar(a[0]) + Ascii(a[1..]);
    }
  }

  /** ASCII text goes out unchanged. */
  lemma {:induction false} AsciiKeepsAscii(s: string)
    requires IsAscii(s)
    ensures Ascii(s) == s
    decreases |s|
  {
    if s != [] {
      assert s[0] in s;
      assert IsAscii(s[1..]) by {
        forall ch | ch in s[1..] ensures ch as int < 0x80 {
          var k :| 0 <= k < |s[1..]| && s[1..][k] == ch;
          assert s[k + 1] == ch && s[k + 1] in s;
        }
      }
      AsciiKeepsAscii(s[1..]);
      assert s == [s[0]] + s[1..];
    }
  }

  /** The command text is ASCII when its fields are: the keyword, the prefix and the tabs are. */
  lemma EncodeAscii(c: Command)
    requires FieldsAscii(c)
    ensures IsAscii(Encode(c))
  {
  }

  /**
   * Non-ASCII characters are lost on the wire: two configurations whose SSIDs
   * differ only in an accented letter ("caf\U{e9}" and "caf\U{e8}") send the
   * same datagram.
   */
  lemma NonAsciiCollapses(password: string, key: string, sn: string, server: string)
    ensures ApConfig("caf\U{e9}", password, key, sn, server) != ApConfig("caf\U{e8}", password, key, sn, server)
    ensures Ascii(Encode(ApConfig("caf\U{e9}", password, key, sn, server)))
         == Ascii(Encode(ApConfig("caf\U{e8}", password, key, sn, server)))
  {
    var s1, s2 := "caf\U{e9}", "caf\U{e8}";
    var e1, e2 := Encode(ApConfig(s1, password, key, sn, server)), Encode(ApConfig(s2, password, key, sn, server));
    var rest := password + "\t" + (key + "\t" + (sn + "\t" + (server + "\t" + (server + "\t" + ""))));
    ApcfgBody(s1, password, key, sn, server);
    ApcfgBody(s2, password, key, sn, server);
    assert e1 == ApcfgPrefix + (s1 + "\t" + rest);
    assert e2 == ApcfgPrefix + (s2 + "\t" + rest);
    assert s1 != s2 by { assert s1[3] != s2[3]; }
    assert Ascii(s1) == Ascii(s2) by {
      assert s1 == "caf" + [s1[3]] && s2 == "caf" + [s2[3]];
      AsciiAppend("caf", [s1[3]]);
      AsciiAppend("caf", [s2[3]]);
      assert Ascii([s1[3]]) == "?" && Ascii([s2[3]]) == "?";
    }
    AsciiAppend(ApcfgPrefix, s1 + "\t" + rest);
    AsciiAppend(ApcfgPrefix, s2 + "\t" + rest);
    AsciiAppend(s1 + "\t", rest);
    AsciiAppend(s2 + "\t", rest);
    AsciiAppend(s1, "\t");
    AsciiAppend(s2, "\t");
  }

  // ---------------------------------------------------------------------
  // Replies

  datatype Datagram = Datagram(time: nat, sender: string, payload: string)

  /** The datagram the exchange sends: when, to whom, and what. */
  datatype Transmission = Transmission(time: nat, destination: string, payload: string)

  datatype DeviceReply = VersionIs(version: real) | Acknowledged

  /**
   * The acceptance test of each receive loop. `parse` stands for the
   * current-culture `double.TryParse`.
   */
  function Accept(c: Command, d: Datagram, parse: string -> Option<real>): (r: Option<DeviceReply>)
    ensures r.Some? ==> d.sender == DeviceEndpoint
    ensures c.Version? ==>
      (r.Some? <==> d.sender == DeviceEndpoint && parse(d.payload).Some?)
      && (r.Some? ==> r.value == VersionIs(parse(d.payload).value))
    ensures c.ApConfig? ==>
      (r.Some? <==> d.sender == DeviceEndpoint && d.payload == OkReply)
      && (r.Some? ==> r.value == Acknowledged)
  {
    if d.sender != DeviceEndpoint then None
    else
      match c
      case Version =>
        (match parse(d.payload)
         case Some(v) => Some(VersionIs(v))
         case None => None)
      case ApConfig(_, _, _, _, _) =>
        if d.payload == OkReply then Some(Acknowledged) else None
  }

  /** How an exchange ends: the accepted reply and the position of its datagram, or a timeout. */
  datatype ExchangeResult = Resolved(reply: DeviceReply, index: nat) | TimedOut

  function Shift(r: ExchangeResult, n: nat): ExchangeResult
  {
    match r
    case TimedOut => TimedOut
    case Resolved(reply, i) => Resolved(reply, i + n)
  }

  /**
   * The receive loop as a function: the first datagram to arrive before the
   * deadline and pass `Accept` resolves the exchange; a datagram at or after
   * the deadline, or the end of the traffic, means the receive was cancelled.
   */
  function Await(c: Command, traffic: seq<Datagram>, parse: string -> Option<real>): (r: ExchangeResult)
    ensures r.Resolved? ==> r.index < |traffic| && (r.reply.VersionIs? <==> c.Version?)
  {
    if traffic == [] || traffic[0].time >= ExchangeTimeoutMs then TimedOut
    else
      match Accept(c, traffic[0], parse)
      case Some(reply) => Resolved(reply, 0)
      case None => Shift(Await(c, traffic[1..], parse), 1)
  }

  /** Every datagram up to and including position `j` arrived before the deadline. */
  ghost predicate InTime(traffic: seq<Datagram>, j: nat)
    requires j < |traffic|
  {
    forall m :: 0 <= m <= j ==> traffic[m].time < ExchangeTimeoutMs
  }

  /**
   * An exchange resolves on the first in-time datagram that passes `Accept`,
   * and times out exactly when no in-time datagram passes it.
   */
  lemma {:induction false} AwaitFirstAccepted(c: Command, traffic: seq<Datagram>, parse: string -> Option<real>)
    ensures var r := Await(c, traffic, parse);
      && (r.Resolved? ==>
            && r.index < |traffic|
            && InTime(traffic, r.index)
            && Accept(c, traffic[r.index], parse) == Some(r.reply)
            && forall j :: 0 <= j < r.index ==> Accept(c, traffic[j], parse).None?)
      && (r.TimedOut? ==>
            forall j :: 0 <= j < |traffic| && InTime(traffic, j) ==> Accept(c, traffic[j], parse).None?)
  {
    if traffic == [] || traffic[0].time >= ExchangeTimeoutMs {
    } else if Accept(c, traffic[0], parse).None? {
      AwaitFirstAccepted(c, traffic[1..], parse);
      var r := Await(c, traffic[1..], parse);
      if r.Resolved? {
        RejectedBeforeTail(c, traffic, parse, r.index);
      } else {
        RejectedThroughTail(c, traffic, parse);
      }
    }
  }

  /** A rejected in-time head followed by a tail whose first `i` datagrams were rejected and in time. */
  lemma RejectedBeforeTail(c: Command, traffic: seq<Datagram>, parse: string -> Option<real>, i: nat)
    requires |traffic| > i + 1 && traffic[0].time < ExchangeTimeoutMs && Accept(c, traffic[0], parse).None?
    requires InTime(traffic[1..], i)
    requires forall j :: 0 <= j < i ==> Accept(c, traffic[1..][j], parse).None?
    ensures InTime(traffic, i + 1)
    ensures forall j :: 0 <= j < i + 1 ==> Accept(c, traffic[j], parse).None?
  {
    var tail := traffic[1..];
    forall j | 0 <= j < i + 1 ensures Accept(c, traffic[j], parse).None? {
      if j > 0 { assert traffic[j] == tail[j - 1]; }
    }
    forall m | 0 <= m <= i + 1 ensures traffic[m].time < ExchangeTimeoutMs {
      if m > 0 { assert traffic[m] == tail[m - 1]; }
    }
  }

  /** A rejected in-time head followed by a tail that rejects everything in time. */
  lemma RejectedThroughTail(c: Command, traffic: seq<Datagram>, parse: string -> Option<real>)
    requires |traffic| > 0 && Accept(c, traffic[0], parse).None?
    requires forall j :: 0 <= j < |traffic| - 1 && InTime(traffic[1..], j) ==> Accept(c, traffic[1..][j], parse).None?
    ensures forall j :: 0 <= j < |traffic| && InTime(traffic, j) ==> Accept(c, traffic[j], parse).None?
  {
    var tail := traffic[1..];
    forall j | 0 <= j < |traffic| && InTime(traffic, j) ensures Accept(c, traffic[j], parse).None? {
      if j > 0 {
        assert tail[j - 1] == traffic[j];
        assert InTime(tail, j - 1) by {
          forall m | 0 <= m <= j - 1 ensures tail[m].time < ExchangeTimeoutMs {
            assert tail[m] == traffic[m + 1];
          }
        }
      }
    }
  }

  lemma {:induction false} ForeignSenderIgnored(
    c: Command, traffic: seq<Datagram>, i: nat, payload: string, parse: string -> Option<real>)
    requires i < |traffic| && traffic[i].sender != DeviceEndpoint
    ensures Await(c, traffic[i := traffic[i].(payload := payload)], parse) == Await(c, traffic, parse)
  {
    var changed := traffic[i := traffic[i].(payload := payload)];
    if i > 0 && traffic[0].time < ExchangeTimeoutMs && Accept(c, traffic[0], parse).None? {
      ForeignSenderIgnored(c, traffic[1..], i - 1, payload, parse);
      assert changed[1..] == traffic[1..][i - 1 := traffic[i].(payload := payload)];
    }
  }

  /** Nothing at or after the deadline matters: the exchange is decided by the traffic before it. */
  lemma {:induction false} LateTrafficIgnored(
    c: Command, traffic: seq<Datagram>, i: nat, parse: string -> Option<real>)
    requires i < |traffic| && traffic[i].time >= ExchangeTimeoutMs
    ensures Await(c, traffic, parse) == Await(c, traffic[..i], parse)
  {
    if i > 0 && traffic[0].time < ExchangeTimeoutMs && Accept(c, traffic[0], parse).None? {
      LateTrafficIgnored(c, traffic[1..], i - 1, parse);
      assert traffic[..i][1..] == traffic[1..][..i - 1];
    }
  }

  /**
   * The receiver is armed before the command goes out: arrival times matter
   * only against the deadline, so a reply that arrives before the send (or
   * at any other in-time moment) resolves the exchange just the same.
   */
  lemma {:induction false} OnlyDeadlineMatters(
    c: Command, traffic: seq<Datagram>, other: seq<Datagram>, parse: string -> Option<real>)
    requires |traffic| == |other|
    requires forall j :: 0 <= j < |traffic| ==>
      traffic[j].sender == other[j].sender && traffic[j].payload == other[j].payload
      && (traffic[j].time < ExchangeTimeoutMs <==> other[j].time < ExchangeTimeoutMs)
    ensures Await(c, traffic, parse) == Await(c, other, parse)
  {
    if traffic != [] && traffic[0].time < ExchangeTimeoutMs {
      assert Accept(c, traffic[0], parse) == Accept(c, other[0], parse);
      OnlyDeadlineMatters(c, traffic[1..], other[1..], parse);
    }
  }

  // ---------------------------------------------------------------------
  // The exchanges

  /**
   * One exchange: the command goes to the device, ASCII-encoded, after the
   * settle interval, and the reply is awaited.
   */
  method Exchange(c: Command, traffic: seq<Datagram>, parse: string -> Option<real>)
    returns (sent: Transmission, r: ExchangeResult)
    ensures sent == Transmission(SettleDelayMs, DeviceEndpoint, Ascii(Encode(c)))
    ensures r == Await(c, traffic, parse)
  {
    sent := Transmission(SettleDelayMs, DeviceEndpoint, Ascii(Encode(c)));
    r := Receive(c, traffic, parse);
  }

  /**
   * The receive loop: walks the arriving datagrams until one is accepted or
   * the receive is cancelled.
   */
  method Receive(c: Command, traffic: seq<Datagram>, parse: string -> Option<real>)
    returns (r: ExchangeResult)
    ensures r == Await(c, traffic, parse)
  {
    var i := 0;
    while true
      invariant i <= |traffic|
      invariant Await(c, traffic, parse) == Shift(Await(c, traffic[i..], parse), i)
      decreases |traffic| - i
    {
      if i == |traffic| || traffic[i].time >= ExchangeTimeoutMs {
        r := TimedOut;
        break;
      }
      var reply := Accept(c, traffic[i], parse);
      if reply.Some? {
        r := Resolved(reply.value, i);
        break;
      }
      assert traffic[i..][1..] == traffic[i + 1..];
      i := i + 1;
    }
  }

  /** `GetNodeVersion`: sends VERSION and yields the first number the device reports. */
  method GetNodeVersion(traffic: seq<Datagram>, parse: string -> Option<real>)
    returns (sent: Transmission, r: ExchangeResult)
    ensures sent == Transmission(SettleDelayMs, DeviceEndpoint, VersionText)
    ensures r == Await(Version, traffic, parse)
    ensures r.Resolved? ==>
      && r.reply.VersionIs?
      && traffic[r.index].sender == DeviceEndpoint
      && traffic[r.index].time < ExchangeTimeoutMs
      && parse(traffic[r.index].payload) == Some(r.reply.version)
  {
    sent, r := Exchange(Version, traffic, parse);
    AsciiKeepsAscii(VersionText);
    AwaitFirstAccepted(Version, traffic, parse);
  }

  /**
   * `ConfigureNode` (both overloads: the server is a host name or the text
   * of an address): sends APCFG and waits for the device's "ok\r\n".
   */
  method ConfigureNode(
    nodeSn: string, nodeKey: string, wifiSsid: string, wifiPassword: string, server: string,
    traffic: seq<Datagram>, parse: string -> Option<real>)
    returns (sent: Transmission, r: ExchangeResult)
    ensures sent == Transmission(SettleDelayMs, DeviceEndpoint, Ascii(Encode(ApConfig(wifiSsid, wifiPassword, nodeKey, nodeSn, server))))
    ensures r == Await(ApConfig(wifiSsid, wifiPassword, nodeKey, nodeSn, server), traffic, parse)
    ensures r.Resolved? ==>
      && r.reply == Acknowledged
      && traffic[r.index].sender == DeviceEndpoint
      && traffic[r.index].time < ExchangeTimeoutMs
      && traffic[r.index].payload == OkReply
  {
    var c := ApConfig(wifiSsid, wifiPassword, nodeKey, nodeSn, server);
    sent, r := Exchange(c, traffic, parse);
    AwaitFirstAccepted(c, traffic, parse);
  }
}
