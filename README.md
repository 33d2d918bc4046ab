# WioLink provisioning, modelled in Dafny

This project models the provisioning tool of the WioLink repository.
`WioLinkCLI/Program.cs` provisions a Wio Link / Wio Node device in these phases:

1. It logs in to the Wio directory server.
2. It registers a placeholder node ("node000", board "Wio Node v1.0").
3. It asks the operator to join the device's own access point.
4. It configures the device over UDP. It queries the firmware version with `VERSION`. It then sends `APCFG: …` with the Wi-Fi credentials, the node key and serial, and the server. The server is the resolved address for firmware below 1.2 and the host name otherwise. A timeout leads to a yes/no retry question.
5. It asks the operator to join an internet access point.
6. It polls the node list up to 60 times until the node is online.
7. It renames the node.

`WioLinkService/WioLinkService.cs` is the directory client. Each operation sends a form to a `/v1/...` endpoint and accepts or rejects the decoded response. `SetToken` installs the authorization header.

Modules:

- `Wrappers`: `Option`.
- `DirectoryService`:
  - the decoded response records and the rule by which each operation accepts its response, as `Reply` (accepted value, or rejection with the exception message);
  - the request each operation sends, with a decoder `OperationOf` that reads it back;
  - the `DirectoryClient` class, whose `authorization` field `SetToken` replaces.
- `DeviceProtocol`:
  - the two commands, their text, the ASCII bytes that go on the wire, and a decoder;
  - the acceptance test of each receive loop;
  - the receive loop as a function `Await` over a timed datagram sequence. The deadline is 4000 ms from the start of the exchange, and the send happens at 1000 ms;
  - the imperative `Exchange`, `GetNodeVersion` and `ConfigureNode`, each proved equal to it.
- `OperatorPrompt`: the ENTER checkpoint and the retry question. The question is a function `Confirm` and the loop `RetryConfirmation` is proved equal to it.
- `Provisioning`:
  - the whole run as a function `Provision` over an explicit `Environment`: DNS answer, decoded directory responses, the datagrams each exchange hears, and the operator's console lines. It returns the outcome and a trace of directory calls (with the header each carries) and datagrams sent;
  - the imperative `RunProvisioning`, proved equal to `Provision`;
  - the lemmas stating what a run promises.

## Model

| member | source | states |
|---|---|---|
| DeviceProtocol.DeviceEndpointText | WioLinkCLI/Program.cs:11-12 | The sender text every reply is compared against, "192.168.4.1:1025", is how `NODE_IP` and `NODE_PORT` print as an endpoint. |
| DeviceProtocol.ApcfgBody | WioLinkCLI/Program.cs:199 | The APCFG text is "APCFG: " followed by SSID, Wi-Fi password, node key, serial, server and server, each closed by a tab. |
| DeviceProtocol.ApcfgFields | WioLinkCLI/Program.cs:199 | On tab-free fields, the body after the prefix splits into exactly those six fields, the server twice and identical, plus an empty trailing field. |
| DeviceProtocol.EncodeShape | WioLinkCLI/Program.cs:143 | VERSION is the only command sent as the text "VERSION". Every APCFG text (lines 172 and 199) starts with "APCFG: " and ends with a tab. |
| DeviceProtocol.DecodeEncode | WioLinkCLI/Program.cs:143-144 | Decoding the ASCII bytes sent for `VERSION`, or for an APCFG whose fields are tab-free ASCII text, gives back the command. On such commands the datagram is injective. |
| DeviceProtocol.AsciiIsAscii | WioLinkCLI/Program.cs:172 | `Encoding.ASCII.GetBytes` sends only ASCII: every other character becomes '?', and a character outside the Basic Multilingual Plane becomes "??". |
| DeviceProtocol.AsciiKeepsAscii | WioLinkCLI/Program.cs:199 | ASCII text goes on the wire unchanged. |
| DeviceProtocol.AsciiAppend | WioLinkCLI/Program.cs:199 | The bytes of a concatenation are the concatenation of the bytes of its parts, character by character. |
| DeviceProtocol.NonAsciiCollapses | WioLinkCLI/Program.cs:172 | Non-ASCII characters are lost on the wire. Two different configurations whose SSIDs differ only in an accented letter send the same datagram. |
| DeviceProtocol.TabInFieldIsAmbiguous | WioLinkCLI/Program.cs:172 | Fields are not escaped: two different configurations, one with a tab inside the SSID, produce the same datagram. |
| DeviceProtocol.Accept | WioLinkCLI/Program.cs:138 | A VERSION reply is accepted iff the sender is the device endpoint and the payload parses as a number, giving that number. An APCFG reply is accepted iff the sender is the device and the payload is exactly "ok\r\n" (lines 167 and 194). |
| DeviceProtocol.Await | WioLinkCLI/Program.cs:130-140 | A resolved exchange points at a datagram of the traffic, and its reply kind matches the command. |
| DeviceProtocol.AwaitFirstAccepted | WioLinkCLI/Program.cs:132-146 | The exchange resolves on the first in-time datagram that passes the acceptance test, and every earlier datagram failed it. It times out exactly when no in-time datagram passes. |
| DeviceProtocol.ForeignSenderIgnored | WioLinkCLI/Program.cs:138 | Changing the payload of a datagram whose sender is not the device endpoint never changes the outcome of an exchange. |
| DeviceProtocol.LateTrafficIgnored | WioLinkCLI/Program.cs:126-127 | Datagrams at or after the 4000 ms deadline never matter: the outcome equals the outcome on the traffic before them. |
| DeviceProtocol.OnlyDeadlineMatters | WioLinkCLI/Program.cs:130-141 | The receiver is armed before the send: arrival times matter only against the deadline, so a reply during the settle interval resolves the exchange like any other in-time reply. |
| DeviceProtocol.Exchange | WioLinkCLI/Program.cs:160-175 | Sends the ASCII bytes of the command to the device endpoint at 1000 ms. Ends exactly as `Await` says. |
| DeviceProtocol.Receive | WioLinkCLI/Program.cs:160-169 | The `while (true)` receive loop ends exactly as `Await` says. |
| DeviceProtocol.GetNodeVersion | WioLinkCLI/Program.cs:123-151 | Sends "VERSION". A resolved result is a version that `parse` gave for the payload of an in-time datagram from the device. |
| DeviceProtocol.ConfigureNode | WioLinkCLI/Program.cs:180-205 | Sends the ASCII bytes of the APCFG text with the server field twice. A resolved result is an in-time "ok\r\n" from the device. The address overload (lines 153-178) is the same text with the address printed. |
| DirectoryService.CheckLogin | WioLinkService/WioLinkService.cs:31-40 | Login is accepted iff the body is non-null, `error` is null, and `token` and `user_id` are non-empty. Otherwise the exception carries `error`, or null for a null body. |
| DirectoryService.CheckCreate | WioLinkService/WioLinkService.cs:64-73 | Create is accepted iff the body is non-null, `error` is null, and `node_key` and `node_sn` are non-empty. Otherwise the exception carries `error`. |
| DirectoryService.CheckList | WioLinkService/WioLinkService.cs:87-95 | A listing is accepted iff the body is non-null, `error` is null and `nodes` is non-null, so an accepted listing always has a node list. |
| DirectoryService.CheckResult | WioLinkService/WioLinkService.cs:124-130 | Rename (and delete, lines 143-149) is accepted iff `error` is null and `result` is "ok". Otherwise the message is `error` when present, else `result`. |
| DirectoryService.RequestOf | WioLinkService/WioLinkService.cs:22-28 | Every request goes to `{server}/v1/...`. The endpoints and form fields for login, create, list, rename and delete are as at lines 22-28, 55-61, 84, 115-121 and 135-140. |
| DirectoryService.RequestRoundTrip | WioLinkService/WioLinkService.cs:115-121 | Decoding the request of any operation by URL, verb and field names gives back that operation and its arguments. |
| DirectoryService.RequestsDistinct | WioLinkService/WioLinkService.cs:135-140 | Two different operations never produce the same request. |
| DirectoryService.TokenHeader | WioLinkService/WioLinkService.cs:13-16 | A non-null token gives the header with scheme "token" and that token. A null token gives no header. |
| DirectoryService.DirectoryClient.constructor | WioLinkService/WioLinkService.cs:8-11 | A new client keeps the server URL and has no authorization header. |
| DirectoryService.DirectoryClient.SetToken | WioLinkService/WioLinkService.cs:13-16 | The authorization header becomes the header for the token, or none for null. Only this field changes. |
| DirectoryService.DirectoryClient.Request | WioLinkService/WioLinkService.cs:20-28 | A request the client sends carries its current header and reads back as the requested operation. |
| OperatorPrompt.Classify | WioLinkCLI/Program.cs:215-216 | A null line (end of input) never answers the question. Every answer is a line of at most one character. |
| OperatorPrompt.ConfirmAgrees | WioLinkCLI/Program.cs:207-218 | The question reads only the lines from its starting position on. Consoles that agree there get the same answer. |
| OperatorPrompt.Confirm | WioLinkCLI/Program.cs:207-218 | The question is answered by the first line that is "", "y" or "Y" (retry) or "n" or "N" (abort), and every line before it re-prompts. If the console runs out first, it is asked forever. |
| OperatorPrompt.RetryConfirmation | WioLinkCLI/Program.cs:207-218 | The prompt loop ends exactly as `Confirm` says. |
| Provisioning.ServerField | WioLinkCLI/Program.cs:67-77 | The server field is either the resolved address or the host name. From firmware 1.2 on it is the host name. |
| Provisioning.Attempt | WioLinkCLI/Program.cs:62-79 | One attempt sends VERSION first, at most one APCFG after it, and counts as configured only after an APCFG. |
| Provisioning.DialectChoice | WioLinkCLI/Program.cs:65-77 | An APCFG is sent iff the version came back. Its server field is the first resolved address when the version is below 1.2 and the host name otherwise. The attempt is configured iff that APCFG is acknowledged. |
| Provisioning.AttemptsWellShaped | WioLinkCLI/Program.cs:60-79 | Every attempt of a run has that shape, and every APCFG carries the run's Wi-Fi credentials and node identity. |
| Provisioning.LoopKeepsSent | WioLinkCLI/Program.cs:60-86 | The configure loop (`ConfigureLoop`) makes at least one attempt. It never drops what was sent before it, and it starts with the attempt at its first exchange. |
| Provisioning.LoopAgrees | WioLinkCLI/Program.cs:60-86 | The configure loop depends only on the attempts and on the console lines from its position on. |
| Provisioning.AttemptsCounted | WioLinkCLI/Program.cs:60-86 | Each attempt of the configure loop, the first and each one a "yes" allows, sends exactly one more VERSION and at most one more APCFG. |
| Provisioning.TwoRetriesSendThreeApcfg | WioLinkCLI/Program.cs:60-86 | Two configure timeouts answered "y" and "y", then an acknowledged attempt: the phase ends configured after three attempts, with three VERSION and three APCFG. |
| Provisioning.ConfiguredEndsWithApcfg | WioLinkCLI/Program.cs:70-79 | A configure phase that succeeds ends with the acknowledged APCFG for the run's setup. |
| Provisioning.FirstWithSerial | WioLinkCLI/Program.cs:97 | The first node carrying the serial, or none when no node carries it. |
| Provisioning.SightMeaning | WioLinkCLI/Program.cs:96-100 | What one listing says (`Sight`). It sees the node online iff the listing is accepted and the first node carrying the serial is online. It misses the node iff the listing is accepted and no node carries the serial. It is an error iff the listing is rejected, with the rejection's message. |
| Provisioning.PollStopsAtFirstOnline | WioLinkCLI/Program.cs:94-103 | The poll (`PollFrom`) lists at most 60 times, and every listing but the last saw the node offline. It stops at the first listing that sees it online, fails on a rejected listing or a missing serial, and gives up only after 60 offline listings. |
| Provisioning.AfterConfigureOutcome | WioLinkCLI/Program.cs:94-111 | After a poll that saw the node online or gave up, the run lists, then renames with the session header, and is done iff the rename is accepted. A failed poll never ends done. |
| Provisioning.DoneIff | WioLinkCLI/Program.cs:36-112 | A run (`Provision`) is done iff all of these hold: the server name resolved; login and registration were accepted; the device acknowledged an APCFG; the poll saw the node online or used up its 60 listings; and the rename was accepted. |
| Provisioning.EnterLineIgnored | WioLinkCLI/Program.cs:56-57 | The line read at the first ENTER checkpoint is discarded. Whatever the operator types there, the run is the same. |
| Provisioning.PhasesInOrder | WioLinkCLI/Program.cs:36-112 | A run never returns to an earlier phase: login, registration, datagrams, listings, rename. It logs in and registers at most once, lists at most 60 times, renames at most once and never deletes. |
| Provisioning.TokenOnLaterCalls | WioLinkCLI/Program.cs:45-52 | Login goes out without a header. Every later directory call carries the "token" header for the token that login returned. |
| Provisioning.AbortStopsBeforePoll | WioLinkCLI/Program.cs:81-86 | A run that ends on "no" to the retry question, or at end of input there, has just sent a datagram and never lists or renames. |
| Provisioning.DoneMeansRenamed | WioLinkCLI/Program.cs:104-111 | A successful run had login, registration and rename accepted. It ends with a listing and the rename of the registered serial to the requested name. Its last datagram is an APCFG for that node. |
| Provisioning.PollExhaustionStillRenames | WioLinkCLI/Program.cs:94-108 | 60 offline listings do not fail the run: the 60 listings are followed by the rename, and the run is done iff the rename is accepted. |
| Provisioning.TryConfigure | WioLinkCLI/Program.cs:62-79 | The body of the loop's `try` computes exactly `Attempt`. |
| Provisioning.Configure | WioLinkCLI/Program.cs:60-86 | The `while (true)` retry loop computes exactly `ConfigureLoop`. |
| Provisioning.AwaitOnline | WioLinkCLI/Program.cs:94-103 | The `for` poll loop computes exactly `PollFrom`. It makes one listing call with the client's header per iteration. |
| Provisioning.Finish | WioLinkCLI/Program.cs:88-111 | The poll and the rename compute exactly `AfterConfigure`. |
| Provisioning.RunProvisioning | WioLinkCLI/Program.cs:36-112 | The imperative workflow, with the client object and its `SetToken`, computes exactly `Provision`. |

## Left out

- Sockets, `Task.Run`, `Task.Delay` and `CancellationTokenSource` are not modelled. An exchange is a deterministic walk over datagrams stamped with their arrival time. The deadline is 4000 ms and the send time is 1000 ms. Releasing the socket is not modelled.
- `HttpClient` transport and JSON decoding are not modelled. Responses are given as decoded records, with `None` for a body that decodes to null.
- DNS resolution is an input list of address texts. An empty list, or a failed lookup, ends the run before login (`NoServerAddress`); the code throws there.
- Console output, the warning for old firmware and the progress text are left out. The console input is a sequence of optional lines, where `None` is null.
- `double.TryParse` is a parameter `parse: string -> Option<real>`. The code uses the current culture, so nothing is claimed about how a number is written. Versions are `real`, and only the comparison with 1.2 is used.
- The one-second pauses between listings are left out. They do not change what is sent or decided.
- Null elements inside a node list are not modelled.
- Exceptions other than the configure timeout are not modelled: sockets, HTTP and malformed JSON.
- `Main` and command-line parsing are not modelled. `Main` discards the `int` that `RunProvisioning` returns, so no exit-code contract exists.
- Absent optional passwords are modelled as "". Both string interpolation and the form encoder render null that way.
- `DeleteNodeAsync` is covered only through its request and its acceptance check (`CheckResult`). The workflow never calls it.
- A version reply that does not parse is skipped, and the receive loop goes on. It does not fail the phase.
- A listing that lacks the serial makes `.First()` throw, so the run fails (`SerialNotListed`). The "unknown" branch at `WioLinkCLI/Program.cs:99` is unreachable, because an accepted listing always has a node list.
- Replies are decoded with `Encoding.UTF8.GetString` (`WioLinkCLI/Program.cs:135`, 165 and 192). The model receives reply payloads as already-decoded text, so malformed UTF-8 is not modelled.
- A run's trace records each datagram as its command. The bytes of that datagram are the ASCII encoding of the command's text, as `Exchange` states.
- Input that ends at the retry question makes the code re-prompt forever. The model records this as the outcome `AwaitingAnswer` rather than a run that does not terminate.
- Provisioning.AttemptsCounted bounds the number of APCFG datagrams rather than stating it exactly: an attempt whose version query timed out sends no APCFG.
