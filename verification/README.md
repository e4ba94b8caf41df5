# A model of the fledge-south-tase2 plugin

The plugin connects Fledge to a TASE.2 server over one of several redundant connections, polls points, receives
reports and sends control operations. This project models the four parts of it that its own code decides, in Dafny
4.11, and proves what they keep. `dafny verify dfyconfig.toml` checks all of it.

## The parts

**Redundant connections** (`Connection`, `Redundancy`, `PollRate`, `LiveLink`, `LostLink`, `Shutdown`, `Monitor`). A
connection is a class with the fields that its thread updates; each method is proved against a function on the value of
those fields, and a ledger records every handle the library has given out and taken back. The whole client is a
transition system: one monitor, any number of connections, a clock and a request to stop, interleaved in any order.
Everything the outside decides (whether an endpoint is up, how far the preparation of an attempt gets, whether its start
is accepted, how much time passes) is part of the event, so a step is a function and a run is a sequence of events. One
turn of a connection thread, one look of the monitor at a connection, one look at the clock together with the
`Disconnect` it may lead to, and one `Connect` together with the assignment of the active connection are each one step;
the code does not lock all of these, so this is an assumption. Between the look at a connection and the look at the
clock the other threads may run. `Monitor` is the monitor loop on the objects themselves. What the other threads do
during each sleep and between the steps of an attempt, a request to stop included, is a parameter; the loop is proved to
be a run of the transition system.

The uninitialised `error` at src/tase2_client_connection.cpp:285 and the uninitialised client pointer are part of the
model: the first is the field `startOk` of an observation, the second the session `Uninitialised`.

**OSI selectors** (`Numerals`, `OsiSelector`). `strtok_r` and `std::stoul` follow sections 7.24.5.8 and 7.22.1.4 of ISO
C11. The parser works in place on an array of characters and fills an array of bytes. A token counts as hexadecimal only
if it starts with a lower-case `0x`; characters behind the digits are ignored, so `12abc` is 12, `0x` is 0 and `0X1F` is
0.

**Type check** (`Json`, `TypeCheck`). The traversal with an explicit stack is proved to agree with a structural
recursion and with a definition by places. The table of expected types lists nested parameters such as `port`, but the
path of a nested value contains a dot or a bracket and matches no entry, so those are never checked; only members at the
first level are, and what stands below members with empty names.

**Configuration and data path** (`Exchange`, `ConnectionList`, `TransferSets`, `ClientConfig`, `ProtocolDocument`,
`DataPath`, `ControlCalls`, `Plugin`). The indices over the exchanged points, their import, the list of connections with
their OSI sections, the datasets that take points out of polling, the transfer sets and the TLS configuration, polling
itself, reports, and control operations with their acknowledgements. `ProtocolDocument` writes configurations out as
documents and proves that the import reads back what was written; `ControlCalls` does the same for the parameters of an
operation. No entry of a `protocols` array is passed over for its protocol name; the code defines the name `tase2` but
does not compare with it.

## Where the code does less than one would expect

Each of these has a condition that decides when it happens, and a concrete run or document.

- After a lost link the monitor can fail over only if the restart of the lost connection gets both of its handles and
  is accepted, or if it is just then between its look at the connection and its check of the clock
  (`LostLink.RestartDecidesFailover`). Otherwise a failed restart leaves the connection in its fatal state with
  `m_connected` still true, and no other connection is ever tried (`LostLink.FailedRestartIsForever`; the run is
  `LostLink.StuckClientIsReachable`). The exception happens, too (`LostLink.FailoverDespiteFailedRestart`).
- A connection that comes up between a look and a late check of the clock is disconnected all the same
  (`LostLink.LateCheckGivesUp`, with the state in `LostLink.LostBetweenTheLooks`).
- A control operation may come before the active connection has a session. It has one exactly if the thread runs and an
  attempt is under way or the connection is up (`Redundancy.OperationsHaveASessionExactly`; the run is
  `Redundancy.OperationBeforeTheFirstSession`).
- In a round of polling a failed read shifts the labels of all values behind it
  (`DataPath.PairingFailsAfterAFailedRead`, with an imported document and a round in `DataPath.MispairedRound`). A
  configuration is safe from this exactly when all of its polled points have the same label
  (`DataPath.AlwaysPairedRightExactly`).
- An acknowledgement names the domain of its operation exactly when that domain has no colon
  (`DataPath.AcknowledgementNamesItsPoint`, with an imported point and a call in `DataPath.MisnamedAcknowledgement`).
- One connection whose OSI section is refused keeps the datasets, the polling interval and the time limit of the
  protocol configuration out, while the connections before it stay (`ClientConfig.RefusedConnectionEndsTheImport`, with
  a document in `ClientConfig.RefusedConnectionLosesTheDatasets`).

## Model

| member | source | states |
|---|---|---|
| `Connection.ClientConnection.RunThread` | src/tase2_client_connection.cpp:259-404 | one turn of the thread changes the fields exactly as `ThreadStep` says, for every answer of the library, and keeps the invariant and the spacing of the polls |
| `Connection.ClientConnection.RunIdle` | src/tase2_client_connection.cpp:272-326 | an idle turn prepares an attempt, sets its deadline, ends connecting exactly if both handles are there and the start is accepted, otherwise fatal, and keeps the invariant |
| `Connection.ClientConnection.PrepareConnection` | src/tase2_client_connection.cpp:676-702 | which handles an attempt creates, that it succeeds only with both, and that the ledger balances |
| `Connection.ClientConnection.CleanUp` | src/tase2_client_connection.cpp:452-464 | the session and the endpoint are destroyed only together, and only if there is an endpoint; nothing is held afterwards and the ledger balances |
| `Connection.ClientConnection.Disconnect` | src/tase2_client_connection.cpp:704-712 | every flag is cleared, everything held is given back once, and the connection is clean |
| `Connection.ClientConnection.ExecutePeriodicTasks` | src/tase2_client_connection.cpp:247-257 | a poll happens exactly when the interval is positive and has elapsed; polls stay an interval apart and none is due afterwards |
| `Connection.ThreadStepKeepsInv` | src/tase2_client_connection.cpp:264-404 | no step of the thread breaks the flags, handles and ledger of a connection |
| `Redundancy.StepKeepsInv` | src/tase2_client.cpp:207-285 | no step of the monitor, of any connection or of the outside breaks the invariant of the whole client |
| `Redundancy.RunKeepsInv` | src/tase2_client.cpp:207-285 | nor does any sequence of them |
| `Redundancy.OnlyActiveHolds` | src/tase2_client.cpp:224-276 | in every reachable state all connections but the active one are clean, so at most one endpoint exists |
| `Redundancy.FlagsFollowPhase` | src/tase2_client_connection.cpp:264-399 | in every reachable state the flags follow the phase, a connected or connecting connection holds both handles, and two phases are never entered |
| `Redundancy.HandlesConserved` | src/tase2_client_connection.cpp:424-471 | every endpoint and session ever made was destroyed exactly once or is the one held; no uninitialised pointer is destroyed; after the end of the thread nothing is held |
| `Redundancy.PollsReadTheirOwn` | src/tase2_client_connection.cpp:360-373 | every round of polling is read from the connection that asked for it, over an open session |
| `Redundancy.OperationsHaveASessionExactly` | src/tase2_client.cpp:303-307 | in every reachable state the active connection has an open session if and only if its thread runs and it is connected or an attempt is under way |
| `Redundancy.OperationBeforeTheFirstSession` | src/tase2_client.cpp:237-239 | a run from the start to an active connection whose session pointer was never set |
| `PollRate.PollsAreSpaced` | src/tase2_client_connection.cpp:247-257 | on every run successive polls are an interval apart across reconnects, no window holds more than fit, and an interval of zero never polls |
| `PollRate.DuePollHappens` | src/tase2_client_connection.cpp:360-373 | a connected step with a live link polls exactly when an interval has passed since the last poll |
| `LiveLink.PhaseAfterStep` | src/tase2_client_connection.cpp:264-399 | where a step leads from each phase, for every answer of the library, and which flags it leaves |
| `LiveLink.HandlesOfAnAttempt` | src/tase2_client_connection.cpp:283-294 | which handles an attempt makes and holds, in which order, and its deadline 10000 ms later |
| `LiveLink.LiveLinkStays` | src/tase2_client_connection.cpp:360-373 | a step with a live link changes nothing but the record of the polls |
| `LiveLink.HandlesGoBackExactly` | src/tase2_client_connection.cpp:350-403 | a step gives a handle back if and only if the connection holds an endpoint and its link is down, its attempt has run out of time, its thread was told to stop, or a check of the clock by the monitor is late; only then does the connected phase end |
| `LiveLink.LiveLinkIsKept` | src/tase2_client_connection.cpp:360-373 | over any run without a stop and without a late check of the clock, a connection whose link is up stays active over the same endpoint and session |
| `LostLink.LostLinkWaits` | src/tase2_client_connection.cpp:283-373 | until a step comes after the deadline of the restart, or a check of the clock after the time of the connection, the monitor keeps the lost connection, wherever it is in its loop |
| `LostLink.LostLinkIsKeptExactly` | src/tase2_client.cpp:251-261 | before that deadline the lost connection stays active throughout if and only if the monitor is not about to find, at a check of the clock still to come, that its time is over |
| `LostLink.LateCheckGivesUp` | src/tase2_client.cpp:253-259 | a late check gives up a connection that has come up since the last look |
| `LostLink.LostBetweenTheLooks` | src/tase2_client.cpp:251-254 | a run from the start to a lost link between the two looks |
| `LostLink.LostLinkIsGivenUp` | src/tase2_client.cpp:228-241 | the first step after the deadline cleans the connection, and a monitor that has looked since then starts its next round at the first connection |
| `LostLink.LostLinkIsGivenUpInTime` | src/tase2_client_connection.cpp:350-358 | if the thread steps once a period this happens within 10000 ms and three periods of the loss |
| `LostLink.FailedRestartIsForever` | src/tase2_client_connection.cpp:304-325 | after a failed restart of a lost connection no run without a stop and without a late check of the clock changes any connection |
| `LostLink.RestartDecidesFailover` | src/tase2_client.cpp:228-229 | wherever the monitor is after a lost link: another connection can ever become the active one if and only if the restart got both handles and was accepted, or a check of the clock is still to come |
| `LostLink.FailoverDespiteFailedRestart` | src/tase2_client.cpp:251-254 | a run from the start in which the restart fails and the monitor fails over |
| `LostLink.StuckClientIsReachable` | src/tase2_client_connection.cpp:272-325 | a run from the start, for any settings and number of connections, to a lost link whose restart fails, after which nothing moves without a stop |
| `Shutdown.ShutdownEnds` | src/tase2_client.cpp:224-284 | from every reachable state, enough rounds of steps after a request to stop end the client with no thread running and nothing held, however they are interleaved |
| `Shutdown.RoundLowers` | src/tase2_client.cpp:224-284 | every such round (time for a wait to run out, two steps of the monitor, one of each thread) lowers a rank |
| `Shutdown.RunEnding` | src/tase2_client.cpp:224-284 | no step after a request to stop ever raises that rank |
| `Shutdown.RankIsBounded` | src/tase2_client.cpp:224-284 | the rank is bounded by the number of connections alone |
| `Shutdown.NoEndWithoutStop` | src/tase2_client.cpp:207-285 | without a request to stop every started thread keeps running |
| `Shutdown.StopBeforeStart` | src/tase2_client.cpp:209-216 | a client that is stopped before it starts never starts a thread |
| `Monitor.RedundantClient.TryConnection` | src/tase2_client.cpp:234-261 | one attempt ends connected at its last look or, after looks in vain and more than the timeout, disconnected; it lasts at most the timeout, one sleep and three pauses, whatever the other threads do meanwhile |
| `Monitor.RedundantClient.ScanAll` | src/tase2_client.cpp:232-267 | the connections are tried in order until one is seen connected; all before it ran out of time and were never seen connected |
| `Monitor.RedundantClient.Round` | src/tase2_client.cpp:228-273 | one round is a run of the transition system, leaves a live connection alone, otherwise finds the first that is seen connected in its time, with no earlier one seen connected at any look, or none after trying all, and waits at most once per connection |
| `Monitor.RedundantClient.Sleep` | src/tase2_client.cpp:260-260 | what the other threads do during a sleep, a request to stop included, is a run of the transition system |
| `Numerals.DigitsRoundTrip` | src/tase2_client_config.cpp:209-209 | printing a number in base ten or sixteen and reading it gives the number |
| `Numerals.DigitsAre` | src/tase2_client_config.cpp:737-737 | exactly which characters are digits of a base, in either case, and what each is worth |
| `Numerals.ValueIsWorth` | src/tase2_client_config.cpp:737-737 | reading digits gives the sum of what each is worth at its place |
| `OsiSelector.TokensAreTheMaximalRuns` | src/tase2_client_config.cpp:713-715 | the tokens are exactly the maximal runs free of delimiters, in order |
| `OsiSelector.NextToken` | src/tase2_client_config.cpp:758-758 | one call finds the first token of what is left and leaves exactly the others; it only overwrites delimiters |
| `OsiSelector.ParseOsiSelector` | src/tase2_client_config.cpp:708-762 | for every text and capacity the result, the error and the whole buffer are those of `ParseSelector` |
| `OsiSelector.ParseOutcome` | src/tase2_client_config.cpp:718-761 | the parser stops at the first token without room or without a byte, with that token's error, and stores all before it |
| `OsiSelector.ParseSucceedsExactly` | src/tase2_client_config.cpp:718-761 | it succeeds exactly when the tokens fit and each denotes a value up to 255, and stores exactly those values |
| `OsiSelector.TokenValueIsPlain` | src/tase2_client_config.cpp:726-754 | no byte is ever read from a wrapped negative number |
| `OsiSelector.NumeralIsRead` | src/tase2_client_config.cpp:726-754 | a number in either base, with leading white space, a plus sign, leading zeros, letters in either case and ignored characters behind it, is read as what its digits are worth, and is a byte up to 255; which error it is above |
| `OsiSelector.NoDigitNoByte` | src/tase2_client_config.cpp:739-743 | a token without a digit where its number should be is no byte |
| `OsiSelector.PrefixAloneIsZero` | src/tase2_client_config.cpp:726-737 | of a hexadecimal prefix without a digit behind it only the zero is read |
| `OsiSelector.ParseJoin` | src/tase2_client_config.cpp:713-761 | two selectors joined by a delimiter parse like one after the other in the room that is left, errors included |
| `OsiSelector.PrintRoundTrip` | src/tase2_client_config.cpp:713-761 | any bytes that fit, each written in any of these ways between any delimiters, are read back unchanged |
| `TypeCheck.TraverseAndCheckTypes` | src/tase2_client_config.cpp:182-226 | the traversal ends and agrees with the structural recursion |
| `TypeCheck.AcceptsExactlyCorrect` | src/tase2_client_config.cpp:133-149 | a document passes exactly when the scalar at every place has the type expected of its path |
| `TypeCheck.WrongTypeExactly` | src/tase2_client_config.cpp:67-149 | for which parameters and values a scalar is of the wrong type, by the names of the parameters |
| `TypeCheck.RejectsExactlyWrongMembers` | src/tase2_client_config.cpp:196-222 | which documents are rejected, for any member names |
| `TypeCheck.RejectsOnlyTheFirstLevel` | src/tase2_client_config.cpp:67-99 | without empty names, only scalars at the first level are ever rejected |
| `Exchange.SplitRejoins` | src/tase2_client_config.cpp:173-180 | a reference with a colon splits into a colon-free domain and a name that rejoin to it |
| `Exchange.ComposeSplits` | src/tase2_client.cpp:295-295 | composing and splitting gives back domain and name if and only if the domain has no colon |
| `Exchange.ComposeIsInjective` | src/tase2_client_config.cpp:381-389 | different points with colon-free domains never share a reference |
| `Exchange.ProtocolsInOrder` | src/tase2_client_config.cpp:815-869 | protocol entries count in order, each on its own, up to the first that aborts |
| `Exchange.PointsInOrder` | src/tase2_client_config.cpp:799-870 | so do the points; those after the first that aborts change nothing |
| `Exchange.IndexKeepsTheLast` | src/tase2_client_config.cpp:856-861 | each index holds exactly the keys it should, each with the last definition of that key |
| `Exchange.LabelsExactly` | src/tase2_client_config.cpp:856-856 | the keys of the index by label are exactly the labels, and each has the last definition with that label |
| `Exchange.RefsExactly` | src/tase2_client_config.cpp:857-857 | the same for references |
| `Exchange.PolledRefsExactly` | src/tase2_client_config.cpp:858-861 | the same for the references of all points that are no commands |
| `Exchange.MalformedEntryAborts` | src/tase2_client_config.cpp:818-832 | a protocol entry without one of its three texts ends the import there |
| `Exchange.UnknownEntryIsSkipped` | src/tase2_client_config.cpp:836-869 | an entry of an unknown type or without a colon in its reference is passed over and changes nothing |
| `Exchange.MalformedPointAborts` | src/tase2_client_config.cpp:802-813 | a point without label or protocols ends the import there |
| `Exchange.IndexAgrees` | src/tase2_client_config.cpp:844-861 | whatever the document, every key agrees with its definition, every reference has a colon and only monitored types are polled |
| `Exchange.PolledAreKnown` | src/tase2_client_config.cpp:857-861 | every polled reference is in the index over references |
| `Exchange.DefinitionsRoundTrip` | src/tase2_client_config.cpp:764-871 | any definitions, written into a document and imported, are the same definitions in the same order |
| `ConnectionList.ImportSelector` | src/tase2_client_config.cpp:605-701 | a selector parameter fills a fresh buffer of its size with exactly what `ParseSelector` stores, or is refused for the same reason |
| `ConnectionList.ImportOsiConfig` | src/tase2_client_config.cpp:515-602 | the parameters of an OSI section, or why the first bad one is refused; it succeeds exactly if every parameter present has the right form |
| `ConnectionList.OsiIsReadExactly` | src/tase2_client_config.cpp:515-701 | a section is accepted exactly when every parameter present has the right form; titles then have digits and dots only and selectors fit |
| `ConnectionList.OsiRoundTrip` | src/tase2_client_config.cpp:515-701 | any sound parameters, written out as a section, are read back unchanged |
| `ConnectionList.ListThrowsExactly` | src/tase2_client_config.cpp:273-322 | reading the list throws exactly if some entry with a valid address and port has a bad OSI section; whatever is stored is sound |
| `ConnectionList.ConnectionsInOrder` | src/tase2_client_config.cpp:273-322 | entries are stored in order, each on its own, up to the first that is refused |
| `ConnectionList.PassedOverExactly` | src/tase2_client_config.cpp:275-294 | an entry is passed over if and only if its address is missing or not valid or its port is out of range |
| `ClientConfig.TASE2ClientConfig.ImportConnections` | src/tase2_client_config.cpp:273-322 | the loop stores exactly the entries before the first refused one and throws its error |
| `ClientConfig.RefusedConnectionEndsTheImport` | src/tase2_client_config.cpp:273-513 | the import throws exactly if the list has a refused entry, and then nothing behind the list has any effect |
| `ClientConfig.RefusedConnectionLosesTheDatasets` | src/tase2_client_config.cpp:302-305 | a document whose dataset and interval are imported without the OSI section of its connection and not with it |
| `ProtocolDocument.ProtocolRoundTrip` | src/tase2_client_config.cpp:228-513 | any connections, numbers, datasets and transfer sets, written into a document, are imported as they are, with the defaults for what is left out |
| `ProtocolDocument.ConnectionRoundTrip` | src/tase2_client_config.cpp:273-322 | a written connection is stored with its own address, port, OSI parameters and TLS flag |
| `ProtocolDocument.DatasetRoundTrip` | src/tase2_client_config.cpp:352-406 | a written dataset is read with its own domain, or `vcc` if it has none, its name, entries and flag |
| `ProtocolDocument.TransferSetRoundTrip` | src/tase2_client_config.cpp:415-506 | a written transfer set is read with every field from its own member |
| `ProtocolDocument.NegativeIntervalEndsTheImport` | src/tase2_client_config.cpp:339-348 | a negative polling interval keeps the interval and both lists out, but not the transport layer |
| `ProtocolDocument.PolledExactly` | src/tase2_client_config.cpp:374-391 | the points left in polling are exactly those imported whose reference is no dataset domain, colon and entry |
| `ProtocolDocument.EntryIsNotPolled` | src/tase2_client_config.cpp:357-391 | in any document, the domain of an accepted dataset, a colon and a text among its entries is not polled |
| `ProtocolDocument.TlsRoundTrip` | src/tase2_client_config.cpp:873-947 | the files a TLS configuration names are those the client has |
| `ClientConfig.TASE2ClientConfig.ImportExchangeConfig` | src/tase2_client_config.cpp:764-871 | the import fills the three indices with the definitions accepted before the first aborting entry |
| `ClientConfig.TASE2ClientConfig.ImportDataset` | src/tase2_client_config.cpp:352-407 | a dataset takes all its points out of polling, and is kept if it is the first of its name |
| `ClientConfig.TASE2ClientConfig.ImportProtocolConfig` | src/tase2_client_config.cpp:228-513 | the effect of the whole protocol configuration on the configuration object, its connections and transfer sets included, and what it throws |
| `TransferSets.InsertKeepsTheFirst` | src/tase2_client_config.cpp:406-406 | under each name is the first entry of that name, for datasets and transfer sets |
| `TransferSets.ImportTransferSet` | src/tase2_client_config.cpp:415-506 | every field of a transfer set; unknown conditions and nameless sets are passed over |
| `ClientConfig.TASE2ClientConfig.ImportTlsConfig` | src/tase2_client_config.cpp:873-947 | the named files are set or appended exactly as listed |
| `ClientConfig.ConfiguredIs` | src/tase2.cpp:9-21 | the polled points are the imported ones minus exactly those covered by any accepted dataset; the indices, datasets, transfer sets and connections are exactly those accepted |
| `ClientConfig.PolledAndReportedAreDisjoint` | src/tase2_client_config.cpp:374-391 | no polled point is covered by a stored dataset |
| `ClientConfig.OnlyFirstLevelTypesStopTheImport` | src/tase2_client_config.cpp:246-249 | a wrong type at the first level keeps the protocol configuration out, a deeper one never does |
| `DataPath.ConfiguredIsSound` | src/tase2.cpp:16-20 | every imported configuration has the key agreement that the data path relies on |
| `DataPath.PointsAreTheAnswers` | src/tase2_client.cpp:427-494 | a round of polling makes one data object for each read that gave a value, naming the point that was read |
| `DataPath.FullRoundPairsRight` | src/tase2_client.cpp:380-394 | if every read gives a value, every reading carries the label of its own point |
| `DataPath.PairingFailsAfterAFailedRead` | src/tase2_client.cpp:433-444 | which reading the value of each point becomes: under its own label if no read before it failed, and if no point before it has the same label only then |
| `DataPath.AlwaysPairedRightExactly` | src/tase2_client.cpp:427-445 | every value is delivered under its own label in every round, whatever reads fail, if and only if all polled points have the same label |
| `DataPath.MispairedRound` | src/tase2_client.cpp:433-444 | an imported document and a round in which a value is delivered under another point's label |
| `DataPath.AcknowledgementsMatch` | src/tase2_client.cpp:287-378 | over any sequence of operations, reports, rounds of polling and failovers the readings grow by exactly one acknowledgement, under the right label, for each call that returned true, one reading for each report of a known point and one for each read that gave a value, if anybody listens; and one request for each call that reaches the device |
| `DataPath.AcknowledgementNamesItsPoint` | src/tase2_client.cpp:309-314 | an acknowledgement names the domain and name of its call if and only if the domain has no colon |
| `ControlCalls.OrderIsCarriedOut` | src/tase2.cpp:92-250 | what a call with these parameters at these places sends, returns and acknowledges, for every kind, value, select flag and answer, with and without a client, a connection, the point or a listener |
| `ControlCalls.OrderThrowsExactly` | src/tase2.cpp:117-117 | a complete call throws if and only if there is a client and its time is no number, and then does nothing |
| `ControlCalls.OtherCallsFail` | src/tase2.cpp:211-250 | every other call returns false and does nothing |
| `DataPath.MisnamedAcknowledgement` | src/tase2_client_config.cpp:173-180 | an imported point and a command that returns true with an acknowledgement of another point |
| `Plugin.TASE2.SetJsonConfig` | src/tase2.cpp:9-21 | a fresh, sound configuration from the three documents replaces the old one; if the protocol configuration throws it stays as it is by then |
| `Plugin.TASE2.HandleAllValues` | src/tase2_client.cpp:427-445 | in whatever order the points are kept, the readings are the data objects paired with the labels by position, and there are never more objects than labels |
| `Plugin.TASE2.HandleValue` | src/tase2_client.cpp:396-425 | a known reference gives exactly one reading under its label, an unknown one none |
| `Plugin.TASE2.Send` | src/tase2_client.cpp:287-378 | which request is sent, what is returned and when it is acknowledged, for all three kinds |
| `Plugin.TASE2.Operation` | src/tase2.cpp:211-250 | the outcome of every call and all it does; it throws only if the time is no number |

## Left out

- The TASE.2 library, sockets, TLS and certificate files: only whether a call succeeds and which handles it makes is kept.
- The vectors of transfer sets and datasets of a connection: cleaning up destroys their elements but does not empty them, so no statement about how often these are destroyed is made.
- Setting the fields of transfer sets on the server (`m_configDsts`): forwarding to the library.
- Which addresses are valid: `inet_pton` is a parameter of the import. The limit of 65636 on ports is the one in the code.
- Text parsing of JSON: a document is a tree. Where the library would stop the program because a value is not of the kind an accessor needs, the model reads it as absent; a member name stops at a null character.
- The three copies of the control operations differ only in the request and the value, and are one method with the kind as a parameter.
- Floating-point values: the value of a real set point is kept as its text. Integer overflow of `atoi` is not modelled.
- Data races inside one step of the transition system, and wrap-around of the millisecond clock.
- The methods that start and stop the plugin and register the callback: they set one field each, and the class takes those fields as they are.
- Logging, asset names of the plugin configuration, quality and time stamp fields of readings.
