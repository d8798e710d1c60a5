# diego-ssh in Dafny

A model of the parts of diego-ssh whose correctness is hardest to see by reading: the scp engine that both
prints and parses file trees over an acknowledged byte protocol, the session channel with its goroutines, the
proxied channel, the accepting server, the terminal mode list and the host key check.

`dafny verify dfyconfig.toml` checks everything.

## How it is organised

The scp engine. A `World` is the unread input, the log of every byte read and written, and the disk.
`Stream`, `Receiver` and `Sender` say what each operation of `scp/` does to a world; `SecureCopy` holds the
engine as it runs, classes whose methods change streams and disk in place, each proved to do exactly that.
What the engine promises is then proved about those functions:

- `Grammar` defines the sentences of the protocol and what they mean for a disk, independently of the parser.
  `Acceptance` and `Soundness` prove that the receiver accepts exactly the sentences and does exactly what they
  mean; `Unambiguity` adds that a stream has one reading and that no strict prefix is accepted.
- `Transmission` proves what the sender writes for every tree and every pattern of nodes that fail to open.
- `Placement` and `RoundTrip` prove that what was sent is what is found on the receiving disk, with the times
  that were announced; `Footprint` says where a sentence writes, whatever names it carries.
- `Causality` proves of both programs, for every input, that they cannot look ahead: the run on a prefix of the
  input is the run on the whole input, up to the first read past that prefix. `Lines`, `Lockstep` and `Duet`
  use this to run sender and receiver against each other over two queues, byte by byte, in any interleaving.

The concurrent parts are step machines. A goroutine is a place in its code; a step takes one goroutine from one
place to the next and changes the shared fields; runs are sequences of steps. `ProxyTeardown`, `Server` and
`SessionTeardown` prove invariants of every step and from them statements about every run. `SessionProcess` adds
the command's process, its terminal and the connection to the session's goroutines. `ClosingOrder` and `Outliving`
settle two questions the code leaves open: which close of a proxied side comes first, and which connections
outlive a shutdown.

`SessionRequests` is the session's request handling as a class over a map of variables that all sessions share;
`SessionHistory` proves what it shows to be a function of what happened, and `CommandEnvironment` what a command
finds in its environment. `RequestRelay`, `TerminalModes` with `SetterTable`, and `HostKey` are loops, tables and
decisions of their own.

Where the code and what one may expect of it differ, the code is followed: a warning acknowledgement is
positive (`scp/session.go:79-84`), errors are reported with the warning byte (`scp/session.go:58`), a directory is
never chmod-ed (`scp/directory.go:63`), a time record on top is accepted without the preserve flag
(`scp/scp.go:139`) and one inside a directory is not (`scp/directory.go:104`).

## Model

| member | source | states |
|---|---|---|
| Numerals.ModeTextRoundTrip | scp/file.go:28-83 | The mode field printed by the sender is read back as the same mode for every 32-bit value, and has four digits up to 07777 |
| Numerals.SizeTextRoundTrip | scp/file.go:28-92 | The size field is read back for every int64 |
| Numerals.TimeTextRoundTrip | scp/time.go:37-96 | The seconds field is read back exactly when it is not negative and rejected otherwise |
| Numerals.NumeralsAreSolid | scp/session.go:98-105 | A numeric field never contains the delimiter that ends it |
| SecureCopy.Session.PeekByte | scp/session.go:127-139 | Reads a byte and puts it back: the input is unchanged |
| SecureCopy.Session.ReadString | scp/session.go:98-105 | Reads up to and including the delimiter, and to the end of input when there is none |
| SecureCopy.Session.SendError | scp/session.go:57-69 | Writes one error record, and nothing else |
| SecureCopy.Session.AwaitConfirmation | scp/session.go:71-96 | Zero and warnings are positive, 2 fails with the peer's message, anything else fails |
| SecureCopy.TimeMessage.Receive | scp/time.go:46-96 | Parses one time record and fills in both times, or fails as Receiver.ReceiveTimes |
| SecureCopy.Copier.ReceiveFile | scp/file.go:59-141 | The whole effect of receiving a file on streams and disk, on success and on every failure |
| SecureCopy.Copier.ReceiveDirectory | scp/directory.go:15-94 | The whole effect of receiving a directory, on success and on every failure |
| SecureCopy.Copier.ProcessDirectoryMessages | scp/directory.go:96-137 | The message loop of a directory does what the recursive description says, and ends on every input |
| SecureCopy.Copier.CopyToTarget | scp/scp.go:104-172 | Target mode of Copy, with its error records |
| SecureCopy.Copier.SendFile | scp/file.go:14-57 | The whole effect of sending a file, with every acknowledgement that may come back |
| SecureCopy.Copier.SendDirectory | scp/directory.go:139-182 | The whole effect of sending a directory; failures of children do not stop it |
| SecureCopy.Copier.Send | scp/scp.go:177-208 | A failed node is reported with one error record and its error returned |
| SecureCopy.Copier.CopyFromSource | scp/scp.go:49-102 | Source mode of Copy: all operands are tried and the last error is returned |
| Acceptance.RecordIsReceived | scp/directory.go:15-137 | Every sentence is accepted where the disk allows it, is consumed exactly, is acknowledged as the grammar says, and means what it says for the disk |
| Acceptance.DirectoryIsReceived | scp/directory.go:15-94 | The same for ReceiveDirectory |
| Acceptance.TransmissionIsReceived | scp/scp.go:130-171 | The same for a whole transmission up to the end of input |
| Soundness.DirectoryWasReceived | scp/directory.go:15-137 | Whenever ReceiveDirectory succeeds, on any input, what it consumed is one sentence that the disk allows |
| Soundness.TransmissionWasReceived | scp/scp.go:130-171 | Whenever target mode succeeds, its input is a sequence of sentences, with at most a lone time record after them |
| Unambiguity.RecordIsUnique | scp/directory.go:15-137 | A stream begins with at most one sentence, and the rest after it is determined |
| Unambiguity.ReceivesExactlySentences | scp/directory.go:15-137 | ReceiveDirectory succeeds if and only if its input begins with a sentence the disk allows, and then its result is the meaning of that sentence |
| Unambiguity.StrictPrefixesAreRefused | scp/directory.go:15-137 | A sentence cut short anywhere is refused, on every disk |
| Transmission.NodeIsSaid | scp/scp.go:177-208 | With positive acknowledgements, warnings among them or not, a node succeeds or fails as its own verdict says, taking exactly its own acknowledgements |
| Transmission.NodeIsWritten | scp/directory.go:139-182 | What a node adds to stdout is its transcript, whatever the acknowledgements say: header, each child's transcript or one error record in order, end line |
| Transmission.SourceModeUnderFailures | scp/scp.go:64-101 | Whatever nodes fail and whatever warnings come back, source mode writes the operands' texts in order and returns the last operand failure, or nil exactly when there was none |
| Placement.EntryIsPlaced | scp/directory.go:53-86 | After storing an entry the disk carries its contents, modes and, for everything under it, exactly the announced times; outside it only the parent changes |
| Placement.EntriesArePlaced | scp/directory.go:96-137 | The same for all entries of a directory: later siblings disturb no earlier one |
| Placement.EntryIsAllowed | scp/directory.go:53-86 | An orderly entry can always be stored in a directory where its name is free and no call on it is refused |
| Footprint.StoredStaysBelow | scp/directory.go:53-86 | Whatever names a sentence carries, dots and slashes included: what is new on the disk is below a root if and only if each place of the sentence that was free is; and if all its places are, nothing beyond the root is touched |
| Footprint.ReceivedStaysBelow | scp/directory.go:15-137 | The same for every file or directory that was received, from whatever input |
| Footprint.TransmissionStaysBelow | scp/scp.go:130-171 | The same for every input that target mode accepts |
| Footprint.InwardExactly | scp/directory.go:51-55 | A name leads to or below whatever directory it is joined to if and only if its components never climb above where they began |
| Footprint.InwardStaysBelow | scp/directory.go:53-86 | A sentence all of whose names are like that is placed at or below the path it is received at |
| Footprint.EscapingFile | scp/file.go:99-107 | A file named "../x" is stored beside the directory it is received into |
| RoundTrip.TranscriptIsSentence | scp/directory.go:139-182 | What the sender prints for a sound tree is one sentence of the receiver's grammar |
| RoundTrip.TreeRoundTrip | scp/directory.go:15-182 | What was sent is received in full, nothing after it is touched, and names, nesting, contents, modes and times are recreated |
| RoundTrip.CommandRoundTrip | scp/scp.go:48-175 | The same for all sources of a command, received in target mode |
| RoundTrip.TimeRecordRoundTrip | scp/time.go:37-96 | A time record is accepted if and only if neither time is negative, and then gives both times back and consumes just itself |
| Causality.TargetCopyCausal | scp/scp.go:104-172 | Feeding target mode more input changes nothing before its first read past the old input, and nothing at all when there was none |
| Causality.SourceCopyCausal | scp/scp.go:49-102 | The same for source mode and its acknowledgements |
| Lockstep.SenderWaits | scp/scp.go:49-102 | After k acknowledgements the sender has written exactly k lines of its script and waits |
| Lockstep.ReceiverWaits | scp/scp.go:124-171 | After any number of bytes the receiver has acknowledged each whole line among them once, and waits |
| Lockstep.SenderFinishes | scp/scp.go:49-102 | With one acknowledgement more than it has lines the sender ends well, having written its script |
| Lockstep.ReceiverFinishes | scp/scp.go:124-171 | Given the whole script the receiver ends well, with all trees restored |
| Duet.LockstepSafety | scp/scp.go:48-175 | In every reachable state at most one acknowledgement is unread, at most one line is unacknowledged, and the two sides do not both wait |
| Duet.LockstepEnds | scp/scp.go:48-175 | Every run is finite, and a run that cannot go on ended with both sides successful, both queues empty, all acknowledgements read and all trees restored |
| Duet.ConfirmationsPerNode | scp/file.go:28-52 | The acknowledgements of a tree are two for every node, three with times |
| TerminalModes.ModeListRoundTrip | handlers/session_channel_handler.go:484-510 | Decoding an encoded list, an end code and any trailing bytes gives the list back |
| TerminalModes.DecodeTakesTheRun | handlers/session_channel_handler.go:484-510 | The entries acted on are a leading run of the bytes, five each, that stops only where no complete entry starts |
| TerminalModes.DecodeTakesTheLongest | handlers/session_channel_handler.go:484-510 | No longer run of entries begins the bytes |
| TerminalModes.Terminal.SetTerminalAttributes | handlers/session_channel_handler.go:484-535 | The loop ends on every byte string, and the attributes become those of the entries whose reads and writes succeeded, applied in order |
| TerminalModes.AllReach | handlers/session_channel_handler.go:512-533 | When all reads and writes succeed that is every entry |
| TerminalModes.FlagsLastValueWins | termcodes/termcodes.go:105-148 | Every single bit of every register is what the last entry that decides it says, and otherwise unchanged |
| TerminalModes.FlagFollowsOpcode | termcodes/termcodes.go:105-148 | A flag with an opcode of its own is set if and only if the last value for that opcode was not zero |
| TerminalModes.CharactersLastValueWins | termcodes/termcodes.go:100-103 | Every control character is its last value modulo 256, and otherwise unchanged |
| TerminalModes.SizeLastWins | termcodes/termcodes.go:133-148 | The character size field is the last of CS7 and CS8, whatever the value sent with it |
| TerminalModes.LastValuesAreTheState | handlers/session_channel_handler.go:512-533 | The refinement as an equality: a state is the result of the setters if and only if each of its bits and characters is its last value, or what it was |
| SetterTable.TableIsGood | termcodes/termcodes.go:26-92 | The daemon's own table, on any platform with regular constants, meets what the results above ask of a table |
| SetterTable.TableOwnsFlags | termcodes/termcodes.go:26-92 | In that table every flag but the two sizes has an opcode of its own |
| SetterTable.TableLastValueWins | termcodes/termcodes.go:26-148 | So with that table each flag is set if and only if the last value for its opcode was not zero |
| SetterTable.TableLastSizeWins | termcodes/termcodes.go:26-148 | And the character size field is the mask of the last size code in the list, or as it was |
| SetterTable.LinuxIsRegular | termcodes/termcodes.go:26-92 | The constants of Linux meet the conditions asked of a platform |
| HostKey.FingerprintLength | helpers/fingerprint.go:12-27 | A rendering has three characters for each byte less one, so 47 and 59 for the two digests |
| HostKey.FingerprintInjective | helpers/fingerprint.go:15-27 | Different digests have different renderings |
| HostKey.AcceptsExactlyTheFingerprints | proxy/proxy.go:318-338 | Choosing the digest by the length of the expectation accepts exactly the two renderings |
| RequestRelay.ProxyRequests | proxy/proxy.go:228-260 | Tries, in order and unchanged, exactly the requests up to the first exit status that got through, and gives the answers due |
| RequestRelay.ProxyGlobalRequests | proxy/proxy.go:140-163 | The same without a cut, passing the far end's payloads back |
| RequestRelay.DueAreAnswered | proxy/proxy.go:246-254 | The requests answered are exactly those that want a reply and got through |
| RequestRelay.AnswersKeepOrder | proxy/proxy.go:246-254 | Each is answered once, in order, with the far end's verdict |
| ProxyTeardown.TeardownSafety | proxy/proxy.go:205-260 | In every interleaving, on each side: a half-close or close comes at most once and only after both copies ended and all that was read was written unless a write failed; nothing is copied after it; requests go out in order, none after an exit status that got through or after the close, and the close only after the relay stopped |
| ProxyTeardown.StepKeepsConsistent | helpers/copy.go:10-25 | Every step keeps the wait group equal to the number of unreleased copiers, and each goroutine's place in agreement with the history |
| ProxyTeardown.ClosedIsDelivered | proxy/proxy.go:211-238 | Once a side is half-closed or closed, what was delivered then is all that was ever read |
| ProxyTeardown.TeardownEnds | proxy/proxy.go:205-260 | A run has at most two steps for each chunk read, one for each request and eighteen more, and one that cannot go on has half-closed and closed both sides |
| ClosingOrder.OrderIsOpen | proxy/proxy.go:211-238 | For all requests, in every reachable state and on both sides: the close can still come before the half-close, or the half-close before the close, if and only if it already has or the other has not been done |
| Server.CountIsConnections | server/server.go:136-148 | Whenever the connections' mutex is free the wait group equals the number of tracked connections, and it is never negative |
| Server.SweepHappensOnce | server/server.go:72-82 | The sweep runs at most once, closes nothing but what it set out to close, and all of that once it is over |
| Server.SweepCoversTracked | server/server.go:77-80 | What the sweep sets out to close is what is tracked at that moment |
| Server.StoppingIsForGood | server/server.go:72-91 | Over every run, stopping, the sweep and the closed connections are never taken back |
| Server.WaitPassesAtZero | server/server.go:84-84 | A shutdown passes its wait only at count zero, when every connection of the sweep is closed and gone and at most one, in the middle of its registration, is tracked |
| Server.LockOrder | server/server.go:68-91 | A goroutine that wants the mutex holds neither lock, and the holder of the connections' mutex can always go on |
| Server.NoDeadlock | server/server.go:68-148 | As long as some goroutine has not ended, some goroutine can go on |
| Outliving.NothingOutlives | server/server.go:77-84 | If no connection is between its accept and its registration when the sweep begins, nothing is tracked once that shutdown is over, then or ever |
| Outliving.ArrivalMayOutlive | server/server.go:120-139 | If one is, in whatever state, some continuation ends the shutdown with that connection tracked and open |
| Outliving.OutlivedExactlyByArrivals | server/server.go:77-139 | So a shutdown can be outlived if and only if a connection is arriving as its sweep begins |
| Outliving.ConnectionMayOutliveShutdown | server/server.go:120-139 | A reachable state in which a finished shutdown left a tracked connection open |
| SessionTeardown.DestroyedOnce | handlers/session_channel_handler.go:621-648 | In every reachable state the body of destroy ran at most once and closed channel, pty and stop channel at most once each |
| SessionTeardown.ChannelClosesAtZero | handlers/session_channel_handler.go:633-638 | The channel is closed only while the wait group is zero and nobody is copying output to it |
| SessionTeardown.OneCommandOneExit | handlers/session_channel_handler.go:340-389 | At most one command is created and started; there is one exit message for it if and only if no goroutine is on the way to send one |
| SessionProcess.NoCircularWait | handlers/session_channel_handler.go:577-648 | With the command's process, its terminal and the connection in the model: the holder of the lock can go on, or waits in destroy for the copier from the pty alone; that one can go on, or the command still has the terminal, and then the stop channel is open and the keepalive is alive or has hung the command up |
| SessionProcess.OccurringIsReachable | handlers/session_channel_handler.go:553-612 | Whatever happens with process and connection is a run of the goroutines, so all results about those apply; and the keepalive is tied to its stop channel |
| SessionTeardown.AsideNeedsNoLock | handlers/session_channel_handler.go:577-612 | The copier from the pty and the keepalive neither hold nor want the lock, never come to, and go on whoever holds it |
| SessionTeardown.LeftOpenIfLate | handlers/session_channel_handler.go:379-389 | A complete session has its pty open if and only if it was opened for a command created after that, and its stop channel if and only if that command was started on it |
| SessionTeardown.PtyMayOutliveDestroy | handlers/session_channel_handler.go:379-389 | A reachable state with a pty opened after the session was destroyed |
| SessionRequests.Session.BuildEnvironment | handlers/session_channel_handler.go:391-407 | The loop over the map yields defaults, stored variables in iteration order, then the daemon's HOME and USER |
| SessionRequests.Session.HandleShell | handlers/session_channel_handler.go:340-389 | A second shell is refused; the first is given the environment of that moment, replied to, started, and torn down if that fails |
| SessionRequests.Session.HandleRequest | handlers/session_channel_handler.go:109-364 | The whole effect of any request, malformed or not, in any state |
| SessionRequests.Session.ServiceRequests | handlers/session_channel_handler.go:102-132 | The loop, with writes by other sessions and teardowns between requests, is the fold of what happened, then destroy |
| SessionRequests.StoreElsewhere | handlers/session_channel_handler.go:91-100 | Sessions share the handler's map: what one stores the command of another is given |
| SessionHistory.ReplyDiscipline | handlers/session_channel_handler.go:102-364 | From any session state and over every sequence of requests, the replies sent are the replies due, with the verdict that history alone determines |
| SessionHistory.RepliesAreDue | handlers/session_channel_handler.go:102-364 | The replies due are one for each request that wants one, in request order |
| SessionHistory.CommandIsFirstShell | handlers/session_channel_handler.go:379-389 | A command exists if and only if a shell was asked for |
| SessionHistory.VariablesAreLastStored | handlers/session_channel_handler.go:150-213 | Every variable has the value last stored, by this session or another |
| CommandEnvironment.ListingLookup | handlers/session_channel_handler.go:391-407 | For every map, every order of iteration and every name: the daemon's HOME and USER, else what the last variable that speaks for the name says, else the default |
| CommandEnvironment.ReadsAsStoredExactly | handlers/session_channel_handler.go:391-407 | A name reads as what is stored under it in every order of iteration if and only if it is HOME or USER or every stored name that goes on from it with an equals sign says the same |
| CommandEnvironment.PlainNamesAreUnmistaken | handlers/session_channel_handler.go:397-401 | Names stored without equals signs always meet that condition |
| CommandEnvironment.CommandSees | handlers/session_channel_handler.go:379-407 | Over every history, what a command finds under a name is determined by what was stored before it was created and the order of iteration |
| CommandEnvironment.CommandSeesExactly | handlers/session_channel_handler.go:379-407 | However maps are iterated, a command finds what was last stored under a name before it was created, if and only if the longer names that speak for it said the same by then |
| SessionHistory.WantedIsKept | handlers/session_channel_handler.go:208-246 | The remembered size is that of the last pty request, or window change after one |
| SessionHistory.TerminalFollowsRequests | handlers/session_channel_handler.go:243-253 | An open pty has the size wanted when it was opened, then that of each later window change, modulo 2^16 |

## Left out

- Errors of writes to stdout and of log calls: the scp engine's writes succeed.
- The wording of error messages: `err.Error()` is a parameter of every theorem, so they hold for any wording.
- The format-string use of a peer's warning on stderr (`scp/session.go:84`): the text is logged as received.
- Permission checks, links and special files: the disk has files and directories, and a set of paths that refuse calls.
- Times beyond whole seconds, and the overflow of nanosecond counts inside `os.Chtimes`.
- Flag parsing, globbing and shell word splitting: operands are taken as found.
- A file that changes while it is sent: a source is a value, whose content may be shorter than its announced size.
- The wire codec of SSH requests: payloads come decoded, or as malformed.
- The platform's masks and character indices: parameters, distinct single bits where that matters.
- The system calls of pty, exec, ioctl and signals: outcomes that may go either way.
- Footprint.ReceivedStaysBelow: speaks of receives that succeed; where one that fails has written by then is left open.
- Footprint.StoredStaysBelow: for nodes that were there before, the condition is sufficient only, since a file or directory met beyond the root may be left as it was.
- The text of exit messages (`handlers/session_channel_handler.go:420-474`): counted, not modelled.
- The sessions' unsynchronised access to the shared map: writes by others happen between two requests.
- The copiers towards a command's input: they hold no lock and count in no wait group.
- What one side's close does to reads from the other channel: a copier may stop reading at any time, which covers it.
- The direct-tcpip handler: a smaller instance of the proxied channel.
- SetListener and a shutdown before a listener is set: the server starts with its listener.
- Authenticators, permissions, routes, configuration, the sftp server, the SSH handshake and the main programs.
