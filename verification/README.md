# AXE Voice: a verified model of its protocol cores

AXE Voice is a Windows softphone. This project models the parts of it that decide what
may be shown, sent and stored, and proves what they promise. It is checked with Dafny
4.11: `dafny verify dfyconfig.toml`.

Each component is modelled twice. A specification describes one step on plain values:
a transition table, a grammar, a bounded list, one atomic step of a protocol. The code
is a class or method in the shape of the original, with its fields, loops and early
returns, whose contract equates its new state and its results with that step. The
properties are lemmas about the specification, over all inputs and all runs; what an
operation does is among them, stated without naming the step itself.

**Native events, from callback to screen**

| module | models |
|---|---|
| `CallbackLifecycle`, `CallbackRaces` | the fence, leases and generations; then any number of callback threads racing one manager, with every locked body one atomic step |
| `EventAdapter` | SDK events of one user agent, with arbitrary pointers and answers |
| `CallbackIngress`, `EventMailbox` | sessions, tokens and the bounded queue that drops everything on overflow |
| `SipRuntime`, `EventReducer`, `EventIdentity`, `EventProjection` | the observation, the two reducers and the two projections |
| `NativeSessionControl`, `NativeAdmissions` | the owner's view and its commands, over its whole life |
| `EventPipeline`, `EventScreen` | all stages run together; and what the screen shows, told from the SDK's events alone |

**Commands**

| module | models |
|---|---|
| `SipCommandExecutor`, `SipCommandCalls` | authorization, at-most-once native calls, fencing, clocks; which call is made, when, and how long it is awaited |
| `RegistrationQueue`, `RegistrationGateway`, `RegistrationDispatcher`, `RegistrationTick` | registration requests; the tick as a machine that can be interrupted between any two of its steps; the tick as code under any such schedule |
| `RegistrationWaits` | what becomes of a request, from the queue to the end of its wait |
| `CtiRequests`, `CtiLedger`, `CtiFeed` | the local request queue; the unbounded ledger it shows the end of; what its clients can rely on |

**Data and grammars**

| module | models |
|---|---|
| `ContactBook`, `ContactDirectory` | the contact book; and the map it stands for |
| `Utf8`, `BackupParser`, `ContactBackup` | its JSON printer and recursive-descent parser |
| `BackupGrammar`, `BackupReading` | the texts a backup may be, as syntax trees; and that the parser reads exactly those |
| `SipHost`, `SipAddress`, `SipRefusals` | the grammar of destinations, and what each refusal means |
| `NativeDestination`, `NativeRouting` | the two independent URI checks; and where an accepted destination goes |
| `RecentDestinations`, `RecentUse` | the in-place list of recent destinations; and where its entries come from |
| `WindowsQuote` | argument quoting against the C runtime's reading rule |

The main results, in the words of the lemmas that state them: `RevokeFinishes` and
`RevokeReturnsQuiet` (shutdown cannot hang and leaves nobody inside),
`ShownStatusIsWhatWasSaid` and `CommandsFollowTheStory` (the screen shows, and commands
follow, what the SDK said), `ShownCallIsTheAdapters` (every layer's copy of "the active
call" agrees), `CancelIsNeverLost`, `UnconfirmedRegistrationExpires`,
`CallIsMadeExactlyWhen`, `NothingIsSentTwice` with `ChangeBetweenCalls`,
`NothingAfterAFence`, `UnansweredCallTimesOut`, `RunRefines`, `GetTellsTheHistory`,
`PollingReconstructsTheLog`, `KeyNamesOneRequest`, `ReachableBooksRoundTrip`,
`RestoredExactlyWhenSpelled`, `BooksAreDirectories`, `DecodeIsRfc3629`,
`NumberIsRouted`, `AcceptedCallsAreTransferable`, `QuoteRoundTrip` and
`RunShowsHistory`.

Counters of the original are 64 bits wide (`U64`). Where it lets one wrap, the model
wraps it (`Next64`, `Sub64`); everywhere else staying in range is proved. `wchar_t` is
the 16-bit unit of Windows. Pointers and `uintptr_t` identities are numbers, 0 being
null. Clocks, answers of the SDK and of the native side, file bytes and the locale's
classes outside ASCII are parameters and therefore arbitrary.

## Where a promise does not hold everywhere

The model follows the code. Where a natural reading of its promises fails, the input is
a lemma, next to the exact condition under which the promise holds.

- A page of request events without a gap is complete, except behind a clear after which
  nothing changed, and past the ceiling of the sequence: fails at
  `CtiFeed.ClearHidesChanges`, holds exactly as in `CtiFeed.SilentLossExactlyWhen`.
- Where a drain cuts an unconfirmed registration's events can show: fails at
  `NativeSessionControl.UnconfirmedCutShows`, holds exactly as in
  `NativeSessionControl.UnconfirmedCutsAgreeExactlyWhen`.
- A rejected session is remembered per mode, so naming an account for the first time
  can bring it back: fails at `EventProjection.SwitchForgetsRejection`, holds exactly as
  in `EventProjection.NamingRevivesExactlyWhen` for one observation and
  `EventProjection.RejectedReappearsExactlyWhen` for any run. The program's own owner
  only uses the observation without an account (`src/native_session_control.h:57-71`),
  and there no rejected session comes back
  (`EventProjection.WithoutAccountsNothingReappears`).
- A transfer URI with a transport parameter is not itself a callable destination: fails
  at `NativeDestination.ParameterIsNotCallable`, holds exactly as in
  `NativeDestination.TransferUriIsCallable`.
- An address without a scheme but with a port is refused as an invalid scheme, since the
  first colon anywhere is read as the scheme's (`src/sip_address.cpp:12-15`): fails at
  `SipAddress.PortWithoutSchemeIsRefused` and for every such address
  (`SipAddress.UnschemedPortIsRefused`); what is accepted is exactly
  `SipAddress.AcceptedIffGrammar`.
- `docs/BARESIP-SDK-EVENT-ADAPTER.md` says in its section on v0.41 that
  `BEVENT_SIPSESS_FAILED` revokes the session; the code, like the later section on
  v0.48, ignores that event (`src/baresip_sdk_event_adapter.h:178-197`).

## Model

| member | source | states |
|---|---|---|
| WindowsQuote.QuoteWindowsArgument | src/windows_argument_quote.h:6-17 | The loop over backslash runs writes the recursive quoting `Quoted(value)`, whose reading back is proved below |
| WindowsQuote.TailRoundTrip | src/windows_argument_quote.h:9-15 | At every point inside the quotes, with any number of pending backslashes, the C runtime rule reads the rest of the quoting back exactly and stops at the closing quote |
| WindowsQuote.QuoteRoundTrip | src/windows_argument_quote.h:6-17 | For every string: parsing its quoting in an argument position yields that string, whatever blank-separated text follows, and leaves that text untouched |
| WindowsQuote.CommandTailRoundTrip | src/windows_process.cpp:145-146 | Any list of quoted arguments after the program name is split into exactly that list |
| WindowsQuote.ProfileOptionRoundTrip | src/windows_process.cpp:146 | The launcher's ` -f ` option is read as two arguments, the switch and the profile path, for every path |
| WindowsQuote.QuotingIsInjective | src/windows_argument_quote.h:6-17 | Two different values never have the same quoting |
| SipHost.ValidSipHost | src/sip_host.h:5-21 | The one-pass automaton accepts exactly the hosts whose dot-separated labels are each 1 to 63 letters, digits or inner hyphens (section 2.1 of RFC 1123), 253 characters in all |
| SipHost.SplitDotsIsSplit | src/sip_host.h:11-13 | The labels are dot-free pieces that join back to the host |
| SipHost.SplitIsUnique | src/sip_host.h:11-13 | No other dot-free pieces join to that host |
| SipHost.HostCharacters | src/sip_host.h:9-20 | An accepted host holds nothing but letters, digits, hyphens and dots |
| SipAddress.FirstOffender | src/sip_address.cpp:8-10 | True exactly when no character is white space or a control |
| SipAddress.ValidPort | src/sip_address.cpp:34-43 | Accepts exactly one to five digits whose value is 1 to 65535 |
| SipAddress.AddressUser | src/sip_address.cpp:18-44 | Refuses and normalises what follows the scheme in the order of the code |
| SipAddress.ValidateAddress | src/sip_address.cpp:6-45 | Computes the ordered checks `Address`, whose accepted texts are the grammar below |
| SipAddress.GrammarIsAccepted | src/sip_address.cpp:6-45 | Every scheme, user, host and port that fit the grammar are accepted; only a missing scheme is added |
| SipAddress.AcceptedHasParts | src/sip_address.cpp:12-44 | Every accepted text with an @ sign splits into a scheme, user, host and port of the grammar |
| SipAddress.AcceptedIffGrammar | src/sip_address.cpp:6-45 | A text is accepted if and only if it is a dialled number or a full address of the grammar |
| SipAddress.UnschemedPortIsRefused | src/sip_address.cpp:12-15 | For every address of the grammar with a port: accepted with its scheme, it is refused as an invalid scheme without it |
| SipAddress.PortWithoutSchemeIsRefused | src/sip_address.cpp:12-15 | Failing input: sip:u@h:5060 is accepted and u@h:5060 refused |
| SipRefusals.WholeTextRefusals | src/sip_address.cpp:6-17 | Empty, Whitespace and InvalidScheme are each answered exactly for what they name |
| SipRefusals.PartRefusals | src/sip_address.cpp:18-44 | For a text in pieces, InvalidUser, InvalidHost and InvalidPort name the first piece at fault |
| SipRefusals.NumberRefusals | src/sip_address.cpp:18-26 | Without an at sign, anything but a number is an invalid user |
| SipAddress.NormalizationIsIdempotent | src/sip_address.cpp:27-44 | Checking a normalised destination again accepts it unchanged |
| NativeDestination.ToNativeAscii | src/native_account_config.h:10-14 | The text itself when all of it is printable ASCII, and nothing otherwise |
| NativeDestination.CheckUser | src/native_account_config.h:51-60 | The final length, position and user-character checks, with the error of the first that fails |
| NativeDestination.NativeCallDestination | src/native_account_config.h:36-61 | Computes the routed destination or the first refusal, in the order of the code |
| NativeDestination.PortDigits | src/native_account_config.h:49 | The decimal digits of a nonzero port are a valid port |
| NativeDestination.AcceptedIsBounded | src/native_account_config.h:51 | An accepted URI has at most 512 characters |
| NativeDestination.AcceptedShape | src/native_account_config.h:40-60 | An accepted URI is an address of the grammar in the account's scheme, with a supported user, followed by nothing or by the account's transport |
| NativeDestination.ValidNativeTransferUri | src/native_transfer.h:5-26 | The scanning checks accept exactly the URIs of `TransferUri` |
| NativeDestination.NativeTransferDestination | src/native_transfer.h:27-31 | A transfer is routed exactly like a call: the code's extra refusal is unreachable |
| NativeDestination.AcceptedCallsAreTransferable | src/native_transfer.h:27-31 | Every URI the call check accepts passes the independently written transfer check, is printable ASCII without quoting characters, at most 512 long, and in the account's transport |
| NativeDestination.TransferUriIsCallable | src/native_transfer.h:5-26 | Conversely a transfer URI in the account's scheme is a callable destination, unchanged, if and only if it carries no transport parameter |
| NativeDestination.ParameterIsNotCallable | src/native_transfer.h:5-26 | Failing input: sip:u@h;transport=udp is a transfer URI and not a callable destination |
| NativeDestination.FullAddressesAreChecked | src/native_account_config.h:36-60 | An address already in normal form and in the account's scheme meets only the final checks |
| NativeRouting.NumberIsRouted | src/native_account_config.h:44-50 | An accepted number is called as typed, less any scheme, at the server and port of the account, in its scheme and with its transport |
| NativeRouting.AddressIsCalledAsTyped | src/native_account_config.h:36-60 | An accepted address is called with the user, host and port that were typed |
| NativeRouting.NumberIsCallableExactlyWhen | src/native_account_config.h:36-60 | A number is accepted if and only if the account is configured, its scheme is not the other one, and neither text is too long; and what two of the refusals mean |
| NativeRouting.AddressIsCallableExactlyWhen | src/native_account_config.h:36-60 | An address of the grammar is accepted if and only if it fits in 512 characters, its user is plain, and its scheme is the account's or, without TLS, missing |
| RecentDestinations.RecentList.Clear | src/recent_destinations.h:52-55 | Empties the list and forgets the session, but not the token sequence |
| RecentDestinations.RecentList.Synchronize | src/recent_destinations.h:15-18 | Keeps the list exactly while the same trusted session is observed |
| RecentDestinations.RecentList.ShiftInto | src/recent_destinations.h:39-40 | The in-place shift puts the new entry first and removes the one at the position |
| RecentDestinations.RecentList.Promote | src/recent_destinations.h:34-41 | Destination first under a new token, its older copy dropped, ten kept |
| RecentDestinations.RecentList.Remember | src/recent_destinations.h:19-44 | Promotes exactly the destinations that may be remembered, and otherwise only synchronizes |
| RecentDestinations.RecentList.Find | src/recent_destinations.h:47-51 | Resolves a token exactly within the session it is shown in |
| RecentDestinations.SearchFinds | src/recent_destinations.h:49 | A token resolves exactly when an entry holds it, and to that entry |
| RecentDestinations.PromotionKeepsInv | src/recent_destinations.h:35-41 | One promotion keeps destinations distinct and tokens falling by position |
| RecentDestinations.RunKeepsInv | src/recent_destinations.h:15-55 | After any run: distinct destinations, tokens strictly falling by position, at most ten entries, all of them issued |
| RecentDestinations.DeadTokensStayDead | src/recent_destinations.h:15-55 | A token that was evicted, replaced or cleared never resolves again, under any later operations and observation |
| RecentDestinations.ClearedTokensStayDead | src/recent_destinations.h:52-55 | No token issued before a clear resolves after it |
| RecentDestinations.RunShowsHistory | src/recent_destinations.h:34-41 | The bounded array shows the ten most recent distinct destinations of the unbounded history since the last clear |
| RecentUse.ProperUsesAreRemembered | src/recent_destinations.h:19-44 | A use is remembered, first and under a new token that resolves to it, if and only if it was accepted from a verified, registered, idle session for a destination that may be kept |
| RecentUse.ResolvedWasUsed | src/recent_destinations.h:15-55 | After any run, a token resolves only under a verified live session, to a destination properly used in that session, which has been on show ever since |
| RecentUse.RememberedAddressIsCallable | src/recent_destinations.h:19-33 | A remembered address is accepted by the call check if and only if its scheme is the account's or, without TLS, missing |
| RecentUse.ContactsAndRecentsAgree | src/contact_book.cpp:38-53 | The check of a contact's destination and that of a remembered one, written apart, accept the same texts |
| Utf8.DecodeInvertsEncode | src/contact_backup.cpp:8-13 | Reading an encoded code point, wherever it stands, gives it back and its exact length |
| Utf8.WellFormedIsDecoded | src/contact_backup.cpp:43-59 | Every well-formed sequence of section 4 of RFC 3629 is read, as the scalar value whose encoding it is |
| Utf8.DecodedIsWellFormed | src/contact_backup.cpp:43-59 | Whatever is read is a well-formed sequence: no overlong form, surrogate or value above 0x10FFFF |
| Utf8.DecodeIsRfc3629 | src/contact_backup.cpp:43-59 | The decoder accepts a position if and only if a well-formed sequence stands there, and inverts the encoder |
| Utf8.UnitsOfFirst | src/contact_backup.cpp:84-89 | The UTF-16 units written for a code point are the units it was read from |
| ContactBook.CheckName | src/contact_book.cpp:10-36 | True exactly for well-paired names of 1 to 64 units with no control, no invisible or direction-changing character, and something visible |
| ContactBook.CheckDestination | src/contact_book.cpp:38-53 | True exactly for graphic ASCII addresses of at most 128 characters with a supported user |
| ContactBook.CheckDraft | src/contact_book.cpp:37-57 | True exactly when name and destination are valid |
| ContactBook.LocaleIrrelevant | src/contact_book.cpp:40-41 | For the characters a contact may hold, the address check does not depend on the locale |
| ContactBook.ContactStore.Find | src/contact_book.cpp:59-62 | The position of the contact with that identifier, or none |
| ContactBook.ContactStore.AddContact | src/contact_book.cpp:63-74 | Appends under a fresh identifier, or refuses with the first failing reason and no change |
| ContactBook.ContactStore.UpdateContact | src/contact_book.cpp:75-88 | Replaces one contact in place under its identifier, or refuses with no change |
| ContactBook.ContactStore.RemoveContact | src/contact_book.cpp:89-94 | Erases exactly that contact |
| ContactBook.ContactStore.MarkFavorite | src/contact_book.cpp:95-101 | Changes exactly that contact's flag |
| ContactBook.RunKeepsInv | src/contact_book.cpp:59-101 | Every reachable book: at most 500 valid contacts, no two with one destination or one identifier |
| ContactBook.RemovedIdsStayGone | src/contact_book.cpp:68-71 | An identifier once issued and gone is never given to another contact |
| ContactDirectory.StepShows | src/contact_book.cpp:59-101 | Each operation does to the book what it does to a map from identifiers to contacts in order of addition, and answers the same |
| ContactDirectory.BooksAreDirectories | src/contact_book.cpp:59-101 | So does any run of operations |
| BackupParser.Parser.Space | src/contact_backup.cpp:29 | Skips exactly the JSON white space |
| BackupParser.Parser.TakeByte | src/contact_backup.cpp:30 | Takes the byte after white space, or takes nothing but the space |
| BackupParser.Parser.TakeLiteral | src/contact_backup.cpp:31 | Takes the word after white space, or fails |
| BackupParser.Parser.ReadHex | src/contact_backup.cpp:32-42 | Reads four hexadecimal digits |
| BackupParser.Parser.ReadCodepoint | src/contact_backup.cpp:43-59 | Reads as `Utf8.Decode`, which accepts exactly RFC 3629 |
| BackupParser.Parser.ReadEscape | src/contact_backup.cpp:67-79 | Reads the permitted escapes, surrogate pairs included |
| BackupParser.Parser.ReadElement | src/contact_backup.cpp:66-80 | Reads one code point of a string, escaped or not |
| BackupParser.Parser.ReadString | src/contact_backup.cpp:60-92 | Reads a string within its unit limit; the loop equals the recursive `Text`, which inverts the printer below |
| BackupParser.Parser.ReadField | src/contact_backup.cpp:97-106 | Reads one member of a contact, each at most once |
| BackupParser.Parser.ReadContact | src/contact_backup.cpp:93-109 | Reads a contact object that has all three members and is valid |
| BackupParser.Parser.ReadContacts | src/contact_backup.cpp:110-121 | Reads the list, at most 500, no destination twice |
| BackupParser.Parser.ReadMember | src/contact_backup.cpp:128-134 | Reads one member of the document, each at most once |
| BackupParser.Parser.Parse | src/contact_backup.cpp:124-138 | Reads a whole document and nothing after it; equals `ParseDocument`, which inverts the printer below |
| ContactBackup.AppendQuoted | src/contact_backup.cpp:14-25 | Appends the quoted UTF-8 text of any well-paired string |
| ContactBackup.EncodeContactBackup | src/contact_backup.cpp:141-160 | The appending loop, with its early refusals, writes the one document of the book or refuses it |
| ContactBackup.DecodeContactBackup | src/contact_backup.cpp:161-168 | Refuses what is too long and otherwise parses the document |
| BackupReading.RestoredExactlyWhenSpelled | src/contact_backup.cpp:26-139 | The restored backups are exactly the texts of a grammar written without a parser, whatever their spacing, member order and escapes, up to the size limit; and what is restored is what the text means |
| BackupReading.MeaningIsUnique | src/contact_backup.cpp:26-139 | No text of the grammar has two meanings |
| BackupReading.StrIsRead | src/contact_backup.cpp:60-92 | Every string of the grammar, however escaped, is read as the characters it denotes |
| BackupReading.ReadIsStr | src/contact_backup.cpp:60-92 | Every string that is read is one of the grammar |
| BackupReading.ContactIsRead | src/contact_backup.cpp:93-109 | A contact whose three members come once each in any order is read as what they say |
| BackupReading.ReadIsContact | src/contact_backup.cpp:93-109 | Every contact that is read is such a contact |
| ContactBackup.TextRoundTrip | src/contact_backup.cpp:14-25 | A quoted string is read back exactly, with quotes, backslashes, multi-byte characters and surrogate pairs |
| ContactBackup.ContactRoundTrip | src/contact_backup.cpp:93-109 | A written contact is read back exactly |
| ContactBackup.ListRoundTrip | src/contact_backup.cpp:110-121 | A written list of contacts is read back after any contacts already read |
| ContactBackup.DocumentRoundTrip | src/contact_backup.cpp:124-138 | Any list of at most 500 valid contacts with distinct destinations is read back in order |
| ContactBackup.BackupFits | src/contact_backup.cpp:141-160 | No such list is refused for size: 500 contacts always stay below 512 KiB |
| ContactBackup.ReachableBooksRoundTrip | src/contact_backup.cpp:141-168 | Every book reachable by any operations encodes, and its bytes decode to exactly its names, destinations and flags in order |
| ContactBackup.RestoredIsValid | src/contact_backup.cpp:93-121 | Whatever bytes decode, the result is valid, distinct and at most 500 |
| ContactBackup.RestoreIsCanonical | src/contact_backup.cpp:141-168 | However the bytes were spaced, ordered or escaped, writing out what they decode to fits and decodes to the same |
| ContactBackup.RestoredBytesLoad | src/contact_store_win32.cpp:64-69 | Bytes that decode always load: none of the refusals of adding one by one is reachable |
| ContactBackup.SavedBooksLoad | src/contact_store_win32.cpp:64-69 | Saving any reachable book and loading it gives the same contacts in the same order |
| EventReducer.ApplyEvent | src/baresip_event_reducer.h:26-96 | The switch over event kinds is the transition table: which status may be followed by which event, to which status, and whose call identifier it must carry |
| EventReducer.RunKeepsCalls | src/baresip_event_reducer.h:39-94 | Over any stream a call identifier is present exactly while calling, ringing or in a call, it is the newest, and the newest never goes back |
| EventReducer.OpeningsIncrease | src/baresip_event_reducer.h:60-68 | The calls that an applied stream opens carry strictly increasing identifiers |
| EventReducer.ReduceAllConcat | src/baresip_event_reducer.h:26-96 | Applying a stream is applying its parts in turn, up to the first refusal |
| EventReducer.ReduceAllKeepsProof | src/baresip_event_reducer.h:92-94 | No event changes the session, process or evidence of the observation |
| EventScreen.AppliedStreamIsHeard | src/baresip_event_reducer.h:39-94 | The status after an applied stream is what the kinds of its events say, told without the transition table |
| EventIdentity.ApplyIdentified | src/baresip_event_identity.h:18-51 | Gives the first failing identity test as its verdict, applies the event to observation and tokens exactly when there is none, and otherwise changes nothing |
| EventIdentity.Judgement | src/baresip_event_identity.h:21-42 | The verdict is acceptance if and only if account, token and order fit |
| EventIdentity.RefusalsTell | src/baresip_event_identity.h:18-51 | In a bound state each refusal is given exactly for what it names |
| EventIdentity.InnerRefusesOnlyOrder | src/baresip_event_identity.h:39-42 | In a bound state the inner reducer applies an event that passed the identity tests, or refuses its order: its StaleSession, UnverifiedSource and StaleCall are unreachable |
| EventIdentity.RunKeepsBoundInv | src/baresip_event_identity.h:43-50 | Over any stream the two call tokens equal the observation's two call identifiers |
| EventIdentity.IdentityRefinesReducer | src/baresip_event_identity.h:39-41 | On events of its account the identity path is the plain reducer run on tokens |
| EventIdentity.IdentifiedAllConcat | src/baresip_event_identity.h:18-51 | Applying identified events is applying their parts in turn |
| EventMailbox.SlotIsRemainder | src/baresip_event_mailbox.h:46 | The ring index by remainder is the wrapped offset |
| EventMailbox.Mailbox.BeginSession | src/baresip_event_mailbox.h:20-31 | A session number never used before, or a shut box when there is none |
| EventMailbox.Mailbox.InvalidateSession | src/baresip_event_mailbox.h:32-38 | Empties and shuts the box, keeping the generation |
| EventMailbox.Mailbox.Enqueue | src/baresip_event_mailbox.h:39-49 | Appends to the ring, or drops everything when it is full |
| EventMailbox.Mailbox.Drain | src/baresip_event_mailbox.h:50-62 | Hands over the queued events oldest first, with session and overflow |
| EventMailbox.RunDelivers | src/baresip_event_mailbox.h:39-62 | Over any run, what was handed over and what is queued is exactly what the box was offered of its session, in order; or it was offered more than 32 at a time, and exactly then it is flagged and hands over nothing more |
| EventMailbox.DrainsRise | src/baresip_event_mailbox.h:20-62 | The sessions of successive drains never go back, and every batch fits |
| CallbackIngress.Ingress.BeginSession | src/baresip_callback_ingress.h:23-33 | One session at a time, for a validated account |
| CallbackIngress.Ingress.Revoke | src/baresip_callback_ingress.h:35-38 | Ends the session and drops the queue |
| CallbackIngress.Ingress.Admit | src/baresip_callback_ingress.h:112-121 | A late callback changes nothing; one of this session for another account ends it |
| CallbackIngress.Ingress.EnqueueEvent | src/baresip_callback_ingress.h:122-127 | An event the box refuses ends the session |
| CallbackIngress.Ingress.RegistrationEvent | src/baresip_callback_ingress.h:40-58 | Queues a registration or transport event without a token, or ends the session |
| CallbackIngress.Ingress.CallStartedEvent | src/baresip_callback_ingress.h:60-82 | Mints the next token for a larger native key while no call is active, or ends the session |
| CallbackIngress.Ingress.CallChangedEvent | src/baresip_callback_ingress.h:84-101 | Queues a change of the active call under its token, or ends the session |
| CallbackIngress.ActKeepsInv | src/baresip_callback_ingress.h:23-101 | Any single operation, or a delivery to the reducer, keeps: the reducer's calls followed by the queue are the ingress's own call history |
| CallbackIngress.RunKeepsInv | src/baresip_callback_ingress.h:23-101 | The same over any run of operations and deliveries |
| CallbackIngress.QueueIsCurrent | src/baresip_event_reducer.h:26-38 | What an ingress session queues can be refused only as InvalidOrder, never as StaleSession or StaleCall |
| CallbackIngress.DeliveriesAgree | src/baresip_callback_ingress.h:60-101 | After any run, a delivery is refused for order or not at all; if not, the reducer's active and newest call are the ingress's active and last token |
| CallbackIngress.SessionLivesOnExactlyWhen | src/baresip_callback_ingress.h:40-127 | A callback of the session queues the one event of its kind and call if and only if account, kind, key and room allow it, and otherwise ends the session |
| EventProjection.LegacyProjection.ObserveBatch | src/legacy_sip_event_projection.h:11-46 | The loop over a batch is one step of the stream, or a rejection |
| EventProjection.SipProjection.ObserveAccount | src/sip_event_projection.h:18-64 | The same in identity mode, for one expected account |
| EventProjection.SipProjection.ObserveBatch | src/sip_event_projection.h:13-17 | Observes in the mode the projection is in |
| EventProjection.LegacyCut | src/legacy_sip_event_projection.h:34-44 | Observing two stretches of one session's stream in turn is observing them together, under any process state and evidence |
| EventProjection.IdentCut | src/sip_event_projection.h:46-62 | The same in identity mode |
| EventProjection.LegacyCutsAgree | src/legacy_sip_event_projection.h:11-46 | However often and wherever drains cut a stream, the result is that of the stream as a whole |
| EventProjection.IdentCutsAgree | src/sip_event_projection.h:18-64 | The same in identity mode |
| EventProjection.LegacyNeverRevives | src/legacy_sip_event_projection.h:13-32 | Along one mailbox's drains, whatever the caller claims, a session that was rejected or left is never verified again |
| EventProjection.IdentNeverRevives | src/sip_event_projection.h:22-54 | The same in identity mode |
| EventProjection.VerifiedOnlyOnce | src/legacy_sip_event_projection.h:13-44 | In any life of a mailbox, a session that was shown as verified and then was not is never shown as verified again |
| EventProjection.LegacyMoves | src/legacy_sip_event_projection.h:11-53 | One observation continues the session on show, with its newest call not going back, or leaves it dead |
| EventProjection.IdentMoves | src/sip_event_projection.h:18-71 | The same in identity mode |
| EventProjection.NamingRevivesExactlyWhen | src/sip_event_projection.h:15-64 | Of a session rejected or left before any account was named: the first observation that names one shows it again if and only if the process runs, the evidence is verified, an account is named, and the batch is of that session, whole and applied |
| EventProjection.RejectedReappearsExactlyWhen | src/sip_event_projection.h:13-64 | Along any mix of drains with and without an account: a rejected session is shown as verified again if and only if the first drain that decides about it once an account was named is trusted, whole and applied |
| EventProjection.WithoutAccountsNothingReappears | src/sip_event_projection.h:13-17 | While no drain names an account, as in the shipped program, no rejected session is ever shown again |
| EventProjection.UntrustedNamingDecidesNothing | src/sip_event_projection.h:24-31 | The drain that decides need not be the first to name an account: after an untrusted one the session still reappears at the next |
| EventProjection.SwitchForgetsRejection | src/sip_event_projection.h:15-21 | Failing input: a batch that is rejected, and whose session is then shown as verified by naming an account |
| NativeSessionControl.ProjectNativeSdkBatch | src/native_session_control.h:54-74 | The loop with its skipped refreshes and final confirmation is `ProjectSdk` |
| NativeSessionControl.RefreshesAreInvisible | src/native_session_control.h:60-67 | Skipping confirmed refreshes and observing the rest one by one is observing the rest as one batch |
| NativeSessionControl.ConfirmedCutsAgree | src/native_session_control.h:54-74 | With registration confirmed, where a drain cuts the stream does not matter |
| NativeSessionControl.UnconfirmedIsNeverLive | src/native_session_control.h:68-72 | Without confirmation nothing is ever shown as registered or in a call |
| NativeSessionControl.UnconfirmedCutsAgreeExactlyWhen | src/native_session_control.h:68-72 | In both modes: without confirmation a cut is visible if and only if the registration was live at the cut and the rest of the stream is applied |
| NativeSessionControl.UnconfirmedCutShows | src/native_session_control.h:68-72 | Failing input: the stream REGISTERING, REGISTER_OK, UNREGISTERING, cut before its last event |
| NativeSessionControl.DisplayedMeansTheSameCall | src/native_session_control.h:26-30 | A displayed answer or hang-up is current exactly when screen and present show the same verified call in a fitting state |
| NativeSessionControl.CommandAdmission.Admit | src/native_session_control.h:35-50 | Admits a current command unless its call was the last admitted one for that action |
| NativeSessionControl.ServeKeepsInv | src/native_session_control.h:31-74 | Every drain and command keeps: admitted calls are behind what is on show, or of a session that is gone |
| NativeSessionControl.AtMostOncePerCall | src/native_session_control.h:31-51 | Over any run of drains of one mailbox and commands, each call is answered, ended and transferred at most once, in strictly increasing order of session and call |
| NativeAdmissions.AdmittedExactlyWhen | src/native_session_control.h:31-51 | Over any life of the owner a command is let through if and only if it is current and, if it may come once per call, was not let through before for this call |
| CallbackLifecycle.Fence.Begin | src/baresip_callback_lifecycle.h:41-47 | A new generation, only while nothing is accepting, closing or in flight |
| CallbackLifecycle.Fence.Admit | src/baresip_callback_lifecycle.h:49-55 | A lease exactly for the current generation while it accepts |
| CallbackLifecycle.Fence.Close | src/baresip_callback_lifecycle.h:59-63 | Stops admissions |
| CallbackLifecycle.Fence.Wait | src/baresip_callback_lifecycle.h:67-71 | Waits for the leases in flight, which their holders return, and then lets the next generation begin |
| CallbackLifecycle.Fence.ReleaseOne | src/baresip_callback_lifecycle.h:79-83 | Returns one lease |
| CallbackLifecycle.LifecycleObject.Begin | src/baresip_callback_lifecycle.h:108-120 | A captured session exactly when an account is given, none is current, and fence and mailbox can begin |
| CallbackLifecycle.LifecycleObject.HoldNativeCallback | src/baresip_callback_lifecycle.h:125-130 | A lease for the whole callback exactly when its captured session is live |
| CallbackLifecycle.LifecycleObject.PublishRegistration | src/baresip_callback_lifecycle.h:132-135 | Publishes under a lease of its own, or not at all |
| CallbackLifecycle.LifecycleObject.PublishStart | src/baresip_callback_lifecycle.h:136-142 | The same for a new call, with the token it was given |
| CallbackLifecycle.LifecycleObject.PublishChange | src/baresip_callback_lifecycle.h:143-147 | The same for a change of call |
| CallbackLifecycle.LifecycleObject.Probe | src/baresip_callback_lifecycle.h:157-160 | Tells whether the captured session is live and changes nothing |
| CallbackLifecycle.LifecycleObject.RejectCurrent | src/baresip_callback_lifecycle.h:151-155 | Closes the fence and revokes the ingress without waiting |
| CallbackLifecycle.LifecycleObject.RevokeAndWait | src/baresip_callback_lifecycle.h:167-178 | However many leases are in flight: closed, revoked, every lease returned, and ready for a new begin |
| CallbackLifecycle.CallbacksCannotDisturbTheWait | src/baresip_callback_lifecycle.h:64-71 | While the wait lasts, a callback that is still inside neither publishes nor finds its session live, and rejecting again changes nothing |
| CallbackRaces.ExecKeepsInv | src/baresip_callback_lifecycle.h:41-178 | Every step any thread can take keeps the invariant of leases, lock, epochs and phases |
| CallbackRaces.LeasesAreCurrent | src/baresip_callback_lifecycle.h:49-55 | For any number of callback threads, under every interleaving with one manager, each live lease is counted and of the fence's current generation |
| CallbackRaces.GenerationsStartQuietly | src/baresip_callback_lifecycle.h:41-47 | A new generation starts only while no callback of any generation is inside |
| CallbackRaces.StaleCallbacksChangeNothing | src/baresip_callback_lifecycle.h:51-52 | Once its generation has passed, a captured session is never admitted again and its callbacks change nothing |
| CallbackRaces.RevokeReturnsQuiet | src/baresip_callback_lifecycle.h:167-178 | When revoke_and_wait returns, no callback is inside or can get in, nothing is queued, and the next begin fails only for want of an account or of unused numbers |
| CallbackRaces.BeginRefusedOnlyForReason | src/baresip_callback_lifecycle.h:108-112 | Under every interleaving begin is refused exactly without an account, with a current session, or with no generation left |
| CallbackRaces.BeginIssues | src/baresip_callback_lifecycle.h:113-119 | A begin that passed the fence issues a captured session never issued before, exactly when a mailbox session is left |
| CallbackRaces.NoDeadlock | src/baresip_callback_lifecycle.h:151-178 | In every reachable state before revoke_and_wait returns, the manager or an admitted callback can take a step |
| CallbackRaces.BusyUsesWork | src/baresip_callback_lifecycle.h:151-178 | From the moment nobody is admitted any more every such step lowers a fixed measure, and newcomers change nothing |
| CallbackRaces.RevokeFinishes | src/baresip_callback_lifecycle.h:167-178 | In every interleaving, from that moment on, at most that many steps precede the return, the wait for the lock included |
| CallbackRaces.FenceClosesWithinTwoSteps | src/baresip_callback_lifecycle.h:151-171 | That moment is never more than two steps away: the holder of the lock, or the manager, can always take the one that leads to it, and no thread takes the lock from the manager |
| EventAdapter.AdapterObject.Start | src/baresip_sdk_event_adapter.h:32-86 | A fresh epoch with its own context, or nothing kept |
| EventAdapter.AdapterObject.Stop | src/baresip_sdk_event_adapter.h:88-112 | Once every lease is returned, everything of the epoch is forgotten |
| EventAdapter.AdapterObject.IsActive | src/baresip_sdk_event_adapter.h:113-115 | Whether the epoch is live |
| EventAdapter.AdapterObject.NativeRegisterOkSeen | src/baresip_sdk_event_adapter.h:120-122 | Whether the owner may assert the registration |
| EventAdapter.AdapterObject.FailClosed | src/baresip_sdk_event_adapter.h:153-166 | Rejects the session and forgets the call |
| EventAdapter.AdapterObject.OpenCall | src/baresip_sdk_event_adapter.h:245-284 | Admits a call under every condition of the code, or fails closed |
| EventAdapter.AdapterObject.MoveCall | src/baresip_sdk_event_adapter.h:285-311 | Changes the active call, or fails closed |
| EventAdapter.AdapterObject.OnEvent | src/baresip_sdk_event_adapter.h:168-317 | The event handler with all its branches is `Handled` |
| EventAdapter.AdapterObject.Callback | src/baresip_sdk_event_adapter.h:139-146 | An event is handled only under a lease of its own epoch, and the lease changes nothing else |
| EventAdapter.StartKeepsAgree | src/baresip_sdk_event_adapter.h:32-86 | A start succeeds exactly when nothing is registered, a user agent is given, a context is left, the handler is free and the SDK accepts |
| EventAdapter.OnlyOverflowRefuses | src/baresip_sdk_event_adapter.h:217-297 | While the adapter is live, the ingress turns down an event of the adapter if and only if the mailbox is full |
| EventAdapter.CallbackKeepsAgree | src/baresip_sdk_event_adapter.h:139-317 | Any event of any epoch keeps adapter and ingress in agreement |
| EventAdapter.RunKeepsAgree | src/baresip_sdk_event_adapter.h:32-317 | Over any run of starts, stops, drains and arbitrary events: an active call exactly with an active token, equal to the ingress's, and keys, tokens and seen pointers equal in number |
| EventAdapter.NoPointerTwice | src/baresip_sdk_event_adapter.h:254-262 | Within an epoch no call pointer is admitted twice |
| EventPipeline.PipeRunKeepsInv | src/native_session_control.h:54-74 | Over any run of SDK events, drains and commands: unless the session was rejected, what is shown followed by what is queued is what the adapter did |
| EventPipeline.ShownCallIsTheAdapters | src/baresip_sdk_event_adapter.h:273-284 | Right after any drain, a live session shown as verified shows the adapter's active call, and as newest call the last one it admitted |
| EventPipeline.OnlyOrderRejects | src/baresip_event_reducer.h:26-96 | In the whole pipeline the reducer refuses an event for its order or not at all |
| EventScreen.ShownStatusIsWhatWasSaid | src/baresip_sdk_event_adapter.h:168-317 | After any run, a live session shown as verified shows the status that the SDK events of its own callbacks tell: ringing for an incoming call, calling for an outgoing one, in a call once answered, and without a call as the last registration event says |
| EventScreen.ActiveCallIsWhatWasSaid | src/baresip_sdk_event_adapter.h:120-122 | After any run, the active call of a live session, its direction, whether it was answered, and whether the registration may be asserted are as those events tell |
| EventScreen.ShownExactlyWhen | src/native_session_control.h:54-74 | A drain shows a session not rejected before if and only if its queued events come in order and, if that leaves it registered, the registration may be asserted |
| EventScreen.LivesOnExactlyWhen | src/baresip_sdk_event_adapter.h:168-317 | The exact events that a session survives; any other ends it |
| EventScreen.TransferFailureTells | src/baresip_sdk_event_adapter.h:241-244 | A failed transfer is noted for the active call that attempted it, and changes nothing else |
| EventScreen.CommandsFollowTheStory | src/native_session_control.h:14-25 | On a screen that shows a live session as verified, a command is current if and only if it names the session and its call and what the SDK said has room for its action |
| SipCommandExecutor.GrantedExactlyWhen | src/call_command_authorization.h:21-55 | A command is granted if and only if the session is verified, engine and session agree, the state has room for the action, and the call is the active one (or none, for a dial to a valid address) |
| SipCommandExecutor.GrantedDestinationIsNormal | src/dial_authorization.h:24-40 | A granted destination is granted again unchanged |
| SipCommandExecutor.CommandExecutor.Watchdog | src/sip_command_executor.h:52-78 | One watchdog check, with fencing on a lost session, a clock rollback or an exact deadline |
| SipCommandExecutor.CommandExecutor.BeginNewSession | src/sip_command_executor.h:172-186 | Nothing is carried over from the previous session |
| SipCommandExecutor.CommandExecutor.Prepare | src/sip_command_executor.h:86-122 | The checks before authorization, in order, consuming the request number |
| SipCommandExecutor.CommandExecutor.Dispatch | src/sip_command_executor.h:80-169 | The native call that is made, if any, the result, and the state after it |
| SipCommandExecutor.ElapsedNeverWraps | src/sip_command_executor.h:73-76 | Wherever the code subtracts clock readings the result is the true elapsed time |
| SipCommandExecutor.StepKeepsClock | src/sip_command_executor.h:62-66 | Every step keeps the last reading at or after the start of the wait |
| SipCommandExecutor.NothingIsSentTwice | src/sip_command_executor.h:80-169 | Of any two native calls in any run: the later is of a larger session, or the earlier succeeded and the later has a larger request number, answers or ends a later call, or dials after a newer call was seen |
| SipCommandExecutor.FencedSendsNothing | src/sip_command_executor.h:52-122 | From any fenced state, whatever fenced it, over any run: nothing is sent until a larger session, and the fence holds until then |
| SipCommandExecutor.NothingAfterAFence | src/sip_command_executor.h:52-169 | After any operation that reported a broken session - a refused call, a timeout, a clock rollback, a lost session - every later native call of the run is of a larger session |
| SipCommandExecutor.ChangeBetweenCalls | src/sip_command_executor.h:109-122 | Between two native calls of one session some observation, at the latest the second call's own, differs from the first call's |
| SipCommandCalls.CallIsTheOneAsked | src/sip_command_executor.h:141-149 | In every state: an answer answers and a hang-up ends the very call that is on, in a fitting status, and a dial goes to the normal form of the typed destination |
| SipCommandCalls.CallIsMadeExactlyWhen | src/sip_command_executor.h:80-150 | In every state: a native call is made if and only if the command is well formed, fits the verified session and its engine, and is of a newer session or not yet spent in this one |
| SipCommandCalls.DenialsTell | src/call_command_authorization.h:21-55 | Each denial is given exactly for what it names |
| SipCommandCalls.OwnRequestsAreAnswered | src/sip_command_executor.h:91-169 | What a request of the executor's own verified session is answered, and when that fences the session |
| SipCommandCalls.OtherRequestsAreRefused | src/sip_command_executor.h:86-97 | Any other request is invalid or stale, and a lost session of its own is fenced |
| SipCommandCalls.ChecksAreAnswered | src/sip_command_executor.h:52-78 | What a watchdog check answers, and when it fences the session |
| SipCommandCalls.NumbersAreUsedOnce | src/sip_command_executor.h:101-107 | Over any run, a request that was judged, even if denied, uses up its number: every native call after it is of a larger number or session |
| SipCommandCalls.UnansweredCallTimesOut | src/sip_command_executor.h:52-78 | After an accepted call that nothing follows, over any run of checks and requests: pending for ten seconds, and timed out and fenced at the first check after that |
| RegistrationQueue.CommandQueue.BeginGeneration | src/baresip_registration_command_queue.h:34-42 | Opens the next generation, only when the last is shut and handled |
| RegistrationQueue.CommandQueue.EnqueueCommand | src/baresip_registration_command_queue.h:95-118 | A cancel replaces everything and shuts the generation; one submit too many drops everything and shuts it |
| RegistrationQueue.CommandQueue.Submit | src/baresip_registration_command_queue.h:44-49 | Queues a submit with a timeout in range |
| RegistrationQueue.CommandQueue.Cancel | src/baresip_registration_command_queue.h:51-53 | Takes a cancel exactly while the generation is open |
| RegistrationQueue.CommandQueue.Drain | src/baresip_registration_command_queue.h:56-72 | Hands over the commands of the expected generation |
| RegistrationQueue.CommandQueue.IsStillAdmitted | src/baresip_registration_command_queue.h:78-82 | Whether the batch is still of the open generation and revision |
| RegistrationQueue.CommandQueue.Invalidate | src/baresip_registration_command_queue.h:86-92 | Shuts the generation and empties the queue |
| RegistrationQueue.AdmittedWhileOpen | src/baresip_registration_command_queue.h:78-82 | A drained batch is still admitted if and only if its generation was never shut since, although the revision counter wraps around |
| RegistrationQueue.NeverAdmittedAgain | src/baresip_registration_command_queue.h:34-42 | A shut generation never opens again |
| RegistrationGateway.DeadlineObject.Arm | src/baresip_registration_watchdog.h:12-20 | Arms an unarmed deadline for a real session and wait |
| RegistrationGateway.DeadlineObject.Clear | src/baresip_registration_watchdog.h:40 | Disarms it |
| RegistrationGateway.ExpiresExactlyAfterWait | src/baresip_registration_watchdog.h:21-39 | An armed deadline expires after exactly its wait, however close to the end of the clock it was armed |
| RegistrationGateway.AdapterIsABridge | src/baresip_sdk_registration_gateway.h:34-50 | The event adapter is the bridge the gateway assumes: only a start makes it live, under a new session, and no event revives it |
| RegistrationGateway.GatewayObject.BeginSubmit | src/baresip_sdk_registration_gateway.h:24-35 | The submission up to the SDK's register call |
| RegistrationGateway.GatewayObject.EndSubmit | src/baresip_sdk_registration_gateway.h:36-52 | The submission after it: accepted only if the epoch is still live |
| RegistrationGateway.GatewayObject.ArmRegistrationDeadline | src/baresip_sdk_registration_gateway.h:57-61 | Arms the deadline of a live submission |
| RegistrationGateway.GatewayObject.Stop | src/baresip_sdk_registration_gateway.h:84-96 | On the loop's thread everything is stopped; on any other nothing is touched |
| RegistrationGateway.GatewayObject.PollRegistrationDeadline | src/baresip_sdk_registration_gateway.h:62-80 | The verdict, with the stop it entails |
| RegistrationDispatcher.StepKeepsInv | src/baresip_registration_command_dispatcher.h:29-98 | Every step of a tick keeps: a generation that is shut will still be told to the loop, or the loop is stopping the gateway, or it has |
| RegistrationDispatcher.InterruptionKeepsInv | src/baresip_registration_command_dispatcher.h:60-67 | So does anything a user or the SDK does between two steps |
| RegistrationDispatcher.RunKeepsInv | src/baresip_registration_command_dispatcher.h:29-98 | So does every run |
| RegistrationDispatcher.CancelIsNeverLost | src/baresip_registration_command_dispatcher.h:29-98 | For a gateway of any thread, a cancel accepted in any reachable state, even inside a tick: at most one submission starts after it, and from the end of the next tick on the gateway is down until a new generation begins |
| RegistrationDispatcher.AtMostOneSubmission | src/baresip_registration_command_dispatcher.h:55-60 | After a cancel or overflow at most the submission already admitted still starts |
| RegistrationDispatcher.RevokedTickReportsNoSubmission | src/baresip_registration_command_dispatcher.h:61-81 | A tick revoked before its last admission check never reports Submitted |
| RegistrationDispatcher.ToldTickEnds | src/baresip_registration_command_dispatcher.h:37-54 | A tick that finds the cancel or overflow is over after three steps of its own |
| RegistrationDispatcher.ForeignGatewayStaysDown | src/baresip_sdk_registration_gateway.h:25-26 | A gateway of another thread than the loop never goes live, so what its stop does not do is never missed |
| RegistrationWaits.RequestsAreHandedOver | src/baresip_registration_command_queue.h:44-72 | While a generation stays open, every request of it with a timeout in range is handed over once and in order, or still waits |
| RegistrationWaits.CancelIsHandedOver | src/baresip_registration_command_queue.h:95-118 | After a cancel the next drain hands over that cancel alone |
| RegistrationWaits.SubmissionSucceedsExactlyWhen | src/baresip_registration_command_dispatcher.h:29-98 | An undisturbed tick registers the selected account under a new session and waits from now for the time requested, exactly when the native side takes both calls; else it stops and says why |
| RegistrationWaits.SubmittedMeansArmed | src/baresip_registration_command_dispatcher.h:68-82 | After any run, a tick that reported a submission has armed the wait of its last request, from the time of the tick, for the session it opened |
| RegistrationWaits.WaitsThroughout | src/baresip_sdk_registration_gateway.h:62-80 | As long as nothing happens, every tick within the wait leaves the deadline armed as it was |
| RegistrationWaits.UnconfirmedRegistrationExpires | src/baresip_registration_command_dispatcher.h:29-98 | After any run that ended in a submission that stays unconfirmed: the first tick past its wait, whatever happens during it, reports the deadline over and leaves the gateway down and the queue shut |
| RegistrationWaits.TickTellsVerdict | src/baresip_registration_command_dispatcher.h:83-97 | A tick over a waiting registration reports it expired, confirmed or pending exactly by clock and confirmation, and stops it, disarms it, or leaves everything alone |
| RegistrationWaits.DisarmedTickIsIdle | src/baresip_registration_command_dispatcher.h:83-97 | A confirmed registration stays up however late it is |
| RegistrationWaits.ShutTickTells | src/baresip_registration_command_dispatcher.h:29-55 | The tick after a cancel or overflow says which it was and leaves the gateway down |
| RegistrationWaits.FurtherRequestStops | src/baresip_sdk_registration_gateway.h:28-31 | A further request while a registration is up stops it, and says whether its session still lived |
| RegistrationWaits.InterruptedCallFails | src/baresip_registration_command_dispatcher.h:61-74 | A cancel, error or lost session during the SDK's register call decides how the tick ends |
| RegistrationWaits.SupersededTickTells | src/baresip_registration_command_dispatcher.h:55-80 | A tick that is shut out between two of its steps says so at its next check, and leaves the gateway down |
| RegistrationWaits.NextGenerationBegins | src/baresip_registration_command_queue.h:34-42 | Once the loop has been told, the next generation can begin, as long as a number is left |
| RegistrationWaits.MisplacedTickTells | src/baresip_registration_command_dispatcher.h:29-36 | On another thread or for another generation a tick does nothing but say so |
| RegistrationTick.Dispatcher.RunTick | src/baresip_registration_command_dispatcher.h:29-98 | The code of the tick, under any schedule of interruptions and answers, does what the interleaving model does |
| RegistrationTick.Dispatcher.RunCommand | src/baresip_registration_command_dispatcher.h:43-82 | The same for one command of the batch |
| RegistrationTick.Dispatcher.PollDeadline | src/baresip_registration_command_dispatcher.h:83-97 | The same for the deadline after the batch |
| RegistrationTick.NextRanksLower | src/baresip_registration_command_dispatcher.h:29-98 | Every tick ends, however it is interrupted |
| RegistrationTick.TickIsARun | src/baresip_registration_command_dispatcher.h:29-98 | A scheduled tick is one of the interleavings, so what is proved of those holds of the code |
| CtiRequests.RequestQueue.AppendEvent | src/local_cti_requests.h:233-237 | Numbers a transition and keeps the last 64, up to the ceiling |
| CtiRequests.RequestQueue.Submit | src/local_cti_requests.h:85-95 | Creates a request when none is in flight |
| CtiRequests.RequestQueue.SubmitIdempotent | src/local_cti_requests.h:97-121 | Looks the key up before readiness and capacity, then creates |
| CtiRequests.RequestQueue.RejectPending | src/local_cti_requests.h:125-138 | Rejects the queued request |
| CtiRequests.RequestQueue.Take | src/local_cti_requests.h:140-153 | Hands the queued request over |
| CtiRequests.RequestQueue.Complete | src/local_cti_requests.h:155-166 | Finishes the request being dispatched |
| CtiRequests.RequestQueue.Cancel | src/local_cti_requests.h:168-181 | Cancels the request only while it is queued |
| CtiRequests.RequestQueue.Get | src/local_cti_requests.h:183-188 | The kept record of an identifier |
| CtiRequests.RequestQueue.EventsAfter | src/local_cti_requests.h:190-199 | The page of kept transitions after a cursor |
| CtiRequests.RequestQueue.EventsAfterForRequest | src/local_cti_requests.h:205-220 | The page of one known request |
| CtiRequests.RequestQueue.Clear | src/local_cti_requests.h:222-229 | Forgets requests and transitions but reuses no number |
| CtiLedger.StepKeepsInv | src/local_cti_requests.h:85-181 | In the unbounded ledger only the newest request can still change, identifiers rise and kept keys are unique |
| CtiLedger.StepRefines | src/local_cti_requests.h:85-229 | The bounded queue and the unbounded ledger do and answer the same: lookups succeed, evictions lose only finished requests, and every kept record is in the state the log replays to |
| CtiLedger.RunRefines | src/local_cti_requests.h:85-237 | The same over any run |
| CtiFeed.AtMostOneInFlight | src/local_cti_requests.h:85-181 | In every reachable state at most one of pending and active is set, its record is the newest and Queued or Dispatching accordingly, and all others are terminal |
| CtiFeed.HistoriesAreLawful | src/local_cti_requests.h:125-181 | Every request's changes, over any run and any clears, follow its life cycle |
| CtiFeed.PageIsHonest | src/local_cti_requests.h:190-199 | A page flags a gap exactly when changes after the cursor are gone while others are kept; otherwise it is complete, unless nothing is kept and the cursor is behind |
| CtiFeed.SilentLossExactlyWhen | src/local_cti_requests.h:190-199 | Exception and exact condition: a page without a gap flag shows fewer changes than were made if and only if its cursor is behind a clear after which nothing changed, or the sequence is past its ceiling |
| CtiFeed.ClearHidesChanges | src/local_cti_requests.h:222-229 | Failing input: one submission and a clear, asked from the beginning |
| CtiFeed.PollingReconstructsTheLog | src/local_cti_requests.h:190-199 | Between clears, a client that polls from its last latest sequence and is told of no gap has received every change once and in order |
| CtiFeed.RequestFeedIsFiltered | src/local_cti_requests.h:205-220 | A request's feed exists exactly for kept requests and is the whole feed with the others' changes left out |
| CtiFeed.FeedTellsHistory | src/local_cti_requests.h:205-220 | Filtering the whole log by a request gives exactly its history |
| CtiFeed.FoundIsTheRequest | src/local_cti_requests.h:183-188 | A request is found if and only if it is kept, with its own key, its destination if it has a key, and the state of the last change made to it |
| CtiFeed.GetTellsTheHistory | src/local_cti_requests.h:183-188 | The same after any run |
| CtiFeed.ResubmittingChangesNothing | src/local_cti_requests.h:101-110 | While a key's record is kept, any number of resubmissions changes nothing |
| CtiFeed.KeyNamesOneRequest | src/local_cti_requests.h:101-110 | After anything at all, a kept request's key still leads to it: the same destination replays its identifier, another is a conflict, and no second request is made |

## Left out

- User interface, dialogs, message tables, renderers with fixed text, sockets and HTTP, audio devices, files and locks on disk: not modelled; file contents enter as bytes.
- libre and Baresip, mutex and condition-variable internals, allocation failure, erasure of secrets: SDK answers are arbitrary and locked bodies are atomic steps.
- CallbackRaces: a callback's work is any finite list of probes, publications and rejections, which it may cut short; callbacks do not wait for anything else.
- CallbackRaces: calls of begin and revoke_and_wait are serialized by their owner, and reject_current is called only under a lease, as the code requires and the adapter does.
- CallbackLifecycle: the count of leases in flight is unbounded; 2^64 leases at once are not modelled.
- CallbackLifecycle.Fence.Wait: the class describes calls without interference, so its wait is a loop in which the holders return their leases; other interleavings are the subject of CallbackRaces.
- EventAdapter: the process-wide claim on the SDK's event handler is a parameter of Start (whether it is free); that at most one adapter holds it is not proved.
- EventAdapter: flags set by the native call port (answer sent, hang-up sent, transfer attempted) are only cleared here; that port is not part of this model.
- NativeSessionControl: commands are modelled with drains that name no account, since the program's owner never names one; the account-naming observation is covered in EventProjection.
- EventPipeline: the stages run one after another, as on the event-loop and owner threads; races between callbacks and shutdown are the subject of CallbackRaces.
- RegistrationGateway: the SDK's unregister call inside stop may emit events, which are dropped with the epoch that ends there; they are not modelled separately.
- RegistrationTick: other threads' actions come from a schedule between the steps of a tick, in place of real concurrency.
- NativeDestination: an account is valid by its own fields; custom audio routes and certificate files enter the original's check only with their defaults, and the configuration strings themselves are not modelled.
- SipAddress: white space, control and digit classes of the C library are arbitrary outside ASCII; wider wchar_t than 16 bits is not modelled.
- ContactBook: swapping two books and the conflict rules of import are easy members and are left out.
- CtiRequests: JSON renderings of requests and pages have no hard property.
- RecentDestinations: a failed allocation inside remember, which leaves the list as it was, is not modelled.
- BaresipNativeIngress, CtiEventJournal, the retry and deadline policies and contact search repeat ideas proved here.
