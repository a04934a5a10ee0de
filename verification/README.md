# V2X ROS driver: verified model

The driver carries V2X messages between ROS and a radio. This project models, in Dafny, the parts of it that
hold real logic, and proves what they promise:

* **The inbound scanner.** A datagram may hold an SAE J2735 MessageFrame behind WSMP and IEEE 1609.2 header
  bytes. `FrameScan.Scan` says what is delivered, as a recursion over suffixes; the class
  `BaseRadioClients.BaseRadioClient` has the driver's loops over a byte array, its table that is loaded on
  demand and its exits, and is proved to do what `Scan` says.
* **The decoder script's extractor**, compared with the scanner.
* **The outbound path.** WAVE text and its hexadecimal payload with a reference reader; the send queue; the way
  from a message ID through the PSID table to an MQTT topic; and the loop from packing to publishing.
* **The connection protocol**: the node's callbacks and connect threads working on one UDP client, resource by
  resource, and the MQTT library's reference count, as atomic steps in every interleaving.

## How to read it

| file | models |
|---|---|
| `Bytes.dfy`, `Numerals.dfy` | bytes, shift/mask arithmetic, `std::to_string`, `std::hex`, `std::stoi` |
| `WaveTable.dfy` | the client's and the node's copies of the wave configuration, and their lookups |
| `FrameScan.dfy`, `Encapsulation.dfy` | the scan specification and its theorems |
| `BaseRadioClient.dfy` | the client's inbound methods, loops included |
| `GrabPayload.dfy` | the decoder script's extractor |
| `WaveText.dfy`, `DriverNode.dfy`, `OutboundQueue.dfy`, `Loopback.dfy` | the node's message handlers and text format |
| `MqttRadioClient.dfy`, `LibraryCount.dfy` | topics, publishing, library reference count |
| `UdpRadioClient.dfy` | the UDP client's connect and close, as calls and step by step |
| `ConnectProtocol.dfy` | callbacks and connect threads: the state machine and what every interleaving keeps |
| `ReconnectRuns.dfy` | what a reconnect call comes to, when `close` and `connect` meet, and what happens then |
| `ShippedTable.dfy` | the general theorems applied to `etc/wave.json` |

`dafny verify dfyconfig.toml` checks everything.

What is assumed of the surroundings, and how it enters the model:

* A wave file is a parameter: `WaveFiles` maps the paths that open, parse and fit the schema to their entries.
* The PSID window check reads up to twelve bytes from the frame's start, which near the end of a datagram lie
  behind it. Those bytes are a parameter (`Overread`), and every theorem holds for all of their values; with
  twelve bytes left they are not read (`FrameScan.WindowInsideDatagram`).
* An exception of `std::stoi` on a PSID that is not a hexadecimal number leaves the scan or the send; it is an
  outcome of its own (`Throws`, `Threw`). On the UDP client's io thread nothing catches it, so a series of
  datagrams ends there. The schema asks for hexadecimal text without enforcing it; on such text no check throws
  (`WaveTable.PsidLookupOfHexRows`).
* Text is a string of 8-bit characters.
* Callbacks run one at a time (the node creates no callback groups). Reading or writing one flag is one step, and
  so is building or releasing one resource. `ConnectProtocol` has one configure per run, and its protocol is UDP.
  An exception that leaves a callback ends that callback only, so that the next one finds what it left behind
  (where a result rests on this, its row or bullet says so).
* How a library call ends (address resolution, socket, start of the io thread or of a connect thread, send,
  publish) is a parameter. A join of the io thread returns.

What the code does not do, although its comments or interface suggest it:

* A canonical frame with 125, 126 or 127 payload bytes is not accepted: the scanner chooses the width of the
  length field by the size of the frame and not of the payload (`FrameScan.CanonicalFrameExactly`).
* The outbound PSID lookup never loads the table. Until an inbound datagram has been scanned a message goes to
  the topic it has afterwards exactly if its PSID's number is its fallback number
  (`MqttRadioClients.UnloadedTopicExactly`); with the shipped table only a BSM does.
* Without PSID, IDs 90 and 8010 share a topic (`MqttRadioClients.FallbackCollision`).
* A message whose PSID is no number, which the schema admits (`MqttRadioClients.WordForPsidIsUnsendable`), makes
  its send throw; where that ends the callback only, it stays at the front of the outbound queue and blocks it
  (`MqttRadioClients.UnsendableBlocksExactly`).
* A second MQTT client can be complete before the library is initialised (`LibraryCount.UninitialisedExactly`).
* `close` in a reconnect call can tear the client down while a connect attempt builds it
  (`ReconnectRuns.TeardownMeetsConnectExactly`), and two reconnect calls in a row then end the process with no
  library call failing, in either of two ways. The attempt replaces an io thread that was never joined, having
  destroyed the io service under it before (`ConnectProtocol.IoThreadReplacedExactly`,
  `ReconnectRuns.ReconnectCanCrash`); or `close` stops a listener that the attempt has just dropped
  (`ConnectProtocol.CloseFaultsExactly`, `ReconnectRuns.CloseCanFault`). Neither can happen when reconnect calls
  are only made while `connecting_` is down (`ReconnectRuns.PoliteRunsNeverMeet`).
* `connect` destroys the old io service before the old listener, whose socket refers to it. `close` only stops the
  listener, so this happens on every reconnect of a running client, and after every attempt that bound its
  listener and failed behind it (`UdpRadioClients.OrphanedExactly`, `ConnectProtocol.ListenerOrphanedExactly`): a
  client that runs again has done it (`ReconnectRuns.ReconnectOrphans`), and of n connects at least n - 1 have
  (`UdpRadioClients.ConnectsOrphan`).
* A connect thread that fails to start leaves `connect_thread_` at a joined thread if there was an earlier one
  (`ConnectProtocol.StrandedExactly`). Where the exception ends the callback only, no attempt is ever made again
  (`ConnectProtocol.StrandedForever`), no later reconnect call brings the client up
  (`ReconnectRuns.ReconnectBringsUpExactly`), and shutdown leaves at its join
  (`ConnectProtocol.ShutdownThrowsExactly`), possibly with the client running and its io thread unjoined
  (`ReconnectRuns.ShutdownCanLeaveClientRunning`).
* `close` releases nothing that an attempt left behind which failed behind its bound listener: listener and port
  stay (`UdpRadioClients.LeftBoundExactly`).

## Model

| member | source | states |
|---|---|---|
| Bytes.ShiftOrIsBigEndian | v2x_ros_driver/src/base_radio_client.cpp:55 | shifting the first byte and OR-ing the second gives the big-endian value the model uses |
| Bytes.MaskDropsTopBit | v2x_ros_driver/src/base_radio_client.cpp:105 | the mask 0x7F drops the top bit as the model does, by arithmetic |
| Numerals.PrintInjective | v2x_ros_driver/src/base_radio_client.cpp:56 | no two IDs have the same decimal text, so comparing texts compares IDs |
| Numerals.StoiOfHex | v2x_ros_driver/etc/wave_schema.json:13-15 | a PSID written in hexadecimal, as the schema describes it, reads in base 16 as its number up to the largest int, and throws above it |
| Numerals.StoiExactly | v2x_ros_driver/src/base_radio_client.cpp:131 | white space, a sign and 0x before hexadecimal digits of either case, and any other character behind them, leave the number they spell; it is None iff that is no 32-bit int |
| Numerals.StoiNeedsDigits | v2x_ros_driver/src/base_radio_client.cpp:131 | without a digit behind white space and sign there is no number |
| Numerals.UpperReadsAsLower | v2x_ros_driver/src/base_radio_client.cpp:131 | upper and lower case digits have one value |
| Numerals.StoiOfDecimal | v2x_ros_driver/src/mqtt_radio_client.cpp:298 | reading decimal text in base 16 gives the number whose hexadecimal digits are those decimal digits |
| Numerals.RereadStrictlyIncreasing | v2x_ros_driver/src/mqtt_radio_client.cpp:298 | that map keeps the order of all naturals |
| WaveTable.PsidLookupExactly | v2x_ros_driver/src/base_radio_client.cpp:129-135 | an ID is a possible PSID iff some row reads as it and all rows before it read as numbers; it is not iff all rows read and none as it |
| WaveTable.PsidLookupOfHexRows | v2x_ros_driver/src/base_radio_client.cpp:121-136 | when the PSIDs are hexadecimal ints, an ID is a possible PSID iff it is one of them, and no check throws |
| WaveTable.PsidForIsFirst | v2x_ros_driver/src/base_radio_client.cpp:258-268 | the PSID for an ID is the one beside the first row with that ID, and empty iff there may be none |
| WaveTable.ReloadingIsInvisible | v2x_ros_driver/src/base_radio_client.cpp:248-253 | loading a file any number of times leaves every lookup as after the first |
| WaveTable.LazyLoadingSettles | v2x_ros_driver/src/base_radio_client.cpp:159-163 | the first check on empty tables leaves the tables of a preloaded client; later checks change nothing; the two lists stay equally long |
| WaveTable.FindByName | v2x_ros_driver/src/v2x_ros_driver_node.cpp:217-220 | the first entry with the name, or none iff no entry has it |
| WaveTable.TypeNameIsFirst | v2x_ros_driver/src/v2x_ros_driver_node.cpp:194-202 | a recognised ID is published under the name of its first entry, any other as "Unknown" |
| WaveTable.TypeNameOfEntry | v2x_ros_driver/src/v2x_ros_driver_node.cpp:194-202 | with distinct IDs it is published under its own entry's name |
| FrameScan.DeliveredExactly | v2x_ros_driver/src/base_radio_client.cpp:43-86 | a frame is delivered iff it is the suffix at the least index whose ID is recognised, whose stated length is right by arithmetic on its size and which is no PSID header of a BSM, with no oversize candidate and no throwing check up to it; the ID is the big-endian pair there |
| FrameScan.DiscardedExactly | v2x_ros_driver/src/base_radio_client.cpp:65-68 | a datagram is given up for size iff its first recognised ID is more than 16383 bytes from the end |
| FrameScan.ThrewExactly | v2x_ros_driver/src/base_radio_client.cpp:75-84 | an exception leaves the scan iff a fitting candidate within the limit breaks the PSID check and all earlier candidates are within the limit and not framed |
| FrameScan.PrefixTransparency | v2x_ros_driver/src/base_radio_client.cpp:53-56 | with recognised IDs below 256, any run of nonzero bytes before any datagram changes nothing |
| FrameScan.ScanOfSameLookups | v2x_ros_driver/src/base_radio_client.cpp:43-86 | a scan depends on the tables only through their lookups |
| FrameScan.ReloadingKeepsScans | v2x_ros_driver/src/base_radio_client.cpp:248-253 | a table loaded any number of times gives the same scan of every datagram |
| FrameScan.TwoByteLengthExactly | v2x_ros_driver/src/base_radio_client.cpp:94-107 | a suffix of 128 to 16383 bytes fits iff byte 3 is the low byte of size-4 and byte 2 its high byte, with or without 0x80 |
| FrameScan.OneByteLengthExactly | v2x_ros_driver/src/base_radio_client.cpp:109-114 | a suffix of 4 to 127 bytes fits iff its third byte is its size less three |
| FrameScan.LengthMatchesExactly | v2x_ros_driver/src/base_radio_client.cpp:90-117 | for every size the length test is that arithmetic |
| FrameScan.DeliveredFramesStateTheirSize | v2x_ros_driver/src/base_radio_client.cpp:43-117 | every delivered frame is a suffix of 4 to 16383 bytes that states its own size in its length field and its ID in its first two bytes |
| FrameScan.ShortDatagramExactly | v2x_ros_driver/src/base_radio_client.cpp:43-117 | a datagram of up to 127 bytes that begins with a recognised ID which is no PSID is delivered as it is iff its third byte is its size less three |
| FrameScan.CanonicalFrameExactly | v2x_ros_driver/src/base_radio_client.cpp:65-117 | a canonical frame with a recognised ID arrives whole iff its payload has 1..124 or 128..16379 bytes, its PSID check does not throw and, if the ID is a listed PSID, no BSM shows in the window |
| FrameScan.WindowOffsets | v2x_ros_driver/src/base_radio_client.cpp:141-153 | the window check succeeds iff 0x0380 lies at an offset 0..5 and 0x0014 two to five bytes behind it |
| FrameScan.WindowInsideDatagram | v2x_ros_driver/src/base_radio_client.cpp:138-155 | with twelve bytes left the check does not depend on what follows the datagram |
| FrameScan.ScanInsideDatagram | v2x_ros_driver/src/base_radio_client.cpp:43-86 | neither does the scan when every fitting candidate that is a listed PSID has twelve bytes left |
| Encapsulation.CanonicalLengthReads | v2x_ros_driver/src/base_radio_client.cpp:138-155 | the inner length put between header and message in these results reads back as the message's size |
| Encapsulation.HeaderIsWalkedOver | v2x_ros_driver/src/base_radio_client.cpp:53-56 | header bytes in which no ID from 4 to 255 starts, followed by a zero byte, are skipped |
| Encapsulation.HeaderIsSeenThrough | v2x_ros_driver/src/base_radio_client.cpp:75-84 | a WSMP header with PSID 0x0020 before a BSM is not taken for a PSM, whatever its length bytes say |
| Encapsulation.EncapsulatedBsmIsRecovered | v2x_ros_driver/src/base_radio_client.cpp:43-86 | behind PSID 0x0020, any WSM length, 0x0380 and a canonical inner length, a well-formed BSM is delivered exactly as it is iff the datagram is not over 16383 bytes |
| BaseRadioClients.MemoryAt | v2x_ros_driver/src/base_radio_client.cpp:143 | a read at an index is the datagram's byte or, past its end, one of the eight bytes behind it |
| BaseRadioClients.LoadingOnDemandIsInvisible | v2x_ros_driver/src/base_radio_client.cpp:121-170 | over every series of datagrams, up to a scan that throws, a fresh client signals what a preloaded one would; without a file, nothing |
| BaseRadioClients.BaseRadioClient.constructor | v2x_ros_driver/src/base_radio_client.cpp:29 | a client begins with empty tables, no path and no signals |
| BaseRadioClients.BaseRadioClient.SetWaveFilePath | v2x_ros_driver/src/base_radio_client.cpp:174-177 | sets the path and nothing else |
| BaseRadioClients.BaseRadioClient.LoadWaveConfigIds | v2x_ros_driver/src/base_radio_client.cpp:179-254 | a load appends one ID and one PSID per entry; a failed one changes nothing |
| BaseRadioClients.BaseRadioClient.IsValidMsgID | v2x_ros_driver/src/base_radio_client.cpp:157-170 | true iff the text is in the ID list as it stands after loading on demand |
| BaseRadioClients.BaseRadioClient.IsPossiblePSID | v2x_ros_driver/src/base_radio_client.cpp:121-136 | the outcome of the PSID lookup after loading on demand, exceptions included |
| BaseRadioClients.BaseRadioClient.IsValidMsgSize | v2x_ros_driver/src/base_radio_client.cpp:90-117 | true iff the third byte, or from 128 bytes on the third without its top bit and the fourth, is the number of bytes left in the datagram behind the header; false below three bytes |
| BaseRadioClients.BaseRadioClient.IsValidMsgAssumingBSMPSID | v2x_ros_driver/src/base_radio_client.cpp:138-155 | the nested loops find what the window specification asks for in the twelve bytes from the index, and no byte behind them matters |
| BaseRadioClients.BaseRadioClient.Examine | v2x_ros_driver/src/base_radio_client.cpp:55-84 | the checks at one index give the specification's verdict on the suffix there |
| BaseRadioClients.BaseRadioClient.Process | v2x_ros_driver/src/base_radio_client.cpp:43-86 | a datagram adds at most one signal: the one the scan of it under the tables after loading on demand gives; an exception leaves iff the scan throws; the file is loaded by the first datagram of four bytes and never again |
| BaseRadioClients.BaseRadioClient.PsidForDsrcMsgId | v2x_ros_driver/src/base_radio_client.cpp:258-268 | the PSID lookup on the tables as they are |
| GrabPayloads.Find | scripts/v2x_decoder_forwarder.py:52 | the first index of a byte pair, or none iff it does not occur |
| GrabPayloads.GrabPayloadExactly | scripts/v2x_decoder_forwarder.py:50-55 | the suffix at the first BSM pair, without one at the first SDSM pair, and nothing iff there is neither |
| GrabPayloads.ExtractorsOnBsm | scripts/v2x_decoder_forwarder.py:50-55 | when the driver delivers a BSM the script returns a suffix that contains it, and the same bytes iff no pair 00 14 precedes it |
| GrabPayloads.ExtractorsOnSdsm | scripts/v2x_decoder_forwarder.py:50-55 | when the driver delivers an SDSM the two agree iff there is no pair 00 14 at all and no pair 00 29 before it |
| GrabPayloads.ExtractorsOnEncapsulatedBsm | scripts/v2x_decoder_forwarder.py:50-55 | the script finds a BSM behind its headers without knowing them |
| WaveText.HexByteIsDigitPair | v2x_ros_driver/src/v2x_ros_driver_node.cpp:88-91 | width 2, fill 0 and base 16 print a byte as its two nibbles, high one first |
| WaveText.Base16RoundTrip | v2x_ros_driver/src/v2x_ros_driver_node.cpp:86-93 | decoding the hexadecimal text of any bytes gives them back |
| WaveText.Base16IsLowerCase | v2x_ros_driver/src/v2x_ros_driver_node.cpp:86-93 | two characters a byte, letters in lower case |
| WaveText.TextRoundTrip | v2x_ros_driver/src/v2x_ros_driver_node.cpp:238-249 | a reader that insists on the seven fixed lines recovers type, PSID, priority, channel and payload from the twelve when they hold no newline |
| WaveText.PackRoundTrip | v2x_ros_driver/src/v2x_ros_driver_node.cpp:215-253 | the packed bytes carry the message's own type and content and its entry's or the default fields |
| WaveText.PackedCarries | v2x_ros_driver/src/v2x_ros_driver_node.cpp:215-253 | the packed bytes read as the message's type and content with PSID, priority and channel of the first entry of its type, or without one with its first two bytes in decimal, 1 and CCH |
| WaveText.PackInjective | v2x_ros_driver/src/v2x_ros_driver_node.cpp:215-253 | two messages with the same packed bytes are the same |
| DriverNodes.WriteLine | v2x_ros_driver/src/v2x_ros_driver_node.cpp:238-249 | streaming a line and endl extends the text by that line |
| DriverNodes.Uint8VectorToHexString | v2x_ros_driver/src/v2x_ros_driver_node.cpp:86-93 | the loop prints the base-16 text of its bytes |
| DriverNodes.Node.WriteText | v2x_ros_driver/src/v2x_ros_driver_node.cpp:238-249 | the twelve lines in order |
| DriverNodes.Node.PackMessage | v2x_ros_driver/src/v2x_ros_driver_node.cpp:215-253 | the packed bytes of the message, which read as `WaveText.PackedCarries` says |
| DriverNodes.Node.OnOutboundMessage | v2x_ros_driver/src/v2x_ros_driver_node.cpp:259-284 | puts one message on the queue when the radio is connected and none otherwise: for MQTT the content itself, for UDP bytes that read as the message with its entry's fields; then one send |
| DriverNodes.Node.SendMessageFromQueue | v2x_ros_driver/src/v2x_ros_driver_node.cpp:290-303 | the front message leaves the queue, sent or refused, unless the send throws |
| DriverNodes.Node.OnMessageReceivedHandler | v2x_ros_driver/src/v2x_ros_driver_node.cpp:193-205 | publishes the frame once: under the name in the first entry with its ID, or as "Unknown" when no entry has it |
| OutboundQueue.Conservation | v2x_ros_driver/src/v2x_ros_driver_node.cpp:259-303 | over every run, what left the queue followed by what is in it is what there was followed by what was offered; one message stays per throwing send |
| OutboundQueue.EmptyBetweenCallbacks | v2x_ros_driver/src/v2x_ros_driver_node.cpp:282-303 | from an empty queue it is empty again iff no send threw, and then a refused send drops its own message and no other |
| Loopback.RoundTripExactly | v2x_ros_driver/src/v2x_ros_driver_node.cpp:193-253 | a message packed, read back, scanned and published comes back unchanged iff the scanner accepts its content as it stands and its type is the one published for its ID |
| Loopback.Receive | v2x_ros_driver/src/v2x_ros_driver_node.cpp:193-205 | a datagram through the client's loops, and each signal through the handler, publishes what the scan of it under the loaded file gives, whether or not the client had loaded it |
| Loopback.SendAndReceive | v2x_ros_driver/src/v2x_ros_driver_node.cpp:193-253 | the same loop through the classes: packed by a node, scanned by a client, handled by a node, a message is published unchanged and alone iff the scanner accepts its content as it stands and its type is the one for its ID |
| Loopback.ListedMessageSurvives | v2x_ros_driver/src/v2x_ros_driver_node.cpp:193-253 | with distinct IDs every accepted message whose type and ID are one entry's comes back unchanged |
| Loopback.PublishedIsNamed | v2x_ros_driver/src/v2x_ros_driver_node.cpp:193-204 | with both tables from one file, everything published has the name of an entry with its ID |
| MqttRadioClients.OverrideHit | v2x_ros_driver/src/mqtt_radio_client.cpp:279-295 | the decimal text of a number is an override key iff the number is 8010 |
| MqttRadioClients.FallbackNumber | v2x_ros_driver/src/mqtt_radio_client.cpp:156-170 | without PSID the topic number is the ID's decimal digits read in base 16, but 144 for 8010 |
| MqttRadioClients.FallbackCollision | v2x_ros_driver/src/mqtt_radio_client.cpp:156-170 | two IDs without PSID share a topic iff they are equal or are 90 and 8010 |
| MqttRadioClients.TopicTextInjective | v2x_ros_driver/src/mqtt_radio_client.cpp:300 | topics with one prefix are equal only for equal numbers |
| MqttRadioClients.UnloadedTopicExactly | v2x_ros_driver/src/mqtt_radio_client.cpp:162-170 | for every table and ID, the topic with empty tables is the topic after loading iff the PSID's number is the ID's fallback number |
| MqttRadioClients.WordForPsidIsUnsendable | v2x_ros_driver/src/mqtt_radio_client.cpp:162-170 | in a table whose PSID is a word, such as the schema admits, no message of that row has a topic |
| MqttRadioClients.UnsendableBlocksExactly | v2x_ros_driver/src/v2x_ros_driver_node.cpp:290-303 | an exception ending its callback only, under fixed tables a front message whose PSID is no number stays, with everything offered behind it, and leaves unsent iff a callback finds the connection gone between its test and the send |
| MqttRadioClients.SendEffectExactly | v2x_ros_driver/src/mqtt_radio_client.cpp:151-189 | which case refuses, throws and sends; only a send publishes, and it publishes the whole message once, under prefix, path and decimal topic number |
| MqttRadioClients.MqttRadioClient.SendV2xMessage | v2x_ros_driver/src/mqtt_radio_client.cpp:151-189 | refuses when down or given under two bytes; else publishes the whole message once under prefix, path and decimal topic number, throws without a number, or is refused by the library; nothing else is published |
| ShippedTable.RecognisedIds | v2x_ros_driver/etc/wave.json:1-100 | the shipped table recognises its fourteen IDs and no others |
| ShippedTable.ShippedTableRecoversBsm | v2x_ros_driver/etc/wave.json:1-100 | under the shipped table encapsulated BSMs are recovered, with no assumption on the table left |
| ShippedTable.LoadedTopic | v2x_ros_driver/src/mqtt_radio_client.cpp:279-299 | the topic number of each shipped message type once the table is loaded |
| ShippedTable.ShippedUnloadedTopic | v2x_ros_driver/etc/wave.json:1-100 | with the shipped table, before it is loaded, a listed message goes out on the topic it has afterwards iff it is a BSM |
| LibraryCount.EveryRunIsBalanced | v2x_ros_driver/src/mqtt_radio_client.cpp:32-51 | in every interleaving the counter is the number of clients between their counter steps, and inits issued or pending exceed cleanups issued or pending by one iff it is positive |
| LibraryCount.ConstructTakesEffect | v2x_ros_driver/src/mqtt_radio_client.cpp:32-41 | a new client raises the counter by one and has an init to make iff no client is counted |
| LibraryCount.DestroyTakesEffect | v2x_ros_driver/src/mqtt_radio_client.cpp:43-51 | destroying a client lowers the counter by one and leaves a cleanup to be made iff no other client is counted |
| LibraryCount.PendingCallsTakeEffect | v2x_ros_driver/src/mqtt_radio_client.cpp:36-51 | a pending init or cleanup can be made, is counted, and completes its constructor or destructor |
| LibraryCount.EveryRunWindsDown | v2x_ros_driver/src/mqtt_radio_client.cpp:32-51 | every run extends, with no new client, to one with no client left, counter 0 and as many cleanups as inits |
| LibraryCount.QuietLibrary | v2x_ros_driver/src/mqtt_radio_client.cpp:32-51 | with no library call outstanding, inits exceed cleanups by one iff a client exists; by the rows above such states are reached from every run, with clients and without |
| LibraryCount.UninitialisedExactly | v2x_ros_driver/src/mqtt_radio_client.cpp:36-40 | while a constructed client exists, inits do not exceed cleanups iff an init and no cleanup is outstanding |
| LibraryCount.SecondClientComesFirst | v2x_ros_driver/src/mqtt_radio_client.cpp:36-40 | a run in which a client is constructed before any init |
| UdpRadioClients.UdpRadioClient.constructor | v2x_ros_driver/src/udp_radio_client.cpp:44-48 | a client begins closed and without resources |
| UdpRadioClients.UdpRadioClient.Connect | v2x_ros_driver/src/udp_radio_client.cpp:55-136 | for every state and every way its calls can end: the result, the error code and every resource afterwards, counting io services destroyed under a listener, and including the end of the process when it replaces an unjoined io thread; keeps the lifecycle invariant, and then never does the latter |
| UdpRadioClients.UdpRadioClient.SetUp | v2x_ros_driver/src/udp_radio_client.cpp:122-135 | its end, from the bound listener on |
| UdpRadioClients.ConnectReportsExactly | v2x_ros_driver/src/udp_radio_client.cpp:55-136 | which outcome and which error code goes with which failure; a connect that does not succeed changes neither flag, signals nor io thread, and nothing at all before the address is resolved |
| UdpRadioClients.UdpRadioClient.Close | v2x_ros_driver/src/udp_radio_client.cpp:138-148 | joins the io thread and releases the resources of a running client, signalling once; changes nothing otherwise |
| UdpRadioClients.CloseReleases | v2x_ros_driver/src/udp_radio_client.cpp:138-148 | over every run: after closing a running client no work, socket or listener is in use, the io thread is joined, and one signal was given |
| UdpRadioClients.EveryRunIsSound | v2x_ros_driver/src/udp_radio_client.cpp:55-148 | over every run of connects and closes: signals take turns starting with onConnect, every io thread is joined before the next starts, a running client has all resources close uses, and every listener ever bound saw its io service destroyed first, but for the one that is there |
| UdpRadioClients.SignalsBalance | v2x_ros_driver/src/udp_radio_client.cpp:55-148 | onConnect exceeds onDisconnect, and threads started exceed threads joined, by one iff the client runs |
| UdpRadioClients.LeftBoundExactly | v2x_ros_driver/src/udp_radio_client.cpp:100-140 | a bound listener is left with no client running iff the last attempt bound it and could not finish; it listens iff only the io thread was missing; a listener is there at all iff the last attempt bound it |
| UdpRadioClients.CloseLeavesListener | v2x_ros_driver/src/udp_radio_client.cpp:138-140 | two runs in which close leaves such a listener |
| UdpRadioClients.OrphanedExactly | v2x_ros_driver/src/udp_radio_client.cpp:95-101 | a connect destroys an io service under a listener's socket iff it gets as far as replacing it and the last attempt to do so bound its listener |
| UdpRadioClients.ReconnectCallsOrphan | v2x_ros_driver/src/udp_radio_client.cpp:95-145 | every close and connect of a running client that gets past the address does |
| UdpRadioClients.ConnectsOrphan | v2x_ros_driver/src/udp_radio_client.cpp:95-145 | over every run, of n connects signalled at least n - 1 did |
| UdpRadioClients.UninterruptedBody | v2x_ros_driver/src/udp_radio_client.cpp:60-135 | the steps of a connect taken in a row are the call, for every client and every way its calls end |
| UdpRadioClients.UninterruptedClose | v2x_ros_driver/src/udp_radio_client.cpp:138-148 | the steps of a close taken in a row are the call, and none faults |
| UdpRadioClients.BodyStepIsSound | v2x_ros_driver/src/udp_radio_client.cpp:60-135 | begun on a sound closed client and undisturbed, every step of a connect keeps what it needs, every exit leaves a sound client, and no unjoined io thread is replaced |
| UdpRadioClients.CloseStepIsSound | v2x_ros_driver/src/udp_radio_client.cpp:138-148 | likewise for close, which never faults and ends closed |
| ConnectProtocol.InvHolds | v2x_ros_driver/src/v2x_ros_driver_node.cpp:348-555 | the protocol invariant holds in every interleaving, failing thread starts and meetings of close and connect included |
| ConnectProtocol.AtMostOneThread | v2x_ros_driver/src/v2x_ros_driver_node.cpp:389-395 | at most one connect thread is alive, connect_thread_ refers to it, none is alive when one is spawned, and none is joined twice unless a thread has failed to start |
| ConnectProtocol.ConnectingMeansAlive | v2x_ros_driver/src/v2x_ros_driver_node.cpp:389-444 | while every thread has started, the flag is up only while one is alive or about to be spawned; pre_spin never finds it up |
| ConnectProtocol.ConnectBodiesAreExclusive | v2x_ros_driver/src/udp_radio_client.cpp:60-135 | connect bodies never overlap, and the client stays closed until a body opens it |
| ConnectProtocol.IoThreadReplacedExactly | v2x_ros_driver/src/udp_radio_client.cpp:95-126 | in every run, a body replaces an unjoined io thread iff it starts its own while a callback's close has lowered the flag and not joined; an io service was destroyed under a running io thread before |
| ConnectProtocol.IoServiceLostExactly | v2x_ros_driver/src/udp_radio_client.cpp:95 | that first happens iff a body builds its io service while a callback's close has lowered the flag and not joined |
| ConnectProtocol.ListenerOrphanedExactly | v2x_ros_driver/src/udp_radio_client.cpp:95-101 | in every interleaving an io service is destroyed under a listener's socket iff a body replaces it while a listener bound before has not seen this yet; all have but the one that is there |
| ConnectProtocol.CloseFaultsExactly | v2x_ros_driver/src/udp_radio_client.cpp:138-148 | close finds what it uses in every interleaving, but for a listener that a body has dropped |
| ConnectProtocol.StrandedExactly | v2x_ros_driver/src/v2x_ros_driver_node.cpp:392-395 | connect_thread_ is left at a joined thread iff some thread failed to start while it referred to an earlier one |
| ConnectProtocol.StrandedForever | v2x_ros_driver/src/v2x_ros_driver_node.cpp:392-395 | an exception ending its callback only, from then on no thread is ever started again, and a closed client stays closed |
| ConnectProtocol.ShutdownOutcome | v2x_ros_driver/src/v2x_ros_driver_node.cpp:540-555 | after a shutdown that finished no connect thread is alive, the io thread is joined and the client is closed, until the next callback |
| ConnectProtocol.ShutdownThrowsExactly | v2x_ros_driver/src/v2x_ros_driver_node.cpp:543-548 | an exception ending its callback only, shutdown goes on to close the client iff in the whole run no connect thread failed to start while connect_thread_ referred to an earlier one; otherwise it leaves at its join with the client as it is |
| ConnectProtocol.NoCallbackHangs | v2x_ros_driver/src/v2x_ros_driver_node.cpp:379-447 | callback and thread take at most 49 effective steps, and are only stuck when the callback has returned and no thread is alive, or the process has ended |
| ReconnectRuns.PreSpinWhole | v2x_ros_driver/src/v2x_ros_driver_node.cpp:389-446 | pre_spin alone leaves a running client to itself and spawns one thread for a closed one |
| ReconnectRuns.PreSpinOnError | v2x_ros_driver/src/v2x_ros_driver_node.cpp:381-387 | an error reported before pre_spin looks makes it close the client and clear the error |
| ReconnectRuns.ReconnectCallWhole | v2x_ros_driver/src/v2x_ros_driver_node.cpp:348-359 | a reconnect call no thread disturbs closes the client, clears the error and spawns one thread |
| ReconnectRuns.ShutdownCallWhole | v2x_ros_driver/src/v2x_ros_driver_node.cpp:540-555 | a shutdown no thread disturbs lets go of its thread and closes the client |
| ReconnectRuns.UninterruptedReconnect | v2x_ros_driver/src/v2x_ros_driver_node.cpp:348-446 | a reconnect call and its thread undisturbed are close and connect in a row, for every way connect can end, and leave the node at rest |
| ReconnectRuns.UndisturbedRunsAreSound | v2x_ros_driver/src/udp_radio_client.cpp:60-148 | as long as no teardown has met a connect body, the process has not crashed, every body begins on a sound closed client, and outside bodies and teardowns the client is sound; sound includes the account of the io services destroyed under a listener |
| ReconnectRuns.PoliteRunsNeverMeet | v2x_ros_driver/src/v2x_ros_driver_node.cpp:348-359 | when reconnect calls are only made while connecting_ is down, no teardown ever meets a connect body |
| ReconnectRuns.ReconnectOutcome | v2x_ros_driver/src/v2x_ros_driver_node.cpp:348-359 | after a reconnect call with its thread ended the client is running and sound unless an attempt failed since the call or a teardown met a body |
| ReconnectRuns.ReconnectBringsUpExactly | v2x_ros_driver/src/v2x_ros_driver_node.cpp:348-359 | after any run, a reconnect call followed by any steps without a failure, a shutdown or a meeting ends with the client running and sound, that account included, iff the call did not find connect_thread_ at a joined thread |
| ReconnectRuns.ReconnectOrphans | v2x_ros_driver/src/v2x_ros_driver_node.cpp:348-359 | in every interleaving, a client that ran when a reconnect call came and runs again between callbacks has destroyed an io service under the old listener's socket since |
| ReconnectRuns.ReconnectSettles | v2x_ros_driver/src/v2x_ros_driver_node.cpp:348-359 | from every run without a meeting and not stranded such a continuation exists, and it meets nothing; if the client ran before, it destroys an io service under a listener's socket |
| ReconnectRuns.TeardownMeetsConnectOnlyAtRisk | v2x_ros_driver/src/udp_radio_client.cpp:138-148 | close tears down during a connect body only if, when it lowered the flag, a thread was about to pass its guard or to announce, and never at shutdown |
| ReconnectRuns.TeardownMeetsConnectExactly | v2x_ros_driver/src/udp_radio_client.cpp:138-148 | from a close about to lower the flag, that step and a thread's step bring a meeting about iff that thread is before its guard or one is about to announce |
| ReconnectRuns.ThreadRunsConnect | v2x_ros_driver/src/udp_radio_client.cpp:60-135 | a thread that passes its guard and runs uninterrupted changes the client as the call does, and crashes iff the call does |
| ReconnectRuns.CallbackRunsClose | v2x_ros_driver/src/udp_radio_client.cpp:138-148 | a callback that runs close uninterrupted changes the client as the call does |
| ReconnectRuns.ReconnectCanCrash | v2x_ros_driver/src/v2x_ros_driver_node.cpp:348-359 | a run of two reconnect calls in which nothing fails and the process is ended by the replaced io thread |
| ReconnectRuns.CloseCanFault | v2x_ros_driver/src/udp_radio_client.cpp:101-145 | another one, in which every io thread was joined and close stops a listener that is not there |
| ReconnectRuns.OneFailedStartStrands | v2x_ros_driver/src/v2x_ros_driver_node.cpp:392-395 | a run in which one failed thread start leaves connecting_ up, no thread alive and connect_thread_ at a joined thread |
| ReconnectRuns.ShutdownCanLeaveClientRunning | v2x_ros_driver/src/v2x_ros_driver_node.cpp:540-555 | a run in which shutdown then leaves the client running and its io thread unjoined |

## Left out

- BaseRadioClients.BaseRadioClient.IsValidMsgAssumingBSMPSID: a read past the datagram gives an arbitrary byte; that C++ leaves such a read undefined is not modelled.
- BaseRadioClients.BaseRadioClient.Examine: the body of the scan loop is a method of its own here, so that each part is proved separately; the source has it inline.
- DriverNodes.Node.PackMessage: content under two bytes with a type that is not in the table is excluded, because the source reads both bytes unchecked there.
- MqttRadioClients.MqttRadioClient.SendV2xMessage: the client's base class is a field, not a superclass.
- ReconnectRuns.ReconnectOutcome: for MQTT the connected flag is set by a library callback, so the outcome is stated for UDP only.
- ConnectProtocol.IoServiceLostExactly: what C++ leaves undefined once an io service was destroyed under its thread is not modelled; the run is read on as if the old thread could still be joined, until the replaced thread or the missing listener ends it.
- ConnectProtocol.ListenerOrphanedExactly: likewise, a socket destroyed after its io service is counted and the run read on; the out socket and the work object that a failed attempt leaves behind are destroyed late in the same way and not counted.
- ConnectProtocol.NoCallbackHangs: counts steps of callbacks and connect threads; that the io thread's join returns is assumed.
- UdpRadioClients.UdpRadioClient.SetUp: a method of its own here, so that each part is proved separately; the source has it inline.
- Sockets, DNS, the asio and MQTT libraries, ROS publishing, logging, JSON parsing and schema validation: opaque libraries, represented by their outcomes.
- Which of the two override entries for "0082" is kept: a parameter, with nothing claimed about it.
- MQTT `connect`, `close` and their callbacks: depend on when the library delivers callbacks.
- `sendMessageSrv`, `getStatusSrv`, parameter declarations and updates, `Config` printing, `UDPListener`, `UdpRadioClient::sendV2xMessage`: out of scope; they pass values on to ROS, the asio library or functions modelled here.
- `handle_on_configure`: only its call of `pre_spin` is modelled, as the start of the connection protocol.
- The decoder script's sockets and ASN.1 decoding: not part of this model.
