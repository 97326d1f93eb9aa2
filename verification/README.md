# GTPv2-C transactions, codec and middleware of the SPGW-C: a verified model

The control plane of a serving and packet gateway exchanges GTPv2-C messages with its peers
(3GPP TS 29.274). This project models three parts of it and proves what they are for:

* **the codec** — the message header, elements in type-length-instance-value form, nested bearer
  contexts, some twenty-five kinds of element, and Create Session Requests from the core structure
  to octets and back;
* **the transaction layer** — the four maps of `gtpv2c_stack`, the six handlers that change them, and
  whole runs of them with retransmission, replies, duplicates and time-outs;
* **the middleware** — its timer service and its message queues, as interleaved lock-sized steps.

`dafny verify dfyconfig.toml` checks everything.

## How it is laid out

| file | what it holds |
|---|---|
| `Octets.dfy` | network byte order, nibbles, reading from a stream that may end early |
| `Labels.dfy` | access point names as dotted text and as length-prefixed labels |
| `Elements.dfy` | elements: contents, what `dump_to` writes and `load_from` reads, kind by kind |
| `ElementRoundTrip.dfy` | `load_from` inverts `dump_to` on every well-formed element |
| `Messages.dfy` | element trees, the recursive factory, message header, message loop, builders' `add_ie` |
| `MessageRoundTrip.dfy` | whole messages survive the wire; lengths add up; what acceptance means |
| `Retransmission.dfy` | dumping again: identical octets, or period two |
| `MessageObjects.dfy` | the mutable message and stream objects and their loops |
| `CoreTypes.dfy`, `Conversions.dfy` | core structures, the constructors' elements, `to_core_type` back |
| `SessionRequest.dfy`, `SessionRoundTrip.dfy` | the Create Session Request builder and decoder, and their round trip over the builder's lists |
| `SessionPresence.dfy` | the presence masks bit by bit: which fields are written, in which order, and what comes back |
| `OrderIndependence.dfy` | exactly when the order of elements does not matter |
| `SessionObjects.dfy` | the mutable request with its setters, the builder's and decoder's loops |
| `Transactions.dfy` | message types, sequence numbers, what each handler makes of the stack |
| `TransactionRuns.dfy` | runs: the stack with its timers, ids and history; what every step keeps |
| `TransactionIndex.dfy` | what every run satisfies: index, timers, duplicates, answers, draining |
| `TransactionHistory.dfy` | runs: bounded retransmission, reports, duplicates |
| `PunctualTime.dfy` | runs in which timers expire on their deadlines |
| `TransactionStack.dfy` | the stack object and its handlers |
| `Timers.dfy` | the timer service, over all interleavings, and its object |
| `Queues.dfy`, `QueueRuns.dfy` | the message queues, over all interleavings, and their object; who gets a message, told from the moves alone |

Code that changes objects step by step is an object with a specification function beside it
(`MessageObject`, `RequestObject`, `Gtpv2cStack`, `TimerService`, `TaskQueues`): each method is proved
to compute what the function says, and the theorems are about the functions. Handlers take what the
id generator and the timer service return as parameters.

## What the code does that its description does not say

* **Order of elements.** Keeping the order of elements of equal type and instance is not enough: most
  setters of the request take any instance, so two recovery counters under instances 0 and 1 overwrite
  each other (`OrderCanMatter`). `OrderDoesNotMatter` gives the exact condition.
* **Retransmission bound.** The retry counter has eight bits. The bound of n3 retransmissions holds in
  every run if and only if 1 <= n3 <= 255 (`BoundedIffCounterFits`); beyond, one request is sent any
  number of times.
* **A late retry timer.** When a cleanup timer expires before a retry timer and a peer then uses the same
  number, the retry timer leads to a received request, which has no message to send again
  (src/gtpv2c/gtpv2c.cpp:808-811). `UndefinedIsReachable` gives the run, `UndefinedOverRuns` the exact
  condition; after such a step the model goes on as if the handler had returned. It cannot happen in
  punctual runs (`PunctualDefined`), nor while no number is opened with a retry timer mapped to it
  (`NeverUndefined`).
* **No retransmissions.** With n3 == 0 the same timer gives the received request up, reports its peer,
  and an answer on its id then leaves the index inexact: `IndexExactIffRetries`.
* **Identical retransmission.** FQ-CSID identifiers are exchanged in place at every dump. Retries repeat
  the original if and only if no identifier changes under that exchange (`IdenticalRetransmission`).
* **Source port.** A request leaves from the allocated port, its retransmissions from the well-known one
  (src/gtpv2c/gtpv2c.cpp:400, 820); so a retransmission repeats the octets, not the whole datagram.
* **Stale cleanup timers.** `stop_proc_cleanup_timer` erases from the map of retry timers
  (src/gtpv2c/gtpv2c.cpp:282), so the cleanup map keeps entries of ended procedures, and a cleanup
  timer stays armed after retry exhaustion. The invariants are stated and proved with those entries.
* **Abandoned ids.** Retry exhaustion neither frees the transaction id nor erases it from the index
  (src/gtpv2c/gtpv2c.cpp:823-836); `IndexOverRuns` says that these are the only entries left behind.
* **Cleanup of a missing procedure.** The cleanup branch dereferences the procedure before it tests
  whether there is one (src/gtpv2c/gtpv2c.cpp:842-846); those lines are modelled under the test.
* **A removal that comes too late.** The timer thread reads the slot without a lock and sends the
  time-out later (src/itti/itti.cpp:71-78, 91-97). A removal in between answers ok and the time-out
  still arrives (`TooLate`); `FiresAfterRemoval` says that these are the only such removals.
* **Equal deadlines.** The set of timers compares deadlines only, so a second timer for the same instant
  is dropped (`EqualDeadlinesLose`); nothing is lost otherwise (`TimersConserved`, `NothingLost`).
* **ULI lengths.** The declared length of a ULI is exact if and only if there is no RAI, and an LAI just
  when there is a macro eNodeB id (`UliExact`). The locations come back in any case, because
  `load_from` does not look at that length.
* **Names.** A decoder that meets an octet of 128 or more throws, stops early or never ends; the three
  are told apart in `Labels.DottedToStringSpec`.

## Assumptions

* Transaction ids and timers handed out are not in use, a local send gets a sequence number that is not
  pending, and answers are sent on ids that came with received requests (`Allowed`). A peer may use any
  number. Nothing is assumed about when timers expire: late, early, twice or after they were stopped.
* `IndexOverRuns`, `AnswersOverRuns` and `BoundedRetransmission` ask for one thing more, and only when
  n3 == 0: that no number is opened while a retry timer is mapped to it (`Admitted`).
* Punctual runs: timers expire on their deadlines, and a local send gets a number to which no armed
  cleanup timer is mapped.
* Maps insert without overwriting. Reads past the end of a stream leave the old value of the field.
* The host is little-endian, and the clock does not go backwards.

## Model

| member | source | states |
|---|---|---|
| `Octets.BigRoundTrip` | src/gtpv2c/3gpp_29.274.hpp:321-330 | a number that fits k octets is read back from its network byte order |
| `Labels.StringToDotted` | src/gtpv2c/3gpp_29.274.hpp:119-146 | the one-pass encoder writes every label preceded by its length, for every NUL-free name of at most 255 characters |
| `Labels.DottedToString` | src/gtpv2c/3gpp_29.274.hpp:147-169 | on every body the loop, over signed characters and a 16-bit cursor, gives the text and verdict, the exception or the endless loop of its specification |
| `Labels.PlainOctetsEnd` | src/gtpv2c/3gpp_29.274.hpp:147-169 | on octets below 128 the decoder's loop ends |
| `Labels.LoopsForever` | src/gtpv2c/3gpp_29.274.hpp:147-169 | where the specification says the decoder loops, its cursor really comes back to the start |
| `Labels.ApnRoundTrip` | src/gtpv2c/3gpp_29.274.hpp:119-169 | the decoder undoes the encoder, with a positive verdict, if and only if every label has at most 63 characters |
| `ElementRoundTrip.LeafRoundTrip` | src/gtpv2c/3gpp_29.274.cpp:78-354 | for every kind, the contents written for a well-formed element are read back exactly and the rest of the stream is untouched |
| `ElementRoundTrip.NodeBack` | src/gtpv2c/3gpp_29.274.hpp:3939-3982 | the packed FQ-CSID node gives back mcc, mnc and operator id |
| `ElementRoundTrip.ContainersBack` | src/gtpv2c/3gpp_29.274.hpp:1690-1716 | any list of protocol containers is read back in order |
| `ElementRoundTrip.PlacesBack` | src/gtpv2c/3gpp_29.274.hpp:3420-3475 | any combination of the eight locations of a ULI is read back |
| `Messages.Parse` | src/gtpv2c/3gpp_29.274.cpp:78-354 | the factory ends on every octet string and consumes octets whenever it makes an element |
| `Messages.LoadLeafShrinks` | src/gtpv2c/3gpp_29.274.cpp:78-354 | no element gives octets back to the stream, and each object built is sound |
| `Messages.WithTeid` | src/gtpv2c/3gpp_29.274.hpp:279-285 | setting the TEID flag leaves the other header flags alone |
| `MessageRoundTrip.IeRoundTrip` | src/gtpv2c/3gpp_29.274.hpp:84-95 | the factory reads back any well-formed element tree, groups nested to any depth |
| `MessageRoundTrip.GroupRoundTrip` | src/gtpv2c/3gpp_29.274.hpp:202-221 | a group's loop reads back exactly the children it was written with |
| `MessageRoundTrip.HeaderRoundTrip` | src/gtpv2c/3gpp_29.274.hpp:305-350 | the header comes back with or without TEID and priority |
| `MessageRoundTrip.MsgRoundTrip` | src/gtpv2c/3gpp_29.274.hpp:485-516 | any well-formed message is accepted as it was written, header and element tree, with nothing left over |
| `MessageRoundTrip.MsgSize` | src/gtpv2c/3gpp_29.274.hpp:485-490 | `dump_to` writes 4 octets more than the length field says |
| `MessageRoundTrip.LengthBookkeeping` | src/gtpv2c/3gpp_29.274.hpp:279-285 | after any interleaving of `add_ie` and `set_teid` the length field counts the sequence number, the TEID if present and every element, modulo 2^16 |
| `MessageRoundTrip.AcceptedAddsUp` | src/gtpv2c/3gpp_29.274.hpp:491-516 | any accepted octet string has elements that add up to its announced length modulo 2^16 |
| `MessageRoundTrip.PcoExact` | src/gtpv2c/3gpp_29.274.hpp:1699-1715 | accepted protocol options fill their declared length exactly |
| `MessageRoundTrip.HeaderLayout` | src/gtpv2c/3gpp_29.274.hpp:305-332 | which octets of the header are flags, type, length, TEID, sequence number and priority, and which flag bits announce the last ones |
| `MessageRoundTrip.FactoryByNumber` | src/gtpv2c/3gpp_29.274.cpp:78-354 | which element types the factory knows, by number, and which contents each has |
| `MessageRoundTrip.OctetsByNumber` | src/gtpv2c/3gpp_29.274.hpp:2422-2462 | one-octet elements are read as their octet; nine types refuse any length but one, three do not look at it |
| `MessageRoundTrip.LengthsByNumber` | src/gtpv2c/3gpp_29.274.hpp:546-4000 | the lengths each kind insists on, as numbers: fixed ones, digit strings of at most 8 octets, and those that the first octet of an address allocation, an F-TEID or a set identifier decides |
| `MessageRoundTrip.CauseOctets` | src/gtpv2c/3gpp_29.274.hpp:738-757 | which octets of a received cause are its value, flags and the offending element's type, length and instance |
| `MessageRoundTrip.CauseExact` | src/gtpv2c/3gpp_29.274.hpp:719-737 | a cause writes what it declares if and only if it is not 69 |
| `MessageRoundTrip.AddressComesBack` | src/gtpv2c/3gpp_29.274.hpp:1006-1024 | an address element comes back if and only if it is IPv4 |
| `MessageRoundTrip.AddressFamilyLost` | src/gtpv2c/3gpp_29.274.hpp:991-1024 | an IPv6 address comes back marked as IPv4 |
| `Retransmission.SecondDump` | src/gtpv2c/3gpp_29.274.hpp:3948-3952 | the second dump equals the first if and only if the header is steady and every FQ-CSID identifier symmetric |
| `Retransmission.IdenticalRetransmission` | src/gtpv2c/gtpv2c.cpp:817-822 | every retransmission equals the original under that condition and no other |
| `Retransmission.PeriodTwo` | src/gtpv2c/3gpp_29.274.hpp:3925-3953 | in any case dump k + 2 equals dump k |
| `MessageObjects.InputStream.Read` | src/gtpv2c/3gpp_29.274.hpp:90-95 | the octets read followed by those left are the stream; past its end the buffer is filled up with zeros |
| `MessageObjects.ReadContainers` | src/gtpv2c/3gpp_29.274.hpp:1695-1716 | the loop over protocol containers computes its specification and leaves the stream after them |
| `MessageObjects.ReadCsids` | src/gtpv2c/3gpp_29.274.hpp:3986-3991 | the loop over FQ-CSID identifiers computes its specification |
| `MessageObjects.ReadGroup` | src/gtpv2c/3gpp_29.274.hpp:209-221 | the loop over a group's children computes its specification and ends |
| `MessageObjects.ReadElements` | src/gtpv2c/3gpp_29.274.hpp:491-507 | the do-while loop over a message's elements computes its specification and ends |
| `MessageObjects.DumpElements` | src/gtpv2c/3gpp_29.274.hpp:485-490 | the loop of `dump_to` writes all elements and leaves each as writing it does |
| `MessageObjects.GroupObject.AddIe` | src/gtpv2c/3gpp_29.274.hpp:197-200 | appends the element, and the 16-bit running length stays the sum of 4 + length modulo 2^16 |
| `MessageObjects.MessageObject.AddIe` | src/gtpv2c/3gpp_29.274.hpp:389-397 | appends the element and adds 4 + length to the length field |
| `MessageObjects.MessageObject.SetTeid` | src/gtpv2c/3gpp_29.274.hpp:279-285 | sets the TEID, and the flag and length when there was none |
| `MessageObjects.MessageObject.SetSequenceNumber` | src/gtpv2c/3gpp_29.274.hpp:299-301 | keeps 24 bits |
| `MessageObjects.MessageObject.DumpTo` | src/gtpv2c/3gpp_29.274.hpp:485-490 | writes the message and changes the object as its elements' dumps do |
| `MessageObjects.MessageObject.LoadFrom` | src/gtpv2c/3gpp_29.274.hpp:491-516 | accepts exactly what the specification accepts, with the same message, rest and error |
| `CoreTypes.PlmnRoundTrip` | src/gtpv2c/3gpp_29.274.hpp:2492-2531 | the six digits of a network code come back |
| `CoreTypes.FlagsRoundTrip` | src/gtpv2c/3gpp_29.274.hpp:1352-1413 | any flags packed eight to an octet come back |
| `CoreTypes.PackRate` | src/gtpv2c/3gpp_29.274.hpp:2191-2211 | the packing loop writes the rate's low five octets in network order |
| `CoreTypes.UnpackRate` | src/gtpv2c/3gpp_29.274.hpp:2247-2262 | the unpacking loop computes the number the five octets denote |
| `CoreTypes.RateRoundTrip` | src/gtpv2c/3gpp_29.274.hpp:2184-2262 | any rate comes back modulo 2^40 |
| `Conversions.FitsIffComesBack` | src/gtpv2c/3gpp_29.274.hpp:546-4000 | for every field of a request, the element its constructor makes is well formed when written and its `to_core_type` is the structure it was made of, if and only if the structure fits |
| `Conversions.FittingSurvives` | src/gtpv2c/3gpp_29.274.hpp:811-4000 | every fitting structure other than an identity gives a well-formed element that means it |
| `Conversions.SurvivingFits` | src/gtpv2c/3gpp_29.274.hpp:811-4000 | no other structure does |
| `Conversions.ImsiComesBack` | src/gtpv2c/3gpp_29.274.hpp:573-638 | an IMSI comes back if and only if it has one to fifteen digits, zeros behind them and a filler after an odd number below fifteen |
| `Conversions.MeiComesBack` | src/gtpv2c/3gpp_29.274.hpp:1055-1134 | an equipment identity comes back if and only if it has one to fifteen digits, zeros behind them and the filler just after an odd number |
| `Conversions.MsisdnComesBack` | src/gtpv2c/3gpp_29.274.hpp:1172-1248 | an MSISDN comes back if and only if it has one to fifteen digits, zeros behind them and the filler just after an odd number below fifteen; the sixteenth half octet is never copied |
| `Conversions.SmallFieldsComeBack` | src/gtpv2c/3gpp_29.274.hpp:918-960 | an EPS bearer id comes back if and only if it is below 16, a PDN type below 8, a selection mode below 4, a RAT type and an APN restriction always |
| `Conversions.ReceivedOctets` | src/gtpv2c/3gpp_29.274.hpp:940-946 | of a received octet with spare bits set, only the field's own bits are kept |
| `Conversions.DigitsComeBack` | src/gtpv2c/3gpp_29.274.hpp:608-622 | a digit string is read back as written if and only if zeros follow it, its filler marks an odd count and it has at most fifteen digits, sixteen for an MSISDN |
| `Conversions.FlagsSurvive` | src/gtpv2c/3gpp_29.274.hpp:1352-1500 | all 53 indication flags come back |
| `Conversions.OptionsSurvive` | src/gtpv2c/3gpp_29.274.hpp:1650-1694 | protocol options come back with all containers and the length is their sum |
| `Conversions.AddressSurvives` | src/gtpv2c/3gpp_29.274.hpp:2007-2085 | all four kinds of address allocation come back |
| `Conversions.QualitySurvives` | src/gtpv2c/3gpp_29.274.hpp:2183-2262 | bearer quality comes back: priority bits, class and four 40-bit rates |
| `Conversions.LocationSurvives` | src/gtpv2c/3gpp_29.274.hpp:3267-3415 | any combination of locations comes back, whatever length was declared |
| `Conversions.TunnelSurvives` | src/gtpv2c/3gpp_29.274.hpp:3496-3548 | an F-TEID comes back with either, both or no address |
| `Conversions.SetIdSurvives` | src/gtpv2c/3gpp_29.274.hpp:3848-3924 | an FQ-CSID comes back with any node kind and up to 15 identifiers |
| `Conversions.UliExact` | src/gtpv2c/3gpp_29.274.hpp:3267-3323 | the ULI's declared length equals what is written if and only if there is no RAI, and an LAI just when there is a macro eNodeB id |
| `Conversions.SixteenDigits` | src/gtpv2c/3gpp_29.274.hpp:1055-1134 | sixteen digits of an equipment identity come back as fifteen |
| `SessionRoundTrip.BuilderInverts` | src/gtpv2c/msg_gtpv2c.hpp:1916-1964 | the instance numbers the builder sets invert the setters' switches, for the request and for its contexts |
| `SessionRoundTrip.ContextBack` | src/gtpv2c/msg_gtpv2c.hpp:1007-1072 | a bearer context group decodes to the context it was built from, created or removed by its instance |
| `SessionPresence.ListsAreMasks` | src/gtpv2c/3gpp_29.274.cpp:356-585 | the fields the builder tests are those of the presence bits it names, for the request and for both kinds of context |
| `SessionPresence.RequestRoundTrip` | src/gtpv2c/3gpp_29.274.cpp:356-585 | build, address, write, read and decode give back, of any request that fits, exactly the fields whose presence bits the builder tests, with their values, and both context lists in order, each context with the fields whose bits it tests; the message has type 32 |
| `SessionPresence.NothingLeftOut` | src/gtpv2c/3gpp_29.274.cpp:356-585 | that is the request itself if and only if its presence masks name only what the builder writes |
| `SessionPresence.WrittenInOrder` | src/gtpv2c/3gpp_29.274.cpp:356-585 | the elements of a built request stand in ascending order of their presence bits |
| `SessionPresence.ContextInOrder` | src/gtpv2c/3gpp_29.274.cpp:452-551 | so do the elements of every context |
| `SessionPresence.StoredByMask` | src/gtpv2c/msg_gtpv2c.hpp:1808-1949 | an element is stored in the field of its presence bit, F-TEIDs and FQ-CSIDs by instance and the others under any; without a bit it raises the exception of its switch |
| `SessionPresence.StoredInContext` | src/gtpv2c/msg_gtpv2c.hpp:600-646 | a bearer context stores twelve F-TEIDs by instance and seven other kinds, and refuses the rest |
| `SessionPresence.ContextByMask` | src/gtpv2c/msg_gtpv2c.hpp:1007-1072 | a decoded context goes to the list of its instance with the fields that have a presence bit there |
| `OrderIndependence.OrderDoesNotMatter` | src/gtpv2c/3gpp_29.274.hpp:409-413 | every rearrangement that keeps the order of elements of equal type and instance decodes alike if and only if the instances of each field end with equal values |
| `OrderIndependence.StillAccepted` | src/gtpv2c/3gpp_29.274.hpp:409-413 | no such rearrangement turns a request that decodes into one that raises an exception |
| `OrderIndependence.PlainInstances` | src/gtpv2c/msg_gtpv2c.hpp:1808-1965 | with instance 0 on every element whose setter takes any, order never matters |
| `OrderIndependence.OrderCanMatter` | src/gtpv2c/msg_gtpv2c.hpp:1893-1896 | two recovery counters under different instances decode differently when exchanged |
| `SessionObjects.RequestObject.Set` | src/gtpv2c/msg_gtpv2c.hpp:1808-1949 | each setter changes its own field and presence, or raises the exception of its switch and changes nothing |
| `SessionObjects.RequestObject.SetContext` | src/gtpv2c/msg_gtpv2c.hpp:1950-1964 | a context is appended to the list its instance names, cut to that list's fields |
| `SessionObjects.ToCoreType` | src/gtpv2c/3gpp_29.274.hpp:409-413 | the loop decodes the elements in order and stops at the first exception |
| `SessionObjects.MakeFields` | src/gtpv2c/3gpp_29.274.cpp:361-456 | the presence tests make the elements of the present fields in the builder's order |
| `SessionObjects.MakeContexts` | src/gtpv2c/3gpp_29.274.cpp:457-551 | the loops make one group per bearer context, in order, with the length its running counter reached |
| `SessionObjects.AddChildren` | src/gtpv2c/3gpp_29.274.hpp:197-200 | adding children one by one leaves the group with them in order and a length that is their sum modulo 2^16 |
| `SessionObjects.BuildRequest` | src/gtpv2c/3gpp_29.274.cpp:356-585 | the builder's message is that of the specification, or an exception is raised where it says so |
| `Transactions.NextIsSuccessor` | src/gtpv2c/gtpv2c.cpp:81-88 | the generator is the successor modulo 2^31, and on the wire modulo 2^24, also across the wrap |
| `Transactions.DistinctOnWire` | src/gtpv2c/gtpv2c.cpp:81-88 | any 2^24 consecutive sends carry different numbers, and the next repeats the first |
| `Transactions.SplitIsLossless` | src/gtpv2c/gtpv2c.cpp:213-215 | the split of milliseconds into seconds and microseconds loses nothing |
| `Transactions.SwitchesAreTable` | src/gtpv2c/gtpv2c.cpp:104-208 | the two switches over message types are the protocol's table of requests and answers, with the three bearer requests answering anything |
| `Transactions.AcceptsRequests` | src/gtpv2c/gtpv2c.cpp:293-331 | with no procedure under its number a message is accepted if and only if it is one of the 37 requests |
| `Transactions.AcceptsAnswers` | src/gtpv2c/gtpv2c.cpp:336-366 | under the number of a pending request a message is accepted if and only if its type is the next one or 95, 97 or 99 |
| `Transactions.Receive` | src/gtpv2c/gtpv2c.cpp:286-368 | an error changes nothing at all; a message accepted for a pending procedure ends it, returns and frees its id and stops its timers; a new request returns the new id, which leads to its number |
| `Transactions.SendTriggered` | src/gtpv2c/gtpv2c.cpp:583-614 | an unknown id sends and changes nothing; a last answer takes its id and number out, frees the id and stops the cleanup timer |
| `Transactions.TimeOut` | src/gtpv2c/gtpv2c.cpp:797-856 | handled exactly for timers in one of the maps; no cleanup entry is added, at most the next retry timer is armed, and the only undefined case is a retry without a message |
| `Transactions.DuplicateSuppression` | src/gtpv2c/gtpv2c.cpp:335-366 | a copy of a pending request is an error that changes nothing, if and only if it is not one of the three bearer requests |
| `TransactionRuns.StepTimers` | src/gtpv2c/gtpv2c.cpp:210-856 | every handler call keeps the timer invariant, whatever numbers are used again |
| `TransactionRuns.StepKeeps` | src/gtpv2c/gtpv2c.cpp:286-856 | every handler call keeps the index and timer invariants |
| `TransactionIndex.IndexOverRuns` | src/gtpv2c/gtpv2c.cpp:286-398 | in every run each pending procedure is found by its id, ids are pairwise distinct, the ids that lead nowhere are exactly those abandoned by retry exhaustion, and the generator holds exactly the ids in the index |
| `TransactionIndex.IndexExactIffRetries` | src/gtpv2c/gtpv2c.cpp:797-837 | with nothing asked about reused numbers that holds in all runs if and only if n3 >= 1 |
| `TransactionIndex.TimersOverRuns` | src/gtpv2c/gtpv2c.cpp:210-309 | in every run each pending procedure has an armed cleanup timer mapped to it, its retry timer is mapped to it, and the timer maps share no key |
| `TransactionIndex.UndefinedOverRuns` | src/gtpv2c/gtpv2c.cpp:802-822 | in every run a step uses a missing retry message if and only if a retry timer expires that is mapped to a pending received request, and n3 > 0 |
| `TransactionIndex.UndefinedIsReachable` | src/gtpv2c/gtpv2c.cpp:802-822 | for n3 >= 1 a run of four events ends so |
| `TransactionIndex.NeverUndefined` | src/gtpv2c/gtpv2c.cpp:802-822 | no run does that opens no number while a retry timer is mapped to it |
| `TransactionIndex.AcceptanceOverRuns` | src/gtpv2c/gtpv2c.cpp:286-368 | in every run a message is accepted if and only if nothing is pending under its number and it is a request, or a request is pending and its type is the next one or 95, 97 or 99 |
| `TransactionIndex.DuplicatesOverRuns` | src/gtpv2c/gtpv2c.cpp:286-368 | in every run, a further copy of a pending received request is an error that changes nothing, if and only if it is not one of the three bearer requests |
| `TransactionIndex.AnswersOverRuns` | src/gtpv2c/gtpv2c.cpp:583-650 | in every run an answer goes out under the number of the procedure whose id it names, and a last answer ends that procedure and no other |
| `TransactionIndex.DrainedOverRuns` | src/gtpv2c/gtpv2c.cpp:838-855 | after any run, once every armed cleanup timer has expired with no new traffic, no procedure is pending, whatever else expires in between |
| `TransactionHistory.FaithfulOverRuns` | src/gtpv2c/gtpv2c.cpp:286-856 | in every run, for every n3: transmission k of a local request goes to its own peer with the octets of dump k, the peer is reported at most once and with the request's own id and TEID, at most one message is handed up for it and that is the other half of its exchange or a bearer request; a received request is handed up once, followed by at most one message that may answer it |
| `TransactionHistory.BoundedRetransmission` | src/gtpv2c/gtpv2c.cpp:797-837 | in every run with n3 <= 255 each local request is moreover sent at most n3 + 1 times, and its peer reported only after n3 + 1 transmissions and no reply |
| `TransactionHistory.BoundedIffCounterFits` | src/gtpv2c/gtpv2c.hpp:60 | with nothing asked about reused numbers that holds in all runs if and only if 1 <= n3 <= 255 |
| `TransactionHistory.AdmittedIffCounterFits` | src/gtpv2c/gtpv2c.hpp:60 | if numbers are not reused too early when n3 == 0, if and only if n3 <= 255 |
| `TransactionHistory.UnboundedRetransmission` | src/gtpv2c/gtpv2c.cpp:806-811 | for n3 >= 256 and every k there is a run that sends one request k + 1 times |
| `TransactionHistory.IdenticalRetries` | src/gtpv2c/gtpv2c.cpp:389-390 | in every run the transmissions of a request sent twice or more are all the same octets if and only if its FQ-CSID identifiers are symmetric |
| `TransactionHistory.OncePerLifetime` | src/gtpv2c/gtpv2c.cpp:104-208 | in every run a received request other than a bearer request reaches the application exactly once while its procedure lasts |
| `PunctualTime.PunctualRuns` | src/gtpv2c/gtpv2c.cpp:797-856 | in every punctual run retry k expires at start + k t3, the peer is reported at start + (n3 + 1) t3, before the cleanup timer is due, and that timer never ends a local procedure |
| `PunctualTime.PunctualBounded` | src/gtpv2c/gtpv2c.cpp:797-856 | in punctual runs retransmission is bounded, for n3 == 0 too, with nothing assumed about retry timers |
| `PunctualTime.PunctualDefined` | src/gtpv2c/gtpv2c.cpp:802-822 | in punctual runs no step uses a missing retry message |
| `PunctualTime.PlausibleIsAllowed` | src/gtpv2c/gtpv2c.cpp:797-856 | in punctual runs no number is opened while a retry timer is mapped to it |
| `PunctualTime.Spans` | src/gtpv2c/gtpv2c.hpp:93 | for t3 (n3 + 2) < 2^32 the set-ups are exactly one period and n3 + 2 periods long |
| `TransactionStack.Gtpv2cStack.constructor` | src/gtpv2c/gtpv2c.cpp:54-79 | an empty stack with a 31-bit initial sequence number |
| `TransactionStack.Gtpv2cStack.GetNextSeqNum` | src/gtpv2c/gtpv2c.cpp:81-88 | returns and stores the next number and changes nothing else |
| `TransactionStack.Gtpv2cStack.StartMsgRetryTimer` | src/gtpv2c/gtpv2c.cpp:210-229 | sets the timer up in seconds and microseconds, stores it and maps it, unless it is invalid |
| `TransactionStack.Gtpv2cStack.StopMsgRetryTimer` | src/gtpv2c/gtpv2c.cpp:231-242 | unmaps and clears the timer |
| `TransactionStack.Gtpv2cStack.StartProcCleanupTimer` | src/gtpv2c/gtpv2c.cpp:252-273 | stores and maps the timer, unless the procedure has one |
| `TransactionStack.Gtpv2cStack.StopProcCleanupTimer` | src/gtpv2c/gtpv2c.cpp:275-284 | clears the timer and erases it from the map of retry timers |
| `TransactionStack.Gtpv2cStack.HandleReceiveMessage` | src/gtpv2c/gtpv2c.cpp:286-368 | the new state, error and id and the timers set up and stopped are those of the specification |
| `TransactionStack.Gtpv2cStack.SendInitialMessage` | src/gtpv2c/gtpv2c.cpp:405-441 | the new state, the number returned and the octets sent and the timers set up are those of the specification |
| `TransactionStack.Gtpv2cStack.SendTriggeredMessage` | src/gtpv2c/gtpv2c.cpp:583-650 | the new state and the octets sent and the timers stopped are those of the specification |
| `TransactionStack.Gtpv2cStack.TimeOutEvent` | src/gtpv2c/gtpv2c.cpp:797-856 | the new state, the octets sent and the report and the timers set up are those of the specification |
| `Timers.NextKeeps` | src/itti/itti.cpp:43-100 | every step of the manager, of set-up and of removal keeps the invariants of queue, slot and log |
| `Timers.TimersConserved` | src/itti/itti.cpp:47-99 | for every interleaving each issued id is in exactly one of entering, waiting, in hand, being sent, fired, removed or lost; none fires twice or early; a loss needs an equal deadline |
| `Timers.FiresAfterRemoval` | src/itti/itti.cpp:67-97 | for every interleaving a timer fires after a removal of it that succeeded, or is about to, if and only if the manager had already read it for its time-out |
| `Timers.LateRemoval` | src/itti/itti.cpp:355-377 | a removal counts as late exactly when the time-out of that timer is being sent |
| `Timers.RemovalAnswers` | src/itti/itti.cpp:355-377 | for every interleaving a removal succeeds and is noted if and only if the timer waits or is in the slot, otherwise it changes nothing; every timer that waits or is in hand can be removed |
| `Timers.PromptWhenDue` | src/itti/itti.cpp:63-97 | a timer that is due when it is picked is signalled at once |
| `Timers.WaitsUntilDue` | src/itti/itti.cpp:63-69 | one that is not is waited for until its deadline |
| `Timers.TooLate` | src/itti/itti.cpp:67-97 | a run in which the removal answers ok and the time-out follows |
| `Timers.NothingLost` | src/itti/itti.hpp:92-96 | for every interleaving with pairwise distinct deadlines no timer is lost |
| `Timers.EqualDeadlinesLose` | src/itti/itti.hpp:92-96 | a second timer for the same instant is dropped |
| `Timers.PickedIsLeast` | src/itti/itti.cpp:55-59 | for every interleaving the timer picked has the least deadline of those that wait |
| `Timers.InsertedHolds` | src/itti/itti.cpp:333-352 | insertion keeps the order and adds exactly the new timer, or nothing on an equal deadline |
| `Timers.TimerService.TimerSetup` | src/itti/itti.cpp:333-352 | for a task other than the timer thread takes the next id and then, as a step of its own, puts the timer into the set; otherwise changes nothing and returns the invalid id |
| `Timers.TimerService.Insert` | src/itti/itti.cpp:341-343 | the search loop inserts at the deadline's place |
| `Timers.TimerService.TimerRemove` | src/itti/itti.cpp:355-377 | takes the removal step; answers ok exactly when the id is in the slot or in the set, then notes the removal, and otherwise changes nothing |
| `Timers.TimerService.PickEarliest` | src/itti/itti.cpp:51-61 | takes the first timer of the set into the slot |
| `Timers.TimerService.ComposeTimeOut` | src/itti/itti.cpp:70-76 | the id in the slot is what the time-out will carry, whatever happens to the slot afterwards |
| `Timers.TimerService.PutTimerBack` | src/itti/itti.cpp:79-87 | puts the timer back unless it was removed meanwhile |
| `Queues.QueueFidelity` | src/itti/itti.cpp:211-314 | for every interleaving, received followed by queued is what was accepted, in order, and a sender that is through left one copy with each task it saw ready and none elsewhere |
| `Queues.WholeSend` | src/itti/itti.cpp:211-270 | an undisturbed send adds one copy to its destination, a broadcast to each of the 21 tasks, if that is in state READY, and none to others |
| `QueueRuns.ReadyByMoves` | src/itti/itti.cpp:160-208 | in every run a task is in state READY if and only if it was created, reported ready after that and has not ended since |
| `QueueRuns.CollectedByMoves` | src/itti/itti.cpp:213-252 | the tasks a sender takes for ready are those it looked at while they were so by the moves before |
| `QueueRuns.DeliveredByMoves` | src/itti/itti.cpp:211-314 | for every interleaving a sender that is through left one copy with each of those tasks and none elsewhere, and received followed by queued is what was accepted |
| `Queues.TaskQueues.SendMsg` | src/itti/itti.cpp:211-242 | answers ok exactly when the destination is in state READY or all; the queues of the READY tasks it addresses grow by the message and nothing else changes |
| `Queues.TaskQueues.SendBroadcastMsg` | src/itti/itti.cpp:245-270 | the loop appends to the queue of every task in state READY once and changes nothing else |
| `Queues.TaskQueues.PollMsg` | src/itti/itti.cpp:301-314 | returns and removes the oldest message, or nothing |

## Left out

- UDP sockets, logging, the REST server, signals and thread scheduling: input, output and plumbing.
- `folly::AtomicHashMap`, the id generator: taken as maps that do not overwrite and as a source of ids not in use.
- PFCP: its behaviour is not part of this model.
- Messages other than the Create Session Request have the same builder and decoder shape; the codec covers their elements, their core structures are not modelled.
- Decoders that cannot close the loop: Echo (src/gtpv2c/msg_gtpv2c.hpp:2959-2966), FQ-CSID in Modify Bearer Request (src/gtpv2c/msg_gtpv2c.hpp:4451-4458) and IMSI in Downlink Data Notification (src/gtpv2c/3gpp_29.274.cpp:1403).
- Constructors of Bearer TFT, Bearer Flags and Flow QoS from core structures: they declare a length or a type that is not theirs (src/gtpv2c/3gpp_29.274.hpp:1747, 1896, 2315); their elements are read and written as the codec does.
- RAN/NAS cause and extended protocol options: they have no case in the factory and read as unknown elements.
- Reads beyond the eight octets of a digit string, APN bodies of more than 65409 octets and digit counts above 16: the source runs over a buffer there; the model reports an error.
- Uninitialised bytes of a buffer after a short read are taken as zero.
- More than 30 protocol containers overrun an array in `to_core_type`; the round trip is stated for at most 30.
- Extended eNodeB ids are kept as the octets that are written; an id of 2^20 or more loses its top bits in the constructor before that.
- Liveness of the timer thread: a wake-up between the pick and the wait is lost in the source, so only safety is claimed.
- Timer ids and transaction ids do not wrap around here; in the source they have 32 and 64 bits.
- A timer's task and user arguments travel with it unchanged and are not part of the model.
- Two threads inside `increment_timer_id` at once could return the same id; taking an id is one step here.
- The fields of the slot are read one after the other without a lock; reading them is one step here.
- `operator++` on identities and `operator<` on F-TEIDs: they are neither an increment nor an ordering.
- `receive_msg` blocks on an empty queue; it is the step `Take` of the interleaved model and has no method of its own.
