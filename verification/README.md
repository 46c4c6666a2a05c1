# Verified models of BerylDB's cores

BerylDB is a threaded key-value server. This project models the parts of it that carry
the hard promises, and proves them: the protocol by which clients, the main loop and
the data threads share queries; the MULTI/MRUN queue; the glob matcher; the identifier
odometer; the flat containers; the intrusive lists; the expire and future lists; the
codecs for passwords, Base 64, lists, maps and configuration values; the paginated key
scan; the socket send queue; and the configuration parser with its includes.

`dafny verify dfyconfig.toml` checks everything.

## How it is built

- `Dispatch` gives the protocol as a state, labels for its atomic steps, and what each
  step does. `DispatchInvariant` says what holds of every state, `DispatchTheorems` that
  every step keeps it, `DispatchRuns` what follows for whole runs, `DispatchAnswers` that
  nothing is lost on the way, `DispatchProgress` that the protocol never gets stuck,
  `DispatchGlobal` when the internal user's queries keep their order, and `DispatchLoop`
  ties the loops of the main thread to the steps.
- `Reducer`, `CommandQueue`, `FlatMap`, `SendQueue`, `NodeList`, `Schedule`, `Uid`,
  `Handlers`, `NodeStream` and `ConfigParser` are classes whose methods change their
  fields as the code does. Each method is proved against a function of the old state, and
  lemmas say what that function means.
- `Glob`, `Bcrypt`, `Base64`, `Converter`, `CaseFold` and `KeyScan` are loops proved
  against a recursive meaning or an inverse.
- `ConfigText` and `Config` give the meaning of a configuration file, `ConfigTheorems`,
  `ConfigRights` and `ConfigWritten` what holds of every load.
- `Sequences`, `Bytes`, `CInt` and `Wrappers` are shared vocabulary.

## Where the code does less than it seems to

Each of these is a lemma, with the exact condition where there is one.

- A client that is disconnected while one of its queries is in flight never reaches the
  Reducer: results are delivered to listed clients only, so its lock is never dropped
  (`DispatchRuns.DisconnectFate`, `DispatchRuns.NobodyForcedOut`). `DispatchRuns.Stranded`
  is such a run, for any client and any number of threads.
- A query whose run is interrupted is never answered, and its client stays locked for ever;
  every other listed client can always be served (`DispatchAnswers.AnsweredExactly`,
  `DispatchProgress.ServedExactly`).
- A destructor that adds an object of its own round to the Reducer's list would have it
  discarded and deleted again. Every object is deleted once if and only if no destructor
  does (`Reducer.ReducerHandler.Apply`, with an input in `Reducer.SelfAdding`).
- The internal Global user holds no lock, so its queries always take effect in the order
  they were posted if and only if there is one data thread; the setting is 2 by default
  (`DispatchGlobal.GlobalInOrderExactly`).
- A MULTIRESET clears the batch when it is received, not when it is carried out, so what
  is collected in between goes into the next batch (`CommandQueue.StaleExactly`).
- A send queue whose size, cast to int, equals the result of writev by accident is
  thrown away whole. This can happen if and only if the queue holds four gigabytes less
  one byte or more (`SendQueue.MistakenExactly`, `SendQueue.LosesExactly`).
- The loop that empties a send queue waits after a short write, and after a write that would
  block, as it should, if and only if the bytes offered at once fit an int
  (`SendQueue.WaitsExactly`, which also names the one size beyond where it still does).
- An entry whose time is not positive as an int is not found again, so a second entry
  joins it (`Schedule.AddKeepsUniqueExactly`, `Schedule.AddedTwice`). The server's own
  callers always give a time as such and not relative to now, so of the two inputs of
  `Schedule.NotReplaced` only the time zero can reach it through them. EXPIREAT and FUTSET
  refuse times before now, so this takes seconds whose unsigned sum with now wraps to zero,
  or a stored "0" that is read back at start (src/brldb/keys.cpp:109).
- Base 64 with a padding character from the table does not read back, unless the text
  needs no padding (`Base64.DecodeEncodeExactly`).
- Values with a carriage return do not survive escaping and parsing
  (`ConfigText.EscapeRoundTrip`), in the old format neither do values with a quote
  (`ConfigText.OldFormatRoundTrip`), nor would a map with an empty key
  (`Handlers.MapRoundTrip`); no handler holds one, as `MapHandler::Add` refuses it.
- `equals` stops at a NUL byte and the hash does not, so every string has an equal one
  that hashes differently (`CaseFold.NulBreaksHash`).

## Model

| member | source | states |
|---|---|---|
| DispatchTheorems.InvStep | src/brldb/dbflush.cpp:114-292 | every atomic step of main loop, thread or client life cycle keeps the invariant, from every state, for any number of clients and threads |
| DispatchRuns.InvAt | src/brldb/dbflush.cpp:114-488 | the invariant holds in every state of every run |
| DispatchRuns.OneInFlight | src/brldb/dbflush.cpp:198-292 | in every run a client has at most one query inside the threads, and none (nor an undelivered result) while it is unlocked |
| DispatchRuns.SerialRuns | src/brldb/dbflush.cpp:448-477 | two threads never run a query at the same moment |
| DispatchRuns.EffectsInPushOrder | src/brldb/database.cpp:224-234 | the database effects of a client are its accepted well-formed queries in push order, each once, and only the newest may still be missing |
| DispatchRuns.AnswersInPushOrder | src/brldb/dbflush.cpp:137-183 | final results reach a client in push order, each at most once; all accepted queries but the newest are answered, and all when it is unlocked |
| DispatchRuns.BatchesPrecedeAnswer | src/brldb/dbflush.cpp:114-123 | every final result is directly preceded by the partial results of its own query, numbered from 1 without a gap |
| DispatchRuns.NoDanglingOwner | src/clients.cpp:195-285 | no thread and no list of the main loop ever names a deleted client |
| DispatchRuns.LeavesOnce | src/clients.cpp:213-285 | a client awaits exit, is with the Reducer, or is deleted, in all at most once |
| DispatchRuns.EligibleHasPending | src/brldb/dbflush.cpp:198-229 | the front of a pending deque is never taken when it is empty or its client locked, though quitting clients pass the test at the head of the loop |
| DispatchRuns.SettledForGood | src/clients.cpp:213-285 | once a client is with the Reducer no thread holds a query of it, then or later, and none is posted again |
| DispatchRuns.DisconnectFate | src/clients.cpp:213-285 | a disconnected client goes to the Reducer if and only if it was unlocked at that moment; otherwise it awaits exit for ever |
| DispatchRuns.NobodyForcedOut | src/clients.cpp:195-211 | ForceExits never finds a client it may hand over |
| DispatchRuns.Stranded | src/clients.cpp:213-285 | for every number of threads and every client, a run in which it is disconnected with a query in flight and is left awaiting exit |
| DispatchAnswers.AnsweredExactly | src/brldb/dbflush.cpp:448-477 | in every run, while no query of a client is inside the threads all its accepted queries have been answered if and only if none was interrupted; if one was, all but the newest have and the client stays locked; while one is inside, all before it have |
| DispatchAnswers.AllAnswered | src/brldb/dbflush.cpp:114-123 | in a run without interruptions every query that has left the threads is answered, and a locked client has the answer ready in its deque |
| DispatchAnswers.NothingLost | src/brldb/dbflush.cpp:198-292 | what a client has pushed, what is pending, what was accepted and how much it was given is what the labels of the run alone say |
| DispatchProgress.NeverStuck | src/brldb/dbflush.cpp:382-488 | while a thread holds or works on a query, some thread can go on, and the work left gets less |
| DispatchProgress.ThreadsFinish | src/brldb/dbflush.cpp:382-488 | from every state of every run the threads can finish all they hold, by steps of their own |
| DispatchProgress.CanBeServed | src/brldb/dbflush.cpp:137-183 | from every state of every run, a listed client with no interrupted query can be served by thread steps and deliveries alone: it has every answer, is unlocked, and nothing else about it has changed |
| DispatchProgress.ServedExactly | src/brldb/dbflush.cpp:448-477 | a listed client can be unlocked and fully answered in some continuation if and only if none of its queries was interrupted so far |
| DispatchGlobal.OneThreadKeepsOrder | src/brldb/dbflush.cpp:198-213 | with one data thread, in every state of every run, the effects of the Global user are the well-formed part of the first so many queries it had posted |
| DispatchGlobal.GlobalReorders | src/brldb/dbflush.cpp:198-292 | for every number of threads from two on, a run in which every query goes to the thread the code picks and the second query of the Global user takes effect before its first |
| DispatchGlobal.GlobalInOrderExactly | src/brldb/database.cpp:202-212 | the Global user is in order in every state of every run if and only if there is one data thread |
| DispatchLoop.DataFlush.GetResults | src/brldb/dbflush.cpp:137-183 | one pass is a run of protocol steps; it delivers the oldest result of every listed client and touches no other |
| DispatchLoop.DataFlush.PickThread | src/brldb/dbflush.cpp:249-275 | the first thread that is not busy, or the one drawn at random when all are |
| DispatchLoop.DataFlush.Process | src/brldb/dbflush.cpp:241-292 | one query is posted or refused, as one protocol step, and the client's new state |
| DispatchLoop.DataFlush.GetPending | src/brldb/dbflush.cpp:198-229 | one pass is a run of protocol steps, every query going to the thread picked for it with a draw of its own; it serves the Global user alone, or else every unlocked listed client with one query |
| DispatchLoop.TurnOfClient | src/brldb/dbflush.cpp:137-229 | what results and pending queries together do for one client in a turn: what it gets, what is taken, what is accepted, and that it waits exactly if a query runs for it |
| Reducer.ReducerHandler.Discard | src/reducer.cpp:16-31 | the objects discarded are the least set that contains the list and what discarding adds, each once, even if added twice |
| Reducer.ReducerHandler.Apply | src/reducer.cpp:16-45 | every object that is or becomes listed is discarded once and deleted once, in the same order, and the list ends empty, if and only if no destructor adds an object of its own round; otherwise a deleted object is listed again |
| Reducer.SelfAdding | src/reducer.cpp:35-44 | an object whose destructor adds that object breaks the condition |
| CommandQueue.Queue.Add | src/commandproc.cpp:532-575 | the new lists and flags of the one client, for each kind of command |
| CommandQueue.Queue.Flush | src/commandproc.cpp:594-674 | every client up to the first PONG gets exactly one turn, in order |
| CommandQueue.InvStep | src/commandproc.cpp:532-674 | while a batch runs, MRUN heads the list and MULTI is off; batches hold ordinary commands only |
| CommandQueue.BatchRunsAlone | src/commandproc.cpp:594-674 | from its first turn to its last, what runs is the batch in the order collected with nothing in between, the list only grows behind, and MULTI stays off |
| CommandQueue.BatchThenList | src/commandproc.cpp:594-674 | from the turn that starts a batch to the first unlocked turn after its end, what is executed is the batch and then MRUN, and the list is what stood behind MRUN followed by what has joined since |
| CommandQueue.QueuesKeepOrder | src/commandproc.cpp:532-674 | in every run without resets or quit both lists are first-in first-out and lose nothing, and a batch holds what was collected since its own MULTI |
| CommandQueue.EverythingKept | src/commandproc.cpp:532-674 | in every calm run from the start, what was executed from the list followed by the list is exactly what came for it, in order of arrival; the same for the batch |
| CommandQueue.NothingLost | src/commandproc.cpp:532-674 | in every such run the commands received, but for a MULTI while MULTI is active and an MRUN while it is not, and those that handlers add, are exactly those executed and those left, each as often |
| CommandQueue.WithoutMulti | src/commandproc.cpp:566-575 | without MULTI and without additions by handlers, what was executed followed by what is left is what was received, but for MRUN, in order |
| CommandQueue.TurnTakesOne | src/commandproc.cpp:594-674 | a turn executes one command exactly if there is one that may run, and otherwise changes nothing but the end of an empty batch |
| CommandQueue.StaleExactly | src/coremods/core_multi/cmd_commands.cpp:40-53 | a step leaves commands of an abandoned batch behind if and only if it carries out a MULTIRESET while MULTI is active and something is collected |
| CommandQueue.StaleBatch | src/commandproc.cpp:547-565 | a run that puts a command of a reset batch into the next one |
| Glob.MatchInternal | src/daemon.cpp:427-476 | the loop with one saved point of backtracking ends and decides the recursive meaning of the mask, for all NUL-free strings and every case map |
| Glob.OnStar | src/daemon.cpp:447-456 | at a star the earlier point of backtracking may be forgotten: the new one can try all that it could |
| Glob.StarMeans | src/daemon.cpp:427-476 | a star matches if and only if some suffix matches the rest of the mask |
| Glob.MatchesExactly | src/daemon.cpp:427-476 | a mask matches exactly the strings it can cut into one piece for each of its bytes: any piece for a star, any byte for a question mark, the same byte up to case for every other |
| Bcrypt.BFDecode | etc/bcrypt/crypt_blowfish.c:385-407 | succeeds exactly on enough characters of the alphabet, writes exactly the decoded bytes, nothing beyond |
| Bcrypt.BFEncode | etc/bcrypt/crypt_blowfish.c:409-439 | writes exactly the encoding at its place and leaves the rest of the buffer |
| Bcrypt.DecodeEncode | etc/bcrypt/crypt_blowfish.c:385-439 | decoding undoes encoding, for every byte string and whatever follows it |
| Bcrypt.EncodeDecode | etc/bcrypt/crypt_blowfish.c:385-439 | encoding what was decoded gives the same characters, the last with its unused bits cleared |
| Bcrypt.BFCrypt | etc/bcrypt/crypt_blowfish.c:649-779 | accepts exactly the well-formed settings of sufficient cost, writes the hash and its terminator, and leaves the output alone on failure |
| Bcrypt.HashHoldsOutput | etc/bcrypt/crypt_blowfish.c:768-779 | for every accepted setting the last 31 characters of the hash decode to the first 23 bytes of what the core computed from key, flags, cost and salt |
| Bcrypt.HashesDifferExactly | etc/bcrypt/crypt_blowfish.c:649-779 | under one setting two keys have the same hash if and only if the core agrees on those 23 bytes |
| Bcrypt.SaltIsCanonical | etc/bcrypt/crypt_blowfish.c:768-771 | the salt in a hash is the encoding of the decoded salt of its setting |
| Bcrypt.HashIsItsOwnSetting | etc/bcrypt/crypt_blowfish.c:649-779 | a hash used as the setting reproduces itself, for every key and accepted setting and any Blowfish core |
| Bcrypt.SaltIsAccepted | etc/bcrypt/crypt_blowfish.c:881-907 | every generated salt is an accepted setting and a prefix of the hashes made with it |
| Bcrypt.CompareExactly | src/coremods/core_bcrypt.cpp:61-64 | comparison holds if and only if hashing with the hash as setting gives that hash; a failed hash equals nothing |
| Bcrypt.StoredPasswordVerifies | src/coremods/core_bcrypt.cpp:49-64 | a password verifies against the hash generated for it with a fresh salt |
| Bcrypt.OtherPasswordVerifiesExactly | src/coremods/core_bcrypt.cpp:49-64 | another password verifies against a stored hash if and only if the core agrees on 23 bytes for both; the salt of the hash is the random bytes |
| KeyScan.Filter | src/brldb/geo.cpp:169-224 | the token loop selects a raw key exactly if name, select and kind fit, as far as they are there |
| KeyScan.SelectedExactly | src/brldb/geo.cpp:169-224 | a key written by the server is selected if and only if its three parts fit, and gives the user's key back |
| KeyScan.Scan | src/brldb/geo.cpp:162-278 | the loop has the requested page of the keys seen in its batches, and stops early only when the page is complete |
| KeyScan.Run | src/brldb/geo.cpp:150-285 | batches and final reply concatenate to the requested slice of the matching keys; partial ones are full and numbered from 1 |
| KeyScan.VectorFlush | src/daemon.cpp:711-752 | the messages sent for one reply, for table and plain clients |
| KeyScan.OneFramedList | src/daemon.cpp:711-752 | all replies of a scan together are one START, their items in order, and one END |
| KeyScan.ItemsShown | src/daemon.cpp:711-752 | every item is shown once, in order, and the item can be read off what is shown, with or without quotes |
| KeyScan.PlainFrame | src/daemon.cpp:711-752 | to a plain client all replies of a scan are START, the requested page of the matching keys, END |
| KeyScan.TableFrame | src/daemon.cpp:711-752 | to a table client they are one table with a title between rulers, or the notice that nothing was found if the page is empty |
| KeyScan.ScanFramed | src/brldb/geo.cpp:150-290 | what `Run` answers, flushed in order, is one START, the requested page of the matching keys, and one END |
| NodeStream.Stream.Extract | src/nodes.cpp:205-232 | hands out the next token and moves past it |
| NodeStream.ReadTerminated | src/nodes.cpp:205-232 | reading separated tokens gives exactly the non-empty ones, in order |
| NodeStream.ReadJoined | src/nodes.cpp:205-232 | with empty tokens allowed, reading joined tokens gives back every one of them, in order |
| Converter.FromBinToBin | include/converter.h:31-68 | reading the binary digits written for a string gives the string, for every string |
| Converter.DigitAt | include/converter.h:58-68 | each byte has its eight digits in its own place, the highest first |
| Converter.FromBinSpaced | include/converter.h:31-56 | white space before any byte makes no difference |
| Converter.WriteBits | include/converter.h:58-68 | the writing loop computes the digits |
| Converter.ReadBits | include/converter.h:31-56 | the reading loop computes the bytes, skipping blanks and taking at most eight digits each |
| Handlers.ListHandler.Create | src/brldb/list_handler.cpp:25-38 | the list read from storage |
| Handlers.ListHandler.AsString | src/brldb/list_handler.cpp:225-246 | the text a list is stored as |
| Handlers.ListRoundTrip | src/brldb/list_handler.cpp:25-126 | a stored list reads back without its empty strings, and unchanged if it has none |
| Handlers.MapHandler.Create | src/brldb/map_handler.cpp:78-94 | the map read from storage |
| Handlers.MapHandler.AsString | src/brldb/map_handler.cpp:153-175 | the text a map is stored as, in whatever order it is walked |
| Handlers.MapRoundTrip | src/brldb/map_handler.cpp:78-107 | a stored map reads back without its empty key, so unchanged if and only if it has none; empty values survive |
| Handlers.DatabaseKeyTokens | src/brldb/geo.cpp:169-224 | the tokenizer recovers the three parts of a composite key |
| Handlers.DatabaseKeyInjective | src/brldb/geo.cpp:294 | different keys, selects or kinds have different composite keys |
| CaseFold.InsensitiveSwo | src/nodes.cpp:123-141 | the comparison loop decides the lexicographic order of the folded strings |
| CaseFold.SwoIsStrictWeak | src/nodes.cpp:123-141 | that order is a strict weak order whose equivalence is equality of the folds |
| CaseFold.LexMeans | src/nodes.cpp:123-141 | a string comes first if it is a proper prefix, or has the smaller byte at the first difference |
| CaseFold.Equals | src/nodes.cpp:76-90 | equal exactly if the folds agree up to the first NUL |
| CaseFold.EqualsIsEquivalence | src/nodes.cpp:76-141 | on NUL-free strings `equals` is the equivalence of the order |
| CaseFold.EqualStringsHashAlike | src/nodes.cpp:143-154 | equal NUL-free strings have the same hash |
| CaseFold.HashIsPolynomial | src/nodes.cpp:143-154 | the hash is the polynomial in 5 with the folded bytes as coefficients, in 64-bit arithmetic |
| CaseFold.NulBreaksHash | src/nodes.cpp:76-154 | for every string one that is equal to it and hashes differently, both sides of a NUL |
| FlatMap.LowerBound | include/flat_map.h:153-161 | bisection finds the number of elements before the key |
| FlatMap.FlatBase.FindKey | include/flat_map.h:125-141 | the element of the key's class, or the end |
| FlatMap.FlatBase.Count | include/flat_map.h:173-177 | the size of the key's class |
| FlatMap.FlatBase.Insert | include/flat_map.h:180-192 | single insertion keeps the vector sorted without repetition and reports where and whether |
| FlatMap.FlatBase.InsertMulti | include/flat_map.h:194-198 | multi insertion keeps the vector sorted |
| FlatMap.FlatBase.Erase | include/flat_map.h:117-123 | erases the class of the key and reports its size |
| FlatMap.Assign | include/flat_map.h:337-340 | indexing followed by assignment, as the vector it leaves |
| FlatMap.RunAgrees | include/flat_map.h:117-340 | after any sequence of insert, operator[] and erase the vector is strictly sorted and stands for the map the operations mean, and find answers from that map |
| FlatMap.InsertMultiAgrees | include/flat_map.h:194-198 | the multiset gains exactly the one element |
| FlatMap.EraseMultiAgrees | include/flat_map.h:117-123 | one stretch is cut out, and it holds exactly the elements of the class |
| FlatMap.MultiRunAgrees | include/flat_map.h:117-198 | after any sequence of multi insertions and erasures the vector is sorted and is the multiset the operations mean, count answers the size of a class in it, and find succeeds if and only if the class is not empty |
| ConfigText.Escape | src/configprocess.cpp:373-397 | the escaping loop computes the escaped text |
| ConfigText.EscapeRoundTrip | src/configprocess.cpp:373-397 | reading an escaped quoted value gives it back without carriage returns, so unchanged if and only if it has none |
| ConfigText.OldFormatRoundTrip | src/configprocess.cpp:373-397 | in the old format an escaped value is read up to its first quote, so unchanged if and only if it has neither quote nor carriage return |
| ConfigParser.ConfFile.Next | src/stackconf.cpp:108-134 | the next character, the one put back first; an error or EOF at the end; line and column stay those of the position |
| ConfigParser.ConfFile.Unget | src/stackconf.cpp:136-144 | fails exactly if a character is already put back |
| ConfigParser.ConfFile.IterNext | src/stackconf.cpp:167-179 | the next word, and the position of the character behind it |
| ConfigParser.ConfFile.ReadPiece | src/stackconf.cpp:208-305 | one piece of a value: entity, escape, end or plain character |
| ConfigParser.ConfFile.Kv | src/stackconf.cpp:181-314 | one key, comment or end of a tag, with every error |
| ConfigParser.ConfFile.RealParse | src/stackconf.cpp:316-407 | one tag has exactly the meaning of the tag, the include stack is what it was, whatever happened |
| ConfigParser.ConfFile.OutTagParse | src/stackconf.cpp:409-463 | one file has exactly the meaning of its text; ends on every input |
| ConfigParser.ParseStack.IncludeFile | src/stackconf.cpp:466-564 | an include tag by file, directory or program |
| ConfigParser.ParseStack.ProcessConfBuffer | src/stackconf.cpp:607-626 | ends for every finite file system, keeps the paths on the include stack different, restores the stack on success, parse error and looped include |
| ConfigTheorems.NestingIsBounded | src/stackconf.cpp:607-626 | open files and paths still free together are always the paths that can be opened, so files nest no deeper than that |
| ConfigTheorems.ProcessAccounted | src/stackconf.cpp:607-626 | a file that cannot be entered changes nothing; an entered one succeeds if and only if only warnings were logged anywhere below it |
| ConfigParser.LoadConfiguration | src/configprocess.cpp:266-279 | the whole load, an unreadable main file being caught and logged |
| ConfigTheorems.LoadsExactlyWhenQuiet | src/configprocess.cpp:266-279 | for every path, a load succeeds if and only if it logged nothing but warnings, and "cannot unget twice" is never logged |
| ConfigTheorems.PredefinedByDefault | include/stackconf.h:24-34 | with the entities of a new parser the escapes have their meaning, under every case map |
| ConfigTheorems.DefinedExpands | src/stackconf.cpp:368-384 | after a define its name stands for its value and every name of another class for what it did |
| ConfigTheorems.FormatTakesEffect | src/stackconf.cpp:385-401 | after a change of format an ampersand or a backslash is an ordinary character |
| ConfigTheorems.AddKeyExactly | src/stackconf.cpp:307-313 | a key is refused if and only if the tag has it already, whatever its case; otherwise it joins with its value and changes no other |
| ConfigTheorems.TagKeysOnce | src/stackconf.cpp:181-314 | whatever a file contains, in a tag that is read no key comes twice, whatever its case |
| ConfigTheorems.NumericExpands | src/stackconf.cpp:239-251 | a number up to 255 stands for that byte, in decimal and in hexadecimal, and every other number is an error |
| ConfigRights.NoExecRunsNothing | src/stackconf.cpp:466-564 | a file without the right to execute loads the same whatever the programs, through includes and directories at every depth |
| ConfigRights.NoIncludeReadsNothing | src/stackconf.cpp:466-564 | a file or program without the right to include depends on no other file, directory or program |
| ConfigRights.NoEnvSeesNothing | src/stackconf.cpp:252-267 | a file without the right to the environment loads the same whatever the environment, at every depth |
| ConfigRights.NoExecTagRunsNothing | src/stackconf.cpp:478-536 | an include of files with noexec set runs no program, even where its own file might |
| ConfigRights.ProgramRunsNothing | src/stackconf.cpp:537-563 | the output of an included program runs no program and sees no environment unless the tag allows it |
| ConfigWritten.WrittenIsRead | src/stackconf.cpp:346-351 | a file or program output of plain tags written with Escape adds exactly those tags, and is refused if and only if a tag it must have is not among them |
| ConfigWritten.WrittenReadsBack | src/stackconf.cpp:181-463 | a file of plain tags written key by key with Escape loads and yields exactly those tags, in order |
| ConfigWritten.IncludedFile | src/stackconf.cpp:478-499 | an include by file puts the tags of the file where the tag stands |
| ConfigWritten.IncludedDirectory | src/stackconf.cpp:500-536 | an include by directory puts the tags of all its files there, file by file |
| ConfigWritten.IncludedProgram | src/stackconf.cpp:537-563 | an include by program puts the tags that the program writes there |
| ConfigWritten.LoadedWhole | src/stackconf.cpp:566-605 | files and execfiles keep under each key the text of what was named for it last, and change nothing else |
| Base64.BinToBase64 | src/strings.cpp:36-88 | the encoding loop computes groups of six bits spelled in the table, with padding |
| Base64.Base64ToBin | src/strings.cpp:90-122 | the decoding loop, with its 32-bit accumulator, computes the bytes of the characters before the first one outside the table |
| Base64.OverflowIsHarmless | src/strings.cpp:111-118 | what overflows the accumulator never reaches a byte |
| Base64.DecodeEncodeExactly | src/strings.cpp:36-122 | for every text, every table of 64 different characters and every padding or none, decoding undoes encoding if and only if the padding is outside the table or the text needs none |
| Base64.DecodeEncode | src/strings.cpp:36-122 | decoding undoes encoding, for every text, every table of 64 different characters and every padding outside it or none |
| Base64.StandardRoundTrip | src/strings.cpp:34-34 | the same for the table used by default |
| Base64.PaddedToFour | src/strings.cpp:36-88 | the encoding is four characters for every three bytes begun, of which at most the last two are padding |
| Base64.TestVectors | src/strings.cpp:34-88 | the vectors for foobar, fo and f of section 10 of RFC 4648 |
| Uid.UidHandler.Initialize | src/server.cpp:245-253 | the three characters of the server, then the highest setting |
| Uid.UidHandler.FindNext | src/server.cpp:222-243 | the places from 3 to pos take one step of the odometer; the server's characters and the places behind stay |
| Uid.NextIsSuccessor | src/server.cpp:222-243 | a step adds one in base 36 and wraps from the highest value to zero |
| Uid.OneCycle | src/server.cpp:222-243 | within a period no two steps agree, after a full one the odometer is back |
| Uid.IdentifiersCycle | src/server.cpp:222-268 | an identifier comes back after 36^6 = 2176782336 steps and not before |
| Uid.Reached | src/server.cpp:222-243 | every setting is reached from every other |
| Uid.UidHandler.GetUid | src/server.cpp:255-268 | ends within one step more than there are identifiers in use, with the first free one |
| Uid.FreeExactly | src/server.cpp:255-268 | the search ends if and only if not all 36^6 identifiers of the server are in use |
| SendQueue.Queue.Drain | src/sbuffer.cpp:356-370 | takes exactly the given number of bytes off the stream and keeps the count |
| SendQueue.Queue.MoveAll | include/brldsocket.h:155-160 | appends the other stream, counts both |
| SendQueue.QuickDispatch | include/modules/ssl.h:114-132 | keeps stream and count; the first element is big enough or all there is |
| SendQueue.Socket.Round | src/sbuffer.cpp:319-388 | the queue after one writev; accepted bytes followed by queued bytes stay the same stream if and only if the result is not mistaken for the size of the queue; exactly when it waits, and exactly when it fails |
| SendQueue.Socket.DispatchSendQueue | src/sbuffer.cpp:310-398 | the queue after any sequence of results; the stream stays the same if and only if no round was mistaken, hence always below four gigabytes less one byte; the event left is that of the last round, no earlier round having waited or failed |
| SendQueue.WaitsExactly | src/sbuffer.cpp:345-382 | leaving mistaken results aside, the loop waits exactly after a write that would block or took some but not all of what was offered, if and only if the bytes offered fit an int or they and the whole queue are both INT_MAX as ints |
| SendQueue.MistakenExactly | src/sbuffer.cpp:345-348 | some result of the next writev is mistaken if and only if the queue holds at least 2^32 - 1 bytes and its size as an int is -1 or a number of bytes that may be accepted |
| SendQueue.LosesExactly | src/sbuffer.cpp:310-398 | over any number of calls without an error, a queue of non-empty elements can lose data if and only if it holds at least 2^32 - 1 bytes |
| NodeList.Node.Unlink | include/ilist.h:37-50 | joins the neighbours, frees the node |
| NodeList.List.PushFront | include/ilist_impl.h:91-103 | chain, head and size represent the sequence with the node in front |
| NodeList.List.Erase | include/ilist_impl.h:134-144 | chain, head and size represent the sequence without the node, which is free again |
| NodeList.List.Walk | include/ilist_impl.h:19-47 | following the links visits exactly the sequence |
| NodeList.ListTail.PushFront | include/ilist_impl.h:91-103 | the same with the tail |
| NodeList.ListTail.PushBack | include/ilist_impl.h:111-121 | the node joins at the tail |
| NodeList.ListTail.PopFront | include/ilist_impl.h:81-84 | the first node leaves, and is free |
| NodeList.ListTail.PopBack | include/ilist_impl.h:123-126 | the last node leaves, and is free |
| NodeList.ListTail.Erase | include/ilist_impl.h:134-144 | any member leaves, head and tail follow |
| Schedule.Manager.Delete | src/brldb/expires.cpp:28-68 | removes the first entry of the target, and says whether there was one |
| Schedule.Manager.GetTime | src/brldb/expires.cpp:70-87 | the time of the first entry of the target as an int, or -1 |
| Schedule.Manager.Add | src/brldb/futures.cpp:27-62 | the new ordered list and the answer, for both kinds of time |
| Schedule.Manager.Flush | src/brldb/expires.cpp:154-180 | the walk with its early exit dispatches what a full scan would |
| Schedule.DueExactly | src/brldb/futures.cpp:106-127 | what is due is exactly the head of the list before the time |
| Schedule.AddKeepsUniqueExactly | src/brldb/expires.cpp:89-129 | adding keeps one entry per target if and only if nothing is added, there was none, or its time is positive as an int |
| Schedule.AddedTwice | src/brldb/expires.cpp:89-129 | a target added twice has one entry if and only if its first time was positive as an int |
| Schedule.NotReplaced | src/brldb/expires.cpp:98-101 | after a first time of zero, or a relative one that ends in 2038, the second addition leaves two entries |
| Schedule.RunAgrees | src/brldb/expires.cpp:28-129 | after any run of fair operations there is one entry per target with its latest time, in the order of time |
| Schedule.EpochRunAgrees | src/brldb/query.cpp:55-118 | the same for any run whose times are given as such and are not zero |
| Schedule.DueAfterRun | src/brldb/expires.cpp:154-180 | what is dispatched after such a run are the targets whose latest time has passed |
| Schedule.TimeAfterRun | src/brldb/expires.cpp:70-87 | after any run of fair operations the time of a target is its latest, or -1 if it has none |

## Left out

- Schedule.RunAgrees: covers times from 1 to 2^31 - 1; outside them the property is false, as `Schedule.AddKeepsUniqueExactly` says.
- CaseFold.EqualStringsHashAlike: for strings without NUL; with one, whether two equal strings collide depends on what follows the NUL.
- CommandQueue.InvStep: excludes the global reset, which empties the list under a running batch.
- CommandQueue.QueuesKeepOrder: excludes MULTIRESET, reset and quit, which drop commands on purpose.
- KeyScan.Run: counters are unbounded; the code counts in 32 bits.
- KeyScan.OneFramedList: only plain key lists; diff queries frame their partial results differently.
- Handlers.MapHandler.AsString: the order in which the map is walked is a parameter.
- ConfigParser.ParseStack.ProcessConfBuffer: paths are keys of a finite map; two spellings of one file, such as `./a` and `a`, or names that differ after a NUL, are different paths.
- ConfigParser.ParseStack.LoadFileToBuffer: keeps the text of a loaded file whole, not cut into lines.
- Glob.MatchInternal: strings without NUL, which is what the C pointers see.
- Bcrypt.BFCrypt: the Blowfish rounds are an arbitrary function of key, flags, cost and salt; the wrapper's self-test is not part of this model.
- SendQueue.Socket.DispatchSendQueue: event masks are reduced to writing, blocked and stopped; TLS hooks are not part of this model.
- SendQueue.LosesExactly: for queues without empty elements, the elements being serialized messages; `SendQueue.MistakenExactly` covers every queue, one writev at a time.
- ConfigParser.ConfFile.RealParse: a tag does not keep the number of its line, and messages do not show it.
- NodeList.List.PopFront: requires a member, because on an empty list the code follows a null pointer.
- Fairness: `DispatchProgress` says what can always still happen, not that a scheduler makes it happen.
- DataThread's queue is popped outside its mutex; a thread's steps are atomic here.
- Shutdown, pausing, thread creation and ResetAll of the data threads.
- Command handlers, Prepare and Run of queries: abstract steps; RocksDB is a log of effects.
- Aliases and login steps of MULTI batches are ordinary commands added by a handler.
- Agreement of expire records on disk with the list in memory, GetTTL and GetTTE.
- Group and session flags, validators, port templates, geographic distance, reply formatting.
- Clocks, random numbers, directory listings, environment and files are parameters.
