# A TEEP device agent, modelled and proved in Dafny

The project models the device side of a Trusted Execution Environment Provisioning (TEEP) implementation: the CBOR
reader, the SUIT envelope and manifest parser, the SUIT command runner, the TEEP agent session with the broker that
drives it, and the transport that carries commands from the broker into a Keystone enclave.

| file | what it models |
|---|---|
| `Wrappers.dfy`, `Bytes.dfy`, `CborHead.dfy`, `CborItems.dfy` | optional values, octets, item heads, whole items; the counter-driven skip against the recursive parser of Appendix C of RFC 8949 |
| `CborReader.dfy`, `CborStructure.dfy`, `CborTrees.dfy` | reading contexts updated in place; nested reading against skipping; well-formed items told by their octets |
| `SuitEnvelope.dfy`, `SuitAuthenticate.dfy`, `SuitManifest.dfy`, `SuitFields.dfy` | envelope fields, signature and digest checks, the manifest and its containment in the envelope, which manifests are accepted |
| `SuitWritten.dfy`, `SuitSealed.dfy` | envelopes as they are written, and which of them are authentic |
| `SuitBindings.dfy`, `SuitPlan.dfy`, `SuitRunner.dfy` | the parameter table; what a manifest means as a list of handler calls; the stack machine that performs it |
| `SuitTargets.dfy`, `SuitEffects.dfy` | when parameters kept under addresses are those meant for their targets; what every run stores and fetches, and why it fails |
| `SuitScripts.dfy`, `SuitEmbedded.dfy` | what written command sequences mean; installs that store what the envelope holds under a name |
| `SuitOctets.dfy`, `SuitUnreadable.dfy`, `SuitMixup.dfy` | two envelopes octet by octet: one that the runner finishes on without performing it, and one whose second component is fetched from the first one's URI |
| `TaList.dfy`, `AgentProtocol.dfy`, `AgentSession.dfy` | the application list; the session as a function of the calls it gets; the session as it is updated in place |
| `AgentSafety.dfy`, `AgentStart.dfy`, `AgentRuns.dfy`, `AgentBroker.dfy` | what every call keeps, where behaviour becomes undefined, whole runs in any order of calls, and the broker's loop |
| `AgentFetches.dfy`, `AgentConversation.dfy` | what a session downloads and from where; the session as a conversation, seen from outside |
| `Rendezvous.dfy`, `Marshalling.dfy` | the two threads around the command queue, interleaved; the parameters carried in chunks |

Code that updates state in place is a class or a loop here too: `Context`, `SuitContext`, `Runner`, `Session`, `Slot`
and `Operation` have the fields of the source's structures, and each of their methods is tied by its postcondition to a
function on values. The theorems about runs, sessions and interleavings are lemmas about those functions.

How to read the main results:

- A range carries the block of memory it points into, so that "inside the envelope" is a statement about pointers.
- A command sequence means a *plan*: the ordered list of handler calls, with a mark that says whether everything could be
  decoded. `Perform` makes the calls in order. `Runner.Run` is proved to do exactly what `Perform` does, for every
  manifest and every behaviour of the callbacks, and to terminate: every round of its loop takes down the triple of
  unread octets, objects not yet come to, and stack height.
- A `Platform` is what a run depends on besides its manifest: the callbacks, and the addresses at which the three local
  variables that targets lie in are found during each handler call. Both are arbitrary functions.
- The agent's callbacks answer as a function of the effects asked for so far; the network, the TAM and the trusted
  application are arbitrary functions or arbitrary lists of replies.
- The TEEP message parser, the signature check and SHA-256 are arbitrary functions (`World`, `Crypto`).
- Each step is first proved to do what a function says, and then what the function says is stated without it: in octets
  and numbers (`ItemIsTree`, `TypedReads`, `ManifestIsAccepted`, `FieldsAreLast`), for whatever is written
  (`SealedIsAuthentic`, `InstallMeans`, `EmbeddedIsStored`, `ListSaysWhatIsWritten`), for what a run leaves behind
  (`RunsAreAccounted`, `DownloadsAnswerGets`, `WholeSession`) and for what the two sides of a transport see
  (`PreparedIsCarried`, `WrittenBackIsReturned`, `EachItsOwn`).

Where the source does not do what it is meant to do, the model keeps what it does and says exactly when it is right:

- A parameter key is stored in 32 bits but compared in 64. The table refines a map exactly for keys below 2^32, or when
  it is full (`BindRefinesMap`); `WideKeyAliases` shows a key that binds the URI parameter.
- `tcbor_read_int` returns the encoded integer exactly for arguments below 2^64 - 2^31 (`ReadIntExact`, `ReadIntWraps`).
- A map is read one head for the key and one item for the value, so a walk over a map lands where skipping it does
  exactly when every key that is an array or a map is empty (`WalkLands`); `ContainerKeyMisread` shows a map on which it
  does not.
- A binder remembers its target by address, and that is the address of a local variable: objects that take turns in the
  same variable share their parameters, and one object reached from two places does not have them in both. The table,
  the plan's performance and the runner keep parameters under addresses, as the source does. A target finds the
  parameters meant for it, whatever is requested, exactly if its address is that of the requests for it and of no others
  (`ParametersAreOwn`); where that is so for all calls of a plan, a whole run is the one meant (`RunsAsIntended`), which
  for local variables that stay where they are can be read off the plan (`FixedLocalsKeepApart`). `SecondFromFirst` and
  `InstallMixedUp` show an envelope for which it is not so.
- An accepted update that has no manifest, or whose last manifest has its install sequence severed, makes the agent read
  through a null pointer or take a digest for a sequence. No other message and no other call does (`ReplyDefeats`,
  `DoReady`), so a session gets there exactly if the TAM answers with a query request, any number of refused updates and
  then such an update (`LoopUndefined`, `SessionEnds`); `EmptyUpdateIsUndefined` shows two replies that do.
- An install whose common or install sequence is no array is reported as finished without any call. Reported success
  means that the whole install was performed if both are arrays, and that nothing was done otherwise
  (`SuccessSaysWhatRan`); `UnreadableInstallFinishes` installs an envelope of the second kind, octet by octet.
- An update whose envelopes are refused leaves the session as it was, and the broker asks again. The bound on posts is
  therefore four plus the number of refusals (`SessionEnds`), and without refusals being bounded there is none
  (`RefusalsAreUnbounded`).
- After a failed command the Keystone transport still writes results back and the direct call does not. They agree on
  every failing call exactly for operations without output values and without room in an output memory
  (`TransportsAgreeOnFailure`); `FailedQueryDiffers` shows a call on which they do not.

## Model

| member | source | states |
|---|---|---|
| CborHead.PrimitiveReadHead | lib/cbor/teecbor.c:3-62 | reading a head octet by octet in 64-bit arithmetic gives the head that the data denotes, or that error, on every input; no shift loses a bit |
| CborHead.HeadLocality | lib/cbor/teecbor.c:5-52 | a head is decided by the octets it takes, whatever follows them |
| CborHead.HeadPrefix | lib/cbor/teecbor.c:7-37 | cut anywhere inside a head or its payload, the reader asks for more data |
| CborHead.HeadRoundTrip | lib/cbor/teecbor.c:9-39 | for every argument below 2^64 the preferred head reads back as its major type and argument, and a string's payload is taken with it |
| CborHead.HeadShortest | lib/suit/lib/suit-parser.c:387-408 | no head that reads back as the same argument is shorter than the one the encoder writes (section 4.1 of RFC 8949) |
| CborItems.ItemsAppend | lib/include/teecbor.h:163-190 | items parse one after the other: parsing a + b items is parsing a, then b from where that ended |
| CborItems.ItemLocality | lib/include/teecbor.h:163-190 | an item with everything nested in it is decided by its own octets; anything may follow and is left unread |
| CborItems.ItemPrefix | lib/include/teecbor.h:163-190 | cut strictly inside an item, the parser asks for more data: no item is a proper prefix of another |
| CborItems.ItemsPrefix | lib/include/teecbor.h:163-190 | the same for any number of items in a row |
| CborItems.SkipHead | lib/include/teecbor.h:166-185 | one turn of the skip loop leaves exactly the items that the recursive parser still has to take |
| CborItems.OverflowRejects | lib/include/teecbor.h:174-189 | data shorter than a count never parses as that many items, so the overflow exit rejects only what the recursive parser rejects |
| CborItems.CountHead | lib/include/teecbor.h:169-184 | the counter's overflow exits are taken exactly when the number of items left does not fit 64 bits |
| CborItems.PrimitiveSkip | lib/include/teecbor.h:163-190 | the counter loop succeeds, and consumes what it consumes, exactly when the recursive parser over unbounded integers does; the error is that parser's own, or an overflow exactly when the counter overflows, and then that parser fails too |
| CborReader.RangeEqual | lib/include/teecbor.h:56-64 | two ranges are equal exactly if both are null or neither is and their octets agree |
| CborReader.SubobjectIsOneItem | lib/include/teecbor.h:277-288 | a sub-object taken from anywhere parses on its own as exactly one item with nothing left over |
| CborReader.HeadIsSubobjectHead | lib/include/teecbor.h:277-288 | the head of a sub-object reads on its own as it does in place |
| CborReader.ScalarIsSubobject | lib/include/teecbor.h:241-288 | reading a string, integer or simple value lands where taking the sub-object there lands |
| CborReader.ReadIntExact | lib/include/teecbor.h:318-338 | an accepted integer is returned as encoded exactly if its argument is below 2^64 - 2^31 |
| CborReader.ReadIntWraps | lib/include/teecbor.h:323-328 | the largest unsigned integer is accepted and returned as -1 |
| CborReader.Context.ReadAny | lib/include/teecbor.h:241-256 | reads the head at the position and counts it unless it is a tag, or leaves the position alone; index never exceeds count |
| CborReader.Context.ReadUint | lib/include/teecbor.h:290-302 | reads an unsigned integer, or restores the position and says why |
| CborReader.Context.ReadNint | lib/include/teecbor.h:304-316 | reads a negative integer's argument, or restores the position and says why |
| CborReader.Context.ReadInt | lib/include/teecbor.h:318-338 | reads an integer that survives truncation to 32 bits, or restores the position |
| CborReader.Context.ReadBstr | lib/include/teecbor.h:340-352 | reads a byte string in place, or restores the position and says why |
| CborReader.Context.ReadTstr | lib/include/teecbor.h:354-366 | reads a text string in place, or restores the position and says why |
| CborReader.Context.ReadArray | lib/include/teecbor.h:368-380 | opens a child context on an array's elements, or restores the position and says why |
| CborReader.Context.ReadMap | lib/include/teecbor.h:382-398 | opens a child context on a map's keys and values, rejecting a number of them beyond 64 bits, or restores the position |
| CborReader.Context.ReadBool | lib/include/teecbor.h:413-425 | reads a boolean, or restores the position and says why |
| CborReader.Context.ReadTag | lib/include/teecbor.h:428-440 | reads a tag without counting it as an item, or restores the position and says why |
| CborReader.Context.Skip | lib/include/teecbor.h:258-267 | succeeds exactly when that many items are left and the recursive parser takes them, and lands where it does; failing, it leaves the position alone and says why, an overflow told apart |
| CborReader.Context.ReadItem | lib/include/teecbor.h:277-288 | takes one whole item as a range of its own, or leaves the position alone and says why |
| CborReader.Context.Close | lib/include/teecbor.h:231-239 | a finished child hands its position to the parent; an unfinished one leaves the parent alone |
| CborStructure.HeadLands | lib/include/teecbor.h:241-256 | reading a scalar or a tag inside a context does not change where the context will end |
| CborStructure.OpenLands | lib/include/teecbor.h:223-229 | the end of a container's child context is the end of the container as an item |
| CborStructure.ExecLands | lib/include/teecbor.h:200-440 | no well-nested mix of reads, tags, skips, opens and closes changes where the context will end |
| CborStructure.NestIsSkip | lib/include/teecbor.h:223-275 | a container opened, consumed in any well-nested way and closed leaves the parent exactly where skipping one item does |
| CborStructure.SkipIsNest | lib/include/teecbor.h:223-275 | a container that can be skipped can be opened, skipped through and closed, with the same result |
| CborTrees.PartsRead | lib/cbor/teecbor.c:3-62 | an initial octet, an argument of 0, 1, 2, 4 or 8 octets in network byte order and a string's payload read as that head, preferred or not |
| CborTrees.HeadErrors | lib/cbor/teecbor.c:5-52 | additional information 28 to 30 and short two-octet simple values are malformed, 31 is not supported, and every other failure is a want of data |
| CborTrees.ItemIsTree | lib/include/teecbor.h:163-190 | an item is accepted exactly if it is the flattening of a tree whose heads have the children that their major types call for, and what follows it is left |
| CborTrees.TypedReads | lib/include/teecbor.h:290-440 | a read of one type accepts exactly the heads of its major type and returns what their octets denote |
| CborTrees.ContainersOpen | lib/include/teecbor.h:368-398 | arrays and maps, and no other heads, open a context on as many items as their octets say |
| CborTrees.IntegersTaken | lib/include/teecbor.h:318-338 | exactly the arguments below 2^31 and the last 2^31 of 64 bits are taken as 32-bit integers |
| SuitEnvelope.GetField | lib/suit/lib/suit-parser.c:469-535 | finds the byte string under the last entry with a key, the null range if there is none, and fails exactly on an unknown label, a malformed envelope or a value of another type |
| SuitEnvelope.FindField | lib/suit/lib/suit-parser.c:501-524 | the walk over the whole map sees every entry; a later one overrides |
| SuitEnvelope.FieldWithin | lib/suit/lib/suit-parser.c:469-525 | a field lies inside its envelope |
| SuitEnvelope.WalkReads | lib/suit/lib/suit-parser.c:501-522 | a walk over a map reads all its items but those that the heads of its keys leave behind |
| SuitEnvelope.WalkLands | lib/suit/lib/suit-parser.c:501-522 | walking a map ends where skipping its items ends exactly if every key that is an array or a map is empty |
| SuitEnvelope.ContainerKeyMisread | lib/suit/lib/suit-parser.c:501-522 | a concrete map with an array key that the walk accepts and leaves before its end |
| SuitAuthenticate.DigestIsItem | lib/suit/lib/suit-parser.c:74-85 | reading a digest consumes exactly one item |
| SuitAuthenticate.ReadDigest | lib/suit/lib/suit-parser.c:74-85 | reads a digest's algorithm and octets and steps over the rest of its array |
| SuitAuthenticate.WriteLength | lib/suit/lib/suit-parser.c:405-407 | the shift loop writes the length in network byte order |
| SuitAuthenticate.WriteBstrHead | lib/suit/lib/suit-parser.c:387-408 | for every 64-bit length the head built in the nine-octet buffer is the preferred byte-string head |
| SuitAuthenticate.SignedManifestIsBstr | lib/suit/lib/suit-parser.c:387-415 | what is hashed decodes as one byte string whose payload is precisely the manifest |
| SuitAuthenticate.VerifyDigest | lib/suit/lib/suit-parser.c:363-429 | accepts exactly if the digest is SHA-256 of the manifest as a byte string |
| SuitAuthenticate.VerifyAuthBlock | lib/suit/lib/suit-parser.c:311-361 | accepts exactly a COSE_Sign1 tag whose signature covers the digest |
| SuitAuthenticate.VerifyBlocks | lib/suit/lib/suit-parser.c:447-456 | accepts exactly if there is at least one auth block and every one verifies |
| SuitAuthenticate.AuthenticateEnvelope | lib/suit/lib/suit-parser.c:431-467 | accepts exactly the authentic envelopes: every block verifies over a digest, and that digest is of the envelope's own manifest |
| SuitManifest.MapIsItem | lib/suit/lib/suit-parser.c:110-131 | opening a map, skipping through it and closing it consumes exactly one item |
| SuitManifest.ReadDependencies | lib/suit/lib/suit-parser.c:158-166 | accepts exactly an array of at most eight maps, and counts them |
| SuitManifest.ReadComponents | lib/suit/lib/suit-parser.c:172-180 | accepts exactly an array of at most eight items, and keeps each as a range |
| SuitManifest.ParseCommon | lib/suit/lib/suit-parser.c:133-196 | accepts exactly a map of three known keys, each at most once and with a fitting value, and returns what they hold |
| SuitManifest.ReadSevered | lib/suit/lib/suit-parser.c:87-100 | reads a body or the digest of a severed one, one item either way |
| SuitManifest.ReadKeyAndUint | lib/suit/lib/suit-parser.c:51-60 | reads a given key and its integer, or restores the position |
| SuitManifest.ParseManifest | lib/suit/lib/suit-parser.c:198-286 | accepts exactly the maps that start with version 1 and a sequence number, repeat neither, have fitting values and a common block; every field is the last value under its key |
| SuitManifest.GetManifest | lib/suit/lib/suit-parser.c:537-546 | the manifest of an envelope is parsed from the envelope's manifest field |
| SuitManifest.ManifestIsInside | lib/suit/lib/suit-parser.c:133-286 | every range of a parsed manifest is null or inside the envelope, with at most eight components and dependencies |
| SuitManifest.AuthenticManifest | lib/suit/lib/suit-parser.c:431-467 | in an authentic envelope SHA-256 of the parsed manifest's octets as a byte string is the digest, there is a block at least, every block has tag 18 and a signature that verifies over the digest, and digest and blocks lie in the envelope |
| SuitManifest.BinaryIsField | lib/suit/lib/suit-parser.c:537-546 | the manifest parsed and the manifest checked are the same field of the same envelope |
| SuitFields.CommonIsAccepted | lib/suit/lib/suit-parser.c:133-196 | a common block is accepted exactly if it is a map of keys 1, 2 and 4, each at most once: up to eight maps, up to eight items, a byte string |
| SuitFields.ManifestIsAccepted | lib/suit/lib/suit-parser.c:198-286 | a manifest is accepted exactly if it begins with version 1 and a sequence number, repeats neither, has a common block, and has byte strings or digests under the numbers that call for them |
| SuitFields.FieldsAreLast | lib/suit/lib/suit-parser.c:198-286 | each of the twelve fields is what the last entry with its number holds, or nothing if there is none |
| SuitFields.CommonIsLast | lib/suit/lib/suit-parser.c:133-196 | a common block's components are the items of the last array under 2, its dependencies as many as under 1, its command sequence the last byte string under 4 |
| SuitFields.FieldIsLast | lib/suit/lib/suit-parser.c:469-535 | a numbered field of an envelope is found exactly under tag 107, for eight numbers, as the byte string of the last entry with the number |
| SuitWritten.EnvelopeParses | lib/suit/lib/suit-parser.c:537-546 | for all contents, an envelope written with them parses to a manifest that has them, whatever else is in it |
| SuitSealed.SealedIsAuthentic | lib/suit/lib/suit-parser.c:311-467 | for every digest, list of tagged auth blocks, manifest and further entries, the envelope written with them is authentic if and only if there is a block, every signature verifies over the digest's octets, and the digest is SHA-256 of the manifest as a byte string |
| SuitManifest.SuitContext.AddEnvelope | lib/suit/lib/suit-context.c:42-50 | adds the envelope's manifest at the end, or changes nothing if it does not parse or eight are held |
| SuitBindings.BindRefinesMap | lib/suit/lib/suit.c:190-221 | for targets told apart by address: setting keeps an old value, overriding replaces it, nothing is forgotten and keys stay unique, and only a new key in a full table fails: exactly for keys below 2^32, or when the table is full |
| SuitBindings.WideKeyAliases | lib/suit/lib/suit.c:202-209 | a key just past 32 bits binds the URI parameter and is itself not found |
| SuitBindings.UniqueSize | lib/suit/lib/suit.c:202-209 | the table holds as many binders as the map has keys |
| SuitBindings.LookupAfter | lib/suit/lib/suit.c:211-254 | after any successful sequence of requests a lookup for an address finds the last override at it if there was one, else the first value stored under the key |
| SuitPlan.AllObjects | lib/suit/lib/suit.c:440-447 | the selection true is every object, once and in order |
| SuitPlan.CommonNeverFetches | lib/suit/lib/suit.c:298-324 | no call of a common sequence fetches or processes a dependency, so every fetch comes after all of it |
| SuitPlan.PerformFollowsPlan | lib/suit/lib/suit.c:465-498 | a run makes the planned calls from the first on and leaves the others: none is skipped, repeated or reordered; it finishes only when none is left, and fails only at a call made or where the plan breaks off |
| SuitPlan.SuspensionIsInvisible | lib/suit/lib/suit.c:526-546 | for any two patterns of suspension, each resumed, the calls, bindings, effects and outcome are the same |
| SuitPlan.InterruptedIsUninterrupted | lib/suit/lib/suit.c:526-546 | a run interrupted anywhere and resumed is one pass by callbacks that never suspend |
| SuitPlan.BindingsAreRequested | lib/suit/lib/suit.c:211-254 | the parameters in force are those that the calls made so far asked for, in order |
| SuitEffects.FetchAsks | lib/suit/lib/suit.c:264-295 | a fetch asks, if and only if its URI is a text, to store what the envelope's last entry of that name holds when the text begins with a hash sign, and otherwise to fetch from that address |
| SuitEffects.RunsAreAccounted | lib/suit/lib/suit.c:465-498 | however a run goes: the parameters in force are what its calls asked for; every fetch has had the effect that the URI in force at its target asks for, in order, and nothing else has; a failure is a parameter that could not be set, a fetch that asks for nothing or was refused, or the end of what can be decoded |
| SuitEffects.EffectsAreAsked | lib/suit/lib/suit.c:264-295 | in particular the k-th effect of a run is what its k-th fetch asks for, however it ends |
| SuitScripts.SelectionReads | lib/suit/lib/suit.c:386-419 | the octets of true, false, an index or an array of indices select all objects, none, one, or those listed up to the first that does not exist |
| SuitScripts.ParametersRead | lib/suit/lib/suit.c:233-254 | a written parameter map asks for each of its keys and values, in order, at the given address |
| SuitScripts.ExpandMeans | lib/suit/lib/suit.c:345-427 | for every script, the commands written as octets call for its deeds: each allowed command on the objects selected last, up to where it breaks off |
| SuitScripts.InstallMeans | lib/suit/lib/suit.c:79-106 | an install is entered and calls for what its common script and then its install script mean, the selection carried over |
| SuitEmbedded.EmbeddedIsStored | lib/suit/lib/suit.c:286-290 | for every name that begins with a hash sign and everything embedded under it, installing the written envelope stores just that |
| SuitEmbedded.AddressIsFetched | lib/suit/lib/suit.c:290-292 | for every other URI it asks to fetch from there |
| SuitEmbedded.ApplicationIsStored | hello-tc/manifest/manifest.mk:22-28 | there is such an envelope for the name #tc and any application |
| SuitTargets.ParametersAreOwn | lib/suit/lib/suit.c:190-231 | for up to 32 requests, a target at an address finds the parameters that it would if they were kept under targets, for all keys, values and override flags, if and only if its address is that of exactly the requests for it |
| SuitTargets.PerformAlike | lib/suit/lib/suit.c:211-295 | if two ways to place the calls of a plan tell the same calls apart, performing it has the same calls, effects, status and rest, and the tables match binder by binder |
| SuitTargets.RunsAsIntended | lib/suit/lib/suit.c:465-498 | if two calls that use parameters have their targets at the same address just when the targets are the same, a run, interrupted or not, has the calls, effects, status and rest of one with parameters kept under targets |
| SuitTargets.FixedLocalsKeepApart | lib/suit/lib/suit.c:406-457 | for local variables that stay at three addresses of their own, that holds exactly if no two targets of such calls take the same variable and no one target two of them |
| SuitMixup.SecondFromFirst | lib/suit/lib/suit.c:406-409 | concrete octets of an envelope with two components that parses and is entered: with the local variable staying in place its run fetches the second component from the URI set for the first, where its own was meant |
| SuitMixup.InstallMixedUp | lib/suit/lib/suit.c:120-142 | installing that envelope in place asks for exactly that fetch |
| SuitRunner.Runner.constructor | lib/suit/lib/suit.c:120-142 | the runner starts with the whole install plan to do if both sequences are arrays, and with nothing and no error otherwise |
| SuitRunner.Runner.CallCommandSequence | lib/suit/lib/suit.c:79-106 | enters the common and the install sequence, or stays at the exit |
| SuitRunner.Runner.PushProgramCounter | lib/suit/lib/suit.c:47-55 | puts the program counter on the stack unless eight are there |
| SuitRunner.Runner.PopProgramCounter | lib/suit/lib/suit.c:57-65 | undoes a push; fails only on an empty stack |
| SuitRunner.Runner.SetParameter | lib/suit/lib/suit.c:202-221 | the table is updated in place as the binding function says, under the target's address |
| SuitRunner.Runner.GetParameter | lib/suit/lib/suit.c:190-231 | finds the first binder for an address and key |
| SuitRunner.Runner.DirectiveSetParameters | lib/suit/lib/suit.c:233-254 | binds what the parameter map asks for to the address of the target, entry by entry, until one cannot be read or bound |
| SuitRunner.Runner.DirectiveFetch | lib/suit/lib/suit.c:264-295 | takes the URI found under the target's address, and asks to store an envelope field for a local name, to fetch anything else, and for nothing when the URI is missing, empty or no text; called only when the common sequence is exhausted |
| SuitRunner.Runner.CallBack | lib/suit/lib/suit.c:290-292 | a callback is asked once, in a state where the common sequence is exhausted and nothing is suspended |
| SuitRunner.Runner.FindHandler | lib/suit/lib/suit.c:298-324 | a handler is found exactly for the known commands, fetch and dependency processing only outside a common sequence |
| SuitRunner.Runner.CallHandler | lib/suit/lib/suit.c:144-324 | the handler of a command on one object, lying in a given local variable, does what the call means |
| SuitRunner.Runner.ReadCommand | lib/suit/lib/suit.c:345-366 | taking a command off a sequence takes its share off the plan, and shrinks what is unread; failing to read one means the plan breaks off here |
| SuitRunner.Runner.ReadSelection | lib/suit/lib/suit.c:386-419 | the current selection is read as all objects, none, one, or those listed |
| SuitRunner.Runner.RunSequenceStep | lib/suit/lib/suit.c:345-427 | a step inside a sequence makes no call or the next call of the plan, or marks an error where the plan breaks off or the call fails |
| SuitRunner.Runner.PushCommand | lib/suit/lib/suit.c:390-422 | a command on several objects is left for the command step; the push never fails and exactly one selection is set |
| SuitRunner.Runner.RunCommandStep | lib/suit/lib/suit.c:434-463 | a step of a command makes the next call of the plan, ends the command after its last object, or marks an error where the list cannot be decoded or the call fails |
| SuitRunner.Runner.Return | lib/suit/lib/suit.c:490-492 | going back from a finished command or sequence leaves the rest of the plan as it is; the pop never fails |
| SuitRunner.Runner.RunStep | lib/suit/lib/suit.c:469-493 | every round of the loop advances the plan and takes down the measure of unread octets, objects to come and stack height |
| SuitRunner.Runner.Run | lib/suit/lib/suit.c:465-498 | refinement: for parameters kept under addresses, the stack machine terminates and does what performing the plan does, with the same calls, bindings, effects, outcome and rest; a suspended or failed runner does not move |
| SuitRunner.Runner.Suspend | lib/suit/lib/suit.c:526-530 | marks the runner suspended |
| SuitRunner.Runner.Resume | lib/suit/lib/suit.c:532-546 | resuming lets the runner go on with the same plan left to do |
| SuitRunner.ProgramStep | lib/suit/lib/suit.c:345-427 | the plan of a sequence unfolds command by command |
| SuitRunner.AdvancesPerforms | lib/suit/lib/suit.c:465-498 | a step that advances the plan leaves its outcome as it was |
| SuitRunner.CommandPushed | lib/suit/lib/suit.c:421-422 | a command on top of a sequence has its own calls to make, then those of the sequence |
| SuitRunner.Popped | lib/suit/lib/suit.c:57-65 | what lies under a finished command or sequence is one of the three shapes, with the same calls to make |
| SuitRunner.RemainingMoves | lib/suit/lib/suit.c:440-457 | coming to the next object takes exactly one call off the plan |
| SuitRunner.RunInstall | lib/suit/example/run-install.cpp:100-117 | run and resume until done: the outcome and everything observed are those of the whole plan, with parameters kept under addresses; an install that is not entered ends as finished with nothing done |
| SuitUnreadable.UnreadableInstall | lib/suit/lib/suit.c:94-97 | concrete octets of an envelope that parses and whose install sequence is a boolean, so that it is not entered |
| SuitUnreadable.UnreadableInstallFinishes | lib/suit/lib/suit.c:120-142 | installing that envelope ends as a success on every platform, with no handler called |
| TaList.SplitThenJoin | teep-agent-ta/teep-agent-ta.c:195-228 | the fields have no comma, and joined by commas they are the list again |
| TaList.JoinThenSplit | teep-agent-ta/teep-agent-ta.c:195-228 | and no other fields are |
| TaList.CountFields | teep-agent-ta/teep-agent-ta.c:195-199 | the first pass counts exactly the fields that splitting yields |
| TaList.ReadField | teep-agent-ta/teep-agent-ta.c:204-227 | the second pass takes one field, removes one leading sign, cuts the rest to 127 characters and stops at the start of the next field |
| TaList.ParseTaList | teep-agent-ta/teep-agent-ta.c:191-230 | request i is field i, for up to sixteen fields; more are rejected |
| TaList.FieldRequest | teep-agent-ta/teep-agent-ta.c:204-214 | no request is both wanted and unneeded |
| TaList.BuildLists | teep-agent-ta/teep-agent-ta.c:367-392 | the three loops pick the names that the three lists are meant to hold |
| TaList.EachInOneList | teep-agent-ta/teep-agent-ta.c:366-392 | every field lands in exactly one of the three lists, and none changes its order |
| TaList.ListSaysWhatIsWritten | teep-agent-ta/teep-agent-ta.c:191-230 | from the list to the three lists: unmarked names are reported as installed, those after a plus as requested, those after a minus as unneeded, in order and cut to 127 characters |
| AgentProtocol.Round | teep-agent-ta/teep-agent-ta.c:568-666 | the loop that looks for the next task makes at most three rounds |
| AgentSession.Session.constructor | teep-agent-ta/teep-agent-ta.c:148-163 | a session is opened in its initial state, with an empty context |
| AgentSession.Session.SetOption | teep-agent-ta/teep-agent-ta.c:175-234 | options are taken only before the first query, and only if they fit |
| AgentSession.Session.StoreEnvelope | teep-agent-ta/teep-agent-ta.c:96-116 | an envelope is kept exactly if it is authentic and there is a place for it |
| AgentSession.Session.StoreAll | teep-agent-ta/teep-agent-ta.c:289-293 | all of an update is kept in order, or it is refused |
| AgentSession.Session.AddAll | teep-agent-ta/teep-agent-ta.c:295-304 | the context gets the manifests of the kept envelopes from the last to the first, as far as they parse |
| AgentSession.Session.HandleTamMessage | teep-agent-ta/teep-agent-ta.c:243-314 | a message moves the session as the protocol says, in every state and for every reply |
| AgentSession.Session.HandleComponentDownload | teep-agent-ta/teep-agent-ta.c:316-331 | a download is stored for the component awaited and resumes the runner |
| AgentSession.Session.TaskIsDone | teep-agent-ta/teep-agent-ta.c:333-353 | a reply ends what the broker was asked for, unless there is none or it is the final one, and keeps the invariant |
| AgentSession.Session.BuildQueryResponse | teep-agent-ta/teep-agent-ta.c:355-405 | the lists are sent exactly if trusted components are asked for and attestation is not |
| AgentSession.Session.RunRunner | teep-agent-ta/teep-agent-ta.c:641-642 | the session's runner does what the plan left to do says |
| AgentSession.Session.QueryRound | teep-agent-ta/teep-agent-ta.c:571-664 | one round of the loop moves the session as the protocol says, and keeps the invariant |
| AgentSession.Session.QueryNextTask | teep-agent-ta/teep-agent-ta.c:565-668 | the loop ends with a task, the one the protocol calls for |
| AgentSession.LoopTeep | teep-broker-app/teep-broker.c:248-272 | the broker's loop carries out the tasks that the session function says, to the same exit |
| AgentSafety.PerformCounts | teep-agent-ta/teep-agent-ta.c:518-556 | a run of the runner ends at its first suspension, with the effect that suspended it last, and makes no more effects than fetch calls |
| AgentSafety.InstallRuns | teep-agent-ta/teep-agent-ta.c:641-650 | running the runner keeps what it has done a prefix of the plan whose completion is that of an uninterrupted run |
| AgentSafety.InstallResumes | teep-agent-ta/teep-agent-ta.c:538-556 | a suspended runner waits for a component that it asked to fetch, and resuming it keeps its standing |
| AgentSafety.LoadedAuthentic | teep-agent-ta/teep-agent-ta.c:289-304 | every manifest put into the context is parsed from an authentic envelope |
| AgentSafety.LoadedReversed | teep-agent-ta/teep-agent-ta.c:295-304 | the context holds the update's list in reverse |
| AgentSafety.ReceivedSound | teep-agent-ta/teep-agent-ta.c:243-314 | every message keeps the session invariant and never takes the session back |
| AgentSafety.DownloadedSound | teep-agent-ta/teep-agent-ta.c:316-331 | every download keeps the invariant and succeeds |
| AgentSafety.RoundSound | teep-agent-ta/teep-agent-ta.c:568-666 | every round of that loop keeps the invariant and never takes the session back |
| AgentSafety.OptionSetSound | teep-agent-ta/teep-agent-ta.c:175-234 | setting options keeps the invariant |
| AgentStart.AfterResponseReply | teep-agent-ta/teep-agent-ta.c:280-307 | a reply to a query response leaves the next task undefined exactly if it is an update whose envelopes all verify and parse and whose last one is missing or has a severed install |
| AgentStart.ReplyDefeats | teep-agent-ta/teep-agent-ta.c:243-314 | in every reachable state that is the only reply that does |
| AgentStart.QueriedReady | teep-agent-ta/teep-agent-ta.c:565-668 | asking for a task never does, and never takes the session back |
| AgentRuns.DoReady | teep-agent-ta/teep-agent-ta.c:841-860 | of all calls only that reply leaves the session where its next task is undefined |
| AgentRuns.AlwaysDefined | teep-agent-ta/teep-agent-ta.c:841-860 | without such a message every sequence of calls has a defined outcome |
| AgentRuns.DoSound | teep-agent-ta/teep-agent-ta.c:841-860 | every call keeps the invariant, and what was agreed with the TAM |
| AgentRuns.AlwaysSound | teep-agent-ta/teep-agent-ta.c:893-967 | whatever calls come in whatever order, the invariant holds after them and the session has not gone back |
| AgentRuns.OutstandingTask | teep-agent-ta/teep-agent-ta.c:316-353 | an outstanding POST, GET or FINISH is outstanding exactly in a posting state, while fetching with the runner suspended, or in the final state; a GET is for the URI of the last effect; the download handler's bad-state branch is never taken |
| AgentRuns.SuccessMeansInstalled | teep-agent-ta/teep-agent-ta.c:644-645 | success is reported only when every planned call was made as in an uninterrupted run and every awaited component was downloaded, in order |
| AgentRuns.SuccessSaysWhatRan | teep-agent-ta/teep-agent-ta.c:637-645 | when success is reported the whole install was performed if both its sequences are arrays, and otherwise nothing was called, stored or downloaded |
| AgentRuns.ExecutedIsAuthentic | teep-agent-ta/teep-agent-ta.c:82-116 | over all call orders, the manifest that is executed comes from an envelope for which all that holds: signatures, digest and manifest octets |
| AgentRuns.RootIsLastOfUpdate | teep-agent-ta/teep-agent-ta.c:287-306 | after an accepted update the context is its list in reverse for good, and what is executed is its last entry |
| AgentRuns.AcceptedOnce | teep-agent-ta/teep-agent-ta.c:268-306 | a session accepts at most one query request and at most one update |
| AgentRuns.TokenIsCarried | teep-agent-ta/teep-agent-ta.c:361-415 | every query response and success report carries the token of the query request accepted |
| AgentBroker.TasksAndReplies | teep-broker-app/teep-broker.c:252-270 | the loop carries out a task per reply, and waits for one more exactly when it has run out of them |
| AgentBroker.SessionBounded | teep-broker-app/teep-broker.c:248-272 | whatever the replies, posts are bounded by the state and the refused updates, and gets by the downloads |
| AgentBroker.DownloadsAreFetches | teep-agent-ta/teep-agent-ta.c:543-556 | each download, and the one awaited, answers a fetch call that the install plans |
| AgentBroker.LoopUndefined | teep-broker-app/teep-broker.c:248-272 | a session comes to undefined behaviour exactly on these replies: a query request, refused updates, and an accepted update that cannot be started |
| AgentBroker.EmptyUpdateIsUndefined | teep-agent-ta/teep-agent-ta.c:287-306 | a query request and then an update without envelopes are such replies |
| AgentBroker.SessionEnds | teep-broker-app/teep-broker.c:248-272 | termination: at most four posts plus one per refused update, and at most as many gets as the install plans fetch calls; given that many replies the loop ends at BROKER_FINISH or an error exit, unless the replies are those that make it undefined |
| AgentBroker.RefusedUpdateRepeats | teep-agent-ta/teep-agent-ta.c:289-292 | a refused update is a self-loop: in a session waiting for an update, n of them make the same query response be posted n + 1 times |
| AgentBroker.RefusalsAreUnbounded | teep-agent-ta/teep-agent-ta.c:96-116 | from a session just opened, a query request and n updates of three envelopes make n + 2 posts |
| AgentFetches.GetOutstanding | teep-agent-ta/teep-agent-ta.c:543-556 | an outstanding GET is for the URI of the run's last effect, and its reply is stored for that effect's target |
| AgentFetches.DownloadsAreFetched | teep-agent-ta/teep-agent-ta.c:316-331 | the downloads are for the first of the effects to be fetched, in order, and the one awaited is the next; unless the run has failed there are no others |
| AgentFetches.DownloadsAnswerGets | teep-agent-ta/teep-agent-ta.c:316-331 | over a session the k-th GET is for the URI of the k-th effect to be fetched, and the k-th download is the reply to it, for that effect's target |
| AgentFetches.SuccessStoresAll | teep-agent-ta/teep-agent-ta.c:644-645 | when success is reported every fetch of the plan has had its effect, all for what can be installed, and what was to be fetched was downloaded in order |
| AgentFetches.CallbacksAnswer | teep-agent-ta/teep-agent-ta.c:518-556 | the callbacks accept exactly components with a usable identifier and embedded dependencies, and suspend exactly for what is to be fetched |
| AgentFetches.FailureHasReason | teep-agent-ta/teep-agent-ta.c:641-650 | an install fails only at the end of what can be decoded, at a parameter that could not be set, at a fetch without a usable URI, or of what cannot be installed |
| AgentConversation.ReplyFollows | teep-agent-ta/teep-agent-ta.c:243-314 | after each task and each reply the next task is the one that the protocol calls for, told without the session's state; there is none only after an empty reply to a message |
| AgentConversation.SessionConverses | teep-broker-app/teep-broker.c:248-272 | the tasks of a whole session follow from one another in this way, with the token of the query request once there is one |
| AgentConversation.SessionLeaves | teep-broker-app/teep-broker.c:248-272 | the loop is left at BROKER_FINISH after an empty reply, and in error only when a request failed, a message could not be parsed or answered an error report |
| AgentConversation.OptionsAreKept | teep-agent-ta/teep-agent-ta.c:175-234 | an address of at most 511 characters is what is posted to, and at most sixteen applications are listed as their marks say |
| AgentConversation.OptionsAreRefused | teep-agent-ta/teep-agent-ta.c:175-234 | an option is refused, changing nothing, exactly if it comes too late, is too long, lists too much or is unknown |
| AgentConversation.WholeSession | teep-broker-app/teep-broker.c:248-272 | a session begins with an empty message to the address it was given and is such a conversation to its end |
| Rendezvous.HostKeepsInv | teep-broker-app/teec-keystone.cpp:137-174 | every step of the host thread keeps the invariant of the hand-off |
| Rendezvous.EnclaveKeepsInv | teep-broker-app/teec-keystone.cpp:79-135 | every step of the enclave thread keeps it |
| Rendezvous.AlwaysInv | teep-broker-app/teec-keystone.cpp:70-176 | it holds after every interleaving, with wake-ups for no reason and the client using its memory between calls |
| Rendezvous.ExactlyOnce | teep-broker-app/teec-keystone.cpp:234-245 | each command is executed exactly once and in order, on the values and octets it was issued with, and each caller gets the result, the output values, the size and the memory with the output written over it, which is what a direct call would have left if the result is success |
| Rendezvous.EachItsOwn | teep-broker-app/teec-keystone.cpp:234-245 | octet by octet: each command is executed on the values and octets it was issued with, and its caller gets the application's own result, its values, and its output over the beginning of the memory |
| Rendezvous.AccessIsExclusive | teep-broker-app/teec-keystone.cpp:86-110 | outside the lock the parameters are touched only while the flag is up and their owner is blocked in the call |
| Rendezvous.NoDeadlock | teep-broker-app/teec-keystone.cpp:79-174 | in every reachable state one of the threads can go on until both are done |
| Rendezvous.RunsAreFinite | teep-broker-app/teec-keystone.cpp:79-174 | the two threads take a bounded number of steps however they interleave, lost and misdirected notifications included |
| Marshalling.Slot.ReadInvokeParam | teep-broker-app/teec-keystone.cpp:86-99 | a chunk is as much of the client's memory as it holds, none beyond the end |
| Marshalling.Slot.WriteInvokeParam | teep-broker-app/teec-keystone.cpp:101-110 | a chunk changes only the octets it covers, and none beyond the end |
| Marshalling.Slot.PullMemory | teep-agent-ta/teep-agent-ta.c:914-923 | for every chunk size above zero the loop ends with the client's octets, no more and no less |
| Marshalling.Slot.PushMemory | teep-agent-ta/teep-agent-ta.c:947-955 | the loop ends with the reply in the client's memory and the octets after it unchanged |
| Marshalling.Operation.PrepareParams | teep-broker-app/teec-pc.c:39-99 | the trusted application is given values, a copy of input memory and zeroed output memory |
| Marshalling.Operation.WritebackParams | teep-broker-app/teec-pc.c:101-130 | the client gets back output values, sizes and memory, and nothing else changes |
| Marshalling.Operation.PullParams | teep-agent-ta/teep-agent-ta.c:899-931 | pulled in chunks of any size, the parameters are those a direct call prepares |
| Marshalling.Operation.PushParams | teep-agent-ta/teep-agent-ta.c:933-965 | pushed in chunks, and completed with the result, the operation is what a direct call writes back |
| Marshalling.PreparedIsCarried | teep-broker-app/teec-pc.c:39-99 | type by type: input memory and values arrive as the client has them, output memory zeroed, and nothing else does |
| Marshalling.WrittenBackIsReturned | teep-broker-app/teec-pc.c:101-130 | type by type: output values replace the client's, output memory goes over the beginning of the client's with its size, and nothing else changes |
| Marshalling.DirectInvoke | teep-broker-app/teec-pc.c:170-184 | the direct call, which writes back only on success |
| Marshalling.KeystoneInvoke | teep-broker-app/teec-keystone.cpp:112-167 | for every chunk size the enclave's call returns the same result, and on success leaves values, sizes and buffers as the direct call does |
| Marshalling.TransportsAgreeOnFailure | teep-broker-app/teec-keystone.cpp:112-135 | the two transports leave the same operation after every failing call exactly if the operation has no output value and no room in any output memory |
| Marshalling.FailedQueryDiffers | teep-agent-ta/teep-agent-ta.c:798-823 | a failing query with no room for the address, after which they differ |

## Left out

- Where a compiler puts the local variables that targets lie in: an arbitrary function of the number of the handler call and the variable, which `SuspensionIsInvisible` takes to be the same for the runs it compares.
- SuitTargets.ParametersAreOwn: up to 32 requests, as many as the table holds; beyond that which request fails depends on how many of the others share an address, and `RunsAsIntended` covers any number where none do by accident.
- SuitRunner.Runner.Run: says nothing of the program counter, the stack and the selection after a failure; a failed runner does not move again.
- A TAM address of exactly 511 characters passes the length test and may be left without a terminating zero (`teep-agent-ta/teep-agent-ta.c:186-189`); the model keeps the 511 characters.
- The error code kept in contexts that are copied out as values, such as a child context, is not part of those values.
- SuitRunner.Runner.constructor: requires a root manifest whose install sequence is not severed, because the source otherwise follows a null pointer or reads a digest as a sequence; which sessions get there is said by `SessionEnds`.
- SuitRunner.Runner.CallHandler: the three conditions and dependency processing are stubs that succeed, as they are in the source.
- The try-entry step of the runner, which is empty in the source and never reached; that it is not reached is part of the runner's invariant.
- `tcbor_read_null` in place; what it reads is defined, but nothing modelled calls it.
- SuitAuthenticate.SignedManifestIsBstr: stated for manifests whose hashed form fits the address space; `HeadRoundTrip` covers every length below 2^64.
- SuitSealed.SealedIsAuthentic: is about envelopes written with preferred heads and auth blocks tagged in one octet; for any other encoding `AuthenticManifest` says what acceptance implies.
- SuitScripts.InstallMeans: is about sequences written with preferred heads, as `SuitEmbedded.EmbeddedIsStored` is; what other encodings of a head read as is said by `PartsRead` and `TypedReads`.
- Parsing a public key, and signature and hash computation: arbitrary functions, which also never fail for want of memory.
- Encoding and parsing TEEP messages (`lib/teep/libteep.c`): messages to the TAM are values, and the parser is an arbitrary function of the octets received.
- Which component identifiers name an installable path (`parse_component_id`): an arbitrary predicate; its prefix comparisons are not modelled.
- What `store_component` does: a download is recorded with its target.
- The copy of the fetch URI into a 512-octet buffer, and allocation failure anywhere.
- The parameter type checks and `copyout_param` of the trusted application's entry points, whose callers are the broker's own.
- SuitRunner.RunInstall: requires the same as the runner's constructor, for the same reason.
- AgentSession.Session.QueryNextTask: requires a session that can start the runner if it is about to; `DoReady` says which reply leads to one that cannot. So does `QueryRound`.
- AgentSession.LoopTeep: requires replies other than those that make the session undefined; the network's answers are a list fixed beforehand, and when it is used up the loop stops where it would wait.
- The command queue is a state machine over the steps of its two threads rather than a class, since its methods interleave; memory is sequentially consistent, and one parameter, with its values, its size and its memory, stands for a command's four.
- Rendezvous.RunsAreFinite: counts the steps of the threads; it says nothing when a thread is woken for no reason for ever, or is never scheduled.
- Marshalling.DirectInvoke: requires, like `KeystoneInvoke`, parameters that do not share memory.
- Marshalling.KeystoneInvoke: requires of the trusted application that it reports no more output than it had room for, as `copyout_param` makes sure; sizes are below 2^32.
- HTTP, installing files, logging, random numbers, the SGX and OP-TEE ports, the TAM server and the other examples.
