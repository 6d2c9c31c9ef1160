# Verified model of the PKCS#11 gateway

This project models the mTLS gateway in front of a Pico HSM and proves what its request pipeline,
audit log, authorization table and PKCS#11 layer guarantee. `dafny verify dfyconfig.toml` checks it.

## What is modelled

Each part appears in the form it has in the program, and once more as a value about which whole runs
can be stated.

- **Codecs.** `Bytes` (UTF-8, big-endian length prefixes), `Base64` (section 4 of RFC 4648, strict as in
  section 3.5), `Json` (printing and parsing of one-line objects, sections 2, 4 and 7 of RFC 8259),
  `Text` (`trim`, `lines`).
- **Authorization.** `Config.AuthzTable` runs the loader's nested validating loops over its two fields.
  They are proved against a declarative reading of the file: which entries are valid, which grants are
  listed, and which entry governs an allowlist.
- **Audit log.** `LogFile.AuditLog` is the object with the file text and the cached head. `Chain` is the
  theory of chained entries. `Appends` splits an append into the three separately locked steps of the
  code and interleaves any number of them.
- **HSM.** `Hsm.HsmClient` makes the PKCS#11 calls one by one on a `Device` that may fail at each of them and
  counts its failures.
  `Token` says what a command may answer, and `HsmMachine` interleaves commands step by step.
- **Pipeline.** `Server.Gateway` is the request handler and the line loop. `Pipeline` is the automaton it
  is proved to follow, event by event. `Replies` says without the automaton what a client may expect, and
  every course of the automaton is proved to be that. `Machine` runs any number of requests and connection entries at
  once over one shared log and one shared HSM: every lock acquisition of an append and every PKCS#11
  call is one step.
- **Restarts.** A step of `Machine` ends the process and starts the next one: the log is opened again,
  which takes a file that verifies; a configuration is loaded, the same or another; sessions, pending
  appends and unanswered requests are gone; the token, what it has signed and the file stay.

The results about whole runs are in `Ledger` (the log balances), `FailClosed` (no HSM call without an
intent), `Provenance` (which ciphertexts are decrypted), `Keys` (under which key), `Answering` (what an `ok`
answer means), `Outcomes` (what a log line says about the answer), `RoundTrip` (encrypt, then decrypt),
`Courses` (interleaved requests do what the request handler does), `Decision` (from the file to
execution), `EndToEnd`, `Progress` (requests can always go on) and `Served` (what a request left alone
gets). `Wrappers` holds the option type.

Transition functions return `None` where a step is not possible, and a run is any list of steps.
Failing writes, failing HSM calls, lost closing entries and restarts are steps like any other, so a
statement about every reached state (`Machine.Reached`) covers them.

## Named assumptions

They appear as `requires` clauses or parameters, never as axioms; `EndToEnd.AssumptionsHold` gives a
setting in which those about the environment hold together, and `EndToEnd.ExampleRun` is a run in it.

- SHA-256 is a parameter of which only the 32-byte output is fixed. Tamper evidence assumes
  `Chain.NoCollision`: no two of the entries at hand have different content and the same digest.
- A signature verifies exactly if it was made with the other half of the key over the same data
  (`Token.AnswersWith`); a signature enters the token's record when the signing call succeeds. Signatures
  made before the first start, or elsewhere, are an arbitrary set, of which none is by the gateway's
  own key pair (`Machine.Env.outside`, `Machine.DedicatedKey`).
- AES decryption undoes encryption under the same key and IV (`RoundTrip.Inverse`); ECDH derivation is
  a function of base key, peer bytes and the fixed KDF parameters.
- The key pair behind the integrity label is not also stored under another label
  (`Machine.DedicatedKey`), and the label and the token objects are the same in every process.
- No byte string is 2^64 bytes long (`Bytes.Fit`, `Machine.RequestFits`, `Chain.AllFit`).

## Where the code and its comments differ

- The comment at `src/audit.rs:63-64` speaks of one lock held for one append. The code takes three
  locks one after the other. `Served.RaceStopsRestart` runs two permitted requests after which no start
  accepts the log, `Appends.VerifiesIffSerial` the exact condition under which it does not, and
  `Appends.OneLockVerifies` shows that the comment's version would be sound.
- The comment at `src/audit.rs:35-36` says that the hash covers canonical JSON. The code hashes seven
  length-prefixed parts, and so does the model.
- The comment at `src/audit.rs:10-12` reads a lone intent as an interrupted operation. Closing entries
  are best effort (`src/server.rs:162-172`), so it may also be a finished one: `Served.LoneIntentOfFinished` is
  an `ok` answer whose intent stays alone. `Ledger.TwoPhase` counts requests cut off by a restart and
  failed closing entries separately.
- The comment at `src/server.rs:320` (and `README.md:112`) says that the label bound by the seal prevents cross-key replay of a
  ciphertext. A label does not determine a key: `decrypt` uses the key object itself and
  `derive_and_decrypt` one derived for a peer (`Served.SealCoversNoPeer`). `Keys.SameKeyIffAgree` gives
  the exact condition on the configuration, label by label: the label cannot be used both to encrypt and
  to decrypt, or all its grants for these are plain, or all of them list one and the same peer key
  (`Keys.AgreeReads`).
- An append to a file that ends in the middle of a line makes the log unreadable unless only white space
  stands there (`LogFile.AppendReadableIff`); no code checks this.

## Model

| member | source | states |
|---|---|---|
| Provenance.OnlySealedIsDecrypted | src/server.rs:234-244 | In every interleaving, over any number of restarts, each label, IV and ciphertext the HSM is asked to decrypt, whether the call then succeeds or fails, was encrypted before under that label by a request that then, still before the decrypting call began, had it signed with the gateway's key |
| Provenance.OnlySealedIsUsed | src/server.rs:234-244 | The same of every decrypt that the device carried out |
| Provenance.OnlySealsAreSigned | src/config.rs:119-121 | Whenever the gateway's key signs, the request behind the call is sealing its own ciphertext; no client request can reach that key |
| Provenance.CheckedMovesOn | src/server.rs:274-289 | A check that came out valid lets through to the decrypt exactly a ciphertext that had been sealed under the request's label |
| RoundTrip.EncryptDecrypt | src/server.rs:210-289 | Presenting an answered encryption later, in the same process or after restarts: no check of it is answered `false`, and the matching request, if answered `ok`, gets the original text character for character |
| RoundTrip.NeverFalse | src/server.rs:310-316 | With its seal on record, verification does not answer `false` |
| Outcomes.RejectedUnchecked | src/server.rs:310-316 | A permitted request whose presented signature was not found wrong is rejected only if the device failed to check it |
| RoundTrip.AnswersRoundTrip | src/hsm.rs:141-208 | Two true answers about matching requests, plain or derived key, give the first request's text back |
| Answering.OkAnswersAreTrue | src/server.rs:176-289 | Every `ok` answer of the six operations, in every run with restarts, is an answer the token gave this request for its decoded texts under the one key the label names; ciphertexts come with their seal |
| Outcomes.GotIsAnswered | src/server.rs:176-307 | The converse, in every run with restarts: once a request is answered, what the device answered to the command it stands for, a ciphertext if it was sealed, has been passed on as `ok` |
| Outcomes.OkIffGot | src/server.rs:176-307 | An answered request is `ok` exactly if the device gave such an answer |
| Outcomes.DoneIsTold | src/server.rs:116-174 | The events of an answered request are its story as `Replies` tells it, and its answered calls are its key uses |
| Replies.ServedAsTold | src/server.rs:116-316 | For every line, whatever the log and the device answer: a malformed one is an error and nothing happens; a request not permitted is denied and logged so; one whose intent is not written is an error and calls nothing; one of another mechanism or with bad base64 is an error; a decrypting one is denied unless its check is valid; else the one command is given, its answer passed on, and the closing entry says how |
| Replies.OkIsEarned | src/server.rs:116-174 | An `ok` takes a parsed and permitted request that can be executed, its intent written first, and the device's answer, which is what it passes on |
| Replies.AnswerIsPassedOn | src/server.rs:176-307 | An answer that the device gave to the command the request stands for, sealed if it is a ciphertext, is passed on |
| FailClosed.EveryCallHasIntent | src/server.rs:125-159 | Every HSM call started in any process, on whichever key, serves a permitted request with the mechanism of its operation, whose intent line was appended and published before, and is one of the three that request leads to: the operation it asks for on its own decoded texts, the check of the signature it presents, or the seal of a ciphertext it got before; a request without a written intent has no call |
| FailClosed.FailedIntentNoCall | src/server.rs:153-156 | After a failed intent the request is answered with an error and, however the run goes on, restarts included, has no HSM call |
| EndToEnd.EveryUseAllowed | src/server.rs:125-159 | Every key use, in any process, serves a request allowed by the configuration in force when it arrived, covered by a logged intent; it is that very request's check or seal, or what it does with the key is an operation the file grants this client on this label |
| Courses.CoursesAreShown | src/server.rs:116-174 | For each request of an interleaved run, restarts included: its events replay the automaton that `Server.Gateway.ProcessLine` is proved to follow; its successful appends are exactly its completed log lines and its answered calls exactly its key uses, in order |
| EndToEnd.VerifiedIffSigned | src/server.rs:194-209 | In every run with restarts an answered `verify` says `true` exactly if, when its key was used, that signature over those data had been made: elsewhere, or by an earlier use in this or an earlier process |
| EndToEnd.DerivedKeysStayOut | src/hsm.rs:214-235 | With any number of derivations under way, a lookup by a grantable label finds the token's own objects only; token objects never change and nothing is left behind |
| EndToEnd.AssumptionsHold | src/config.rs:78-96 | The assumptions can be met together, for every hash function: a valid configuration, tables that mean it, and a token with its keys |
| EndToEnd.ExampleRun | src/server.rs:210-244 | In that setting, from a first start on an empty log, a state is reached in which an encryption was answered, the gateway was started again and the decrypt was answered with the original text |
| Ledger.TwoPhase | src/server.rs:153-173 | Over any number of processes writing one file, for each client, each of the six operations, and each key: the file is what was there at the first start and then the lines counted here; on every prefix of them closing entries do not exceed intents; intents equal closings plus requests under way, failed closings and requests cut off by a restart |
| Ledger.IntentsCome | src/audit.rs:8-12 | Authorized plus Error entries never exceed Intent entries, however far one reads |
| Ledger.IntentsBalance | src/audit.rs:8-12 | Each intent is closed, under way, its closing entry failed, or a restart cut its request off |
| Ledger.LinesNameOperations | src/server.rs:353-362 | In every run with restarts a line of a request bears its client and key, and each of the six names exactly if the request is of that operation; all other lines are `connect` lines |
| Ledger.AppendIsDo | src/audit.rs:97-120 | The three steps of an append, uninterrupted, do what the log object does in one call |
| Ledger.FailureIsDo | src/audit.rs:112-118 | An append whose write fails does nothing, in the steps as in the object |
| Ledger.FileVerifiesIffSerial | src/audit.rs:97-120 | The text written by requests, connections and restarts in any order is accepted by the next start exactly if since the last start no append read the head inside another one's window |
| Ledger.RunIsLogRun | src/audit.rs:89-121 | Between two starts a run of the gateway is, for its log, a run of interleaved appends |
| Outcomes.ClosingLinesAreTrue | src/server.rs:160-173 | In every run with restarts, an `authorized` line belongs to a request whose answer is an `ok` and true of what the token did, and an `error` line quotes the error its request is answered with |
| Outcomes.AuthorizedIffOk | src/server.rs:160-173 | An answered request has an `authorized` line exactly if its answer is `ok` and its closing append did not fail |
| Decision.ExecutedIff | src/server.rs:116-159 | A parsed request is executed if and only if the file allows it and its intent was written as its first event; HSM calls only happen then |
| Decision.PermittedIffAllowed | src/config.rs:98-188 | The two checks on the loaded tables are the declarative reading of the file, peer keys compared as bytes with the governing entry's list |
| Pipeline.IntentFirst | src/server.rs:125-159 | Along any course of events, execution or an HSM call implies permission and a successful intent as first event |
| Pipeline.PayloadInjective | src/server.rs:318-330 | Equal integrity payloads come from equal label, IV and ciphertext |
| Pipeline.PayloadReads | src/server.rs:318-330 | A parser finds in the payload the domain separator, the label, the IV and the ciphertext, in this order |
| Keys.SameKeyIffAgree | src/server.rs:318-330 | Over all runs of processes that load tables of a given set, on a token that has the keys they name: everything of a label that is handed to a decrypt was encrypted and sealed before under the very key it is decrypted with, if and only if the tables let one encrypt and decrypt with that label in one way only |
| Keys.AgreeReads | src/config.rs:98-188 | That condition as read off the tables: no way to encrypt with the label, or none to decrypt, or all of them plain, or all with one and the same listed peer |
| Keys.AgreeingKeysSuffice | src/server.rs:318-330 | The condition suffices in every run, whatever the token holds |
| Keys.DisagreeingKeysFail | src/server.rs:318-330 | Without it, on a token that has the keys, there is a run that hands a ciphertext to a decrypt under another key than the one that made it |
| Keys.SameKeyIsSame | src/hsm.rs:141-235 | Commands on one label that are both plain, or both derive for one peer, work with the same key |
| Served.SealCoversNoPeer | src/server.rs:325 | A seal binds neither operation nor peer: from any reached state with an answered encryption, any permitted `derive_and_decrypt` of that label, with whatever allowed peer, can present the answer, passes the check and has its ciphertext handed to the HSM under its own peer; `Keys.SameKeyIffAgree` says when this cannot cross keys |
| Served.DecryptsAfterRestart | src/server.rs:210-289 | From any calm state, for either pair of operations: a run in which an encryption is answered, the gateway is started again with a possibly different configuration, and the decrypt is answered with the original text |
| Served.ReachesDecryptAfterRestart | src/server.rs:210-289 | From a first start, such a run reaches a state with the encryption answered and the gateway started again, and from there one with the decrypt answered with the original text |
| Served.LoneIntentOfFinished | src/server.rs:162-173 | From any reached state: a request that is carried out and answered `ok` while the log keeps its intent and gets no closing entry |
| Served.RaceStopsRestart | src/audit.rs:97-120 | From a first start on an empty log, any two permitted requests lead to a state from which no configuration can be started, whatever the hash function |
| Served.EncryptAlone | src/server.rs:210-226 | From any state an encrypting request left alone is answered with its ciphertext, sealed |
| Served.CheckAlone | src/server.rs:227-241 | From any state a request presenting a seal on record passes its check and goes on to decrypt exactly what it presented |
| Served.AppendAlone | src/audit.rs:89-121 | Whatever else is under way, a request can complete its append; one at a time this keeps the chain |
| Served.CallAlone | src/hsm.rs:112-208 | Whatever else is under way, a call whose key is there can be answered with the result of that key |
| Served.SignAlone | src/server.rs:178-193 | From any state a permitted signing request left alone is answered with the signature made by the one private key of its label, which is then on record |
| Served.VerifyAlone | src/server.rs:194-209 | From any state a permitted verifying request left alone is answered with whether that signature had been made |
| Served.SignThenVerify | src/server.rs:177-209 | What one request has signed another one then verifies as `true` |
| Progress.EveryRequestGoesOn | src/server.rs:116-174 | In every reached state each request neither answered nor cut off has a step to take, and it is answered after at most 43 of its own |
| Progress.FewSteps | src/server.rs:116-174 | Every step of its own takes a request nearer to its answer, and no step of others sets it back |
| Progress.NothingIsExcluded | src/server.rs:60-174 | Requests and connection entries are taken in at any time, any write and any call may fail, and a start takes exactly the logs that verify |
| Server.Gateway.ProcessLine | src/server.rs:116-174 | The calls made for one line are exactly a run of the automaton ending in the response, and the story `Replies` tells of it; a malformed line is an error and leaves everything as it was; the log stays valid, token objects unchanged |
| Server.Gateway.Execute | src/server.rs:176-291 | Executing a request follows the automaton from its entry to the closing response, for all six operations; what that means is `Replies.ServedAsTold` |
| Server.Gateway.CheckedDecrypt | src/server.rs:227-289 | Both decrypting branches decode, check, and only then decrypt |
| Server.Gateway.SealResponse | src/server.rs:295-307 | A ciphertext goes out only with a signature over label, IV and ciphertext |
| Server.Gateway.CheckIntegrity | src/server.rs:310-316 | Any error and any bad signature is a rejection |
| Server.Gateway.Log | src/server.rs:125-172 | Refusals and closing entries are logged best effort and answered either way |
| Server.Gateway.CertPolicy | src/server.rs:68-94 | Which connections are refused or warned about, and the one entry that records it |
| Server.Gateway.HandleConnection | src/server.rs:60-114 | One response per non-blank line, in order, malformed lines included; all are sent, but possibly the last, of which a failed write sent some part |
| Server.ConnectionEarns | src/server.rs:97-120 | On a connection, a malformed line is answered with an error and no event, and an `ok` is earned as `Replies.OkIsEarned` says |
| Server.FramesSplit | src/server.rs:97-111 | Splitting the output at newlines gives the responses one for one |
| Server.FramesInjective | src/server.rs:102-108 | The bytes sent determine the responses |
| Server.CutFrames | src/server.rs:107-109 | Output that broke off in the middle of a frame still yields the whole responses before it |
| Protocol.WireInjective | src/protocol.rs:129-144 | No two responses have the same text on the wire |
| Protocol.WireReads | src/protocol.rs:127-144 | A client parsing the line finds the status and, under each name, the value that belongs there |
| Protocol.OpNameReads | src/server.rs:353-362 | Each operation's name in the log stands for that operation |
| Config.AuthzTable.FromConfig | src/config.rs:78-96 | Loading succeeds exactly for valid files, and then the tables mean exactly what the file lists |
| Config.AuthzTable.AddPermission | src/config.rs:98-168 | An entry is accepted exactly if valid and then adds its grants and allowlists, whatever order the hash set is walked in; a rejected entry changes nothing |
| Config.AuthzTable.AddPermissions | src/config.rs:91-93 | The inner loop accepts exactly valid clients and keeps meaning and invariant |
| Config.AuthzTable.AddClient | src/config.rs:83-94 | A client is accepted exactly if it is valid and its name new |
| Config.AuthzTable.VetLabels | src/config.rs:110-125 | The label loop accepts exactly non-empty lists of distinct, non-empty, non-integrity trimmed labels and returns them |
| Config.AuthzTable.VetKeys | src/config.rs:139-155 | The key loop accepts exactly non-empty lists of distinct, valid base64 keys and returns them |
| Config.AuthzTable.Enter | src/config.rs:156-166 | The insertion loop's result does not depend on the order of the labels |
| Config.AddMeans | src/config.rs:98-168 | One more entry: the new tables mean the longer list, later allowlists replacing earlier ones |
| Config.AddKeepsInvariant | src/config.rs:98-168 | Allowlists belong to exactly the derive grants and are non-empty valid base64; names are trimmed, non-empty and never the integrity label |
| Config.AllowlistIsOfBytes | src/config.rs:178-188 | Comparing peer keys as text agrees with comparing the bytes they decode to |
| Config.GoverningEntry | src/config.rs:159 | Every listed grant has an entry that names it last |
| Appends.VerifiesIffSerial | src/audit.rs:97-120 | In every interleaving of the three steps the chain holds exactly if no written append read the head between another one's read and publication |
| Appends.RaceBreaksChain | src/audit.rs:97-120 | Two appends that both read before either publishes break the chain, whatever the hash function |
| Appends.OneLockVerifies | src/audit.rs:63-64 | With one lock per append the chain holds after every run and the cached head is the last hash |
| Appends.OneLockKeepsChain | src/audit.rs:63-64 | The same from any state in which it holds |
| Appends.RunKeepsInv | src/audit.rs:97-120 | In every run each line is sealed behind the line that was published last when its append read the head |
| LogFile.VerifyChain | src/audit.rs:130-165 | The loop accepts exactly readable files with an unbroken chain and returns their last hash |
| LogFile.AuditLog.Open | src/audit.rs:74-86 | Opens exactly if the chain verifies and the file can be opened, in the state `Do` says for a restart |
| LogFile.AuditLog.Append | src/audit.rs:89-121 | The object does what the step `Do` says: one line sealed behind the cached head, or nothing, the latter exactly if the write failed; a valid log stays valid |
| LogFile.HeadCacheAgrees | src/audit.rs:74-121 | After any sequence of these appends, failed appends and restarts the cached head is what verification computes, and reopening resumes the same state |
| LogFile.VerifyAppended | src/audit.rs:110-119 | Appending behind a verified head gives a file that verifies with the new hash |
| LogFile.AppendReadableIff | src/audit.rs:110-118 | A readable file stays readable after an append exactly if only JSON white space stands behind its last newline |
| LogFile.TamperedFileShows | src/audit.rs:128-165 | A file of entries deleted, moved or repeated is accepted exactly if it is a prefix of the original log |
| LogFile.SameHeadSameLog | src/audit.rs:128-165 | Accepted files with the same last hash hold the same log |
| LogFile.LogRoundTrip | src/audit.rs:138-144 | Writing any entries and reading the file gives those entries |
| LogFile.ParsePrinted | src/audit.rs:37-48 | One entry, with `detail` left out when empty, is read back as it was |
| LogFile.EntryReads | src/audit.rs:37-48 | A line is read as an entry exactly if each member is there once, as a string, and the outcome is one of the five names; only the detail may be missing |
| Chain.ComputeEntryHash | src/audit.rs:52-61 | The loop over the seven parts computes the hash of their encoding |
| Chain.HashInputReads | src/audit.rs:52-61 | A parser finds in the hashed bytes the seven texts in their order, the outcome as its quoted name |
| Chain.HashInputInjective | src/audit.rs:52-61 | Equal hash inputs come from equal content, outcome included |
| Chain.HashIsNotGenesis | src/audit.rs:50-61 | A hash has 44 characters and is never `GENESIS` |
| Chain.PrevOf | src/audit.rs:130-165 | In a verifying log the first entry follows `GENESIS` and every other one the hash before it |
| Chain.HashesDistinct | src/audit.rs:130-165 | All hashes of a verifying log are different |
| Chain.OnlyPrefixesVerify | src/audit.rs:130-165 | A verifying log made of entries of a verifying log is a prefix of it |
| Chain.PrefixesVerify | src/audit.rs:130-165 | Of all such logs exactly the prefixes verify |
| Chain.SameLastHashSameLog | src/audit.rs:130-165 | The last hash determines the log |
| HsmMachine.RunKeepsToken | src/hsm.rs:65-235 | In every run of interleaved calls lookups see token objects only, these stay as they are, and all other objects are sensitive AES-256 keys of running sessions |
| HsmMachine.RunsAreSequential | src/hsm.rs:112-208 | In every run, interleaved calls answer exactly as the sequence of their key uses would, run one at a time on the token objects, whatever had been signed before |
| HsmMachine.UseIsAtomic | src/hsm.rs:112-208 | Interleaved commands answer as if each ran alone at the moment it uses its key |
| HsmMachine.LookupsSeeTokenObjects | src/hsm.rs:81-97 | Unlabelled session keys match no named lookup |
| Hsm.HsmClient.FindKeyByLabel | src/hsm.rs:81-97 | What is found is the one object of that label and class; nothing is found exactly if a call failed on the device or there is no such single object |
| Hsm.HsmClient.SignEcdsaSha256 | src/hsm.rs:112-119 | Signs with the one private key of the label; fails, and signs nothing, exactly if the device failed or there is no such key |
| Hsm.HsmClient.VerifyEcdsaSha256 | src/hsm.rs:124-137 | Answers whether the one public key of the label verifies; fails exactly if the device failed or there is no such key |
| Hsm.HsmClient.EncryptAesCbcPad | src/hsm.rs:141-153 | Encrypts under the one secret key of the label and an IV of 16 bytes that the device drew in this very call; fails exactly if the device failed or there is no such key |
| Hsm.HsmClient.DecryptAesCbcPad | src/hsm.rs:155-170 | Decrypts under that key; fails exactly if the device failed, the IV is not 16 bytes, or there is no key that decrypts it |
| Hsm.HsmClient.DeriveAndEncrypt | src/hsm.rs:175-189 | Encrypts under the key derived from the label's private key and the peer and an IV drawn in this call, leaves the objects as they were, and fails exactly if the device failed or there is no such key |
| Hsm.HsmClient.DeriveAndDecrypt | src/hsm.rs:191-208 | The same for decryption |
| Hsm.HsmClient.DeriveAesKey | src/hsm.rs:214-235 | Adds one object: an unlabelled, sensitive 256-bit AES key for encryption and decryption that belongs to the session |
| Hsm.HsmClient.RandomIv | src/hsm.rs:237-244 | An IV is 16 bytes drawn from the device now |
| Bytes.ParseEncode | src/server.rs:321-330 | A parser recovers every list of length-prefixed parts |
| Bytes.EncodeParse | src/server.rs:321-330 | What the parser accepts is the encoding of what it read |
| Bytes.EncodePartPrefixFree | src/server.rs:325-328 | No encoded part is the beginning of another one |
| Bytes.FeedParts | src/server.rs:325-328 | The loop that feeds length and bytes part by part builds that encoding |
| Bytes.Utf8Injective | src/audit.rs:56-58 | Strings with the same bytes are the same |
| Bytes.Utf8CharIs | src/audit.rs:56-58 | The bytes of a character are as section 3 of RFC 3629 tabulates them: ASCII is its own code; else lead and continuation bytes are in their ranges and their bits make up the code |
| Bytes.Utf8Concat | src/audit.rs:56-58 | The bytes of a text are those of its characters in order |
| Bytes.Utf8Ascii | src/audit.rs:56-58 | An ASCII text is encoded byte for character |
| Bytes.BigEndianAt | src/server.rs:326 | Each byte of an encoded length has its place value |
| Base64.DecodeEncode | src/server.rs:349-351 | Decoding an encoding gives the bytes back |
| Base64.EncodeDecode | src/config.rs:149-151 | Strict decoding: a text that decodes is the encoding of its bytes |
| Base64.DecodeInjective | src/server.rs:133-144 | Two texts that decode to the same bytes are the same text |
| Json.ParsePrinted | src/audit.rs:110 | Members with any text in them are read back as they were |
| Json.PrintPlain | src/audit.rs:110-111 | Printed JSON contains no line break or other control character |
| Json.EscapeIs | src/audit.rs:110 | Quotes, backslashes and control characters are escaped as serde_json does; everything else is printed as it is |
| Text.TrimCuts | src/config.rs:115 | Trimming cuts white space off both ends and nothing else |
| Text.LinesAppend | src/audit.rs:138 | Text behind a newline is read as lines of its own |
| Text.LineEnds | src/audit.rs:138 | A line ends with a newline, with carriage return and newline, or with the text |
| Text.WhiteIs | src/config.rs:115 | White space is the twenty-five characters of that Unicode property |

## Left out

- TLS, X.509 parsing, the accept loop, environment and PEM loading (`src/main.rs`, `peer_leaf_cert`, `cert_cn`): the client name is an arbitrary string.
- Certificate day arithmetic (`cert_policy_numbers`): the two day counts are parameters of the connection.
- YAML and request JSON parsing: the model starts from configuration entries and from an arbitrary function that reads a line as a request or as malformed.
- The inside of AES-CBC, ECDSA, ECDH, the KDF, SHA-256 and the random number generator.
- What makes a call on the device fail: a peer key that is no point of the curve, a key of another type and a removed token are all failures of the device; only a ciphertext that the key does not decrypt is told apart.
- PIN handling and login: opening a session is one call that may fail.
- Error texts: messages and reasons that interpolate details are fixed texts here, one per branch; `integrity check failed, ciphertext rejected` is the code's own.
- Timestamps: arbitrary texts.
- JSON log lines in which an unknown member has a number, an array or an object as its value are unreadable in the model, while serde_json skips such values and also takes an entry written as an array; lines the gateway writes have none.
- Torn writes and a flush that fails after the write: a failed append writes nothing. A file left unterminated by such a write is covered by `LogFile.AppendReadableIff`.
- Server.Gateway.ProcessLine: serves one request at a time; interleaving is in `Machine`, which uses the same automaton.
- Provenance.OnlySealedIsDecrypted: speaks of the seal being made, not of its response having been sent, because a requester may hold the signature before the response is written.
- Fairness: that a request does take its next step is up to the scheduler and the device; `Progress` shows that it always has one.
- The end of a process during a single system call: a restart falls between steps.
