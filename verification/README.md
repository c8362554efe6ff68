# CapsuleVM, verified

A Dafny model of CapsuleVM's capability broker (Rust) and of the `capsh` shell in front of it
(OCaml), with proofs about whole runs: what every reachable state of a session satisfies, what
the audit log looks like after any crash, what a guest can ever reach, what a program text means.

Strings are UTF-8 byte strings, one `char` per byte. The digest is an arbitrary function from
strings to 64 lower-case hex digits; where a theorem would need it to be injective, the statement
is "equal, or here is a collision". Files, directories, hosts, random names and the disk are
parameters: each theorem holds for all their answers.

| files | what they hold |
|---|---|
| `Text` | splitting, joining, decimal numbers, UTF-8, trimming |
| `Audit`, `AuditSink`, `SharedSink` | the hash-chained log: printing, replaying, the sink object, crash points, recovery, binding, failed records |
| `Target`, `Glob` | the request-target normaliser, percent-decoding, the allowlist matcher |
| `Consent` | the consent ledger, signatures of actions, interleavings of sessions and approvers |
| `Paths`, `Registry`, `Reading` | safe joins and taint, the capability registry, reading through derived directories |
| `Broker`, `BrokerRuns`, `BrokerTheorems`, `Effects` | the session as a state machine, its invariant, theorems over all runs |
| `BrokerLaws` | each operation told from outside: when exactly it succeeds, and what it leaves in every later state |
| `Session` | the session object, each method proved to be the state machine's step |
| `Stores`, `World` | many sessions over one sink and one ledger, record by record: what is in the log, effects against approvals |
| `Wire`, `WireLaws`, `Guest` | dispatch of wire requests on the session object, from words to effects, confinement of guests |
| `HandleTable` | the per-process handle table and the guest's system calls |
| `Base64`, `Strays`, `Frames`, `Seccomp` | the two base64 codecs, framing, the system-call filter |
| `Ast`, `Lexer`, `LexerLaws`, `Parser`, `ParserLaws`, `Grammar` | the shell's syntax: lexer and parser objects, round trips, a grammar apart from them |
| `Template`, `Evaluator`, `EvalLaws` | the shell's templates, its evaluator over any backend, and what each construct means |

`dafny verify dfyconfig.toml` checks everything.

Four statements one might expect are false of the code; each is given with the exact condition
under which it holds.

- The log replays to the sink's memory: after records that failed, if and only if none of them
  stopped after a byte of its line was written, a named digest collision aside
  (`SharedSinks.FailedRecordForks`, `SharedSinks.ReplaysIffQuiet`, `Worlds.LogReplaysIffQuiet`). A
  session that failed is stopped, but other sessions go on appending to the log it spoilt.
- A resumed log goes on replaying: if and only if it was opened with its final line feed
  (`AuditSinks.ResumeKeepsAgreement`).
- Joining in two steps is joining once: if and only if the second part climbs, or an empty first part
  meets an absolute second one, or neither does (`Paths.JoinTwice`).
- The two base64 decoders agree on text with characters off the alphabet: if and only if the strays
  keep the chunks aligned (`Strays.StraysAgreeIffAligned`). On the alphabet and `=` they always agree.

Where the code and its comments differ the model follows the code: `derive_readonly` sets the
operations to Read and List whatever the parent had; a prefix facet of a one-shot facet is not
one-shot; minting a mailbox is not stopped by a downgrade.

## Model

| member | source | states |
|---|---|---|
| Audit.ReplayLog | crates/capable-broker/src/audit.rs:30-54 | the replay loop accepts a log exactly when every line is text of seven fields with the expected number, previous head and digest, and then gives the number of lines and the last digest |
| Audit.SanitizeIsClean | crates/capable-broker/src/lib.rs:420-422 | any text becomes a field without tab or line feed that is still valid UTF-8 |
| Audit.LineReplays | crates/capable-broker/src/audit.rs:109-118 | a printed line is one line of the log, and a replay standing at the mark it was printed for accepts it and moves to the next mark |
| Audit.LineFields | crates/capable-broker/src/audit.rs:109-118 | splitting a printed line gives back its seven fields, whatever the entry holds |
| Audit.AnchorReads | crates/capable-broker/src/audit.rs:57-70 | an anchor text written for one mark is read as another mark exactly when the two marks are equal |
| Audit.LinesAppend | crates/capable-broker/src/audit.rs:30-54 | what is appended after a line feed forms its own lines; no earlier line changes |
| Audit.ReplayAppend | crates/capable-broker/src/audit.rs:30-54 | replaying a longer log is replaying its beginning and going on from the mark reached |
| AuditSinks.AuditSink.OpenLog | crates/capable-broker/src/audit.rs:74-106 | `open` resumes exactly the replayed mark when the anchor confirms it, and otherwise refuses |
| AuditSinks.AuditSink.Record | crates/capable-broker/src/audit.rs:109-125 | a record advances count and head only when every disk step finished; at any earlier step memory is unchanged and the disk is exactly as far as it got |
| AuditSinks.RecordSettles | crates/capable-broker/src/audit.rs:109-125 | a successful record leaves a disk that opens to exactly the new mark |
| AuditSinks.CrashRecovery | crates/capable-broker/src/audit.rs:57-125 | for every crash point inside `record` and every surviving prefix, a later `open` gives the state before, the state after, or a refusal; with the old anchor it succeeds if and only if no byte of the line survived; with the new one it gives the state after |
| AuditSinks.LifetimeAgrees | crates/capable-broker/src/audit.rs:109-150 | over any sequence of records, crashes and restarts, while the sink is up the log is the print of its entries, replays to the count and head in memory and matches the anchor |
| AuditSinks.RecordsAllPresent | crates/capable-broker/src/audit.rs:109-125 | without crashes the log holds every record, in order |
| AuditSinks.ResumeKeepsAgreement | crates/capable-broker/src/audit.rs:74-125 | `open` also resumes a log whose final line feed is missing; after the next record the log replays to memory if and only if the opened log ended in a line feed, and otherwise never replays again |
| AuditSinks.ResumeWithoutFeed | crates/capable-broker/src/audit.rs:74-125 | the shortest such log, for any two entries: it opens, and one record later it no longer replays |
| AuditSinks.ChainBinding | crates/capable-broker/src/audit.rs:30-54 | two logs replaying to the same head have as many lines and the same joined content on every line, or two different contents among them hash alike |
| AuditSinks.VerifiedLogIsTheLog | crates/capable-broker/src/audit.rs:133-150 | any log that verifies against a settled sink's anchor has the sink's lines content for content, or exhibits a collision |
| AuditSinks.TruncationDetected | crates/capable-broker/src/audit.rs:133-150 | cutting any nonempty run of trailing lines makes `verify_persisted` false |
| SharedSinks.FinishedLineStays | crates/capable-broker/src/audit.rs:109-125 | whatever other records do, one that finished has its whole printed line in the synced log, at the place it started, from then on |
| SharedSinks.PlacesInOrder | crates/capable-broker/src/audit.rs:109-125 | lines stand in the log in the order of their records |
| SharedSinks.FailedRecordForks | crates/capable-broker/src/audit.rs:109-125 | after a record that stopped anywhere and one that finished, the log replays to the memory if and only if no byte of the failed line was written (or its first digit alone, on an empty chain, with a named digest collision); otherwise it never replays |
| SharedSinks.ReplaysIffQuiet | crates/capable-broker/src/audit.rs:109-125 | over any sequence of records, the log file replays to the memory if and only if none stopped after a byte of its line was written, or a named digest collision is exhibited |
| SharedSinks.QuietLines | crates/capable-broker/src/audit.rs:109-125 | while none did, every finished record is the line of the log that its number says |
| Target.RejectBadPercent | crates/capable-broker/src/net.rs:92-116 | accepts exactly the texts whose escapes are all well formed and none of which stands for a slash, a backslash or a dot |
| Target.RemoveDotSegments | crates/capable-broker/src/net.rs:118-136 | the in-place stack loop gives the resolved segments, or fails exactly when a `..` climbs above the root |
| Target.CanonicalRequestTarget | crates/capable-broker/src/net.rs:55-80 | the whole normaliser: same acceptance and same text as the specification the theorems below are about |
| Target.DecodeThenResolve | crates/capable-broker/src/net.rs:55-132 | decoding and normalising commute: decode the raw path once, split and resolve dots, and the result is the canonical path's segments decoded one by one |
| Target.DecodeCanonical | crates/capable-broker/src/net.rs:55-132 | a server that decodes the canonical target reaches the same segments as one that decodes the raw target |
| Target.DecodedSegmentsProper | crates/capable-broker/src/net.rs:55-132 | no decoded segment is empty, `.`, `..`, or holds a slash or a backslash |
| Target.CanonicalIdempotent | crates/capable-broker/src/net.rs:55-80 | normalising twice is normalising once, query included |
| Target.AgreesWithRfc | crates/capable-broker/src/net.rs:55-136 | on every acceptable target, the canonical path has the segments that the procedure of section 5.2.4 of RFC 3986, written independently, keeps, up to empty ones, if and only if no `..` of the path climbs above the root or takes back an empty segment |
| Glob.MatchIffCut | crates/capable-broker/src/net.rs:226-237 | a match exists if and only if the path can be cut into consecutive pieces, any piece for `**`, one segment for `*`, the equal segment for a literal |
| Glob.WideningKeepsMatches | crates/capable-broker/src/net.rs:226-237 | widening literals to `*` and `*` to `**`, anywhere in the pattern, loses no match |
| Glob.MatchIsOnSegments | crates/capable-broker/src/net.rs:220-224 | matching the canonical path is matching its segments, the root path counting as one empty segment |
| Glob.AllowlistConfinesServer | crates/capable-broker/src/net.rs:55-237 | if the canonical path matches a pattern that begins with literals, the path a decoding server reaches begins with those literals decoded |
| Consent.ActionSig | crates/capable-broker/src/lib.rs:338-347 | the loop computes the digest of the length-delimited encoding |
| Consent.EncodeInjective | crates/capable-broker/src/lib.rs:338-347 | the encoding is injective on parameter lists: no two lists share it |
| Consent.ConsentLedger.RequestOrCheck | crates/capable-broker/src/policy.rs:101-130 | one request per signature and session; an approval is consumed by the check that sees it, a denial is kept, a new request gets the next id, and nothing else changes |
| Consent.ConsentLedger.Approve | crates/capable-broker/src/policy.rs:133-143 | only a pending request becomes approved; the rest of the ledger is unchanged |
| Consent.ConsentLedger.Deny | crates/capable-broker/src/policy.rs:145-155 | only a pending request becomes denied; the rest of the ledger is unchanged |
| Consent.StepKeepsInv | crates/capable-broker/src/policy.rs:101-154 | every step of every session and approver keeps request keys unique and ids below the counter |
| Consent.ConsentConserved | crates/capable-broker/src/policy.rs:101-154 | in every interleaving, passes for a session and parameter list never outnumber its approvals, and approvals exceed them by one at most, unless two seen lists are a hash collision |
| Consent.IdsAndDenialsLast | crates/capable-broker/src/policy.rs:101-154 | an id keeps the action it was made for, never returns once consumed, and a denied request stays denied |
| Consent.DeniedKeyRefused | crates/capable-broker/src/policy.rs:101-131 | a denied signature and session never passes a later gate |
| Consent.ApprovedGatePasses | crates/capable-broker/src/policy.rs:101-131 | the gate of a key passes when its request is approved and takes the request away; it is refused when denied, and waits under the same id when pending, with nothing changed |
| Consent.ConsentRoundTrip | crates/capable-broker/src/policy.rs:101-143 | from any reachable ledger: the first request of a new key waits, once approved the next one passes, the one after that waits again under another id |
| Consent.ApprovedLasts | crates/capable-broker/src/policy.rs:101-154 | an approved request stays as it is until a gate of its own key, in every interleaving |
| Paths.JoinTwice | crates/capable-broker/src/lib.rs:1166-1181 | `safe_join(safe_join(root, a), b)` equals `safe_join(root, a/b)` if and only if `b` climbs, or `a` is empty exactly when `b` is absolute |
| Paths.JoinStaysBelow | crates/capable-broker/src/lib.rs:1166-1181 | what is joined below the workspace stays lexically at or below it |
| Paths.SecretSafeJoin | crates/capable-broker/src/lib.rs:91-95 | joining neither hides nor creates a secret marker: the result is secret exactly when the root or the relative path is |
| Paths.SecretWords | crates/capable-broker/src/lib.rs:91-95 | a path is secret exactly when it holds one of the ten words |
| Paths.TaintIndependentOfCut | crates/capable-broker/src/lib.rs:921-936 | secrecy of a path read below any chain of roots equals secrecy of the joined path below the top |
| Paths.ChainIsOneJoin | crates/capable-broker/src/lib.rs:854-883 | a chain of joins on nonempty relative segments is one join of the joined path |
| Registry.RevokeIsExact | crates/capable-broker/src/lib.rs:465-476 | after revoking `r`, exactly `r` and its descendants stop being active |
| Registry.StaysInactive | crates/capable-broker/src/lib.rs:465-476 | no growth of the registry reactivates anything |
| Registry.InsertActivity | crates/capable-broker/src/lib.rs:402-406 | registering changes nobody's activity; a newcomer is active exactly when its parent is |
| Registry.ActiveAncestors | crates/capable-broker/src/lib.rs:465-476 | an active capability has only active ancestors |
| Registry.DescentFixed | crates/capable-broker/src/lib.rs:465-476 | descent between registered capabilities never changes |
| Reading.ReadIndependentOfCut | crates/capable-broker/src/lib.rs:854-936 | deriving any chain of nonempty segments and reading `rel` is refused exactly when reading the joined path through the top capability is, for the same file answer, and its taint is the same; an absolute `rel` is refused |
| BrokerRuns.StepKeeps | crates/capable-broker/src/lib.rs:233-1054 | every request keeps the session invariant (audit, effects, facets, deliveries, one-shot, mail, http) and only adds to the past |
| BrokerTheorems.Reachable | crates/capable-broker/src/lib.rs:233-1054 | the invariant holds in every reachable state, whatever files, hosts, ledger and disk answer |
| BrokerTheorems.Onward | crates/capable-broker/src/lib.rs:233-1054 | later states extend earlier ones: capabilities, events and effects are never lost or rewritten, broken stays broken |
| BrokerTheorems.RevocationIsExactAndPermanent | crates/capable-broker/src/lib.rs:1044-1054 | a revocation deactivates exactly `r` and its descendants, and in every later state nothing that descends from `r` is active |
| BrokerTheorems.InactiveForever | crates/capable-broker/src/lib.rs:465-486 | what is inactive once is inactive in all later states |
| BrokerTheorems.DowngradeIsPermanent | crates/capable-broker/src/lib.rs:252-268 | every http or message capability existing at a downgrade is inactive ever after |
| BrokerTheorems.NoHttpWhileReduced | crates/capable-broker/src/lib.rs:762-775 | no http capability is active while mitigation is reduced |
| BrokerTheorems.MailboxRules | crates/capable-broker/src/lib.rs:621-706 | every stored message was delivered through a reference, is not secret, has a subject under the prefix of that reference and of all its ancestors, and, if literal, came from a minted owner |
| BrokerTheorems.OnlyRootsReceive | crates/capable-broker/src/lib.rs:708-727 | only the minted root of a facet tree ever reads a mailbox |
| BrokerTheorems.OneShotDeliversOnce | crates/capable-broker/src/lib.rs:675-706 | a one-shot reference delivers at most one message, and then it and all its descendants stay inactive |
| BrokerTheorems.RecordBeforeEffect | crates/capable-broker/src/lib.rs:957-1028 | whatever left the session left when its own intent was the last event and every event so far was flagged as stored; what a flag means for the log is `Worlds.StoredEventsAreInLog` |
| BrokerTheorems.RecordBeforeDisclosure | crates/capable-broker/src/lib.rs:708-727 | an answered read, listing or mailbox read has every event of its trail flagged as stored, its own included |
| BrokerTheorems.BrokenForever | crates/capable-broker/src/lib.rs:394-400 | after one failed record every later request that goes through `get_active` is refused or left waiting, and changes no capability, effect or mailbox |
| Effects.StepAuthorised | crates/capable-broker/src/lib.rs:621-1042 | a step adds at most one effect, and only one that is authorised in the state it starts from |
| Effects.EffectsAreAuthorised | crates/capable-broker/src/lib.rs:621-1042 | every effect in the history of every run happened at a step whose request named its capability, while that capability was active and of the right kind; a command only where `deny_exec` was off, and a command, fetch or post only where its `prompt` flag was off or the consent had been granted; no send declared Secret was made and every fetch was on the allowlist |
| Effects.AllowedIsOnAllowlist | crates/capable-broker/src/lib.rs:821-852 | the allowlist loop admits a request exactly when method, scheme and canonical path are listed |
| BrokerLaws.MintLaw | crates/capable-broker/src/lib.rs:490-908 | every granting and deriving request succeeds exactly when it may, registers exactly one new capability that is field by field what was asked for, and touches no other; a refusal registers nothing |
| BrokerLaws.MintedStaysAsAsked | crates/capable-broker/src/lib.rs:490-908 | in every run what a minting request handed out is still what was asked for in every later state, revocation aside |
| BrokerLaws.FacetIsAsAsked | crates/capable-broker/src/lib.rs:569-706 | in every later state a facet has its parent's mailbox, its parent's prefix followed by the added one, and is one-shot as asked; whatever is delivered through it or its descendants goes to that mailbox under that whole prefix |
| BrokerLaws.ReducedIsLastFlag | crates/capable-broker/src/lib.rs:252-268 | in every run the session is reduced exactly when the last mitigation request said so, and not before the first |
| BrokerLaws.HttpGrantedExactlyUnreduced | crates/capable-broker/src/lib.rs:762-805 | in every run a request for an http capability succeeds if and only if the host is good and the last mitigation request is not a downgrade; refused, it registers nothing; granted, the capability is active |
| BrokerLaws.MitigationIsExact | crates/capable-broker/src/lib.rs:252-268 | a downgrade revokes exactly the http and message capabilities, an upgrade none |
| BrokerLaws.GateLaw | crates/capable-broker/src/lib.rs:288-320 | the gate by the engine flags: denied, asked or let through; where no flag covers the request it stops nothing, asks nothing and changes nothing |
| BrokerLaws.ExecLaw | crates/capable-broker/src/lib.rs:957-1018 | a command runs if and only if the flags, the consent, the log and an active command capability with a known directory allow it; otherwise no effect |
| BrokerLaws.FetchLaw | crates/capable-broker/src/lib.rs:807-852 | a request is sent if and only if the flags, the consent, the log, an active http capability and its allowlist allow it; otherwise no effect |
| BrokerLaws.SendLaw | crates/capable-broker/src/lib.rs:1019-1042 | data reaches a sink if and only if the log took the intent, the sink is active and the data is not Secret; otherwise no effect |
| BrokerLaws.PostLaw | crates/capable-broker/src/lib.rs:621-651 | a literal post is delivered if and only if the flags, the consent, the log, the owner rule and the facet allow it; otherwise no mailbox changes |
| BrokerLaws.PostFromLaw | crates/capable-broker/src/lib.rs:653-673 | a file is forwarded if and only if the same holds and it can be read; the message carries its text and its taint |
| BrokerLaws.DeliverLaw | crates/capable-broker/src/lib.rs:675-706 | a delivery adds one message, one delivery and one effect and ends a one-shot facet; a refused one changes nothing |
| BrokerLaws.ReadLaw | crates/capable-broker/src/lib.rs:912-936 | a read answers if and only if the directory is active and anchored, may read and the path does not climb, with Secret for a secret path and otherwise the capability's taint; it changes nothing but the trail |
| BrokerLaws.ListLaw | crates/capable-broker/src/lib.rs:938-956 | a listing answers if and only if the directory is active and anchored and may list; it changes nothing but the trail |
| BrokerLaws.MailboxLaw | crates/capable-broker/src/lib.rs:708-727 | a mailbox read answers if and only if the capability may receive, is active and the read is recorded, with the messages there in order; it changes nothing but the trail |
| Stores.StepAppends | crates/capable-broker/src/lib.rs:412-442 | every step appends to the trail, and each new event is flagged exactly as its own record went |
| Worlds.RunOk | crates/capable-broker/src/lib.rs:412-442 | in every interleaving of sessions, records and approvals: the sink is what its records made it, each session's events stand among them in order, each session and the ledger keep their invariants |
| Worlds.StoredEventsAreInLog | crates/capable-broker/src/lib.rs:412-442 | in every run of any sessions over one sink, wherever records stop, the events flagged as stored have their printed lines in the log, in order |
| Worlds.EffectsFollowTheirLines | crates/capable-broker/src/lib.rs:621-1028 | wherever an effect of any session has taken place, its intent and every earlier event of that session are lines of the log, in order, the intent last |
| Worlds.DisclosuresFollowTheirLines | crates/capable-broker/src/lib.rs:708-956 | before the answer of a read, listing or mailbox read leaves, its event and all earlier ones of the session are lines of the log, in order |
| Worlds.LogReplaysIffQuiet | crates/capable-broker/src/lib.rs:412-442 | the shared log replays to the sink's count and head if and only if no record of any session ever stopped after a byte of its line was written, or a named digest collision is exhibited; and while none did, the anchor matches too |
| Worlds.QuietEventsAreLines | crates/capable-broker/src/lib.rs:412-442 | while it does, each stored event of each session is the line of the log that its number says |
| Worlds.EffectsNeverOutnumberApprovals | crates/capable-broker/src/lib.rs:288-347 | in every run, the commands, fetches and posts the policy prompts for, per session and parameter list, never outnumber the approvals given to exactly that session and list, or two lists seen at the gates are a digest collision |
| Sessions.CleanedIsClean | crates/capable-broker/src/lib.rs:420-422 | whatever a session audits, the entry it writes keeps to its own line and columns |
| Sessions.SharedLogAgrees | crates/capable-broker/src/lib.rs:412-442 | for any interleaving of sessions over one sink and any texts, the log holds their cleaned entries in order, verifies, agrees with memory, and any shorter version fails verification |
| Sessions.Session.constructor | crates/capable-broker/src/lib.rs:233-247 | a new session is the initial state of the machine |
| Sessions.Session.AuditEvent | crates/capable-broker/src/lib.rs:412-442 | one event more in memory; the sink and its disk move exactly as far as the record got; a failed record breaks the session. Every method below also sends exactly its new events, in order, to the sink |
| Sessions.Session.CheckGate | crates/capable-broker/src/lib.rs:288-320 | the gate step with the ledger's own answer, which is asked exactly where a `prompt` flag covers the request; the ledger then changes exactly as `request_or_check` on the action's signature, and otherwise not at all |
| Sessions.Session.GrantDir | crates/capable-broker/src/lib.rs:490-512 | new state and reply are the machine's: a fresh anchored directory capability, or a refusal that changes nothing |
| Sessions.Session.GrantSink | crates/capable-broker/src/lib.rs:514-533 | new state and reply are the machine's: a fresh sink capability |
| Sessions.Session.GrantMessage | crates/capable-broker/src/lib.rs:544-565 | a new mailbox and its only owner reference; no mitigation check, as in the source |
| Sessions.Session.GrantCommand | crates/capable-broker/src/lib.rs:729-760 | the command step: only from an active directory |
| Sessions.Session.GrantHttp | crates/capable-broker/src/lib.rs:762-805 | the http step: refused and audited while reduced |
| Sessions.Session.DeriveSub | crates/capable-broker/src/lib.rs:854-883 | the sub-directory step: child below the parent, same operations and taint |
| Sessions.Session.DeriveReadonly | crates/capable-broker/src/lib.rs:885-908 | the read-only step: operations become exactly Read and List |
| Sessions.Session.DeriveMsg | crates/capable-broker/src/lib.rs:569-619 | the facet step: the parent's mailbox, the parent's prefix followed by the added one, post only, one-shot as asked |
| Sessions.Session.ReadFile | crates/capable-broker/src/lib.rs:912-936 | the read step, audited before it is answered |
| Sessions.Session.ListDir | crates/capable-broker/src/lib.rs:938-956 | the list step, audited before it is answered |
| Sessions.Session.PostBytes | crates/capable-broker/src/lib.rs:675-706 | delivery happens exactly when the specification allows it, and otherwise nothing changes |
| Sessions.Session.Post | crates/capable-broker/src/lib.rs:621-651 | the post step: gate on subject and body digest, intent, owner check, delivery, result |
| Sessions.Session.PostLiteral | crates/capable-broker/src/lib.rs:636-651 | after the gate and the intent: the owner check, then delivery of the body as an untainted literal |
| Sessions.Session.PostFrom | crates/capable-broker/src/lib.rs:653-673 | the forwarding step, with the taint of the source read |
| Sessions.Session.PostForwarded | crates/capable-broker/src/lib.rs:653-673 | after the gate and the intent: the owner check, the read, then delivery with the taint of what was read |
| Sessions.Session.MailboxRead | crates/capable-broker/src/lib.rs:708-727 | the mailbox step, audited before it is answered |
| Sessions.Session.Run | crates/capable-broker/src/lib.rs:957-1018 | the exec step: gate, intent, command, result |
| Sessions.Session.Send | crates/capable-broker/src/lib.rs:1019-1042 | the send step: intent, sink and taint checks, result |
| Sessions.Session.HttpGet | crates/capable-broker/src/lib.rs:807-852 | the http step: gate on reference and path, intent, allowlist, request, result |
| Sessions.Session.Revoke | crates/capable-broker/src/lib.rs:1044-1054 | the revocation step |
| Sessions.Session.SetMitigation | crates/capable-broker/src/lib.rs:252-268 | the flag is stored, on a downgrade exactly the unrevoked http and message capabilities are revoked, in some order, and then the change is audited |
| Sessions.Session.RevokeAll | crates/capable-broker/src/lib.rs:252-268 | the loop revokes each of the given capabilities once and audits each revocation |
| Sessions.Session.SetBootstrap | crates/capable-broker/src/lib.rs:379-384 | the bootstrap step: a Read and List root on the workspace, or none |
| Sessions.Session.TakeBootstrap | crates/capable-broker/src/lib.rs:387-391 | the root is handed out and forgotten |
| Sessions.Session.Settle | crates/capable-broker/src/lib.rs:350-363 | the ledger decides the pending request and the session audits it |
| Wire.Handle | crates/capable-rpc/src/proto.rs:107-300 | dispatch on the session object is exactly the specified step and frame, for both roles and every body; in the control role the words CONSENT_APPROVE and CONSENT_DENY with an id leave exactly that request, if pending, approved and denied; the answer is the ledger's own and the sink receives exactly the new events in order |
| WireLaws.PlannedAsPrinted | crates/capable-rpc/src/proto.rs:107-300 | every request printed by a client is planned as exactly that request, field for field: GRANT, DERIVE, INVOKE, REVOKE and BOOTSTRAP; a guest's GRANT is refused |
| WireLaws.WireDenialIsFinal | crates/capable-rpc/src/proto.rs:235-248 | in every run over any sessions, after the words CONSENT_DENY for a pending request no later request of its key and session passes or has an effect |
| WireLaws.WireApprovalPassesOnce | crates/capable-rpc/src/proto.rs:235-248 | in every run over any sessions, after the words CONSENT_APPROVE the next request of that key and session is granted, and with that the approval is gone |
| Guests.SensitiveRefused | crates/capable-broker/src/lib.rs:569-1042 | in a confined session exec, send, http, mailbox and facet requests are refused or left waiting, and change no capability, mailbox or effect |
| Guests.GuestConfinement | crates/capable-rpc/src/proto.rs:107-300 | in every state of every guest run each capability descends from the bootstrap root, is a directory with exactly Read and List, and lies lexically at or below the workspace; no effect ever happened |
| Guests.ForbiddenNeverAnswered | crates/capable-rpc/src/proto.rs:107-300 | grant, consent, exec, send, http, mailbox and facet requests never get a guest OK or CAP |
| Guests.BootstrapOnce | crates/capable-broker/src/lib.rs:379-391 | `BOOTSTRAP` gives the root if and only if the workspace opened and nothing asked before; otherwise an error |
| Guests.GuestReadsBelowWorkspace | crates/capable-rpc/src/proto.rs:175-185 | every OK to a guest's INVOKE went through an active capability to a path at or below the workspace |
| Guests.GuestStatesAreSound | crates/capable-rpc/src/proto.rs:107-300 | guest runs are broker runs: the session invariant holds in each of their states |
| HandleTable.InstallIsInsert | crates/capable-broker/src/capvm.rs:41-49 | installing binds the least free number, adds one live handle, and lengthens the table only when every slot is live |
| HandleTable.CloseIsRemove | crates/capable-broker/src/capvm.rs:57-65 | closing removes exactly that handle and never shortens the table |
| HandleTable.LiveIsSize | crates/capable-broker/src/capvm.rs:66-68 | the live count is the size of the map the slots stand for |
| HandleTable.CList.Install | crates/capable-broker/src/capvm.rs:41-49 | the search loop implements the insertion of the least free number |
| HandleTable.CList.Resolve | crates/capable-broker/src/capvm.rs:51-56 | a handle names something exactly when it is in the map |
| HandleTable.CList.Close | crates/capable-broker/src/capvm.rs:57-65 | succeeds exactly on live handles and removes just that one |
| HandleTable.CList.CountLive | crates/capable-broker/src/capvm.rs:66-68 | counts the map |
| HandleTable.GuestProcess.Read | crates/capable-broker/src/capvm.rs:121-124 | the system call is the specified act on table and session |
| HandleTable.GuestProcess.List | crates/capable-broker/src/capvm.rs:125-128 | the system call is the specified act on table and session |
| HandleTable.GuestProcess.Run | crates/capable-broker/src/capvm.rs:129-132 | the system call is the specified act on table and session; the answer is the ledger's own for this session and capability, and a dead handle asks nothing |
| HandleTable.GuestProcess.DeriveSub | crates/capable-broker/src/capvm.rs:133-137 | the child gets a handle of its own, the parent's is untouched |
| HandleTable.GuestProcess.Close | crates/capable-broker/src/capvm.rs:138-140 | the handle goes, the capability stays |
| HandleTable.GuestHandleClosure | crates/capable-broker/src/capvm.rs:120-141 | at every step of every run each live handle holds a reference the host installed or a descendant of one, and a system call that changed anything or was not refused went through such a handle |
| HandleTable.TableLengthIsPeak | crates/capable-broker/src/capvm.rs:36-69 | the table's length always equals the largest number of handles live at once so far |
| Lexer.LexerState.SkipBlanks | capsh/src/lexer.ml:22-29 | the position moves past blanks and comments exactly as specified |
| Lexer.LexerState.ReadString | capsh/src/lexer.ml:31-48 | reads the escaped string, or fails exactly when it is not closed |
| Lexer.LexerState.ReadQuasi | capsh/src/lexer.ml:51-75 | reads the template's segments, or fails on an open template or a bad interpolation |
| Lexer.LexerState.ReadIdentifier | capsh/src/lexer.ml:82-92 | the longest name, or a template when a tag is directly followed by a backtick |
| Lexer.LexerState.NextToken | capsh/src/lexer.ml:94-109 | the next token and the position after it |
| Lexer.TokenizeText | capsh/src/lexer.ml:112-119 | terminates on every text with the tokens of the specification, or a lexical error |
| LexerLaws.LayoutBack | capsh/src/lexer.ml:22-119 | any layout of well-formed tokens, with any blanks and comments between them, reads back as those tokens |
| LexerLaws.TokenizeSound | capsh/src/lexer.ml:31-119 | whatever the text, the tokens end in one end marker and are well formed: legal names, nonempty separate literals that open nothing |
| Parser.ParserState.ParseExpr | capsh/src/parser.ml:42-58 | the postfix loop; like every parsing method it terminates and never moves past the end marker |
| Parser.ParserState.ParseArgs | capsh/src/parser.ml:60-70 | terminates within the token array with the argument list the round trip is about, or the same error |
| Parser.ParserState.ParsePrimary | capsh/src/parser.ml:72-84 | string, template, parenthesis, grant, call or variable, decided as in the grammar the round trip inverts; any other token is an error and nothing is read past it |
| Parser.ParserState.ParseGrant | capsh/src/parser.ml:86-107 | the three grant forms, a command with or without fields, and an error for anything else |
| Parser.ParserState.ParseFields | capsh/src/parser.ml:109-121 | named fields up to and with the closing brace; an empty pair of braces is the empty list |
| Parser.ParserState.ParseOpSet | capsh/src/parser.ml:123-132 | names separated by commas, the closing brace left unread |
| Parser.ParserState.ParseBody | capsh/src/parser.ml:134-140 | statements up to and with the closing brace; the end marker inside a block is an error, not a crash |
| Parser.ParserState.ParseScope | capsh/src/parser.ml:142-148 | label, `with`, fields and block, each missing piece an error |
| Parser.ParserState.ParseStmt | capsh/src/parser.ml:150-159 | let, confine, spawn or expression by the first token |
| Parser.ParseText | capsh/src/parser.ml:161-167 | lexer and parser together terminate on every text with the specified program or an error |
| ParserLaws.ExprBack | capsh/src/parser.ml:42-107 | parsing the rendering of any well-formed expression gives it back, with the calls that follow still to be read |
| ParserLaws.ParseRoundTrip | capsh/src/parser.ml:42-167 | every layout of the canonical tokens of a well-formed program parses back to that program |
| ParserLaws.ParsedIsWellFormed | capsh/src/parser.ml:42-167 | every program the parser returns is well formed |
| ParserLaws.WellFormedIffParsed | capsh/src/parser.ml:42-167 | the trees a source text can denote are exactly the well-formed ones |
| Grammar.ParsedIsSaid | capsh/src/parser.ml:42-167 | whatever the parser accepts is said by exactly the tokens of the text, by a grammar written apart from it |
| Template.EvalQuasi | capsh/src/eval.ml:19-40 | the template filled in, or an error exactly when a name is not bound to data or, in a path, is not one safe component |
| Template.ArgvOfSh | capsh/src/eval.ml:43-60 | the arguments are the template's own words filled in; the words do not depend on the environment |
| Template.WordsAtBlank | capsh/src/eval.ml:43-60 | a literal blank separates: what stands on either side is cut on its own |
| Template.WordsConserve | capsh/src/eval.ml:43-60 | the words hold every non-blank character and every interpolation once, in order; no word is empty |
| Template.ArgvNonInterference | capsh/src/eval.ml:43-60 | under any two environments the argument lists have equal length and differ only by substitution, argument by argument |
| Template.PathTemplateKeepsShape | capsh/src/eval.ml:19-40 | a path template keeps its literal slashes and no others; a component with an interpolation is never empty, `.` or `..` |
| Evaluator.ExecStmt | capsh/src/eval.ml:118-138 | the table of the current scope changes as specified, in place; a nested scope works on a table of its own; what the specification means is told by the `EvalLaws` rows |
| Evaluator.FillScope | capsh/src/eval.ml:133-134 | the new table holds the listed values, a later one replacing an earlier one of the same name |
| Evaluator.EvalTame | capsh/src/eval.ml:62-116 | an expression calls the backend only on capabilities in scope or handed out on the way, and returns no other |
| Evaluator.ProgramsForgeNothing | capsh/src/eval.ml:140-142 | in every run of every program each capability used was handed out earlier in that run |
| Evaluator.ScopeReachesOnlyItsList | capsh/src/eval.ml:121-138 | whatever surrounds it, a scope's body touches only what was listed for it and what comes of that, leaves the surrounding table unchanged, and a confined one that ran was not given both a secret and a sink |
| Evaluator.GrantFreeScopeOnlyAttenuates | capsh/src/eval.ml:121-138 | a scope whose body grants nothing makes every call on a listed capability or on one attenuated from it step by step |
| EvalLaws.CallAsksBackend | capsh/src/eval.ml:92-103 | a method call that a capability can answer is exactly one step of the backend after receiver and arguments: the call of that name on the receiver's own capability with the first argument, its answer being the value, unit for send; any other is an error and asks nothing |
| EvalLaws.CallSucceedsThroughBackend | capsh/src/eval.ml:92-103 | every method call that gives a value got it from the backend's answer to that very call, asked last |
| EvalLaws.RunAsksBackend | capsh/src/eval.ml:104-116 | `run` is one call on the capability given, and its answer is the value |
| EvalLaws.PrintAsksBackend | capsh/src/eval.ml:104-116 | `print` asks the backend about a capability and about nothing else, and gives unit |
| EvalLaws.GrantAsksBackend | capsh/src/eval.ml:62-91 | a grant is one call with the path as written, writable if listed so, secret if listed so or named so |
| EvalLaws.CommandAsksBackend | capsh/src/eval.ml:62-91 | a command grant is one call on the directory of its `cwd` field, one argument for each word of its template |
| EvalLaws.ProgramsCompose | capsh/src/eval.ml:140-142 | a program in two parts runs as one: the second in the table and the trace the first leaves, to the first error |
| EvalLaws.ScopeMeansItsList | capsh/src/eval.ml:133-134 | in a scope a name means the last value listed under it; a name not listed means nothing |
| EvalLaws.ListedAsWritten | capsh/src/eval.ml:121-132 | each listed name stands with the value of the expression written for it |
| EvalLaws.ReadonlyScopeStartsReadonly | capsh/src/eval.ml:92-138 | a scope given only `e.readonly()` starts with nothing but the backend's answers to `readonly` calls made for its list |
| Base64.EncodeChunks | crates/capable-rpc/src/proto.rs:55-70 | the broker's encoder computes the encoding |
| Base64.EncodeIndexed | capsh/src/rpc_client.ml:70-84 | the shell's encoder computes the same encoding |
| Base64.DecodeChunks | crates/capable-rpc/src/proto.rs:72-101 | the broker's chunk loop gives, on every string, the bytes the agreement and round-trip theorems speak of |
| Base64.DecodeStream | capsh/src/rpc_client.ml:51-68 | the shell's streaming loop gives, on every string, the bytes the agreement and round-trip theorems speak of |
| Base64.DecodersAgree | capsh/src/rpc_client.ml:51-68 | the two decoders agree on every string over the alphabet plus `=` |
| Base64.RoundTrip | crates/capable-rpc/src/proto.rs:55-101 | both decoders invert the encoding for all byte strings |
| Strays.ShellSkipsStrays | capsh/src/rpc_client.ml:51-68 | on every string the shell decodes the symbols and nothing else |
| Strays.StraysAgreeIffAligned | crates/capable-rpc/src/proto.rs:72-101 | with characters off the alphabet: a placement of strays leaves the two decoders in agreement for every choice of symbols if and only if each four-character chunk, pads removed, before the last one with a symbol holds none or four |
| Frames.LengthOfHeader | capsh/src/rpc_client.ml:27-45 | the four header bytes of every 32-bit length read back as that length |
| Frames.Source.ReadFrame | crates/capable-rpc/src/proto.rs:21-51 | whatever the chunking and interruptions, one call reads what stands at the head of the stream |
| Frames.FramesReadBack | crates/capable-rpc/src/proto.rs:14-51 | any list of bodies within the limit reads back in order, and the end is clean |
| Frames.CutIsAnError | crates/capable-rpc/src/proto.rs:21-51 | a stream cut inside a header or a body gives the frames before it and then an error |
| Seccomp.FilterCorrect | crates/capable-broker/src/os.rs:186-220 | for every deny list the generated jump program kills a foreign architecture, returns the errno exactly for listed numbers and allows the rest |
| Seccomp.ShippedCorrect | crates/capable-broker/src/os.rs:190-220 | the shipped 47 instructions are the instance for the 21 listed numbers, so they do the same |

## Left out

- Reading.ReadIndependentOfCut: segments are nonempty, as `derive_sub` on an empty segment only repeats its parent; the bytes of a file are a parameter, so that both paths open the same file is not proved.
- Effects.EffectsAreAuthorised: a send is bounded by the taint its request declares; the data of a send is not modelled, and the source ignores it too.
- AuditSinks.LifetimeAgrees: the number of records stays below 2^64, where the source's counter would overflow; session keys are clean fields (the source makes them from hex digits).
- WireLaws.PlannedAsPrinted: the requests that have a wire form: texts without a tab, nonempty list items without their separator, methods in upper case, a derived facet either a prefix or one-shot; replies are not read back.
- Grammar.ParsedIsSaid: one direction; that well-formed trees are accepted in every layout is ParserLaws.ParseRoundTrip, for the printer's parentheses.
- Worlds.LogReplaysIffQuiet: the same bound, and texts are UTF-8, as Rust strings are; crashes between records are in AuditSinks.LifetimeAgrees only.
- SHA-256 itself: an arbitrary digest function stands for it.
- The in-memory hash chain of a session and `verify_audit`: the trail keeps events before their texts are cleaned; only the durable log is chained.
- Texts of audit details and of the reasons in refusals (an event says allow or deny), error messages, hints and consent summaries: an event names the reference it is about; display helpers (`short`, `safe_display`, `canon_list`, `describe`) are not modelled.
- Base64 of payloads inside wire frames is shown before encoding, and lossy conversion of posted bodies to text is the identity; upper-casing of http methods is for ASCII letters.
- Setters of the policy engine, the ledger, the sink and the sandbox: a session has them from the start.
- Capability names, environment variables and byte limits of http capabilities: no property depends on them.
- Opening directories, reading files, running commands, DNS and TCP: any answer is possible.
- `valid_host`, `is_blocked_ip`, HTTP response parsing: case lists and I/O around library parsers.
- Read errors other than an interruption in the framing loop: they end the call in the source.
- Landlock, resource limits, uid changes, fork and exec, `getdents_names`: kernel behaviour.
- Taint labels and provenance of shell values, the printed output, and the two concrete backends; arguments are evaluated before the receiver, an order OCaml leaves open.
- The server loop, `path_within`, `resolve_contained` and the unused grant gate of the policy object.
