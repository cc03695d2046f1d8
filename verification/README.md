# Verified model of the gobl.lookup registry

gobl.lookup registers GOBL Net parties. It takes a signed party envelope, decides who (if anybody) has
verified the party, countersigns the envelope as an authority, stores one record per address behind a
revision check, and delivers the endorsed envelope back. Any number of registrations, verifications and
background deliveries may work on the same record at once. This project models that core in Dafny and
proves what a stored record may be relied on for.

| file | what it models |
|---|---|
| `Gobl.dfy` | addresses, signatures, envelopes, keys; the library operations that stay oracles |
| `Derivation.dfy` | deriving a verifier from the countersignatures on an envelope |
| `Endorsement.dfy` | countersigning, the discovery link, checking the registry's own signatures |
| `EndorsementLaws.dfy` | the laws of those three operations, together and over many rounds |
| `Keys.dfy` | the JWK Set and its order |
| `Records.dfy` | the registration record and the changes made to one |
| `Store.dfy` | the revision-checked store and the history of committed versions |
| `Protocol.dfy` | operations in flight as a transition system, one store or network call a step |
| `Invariant.dfy` | its inductive invariant |
| `Guarantees.dfy` | what every reachable state satisfies |
| `History.dfy` | the verifier as a function of the committed versions; when a renewal keeps it; the verification timestamp |
| `Serial.dfy` | serial runs: the history specification holds, endorsements never get shorter |
| `Liveness.dfy` | no registration is left stranded, and operations always finish |
| `Service.dfy` | `Register`, `Verify`, delivery and `Find` as they run alone over the in-memory store |
| `SoloRuns.dfy` | those operations as runs of protocol steps |
| `Discovery.dfy` | what discovery links resolve to |
| `Counterexamples.dfy` | three promises that fail, for every configuration in which they can |
| `Example.dfy` | a small registry and documents on which they do |

Assumptions are few and explicit. `Gobl.WellFormed` lists what configuration and parsing provide (parsing
is canonical and never yields the empty address, the active key is published, printed UUIDs parse back).
`Gobl.HonestSigner` says that a successful signing signs the claims it was given, under the active key.
That key ids are unique (`Gobl.UniqueKids`) is assumed only by the theorem on the published key order;
the loader at internal/domain/repos/identity.go:172-179 takes any files and does not check it. Signature
checks depend on the UUID and digest of a header, never on its links. What the network answers, what the
clock shows and which steps fail is arbitrary. New revisions are assumed fresh where a theorem depends on
it, and a failed delivery is assumed to have an error text.

A version of a record is annotated (`Store.Note`) with who wrote it, the verifier its writer derived, and,
for a registration, how many versions of the record its first read found. From notes and documents
`History.Origin` computes, for every interleaving, the derivation that each version's verifier comes from.
Where registrations replaced the very version they had first read, this simplifies to "the last derivation
decides, as long as the document is carried on" (`History.Decides`); serial runs over a store that answers
are shown to be a case of it.

Three promises turn out to be conditional:

- README.md:55-59 of the repository promises that a renewal keeps the verifier. The verifier comes from
  the first of two reads, and the revision check covers only the second, so a verification committed in
  between is dropped: `Counterexamples.VerificationLost` for every provider that is reachable at one
  moment only, `Example.VerificationLostForAlice` for one. A first read that fails counts as "not a renewal"
  and drops the verifier too: `Counterexamples.VerificationForgotten`. `History.RenewalKeepsVerifierIff` gives the exact
  condition under every interleaving, a failed or empty first read included;
  `History.RenewalKeptUnlessOvertaken` says it as "nothing committed since the first read decided
  otherwise"; and by `History.RenewalKeptAcrossDeliveries` it is enough that the first read succeeds and the
  address is not registered or verified in the meantime.
- The comment at internal/domain/registrations.go:409-410 and README.md:309-315 say that changed party
  data drops the verifier and clears the verification timestamp. `upsert` never reads its `renewal`
  argument: the timestamp follows the verifier. `Counterexamples.ChangedDataKeepsTimestamp` is the failure for all documents
  that one provider verifies one after the other, `Counterexamples.OvertakenKeepsTimestamp` for a renewal
  that derives nobody and writes an earlier document back; `Example` has a run of each.
  `History.RegistrationTimestamp` gives the exact condition under every interleaving: an older timestamp is
  kept exactly when the registration names the stored verifier again, by deriving it or by having found, at
  its first read, its own document resting on a derivation of it. `History.ChangedDataTimestamp` is what
  remains of that for changed data and undisturbed reads: the old timestamp is kept exactly when the new
  envelope derives the verifier already on the record.
- README.md:318 says that delivery failures land on the record. An attempt and the write of its outcome
  share one 30-second deadline (internal/domain/registrations.go:459-481), so with a store that honours it,
  as CouchDB does, an attempt that uses it up leaves no trace: `Counterexamples.FailureUnrecorded`.
  `Liveness.EverythingSettles` gives the exact condition: once nothing can go on, a record is still
  countersigned exactly when its delivery was given up by a crash, a store failure or such an attempt, and
  is delivered or failed otherwise. The in-memory store ignores the deadline, and there `ExpireStep`
  does not occur.

`dafny verify dfyconfig.toml` checks the whole project.

## Model

| member | source | states |
|---|---|---|
| Derivation.AcceptedVerifier | internal/domain/registrations.go:270-308 | the single pass gives the answer of the derivation that fetches all keys, and that answer is what the rules say: it names the issuer of a signature that decodes, is from an accepted address, is not expired, has a non-negative issue time and verifies under the issuer's key, with none such newer and none before it as new; nobody exactly when there is none such; "unavailable" exactly when there is none such and the key of some unexpired accepted candidate is out of reach |
| Derivation.DeriveMeaning | internal/domain/registrations.go:261-269 | the verifier is the issuer of the earliest among the latest qualifying signatures; it is empty exactly when none qualifies, and the answer is "unavailable" exactly when none qualifies and some candidate's key could not be reached |
| Derivation.LoneSignature | internal/domain/registrations.go:276-303 | the conditions one by one, for an envelope with one signature: it names its issuer exactly under them, and the answer is "unavailable" exactly when all hold but the key is out of reach |
| Derivation.OrderIrrelevant | internal/domain/registrations.go:276-307 | if the latest qualifying signatures share an issuer, reordering the signatures changes neither verifier nor availability |
| Derivation.OrderMatters | internal/domain/registrations.go:276-307 | otherwise some reordering names somebody else, so the condition is exact |
| Endorsement.CounterSign | internal/domain/identity.go:104-131 | in place: strips the signatures claiming the registry, signs subject, verifier and a 90-day expiry, appends the result; a failed signing leaves what the library leaves, and the header is untouched |
| Endorsement.StampDiscoveryLink | internal/domain/registrations.go:339-355 | in place: every lookup link is replaced by one fresh link at the end, all other links stay in order |
| Endorsement.FindKey | internal/domain/models/identity.go:43-50 | the first published key with the id, none exactly when no key has it |
| Endorsement.VerifyOwnSignatures | internal/domain/registrations.go:314-333 | accepts exactly the envelopes whose every signature with the registry as issuer verifies under the first published key with its id; so each verifies under a published key, and a forged one or one with an unknown key is refused |
| EndorsementLaws.CounterSignEndorses | internal/domain/identity.go:104-131 | after success exactly one signature claims the registry, it asserts subject, verifier and expiry, others are kept in order, the header is untouched, and the envelope would be accepted back |
| EndorsementLaws.ThirdPartyPicks | internal/domain/identity.go:108-121 | stripping keeps, in order, exactly the positions whose signature does not decode or whose issuer does not parse to the registry |
| EndorsementLaws.RoundsSupersede | internal/domain/identity.go:108-121 | after any number of rounds with arrivals in between: everybody else's signatures in arrival order plus the last round's signature alone |
| EndorsementLaws.CounterSignTwice | internal/domain/identity.go:100-131 | countersigning twice equals countersigning once with the later options and time; UUID and digest are unchanged |
| EndorsementLaws.ReturnedEnvelopeAccepted | internal/domain/registrations.go:96-103 | an endorsed envelope with foreign signatures added and the list permuted passes the own-signature check |
| EndorsementLaws.ChangedEnvelopeRefused | internal/domain/registrations.go:96-103 | an endorsed envelope is refused if it comes back under a header for which the endorsement does not verify, whatever was added or moved |
| EndorsementLaws.DerivationStable | internal/domain/registrations.go:213-230 | a registry not on its own list derives the same from an envelope and from its endorsed form |
| EndorsementLaws.SelfListedDerivation | internal/domain/registrations.go:198-199 | a registry on its own list counts its fresh signature as one more vote, and names itself unless a provider's vote is at least as recent |
| EndorsementLaws.StampHeals | internal/domain/registrations.go:326-355 | exactly one lookup link remains whatever was there, other links (nil ones too) keep their order, signed content is untouched, a second stamp is a no-op |
| EndorsementLaws.StampPicks | internal/domain/registrations.go:339-355 | stamping keeps, in order, exactly the links that are nil or not the "verification" link "lookup", and appends one whose URL is the base URL, "/parties/" and the UUID |
| EndorsementLaws.OneLinkMeansOne | internal/domain/registrations.go:326-355 | in a stored envelope no other link has that category and key |
| EndorsementLaws.StampKeepsKeysDistinct | internal/domain/registrations.go:326-329 | link keys are distinct after stamping exactly when those of the other links were |
| EndorsementLaws.EndorsedShape | internal/domain/registrations.go:148-161 | a stamped and countersigned envelope has the seal and third-party signatures of the original, one lookup link, one signature claiming the registry with the right claims, and would be accepted back |
| Keys.NewerIsStrictWeakOrder | internal/domain/models/identity.go:62-75 | the comparator is a strict weak order; only keys with equal date and id are unordered |
| Keys.SortedPermutation | internal/domain/models/identity.go:52-55 | the published order is a permutation of the keys, newest first, undated keys last |
| Keys.PublishedNewestFirst | internal/domain/models/identity.go:62-75 | in the published order dates never rise, undated keys come last, and among keys of the same date, or of none, ids never rise character by character |
| Keys.PublishedOrderCanonical | internal/domain/models/identity.go:60-75 | with unique ids the order is the same for every load order and every sorting algorithm |
| Keys.JWKS | internal/domain/models/identity.go:56-84 | copies and sorts the copy, marshals every key with the latest date first, undated keys last and greater ids first, fails exactly when some key cannot be marshalled, leaves the published keys alone |
| Records.Validate | internal/domain/models/registration.go:75-92 | accepts exactly non-nil records with an address, the matching document id and a status |
| Store.MemoryRegistrations.Put | internal/domain/repos/registrations_memory.go:30-49 | writes exactly when the record is valid and its revision current; then the caller's copy learns the new revision; a failed write changes neither store nor copy |
| Store.MemoryRegistrations.GetByUUID | internal/domain/repos/registrations_memory.go:65-76 | some record whose UUID prints the same, none exactly when there is none |
| Store.AnyWritesKeepHistory | internal/domain/repos/registrations_memory.go:30-49 | under any sequence of writes from any copies, every history stays one chain of versions each written over its predecessor, only grows at the end, and no record vanishes |
| Store.CopyAcceptedIffUntouched | internal/domain/repos/registrations_memory.go:36-43 | a copy taken before any number of attempted writes can be written back exactly when none of them touched the record: no lost update, no ABA |
| Store.CreatedOnce | internal/domain/repos/registrations_memory.go:41-43 | of any sequence of attempted writes that had read no record, exactly one is accepted for an id that comes into being, and none for one that exists |
| Invariant.StepKeepsInv | internal/domain/registrations.go:71-488 | every step of every operation keeps the invariant |
| Guarantees.VerifierProvenance | internal/domain/registrations.go:138-168 | under every interleaving, a stored verifier was derived earlier, for that very address, from an envelope with the stored digest, where an accepted provider's unexpired signature verified |
| Guarantees.DeliveredIsTruthful | internal/domain/registrations.go:464-480 | a record marked delivered holds exactly an envelope that was sent successfully to its address; one marked failed holds the error of a failed attempt; both hold the time of that attempt |
| Guarantees.LateOutcomeNeverLands | internal/domain/repos/registrations_memory.go:36-40 | a write lands exactly when the store does not fail and the version it was made from is still stored, so the outcome of a superseded delivery never reaches the record |
| Guarantees.RecordAndEnvelopeAgree | internal/domain/registrations.go:148-168 | the stored envelope's only signature claiming the registry was made by it 90 days before expiry for the record's address and verifier; UUID and the single discovery link match |
| Guarantees.SoleMeansOne | internal/domain/identity.go:104-121 | in such an envelope a signature claims the registry exactly at the last position |
| Guarantees.BookkeepingExact | internal/domain/registrations.go:231-249 | stored attempts equal the commits since the last registration; each has a send of its own, made to the record's address for the version it replaced and with the envelope and outcome it stored; status, error and timestamps agree; "received" is never stored |
| Guarantees.TimesAreReal | internal/domain/registrations.go:217-238 | in every reachable state a version written by a verification carries the time at which its envelope was signed, 90 days before that signature expires; one written by a delivery carries the time of the send it accounts for and keeps the verification's time |
| Guarantees.TimestampFollowsVerifier | internal/domain/registrations.go:439-448 | across consecutive versions a verification timestamp changes only through a verification or with the verifier; deliveries touch neither |
| History.VerifierTracesBack | internal/domain/registrations.go:131-168 | under every interleaving, each version names exactly what the derivation it rests on gave, through renewals that found its document and through deliveries, and still has that derivation's document; it names nobody exactly when it rests on none. That derivation was made for this address, from the header and third-party signatures of the version that committed it |
| History.VerifierRefinesHistory | internal/domain/registrations.go:131-146 | with undisturbed registrations, the verifier is V exactly when the last derivation gave V and every later registration carried the same document, and empty exactly when no derivation decides |
| History.RenewalKeepsVerifierIff | internal/domain/registrations.go:388-394 | under every interleaving, a committed renewal keeps the verifier of the version it replaced exactly when the version its first read found and the version it replaced rest on derivations of the same verifier, or neither on any; a failed read, none or another document count as resting on none |
| History.RenewalKeptUnlessOvertaken | internal/domain/registrations.go:388-394 | if the registrations committed between were undisturbed: exactly when the version found has been carried since or a later one decided the same verifier; having found none, exactly when no later version decided one |
| History.RenewalKeptAcrossDeliveries | internal/domain/registrations.go:131-146 | a renewal keeps the verifier if only deliveries were committed since its first read |
| History.RegistrationTimestamp | internal/domain/registrations.go:430-448 | under every interleaving and for any data, a registration drops the verifier and clears the timestamp exactly when it names nobody (it derived nothing and its first read found no verified version of its document), keeps an older one exactly when it names the stored verifier again, and sets its own time otherwise |
| History.ChangedDataTimestamp | internal/domain/registrations.go:430-448 | the case of changed data and undisturbed reads: the older timestamp is kept exactly when the registration derives the verifier already on the record, and cleared exactly when it derives nobody |
| Serial.SerialRunRefinesHistory | internal/domain/registrations.go:131-146 | the last-derivation specification holds after every serial run of registrations, verifications and deliveries over a store that answers |
| Serial.SerialRunNeverShortens | internal/domain/identity.go:122-131 | in a serial run whose signing clock never goes back, the registry's signature on a later version expires no earlier than on an earlier one |
| Liveness.NoStrandedRegistration | internal/domain/registrations.go:166-185 | a countersigned record is owed a delivery by an operation holding exactly its revision, unless a crash or store failure lost it |
| Liveness.QuietMeansSettled | internal/domain/registrations.go:455-488 | once all operations have finished, a record is still countersigned exactly when the delivery of that very version was given up, and delivered or failed otherwise |
| Liveness.LostExactlyIfGivenUp | internal/domain/registrations.go:458-488 | over every run, a delivery is lost exactly by a crash, a store failure or an attempt that uses up the deadline, in an operation that owed it |
| Liveness.RunsEnd | internal/domain/registrations.go:71-488 | runs that start nothing new are bounded by the work at hand |
| Liveness.EverythingSettles | internal/domain/registrations.go:180-188 | however operations start, interleave, fail or crash and whatever the network answers: when none can go on, nothing is in flight, and a record is still countersigned exactly when its delivery had been given up or was given up on the way, and delivered or failed otherwise |
| Liveness.SmoothRunsGiveNothingUp | internal/domain/registrations.go:458-488 | without crashes, store failures and expired attempts no delivery is given up |
| Liveness.OperationsCanFinish | internal/domain/registrations.go:71-488 | from every reachable state the operations in flight can finish, without faults or expired attempts |
| Service.Registrations.RenewalVerifier | internal/domain/registrations.go:388-394 | a renewal exactly when the stored envelope and the incoming one both have a digest and it is the same; then the stored verifier, otherwise none |
| Service.Registrations.Upsert | internal/domain/registrations.go:411-453 | writes the registration over what is stored, or as a first record, field by field, or changes nothing |
| Service.Registrations.Register | internal/domain/registrations.go:71-188 | nothing is stored or endorsed unless the envelope is valid, its subject established and identity resolved, and every signature issued by the registry verifies under a published key; each error is reported exactly for its cause, the first failing check deciding; otherwise the envelope is endorsed in place and the record written with derived or renewed verifier, and delivery gets a copy of its own |
| Service.Registrations.DeliverAsync | internal/domain/registrations.go:458-488 | one attempt is sent, and the record is stored with one more attempt, its time and its outcome and nothing else changed, unless it has moved on |
| Service.Registrations.Verify | internal/domain/registrations.go:200-259 | re-derives, re-endorses, sends and stores: the stored record has the verification's time, the derived verifier, one more attempt and the outcome, and unchanged UUID, address and time of receipt; each failure is reported exactly for its cause |
| Service.Registrations.Find | internal/domain/registrations.go:361-370 | looks a key up as UUID if it parses as one, else as address |
| SoloRuns.RegisterRunsAlone | internal/domain/registrations.go:138-188 | the protocol steps of an undisturbed registration have the effect of the service's operation: nothing is written if signing fails; otherwise the write lands and the delivery of the endorsed envelope is in flight with a copy of the stored record |
| SoloRuns.AdmittedBegins | internal/domain/registrations.go:71-129 | a registration can begin in the protocol exactly when the service admits it |
| SoloRuns.DeliverRunsAlone | internal/domain/registrations.go:458-488 | the same for a delivery: one send and the outcome stored, unless the record has moved on |
| SoloRuns.VerifyRunsAlone | internal/domain/registrations.go:200-259 | the same for a verification, those that stop before sending included |
| Discovery.DiscoveryLinksResolve | internal/domain/registrations.go:339-370 | following a stored discovery link finds a record with that envelope UUID, and the very record when UUIDs are distinct |
| Counterexamples.VerificationLost | internal/domain/registrations.go:138-168 | whenever a provider is reachable at one moment and not at others, a verification committed between the two reads of a renewal can be dropped |
| Counterexamples.VerificationForgotten | internal/domain/registrations.go:388-394 | a renewal whose first read fails while the provider is unreachable drops a stored verifier, with nothing else touching the record |
| Example.VerificationLostForAlice | internal/domain/registrations.go:77-168 | a run that does so with a document its subject has signed |
| Counterexamples.ChangedDataKeepsTimestamp | internal/domain/registrations.go:430-448 | whenever two documents with different digests derive one verifier at their times, registering one after the other keeps the verification timestamp of the old data |
| Counterexamples.OvertakenKeepsTimestamp | internal/domain/registrations.go:131-168 | whenever a provider has verified two documents and is then unreachable, a renewal of the first that the second overtakes can write the first back, deriving nobody, with verifier and timestamp kept |
| Counterexamples.FailureUnrecorded | internal/domain/registrations.go:458-488 | for every admissible document a failed attempt that uses up the deadline leaves the record countersigned, without attempt or error, and nothing in flight |
| Example.ChangedDataKeepsOldTimestamp | internal/domain/registrations.go:430-448 | such a run, where each document is signed by its subject and countersigned anew |
| Example.OvertakenKeepsOldTimestamp | internal/domain/registrations.go:131-168 | a run in which an overtaken renewal does so |
| Example.OneSealPerSignature | internal/domain/registrations.go:299 | in these runs a signature counts for one UUID and digest only |

## Left out

- Shared envelopes: stored envelopes are values here, as with the CouchDB store, which decodes a fresh copy on every read. The in-memory store's clones share the envelope pointer, so `Verify` changes the stored envelope before its `Put`; record and envelope then disagree until the `Put`, and stay so if it conflicts.
- `created_at` and `updated_at`, which the couch library maintains on every write.
- Freshness of random revisions is assumed by the theorems that need it; collisions of random revisions are not modelled.
- A key endpoint is taken to answer the same question the same way within one derivation; between derivations its answers are arbitrary.
- A store write that fails is taken not to have happened; a CouchDB write whose reply is lost is not modelled.
- A verification's own write does not share the deadline of its attempt (internal/domain/registrations.go:237-247); the caller cancelling it counts as a store failure.
- Several clock readings within one step of an operation are one reading; times are whole seconds.
- `sort.SliceStable` belongs to Go's library; an insertion sort in place stands for it, and `Keys.PublishedOrderCanonical` shows that any other sort gives the same order when key ids are unique.
- Canonicalising the configured list of accepted providers (internal/domain/registrations.go:46-62): the model starts from the canonical set.
- Envelope validation, establishing the subject, resolving its public identity, signature checks and JSON: oracles whose outcomes steer `Register`.
- The wire format of the JWK Set document around its entries.
- HTTP handlers, request authentication, outbound transport, CLI, configuration, identity files on disk, logging and error texts.
- The verification web flow described at README.md:151-167, for which there is no code.
