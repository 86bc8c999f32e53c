# synctang, verified

synctang unlocks a LUKS2 volume with the help of a phone or another key holder.
The machine blinds a challenge, the key holder multiplies it by its long-term
scalar, and the machine recovers the volume secret from the answer (MR-1). This
project models that system in Dafny and proves what it is meant to guarantee:

- `group.dfy`, `residues.dfy`, `mr1.dfy`: the prime-order group, an instance of it
  (the integers modulo an arbitrary odd prime below 256^32, x(P) = min(P, n - P))
  for which every law is proved, and recovery with a full point or only an
  x-coordinate. SHA-256, HKDF, AES-GCM and HMAC are symbolic: equal only when made
  from equal inputs, and a box opens only under the key and nonce that sealed it.
- `scalar.dfy`: the branch-free range check of private scalars.
- `luks.dfy`, `luksdump.dfy`, `header_dump.dfy`, `token.dfy`: the LUKS2 header, the
  cryptsetup commands that change it, reading a dump of it, and the token with its
  unknown fields.
- `enrol.dfy`, `enrol_safety.dfy`, `rotation.dfy`, `revocation.dfy`, `stale.dfy`,
  `header_runs.dfy`: enrolling, revoking and rotating as runs of cryptsetup commands
  that may be cut off after any of them, any sequence of such operations, and what
  becomes of an entry whose keyslot was handed out again.
- `exchange.dfy`, `session.dfy`: both ends of a recovery exchange over a connection
  that may die at any message.
- `pairproof.dfy`, `pairing.dfy`, `paired_holder.dfy`: the proof of the code on the
  machine's screen, the one pairing attempt it authorises, and that whoever was paired
  can unlock.
- `race.dfy`, `race_outcomes.dfy`, `relay_race.dfy`: racing transports and relay
  addresses, over all interleavings.
- `announce.dfy`, `dial_retry.dfy`, `relay_loss.dfy`, `relay_order.dfy`: the loops
  that keep a machine findable and a phone patient.
- `unlock_flow.dfy`, `unlock_safety.dfy`, `unlock_outcomes.dfy`, `unlock_stuck.dfy`,
  `unlock_witnesses.dfy`, `unlock_lines.dfy`, `unlock_requests.dfy`,
  `unlock_approvals.dfy`: the phone's unlock flow as coroutines on one thread with blocks
  on IO threads, and what every request, dial and approval comes to in the end.
- `key_at_rest.dfy`, `key_use.dfy`, `in_flight.dfy`: the phone's key on disk and in
  hardware, and the two places where two threads meet.
- `wire.dfy`, `journal.dfy`: message framing and the journal encoding (the "Data
  Format" section of systemd's Native Journal Protocol).

Code that changes things step by step is written as classes and methods with loops,
proved against functions or stated properties; a concurrent piece is a state machine
whose runs are all sequences of its steps.

## Where the code does not do what one might expect

Each of these is proved, on a concrete or a general input, with the exact condition
where there is one.

- In the middle of a rotation the volume always opens with the old or the new key,
  but under an unchanged transport id the agent answers the holder only before the
  token is touched and after the last write; under a new id it goes on answering the
  old one with the old entry, even when that entry's keyslot is gone
  (`Rotation.AgentAnswersTheOldIdIff`). The comment at
  cmd/synctang-unlocker/enrol.go:358-374 promises more.
- A rotation may go onto an id that is another holder's. It completes and reports
  success, and from the first import on the agent answers neither of the two
  (`Rotation.RotationOntoAnotherHolder`, `AgentAnswersTheNewIdIff`). The token is tidy
  afterwards exactly if no other entry had the id (`Rotation.RotationKeepsTidyIff`).
- A rotation whose passphrase opens only the old keyslot stops before destroying it,
  leaving both entries. With a first enrolment on a header that has no room for a token,
  which leaves a keyslot no token names, these are the only two operations that end half
  done by themselves (`HeaderRuns.OpSettlesIff`, `StrandedKeyslot`).
- An enrolment after a rotation that was cut in its first gap writes a fresh token with
  one entry: all other holders' entries are lost
  (`HeaderRuns.EnrolInTheGapLosesTheRest`).
- A revocation cut off after its first write leaves an entry that names a free
  keyslot. It can be revoked exactly when that keyslot is occupied
  (`Revocation.StaleEntryIsRemovableIff`). While it is free, each attempt stops before
  the token, and a rotation of that holder destroys the key it has just added and
  reports success, exactly when the freed keyslot is handed out again
  (`Rotation.RotationKeepsTheNewKeyIff`, `Revocation.CutRevocationThenRotation`). Once
  another holder has enrolled into it, revoking the stale entry completes, destroys that
  other holder's keyslot, and leaves an entry the agent still answers
  (`StaleEntries.RevokingTheStaleEntryHitsTheOther`).
- A pairing that replaces a key looks the old entry up by its keyslot's name. On a
  token that names a keyslot twice, which such a reuse makes, it may take out another
  holder's entry: the machine sends OK, and planning the same key again fails
  (`Pairing.ReplacedIsAlreadyIff`, `StaleEntries.PairingAfterReuseIsNotFound`).
- A connection that won a race is used under a context made from the caller's: that
  context is over once its owner has closed it or the caller's own has ended, whichever
  comes first (`TransportRaceOutcomes.WinnersContextIsOverIff`,
  `TheWinnersContextCanEndFirst`); the comment at mrcore/transport/multi.go:212-214
  has it live exactly as long as the connection.
- After a Listen is won, a relaunch that was pending goes on uncancelled, and one
  connection is left over for each of them
  (`TransportRaceOutcomes.ListenLeavesTheLateOnes`, `ARelaunchOutlivesTheWin`). A race
  ended by its context closes nothing (`AContextEndCanLeak`).
- With more than one IO thread a session can be both answered and declined for
  running out of time (`UnlockWitnesses.BothCanHappen`). At the moment the answer is
  queued it is settled whether that can happen: exactly if the session is the flow's,
  open, and the block that declines has begun (`UnlockOutcomes.BothPossibleIff`).
- A window that runs out while the key is being prepared disarms itself: the screen
  stays on Working, exactly when the cancelled preparation comes back before the window
  is done, and the machine is told nothing, exactly when the window's block has not
  begun by then (`UnlockStuck.StuckIff`, `UnlockWitnesses.TheFlowCanGetStuck`,
  `TheScreenCanStayBehind`).
- A dial that gets through to a machine with nothing to ask ends on Failed with the
  session left open, until a Cancel or the next dial closes it
  (`UnlockRequests.UntouchedDialEnds`).
- The person's own deletion of the key, cut between the two files, leaves the state
  the app refuses to repair (`KeyAtRest.Phone.DeleteFiles`).

## Model

| member | source | states |
|---|---|---|
| PrimeGroup.MultOfSum | mrcore/group.go:117-135 | k(P + Q) = kP + kQ in every group that obeys the laws |
| PrimeGroup.MultCommutes | mrcore/mr1.go:43-91 | j(kP) = k(jP): what lets the machine and the holder meet at the same point |
| PrimeGroup.MultOrderMinusOne | mrcore/group.go:156-193 | multiplying by the order minus one, as Negate does, is negation |
| PrimeGroup.NoTwoTorsion | mrcore/group.go:156-226 | in an odd prime order group only infinity is its own negative |
| PrimeGroup.MultNonzero | mrcore/group.go:125-135 | a scalar between 0 and the order takes no other point to infinity |
| Residues.ResiduesObeyTheLaws | mrcore/group.go:50-226 | the integers modulo any odd prime, with x(P) = min(P, n - P), are such a group, encodings included |
| Mr1.EnrolWorks | mrcore/mr1.go:43-91 | enrolling a valid public point never fails |
| Mr1.OnlyFinitePointsAreTaken | mrcore/mr1.go:43-125 | exactly the encodings of finite points are taken, as challenges and as keys to enrol |
| Mr1.AlteredEntryNeverOpens | mrcore/mr1.go:193-260 | with another key id or nonce the sealed box of an entry opens for no answer at all |
| Mr1.NegateIff | mrcore/group.go:156-193 | negation takes exactly the spelling that encoding makes, and gives the negative |
| Mr1.OpensIff | mrcore/mr1.go:193-233 | the last step opens the box exactly when y - eS is the enrolled key point up to sign, and then yields exactly the enrolled secret |
| Mr1.FullPointAcceptance | mrcore/mr1.go:152-167 | exactly two points open the box, and both yield the enrolled secret |
| Mr1.ChallengeRefusedIff | mrcore/mr1.go:108-144 | the challenge is C + E, and a holder refuses it exactly when the two ephemeral scalars cancel |
| Mr1.RecoverFullPoint | mrcore/mr1.go:127-167 | for all nonzero s, c, e the holder's own answer recovers exactly the enrolled secret |
| Mr1.WrongSignNeverOpens | mrcore/mr1.go:169-191 | the candidate with the wrong sign gives another key or none, whenever C + E is not infinity |
| Mr1.RecoverXOnly | mrcore/mr1.go:169-233 | the x-coordinate alone recovers exactly the enrolled secret, whichever candidate is right |
| Mr1.XOnlyAcceptance | mrcore/mr1.go:169-191 | an x-coordinate is accepted exactly if one of its two points is, so an error on the even one never stops the odd one |
| Scalar.BorrowStep | mrcore/group.go:103-115 | one byte of the uint16 borrow chain decides the comparison of one byte more |
| Scalar.ScalarInRange | mrcore/group.go:103-115 | the branch-free loop holds exactly when 0 < value(s) < value(n), for all equal-length strings |
| Scalar.ValidatePrivateScalar | mrcore/group.go:81-101 | accepts exactly the 32-byte strings whose value is between 0 and the order |
| Scalar.RandomScalarFrom | mrcore/group.go:63-75 | returns the first usable draw, and nothing else |
| Scalar.EveryUsableScalarCanBeDrawn | mrcore/group.go:63-101 | whatever the check accepts, some randomness makes the generator return |
| Luks.KeyMaterialInjective | cmd/synctang-unlocker/cryptsetup.go:34-36 | two secrets never share their hex key material |
| Luks.KeyMaterialIsHex | cmd/synctang-unlocker/cryptsetup.go:34-36 | byte i becomes two lower-case hex digits, the high one first |
| Luks.ExecIsPrefix | cmd/synctang-unlocker/enrol.go:76-117 | however a run of cryptsetup commands ends, the header is what some first part of it made |
| Luks.ExecConcat | cmd/synctang-unlocker/enrol.go:378-411 | a run is its first part and then, if that completed, its second on what it left |
| Luks.Mr1TokenFromIs | cmd/synctang-unlocker/enrol.go:428-459 | the token that is loaded is the first of this program's type |
| LuksDump.ParseSection | cmd/synctang-unlocker/luksdump.go:17-30 | the loop yields the indented lines below the heading |
| LuksDump.EntryIDs | cmd/synctang-unlocker/luksdump.go:35-61 | the loop yields the numbered lines of a section, in order |
| LuksDump.LowestFreeKeyslot | cmd/synctang-unlocker/luksdump.go:63-85 | of the text of a dump, the least keyslot number that is not listed in its section, or none of the 32 is free |
| LuksDump.TokenIDsOfType | cmd/synctang-unlocker/luksdump.go:91-99 | the numbers of the tokens of one type, in order, and no others |
| LuksDump.SectionIsBodies | cmd/synctang-unlocker/luksdump.go:17-30 | of a whole dump, exactly the bodies under the heading are read, whatever stands around them |
| LuksDump.ItemIsRead | cmd/synctang-unlocker/luksdump.go:35-61 | a listed line gives back its number and its type, through trimming, cutting and parsing |
| LuksDump.EntryIff | cmd/synctang-unlocker/luksdump.go:35-61 | a line is an entry exactly if it does not begin with a tab and has a number in front of its first colon |
| LuksDump.SignedNumbers | cmd/synctang-unlocker/luksdump.go:35-61 | digits behind a sign or none are a number exactly if it fits into 64 bits |
| LuksDump.DumpIsReadBack | cmd/synctang-unlocker/luksdump.go:17-99 | from the text of a dump, reading a section gives exactly the numbers and types listed in it |
| HeaderDump.ChooseFromDump | cmd/synctang-unlocker/enrol.go:37-50 | from nothing but the text of a dump that shows a header, the keyslot chosen is its lowest free one and the token loaded its first mr-1 token |
| HeaderDump.FirstIsMr1Token | cmd/synctang-unlocker/enrol.go:428-438 | the first token number of the type in a dump is the first such token of the header, and there is none exactly if the header has none |
| HeaderDump.RenderedShows | cmd/synctang-unlocker/luksdump.go:17-99 | every header with numbers in range and types that fit on a line has such a dump |
| Tokens.MarshalJSON | mrcore/token.go:87-120 | unknown fields are written and cannot displace the five own ones |
| Tokens.UnmarshalJSON | mrcore/token.go:122-179 | type and version are checked, own fields read, all others kept |
| Tokens.ReadIff | mrcore/token.go:122-179 | exactly the documents with the type, the version and lists of the right shape are read; what the token then has stands under these names |
| Tokens.WrittenUnder | mrcore/token.go:87-120 | the five fields are written under their names |
| Tokens.TokenRoundTrip | mrcore/token.go:87-179 | a current token is read back from what was written as it was, unknown fields included |
| Tokens.UnknownFieldsSurvive | mrcore/token.go:87-179 | a field this build does not know survives reading and rewriting |
| Enrolment.MatchesFromAre | cmd/synctang-unlocker/enrol.go:148-159 | the positions that carry a transport id, all of them, ascending |
| Enrolment.RecipientsByTransportID | cmd/synctang-unlocker/enrol.go:148-159 | the loop computes that list |
| Enrolment.SelectRecipient | cmd/synctang-unlocker/enrol.go:301-320 | the loop computes the choice that the next three rows determine |
| EnrolmentSafety.UnnamedChoiceIff | cmd/synctang-unlocker/enrol.go:297-320 | with no keyslot named an entry is chosen exactly if it is the only one that carries the id: several are refused, the first is never taken |
| EnrolmentSafety.NamedChoiceIff | cmd/synctang-unlocker/enrol.go:297-320 | with one named, the first carrier in that keyslot is, and no other |
| EnrolmentSafety.ChoiceExistsIff | cmd/synctang-unlocker/enrol.go:297-320 | something is chosen exactly if there is such an entry |
| EnrolmentSafety.SeveralAreLeftAlone | cmd/synctang-unlocker/enrol.go:254-320 | where two entries carry the id, revoking or rotating it without a keyslot leaves the header as it was |
| Enrolment.SelectedIs | cmd/synctang-unlocker/enrol.go:301-320 | what is selected carries the transport id |
| Enrolment.Device.EnrolRecipient | cmd/synctang-unlocker/enrol.go:37-120 | cut off anywhere, the header is what that many of its commands make |
| Enrolment.Device.RemoveRecipientAt | cmd/synctang-unlocker/enrol.go:328-356 | keyslot destroyed, token removed, shorter token imported, in that order, up to the cut |
| Enrolment.Device.RemoveRecipient | cmd/synctang-unlocker/enrol.go:254-263 | the same for the entry the transport id names; otherwise nothing is touched |
| Enrolment.Device.ReplaceRecipient | cmd/synctang-unlocker/enrol.go:378-411 | the enrolment and then the revocation of the old entry, found again by its keyslot, up to the cut |
| Enrolment.Device.EnrolOnce | cmd/synctang-unlocker/enrol.go:177-193 | adds the key, leaves the header alone if it is there, or refuses another one; it reports "already" exactly if the plan is that, and then has issued no command |
| EnrolmentSafety.PlanForOne | cmd/synctang-unlocker/enrol.go:211-239 | for an id that one entry carries, the plan is already or replace, by that entry's key id |
| EnrolmentSafety.PlanAddIff | cmd/synctang-unlocker/enrol.go:211-239 | the plan is to add exactly if there is no token or no entry of it carries the id |
| EnrolmentSafety.AlreadyIff | cmd/synctang-unlocker/enrol.go:211-239 | the plan is already exactly if the only entry with the id is of this very key |
| Pairing.EnrolOnceLeavesOne | cmd/synctang-unlocker/enrol.go:177-239 | completed, one entry and only one carries the id, with this very key, and a header that held it already is as it was |
| Pairing.AnotherKeyIsRefused | cmd/synctang-unlocker/enrol.go:186-190 | an id that carries another key is refused, with nothing written |
| Pairing.TheMachineIsNamedOnce | cmd/synctang-unlocker/enrol.go:428-436 | the machine's name goes into the token an enrolment makes and stays as it is in one that is there |
| EnrolmentSafety.MatchesOfTidy | cmd/synctang-unlocker/enrol.go:148-159 | on a tidy token a transport id names one entry or none |
| EnrolmentSafety.GrownIsTidy | cmd/synctang-unlocker/enrol.go:98-101 | appending an entry keeps keyslots and transport ids pairwise distinct |
| EnrolmentSafety.GrownIsLive | cmd/synctang-unlocker/enrol.go:76-101 | and every keyslot named still opens with exactly its own entry's secret |
| EnrolmentSafety.ShrunkIsLive | cmd/synctang-unlocker/enrol.go:328-356 | so does cutting an entry and its keyslot out of the two lists |
| Rotation.ReplaceIsOneScript | cmd/synctang-unlocker/enrol.go:378-411 | a rotation, onto any id and on any token, is its six commands one after the other wherever it is cut: the second half finds what the first wrote |
| Rotation.RotationCutAnywhere | cmd/synctang-unlocker/enrol.go:378-411 | cut off after k writes it has done exactly the first k of them; by itself it stops only before the fourth, if the old keyslot cannot be destroyed |
| Rotation.CanKillIff | cmd/synctang-unlocker/enrol.go:328-356 | it can exactly if the old keyslot is occupied and the passphrase opens another, or the new key went into it |
| Rotation.AKeyAlwaysOpens | cmd/synctang-unlocker/enrol.go:358-411 | at every cut the old or the new key opens the volume; the old goes only after a token naming the new one is there |
| Rotation.TokenGap | cmd/synctang-unlocker/enrol.go:103-117 | the token is absent exactly between a removal and the import after it, twice |
| Rotation.TokenNamesALiveEntry | cmd/synctang-unlocker/enrol.go:358-411 | outside the gap the token names a live entry, under the old id while the old keyslot lasts and under the new one from the first import on |
| Rotation.AgentAnswersTheOldIdIff | cmd/synctang-unlocker/agent.go:117-132 | at each of the seven cuts, whether the agent answers the old id, and with which entry, for an unchanged and for a new id |
| Rotation.AgentAnswersTheNewIdIff | cmd/synctang-unlocker/agent.go:117-132 | the same for a new id: from the first import on but for the second gap, or, if another holder has it, only before |
| Rotation.RotationOntoAnotherHolder | cmd/synctang-unlocker/enrol.go:378-411 | a rotation onto the id of another holder completes, and the agent then answers neither |
| Rotation.AnyTwoHoldersCanClash | cmd/synctang-unlocker/main.go:171 | every header in order with two holders and a free keyslot has such a rotation |
| Rotation.RotationKeepsTidyIff | cmd/synctang-unlocker/enrol.go:378-411 | a completed rotation leaves the token tidy exactly if no other entry carries the id it went onto |
| Rotation.RotationLeavesEntriesLive | cmd/synctang-unlocker/enrol.go:378-411 | clash or not, every entry of the final token opens its keyslot and nothing foreign is touched |
| Rotation.RotationKeepsSound | cmd/synctang-unlocker/enrol.go:378-411 | a completed rotation onto an id nobody else has exchanges one entry, keeps the header in order and everything foreign as it was |
| Rotation.SlotReusedIff | cmd/synctang-unlocker/luksdump.go:74-85 | the new key is put into the old entry's keyslot exactly when that is free and all below it are taken |
| Rotation.RotationKeepsTheNewKeyIff | cmd/synctang-unlocker/enrol.go:378-411 | the new key survives its own rotation exactly when its keyslot is not the one the old entry names |
| Revocation.RevocationCutAnywhere | cmd/synctang-unlocker/enrol.go:254-356 | cut off after k writes it has done exactly the first k of its three, or none if the keyslot cannot be destroyed |
| Revocation.RevocationKeepsSound | cmd/synctang-unlocker/enrol.go:254-356 | completed, it leaves the header in order, the keyslot gone, no entry with the id, and everything foreign as it was |
| Revocation.CutRevocationLeavesStaleEntry | cmd/synctang-unlocker/enrol.go:328-356 | cut after its first write, the entry names a free keyslot, the next to be handed out exactly when all below are taken |
| Revocation.StaleEntryIsRemovableIff | cmd/synctang-unlocker/enrol.go:328-356 | an entry can be revoked exactly when its keyslot is occupied, whoever by; while it is free each attempt stops before the token |
| Revocation.CutRevocationThenRotation | cmd/synctang-unlocker/enrol.go:254-411 | that cut and then a rotation, reported as a success, leave an entry with no keyslot behind it |
| StaleEntries.ACutRevocationMakesOne | cmd/synctang-unlocker/enrol.go:328-356 | a header in order and one cut revocation are all it takes for the next holder to be given a keyslot the token already names |
| StaleEntries.RevokingTheStaleEntryHitsTheOther | cmd/synctang-unlocker/enrol.go:254-356 | revoking the first holder then completes, destroys the second holder's keyslot, and leaves the entry of the second, which the agent still answers |
| StaleEntries.PairingAfterReuseIsNotFound | cmd/synctang-unlocker/pair.go:160-177 | a pairing by the second holder with a new key completes with OK, and planning that key again fails |
| HeaderRuns.StrandedKeyslot | cmd/synctang-unlocker/enrol.go:76-117 | a first enrolment with no room for a token adds a keyslot no token names |
| HeaderRuns.EnrolInTheGapLosesTheRest | cmd/synctang-unlocker/enrol.go:103-117 | a rotation cut in its first gap and then a completed enrolment leave a token with that one entry |
| HeaderRuns.OpSettlesIff | cmd/synctang-unlocker/enrol.go:37-411 | an operation on a header in order completes or changes nothing exactly but for a stranded first enrolment and a rotation that cannot destroy the old keyslot, and then keeps the header in order |
| HeaderRuns.AnySequenceKeepsTheHeaderSound | cmd/synctang-unlocker/enrol.go:37-411 | from a volume with no mr-1 token, any sequence of operations, with rotations onto any id no other holder has, keeps equal lists, distinct keyslots and ids, each keyslot holding exactly its entry's secret, and all that is foreign |
| Exchange.Judge | cmd/synctang-unlocker/agent.go:228-262 | the verdict on one answer, which the next row determines |
| Exchange.JudgedIff | cmd/synctang-unlocker/agent.go:200-262 | the machine is content exactly with an answer that recovers 32 bytes whose hex opens the volume, and takes a full point before a coordinate |
| Exchange.RunExchange | cmd/synctang-unlocker/agent.go:143-269 | what is sent, delivered and returned for every connection, cut anywhere |
| Exchange.RunUnlockOnce | cmd/synctang-keyholder/unlock.go:53-109 | what goes out and whether "unlocked" is said, for every connection: only after the answer went out, and on the machine's own word |
| Exchange.ReportsExactlyOnce | cmd/synctang-unlocker/agent.go:194-269 | every exit after an answer that is no refusal attempts one report, no other exit does, and it says yes exactly when the key was delivered |
| Exchange.TheAnswerIsTheHolders | cmd/synctang-unlocker/agent.go:167-194 | over one connection, however it dies, the answer the machine reads is the holder's own reply to this exchange's challenge |
| Exchange.UnlockedIff | cmd/synctang-keyholder/unlock.go:93-109 | over one connection, however it dies, a holder says "unlocked" exactly when the machine was content and its verdict arrived |
| Exchange.UnlockedMeansUnlocked | cmd/synctang-unlocker/agent.go:143-269 | whenever a holder says "unlocked", the machine has in that exchange recovered 32 bytes from this holder's reply to this challenge, found that their hex opens the volume, and delivered it once |
| Exchange.HonestReply | cmd/synctang-keyholder/unlock.go:79-91 | an honest holder replies to every challenge but infinity, with a point or an x-coordinate that recovers |
| Exchange.NothingIsSaid | cmd/synctang-keyholder/unlock.go:53-91 | an unwilling holder, or one that is sent no finite point, puts nothing on the line and never says "unlocked" |
| Exchange.EnrolledHolderUnlocks | cmd/synctang-unlocker/agent.go:143-269 | on a header in order, an enrolled holder whose messages get through unlocks the volume and is told so, exactly unless the scalars cancel |
| PhoneSession.Session.Connect | mobile/mobile.go:389-458 | from a fresh session it succeeds exactly if some attempt before a Cancel brings a valid request, settles on the first of these having dialled no further, and otherwise has made every attempt up to the first cancelled one; a Cancel before it dials nothing |
| PhoneSession.Session.ConnectOnce | mobile/mobile.go:545-605 | an attempt either settles on its line or leaves the session with no connection |
| PhoneSession.Session.AnswerXOnly | mobile/mobile.go:690-742 | an answer goes out exactly on an open, unanswered request with a full coordinate; success is the machine's own verdict |
| PhoneSession.Session.AnswerWithScalar | mobile/mobile.go:665-688 | a scalar that is not the enrolled one sends nothing; otherwise exactly x(sX) is sent |
| PhoneSession.UnlockWithPhone | mobile/mobile.go:389-742 | the line it settles on is the first that brings a request, if any does, and what the phone sends and says comes to the same as any key holder's end of that line |
| PhoneSession.Session.Decline | mobile/mobile.go:748-764 | the reason goes out exactly if there is a connection that takes it, answered or not, and nothing is answered after it |
| PhoneSession.ADeclineIsTaken | cmd/synctang-unlocker/agent.go:194-199 | a decline with any reason, the empty one included, ends the exchange on the machine: nothing is delivered or reported, whatever follows it |
| PhoneSession.Session.Close | mobile/mobile.go:828-843 | cancels and releases, so the session never dials again |
| PairingProof.LengthPrefix | mrcore/pair.go:89-93 | the shifting loop writes the length as eight big-endian bytes |
| PairingProof.PairProof | mrcore/pair.go:85-98 | the loop feeds the MAC every part behind its length |
| PairingProof.ProofInput | mrcore/pair.go:70-98 | what the MAC is fed: label, machine, peer, key and nonce in this order, each behind its length |
| PairingProof.PrefixedInjective | mrcore/pair.go:85-98 | no two lists of as many parts give the MAC the same input |
| PairingProof.ProofBindsItsClaim | mrcore/pair.go:70-98 | a proof matches only the same secret, machine, peer, key and nonce |
| Pairing.RunPairOnce | cmd/synctang-unlocker/pair.go:81-200 | what an attempt writes to the header and in which order it happens: every cryptsetup command after a matching proof over this nonce, peer and key, a decoded point, and the yes to what was planned; OK exactly when it completed |
| Pairing.HeaderWritesAreAuthorised | cmd/synctang-unlocker/pair.go:121-198 | a header that differs afterwards was changed by such commands only: there was a proved request and a yes to its plan |
| Pairing.BorrowedProofIsRefused | cmd/synctang-unlocker/pair.go:121-129 | a proof made for anything else is refused and nothing is written |
| Pairing.AddedIsAlready | cmd/synctang-unlocker/enrol.go:211-239 | after a completed addition, planning the same key and peer finds it already there, on every header |
| Pairing.ReplacedIsAlreadyIff | cmd/synctang-unlocker/pair.go:160-177 | after a completed replacement it does exactly if the first entry under the keyslot's name is this holder's |
| Pairing.OkMeansEnrolledIff | cmd/synctang-unlocker/pair.go:141-198 | whenever the machine sends OK, on every header, planning again yields already, in the replacing branch exactly if the first entry under the keyslot's name was this holder's |
| Pairing.ANoIsANo | cmd/synctang-unlocker/pair.go:179-181 | a no to enrolling leaves a header that holds nothing for the peer as it was |
| Pairing.AYesIsAYes | cmd/synctang-unlocker/pair.go:121-200 | whoever proves the code with a finite point, for an id that holds nothing, is enrolled and told OK, with a yes or nobody to ask, if there is room |
| Pairing.ReplacingNeedsAYes | cmd/synctang-unlocker/pair.go:161-166 | another key is put in place of an enrolled one only on an explicit yes to that |
| Pairing.NoPointIsRefused | cmd/synctang-unlocker/pair.go:131-137 | a key that is no finite point is refused, however good its proof |
| PairedHolder.PairedEntryRecovers | cmd/synctang-unlocker/pair.go:121-200 | on any header, once a pairing has completed and written, the agent answers the peer with an entry from which this holder recovers the secret drawn, for every later challenge |
| PairedHolder.PairingKeepsSound | cmd/synctang-unlocker/pair.go:121-200 | a completed pairing keeps a header in order and everything foreign as it was |
| PairedHolder.PairedHolderUnlocks | cmd/synctang-unlocker/agent.go:117-269 | from pairing to unlocking: on a header in order the holder just paired, when its messages get through, unlocks with the secret of its own pairing and is told so, exactly unless the scalars cancel |
| TransportRace.LaunchFromKeeps | mrcore/transport/multi.go:124-126 | launching every transport establishes the invariants |
| TransportRace.RoomToSend | mrcore/transport/multi.go:97-109 | a leg that still runs has room in the channel |
| TransportRace.StepKeeps | mrcore/transport/multi.go:68-200 | every step of loop, attempts, timers, drain and owner keeps them |
| TransportRace.RunKeeps | mrcore/transport/multi.go:68-242 | so does every run |
| TransportRaceOutcomes.AtMostOneConnection | mrcore/transport/multi.go:68-200 | at most one connection is returned, nobody blocks sending, outstanding equals running plus buffered |
| TransportRaceOutcomes.WinnersContextIsOverIff | mrcore/transport/multi.go:101-171 | the winner's connection is open until its own Close; its context is over exactly when that has happened or the caller's context has ended |
| TransportRaceOutcomes.TheWinnersContextCanEndFirst | mobile/mobile.go:415-416 | a run in which the caller's context ends under a connection that was returned and is open |
| TransportRaceOutcomes.DialLeavesNothingOpen | mrcore/transport/multi.go:149-242 | once a won Dial is quiet every other success is closed, and whoever still tries is cancelled |
| TransportRaceOutcomes.DialFailsOnlyIfAllDo | mrcore/transport/multi.go:174-196 | a Dial fails only when every transport has, with nothing open, and never waits for nothing |
| TransportRaceOutcomes.ListenKeepsTryingAll | mrcore/transport/multi.go:82-96 | a waiting Listen gives up on no transport |
| TransportRaceOutcomes.ListenLeavesTheLateOnes | mrcore/transport/multi.go:191-197 | after a won Listen exactly one result is left for each relaunch after the win |
| TransportRaceOutcomes.GivingUpClosesNothing | mrcore/transport/multi.go:133-140 | a race ended by its context never closes an open connection afterwards |
| TransportRaceOutcomes.ARelaunchOutlivesTheWin | mrcore/transport/multi.go:191-197 | a run in which a relaunched attempt is left open and uncancelled |
| TransportRaceOutcomes.AContextEndCanLeak | mrcore/transport/multi.go:133-140 | a run in which a success is neither returned nor closed |
| RelayRace.StepKeeps | mrcore/transport/syncthing_relay.go:804-853 | every step of the launching loop, the attempts, the receiving loop, the drain and the owner keeps the race's invariants |
| RelayRace.NobodyBlocks | mrcore/transport/syncthing_relay.go:807-826 | in every interleaving neither an attempt nor the loop blocks sending, attempts not yet received equal running plus buffered, and after a win so does what the drain waits for |
| RelayRace.TheFirstSuccessWins | mrcore/transport/syncthing_relay.go:828-853 | what is returned is the first success to come into the channel; a race fails only when every address has, with nothing open |
| RelayRace.EverySessionIsReturnedOrClosed | mrcore/transport/syncthing_relay.go:831-848 | after a win every joined session is the one returned, or closed once, or still to be drained, and once all is quiet none is |
| Announce.AnnounceLoop.RunPass | mrcore/transport/syncthing_relay.go:921-948 | what was announced less than a refresh ago is left alone; anything else is announced, and remembered with the time of the return if that succeeds |
| Announce.AnnounceLoop.RunPasses | mrcore/transport/syncthing_relay.go:910-965 | the same after any number of passes |
| Announce.NotMoreOften | mrcore/transport/syncthing_relay.go:910-965 | while the addresses stay the same there is at most one announcement for every whole refresh |
| Announce.NeverOlder | mrcore/transport/syncthing_relay.go:910-965 | with passes at most d apart a record is never older than refresh + d and twice the latency |
| Announce.AlwaysWaiting | mrcore/transport/machine_status.go:41-57 | if that is at most 150 s, a phone is told WAITING at every moment |
| Announce.StateIff | mrcore/transport/machine_status.go:41-57 | WAITING exactly for a record of the last 150 s, ABSENT exactly without one; an age is never negative |
| DialRetry.DelayBounds | mrcore/transport/discovery_backoff.go:73-80 | whatever the jitter a delay is within a fifth of the schedule's, and of 15 s at most; with none it is the schedule's |
| DialRetry.BoundedRetryAfter | mrcore/transport/discovery_backoff.go:85-91 | a Retry-After is the least of what was told, a minute and what is left, and none is below zero |
| DialRetry.WaitAfter | mrcore/transport/syncthing_relay.go:660-672 | the backoff, or the bounded Retry-After if that is longer |
| DialRetry.TenLookupsAtMost | mrcore/transport/discovery_backoff.go:55-80 | no more than ten lookups begin within 90 s |
| DialRetry.TenLookupsCanBegin | mrcore/transport/discovery_backoff.go:55-80 | with failures that come at once and the least jitter the loop starts ten lookups in 90 s, and no eleventh however many there are |
| DialRetry.DialKeepsToTheSchedule | mrcore/transport/syncthing_relay.go:653-680 | whatever the jitter, the Retry-Afters and the durations, lookups are spaced by the schedule and no wait is longer than a minute |
| DialRetry.DialPersists | mrcore/transport/syncthing_relay.go:653-680 | a dial ends connected with the first attempt that gets through in time, and else only when the next would begin too late; each begins when the one before and its wait are over |
| DialRetry.DialRelay | mrcore/transport/syncthing_relay.go:653-680 | the loop computes that dial, keeps to the spacing, starts ten lookups in 90 s at most, and does not give up before its time |
| RelayLoss.WatchRelayLoss | mrcore/transport/syncthing_relay.go:877-899 | a loss is reported at the first look at which there has been no relay for the grace, never sooner or later |
| RelayOrder.Buckets | mrcore/transport/relaypool.go:75-84 | every answering relay is in the bucket of its latency, once, and every silent one apart |
| RelayOrder.BucketIs | mrcore/transport/relaypool.go:41-80 | a bucket is 50 ms wide |
| RelayOrder.OrderRelays | mrcore/transport/relaypool.go:51-95 | a permutation, answering before silent, 50 ms buckets never decreasing, for every probe outcome and shuffle |
| UnlockSafety.StepKeeps | android/app/src/main/java/com/github/muelli/synctang/UnlockFlow.kt:814-1170 | every press, main-thread step, prompt result and IO block keeps the flow's invariants |
| UnlockRequests.CancelTellsTheMachine | android/app/src/main/java/com/github/muelli/synctang/UnlockFlow.kt:1020-1047 | from every reached state with a waiting machine, a press of Cancel and anything after it but presses: once all is over the machine was told no and not that its time ran out, the session is closed and the screen is Home |
| UnlockRequests.CancelledDialTellsTheMachine | android/app/src/main/java/com/github/muelli/synctang/UnlockFlow.kt:814-867 | a dial cancelled at any moment until its result is looked at ends on Home, and if it got through all the same, with the machine told no and the session closed |
| UnlockRequests.NobodyAnswers | android/app/src/main/java/com/github/muelli/synctang/UnlockFlow.kt:1098-1150 | a request that nobody answers ends on Failed, with the machine told that its time ran out and the session closed |
| UnlockRequests.UntouchedDialEnds | android/app/src/main/java/com/github/muelli/synctang/UnlockFlow.kt:814-867 | a dial from rest that nobody touches again closes the session before it and ends on Failed: a machine that asked was told that its time ran out, one with nothing to ask is left connected, one that was not reached is no session |
| UnlockRequests.WindowOfTheLast | android/app/src/main/java/com/github/muelli/synctang/UnlockFlow.kt:814-948 | a new dial ends the window of the request before it; a dismissed prompt does not, and puts the request back on the screen |
| UnlockApprovals.ApprovedRequestEnds | android/app/src/main/java/com/github/muelli/synctang/UnlockFlow.kt:878-1001 | an approved request, in every interleaving with its window: ends on Done with the answer sent and the session closed; or on Failed with the machine told no or that its time ran out, unless the answer threw, and the session closed; or on Working, as `UnlockStuck.StuckIff` says |
| UnlockSafety.BothOnlyIfOverlapped | android/app/src/main/java/com/github/muelli/synctang/UnlockFlow.kt:1103-1135 | after any run, a session that is both answered and declined for time was answered while the declining block had begun |
| UnlockOutcomes.BothPossibleIff | android/app/src/main/java/com/github/muelli/synctang/UnlockFlow.kt:970-1135 | from any reached state in which an answer is queued, some run ends with its session both answered and declined for time exactly if the session is the flow's, open, and a declining block has begun |
| UnlockOutcomes.NeverBothWithOneIoThread | android/app/src/main/java/com/github/muelli/synctang/UnlockFlow.kt:878-1135 | with one IO thread it never is, over any presses, dismissals and sessions |
| UnlockOutcomes.ExpiredNeverAnswers | android/app/src/main/java/com/github/muelli/synctang/UnlockFlow.kt:935-979 | an approval whose window has expired never comes to answer |
| UnlockOutcomes.OnceAnsweringNeverTimedOut | android/app/src/main/java/com/github/muelli/synctang/UnlockFlow.kt:970-979 | once an approval has started to answer with no block declining for time, its session is never told that time ran out, in any run that follows |
| UnlockWitnesses.BothCanHappen | android/app/src/main/java/com/github/muelli/synctang/UnlockFlow.kt:1103-1135 | a run with two IO threads in which a session is answered and declined for time |
| UnlockWitnesses.CancelledPreparationDisarms | android/app/src/main/java/com/github/muelli/synctang/UnlockFlow.kt:918-924 | an approval cancelled while its key is prepared disarms the very expiry that cancelled it |
| UnlockStuck.WorkingForeverWasExpired | android/app/src/main/java/com/github/muelli/synctang/UnlockFlow.kt:814-1170 | after any run that ends with every coroutine over and Working on the screen, the last approval was expired and cancelled before it came to answer |
| UnlockStuck.StuckIff | android/app/src/main/java/com/github/muelli/synctang/UnlockFlow.kt:864-1135 | from a waiting machine and a press of Approve, in every interleaving: Working stays for good exactly if the cancelled preparation comes back before the window is done, with the machine told nothing exactly if the window's block has not begun, and told that its time ran out otherwise |
| UnlockWitnesses.TheFlowCanGetStuck | android/app/src/main/java/com/github/muelli/synctang/UnlockFlow.kt:908-924 | a run that ends on Working with nothing left to happen and the machine told nothing |
| UnlockWitnesses.TheScreenCanStayBehind | android/app/src/main/java/com/github/muelli/synctang/UnlockFlow.kt:908-924 | a run that ends on Working with the machine told that its time ran out |
| KeyAtRest.Phone.DeleteFiles | android/app/src/main/java/com/github/muelli/synctang/WrappedKeyStore.kt:66-71 | a complete pair is left damaged exactly when the first deletion is carried out and the second is not |
| KeyAtRest.Phone.Replace | android/app/src/main/java/com/github/muelli/synctang/WrappedKeyStore.kt:73-82 | a file is wholly replaced or as it was, wherever it is cut |
| KeyAtRest.Phone.CreateKey | android/app/src/main/java/com/github/muelli/synctang/KeyHolderKey.kt:104-142 | what it leaves is half of a whole pair under a hardware key that was tried and answered; after one ordinary failure, or a refusal to make the key, nothing is left |
| KeyAtRest.Phone.GenerateWrappingKey | android/app/src/main/java/com/github/muelli/synctang/KeyHolderKey.kt:144-187 | comes back only with a key that was used once; one failure, of StrongBox or in its trial, is made up for by the TEE |
| KeyAtRest.Phone.EnsureKey | android/app/src/main/java/com/github/muelli/synctang/KeyHolderKey.kt:92-102 | keeps the files sound, touches nothing once the public file exists, whole or damaged, says Fine only of a whole pair with its hardware key, succeeds on sound files if all its steps do, and after one ordinary failure leaves no half |
| KeyAtRest.AnyRunsOfEnsureKey | android/app/src/main/java/com/github/muelli/synctang/KeyHolderKey.kt:78-142 | from an empty phone, through any runs, crashes and false answers: never DAMAGED, a COMPLETE pair is of one save under the hardware key that is there, and a last run that goes well ends COMPLETE |
| KeyUse.ReturnedOrDiscardedOnce | android/app/src/main/java/com/github/muelli/synctang/KeyUse.kt:40-80 | in every interleaving a value produced is returned or discarded, one of the two, once |
| InFlight.CancelledAtLeastOnce | android/app/src/main/java/com/github/muelli/synctang/UnlockFlow.kt:1182-1197 | bind and cancel in any order cancel the target once or twice, never zero times |
| Wire.Pipe.WriteMessage | mrcore/wire.go:74-94 | the stream grows by the length and the body |
| Wire.Pipe.ReadMessage | mrcore/wire.go:96-115 | consumes exactly one frame, or fails as the next row says |
| Wire.ReadIff | mrcore/wire.go:96-115 | a message is read exactly off a stream that begins with a whole frame of at most 64 KiB, and the length is refused before the body is looked at |
| Wire.FrameHeader | mrcore/wire.go:74-94 | the length goes first, four bytes, most significant first |
| Wire.ReadAllFrames | mrcore/wire.go:74-115 | messages written one after another are read back as they were and nothing is left |
| Wire.ReadAllCut | mrcore/wire.go:74-115 | any strict prefix of the stream gives a prefix of the messages and then an error |
| Wire.FramesInjective | mrcore/wire.go:74-115 | no two lists of messages have the same stream |
| Journal.Buffer.AppendField | internal/journal/journal.go:96-116 | the buffer grows by one field in the one encoding or the other |
| Journal.FieldOnTheWire | internal/journal/journal.go:96-116 | a value with a newline or NUL goes behind its length in eight bytes, least significant first; any other behind an equals sign |
| Journal.Encode | internal/journal/journal.go:85-94 | decoded, the entry is the priority's digit under PRIORITY, the identifier under SYSLOG_IDENTIFIER, the message under MESSAGE, and then the fields, long values cut |
| Journal.DecodeEncoded | internal/journal/journal.go:85-116 | decoding gives back the same fields, values cut at 32 KiB with the note |
| Journal.EntryCannotBeForged | internal/journal/journal.go:85-116 | whatever newlines or NULs values hold, the decoded names are those of the fields and no more |
| Journal.FieldName | internal/journal/journal.go:121-136 | the in-place loop yields a valid name, or says there is none |

## Left out

- TLS, certificates, Device ID derivation, multicast and the relay client: a connection is an authenticated, ordered channel that may end at any message.
- P-256 arithmetic, AES-GCM, HKDF, SHA-256, HMAC and RSA-OAEP themselves: laws and symbolic values stand for them; collisions and forgeries do not exist in the model.
- JSON text: a token is a map from field names to values, a message its fields; a body that does not parse ends what a reader sees.
- Running cryptsetup: only each command's effect on the header counts. luksKillSlot is taken to leave tokens untouched and to need the passphrase of another keyslot than the one it destroys, and a read of the header that fails looks like a cut with no write.
- Enrolment.Device.ReplaceRecipient: does not take an empty new id, which enrolRecipient would accept; both callers fall back on the old id (cmd/synctang-unlocker/main.go:171, cmd/synctang-unlocker/pair.go:167).
- HeaderRuns.AnySequenceKeepsTheHeaderSound: leaves out rotations onto another holder's id, after which the token is not tidy (Rotation.RotationKeepsTidyIff), and operations that are cut off.
- Enrolment.Device.EnrolOnce: does not read the header again between planning and writing, because the model has one writer at a time.
- LuksDump.DumpIsReadBack: knows ASCII whitespace only, and takes the layout of a dump (unindented headings, entries by spaces, details by a tab) as cryptsetup writes it.
- HeaderDump.ChooseFromDump: takes a header whose token numbers are below 32 and whose token types are neither empty nor broken by blanks at the ends or a newline.
- Announce.AlwaysWaiting: does not model failing announcements, clock drift between machine and phone, or several announce URLs.
- DialRetry.DialRelay: takes the jitter as a real number and time as exact; rounding of float64 is not modelled.
- TransportRace.StepKeeps: the winner's cancel function is read in the same step as the losers are cancelled; nothing else can touch that entry.
- UnlockSafety.StepKeeps: an IO block takes effect when it ends (a dial closes the old session when it begins); resetting the identity of an invalidated key, readiness lookups after a failed dial, key screens and the activity's own close() are not modelled.
- RelayRace.StepKeeps: what a join does when its context is cancelled is its own affair: it may still succeed or fail at any time.
- PhoneSession.Session.Connect: Cancel falls between attempts; interrupting a blocked dial is part of what the attempt reports.
- KeyAtRest.AnyRunsOfEnsureKey: a hardware key that is invalidated later, and durability of a rename across a power cut, are not modelled; renames take effect in order.
- RelayOrder.OrderRelays: relays are positions in the list, and probing is its results.
- Wiping of secrets, selecting the systemd password request, authorised peer lists, adopting and undoing a machine on the phone, readiness polling: they would add easy members only.
- Compose screens, shortcuts, camera, QR codes, shell completion, flags, log formatting, DNS and HTTP plumbing.
