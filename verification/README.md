# Secret Garden: a verified model

A Dafny model of the Secret Garden program: the bracket that turns encrypted scores into a podium,
the pot that podium is paid from, the scoring and breeding life cycles around it, and the round
schedule. Most instructions are modelled twice. A function on account values says what it accepts,
answers and changes; a method does it the way the program does - guards in order, loops over the
supplied accounts, fixed buffers updated in place - and is proved to meet that function. The theorems
are about every run of those steps. The functions carry no contracts of their own; the table names the
methods that meet them and the theorems about them.

`dafny verify dfyconfig.toml` checks everything.

## How it is laid out

- **Ranking, Circuit, TopThreeForms** - the order of a reveal (score * 8 + rarity, then the lower
  address), what holding a place means, the reveal circuit for any width, and the four algorithms
  for the score-only podium proved to be one function.
- **Partition, Planner** - layouts of declared sizes and first keys, the pigeonhole that turns
  shard-by-shard checks into a true partition, and the client's planner meeting those checks.
- **Accounts, Instructions** - the accounts as values and every bracket instruction as a function.
- **AccountState, Handlers, SingleTierHandlers, TwoTierHandlers** - the accounts as objects with
  arrays, a bitmask and flags, and the instructions on them.
- **RevealRun, RevealInvariant, RevealSteps, RevealTheorem** - one round's reveal as a state machine
  (a call to the cluster is a queue step followed, any time later, by a callback or nothing), its
  invariant, and exactness over every run.
- **RevealGates, RevealProgress, RevealHypotheses** - exactly what each instruction accepts in a
  reachable state, and what can no longer fail there; where the program itself, or increasing clock slots, already give what the theorem asks of the operator.
- **StaleResults** - whatever a collect or an apply of a run takes was computed for the pins it finds.
- **RevealNecessity, DueLists, SafeRuns, MisrankedRuns, LostWinner, PlainCollectRun** - what each
  operator condition is exactly worth: when a queue step or a pin is safe, in terms of lists anybody can
  read and whatever the scores are, exactness over every run of such steps, when tier-1 stamps collide,
  what a plain collect loses for good, and for every condition a whole accepted run that neglects only it
  and ends wrong.
- **TierDriver, EndgameDriver, SingleTierDriver, TwoTierDriver, BracketDriver, OperatorFields,
  LoneSemifinal, InterruptedRepin** - the automatic operator from wherever a round stands: what it closes,
  pins, queues and collects, exactly when its next run is never refused, that it then ends in the exact
  podium, and two reachable states where it is stuck.
- **Settlement, PotRun, PotTheorem, PotHandlers** - refund, distribution and closing of the pot: what is
  accepted, whose accounts are credited, and exactly when a refund under way can still finish.
- **Scoring, ScoringHandlers** - scores queued, answered, lost, timed out and queued again.
- **Breeding, BreedingRun, BreedingSteps, BreedingTheorem, BreedingHandlers** - experiments.
- **Schedule** - the daily deadline and the target traits.
- **RoundLife** - scoring, reveal and payout joined: the i-th payment goes to place i.

Addresses are natural numbers (32 bytes read big-endian, so `<` is the byte order); the default
address is 0. An entry's score and rarity never change once scored (`Scoring.ScoreIsFinal`).
Authorisation is one boolean per instruction. An instruction that answers an error changes
nothing, because the runtime discards the transaction.

## What the theorems assume

`RevealTheorem.RevealIsExact` covers one and two tiers, any layouts the checks accept, any order of
shards, any number of re-pins, re-queues, closings and re-promotions, answers that come late, and
computations that never come back. It asks three things of the accepted steps, stated step by step in
`RevealRun.Careful`, that the program does not enforce:

1. A new pin (`init_bracket`, `init_tier1_bracket`, `promote_tier1`) takes a stamp that nothing
   usable or still due carries. What each pin needs exactly is `DueLists.PinIsSafeByLists`: whatever the
   new stamp makes live ranks, or will rank, lists the new pins accept. The condition is
   proved, not assumed, for rounds of up to 52 entries and fewer than 2^32 steps
   (`RevealHypotheses.SingleTierIsExact`), and for larger rounds when tier 1 is pinned at increasing clock
   slots, all within 2^32 of each other and with low halves larger than the number of steps
   (`RevealHypotheses.TwoTierIsExact`). `RevealNecessity.Tier1StampsCollide` says exactly when two
   tier-1 stamps collide, and `MisrankedRuns.WrappedCounterMisranks` is a run that neglects only this.
2. A record is queued again only when every computation still due at it carries the same stamp or ranks
   the same list. The stamp sits on the record and the callback never checks it. What each queue step
   needs exactly is `DueLists.QueueIsSafeByLists`: every list still due there is the one being queued or
   another one the pins accept. If one is not, some scores make the cluster's answer wrong; if all are,
   no scores and no order of answers do. `MisrankedRuns.OverlappingQueuesMisrank` is a seven-step run that
   neglects only this and places the best of three entries third. The automatic operator itself queues straight
   after a re-pin (`scripts/auto-cycle.ts:1166-1195`), so after a re-pin this rests on nothing being due.
3. `collect_shard_winners` is not used on a promoted bracket; it does not check. It loses exactly the
   entries of the interval its result does not name (`LostWinner.PlainCollectLoses`), until tier 1 is
   promoted anew (`LostWinner.LostIsMisranked`), and
   `PlainCollectRun.PlainCollectMisranks` is a whole run that neglects only this and does not name the best
   entry. `queue_shard_reveal` on a promoted bracket, the final included, is covered.

`SafeRuns.SafeRunIsExact` is the same theorem with conditions 1 and 2 replaced by what `DueLists` proves each
step cannot do without (and the bracket's and tier 1's stamps apart); every run that respects the three
conditions is one of those (`SafeRuns.AdmissibleIsSafe`).

Both take `participant_count` to be the number of the round's entries, which `Scoring` and
`PotRun` prove for the one instruction that adds entries. Exactness holds even when tier 1 promotes to
a single semifinal. A plan made by the client always has at least two (`Planner.PlannedSemifinals`);
an operator's own layout of 13, 13, 13, 13 and 1 entries yields one, and the automatic operator cannot
finish it (`LoneSemifinal.LoneSemifinalStalls`).

The pot theorems take the entry fee and the game's mint to be fixed and no entry to sit at the default
address. The breeding theorems cover gardens in which no flower changes hands and the two parents of a start
are different accounts, which the instruction leaves to the runtime. The driver theorems start
when the grace wait is over - nothing is due - on a cluster that answers what is queued from then on,
and take the stamps the run will use to be free; a first run needs only a clock slot whose low 32 bits
are not 1, the bracket's first stamp.

## Where code and comments disagree

The model follows the code.

- The Mutant gate is described as scaling the rate by exactly weight / 255
  (`programs/secret-garden/src/instructions/open_round.rs:215-218`). It opens for weight + 1 of the 256 gate
  bytes, and for none at weight 0, so the rate is right exactly at 0 and 255 (`Schedule.GateRate`).
- `final_queued` is described as blocking a second queue of the final
  (`programs/secret-garden/src/state.rs:631-632`). The program does not test it there; until the result is
  applied a second queue of the same finalists is accepted (`EndgameDriver.FinalRequeueIsDecided`), and is
  harmless (`RevealTheorem.FinalRequeueIsHarmless`).
- The tier-1 stamp is described as unable to collide (`programs/secret-garden/src/lib.rs:1600-1604`). An
  answer from before a re-pin passes for current if and only if the two slots agree modulo 2^32: in
  one and the same slot, or 2^32 slots apart (`RevealNecessity.Tier1StampsCollide`).

Three consequences of the code worth knowing. A reveal that lands in the middle of a refund stops both
ways out of the vault for good (`PotTheorem.LateRevealStopsBoth`; a six-step run gets there,
`PotTheorem.LateRevealIsReachable`); that and a player the cursor has passed
(`PotTheorem.SkippedIsReachable`) are the only two ways a refund can get stuck (`PotTheorem.RefundCanFinish`). A round can be finalized before it is fully scored. Nothing
can be queued after that, but callbacks check no status and the reveal only that the round is not open, so
the scores can still all arrive exactly when every missing one is in flight (`Scoring.FinalizedGateCanOpen`);
otherwise only a refund is left. And a re-pin of the automatic operator that is cut off before it has queued
again makes its next run fail at collect (`BracketDriver.InterruptedRepinStalls`; a round of three entries
gets there, `InterruptedRepin.InterruptedRepinIsReachable`).

## Model

| member | source | states |
|---|---|---|
| `Ranking.BetterRanksLower` | encrypted-ixs/src/lib.rs:862-879 | Beating a slot or an entry means a strictly smaller count of beaters, so the count orders exactly as the comparison does |
| `Ranking.RankInjective` | encrypted-ixs/src/lib.rs:862-879 | No two members of a set share a rank: ties are always settled |
| `Ranking.RankInRange` | encrypted-ixs/src/lib.rs:862-879 | A rank is smaller than the number of members ranked |
| `Ranking.EveryPlaceIsHeld` | tools/reveal-tiebreak-difftest/src/lib.rs:207-229 | Ranks are a permutation: place r is held if and only if r is below the number of members |
| `Ranking.TopThreeSize` | programs/secret-garden/src/lib.rs:1386-1397 | A set has exactly min(3, size) members in its first three places |
| `Ranking.CoversKeepsRank` | programs/secret-garden/src/state.rs:585-598 | A member of the podium keeps its rank in any subset that lost no podium member |
| `Ranking.CoversKeepsPodium` | programs/secret-garden/src/state.rs:585-598 | A subset that lost nobody from the first three has exactly the same first, second and third as the whole |
| `Ranking.CoversTransitive` | programs/secret-garden/src/lib.rs:1521-1531 | Covering is transitive, which is what lets tiers be stacked |
| `Ranking.TournamentCovers` | programs/secret-garden/src/state.rs:585-598 | Keeping the first three of every cell, however the cells cut up the whole, loses nobody from the podium of the whole |
| `Ranking.AscendingUnique` | programs/secret-garden/src/lib.rs:1208-1216 | A strictly ascending list is determined by its members |
| `Circuit.PodiumUnique` | encrypted-ixs/src/lib.rs:881-896 | There is only one correct answer to a reveal: slots and scores are determined by the keys |
| `Circuit.CompareUpperTriangle` | encrypted-ixs/src/lib.rs:849-860 | The comparison layer fills exactly one strict-greater bit for every unordered pair of slots |
| `Circuit.CountFromUpperTriangle` | encrypted-ixs/src/lib.rs:862-879 | Summing bits and negated bits of the upper triangle counts exactly the slots that beat slot i, for any width |
| `Circuit.RankByUpperTriangle` | encrypted-ixs/src/lib.rs:849-879 | Every slot receives the number of slots that beat it |
| `Circuit.RankByAllPairs` | encrypted-ixs/src/lib.rs:694-708 | The original comparator over all ordered pairs computes the same ranks |
| `Circuit.SelectTop` | encrypted-ixs/src/lib.rs:881-896 | Scanning for ranks 0, 1 and 2 finds the slots that hold those places, with their masked scores |
| `Circuit.RevealTop3V5` | encrypted-ixs/src/lib.rs:770-904 | Masking, composite key, upper triangle and selection together reveal the slots of places 0, 1 and 2 on score*8+rarity with ties to the lower slot, for any width from 3 up |
| `Circuit.PaddingNeverPlaces` | encrypted-ixs/src/lib.rs:840-848 | A padding slot never takes a place below the participant count, whatever the scores and rarities |
| `Circuit.CompositeIsLexicographic` | encrypted-ixs/src/lib.rs:820-825 | While rarities stay below 8 the composite key compares by score first and rarity only on equal scores; a rarity of 8 would be worth a point of score |
| `TopThreeForms.Old` | tools/reveal-top3-difftest/src/lib.rs:24-68 | The all-pairs form computes the one podium function, for every array and participant count |
| `TopThreeForms.V3` | tools/reveal-top3-difftest/src/lib.rs:187-242 | The upper-triangle form computes the same function |
| `TopThreeForms.New` | tools/reveal-top3-difftest/src/lib.rs:74-172 | The seeded single pass computes the same function: after i slots its registers hold the first three of the first i |
| `TopThreeForms.Oracle` | tools/reveal-top3-difftest/src/lib.rs:250-260 | The stable sort computes the same function |
| `TopThreeForms.LeadingArePlaced` | tools/reveal-top3-difftest/src/lib.rs:74-172 | Three registers that beat each other in turn and everything else hold the places 0, 1 and 2 |
| `TopThreeForms.UniformRarityIsScoreOnly` | tools/reveal-tiebreak-difftest/src/lib.rs:231-252 | With one common rarity the composite ranking places every slot as the score-only ranking does |
| `TopThreeForms.NeutralRuleHasNoWinner` | tools/reveal-tiebreak-difftest/src/lib.rs:254-272 | For three equal scores of rarity 1, 0 and 5 the rejected pairwise rule is a circle in which each slot is beaten by exactly one other; the composite key names the last |
| `TopThreeForms.OneSlotAlwaysWins` | encrypted-ixs/src/lib.rs:827-833 | Under any per-slot key exactly one slot is unbeaten |
| `Accounts.RevealNamesPodium` | programs/secret-garden/src/lib.rs:1241-1256 | The circuit run on sixteen padded slots of an ascending list names, among the list's own entries, the first, second and third by composite score and entry address |
| `Accounts.SlotRankIsEntryRank` | programs/secret-garden/src/lib.rs:1241-1246 | The rank of a slot among all sixteen, padding included, is the rank of its entry among the listed entries |
| `Accounts.PodiumSlotsDistinct` | programs/secret-garden/src/lib.rs:1381-1397 | Different places name different entries |
| `Partition.ForcedPartition` | programs/secret-garden/src/lib.rs:1073-1099 | Sizes that sum to the entry count plus at least that many entries found in every declared interval leave no room: every shard holds exactly its share and no entry is outside |
| `Partition.AcceptedFillsCell` | programs/secret-garden/src/lib.rs:1350-1375 | A list that passes a shard's own checks fills its interval; under a true partition it is the interval's entries in ascending order and nothing else |
| `Partition.IntervalsDisjoint` | programs/secret-garden/src/lib.rs:1092-1099 | Ascending bounds make the shard intervals disjoint |
| `Partition.BalancedSizesFit` | programs/secret-garden/src/lib.rs:1882-1897 | The balanced sizes are between 1 and the maximum and sum to the number of winners |
| `Partition.CountIsLeast` | programs/secret-garden/src/lib.rs:1884 | The number of slices is the fewest that can hold everything |
| `Partition.SliceAccepted` | programs/secret-garden/src/lib.rs:1973-1984 | A slice taken by index passes every check the bounds would make |
| `Partition.SliceLayoutExact` | programs/secret-garden/src/lib.rs:1887-1897 | Cutting a sorted list by index is a true partition of its members, slice by slice |
| `Instructions.ShardRunMeansAccepts` | programs/secret-garden/src/lib.rs:1208-1240 | The element-by-element checks of a supplied run succeed if and only if the run has the right first key, ascends, stays inside the interval, belongs to the round and (when queueing) is scored |
| `Instructions.FinalRunIsFinalistSet` | programs/secret-garden/src/lib.rs:1208-1221 | n strictly ascending accounts that are all finalists are the n finalists in ascending order: none dropped, none repeated; if the stored finalists already ascend they are unchanged |
| `Instructions.SliceRunIsSlice` | programs/secret-garden/src/lib.rs:1973-1984 | An accepted semifinal run is exactly the slice of the sorted winners |
| `Instructions.StepwiseAscending` | programs/secret-garden/src/lib.rs:1208-1216 | Comparing each account with the one before is enough for the whole run to ascend |
| `AccountState.SetBit` | programs/secret-garden/src/lib.rs:1398 | Setting bit k adds shard k to the collected set and nothing else |
| `AccountState.FullMaskIsAll` | programs/secret-garden/src/state.rs:650-657 | The mask equals 2^count - 1 if and only if exactly the shards below count are collected |
| `AccountState.BracketState.AllShardsCollected` | programs/secret-garden/src/state.rs:650-657 | Answers whether the collected set is all of the shards in use |
| `AccountState.BracketState.Pin` | programs/secret-garden/src/lib.rs:1101-1116 | The account holds the new layout, nothing collected, nothing queued or applied, and the next generation stamp |
| `AccountState.BracketState.PushFinalist` | programs/secret-garden/src/lib.rs:1393-1396 | Appends one finalist, or refuses on a full buffer and changes nothing |
| `AccountState.BracketState.StoreFinalOrder` | programs/secret-garden/src/lib.rs:1294-1302 | The stored finalists become the verified ascending list and the final is marked queued |
| `AccountState.RevealResult.Reset` | programs/secret-garden/src/lib.rs:1251-1257 | Queueing clears ready and error and writes the stamp; the old slots stay |
| `AccountState.RevealResult.Land` | programs/secret-garden/src/lib.rs:2201-2208 | A callback writes the podium and ready and never the stamp |
| `AccountState.Tier1State.AllShardsCollected` | programs/secret-garden/src/state.rs:760-764 | Answers whether every shard in use is flagged done |
| `AccountState.Tier1State.FindPosition` | programs/secret-garden/src/state.rs:778-787 | The early-stopping scan of a sorted buffer finds a present key, or the one place an absent key belongs |
| `AccountState.Tier1State.ShiftIn` | programs/secret-garden/src/state.rs:788-795 | Shifting from the tail opens a gap without overwriting anything |
| `AccountState.Tier1State.InsertWinnerSorted` | programs/secret-garden/src/state.rs:773-797 | In place: the winners become the ascending list of one more key, or the key is refused (present, or buffer full) and nothing changes |
| `AccountState.Tier1State.Pin` | programs/secret-garden/src/lib.rs:1606-1626 | The account holds the new layout, no winners, no shard done, not promoted, and the given stamp |
| `Handlers.CheckLayout` | programs/secret-garden/src/lib.rs:1070-1099 | The layout loops accept exactly: a legal shard count, sizes 1 to 13 summing to the participants, zeroed unused slots, strictly ascending bounds |
| `Handlers.CheckRun` | programs/secret-garden/src/lib.rs:1208-1240 | The account loop answers the first objection in the order the checks are made, or none |
| `Handlers.BuildArguments` | programs/secret-garden/src/lib.rs:1236-1279 | The circuit's arguments are the accepted accounts followed by the first of them again in every unused slot, with their rarities and the true count |
| `Handlers.RunReveal` | programs/secret-garden/src/lib.rs:1259-1292 | A cluster that runs the circuit on those arguments returns the podium of the queued list |
| `SingleTierHandlers.InitBracket` | programs/secret-garden/src/lib.rs:1041-1116 | Same answer as specified, and on success the freshly pinned bracket |
| `SingleTierHandlers.QueueShardReveal` | programs/secret-garden/src/lib.rs:1127-1305 | Same answer as specified for shards and for the final; on success the record is reset and stamped with the bracket's generation and the arguments are those of the accepted list |
| `SingleTierHandlers.PushWinners` | programs/secret-garden/src/lib.rs:1381-1397 | Resolves slots to entries one by one, refusing an out-of-range slot or a full buffer at the first that occurs |
| `SingleTierHandlers.CollectShardWinners` | programs/secret-garden/src/lib.rs:1314-1400 | Same answer as specified; on success exactly the shard's picked winners are appended and the shard is marked |
| `SingleTierHandlers.ApplyBracketResult` | programs/secret-garden/src/lib.rs:1408-1519 | Same answer as specified; on success top1..3 are the finalists the result names, the rest default, the round is revealed and the bracket applied |
| `SingleTierHandlers.RevealCallback` | programs/secret-garden/src/lib.rs:2187-2220 | A verified output lands on the record; an unverified one changes nothing |
| `TwoTierHandlers.InitTier1Bracket` | programs/secret-garden/src/lib.rs:1534-1628 | Same answer as specified, including the two-tier threshold and the winner capacity, and on success the freshly pinned tier 1 stamped with the low 32 bits of the slot |
| `TwoTierHandlers.QueueTier1ShardReveal` | programs/secret-garden/src/lib.rs:1655-1768 | Same answer as specified; on success record reset and stamped with tier 1's generation, arguments those of the accepted list |
| `TwoTierHandlers.InsertWinners` | programs/secret-garden/src/lib.rs:1840-1853 | Inserts the resolved winners in order and stops at the first refusal |
| `TwoTierHandlers.CollectTier1Winners` | programs/secret-garden/src/lib.rs:1773-1856 | Same answer as specified; on success the winners are the sorted union with the shard's three and the shard is done |
| `TwoTierHandlers.SemifinalPartition` | programs/secret-garden/src/lib.rs:1882-1897 | The cursor loop computes the balanced partition of the sorted winners: sizes in range and every bound the winner its slice starts with |
| `TwoTierHandlers.PromoteTier1` | programs/secret-garden/src/lib.rs:1864-1919 | Same answer as specified; on success the bracket is freshly pinned with the computed partition and tier 1 is promoted |
| `TwoTierHandlers.QueueSemifinalReveal` | programs/secret-garden/src/lib.rs:1930-2034 | Same answer as specified; the accepted accounts are exactly the slice of the sorted winners |
| `TwoTierHandlers.PickFromSlice` | programs/secret-garden/src/lib.rs:2082-2100 | Slots of a semifinal resolve by index into the sorted winners, refusing any outside the slice |
| `TwoTierHandlers.CollectSemifinalWinners` | programs/secret-garden/src/lib.rs:2040-2110 | Same answer as specified; on success the slice's picked winners are appended and the semifinal is marked |
| `RevealInvariant.PickedAreTopThree` | programs/secret-garden/src/lib.rs:1381-1397 | Resolving a podium's slots on the ranked list yields exactly that list's first three, in rank order |
| `RevealInvariant.AllCollectedCovers` | programs/secret-garden/src/lib.rs:1073-1099 | Once every shard is collected the layout was a true partition after all and the kept entries have the podium of the whole |
| `RevealSteps.PinBracketKeeps` | programs/secret-garden/src/lib.rs:1041-1116 | Pinning, first or again, keeps the invariant of the reveal when the new stamp is fresh |
| `RevealSteps.QueueShardKeeps` | programs/secret-garden/src/lib.rs:1127-1305 | Queueing a shard or the final, first or again, keeps it |
| `RevealSteps.CollectShardKeeps` | programs/secret-garden/src/lib.rs:1314-1400 | Collecting a shard keeps it: finalists stay exactly the first threes of the collected shards |
| `RevealSteps.PinTier1Keeps` | programs/secret-garden/src/lib.rs:1534-1628 | Pinning tier 1 keeps it |
| `RevealSteps.CloseTier1Keeps` | programs/secret-garden/src/lib.rs:1639-1649 | Closing tier 1 - accepted by anybody authorised until the reveal - keeps it, results in flight included |
| `RevealSteps.QueueTier1Keeps` | programs/secret-garden/src/lib.rs:1655-1768 | Queueing a tier-1 shard keeps it |
| `RevealSteps.CollectTier1Keeps` | programs/secret-garden/src/lib.rs:1773-1856 | Collecting a tier-1 shard keeps it: winners stay ascending, counted, and exactly the first threes of the done shards |
| `RevealSteps.PromoteKeeps` | programs/secret-garden/src/lib.rs:1864-1919 | Promotion keeps it: the semifinal partition is a true partition of winners that still cover the podium |
| `RevealSteps.QueueSemifinalKeeps` | programs/secret-garden/src/lib.rs:1930-2034 | Queueing a semifinal keeps it |
| `RevealSteps.CollectSemifinalKeeps` | programs/secret-garden/src/lib.rs:2040-2110 | Collecting a semifinal keeps it |
| `RevealTheorem.CallbackKeeps` | programs/secret-garden/src/lib.rs:2187-2220 | A callback keeps it, for whichever computation lands |
| `RevealTheorem.ApplyKeeps` | programs/secret-garden/src/lib.rs:1408-1519 | Applying keeps it |
| `RevealTheorem.AppliedTop` | programs/secret-garden/src/lib.rs:1446-1515 | What applying writes is the exact podium of all the round's entries, for one shard and for many |
| `RevealTheorem.StepFrame` | programs/secret-garden/src/lib.rs:1502-1515 | No step touches the entries, and a revealed result is never rewritten |
| `RevealTheorem.RunKeeps` | programs/secret-garden/src/lib.rs:1041-2111 | Every admissible run keeps the invariant |
| `RevealTheorem.RevealIsExact` | programs/secret-garden/src/lib.rs:1041-2111 | Single- and two-tier exactness: from an unstarted round, through any run whose accepted steps respect the three operator conditions - any accepted layouts, any order of shards, any number of re-pins, re-queues and re-promotions - whenever the round is revealed top1..3 are the first min(3, n) of all entries by score*8+rarity descending and address ascending, the rest default |
| `RevealTheorem.QueueAndCollectAgree` | programs/secret-garden/src/lib.rs:1350-1379 | Once all shards are collected, any list a shard's checks accept is the shard's entries in ascending order, so slot i named the same entry when queued and when collected |
| `RevealTheorem.Tier1ListsAgree` | programs/secret-garden/src/lib.rs:1774-1850 | The same for tier 1 once all its shards are done |
| `StaleResults.StaleResultsAreInert` | programs/secret-garden/src/lib.rs:1337-1342 | Through every admissible run from an unstarted round, whatever an accepted collect, tier-1 collect, semifinal collect or apply of the final takes from a record is what the circuit answers for a list the pins of that moment accept |
| `RevealTheorem.FinalRequeueIsHarmless` | programs/secret-garden/src/lib.rs:1294-1302 | Queueing the final again, whenever it is accepted, leaves the bracket unchanged |
| `EndgameDriver.FinalQueueIsDecided` | programs/secret-garden/src/lib.rs:1142-1302 | In every reachable state queueing the final, first or again, is accepted if and only if it is authorised, the round unrevealed, the bracket complete, of several shards and unapplied, and the accounts are the finalists in ascending order, all scored |
| `EndgameDriver.FinalRequeueIsDecided` | programs/secret-garden/src/lib.rs:1142-1302 | With the final queued, a second queue is accepted if and only if it is authorised, the round unrevealed, the bracket unapplied, and the accounts are the stored finalists, all scored |
| `RevealTheorem.OneShardKeepsRankOrder` | programs/secret-garden/src/state.rs:616-627 | A one-shard bracket never has a final queued, and its collected finalists are in rank order over all it ranks |
| `RevealTheorem.OnlyScoredEntriesAreRanked` | programs/secret-garden/src/lib.rs:1208-1240 | In every reachable state each computation in flight ranks at most 14 distinct, scored entries of this round: no stranger, no repetition, no unscored entry reaches the cluster |
| `RevealTheorem.AfterRevealOnlyCollects` | programs/secret-garden/src/lib.rs:1142-1145 | Once revealed, nothing is pinned, queued, closed or applied any more and the result stands; only collecting, promoting and callbacks are still accepted |
| `RevealGates.LayoutIsDecided` | programs/secret-garden/src/lib.rs:1069-1099 | The supplied arrays pass if and only if they are a layout of 1 to 13 entries a shard that sum to the total, with strictly ascending first keys, the sizes padded with zeros |
| `RevealGates.PinIsDecided` | programs/secret-garden/src/lib.rs:1047-1099 | With a true count a bracket can be pinned, first or again, if and only if the round is closed or finalized, unrevealed and fully scored, and the arrays declare such a layout of at most four shards of its entries |
| `RevealGates.Tier1PinIsDecided` | programs/secret-garden/src/lib.rs:1540-1600 | Tier 1 can be pinned if and only if there is none, the round is as above with more than 52 entries, and the arrays declare such a layout of at most seventeen shards: the winners always fit |
| `RevealGates.ShardQueueIsDecided` | programs/secret-garden/src/lib.rs:1132-1240 | In every reachable state a shard can be queued if and only if the round is unrevealed and the accounts are scored entries that are an ascending run of the declared size in its interval from its first key |
| `RevealGates.Tier1QueueIsDecided` | programs/secret-garden/src/lib.rs:1655-1770 | The same of an unpromoted tier 1 |
| `RevealGates.SemifinalQueueIsDecided` | programs/secret-garden/src/lib.rs:1930-1990 | In every reachable state a semifinal can be queued if and only if tier 1 is promoted, the round unrevealed, and the accounts are the scored winners of its interval in ascending order |
| `RevealGates.CloseIsDecided` | programs/secret-garden/src/lib.rs:1639-1653 | Tier 1 can be closed, whatever has been done with it, if and only if the round is unrevealed |
| `RevealProgress.ShardCollectNeverJams` | programs/secret-garden/src/lib.rs:1314-1400 | In every reachable one-tier state collecting succeeds if and only if its guards pass: slots are always in range and there is always room |
| `RevealProgress.Tier1CollectNeverJams` | programs/secret-garden/src/lib.rs:1773-1856 | The same for tier 1: insert_winner_sorted never refuses and no slot is out of range |
| `RevealProgress.WinnersAreShardWinners` | programs/secret-garden/src/state.rs:707-711 | With all shards done, in any collection order, the winners are the ascending list of exactly the shards' first threes |
| `RevealProgress.PromotionNeverJams` | programs/secret-garden/src/lib.rs:1877-1884 | Promotion succeeds if and only if it is authorised, tier 1 exists, is not promoted and is complete |
| `RevealProgress.PromotionIsBalanced` | programs/secret-garden/src/lib.rs:1882-1899 | The promoted sizes lie in 1..13, differ by at most one, sum to the winner count, number at most four, and bound k is the winner at start k |
| `RevealProgress.SemifinalCollectNeverJams` | programs/secret-garden/src/lib.rs:2040-2110 | Collecting a semifinal succeeds if and only if its guards pass; no index ever leaves the buffer |
| `RevealProgress.ApplyNeverJams` | programs/secret-garden/src/lib.rs:1408-1519 | Applying succeeds if and only if the bracket is complete, unapplied, unrevealed and the right record is live: a revealed slot always resolves |
| `RevealHypotheses.SingleTierIsExact` | programs/secret-garden/src/lib.rs:1112-1115 | For rounds of up to 52 entries and fewer than 2^32 steps stamps cannot collide, and exactness needs only that a record is not queued again while an older computation over another list can still write it |
| `RevealHypotheses.CountedStep` | programs/secret-garden/src/lib.rs:1112-1115 | The bracket's counter hands out a stamp nothing carries |
| `RevealHypotheses.NewSlotIsFresh` | programs/secret-garden/src/lib.rs:1600-1604 | A later slot within 2^32 of the first has a tier-1 stamp that no record, computation or tracker carries |
| `RevealHypotheses.TwoTierIsExact` | programs/secret-garden/src/lib.rs:1600-1604 | For rounds of 53 entries and more: tier 1 pinned at increasing slots within one 2^32 window, stamps above the bracket's counter, no requeue over another list still due, and semifinals collected as semifinals - then a revealed podium is exact |
| `RevealNecessity.TrustIsDecided` | programs/secret-garden/src/lib.rs:2201-2208 | In any state: a record can be trusted whatever order the cluster answers in if and only if it is trustworthy now and, if live, everything due at it would answer what the current pins rank |
| `RevealNecessity.PinIsSafe` | programs/secret-garden/src/lib.rs:1101-1116 | After any accepted pin or promotion, records and computations left behind stay trustworthy in every order of answers if and only if, as far as the new stamp makes them live, they rank what the new pins rank - stated on answers; in terms of lists it is DueLists.PinIsSafeByLists |
| `RevealNecessity.FreshPinIsSafe` | programs/secret-garden/src/lib.rs:1112-1115 | A stamp that nothing usable or due carries is enough for that |
| `RevealNecessity.QueueIsSafe` | programs/secret-garden/src/lib.rs:1251-1257 | After any accepted queue step, in every order the cluster may answer in, the reset record stays trustworthy if and only if everything still due at it would answer what the current pins rank - stated on answers; in terms of lists it is DueLists.QueueIsSafeByLists |
| `RevealNecessity.NoOtherListIsSafe` | programs/secret-garden/src/lib.rs:1251-1257 | What an operator can check beforehand is enough for that: everything due carries this stamp or ranks this list |
| `RevealNecessity.Tier1StampsCollide` | programs/secret-garden/src/lib.rs:1600-1604 | Pin, queue, close, pin again, answer: the answer passes for current if and only if the two slots agree modulo 2^32 |
| `DueLists.ListsDecide` | programs/secret-garden/src/lib.rs:1208-1246 | A list passes the checks of the pins if and only if, whatever the scores, its answer is the answer of some list that does: for every refused list - a stranger, a wrong first key, too long, too short, another set of finalists - there are scores that tell it apart from all accepted ones |
| `DueLists.TrustIsVisible` | programs/secret-garden/src/lib.rs:2201-2208 | A record can be trusted, whatever the scores and whatever order the cluster answers in, if and only if, should it read as live, the list it answers and every list still due at it pass the checks of the pins |
| `DueLists.QueueIsSafeByLists` | programs/secret-garden/src/lib.rs:1251-1257 | After any queue step accepted in a reachable state - shard, tier-1 shard, semifinal or final - that is so if and only if every list still due at the record before the call is the list queued or passes the checks of the pins there |
| `DueLists.PinIsSafeByLists` | programs/secret-garden/src/lib.rs:1101-1116 | After any pin or promotion accepted in a reachable state that is so if and only if, as far as the new stamp makes the record live, the list it answers and every list still due at it pass the checks of the new pins |
| `SafeRuns.StepSound` | programs/secret-garden/src/lib.rs:1041-2111 | Every step that meets these needs keeps the invariant of the reveal, whatever stamps computations in flight were queued under |
| `SafeRuns.SafeRunIsExact` | programs/secret-garden/src/lib.rs:1041-2111 | Exactness from no more than that: from an unstarted round, through any run whose queue steps and pins meet these list conditions - the two trackers' stamps apart, promoted brackets collected by the semifinal instruction - a revealed podium is the podium of all the entries |
| `SafeRuns.AdmissibleIsSafe` | programs/secret-garden/src/lib.rs:1041-2111 | Every run that respects the three simple operator conditions is such a run |
| `SafeRuns.AnsweredListExists` | programs/secret-garden/src/lib.rs:2201-2208 | In every state of such a run every usable record answers a list a call can rank |
| `MisrankedRuns.OverlappingQueuesMisrank` | programs/secret-garden/src/lib.rs:1251-1257 | A seven-step run, every step accepted, that neglects only the queueing condition and ends revealed with the best of three entries third |
| `MisrankedRuns.WrappedCounterMisranks` | programs/secret-garden/src/lib.rs:1112-1115 | A run that neglects only the freshness of a stamp, by 2^32 re-pins, with the same end |
| `MisrankedRuns.TwoEntriesPlaces` | encrypted-ixs/src/lib.rs:840-848 | Two entries among sixteen slots: the third revealed slot is the first padding slot |
| `LostWinner.LostStays` | programs/secret-garden/src/lib.rs:1314-1400 | An entry whose semifinal was collected without it stays out of the finalists and out of the podium through every step but a new promotion |
| `LostWinner.LostIsMisranked` | programs/secret-garden/src/lib.rs:1314-1400 | If such an entry belongs on the podium, every continuation without a new promotion that ends revealed ends wrong |
| `LostWinner.PlainCollectLoses` | programs/secret-garden/src/lib.rs:1314-1400 | In any reachable promoted state an accepted plain collect loses an entry of its interval if and only if its result does not name it |
| `LostWinner.PlainCollectDropsWinner` | programs/secret-garden/src/lib.rs:1314-1400 | In any reachable promoted state, queueing and collecting an accepted run of entries by the plain instructions goes through and loses every entry of the interval left out of that run |
| `PlainCollectRun.PlainCollectMisranks` | programs/secret-garden/src/lib.rs:1314-1400 | A whole run over 53 entries, every step accepted, that neglects only this condition once, ends revealed, and does not name the best entry |
| `Planner.CompareEntryKeys` | scripts/auto-cycle.ts:858-863 | The byte loop orders addresses exactly as the 32-byte big-endian numbers, and answers zero only for the same address |
| `Planner.SortEntriesByteWise` | scripts/auto-cycle.ts:866 | A sorted permutation of the input |
| `Planner.DistinctSorted` | scripts/auto-cycle.ts:866 | For distinct keys sorting yields the one strictly ascending list of them |
| `Planner.PlannedSizesAreBalanced` | scripts/auto-cycle.ts:874-880 | Floating-point ceiling and integer division agree: the client's sizes are the ones promote_tier1 computes |
| `Planner.PlanBracket` | scripts/auto-cycle.ts:907-944 | Refuses exactly no entries and more than 221; otherwise cuts the sorted entries into the balanced consecutive shards with their first keys; the shard-limit refusal is unreachable |
| `Planner.PlanPassesLayout` | programs/secret-garden/src/lib.rs:1073-1099 | For every set of 1 to 221 keys the padded plan passes every layout check of init_bracket or init_tier1_bracket, winner capacity included |
| `Planner.PlanPassesShardChecks` | programs/secret-garden/src/lib.rs:1208-1240 | Every planned shard list passes the length, first-key, ascending and next-bound checks, and the plan is a true partition |
| `Planner.PlannedSemifinals` | scripts/auto-cycle.ts:936-943 | A planned two-tier round yields three winners a shard, the planned semifinal sizes equal the promoted ones, and there are always two to four semifinals |
| `Planner.TwoTierShardsAreLarge` | scripts/auto-cycle.ts:868-880 | A planned two-tier round has at least five shards of at least nine entries |
| `Planner.PlanExists` | scripts/auto-cycle.ts:907-944 | Every ascending list of 1 to 221 keys has a plan of that shape |
| `TierDriver.QueueGoes` | scripts/auto-cycle.ts:1188-1195 | In a pinned tier every planned queue step is accepted and careful, and does nothing but reset a record and start a computation |
| `TierDriver.CollectGoes` | scripts/auto-cycle.ts:1206-1210 | In a pinned tier every collect of an answered shard is accepted and adds exactly that shard |
| `TierDriver.RunTier` | scripts/auto-cycle.ts:1160-1211 | One pass from whatever was left: shards without a usable result are queued (all of them after a re-pin), answered, and all uncollected ones collected; if no uncollected usable result is stale, nothing is refused and every shard ends collected |
| `TierDriver.StaleBlocksPass` | scripts/auto-cycle.ts:1174-1186 | A usable but stale result left uncollected is not queued again, and its collect is refused |
| `TierDriver.PassGoesThrough` | scripts/auto-cycle.ts:1160-1211 | So a pass is never refused if and only if it is forced or no uncollected usable result carries another stamp, for each of the three tiers |
| `TierDriver.LetLand` | scripts/auto-cycle.ts:1178-1185 | Whatever is in flight at the start can land in the grace wait, pins and invariant unchanged |
| `EndgameDriver.FinalRunAccepted` | scripts/auto-cycle.ts:1408-1425 | The finalists sorted by address are always accepted as the accounts of the final |
| `EndgameDriver.RunEndgame` | scripts/auto-cycle.ts:1394-1452 | From a complete bracket the endgame is never refused and reveals the round |
| `EndgameDriver.EndgameGoesThrough` | scripts/auto-cycle.ts:1404-1445 | It is never refused if and only if the record it will apply is current: the lone shard's, or that of a final queued earlier; a final not yet queued needs nothing |
| `EndgameDriver.FinalGoesRegardless` | scripts/auto-cycle.ts:1408-1452 | The final and apply steps accept any distinct scored finalists, rightly collected or not |
| `SingleTierDriver.RunSingleTier` | scripts/auto-cycle.ts:1213-1263 | From any resting one-tier state: pin, or keep the matching partition, or re-pin and trust no older result; never refused exactly when nothing it trusts is out of date, and then every shard is collected |
| `TwoTierDriver.RunFirstTier` | scripts/auto-cycle.ts:1265-1336 | From any resting unpromoted state: keep, pin, or close and re-pin tier 1, one pass, promotion; never refused exactly when open, and then at least two planned semifinals stand pinned |
| `TwoTierDriver.RunTwoTier` | scripts/auto-cycle.ts:1265-1381 | The same from any state, promoted ones included, through the semifinals: never refused exactly when both passes are open |
| `BracketDriver.RunBracketReveal` | scripts/auto-cycle.ts:1383-1452 | From wherever the round stands, on a cluster that answers: the operator's next run is never refused if and only if what it will trust is current; and then it respects every operator condition and ends in the exact podium |
| `BracketDriver.PlannedRoundIsRevealed` | scripts/auto-cycle.ts:1387-1392 | What the client plans from the round's entry keys, in any order, is run to the exact podium at any slot |
| `BracketDriver.FirstPin` | scripts/auto-cycle.ts:1224-1231 | Plan, pad and pin: the instruction so built is accepted, and is the first of that run |
| `BracketDriver.EveryScoredRoundIsRevealable` | scripts/auto-cycle.ts:1383-1452 | Every closed, fully scored round of 1 to 221 entries has, for every clock slot but those congruent to 1, a run accepted at every step that ends in its exact podium |
| `BracketDriver.InterruptedRepinStalls` | scripts/auto-cycle.ts:1096 | A re-pin cut off before it queues: the run would have gone through, but the next one takes the older results for current and is refused |
| `InterruptedRepin.InterruptedRepinIsReachable` | scripts/auto-cycle.ts:1096 | Three entries pinned as two shards, the first queued and answered: every step is accepted and careful, the operator's run would go through, and after a re-pin that is cut off the next one is refused at every slot |
| `OperatorFields.PreparesOnce` | scripts/auto-cycle.ts:1125-1131 | Told from the fields of the accounts: over a bracket or tier 1 whose every shard has the planned size and first key, and over a promoted tier 1, the operator closes and pins nothing; where there is none it pins once, over another tier 1 it closes once and pins once; all of it first, and nothing of it later in the run |
| `OperatorFields.FinalIsPlanned` | scripts/auto-cycle.ts:936-943 | The plan announces a final exactly when the bracket it leads to has several shards |
| `OperatorFields.RecognisedTier1IsKept` | scripts/auto-cycle.ts:1265-1299 | A tier 1 it recognises, or a promoted one, keeps its stamp, its layout and every collected shard and winner at every moment of the run, refused or not |
| `OperatorFields.Tier1PassDecided` | scripts/auto-cycle.ts:1160-1211 | In the tier-1 pass a shard is queued if and only if another partition was cleared or its record holds no usable result, and collected if and only if it is not done in the partition that stays |
| `OperatorFields.ShardPassDecided` | scripts/auto-cycle.ts:1160-1211 | The same of a one-tier round |
| `LoneSemifinal.LoneSemifinalStalls` | scripts/auto-cycle.ts:1394-1403 | Tier 1 pinned as 13, 13, 13, 13, 1 is accepted, promotes to one semifinal, and from there the automatic operator is refused at every slot |
| `Settlement.BatchDecided` | programs/secret-garden/src/instructions/refund_unrevealed_pot.rs:289-345 | A batch is let through if and only if it is pairs of an entry of this round and a token account of that entry's own player in the game's mint, strictly ascending past the cursor, and no more of them than the vault can pay |
| `Settlement.FrozenTermsAreFair` | programs/secret-garden/src/instructions/refund_unrevealed_pot.rs:207-260 | Whatever the vault holds: everybody is owed the same, the fee or the most the vault can pay all of them, the rest is surplus, and a refund of nothing is over at once |
| `Settlement.PayoutDecided` | programs/secret-garden/src/instructions/distribute_pot.rs:188-212 | A distribution is let through if and only if its pairs are the winners' entries in rank order, each with a token account of that entry's own player in the game's mint |
| `Settlement.SharesExhaustPot` | programs/secret-garden/src/instructions/distribute_pot.rs:169-179 | The shares sum to the whole pot, whatever the pot and the number of winners |
| `Settlement.SharesAreFair` | programs/secret-garden/src/instructions/distribute_pot.rs:166-179 | Every share is at least one unit and the last exceeds the others by less than the number of winners |
| `PotHandlers.RoundSettlement.Freeze` | programs/secret-garden/src/instructions/refund_unrevealed_pot.rs:207-260 | The first batch fixes entrant count, per-head figure, pot and surplus as specified, or ends the refund when there is nothing to hand back |
| `PotHandlers.PayBatchInPlace` | programs/secret-garden/src/instructions/refund_unrevealed_pot.rs:289-359 | The batch loop pays exactly the specified pairs and advances settlement and cursor, or answers the first objection |
| `PotHandlers.RefundUnrevealedPot` | programs/secret-garden/src/instructions/refund_unrevealed_pot.rs:150-375 | Same answer as specified; on success the specified settlement, balance and transfers |
| `PotHandlers.PayWinners` | programs/secret-garden/src/instructions/distribute_pot.rs:188-228 | The payout loop pays each revealed winner its share and drains the vault, or answers the first objection |
| `PotHandlers.DistributePot` | programs/secret-garden/src/instructions/distribute_pot.rs:92-239 | Same answer as specified; on success the specified settlement, balance and transfers |
| `PotHandlers.ClosePotVault` | programs/secret-garden/src/instructions/close_pot_vault.rs:112-216 | Closable exactly when settled for good, or finalized without entrants; sweeps the live balance |
| `PotRun.EnterKeeps` | programs/secret-garden/src/instructions/submit_entry.rs:174-264 | An entry adds one participant, one entry and one fee |
| `PotRun.FrozenFee` | programs/secret-garden/src/instructions/refund_unrevealed_pot.rs:225-251 | Frozen in any reachable state the per-head figure is the entry fee itself and the surplus is exactly the donations so far |
| `PotRun.BatchPays` | programs/secret-garden/src/instructions/refund_unrevealed_pot.rs:295-345 | What an accepted batch transfers - told from the accounts supplied - goes entry by entry to that entry's own player, at the fee |
| `PotRun.BatchExtends` | programs/secret-garden/src/instructions/refund_unrevealed_pot.rs:289-372 | A batch extends the refunds by exactly those entries at the fee and completes the refund when the count is full |
| `PotTheorem.RunKeeps` | programs/secret-garden/src/instructions/refund_unrevealed_pot.rs:200-372 | Every step of a pot keeps its books: conservation, one fee per entry, sound refunds, winners named only after a reveal |
| `PotTheorem.PotIsConserved` | programs/secret-garden/src/instructions/refund_unrevealed_pot.rs:200-261 | In every reachable state fees + donations == vault + paid + refunded + swept, fees are one fixed fee per entry, and payouts and refunds never both happened |
| `PotTheorem.SettledForever` | programs/secret-garden/src/instructions/distribute_pot.rs:121-128 | Paid and refunded are never left, and nothing more is paid or refunded after them |
| `PotTheorem.RefundFiguresAgree` | programs/secret-garden/src/instructions/refund_unrevealed_pot.rs:343-372 | Throughout a refund total_settled == per_entrant * recipient_count == what was actually transferred |
| `PotTheorem.RefundedPaysEachOnce` | programs/secret-garden/src/instructions/refund_unrevealed_pot.rs:361-372 | A finished refund has credited, for every entry of the round exactly once, a token account of its own player with exactly the fee; what is left or swept is exactly the donations |
| `PotTheorem.BatchShapeIsIrrelevant` | programs/secret-garden/src/instructions/refund_unrevealed_pot.rs:186-372 | Two refunds of a finalized round, batched and interleaved with donations in any two ways, have made exactly the same payments |
| `PotTheorem.RefundStaysSolvent` | programs/secret-garden/src/instructions/refund_unrevealed_pot.rs:323-372 | The solvency check and the closing arithmetic of a refund never fail in a reachable state |
| `PotTheorem.SkippedNeverRefunded` | programs/secret-garden/src/instructions/refund_unrevealed_pot.rs:295-372 | Once the cursor has passed an unpaid entry no continuation completes the refund, and the vault can never be closed over that player |
| `PotTheorem.SkippedIsReachable` | programs/secret-garden/src/instructions/refund_unrevealed_pot.rs:295-313 | A five-step run of two entries gets there: the first batch refunds the second entry, and the first is passed over |
| `PotTheorem.LateRevealStopsBoth` | programs/secret-garden/src/instructions/refund_unrevealed_pot.rs:159-164 | A reveal in the middle of a refund stops refunds and distribution for good while the vault keeps its balance |
| `PotTheorem.RefundCanFinish` | programs/secret-garden/src/instructions/refund_unrevealed_pot.rs:159-313 | A refund under way can still be completed if and only if nothing has been revealed, the mint is set and every unpaid entry lies past the cursor: one batch then finishes it, and there is no third way to get stuck |
| `PotTheorem.LastBatchFinishes` | programs/secret-garden/src/instructions/refund_unrevealed_pot.rs:289-372 | That batch, the unpaid entries in ascending order with their players' accounts, is accepted and closes the refund |
| `PotTheorem.LateRevealIsReachable` | programs/secret-garden/src/instructions/refund_unrevealed_pot.rs:159-164 | A six-step run of two entries gets there, with one player refunded and the other not |
| `PotTheorem.DistributionDrains` | programs/secret-garden/src/instructions/distribute_pot.rs:141-237 | A distribution credits token accounts of min(3, n) >= 1 distinct revealed winners' own players, at least one unit each, equal but for the last, drains the vault to zero and books pot and number of winners |
| `PotTheorem.RefundIsDecided` | programs/secret-garden/src/instructions/refund_unrevealed_pot.rs:150-345 | In every reachable state a refund batch is accepted if and only if it is authorised, the round finalized, unrevealed and a week past its deadline, nothing else decided, and - with entrants - the batch is pairs of a not yet refunded entry past the last one and its player's account, no more than are left |
| `PotTheorem.RefundRecord` | programs/secret-garden/src/instructions/refund_unrevealed_pot.rs:207-372 | After an accepted batch the account says how many have been refunded, for how much in all, up to which entry, of which pot and surplus, and when it began and ended |
| `PotTheorem.DistributionIsDecided` | programs/secret-garden/src/instructions/distribute_pot.rs:92-212 | In every reachable state a distribution is accepted if and only if it is authorised, the round finalized and revealed, nothing decided, and exactly its min(3, n) winners are supplied in rank order, each beside its own player's account |
| `PotTheorem.DistributionPaysAllOrNothing` | programs/secret-garden/src/instructions/distribute_pot.rs:141-239 | In any state: without winners or balance a distribution settles for nothing, a balance of fewer units than winners is refused, else every winner gets at least one unit and nothing is left |
| `PotTheorem.CloseIsDecided` | programs/secret-garden/src/instructions/close_pot_vault.rs:112-216 | In every reachable state the vault can be closed if and only if the settlement is complete or the finalized round had no entrants, and then its whole balance is swept |
| `PotTheorem.SettledOnce` | programs/secret-garden/src/instructions/distribute_pot.rs:121-128 | Once something has been decided, every other way out is refused by the name of what was decided |
| `PotTheorem.EnterIsDecided` | programs/secret-garden/src/instructions/submit_entry.rs:177-210 | In every reachable state an entry is accepted if and only if the round is open, before its deadline and not full, the address new and the fee there; it is then its player's |
| `PotTheorem.EntriesAreEntered` | programs/secret-garden/src/instructions/submit_entry.rs:228-256 | Over every run the round's entries are exactly the accepted ones, each belonging to the player who entered it: the player who is refunded or paid |
| `PotTheorem.DistributionNeverTooSmall` | programs/secret-garden/src/instructions/distribute_pot.rs:166-167 | The pot of a revealed round is never too small to split |
| `PotTheorem.WinnersOfNamed` | programs/secret-garden/src/instructions/distribute_pot.rs:141-148 | The non-default places of a reveal are distinct entries and number min(3, n) |
| `Scoring.QueuedUntilReleased` | programs/secret-garden/src/lib.rs:952-1023 | Whatever happens to other entries, a queued entry stays queued since its own time, and cannot be queued again, until its computation answers or a cancel comes at least 600 seconds later |
| `Scoring.AnswerKeeps` | programs/secret-garden/src/lib.rs:2120-2152 | The count moves by one exactly when the answered entry had no score before |
| `Scoring.ScoredCountIsTrue` | programs/secret-garden/src/lib.rs:2113-2118 | With any number of computations in flight per entry the count is the number of scored entries and never saturates |
| `Scoring.GateMeansAllScored` | programs/secret-garden/src/lib.rs:1065-1068 | scored_count == participant_count if and only if every entry is scored |
| `Scoring.ScoreIsFinal` | programs/secret-garden/src/lib.rs:2125-2127 | A stored score never changes |
| `Scoring.ScoreIsFirstAnswer` | programs/secret-garden/src/lib.rs:2120-2152 | Over every run the score stored for an entry is exactly what the first successful answer for it delivered, and none before that |
| `Scoring.FailedAnswerFrees` | programs/secret-garden/src/lib.rs:2145-2149 | A failed answer stores the error and nothing else, and the entry can be queued again at once |
| `Scoring.QueueIsDecided` | programs/secret-garden/src/lib.rs:952-1023 | An entry can be queued if and only if the round is closed, the entry unscored and not queued; then it is queued since that moment and one more computation is due for it |
| `Scoring.CancelIsDecided` | programs/secret-garden/src/lib.rs:2164-2182 | A queued entry can be given back by hand if and only if its computation is 600 seconds overdue, and the computation stays due |
| `Scoring.DueIsStartedLessEnded` | programs/secret-garden/src/lib.rs:952-1023 | Over every run the computations due for an entry are those started for it less those answered or lost |
| `Scoring.GateStaysOpen` | programs/secret-garden/src/lib.rs:1065-1068 | Once open on a closed round the gate stays open over the same entries and scores |
| `Scoring.StuckScoreIsRecoverable` | programs/secret-garden/src/lib.rs:2164-2179 | While the round is closed an unscored entry can always be queued again: at once when it is free, after a cancel once the timeout has passed |
| `Scoring.UnscoredAtFinalizationIsFinal` | programs/secret-garden/src/lib.rs:957-960 | An entry unscored and with nothing in flight when the round is finalized stays unscored, and the gate stays shut for good |
| `Scoring.FinalizedGateCanOpen` | programs/secret-garden/src/lib.rs:2120-2152 | A finalized round can still reach scored_count == participant_count if and only if every unscored entry has a computation in flight |
| `ScoringHandlers.ScoredRound.SubmitEntry` | programs/secret-garden/src/instructions/submit_entry.rs:182-188 | Adds a fresh entry account and one participant and keeps the counters true, or answers why not and changes nothing |
| `ScoringHandlers.ScoredRound.QueueScoreEntry` | programs/secret-garden/src/lib.rs:952-1023 | Same answer as specified; on success that one entry is marked and a computation started, the counters stay true, and no other account changes |
| `ScoringHandlers.ScoredRound.ScoreEntryCallback` | programs/secret-garden/src/lib.rs:2120-2152 | The round afterwards is the specified one: the entry scored or marked as failed, the count raised exactly with a first score, the counters still the sets they count |
| `ScoringHandlers.ScoredRound.CancelStuckScore` | programs/secret-garden/src/lib.rs:2164-2182 | Same answer as specified; on success the entry is free again and nothing else has changed |
| `BreedingHandlers.PlayerProfile.RegisterBreedAttempt` | programs/secret-garden/src/state.rs:205-216 | Counts attempts per round with a lazy reset and refuses the sixth |
| `BreedingHandlers.FlowerRecord.RegisterBreedAsParent` | programs/secret-garden/src/state.rs:341-348 | Spends one of three uses, or refuses and spends nothing |
| `BreedingHandlers.StartBreeding` | programs/secret-garden/src/lib.rs:405-722 | Same answer as specified; on success both parents are committed and locked and profile, experiment and offspring are the specified ones |
| `BreedingHandlers.BreedCallback` | programs/secret-garden/src/lib.rs:832-922 | Resolves an unprocessed experiment once, freeing both parents, and leaves everything of a processed one as it is |
| `BreedingSteps.StartKeeps` | programs/secret-garden/src/lib.rs:405-722 | A start keeps the invariant: parents apart, counters, cap and both budgets |
| `BreedingSteps.ResolveKeeps` | programs/secret-garden/src/lib.rs:870-919 | Success, failure and expiry keep it |
| `BreedingSteps.RemoveKeeps` | programs/secret-garden/src/lib.rs:771-823 | Reclaim and deletion keep it |
| `BreedingSteps.RunKeeps` | programs/secret-garden/src/lib.rs:405-922 | Every interleaving keeps it |
| `BreedingTheorem.CountersAreTrue` | programs/secret-garden/src/lib.rs:711-719 | active_experiment_count is the number of unresolved experiments, total_flowers is 6 plus the live hybrids (never more than 20), every flower - deleted or not - is named as parent in at most 3 starts, every wallet starts at most 5 a round |
| `BreedingTheorem.OneExperimentAtATime` | programs/secret-garden/src/lib.rs:605-607 | A flower is a parent in at most one unresolved experiment and locked while it is |
| `BreedingTheorem.ResolvingCountsOnce` | programs/secret-garden/src/lib.rs:750-757 | Resolving takes exactly one off a positive count and gives both parents back |
| `BreedingTheorem.RemovingCountsOnce` | programs/secret-garden/src/lib.rs:759-823 | Reclaiming or deleting removes one hybrid of its owner and takes exactly one off a count above the six starters: no subtraction ever saturates |
| `BreedingTheorem.StartersStay` | programs/secret-garden/src/lib.rs:789-823 | No starter is ever deleted or reclaimed, through any run |
| `BreedingTheorem.LateAnswersDoNothing` | programs/secret-garden/src/lib.rs:834-840 | A late answer to a resolved experiment, or a second cancel, changes nothing at all |
| `BreedingTheorem.ResolvedForever` | programs/secret-garden/src/lib.rs:834-840 | A resolved experiment keeps its outcome through every continuation |
| `BreedingTheorem.StartNeverCollides` | programs/secret-garden/src/lib.rs:2836-2863 | The addresses of a new experiment and offspring are never already taken |
| `BreedingTheorem.StartIsDecided` | programs/secret-garden/src/lib.rs:436-640 | In every tended garden a start is accepted if and only if the wallet has a profile, the parents are two different active flowers of its own outside their cooldown, each named in fewer than 3 starts, the wallet has made fewer than 5 starts this round and owns fewer than 20 hybrids |
| `BreedingTheorem.StartLocksThree` | programs/secret-garden/src/lib.rs:601-719 | A start queues one experiment over its two parents, locks both, creates its offspring as a locked hybrid of the wallet, and touches no other flower |
| `BreedingTheorem.AnswerDecides` | programs/secret-garden/src/lib.rs:832-922 | An answer to an unresolved experiment is always taken: success completes it and releases the offspring, failure leaves the offspring locked |
| `BreedingTheorem.RecoveryIsAlwaysOpen` | programs/secret-garden/src/lib.rs:731-757 | An experiment can be expired if and only if it is unresolved and 600 seconds old; its offspring stays locked |
| `BreedingTheorem.ReclaimIsAlwaysOpen` | programs/secret-garden/src/lib.rs:771-774 | An offspring can be reclaimed if and only if its experiment failed or expired and it still exists |
| `BreedingTheorem.CloseIsDecided` | programs/secret-garden/src/lib.rs:776-823 | A flower can be deleted if and only if it is an active hybrid of its owner that was never minted |
| `BreedingTheorem.StartersCanBreed` | programs/secret-garden/src/state.rs:185-216 | A new wallet gets exactly six flowers, any two of which can breed at once |
| `Schedule.RoundEndTime` | programs/secret-garden/src/instructions/open_round.rs:179-199 | The deadline is an anchor instant at least 12 h and less than 36 h away, for every integer time |
| `Schedule.ComputeRoundEndTime` | programs/secret-garden/src/instructions/open_round.rs:179-199 | The skip-forward arithmetic computes that deadline |
| `Schedule.DeadlineIsUnique` | programs/secret-garden/src/instructions/open_round.rs:160-167 | An instant is the deadline if and only if it is a ten o'clock UTC at least 12 and less than 36 hours away |
| `Schedule.DeadlineMonotone` | programs/secret-garden/src/instructions/open_round.rs:179-199 | Opening later never brings the deadline forward |
| `Schedule.NextDeadline` | programs/secret-garden/src/instructions/open_round.rs:169-176 | The next deadline is exactly a day later if and only if the operator took at most twelve hours |
| `Schedule.DeadlinesKeepTheDay` | programs/secret-garden/src/instructions/open_round.rs:169-176 | With overheads of up to twelve hours every later deadline is the first plus whole days, by induction over the schedule |
| `Schedule.SchedulesReconverge` | programs/secret-garden/src/instructions/open_round.rs:163-167 | Any two schedules with overheads of up to twelve hours, opened at any two times, fall on the same deadlines from the later one's first on |
| `Schedule.CooldownOutlastsRound` | programs/secret-garden/src/state.rs:318-321 | A flower transferred while a round is open stays in cooldown until that round has ended |
| `Schedule.GateIsThreshold` | programs/secret-garden/src/instructions/open_round.rs:243-247 | The Mutant gate opens for gate bytes up to the weight, none at weight 0 |
| `Schedule.GateRate` | programs/secret-garden/src/instructions/open_round.rs:215-218 | Counted: none of the 256 gate bytes at weight 0, weight + 1 of them otherwise; the documented rate weight / 255 holds if and only if the weight is 0 or 255 |
| `Schedule.BuildPool` | programs/secret-garden/src/instructions/open_round.rs:249-260 | The pool is all ids in order, without Mutant when the gate is shut |
| `Schedule.CooldownIsDecided` | programs/secret-garden/src/state.rs:318-321 | A flower cools down exactly until the deadline a round opened at its transfer would have; one never transferred does not |
| `Schedule.SelectTargetTraits` | programs/secret-garden/src/instructions/open_round.rs:238-274 | The in-place swaps pick, byte by byte, the id at that position of what is left of the pool, as many as the first byte says, and leave the unused slots zero |
| `Schedule.DrawnIsPicked` | programs/secret-garden/src/instructions/open_round.rs:262-271 | Swapping within the pool and picking from what is left of it are the same draw |
| `Schedule.FirstTwoTargets` | programs/secret-garden/src/instructions/open_round.rs:238-274 | The first two targets, read off the entropy bytes and the gate |
| `Schedule.TargetsAreDecided` | programs/secret-garden/src/instructions/open_round.rs:238-274 | A list of traits is what some entropy targets if and only if it is two to four different traits, without Mutant if the weight is zero |
| `Schedule.DrawnIsPermutation` | programs/secret-garden/src/instructions/open_round.rs:262-271 | Every draw leaves the pool a permutation of itself |
| `Schedule.TargetsAreDistinct` | programs/secret-garden/src/instructions/open_round.rs:238-274 | For all entropy and weights: two to four distinct trait ids in range, Mutant only through the gate |
| `Schedule.WeightExtremes` | programs/secret-garden/src/instructions/open_round.rs:227-235 | Weight 0 never targets Mutant and weight 255 draws exactly as the unweighted algorithm |
| `RoundLife.GateOpensReveal` | programs/secret-garden/src/lib.rs:1065-1068 | Whatever scoring went through, equal counters on a closed round mean every entry the reveal ranks is scored |
| `RoundLife.ScoredRoundIsRevealed` | scripts/auto-cycle.ts:1383-1452 | From such a round the automatic operator reaches the exact podium |
| `RoundLife.ExactTopNamesWinners` | programs/secret-garden/src/lib.rs:1446-1515 | An exact podium names distinct entries for min(3, n) places |
| `RoundLife.RevealFeedsPot` | programs/secret-garden/src/instructions/distribute_pot.rs:135-148 | Every reveal an admissible run can end in is one the pot accepts, and records as it is |
| `RoundLife.PodiumIsPaid` | programs/secret-garden/src/instructions/distribute_pot.rs:141-237 | The i-th payment of a distribution goes to the player whose entry holds place i among all entries of the round |

## Left out

- RevealTheorem.RevealIsExact: its three conditions are simple to keep; `SafeRuns.SafeRunIsExact` asks only what `DueLists` shows each queue and pin to need, and `LostWinner` says what a plain collect of a promoted bracket loses. A run in which a step falls short of that may still end exact by luck of the scores, so no equivalence over whole runs is stated.
- Encryption, MACs, signatures, computation definitions and fees of the cluster: a computation is the plain circuit plus an arbitrary delay or loss.
- Account plumbing: address derivation, rent, discriminators, reallocation, migrations and the round-matches-bracket address checks.
- NFT minting, burning, freezing and thawing, and ownership sync: flowers do not change hands in the breeding model, so nothing is claimed about `total_flowers` across transfers.
- Operator lists, authority transfer, pause flags and config initialisation: authorisation is one boolean, a paused instruction is not modelled.
- Score formula, rarity roll, visual mask, trait table conditions and private hints: small finite computations that no theorem here needs.
- Integer widths of counters that are provably small: the pot uses unbounded naturals, and what it computes stays within the vault's own balance; `scored_count` (saturating) and the generation stamps (wrapping) are modelled at their width.
- `(u32)` truncation of the round number in the per-round breeding counter: rounds are taken to number fewer than 2^32.
- An entry fee raised by a program upgrade while rounds are open: `Settlement.FreezeTerms` has the fallback, the run theorems keep one fee.
- The emitted events and the revealed scores after `apply_bracket_result`.
- Which of a player's token accounts is credited: a transfer is booked by the owner and mint of the account supplied, not by its address.
- Liveness of the pot.
- A tier-1 account that no longer decodes after a program upgrade (`scripts/auto-cycle.ts:1105-1124`), and runs of the operator that re-pin while computations are still due: the driver theorems start with nothing due.
- Retries, polling, file locks, storage and logging of the scripts: the driver is its sequence of instructions.
- The sort in `scripts/auto-cycle.ts:866` is a library call: `Planner.SortEntriesByteWise` stands for it and promises only a sorted permutation.
- `release_flower`, `claim_starters`, `close_round`, `finalize_round`, `cancel_expired_experiment`, `reclaim_dead_offspring`, `close_flower` and `close_tier1_bracket` appear as steps of the runs with their guards and effects on the modelled fields, not as separate handlers; of `submit_entry` there is a handler only for what scoring sees.
- Which error wins when a semifinal index would leave the winners buffer: any such call fails, as `IndexPanic`; no reachable state makes one.
