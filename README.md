# Reloop reward handler — Dafny model

Reloop is a serverless backend for a recycling-rewards service. Users drop
devices into bins. Each drop is recorded on the Cardano ledger and is quoted
an estimated ADA reward that depends on how hazardous the device is; the
amount actually paid out is decided on-chain by a validator that is not part
of this model. Almost all of the
handler forwards calls to a custodial-wallet SDK and a ledger SDK. This
model covers the two parts that carry logic of their own.

- **Reward policy** (`reward_policy.dfy`, module `RewardPolicy`). A fixed
  table maps a device type to a risk tier. A second table maps the tier name
  to a multiplier of the 2 ADA base reward. Both lookups are total. An
  unknown device type is `Safe`, and an unknown tier name gets multiplier 1.
- **Batch processing** (`batching.dfy`, module `Batching`;
  `batch_process.dfy`, module `BatchProcessor`). The admin handler takes the
  snapshot of pending drops and cuts it into batches of 10. It submits each
  batch's drop ids to the ledger as one reward-distribution transaction and
  records `{batch, dropsProcessed, transactionHash}` for each batch.
  `Batching.Partition` is the reference definition of the cut. Its lemmas
  give the batch count (the ceiling of N/10), the batch sizes, each batch's
  position, and coverage in order. `BatchProcessor.BatchProcess` is the
  handler. `BatchProcessor.SubmitBatches` is its loop. Both are proved
  against `Partition`.

The collaborators are parameters:

- The pending-drops query becomes the input `snapshot`, either a list of
  drops or the error it threw.
- The batch submitter becomes the input `ledger`. It is a function from the
  call's index in the run and the batch's drop ids to a transaction hash or
  an error, so it can accept or reject any call.
- The submissions the run makes are returned as `calls`, in call order.

Three behaviours worth noting, which the model keeps as the code has them:

- A rejected batch aborts the whole run. The exception reaches the
  handler's `catch`, the response is a 500 carrying only the error, and
  no later batch is submitted. Per-batch failure isolation, where later
  batches still run, is not what the code does.
- An unknown device type silently gets the `Safe` tier. It is not rejected.
- A `power_bank` drop is quoted an estimated reward of 2 × 3 = 6 ADA.

The file's tail is malformed: line 261 has stray text after the `export`,
and lines 261-263 are a leftover fragment of a catch block. The model
ignores those fragments.

## Model

| member | source | states |
|---|---|---|
| RewardPolicy.EnvironmentalRisk | backend/reloop.js:180-190 | The tier is VeryHighRisk exactly for `power_bank` and `laptop_battery`, HighRisk exactly for `laptop`, and MediumRisk exactly for `smartphone`. Every other device type, unknown ones included, is Safe. LowRisk is never produced. |
| RewardPolicy.CalculateReward | backend/reloop.js:192-202 | The reward is 2 × the tier's multiplier for every string, stated without the table: 6 for `VeryHighRisk`, 4 for `MediumRisk` and `HighRisk`, and 2 for `Safe`, `LowRisk` and every string not in the table. So it is always 2, 4 or 6, and it is 6 exactly for `VeryHighRisk`. |
| RewardPolicy.TierNamesInTable | backend/reloop.js:180-201 | Every tier the risk lookup can produce has a non-zero entry in the multiplier table, so its reward never comes from the fallback. |
| RewardPolicy.RewardMonotone | backend/reloop.js:194-201 | A tier placed later in the multiplier table (more hazardous) never pays less than an earlier one. |
| RewardPolicy.DeviceReward | backend/reloop.js:180-202 | Composing the two lookups gives 6 for `power_bank` and `laptop_battery`, 4 for `laptop` and `smartphone`, and 2 for every other device type, unknown ones included. |
| Batching.PartitionLength | backend/reloop.js:69 | The partition has exactly ceil(N/10) batches. |
| Batching.PartitionIndex | backend/reloop.js:69 | Batch k exists exactly when index k·10 is still inside the snapshot, which is the loop's test `i < pendingDrops.length`. |
| Batching.PartitionAt | backend/reloop.js:69-70 | Batch k is the slice from k·10 to min((k+1)·10, N), as `slice` clamps it. |
| Batching.PartitionSizes | backend/reloop.js:69-70 | Every batch holds 1 to 10 drops. Every batch except the last holds exactly 10, so a short final batch stands on its own. |
| Batching.FlattenPrefix | backend/reloop.js:69-74 | The first k batches, concatenated, are exactly the first min(10k, N) drops. Nothing beyond them is touched. |
| Batching.PartitionFlatten | backend/reloop.js:69-74 | Concatenating the batches in order gives back the snapshot. No drop is omitted, duplicated or reordered. |
| BatchProcessor.DropIdsSlice | backend/reloop.js:70-71 | Slicing the drops and then mapping them to ids gives the same result as mapping first and then slicing. |
| BatchProcessor.NextBatch | backend/reloop.js:69-71 | The ids of the slice the loop cuts at step k are batch k of the partition of the snapshot's ids. |
| BatchProcessor.SubmitBatches | backend/reloop.js:66-81 | The calls are the leading batches of the partition, in order. Every call except possibly the last was accepted. The run fails exactly when the last call was rejected, and then it carries that call's error. Otherwise all batches were submitted. Result j is numbered j+1 and holds batch j's size and hash, and the sizes sum to N. |
| BatchProcessor.BatchProcess | backend/reloop.js:56-93 | A failed query is a 500 with no calls. An empty snapshot gives "No pending drops to process" with no calls. Otherwise the calls are a non-empty run of leading batches whose drops are the first min(10·calls, N) drops in order. A rejected batch ends the run with a 500 and no results. When every batch is accepted, the calls are the whole partition and cover the snapshot in order. There is one result per batch, numbered 1 to ceil(N/10), and `totalDropsProcessed` equals N and the sum of `dropsProcessed`. |

## Left out

- Wallet creation, address generation, transaction signing and balance queries through the custody SDK (backend/reloop.js:8-11, 30-36, 158-169, 320): opaque foreign calls.
- Transaction building and submission for user registration, drop submission and batch distribution (backend/reloop.js:99-156): ledger-library internals. The batch submitter is kept only as the abstract `ledger` parameter.
- `hashEmail` and `generateDropId` (backend/reloop.js:175-178, 204-206): a SHA-256 hash and random bytes.
- The placeholder data sources `uploadToIPFS`, `getUserWallet`, `getUserStatsFromChain`, `getPendingDropsFromChain` and `getDropUTXOs` (backend/reloop.js:208-240): they return hard-coded constants. The pending-drops query is the `snapshot` input instead.
- The lovelace-to-ADA display of `getUserBalance` (backend/reloop.js:326-329): floating-point division and string formatting.
- HTTP request and response plumbing, status codes (kept only as the three `Response` variants), and async/await sequencing.
- Lookups of names inherited from JavaScript's `Object.prototype`, such as a device type `constructor`, which would find a function rather than miss the table: the tables are modelled as plain maps with own keys only.
- The `registerUser`, `submitDrop` and `getUserBalance` handlers beyond the reward computation: they are sequences of the foreign calls above.
