# EtherGasBot fee logic in Dafny

EtherGasBot is a Telegram bot that runs as one AWS Lambda file (`handler.js`).
A timer-driven collector fetches bitcoin fee data and stores one snapshot per
run. Two chat handlers read back a snapshot of today under six minutes old (the
first the query returns) and reply with a fee table: the `btc` command for
bitcoin, and any text message for ether.
This project models the sequential logic inside that plumbing and proves what
it computes.

- **Fee matcher** (`FeeMatcher`). Each fee level is looked up in the bucket list
  (`minFee`, `maxFee`, `minMinutes`, `maxMinutes`). A bucket matches when
  `minFee <= fee <= maxFee`, with both ends included. The scan overwrites its
  entry on every match, so the last matching bucket wins. `LastMatch` is the
  reference definition. Two lemmas prove that it picks the matching bucket
  after which nothing else matches.
- **Bitcoin collector** (`Bitcoin.MatchWaitTimes`, `AssembleRecord`,
  `CollectSnapshot`). The three tiers `low`, `normal` and `fast` take their levels
  from `hourFee`, `halfHourFee` and `fastestFee`. Each tier gets one full scan.
  Then the record is filled in tier by tier. A tier that matched no bucket makes
  the assembly fail. The code does not skip such a tier.
- **Snapshot reader** (`Snapshots`). A record qualifies when its `day` equals the
  start of today and its `created` is strictly greater than `now - 360000`. With
  no qualifying record the reply is "Data not found". Otherwise the first item
  the query returns is used.
- **Table builders** (`Bitcoin.BuildTable`, `Ether.BuildTable`). The cells are
  laid out row-major: 4 header cells, then 4 cells per tier. That is 16 cells
  for bitcoin and 20 for ether. The USD truncations are exact:
  `floor(226*fee/1000)/10` and `floor(21000*fee*etherPrice/10^7)/1000`. The ether
  wait cell switches from seconds to minutes at exactly 1.0.

The reader is meant to return today's most recent snapshot, but the code takes `Items[0]` from a query that requests no sort
direction, and the store returns ascending sort-key order by default. The model
follows the code. `Snapshots.FindSnapshotIsFirst` proves that the item found is
the first qualifying one in table order. `Snapshots.FindSnapshotIsOldest` proves
that, under ascending order within a day, it is the *oldest* qualifying one.

The BTC USD cell is computed from the fee level alone. The stored `btcPrice` is
read but never used (`Bitcoin.TableIgnoresBtcPrice`).

Inputs that stand in for I/O:
- `today` is the local-midnight timestamp (`setHours(0,0,0,0)`).
- `now` is `Date.now()`.
- A store table is a sequence of `Item(day, created, data)` in store order.
- The query is the filter `Snapshots.Query`.
- JavaScript's number-to-text conversion in template literals is a parameter
  `render: real -> string`.

## Model

| member | source | states |
|---|---|---|
| `Snapshots.Query` | handler.js:24-35 | the query answer holds exactly the table's items whose day is today and whose `created` is after `now - 6*60*1000`, and no more items than the table |
| `Snapshots.FindSnapshot` | handler.js:37-41 | nothing is found exactly when no item of the table is fresh; an item found is in the table and fresh |
| `Snapshots.FindSnapshotSkipsStale` | handler.js:37-41 | a stale item at the head of the table does not change what is found |
| `Snapshots.FindSnapshotIsFirst` | handler.js:37-41 | the item found is the first fresh item in table order (`Items[0]`) |
| `Snapshots.FindSnapshotIsOldest` | handler.js:24-41 | under ascending `created` order within a day, the item found has the smallest `created` of all fresh items, so it is the freshest only when it is the only fresh record |
| `Snapshots.QueryAppend` | handler.js:24-35 | the query over a table with one more item is the old answer plus that item when it is fresh |
| `Snapshots.WrittenSnapshotIsFound` | handler.js:21-41 | a record just written for today, into a table with no fresh item, is the one the reader finds |
| `Snapshots.FreshnessBoundary` | handler.js:26-33 | the window is strict: a record exactly 360000 ms old is stale, one 1 ms younger is fresh |
| `FeeMatcher.LastMatch` | handler.js:224-232 | a chosen bucket is in the list and matches inclusively at both ends; nothing is chosen exactly when no bucket matches (so an empty list gives nothing) |
| `FeeMatcher.LastMatchIsLast` | handler.js:224-232 | a matching bucket with no matching bucket after it is the one chosen |
| `FeeMatcher.LastMatchHasNoLaterMatch` | handler.js:224-232 | the chosen bucket sits at a position after which no bucket matches |
| `FeeMatcher.LastMatchIgnoresLaterMisses` | handler.js:227-231 | appending non-matching buckets never changes the choice |
| `FeeMatcher.LastMatchOverlapExample` | handler.js:227-231 | with overlapping ranges [10,50] and [40,100] and fee level 45, the later bucket wins |
| `Bitcoin.MatchWaitTimes` | handler.js:218-232 | after the nested scan, every tier's entry is the last bucket matching its own fee level (`hourFee`, `halfHourFee`, `fastestFee`), and a tier without a match has no entry |
| `Bitcoin.AssembleRecord` | handler.js:242-255 | assembly succeeds exactly when every tier has a wait entry; on failure the failing tier is the first in order without one; on success each tier holds its fee level and its bucket's `minMinutes`/`maxMinutes`, next to `day`, `created` and `btcPrice` |
| `Bitcoin.CollectSnapshot` | handler.js:218-255 | the collector yields a record exactly when every tier's fee level falls in some bucket, and each tier of the record is that fee level with its last matching bucket's wait range; otherwise it fails at the first tier without a match |
| `Bitcoin.UsdEstimate` | handler.js:65-69 | the USD number is a whole number of tenths and is `226*fee/10^4` truncated down to a tenth |
| `Bitcoin.UsdEstimateIsIntegerDivision` | handler.js:65-69 | for integer fee levels the truncation equals integer division `(226*fee) div 1000`, divided by 10 |
| `Bitcoin.UsdEstimateExample` | handler.js:65-69 | fee level 100 gives 2.2 |
| `Bitcoin.TableLayout` | handler.js:42-71 | the table has 16 cells; the first 4 are `-`,`Price`,`Wait`,`USD`; cell `4+4k+j` is column `j` of the row of tier `k` in order `low`,`normal`,`fast` |
| `Bitcoin.TableIgnoresBtcPrice` | handler.js:50-70 | changing the stored `btcPrice` does not change the table |
| `Bitcoin.BuildTable` | handler.js:42-71 | the cells pushed row by row are the header followed by, per tier, label, fee level, `min-max m` and `x $` |
| `Bitcoin.HandleBtcCommand` | handler.js:19-79 | the reply is "Data not found" exactly when no record is fresh; otherwise it is "Bitcoin network fees:" with the table of the record found |
| `Ether.WaitSeconds` | handler.js:137 | the seconds shown are the wait multiplied by 60 and truncated, and lie in 0..59 for waits in [0, 1) |
| `Ether.WaitCellUnit` | handler.js:135-137 | the wait cell ends in ` m` exactly when the wait is at least 1.0 minute (otherwise in ` s`) |
| `Ether.WaitCellExamples` | handler.js:135-137 | 0.5 shows as 30 s; 1.0 shows as 1 m; 2.5 shows as 2.5 m |
| `Ether.UsdEstimate` | handler.js:140-145 | the USD number is a whole number of thousandths and is `21000*fee*etherPrice/10^10` truncated down to a thousandth |
| `Ether.TableLayout` | handler.js:109-146 | the table has 20 cells; the first 4 are the header; cell `4+4k+j` is column `j` of the row of tier `k` in order `safeLow`,`average`,`fast`,`fastest` |
| `Ether.BuildTable` | handler.js:109-146 | the cells pushed row by row are the header followed by, per tier, label, `price/10 Gwei`, the wait cell and `x $` |
| `Ether.HandleText` | handler.js:86-154 | the reply is "Data not found" exactly when no record is fresh; otherwise it carries the block number and load header and the table of the record found |

## Left out

- Telegraf setup, webhook registration, inline keyboard markup and `ctx.reply` (handler.js:1-17, 73-79, 148-154). These are chat-platform UI. A reply is modelled as a `Reply` value carrying the text and the cell list.
- The DynamoDB client, `query` and `put` (handler.js:7, 24-35, 91-102, 183-202, 257-260). These are foreign calls. The query is modelled as a filter over the table in store order. `put` is not modelled; the collector returns the record it would store. The `!query || !query.Items` null checks have no counterpart.
- HTTP fetches through `got` and the coinmarketcap `filter(e => e.id === ...)` lookup (handler.js:170-180, 208-216, 234-238). These are network I/O. Their results are inputs: `RecommendedFees`, the bucket list and the price.
- getEthereumInfo (handler.js:169-205). It only copies fetched fields into a record and stores it. There is no logic in it beyond I/O.
- The clock and locale: `new Date()`, `setHours(0,0,0,0)`, `Date.now()` and `toISOString()`. `today` and `now` are parameters, and `createdAt` is not modelled. The source reads the clock twice, so `today` and `now` could come from slightly different instants. The model does not capture that.
- The number rendering of template literals: `render` is an arbitrary parameter, so no exact digit string is claimed.
- IEEE-754 double arithmetic. Fees, waits and prices are `int` (bitcoin) or `real` (ether). Rounding error in `226*fee/1000`, in `21000*fee*etherPrice/10^7` and in `wait*60` is not modelled, nor are JavaScript's string-to-number coercion of `price_usd` and `NaN`/`undefined` values.
- The Lambda exports `telegram` and `background` and the try/catch `ERR:` replies (handler.js:80-83, 155-158, 161-167). These are I/O glue. A record assembly failure is a `Failure` result. In the source it is a thrown TypeError that rejects the `background` run.
- Bitcoin.HandleBtcCommand: records are typed, so a stored record that lacks a tier field cannot be expressed. In the source, reading `data[type].price` on it (handler.js:61) throws a TypeError that is caught as an `ERR:` reply.
- Ether.HandleText: records are typed, so a stored record that lacks a gas price or wait field cannot be expressed. In the source no exception arises: `undefined / 10`, `undefined >= 1.0` and `Math.floor(undefined*60)` (handler.js:134-144) yield `NaN`, so the reply carries cells such as `NaN Gwei` and `NaN s`.
