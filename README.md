# Three-party secure addition and multiplication modulo 23

`unixsock.c` runs three parties as three processes joined by Unix socket
pairs. Each party holds a private integer. Together they compute the sum of
all three inputs modulo the prime P = 23, and then the product of the first
two. They use additive secret sharing:

- each party splits its input into three shares in [0, P) whose sum is
  congruent to the input;
- it sends two of the three shares to each peer, so every peer lacks exactly
  one share;
- each party adds one share of each triple into a partial sum: its own share
  at its fixed position, plus the shares at that same position that its peers
  sent it; it broadcasts the partial sum and reduces the three partial sums
  to the result.

For multiplication, parties 1 and 2 share their inputs. Party 3 shares 0.
Each party forms a partial product from the shares it holds, and the three
partial products are added through the addition protocol.

The model has six modules:

- `Field`: the modulus, and C's truncating `%` (`CMod`). It is not Dafny's
  Euclidean `%`.
- `Shares`: get_secret_shares (on a three-element array and as the function
  `Split`), the table of which share positions each party sends to each peer
  (`Route`, `Held`), and the lemma that a held pair is consistent with every
  secret.
- `Partials`: each party's partial-sum, partial-product and reconstruction
  formulas, and the lemmas that they give `(x + y + z) mod P` and
  `(x * y) mod P`.
- `Channels`: the six one-way directions of the three socket pairs, each a
  FIFO queue object; `send_num` appends and `recv_num` takes the oldest value.
  `recv_num` blocks, so `Recv` *requires* a waiting value. Every call of
  `Recv` must prove a value is waiting, so no receive in the protocol is
  issued on an empty direction.
- `Parties`: each party's C function, cut at the receives that would block.
- `Protocol`: the parties run against each other in one schedule, with the
  end-to-end results proved. That holds for any values random() returns.

Notes on the code, which the model follows:

- Each random share is `random() % P`, which is slightly biased toward
  small residues. The model takes the values random() returns as
  parameters.
- The parties seed random() with `time(0)`, `time(0) + 20` and
  `time(0) + 30` (unixsock.c:235, 254, 273), so each party's draws are
  predictable from the others'.
- The third share takes C's `%`, which is negative or zero for a negative
  operand (zero exactly when the operand is a multiple of P), and then adds P
  when it is negative (unixsock.c:42-44). `CMod` and `CorrectedCModIsMod`
  model exactly that.

## Model

| member | source | states |
|---|---|---|
| Field.CMod | unixsock.c:42 | C's remainder by P: smaller than P in magnitude, with the sign of the operand, and differing from it by a multiple of P |
| Field.CorrectedCModIsMod | unixsock.c:42-44 | adding P to a negative C remainder gives the mathematical remainder in [0, P); a non-negative operand needs no correction |
| Shares.Split | unixsock.c:38-45 | the triple get_secret_shares produces is three field elements whose sum is congruent to the secret, for every secret including negative ones |
| Shares.ThirdShareCloses | unixsock.c:42-44 | the corrected third share lies in [0, P) and completes the first two to the secret modulo P |
| Shares.GetSecretShares | unixsock.c:38-45 | writes into the caller's array exactly the triple `Split` describes |
| Shares.Route | unixsock.c:51-106 | the positions each owner sends each holder are two distinct positions, sent in increasing order; holder k receives every position except k - 1, whoever owns the triple |
| Shares.HeldCompletesTriple | unixsock.c:56-105 | `Held`, the pair of an owner's shares that the holder's two `recv_num` calls fill in receive order, is two of the triple's shares; together with the share at the holder's missing position it makes up the whole triple |
| Shares.SplitOfElements | unixsock.c:40-44 | draws already in [0, P) are kept as the first two shares, and the third is the mathematical remainder of the secret minus them |
| Shares.RedrawCloses | unixsock.c:40-44 | re-drawing one random share makes the third share come out as any chosen field element, for any secret |
| Shares.RedrawFor | unixsock.c:40-44 | for any other secret there are draws in [0, P) whose split agrees with a given triple everywhere except at the position the holder lacks |
| Shares.HeldPairFitsEverySecret | unixsock.c:38-106 | the pair of shares a peer receives of a secret is produced, under some draws, by every other secret as well |
| Partials.P1PartialSum | unixsock.c:120 | party 1's `share_sum2` lies in [0, P) when the shares do |
| Partials.P2PartialSum | unixsock.c:139 | party 2's `share_sum3` lies in [0, P) when the shares do |
| Partials.P3PartialSum | unixsock.c:158 | party 3's `share_sum1` lies in [0, P) when the shares do |
| Partials.FinalSum | unixsock.c:126 | `final_sum` lies in [0, P) when the partial sums do |
| Partials.P1PartialProduct | unixsock.c:180 | party 1's `product_part_sum1` lies in [0, P) when the shares do |
| Partials.P2PartialProduct | unixsock.c:191 | party 2's `product_part_sum2` lies in [0, P) when the shares do |
| Partials.P3PartialProduct | unixsock.c:202 | party 3's `product_part_sum3` lies in [0, P) when the shares do |
| Partials.CModSum3 | unixsock.c:126 | three C remainders add up, modulo P, to what their operands add up to |
| Partials.PartialSumsCover | unixsock.c:120-162 | with shares routed as the share functions route them, the three partial sums take each of the nine shares once |
| Partials.AddCorrect | unixsock.c:113-165 | when the three triples share x, y and z, the reconstructed `final_sum` equals `(x + y + z) mod P` |
| Partials.CrossTermsCover | unixsock.c:174-205 | the three partial products take each of the nine cross-terms `a[i] * b[j]` once, so they sum to the product of the triples' sums modulo P |
| Partials.PartialProductsShareProduct | unixsock.c:174-205 | when the triples share x and y, the three partial products are a sharing of `(x * y) mod P`; party 3's own shares do not enter |
| Channels.Channel.Send | unixsock.c:24-28 | `send_num` appends the value behind everything already written in that direction |
| Channels.Channel.Recv | unixsock.c:30-36 | `recv_num` may only be issued on a non-empty direction and returns the oldest value written and not yet read |
| Channels.Channel.SendPair | unixsock.c:56-57 | two sends append the two values in order |
| Channels.Channel.RecvPair | unixsock.c:62-63 | two receives return the two oldest values in order and remove them |
| Channels.Network.constructor | unixsock.c:221-227 | three socket pairs give six distinct, empty directions |
| Parties.P1ShareSend | unixsock.c:51-59 | party 1's triple is `Split` of its input; it sends positions (0, 2) to party 2 and (0, 1) to party 3 |
| Parties.P1ShareRecv | unixsock.c:61-67 | party 1 takes the next pair from party 2 and then from party 3 |
| Parties.P2ShareFirst | unixsock.c:70-82 | party 2's triple is `Split` of its input; it takes party 1's pair, then sends (1, 2) to party 1 and (0, 1) to party 3 |
| Parties.P2ShareLast | unixsock.c:84-86 | party 2 takes the next pair from party 3 |
| Parties.P3Share | unixsock.c:89-106 | party 3's triple is `Split` of its input; it takes party 1's and party 2's pairs, then sends (1, 2) to party 1 and (0, 2) to party 2 |
| Parties.P1AddSend | unixsock.c:119-122 | party 1 forms `share_sum2` from its shares and sends it to both peers |
| Parties.P1AddFinish | unixsock.c:123-128 | party 1 reads `share_sum3` from party 2 and `share_sum1` from party 3 and reconstructs `final_sum` |
| Parties.P2AddFirst | unixsock.c:137-141 | party 2 reads `share_sum2`, forms `share_sum3` and sends it to both peers |
| Parties.P2AddFinish | unixsock.c:142-146 | party 2 reads `share_sum1` and reconstructs `final_sum` |
| Parties.P3AddRun | unixsock.c:155-164 | party 3 reads `share_sum2` and `share_sum3`, forms `share_sum1`, sends it to both peers and reconstructs `final_sum` |
| Protocol.ShareRound | unixsock.c:51-106 | the three share functions run against each other without a receive on an empty direction; each party ends with its own `Split` triple and exactly the pairs `Route` assigns it, and every direction is drained |
| Protocol.AddRound | unixsock.c:119-164 | the partial-sum exchange completes without a receive on an empty direction, and all three parties reconstruct the same value from the same three partial sums |
| Protocol.SecureAdd | unixsock.c:113-165 | p1_add, p2_add and p3_add return the same value, `(x + y + z) mod P`, for any draws |
| Protocol.MultShareRound | unixsock.c:174-202 | after the share round of the factors (party 3 sharing 0), the three partial products sum to `x * y` modulo P |
| Protocol.SecureMult | unixsock.c:174-205 | p1_mult, p2_mult and p3_mult return the same value, `(x * y) mod P`, for any draws |
| Protocol.RunSession | unixsock.c:229-284 | a whole session over fresh socket pairs: every party reports `(x + y + z) mod P` as the sum and `(x * y) mod P` as the product, whatever random() returns |

## Left out

- Process model: main's `fork`, `waitpid`, `close`, argument parsing with `atoi`, `usage`, and the `printf` output are not modelled. The parties' code runs in one fixed interleaving in which every blocking receive finds its value; other interleavings of the processes are not modelled.
- Byte transport: `send_num`/`recv_num` are modelled as FIFO queues of `int`. The `send`/`recv` system calls, partial reads, and their failure paths through `error` are not modelled.
- Randomness: `srandom` seeding and `random()` are not modelled; the values random() returns are parameters (`Draws`, and the `rand` sequences of `RunSession`). The predictability of the seeds is not modelled.
- Secrecy is proved only in the possibilistic form `Shares.HeldPairFitsEverySecret`; statistical secrecy, and the slight bias of `random() % P`, are not modelled.
- Parties segments: the pairs a party receives are returned as two-element sequences, rather than written into caller-provided arrays as in p1_share, p2_share and p3_share. The party's own triple is still written in place by `GetSecretShares`, then passed on as its contents.
- Shares.Split: C `int` overflow of `num - shares[0] - shares[1]` for inputs within 2P of INT_MIN is not modelled; integers are unbounded. All other arithmetic in the protocol stays at most 3 * 22 * 22 and cannot overflow.
- The result `final_sum` is returned to main and printed; the model returns it from `SecureAdd`/`SecureMult`/`RunSession`. The model has no cross-check that the parties' results agree, just as the code has none; their agreement is proved instead.
