# Seeded hashing, random streams and clamp: a Dafny model

This project models the core of a small numeric toolkit for creative coding:

- the xmur3 string hash, a MurmurHash3-style seeding loop (for every UTF-16
  code unit: xor in the code unit, multiply by c1 = 0xcc9e2d51 and rotate
  left by 13, starting from 1779033703 xor the length) followed by
  MurmurHash3's fmix32 avalanche;
- the streaming hasher built from it, whose closure re-applies fmix32 to its
  own 32-bit state on every call;
- `randomNumberGenerator`, which divides each raw value by 2^32 to give a
  number in [0, 1);
- `pseudoRandom`, the first value of a generator seeded with the salt
  `"6555705619766379"` in front of the seed;
- the earlier one-shot `xmur3` in `src/pseudoRandom.js`;
- `clamp`, which swaps reversed bounds and then applies min/max.

Modules:

- `Hash32` (`hash32.dfy`): the 32-bit operations and the specification
  functions. Seeds are sequences of 16-bit code units, the values
  `charCodeAt` yields. `Math.imul` is `bv32` multiplication. `>>>` is the
  logical `>>` on `bv32`. `>>> 0` reads the bit pattern as a `nat`. The
  length enters the initial state as `|s| % 2^32`, as `^` truncates it.
  `InitialState(s)` is the state before the loop
  (`src/randomNumberGenerator.js:27`), `MixUnit` one iteration of it
  (`src/randomNumberGenerator.js:30-31`), and `Fmix` the fmix32 avalanche
  each call of the step function applies. `SeededState(s)` is the state the seeding loop leaves. `Absorb` is that
  loop: `Fold` of the per-unit step `MixUnit`. `Fold` peels code units off
  the back and `FoldForward` runs front to back as the loop does; the two
  are proved equal for every step. `Output(s, n)` is the `n`-th value
  (from 0) of the stream: fmix32 applied `n + 1` times to the seeded state.
- `RandomNumberGenerator` (`random_number_generator.dfy`): class `Hasher` is
  the closure returned by `xmur3`. Its field `h` is the captured state. Its
  constructor holds the seeding loop, and `Next` is one call of the closure.
  The ghost fields `seed` and `calls` tie `h` to the specification. Class
  `Generator` is the closure returned by `randomNumberGenerator`. Method
  `PseudoRandom` is `pseudoRandom`.
- `OneShotHash` (`one_shot_hash.dfy`): the one-shot `xmur3`. The method
  `FirstOutputAgrees` shows its result equals the first value of a fresh
  streaming hasher.
- `Clamping` (`clamping.dfy`): `clamp` over reals.

fmix32 maps 0 to 0, so a seed whose seeded state is 0 gives a stream that is
0 forever. One such seed is proved here: the two code units 56788, 8693 make
every value of `randomNumberGenerator` 0. So for some seeds the stream is
constant from its first value. `pseudoRandom` is proved to give different
values for the seeds "1" and "2".

## Model

| member | source | states |
|---|---|---|
| Hash32.Rotl13 | src/pseudoRandom.js:11 | `h << 13 \| h >>> 19` is the 32-bit left rotation of `h` by 13 bits |
| Hash32.Rotl13Inverse | src/randomNumberGenerator.js:31 | the rotation loses no bits: rotating right by 13 gives back the state before it |
| Hash32.Unsigned | src/randomNumberGenerator.js:39 | `h >>> 0` is a number in 0..2^32-1 with exactly the bit pattern of `h` |
| Hash32.FoldFirst | src/randomNumberGenerator.js:29-32 | the seeding loop steps the first code unit first, then continues with the rest of the string |
| Hash32.FoldIsForward | src/randomNumberGenerator.js:29-32 | the fold that peels units off the back equals the front-to-back loop over indices 0..length-1 |
| Hash32.FoldAppend | src/randomNumberGenerator.js:29-32 | seeding over `s + t` is seeding over `s`, then continuing over `t` from that state |
| Hash32.FoldPrefixStep | src/randomNumberGenerator.js:29-32 | extending the processed prefix by one code unit applies one more loop iteration |
| Hash32.SeededStateEmpty | src/randomNumberGenerator.js:27-32 | for the empty string the loop leaves the state at 1779033703 |
| Hash32.Fmix | src/randomNumberGenerator.js:35-37 | the three avalanche updates map a zero state to zero (zero is a fixed point) |
| Hash32.FmixPowAdd | src/randomNumberGenerator.js:34-40 | stepping the state `m` times and then `n` times is stepping it `m + n` times |
| Hash32.FmixPowZero | src/randomNumberGenerator.js:34-40 | a zero state stays zero however many calls are made |
| Hash32.Unit | src/randomNumberGenerator.js:9 | a raw value divided by 4294967296 lies in [0, 1), and is 0 only for raw 0 |
| Hash32.UnitMonotone | src/randomNumberGenerator.js:9 | the division keeps the order of raw values, so distinct raw values give distinct outputs |
| RandomNumberGenerator.Hasher.constructor | src/randomNumberGenerator.js:26-32 | construction runs the seeding loop: the state is 1779033703 xor the length, then one xor/multiply/rotate per code unit in string order |
| RandomNumberGenerator.Hasher.Next | src/randomNumberGenerator.js:34-40 | each call replaces `h` by its fmix32 avalanche and returns the new bit pattern unsigned; the n-th call returns fmix32 applied n times to the seeded state; only this hasher changes |
| RandomNumberGenerator.SameSeedSameState | src/randomNumberGenerator.js:1-10 | two hashers from the same seed called the same number of times hold the same state |
| RandomNumberGenerator.SameSeedSameDraw | src/randomNumberGenerator.js:2-3 | two such hashers return the same next value and are again in the same state, with the same call count |
| RandomNumberGenerator.DrawFromOne | src/randomNumberGenerator.js:26-40 | calling one hasher advances its own stream by one value and leaves another hasher's state and call count unchanged |
| RandomNumberGenerator.Generator.constructor | src/randomNumberGenerator.js:7-8 | a generator owns a fresh hasher seeded with the seed string |
| RandomNumberGenerator.Generator.Next | src/randomNumberGenerator.js:1-10 | each call returns the hasher's next raw value divided by 2^32, a number in [0, 1) |
| RandomNumberGenerator.SaltSpellsDigits | src/randomNumberGenerator.js:19 | the salt is the code units of "6555705619766379" |
| RandomNumberGenerator.PseudoRandom | src/randomNumberGenerator.js:12-22 | the result is the first value of a fresh generator seeded with salt followed by seed, lies in [0, 1), and depends on the seed alone |
| RandomNumberGenerator.SaltPrefix | src/randomNumberGenerator.js:19-20 | each prefix of the salt leaves the tabulated seeding state, for a salted seed of one code unit |
| RandomNumberGenerator.SaltFold | src/randomNumberGenerator.js:19-20 | the whole salt leaves the state 1791643146 |
| RandomNumberGenerator.SaltedOneUnit | src/randomNumberGenerator.js:19-20 | a one-unit seed after the salt leaves the salt's state with that unit mixed in |
| RandomNumberGenerator.SaltedOne | src/randomNumberGenerator.js:18-22 | pinned value: the raw value behind `pseudoRandom("1")` is 3151750197 |
| RandomNumberGenerator.SaltedTwo | src/randomNumberGenerator.js:18-22 | pinned value: the raw value behind `pseudoRandom("2")` is 2083624267 |
| RandomNumberGenerator.SeedSensitive | src/randomNumberGenerator.js:18-22 | `pseudoRandom` gives different values for the seeds "1" and "2" |
| RandomNumberGenerator.ZeroStateStream | src/randomNumberGenerator.js:34-40 | if the seeded state is 0, every value the hasher returns is 0 |
| RandomNumberGenerator.ZeroStreamSeed | src/randomNumberGenerator.js:7-10 | for the seed with code units 56788, 8693 every generator value is 0 |
| RandomNumberGenerator.FixtureEmpty | src/randomNumberGenerator.js:26-40 | pinned value: the first output for the empty seed is 167010153 |
| RandomNumberGenerator.FixtureAbcState | src/randomNumberGenerator.js:27-32 | pinned value: the seeding loop over "abc" leaves 50696745 |
| RandomNumberGenerator.FixtureAbc | src/randomNumberGenerator.js:26-40 | pinned values: the first two outputs for "abc" are 1792905582 and 3065002282 |
| OneShotHash.Xmur3 | src/pseudoRandom.js:8-17 | the result lies in 0..2^32-1 and is the fmix32 avalanche of the state the seeding loop leaves |
| OneShotHash.FirstOutputAgrees | src/pseudoRandom.js:14-16 | the one-shot hash equals the first value of a fresh streaming hasher for the same string |
| OneShotHash.Xmur3Empty | src/pseudoRandom.js:9 | for the empty string the result is the avalanche of 1779033703, which is 167010153 |
| Clamping.Clamp | src/clamp.js:1-4 | the result lies between the smaller and the larger bound; an input within them is returned unchanged; one above the larger bound gives the larger bound, one below the smaller gives the smaller |
| Clamping.Min | src/clamp.js:3 | `Math.min`: the result is one of the two arguments and no larger than either |
| Clamping.Max | src/clamp.js:3 | `Math.max`: the result is one of the two arguments and no smaller than either |
| Clamping.ClampSymmetric | src/clamp.js:2 | swapping the two bounds gives the same result |
| Clamping.ClampIdempotent | src/clamp.js:3 | clamping a clamped value changes nothing |
| Clamping.ClampPoint | src/clamp.js:2-3 | with equal bounds the result is that bound, whatever the input |
| Clamping.ClampMonotone | src/clamp.js:3 | a larger input never gives a smaller result |

## Left out

- `src/lerp.js` and `src/unlerp.js` are not modelled. They are IEEE double arithmetic, and `unlerp` divides by zero when the bounds are equal. Their only other part is the call into `clamp`, which is modelled.
- `pseudoRandom` in `src/pseudoRandom.js:2-5` is not modelled. It is built on `Math.sin`, `% 1` and `Math.abs` over doubles.
- `String(seed)` and the implicit conversion in `salt + seed` are not modelled. Seeds enter as sequences of UTF-16 code units that are already strings, and salting is sequence concatenation.
- The "high entropy" and distribution claims are statistical. They are not properties of the code.
- Seeds of `null` or `undefined` are not modelled. The code converts them to strings like any other value. Concurrent use of one generator is not modelled either, since the code is single-threaded.
- Clamping.Clamp: works on reals, so NaN inputs, infinities and the sign of zero in `Math.min`/`Math.max` are not captured.
- RandomNumberGenerator.Generator.Next: the division by 2^32 is exact real division. It is exact in doubles too, since a raw value below 2^32 fits in 53 bits and the divisor is a power of two.
- Hash32.Imul: `Math.imul` is taken as `bv32` `*`, which is the product modulo 2^32 by definition. The same fact in integer form (`a * b % 2^32`) is not restated, because the solver cannot prove the conversion between integers and 32-bit vectors.
