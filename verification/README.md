# Verified models of muduo and its bundled spdlog and fmt

Dafny models of the parts of this repository whose correctness rests on an invariant: the big-integer
arithmetic behind fmt's decimal output, the hand-off between event loops and the life of a TCP connection,
spdlog's blocking queue and the shutdown of its worker pool, and two places where a fast form has to agree
with a simple one. `dafny verify dfyconfig.toml` checks everything.

Code that updates objects in place is a class whose methods are proved against functions on values;
concurrency is a step system over values, in which a critical section or a callback is one step and
everything that can come in between is a step of its own. The theorems are about every run of such a
system, or every input of such a function.

**Decimal conversion** (`Powers`, `Limbs`, `LimbSteps`, `Accumulators`, `Squares`, `Bigint`, `Rounding`,
`DecimalDigits`, `Dragon`). A `Bigint` is a sequence of 32-bit limbs with an exponent counted in limbs;
`Val` is the number it denotes. 64-bit wrap-around and truncation to 32 bits are written out (`Low64`,
`Low32`). Three operations are exact only if their caller is careful, and the contracts say exactly when:
`SubtractAligned` (its trailing borrow loop never advances), `Compare` (equal values with different
exponents are called different), and `DivmodAssign` (which inherits both). `FormatDragon` is proved to keep
those conditions, and its digits are the value rounded half to even as `Rounding.IsNearestEven` defines it
without any bigint.

**Modular inverses and wide products** (`ModularInverse`, `TrailingZeros`, `WideMultiply`). The tables are
the source's; that every entry is an inverse together with the largest quotient is proved, not assumed.

**Event loop and connections** (`EventLoop`, `LoopLaws`, `TcpConnection`, `SessionLaws`, `TcpServer`,
`ServerLaws`, `ServerSessions`, `ServerProgress`, `WokenServer`). The pipe is a count of bytes, the output buffer a
sequence of bytes, the result of poll, read and write is arbitrary. User callbacks are steps of the loop thread
that may come between any two others. The `Laws` modules keep the accounts of whole runs: bytes into and out of
the pipe and the socket, functors, events and callbacks, each against the calls that the steps stand for.
`ServerSessions` proves that every connection of a server goes through a run of the one-connection system, so
that what is proved there holds on every loop.

**Queue and pool** (`Totals`, `CircularQueue`, `BlockingQueue`, `QueueLaws`, `ThreadPool`). The queue's waiters
are asleep or woken, `notify_one` wakes any sleeper, wake-ups may be spurious, waits may time out, and any
thread may take the mutex first.

**Refinements** (`PollPoller`, `FormatScanner`). The poll array against a plain map, and the two scanners
of a format string against each other and against what a format string means.

Where the code does not do what its comments or assertions say, the model keeps the code and the condition
is proved:

- `subtract_aligned` does not propagate a borrow across a zero limb (`BorrowCanFail`, `SubtractAligned`).
- `compare` is wrong on equal values whose exponents differ, and `divmod_assign` then returns 0 and leaves the
  whole divisor (`Compare`, `CompareEqualOnce`, `DivmodAssign`, `DivmodEqualOnce`).
- A functor that the loop's own thread queues before `loop()` is not woken for (`LostExactlyWhen`, `LostOnce`).
- `shutdownInLoop` does not look at the state: run after a close, it issues SHUT_WR over unsent bytes
  (`UndrainedExactlyWhen`, `UndrainedOnce`).
- A write call can follow SHUT_WR even if one single thread other than the loop's makes all calls in order
  (`LateWriteExactlyWhen`, `LateWriteOnce`); it cannot if the loop thread makes them (`NothingAfterShutdown`).
- `connectDestroyed` leaves the events of a connection that is only disconnecting enabled, and the assertion in
  `Channel::remove` fails (`DestroyLeavesNoEvents`); on the runs of `LifeCycle` the connection is closed by then.
- `forceClose` on a connection whose event of the same poll is still to come lets the assertion in
  `handleClose` fail (`ForceCloseSafeExactlyWhen`, `ForceCloseOnce`).
- A channel whose first update enables no event is not masked, and its removal fails an assertion
  (`FirstUpdateMasks`); a removed channel keeps its index and cannot be added again (`UpdateAsserts`,
  `RemoveChannel`).

## Model

| member | source | states |
|---|---|---|
| Accumulators.Accumulator.Add | muduo/base/spdlog/fmt/bundled/format-inl.h:360-363 | the two words are a 128-bit sum: addition is exact modulo 2^128, the carry found by comparison |
| Accumulators.Accumulator.LowBigit | muduo/base/spdlog/fmt/bundled/format-inl.h:356-358 | the low 32 bits of the 128-bit sum |
| Accumulators.Accumulator.ShiftRight32 | muduo/base/spdlog/fmt/bundled/format-inl.h:364-369 | division of the 128-bit sum by 2^32 |
| BigInteger.Bigint.constructor | muduo/base/spdlog/fmt/bundled/format-inl.h:446 | no limbs and exponent 0 |
| BigInteger.Bigint.AssignBigint | muduo/base/spdlog/fmt/bundled/format-inl.h:455-461 | denotes the number that the other denoted, with the same limbs and exponent |
| BigInteger.Bigint.AssignUint64 | muduo/base/spdlog/fmt/bundled/format-inl.h:463-471 | denotes the argument, with a nonzero top limb unless it is 0 |
| BigInteger.Bigint.SubtractBits | muduo/base/spdlog/fmt/bundled/format-inl.h:393-397 | the sign bit of the wrapped 64-bit difference is the borrow: new limb - 2^32 * borrow' = old limb - other - borrow |
| BigInteger.Bigint.RemoveLeadingZeros | muduo/base/spdlog/fmt/bundled/format-inl.h:399-403 | same value, no leading zero limb but a single zero |
| BigInteger.Bigint.SubtractLimbs | muduo/base/spdlog/fmt/bundled/format-inl.h:409-412 | the facing limbs hold the difference up to one borrow of their weight; the limbs above are untouched |
| BigInteger.Bigint.SubtractAligned | muduo/base/spdlog/fmt/bundled/format-inl.h:405-415 | of two aligned operands, the smaller subtracted: the value is the difference if and only if no borrow leaves the facing limbs or the next limb is there and nonzero |
| LimbSteps.BorrowCanFail | muduo/base/spdlog/fmt/bundled/format-inl.h:413 | 2^64 - 1 is a subtraction within the stated precondition that fails that condition |
| BigInteger.Bigint.MultiplyUint32 | muduo/base/spdlog/fmt/bundled/format-inl.h:417-426 | the value times a 32-bit factor; stays normalised for a positive factor |
| BigInteger.Bigint.MultiplyUint64 | muduo/base/spdlog/fmt/bundled/format-inl.h:428-443 | the value times a 64-bit factor: the 64-bit carry never overflows |
| LimbSteps.WideLimbSplits | muduo/base/spdlog/fmt/bundled/format-inl.h:434-437 | for every limb, factor and carry, the two 64-bit sums are computed without wrap-around and are the exact product plus carry |
| BigInteger.Bigint.ShiftLeft | muduo/base/spdlog/fmt/bundled/format-inl.h:477-490 | the value times 2^shift, the exponent larger by whole limbs only |
| BigInteger.Compare | muduo/base/spdlog/fmt/bundled/format-inl.h:498-512 | the sign of the difference if and only if equal operands have equal exponents and a zero has no more limbs than the other; equal values are ordered by the smaller exponent |
| BigInteger.CompareEqualOnce | muduo/base/spdlog/fmt/bundled/format-inl.h:510 | 2^32 in two forms of equal value: compare calls the one with exponent 0 greater |
| BigInteger.AddCompare | muduo/base/spdlog/fmt/bundled/format-inl.h:514-536 | the exact sign of lhs1 + lhs2 - rhs for any three exponents |
| BigInteger.SumDecides | muduo/base/spdlog/fmt/bundled/format-inl.h:526-535 | why a running borrow of 0 or 1 is enough: a lead of the upper limbs by anything but one settles the order |
| BigInteger.Bigint.AssignPow10 | muduo/base/spdlog/fmt/bundled/format-inl.h:538-556 | 10^exp with a nonzero top limb, by squaring over the exponent's bits |
| BigInteger.NextBit | muduo/base/spdlog/fmt/bundled/format-inl.h:550-554 | halving the bit mask appends one bit of the exponent to the part already raised |
| BigInteger.Bigint.SquareLowColumns | muduo/base/spdlog/fmt/bundled/format-inl.h:565-574 | after column k the limbs below k and the carried sum are all cross products of weight below k |
| BigInteger.AddLowColumn | muduo/base/spdlog/fmt/bundled/format-inl.h:568-571 | one lower column is added without leaving 128 bits |
| BigInteger.Bigint.SquareHighColumns | muduo/base/spdlog/fmt/bundled/format-inl.h:576-582 | the same for the upper half, where the columns get shorter |
| BigInteger.AddHighColumn | muduo/base/spdlog/fmt/bundled/format-inl.h:578-579 | one upper column is added without leaving 128 bits |
| BigInteger.Bigint.StoreColumn | muduo/base/spdlog/fmt/bundled/format-inl.h:572-573 | low limb stored, rest carried: the column invariant moves on by one |
| Squares.RowStep | muduo/base/spdlog/fmt/bundled/format-inl.h:566-571 | summing by columns is summing by rows: a column is what the k-limb prefixes of all rows gain |
| BigInteger.Bigint.Square | muduo/base/spdlog/fmt/bundled/format-inl.h:558-585 | the exact square for any number of limbs; nothing is carried out of the last column and the exponent doubles |
| BigInteger.Bigint.Align | muduo/base/spdlog/fmt/bundled/format-inl.h:587-598 | the same number with an exponent no larger than the other's |
| BigInteger.Bigint.DivmodAssign | muduo/base/spdlog/fmt/bundled/format-inl.h:600-613 | for a dividend at most one limb longer than the divisor, old = quotient * divisor + new and the loop ends; new < divisor if and only if the operands were not equal with the larger exponent on the dividend; the quotient fits an int if the dividend is below 2^31 divisors |
| BigInteger.DivmodEqualOnce | muduo/base/spdlog/fmt/bundled/format-inl.h:604 | the same two forms divided: quotient 0, and the remainder is the whole divisor |
| BigInteger.BorrowAlwaysStops | muduo/base/spdlog/fmt/bundled/format-inl.h:609 | such a dividend always meets the condition under which subtract_aligned is exact |
| BigInteger.FewLimbsMore | muduo/base/spdlog/fmt/bundled/format-inl.h:607-612 | a quotient that fits an int keeps the dividend within one limb of the divisor |
| BigInteger.HighBounds | muduo/base/spdlog/fmt/bundled/format-inl.h:506-511 | what the limbs read so far say of the value: it rounded down, and all of it once the exponent is reached |
| WideMultiply.Umul128Exact | muduo/base/spdlog/fmt/bundled/format-inl.h:847-862 | the two words from 32-bit halves are the 128-bit product for all operands |
| WideMultiply.MultiplyRoundsHalfUp | muduo/base/spdlog/fmt/bundled/format-inl.h:306-322 | both forms are the upper word of the product rounded half up, with no wrap-around |
| ModularInverse.InverseTest | muduo/base/spdlog/fmt/bundled/format-inl.h:971 | one multiplication and one comparison decide divisibility, and a success leaves the quotient |
| ModularInverse.Table32Exact | muduo/base/spdlog/fmt/bundled/format-inl.h:964-970 | every entry is the inverse of 5^k modulo 2^32 with the largest quotient |
| ModularInverse.Table64Exact | muduo/base/spdlog/fmt/bundled/format-inl.h:975-999 | the same modulo 2^64 |
| ModularInverse.DivisibleByPowerOf5Exact32 | muduo/base/spdlog/fmt/bundled/format-inl.h:961-972 | true if and only if 5^exp divides x, for every word and entry |
| ModularInverse.DivisibleByPowerOf5Exact64 | muduo/base/spdlog/fmt/bundled/format-inl.h:973-1001 | the same for 64-bit words |
| TrailingZeros.RemoveTrailingZeros32 | muduo/base/spdlog/fmt/bundled/format-inl.h:1927-1953 | n_old = n_new * 10^s with s maximal up to the cap 7, for every positive word |
| TrailingZeros.RemoveTrailingZeros64 | muduo/base/spdlog/fmt/bundled/format-inl.h:1955-2038 | the same with cap 16, for every positive n below 2^32 * 10^8, which covers the range the code states |
| TrailingZeros.StripLargeMultiple | muduo/base/spdlog/fmt/bundled/format-inl.h:1977-1988 | the path for multiples of 10^8 strips the rest from the 32-bit quotient |
| Rounding.NearestEvenUnique | muduo/base/spdlog/fmt/bundled/format-inl.h:2318-2321 | at most one integer is the nearest with ties to even: the rounding specification leaves no choice |
| Dragon.ScaleOperands | muduo/base/spdlog/fmt/bundled/format-inl.h:2237-2272 | value = numerator / denominator * 10^exp10 in all three branches, with the exponents the later steps rely on |
| Dragon.NeverEqualWithLargerExp | muduo/base/spdlog/fmt/bundled/format-inl.h:2313 | until the denominator has been subtracted once, the numerator never equals it with a larger exponent: divmod_assign is always exact here |
| Dragon.NextDigit | muduo/base/spdlog/fmt/bundled/format-inl.h:2313 | the quotient is 0..9 and digits so far plus remainder account for the whole number |
| Dragon.GenerateDigits | muduo/base/spdlog/fmt/bundled/format-inl.h:2311-2317 | numerator * 10^(n-1) = digits * denominator + remainder, remainder below the denominator, every character a digit |
| Dragon.PropagateCarry | muduo/base/spdlog/fmt/bundled/format-inl.h:2321-2331 | carrying nines keeps the number; out of the first place it leaves 10^(n-1) and one more on the exponent |
| Dragon.StoreLastDigit | muduo/base/spdlog/fmt/bundled/format-inl.h:2319-2336 | the buffer is the truncated number plus the rounding unit |
| Dragon.FormatDragon | muduo/base/spdlog/fmt/bundled/format-inl.h:2225-2336 | num_digits decimal digits times 10^exp are f * 2^e rounded half to even at that place, all-nines carry included; no leading zero if exp10 was right; also the one character for num_digits 0 |
| EventLoops.StepKeepsInv | muduo/net/eventloop.cc:59-80 | every step of the loop thread and of any other thread keeps the hand-off invariant, given a loop entered with nothing lost |
| EventLoops.NoLostWakeup | muduo/net/eventloop.cc:130-165 | on every run, entering or blocked in poll with something pending or with quit set means a byte is in the pipe or a thread is about to write it; handleRead never blocks; executed, batch and pending are all that was queued, in order |
| EventLoops.LostExactlyWhen | muduo/net/eventloop.cc:145-147 | the wake-up is missing in the first poll if and only if the owner queued before loop() and no other thread called queueInLoop or quit |
| EventLoops.LostOnce | muduo/net/eventloop.cc:145-147 | the shortest run on which it is missing |
| EventLoops.OneBatch | muduo/net/eventloop.cc:150-165 | with any interleaving, one doPendingFunctors runs exactly what was pending at its swap; what was queued since is pending when it returns |
| EventLoops.Delivers | muduo/net/eventloop.cc:68-76 | from every reachable block in poll with functors pending they can all run without the timeout and without another channel becoming ready |
| EventLoops.DoPendingRuns | muduo/net/eventloop.cc:150-165 | undisturbed, it executes what was pending and leaves what those functors queued with one byte each, even if they queue themselves |
| EventLoops.DoPendingIsRun | muduo/net/eventloop.cc:150-165 | the sequential method is one of the interleavings of the step system |
| EventLoops.EventLoop.Wakeup | muduo/net/eventloop.cc:114-120 | one more byte in the pipe and nothing else changed |
| EventLoops.EventLoop.HandleRead | muduo/net/eventloop.cc:106-112 | takes one byte from a pipe that is not empty, the step of the step system |
| LoopLaws.PipeBalance | muduo/net/eventloop.cc:106-120 | on every run the pipe holds what was written less what was read |
| LoopLaws.OneByteForEachCall | muduo/net/eventloop.cc:82-148 | one byte for every queueInLoop and quit of another thread and every queueInLoop of the loop's own thread while it runs functors, and no other |
| LoopLaws.OnePollForEachByte | muduo/net/eventloop.cc:68-73 | a poll that returns with a byte in the pipe leads to exactly one handleRead |
| LoopLaws.WakeupAccount | muduo/net/eventloop.cc:59-148 | from the start: pipe, bytes read and calls on the way to their wakeup add up to the calls that must wake, and no byte ends two polls |
| LoopLaws.Drains | muduo/net/eventloop.cc:68-76 | with nobody between push and wakeup, as many wake-ups as there are bytes lead to a poll that blocks, the first of them running what is pending |
| LoopLaws.RunInPushOrder | muduo/net/eventloop.cc:130-165 | on every run the functors executed are the first of all pushed, in that order, as many as were run, and the rest waits |
| LoopLaws.EndsWhenAsked | muduo/net/eventloop.cc:63-89 | at its head loop() ends if and only if quit() was called by any thread since it was entered |
| EventLoops.EventLoop.QueueInLoop | muduo/net/eventloop.cc:130-148 | for the owner, the push and, while functors run, the wake-up of the step system; for another thread always both |
| EventLoops.EventLoop.RunInLoop | muduo/net/eventloop.cc:122-128 | on the loop thread the functor is run at once, with the effects of what it queues; from another thread it is queued and not run |
| EventLoops.EventLoop.DoPendingFunctors | muduo/net/eventloop.cc:150-165 | ends in the state that DoPendingRuns describes, and ends |
| TcpConnections.SendKeeps | muduo/net/tcp_conncetion.cc:172-230 | sendInLoop accepts all its bytes or, disconnected, none; written then buffered stays accepted, and writing stays enabled exactly for a non-empty buffer |
| TcpConnections.WriteKeeps | muduo/net/tcp_conncetion.cc:232-273 | handleWrite moves bytes from the buffer to the socket without losing order, and disables writing exactly when it drains |
| TcpConnections.SendWrites | muduo/net/tcp_conncetion.cc:181-208 | sendInLoop hands the socket exactly what its write call reports, and makes one if and only if it finds the connection open and the buffer empty |
| TcpConnections.WriteWrites | muduo/net/tcp_conncetion.cc:234-240 | so does handleWrite, which makes one if and only if bytes are buffered |
| TcpConnections.SendCompletesWhen | muduo/net/tcp_conncetion.cc:182-199 | a write-complete callback is due if and only if a successful write finds the buffer empty and nothing is buffered after it |
| TcpConnections.WriteCompletesWhen | muduo/net/tcp_conncetion.cc:239-254 | and if and only if a write event empties the buffer |
| TcpConnections.DestroyLeavesNoEvents | muduo/net/tcp_conncetion.cc:97-113 | after connectDestroyed no event is enabled if and only if the connection was not disconnecting |
| TcpConnections.DrainedBeforeShutdown | muduo/net/tcp_conncetion.cc:137-273 | on every run with any number of threads: order and content of the byte stream, writing enabled if and only if bytes are buffered, and no SHUT_WR over unsent bytes before the close |
| TcpConnections.UndrainedExactlyWhen | muduo/net/tcp_conncetion.cc:147-156 | shutdownInLoop shuts down over unsent bytes if and only if it runs disconnected with a non-empty buffer |
| TcpConnections.UndrainedOnce | muduo/net/tcp_conncetion.cc:137-156 | a run on which it does |
| TcpConnections.LateWriteExactlyWhen | muduo/net/tcp_conncetion.cc:255-258 | after SHUT_WR a further write call is possible if and only if the connection is only disconnecting and a send of another thread, or buffered bytes, are outstanding |
| TcpConnections.LateWriteOnce | muduo/net/tcp_conncetion.cc:158-170 | a run of a single other thread on which it happens |
| TcpConnections.NothingAfterShutdown | muduo/net/tcp_conncetion.cc:158-170 | if only the loop thread sends, no write call follows SHUT_WR |
| SessionLaws.RunMovesBytes | muduo/net/tcp_conncetion.cc:172-240 | on every run the bytes accepted are those of the sends taken, in order, and the bytes written are the sum of what the write calls reported |
| SessionLaws.WrittenIsReported | muduo/net/tcp_conncetion.cc:158-240 | so from the start the socket has the first k of all bytes sent, k being what its write calls reported, and the buffer has the rest |
| SessionLaws.QueueIsFifo | muduo/net/tcp_conncetion.cc:137-170 | the functors of other threads run in the order in which they were queued, none lost |
| SessionLaws.SendsAreQueued | muduo/net/tcp_conncetion.cc:158-170 | every message of another thread that finds the connection connected is queued once or still on its way |
| SessionLaws.PhaseFollowsCalls | muduo/net/tcp_conncetion.cc:67-145 | the state is what the calls say: connected by connectEstablished, disconnecting by the first shutdown, disconnected by handleClose |
| SessionLaws.ShutdownHappens | muduo/net/tcp_conncetion.cc:137-156 | SHUT_WR only after a call of shutdown, and after one it is issued or its functor or unsent bytes are still ahead of it, unless the connection closes |
| TcpConnections.TcpConnection.constructor | muduo/net/tcp_conncetion.cc:9-18 | connecting, no events, nothing buffered |
| TcpConnections.TcpConnection.ConnectEstablished | muduo/net/tcp_conncetion.cc:67-79 | connected and reading, from connecting only; keeps the invariant of buffer, events and SHUT_WR |
| TcpConnections.TcpConnection.HandleClose | muduo/net/tcp_conncetion.cc:81-87 | disconnected with no events; the buffer keeps what was not sent; keeps that invariant |
| TcpConnections.TcpConnection.ConnectDestroyed | muduo/net/tcp_conncetion.cc:97-108 | closes only a connection that is still connected; keeps that invariant |
| TcpConnections.TcpConnection.Shutdown | muduo/net/tcp_conncetion.cc:137-145 | only from connected; the loop thread goes on at once, another thread queues the rest; keeps that invariant |
| TcpConnections.TcpConnection.ShutdownWriting | muduo/net/tcp_conncetion.cc:147-156 | SHUT_WR unless writing is enabled; keeps that invariant once shutdown has been called |
| TcpConnections.TcpConnection.SendNow | muduo/net/tcp_conncetion.cc:172-230 | the step of sendInLoop: the socket gets what the write call reports, and a write-complete callback is due exactly if the buffer was empty and stays empty; keeps that invariant |
| TcpConnections.TcpConnection.HandleWritable | muduo/net/tcp_conncetion.cc:232-273 | the step of handleWrite: the socket gets what the write call reports, and a write-complete callback is due exactly when that empties the buffer; keeps that invariant |
| TcpServers.StepKeepsInv | muduo/net/tcp_server.cc:37-107 | every step of every loop, callback and foreign thread keeps each connection in one stage with exactly the functor or frame of that stage |
| TcpServers.LifeCycle | muduo/net/tcp_server.cc:37-107 | on every run without forceClose on a still listed connection: established, closed, erased, destroyed at most once and in that order; in every stage but open and destroyed exactly one functor or frame takes the connection on; in the map until erased, registered until destroyed, no events from the close on; owned while registered, listed, awaiting its write callback or a write-complete callback, and disconnected and destroyed once nobody owns it; no assertion on the way can fail next |
| TcpServers.CloseCallbackKeepsInv | muduo/net/tcp_server.cc:83-91 | removeConnection on the server's loop finds the connection in the map; from another loop it hands over exactly one RemoveInLoop |
| TcpServers.RemoveTaskKeepsInv | muduo/net/tcp_server.cc:93-107 | erase returns 1, and exactly one connectDestroyed is then queued on the I/O loop |
| TcpServers.DestroyTaskKeepsInv | muduo/net/tcp_conncetion.cc:97-113 | connectDestroyed finds the channel registered and without events, while no event of its loop is pending |
| TcpServers.CompleteIsReferenced | muduo/net/tcp_conncetion.cc:196-198 | a queued write-complete functor with a bare this always finds its connection alive |
| TcpServers.RegisteredIsReferenced | muduo/net/tcp_server.cc:99-106 | a registered channel's connection is in the map, in a queued functor, or in a handleClose frame |
| TcpServers.ForceCloseSafeExactlyWhen | muduo/net/tcp_conncetion.cc:119-135 | forceClose leaves all later assertions safe if and only if the connection's event of the current poll is not still to come |
| TcpServers.ForceCloseOnce | muduo/net/tcp_conncetion.cc:119-135 | the run: two connections listed by one poll, the callback of the first closes the second, whose end of file then fails the assertion of handleClose |
| ServerSessions.StepRefines | muduo/net/tcp_conncetion.cc:67-273 | what a step of the server does to one connection, its functors and the calls under way is one step of TcpConnections' Session or none |
| ServerSessions.EveryConnectionIsASession | muduo/net/tcp_server.cc:37-107 | so on every run without forceClose on a still listed connection each connection is in the state of a run of a Session from its start |
| ServerSessions.ConnectionBytes | muduo/net/tcp_conncetion.cc:137-273 | in particular each socket has the first of all bytes sent on it, as many as its write calls reported, the rest is buffered, and no SHUT_WR before the close overtook them |
| ServerLaws.EventAccount | muduo/net/channel.cc:39-59 | on every run and loop, the channels that polls list are handled once each and in order, and so are the write callbacks asked for |
| ServerLaws.InnermostFirst | muduo/net/tcp_conncetion.cc:88-94 | a close inside another close's callback ends first and leaves the outer frame as it was |
| ServerLaws.CompletionAccount | muduo/net/tcp_conncetion.cc:190-254 | on every run one write-complete functor is queued or has run for each write call that left nothing to write, and no other |
| ServerProgress.PendingEnds | muduo/net/tcp_server.cc:83-107 | events, close callbacks and functors under way, whatever they do, end after a number of steps bounded by their weight |
| ServerProgress.CanSettle | muduo/net/tcp_server.cc:83-107 | from every state of the invariant they can be done to the end, and then every connection is open or destroyed |
| ServerProgress.ClosedIsDestroyed | muduo/net/tcp_server.cc:83-107 | from every reachable state every closed connection can be brought to its destruction by what is already pending, out of the map and the poller |
| WokenServers.GoKeepsJoined | muduo/net/eventloop.cc:59-80 | server and event loops stepped together, every push by a thread that then wakes the loop: queue and pending functors stay the same, and both invariants hold |
| WokenServers.WokenSettles | muduo/net/tcp_server.cc:83-107 | from every state of that invariant all pending work can be done with every poll returned by the wake-up pipe alone |
| WokenServers.DestroyedWithoutTimeout | muduo/net/tcp_server.cc:83-107 | from every reachable state every closed connection can be destroyed without a poll timing out and without a channel of a connection becoming ready |
| TcpServers.TcpServer.constructor | muduo/net/tcp_server.cc:11-22 | idle loops and no connections, where the invariant of LifeCycle begins |
| TcpServers.TcpServer.NewConnection | muduo/net/tcp_server.cc:37-65 | keeps the invariant: one more connection in the map, established at once on the server's loop or through exactly one Establish on its own |
| TcpServers.TcpServer.CloseCallback | muduo/net/tcp_conncetion.cc:91-94 | keeps the invariant, so the erase that it may reach counts 1 |
| TcpServers.TcpServer.RemoveConnection | muduo/net/tcp_server.cc:83-91 | erased at once on loop 0, with a count of 1 if and only if it was in the map, else queued there |
| TcpServers.TcpServer.RemoveConnectionInLoop | muduo/net/tcp_server.cc:93-107 | erased, its destruction queued; the count is 1 if and only if it was in the map |
| TcpServers.TcpServer.RunRemoveInLoop | muduo/net/tcp_server.cc:88-90 | the functor queued for loop 0 keeps the invariant and its erase counts 1 |
| TcpServers.TcpServer.QueueInLoop | muduo/net/eventloop.cc:130-137 | one more functor at the end of that loop's queue |
| CircularQueue.CircularQ.constructor | muduo/base/spdlog/details/circular_q.h:27-30 | an empty queue for the given number of items, one slot more than that |
| CircularQueue.CircularQ.Disabled | muduo/base/spdlog/details/circular_q.h:24-25 | a queue that holds nothing |
| CircularQueue.CircularQ.PushBack | muduo/base/spdlog/details/circular_q.h:48-62 | the last n of the items and the new one, the overrun counted exactly when one is lost |
| CircularQueue.CircularQ.Front | muduo/base/spdlog/details/circular_q.h:64-74 | the oldest item |
| CircularQueue.CircularQ.Size | muduo/base/spdlog/details/circular_q.h:76-87 | the number of items |
| CircularQueue.CircularQ.At | muduo/base/spdlog/details/circular_q.h:89-95 | the i-th oldest item |
| CircularQueue.CircularQ.PopFront | muduo/base/spdlog/details/circular_q.h:97-102 | all items but the oldest |
| CircularQueue.CircularQ.Empty | muduo/base/spdlog/details/circular_q.h:104-107 | true if and only if there is no item |
| CircularQueue.CircularQ.Full | muduo/base/spdlog/details/circular_q.h:109-117 | true if and only if the capacity is reached; never for a disabled queue |
| CircularQueue.CircularQ.LastRaw | muduo/base/spdlog/sinks/ringbuffer_sink.h:28-40 | the last min(lim, size) items in order, all of them for 0 |
| CircularQueue.Conservation | muduo/base/spdlog/details/circular_q.h:48-122 | over every history items leave in push order and pushes = pops + stored + overruns |
| CircularQueue.OnlyPushes | muduo/base/spdlog/details/circular_q.h:48-62 | without pops exactly the last n pushes remain |
| CircularQueue.Replay | muduo/base/spdlog/details/circular_q.h:48-102 | any history of calls on the object ends in the contents and overruns of Run; pushes = pops + stored + overruns if and only if the queue is not disabled or nothing is pushed |
| BlockingQueue.StepKeepsInv | muduo/base/spdlog/details/mpmc_blocking_q.h:32-67 | enqueue, enqueue_nowait, dequeue_for, notifications, timeouts and spurious wake-ups keep order, capacity and the debt of wake-ups |
| BlockingQueue.NoLostWakeup | muduo/base/spdlog/details/mpmc_blocking_q.h:32-67 | on every run, while a producer sleeps every free slot is matched by a pending notification or a woken producer, one each, and while a consumer sleeps so is every item; in particular there is such a thread |
| BlockingQueue.MpmcBlockingQueue.constructor | muduo/base/spdlog/details/mpmc_blocking_q.h:28-30 | an empty queue of the given capacity |
| BlockingQueue.MpmcBlockingQueue.Enqueue | muduo/base/spdlog/details/mpmc_blocking_q.h:34-41 | what a producer does under the mutex is the queue step: pushed exactly if there was room, and nothing is overwritten |
| BlockingQueue.MpmcBlockingQueue.EnqueueNowait | muduo/base/spdlog/details/mpmc_blocking_q.h:45-51 | the push of the step system, overwriting the oldest item of a full queue |
| BlockingQueue.MpmcBlockingQueue.Dequeue | muduo/base/spdlog/details/mpmc_blocking_q.h:56-66 | what a consumer does under the mutex is the queue step: it gets the oldest item exactly if there is one, and otherwise waits, or gives up once its time is over (GivesUp, SleepsAgain) |
| QueueLaws.QueueAccount | muduo/base/spdlog/details/mpmc_blocking_q.h:32-67 | on every run each item offered is with a waiting producer, in the queue, with a consumer, returned, or overwritten by an enqueue_nowait on a full queue; each dequeue_for has returned an item, given up on an empty queue after its timeout, or is under way |
| QueueLaws.ExpiredNeverSleeps | muduo/base/spdlog/details/mpmc_blocking_q.h:58-63 | a consumer whose wait has timed out takes the oldest item or leaves without one, and never sleeps again |
| QueueLaws.GivesUp | muduo/base/spdlog/details/mpmc_blocking_q.h:58-61 | a timed-out wait on an empty queue ends the call and changes nothing else |
| QueueLaws.SleepsAgain | muduo/base/spdlog/details/mpmc_blocking_q.h:58 | woken without a timeout on an empty queue it sleeps again |
| ThreadPool.PoolStepKeepsInv | muduo/base/spdlog/details/thread_pool-inl.h:45-133 | every step of destructor and workers keeps messages conserved and in order, and each thread where its phase says |
| ThreadPool.TerminatesConserved | muduo/base/spdlog/details/thread_pool-inl.h:49-52 | posted terminate messages are queued, held, or were the end of exactly one worker each |
| ThreadPool.SomeoneStillServes | muduo/base/spdlog/details/thread_pool-inl.h:49-52 | while one is still to be posted, some worker has not exited |
| ThreadPool.EarlierMessagesFirst | muduo/base/spdlog/details/thread_pool-inl.h:103-125 | no terminate message is dequeued, and no worker exits, before all earlier messages are dequeued |
| ThreadPool.NoDeadlock | muduo/base/spdlog/details/thread_pool-inl.h:45-60 | in every reachable state before the last join a step other than a timeout or spurious wake-up is possible |
| ThreadPool.ShutdownIsBounded | muduo/base/spdlog/details/thread_pool-inl.h:45-60 | the length of every run is bounded by a measure of its start plus four times its timeouts and spurious wake-ups |
| ThreadPool.CanFinish | muduo/base/spdlog/details/thread_pool-inl.h:45-60 | from every reachable state the destructor can finish without any timeout |
| ThreadPool.JoinedMeansFinished | muduo/base/spdlog/details/thread_pool-inl.h:54-57 | at the last join every worker has exited, the queue is empty, and exactly the earlier messages are finished, each as often as it was queued or in a worker's hands |
| PollPollers.AddKeeps | muduo/net/poller/poll_poller.cc:46-68 | a new channel: bijection kept, the map of wanted events extended; masks stay right if and only if an event is wanted |
| PollPollers.ChangeKeeps | muduo/net/poller/poll_poller.cc:69-95 | a known channel: bijection, masks and all indices kept, the wanted events replaced |
| PollPollers.RemoveIndex | muduo/net/poller/poll_poller.cc:120-133 | swap-with-last changes one index only, that of the last slot's channel |
| PollPollers.RemoveKeeps | muduo/net/poller/poll_poller.cc:98-134 | removal keeps the bijection and the masks and forgets exactly one descriptor |
| PollPollers.RunRefinesMap | muduo/net/poller/poll_poller.cc:39-134 | every sequence of updates and removals leaves what a plain map would hold, in bijection with the slots; masks are right if first updates enable an event |
| PollPollers.RemoveIsSafe | muduo/net/poller/poll_poller.cc:114 | on a masked table the slot assertion of removeChannel holds if and only if nothing is wanted |
| PollPollers.FirstUpdateMasks | muduo/net/poller/poll_poller.cc:53-57 | a first update without events leaves the slot unmasked and the removal assertion false, until a second update |
| PollPollers.ActiveIsExact | muduo/net/poller/poll_poller.cc:26-37 | the active list is exactly the channels that poll reported, each once, each wanting an event |
| PollPollers.OnlyPollReports | muduo/net/poller/poll_poller.cc:39-134 | an update takes back what poll had reported of its channel; what it reported of the others survives updates and swaps |
| PollPollers.Channel.constructor | muduo/net/channel.cc:20-28 | no events and no index |
| PollPollers.PollPoller.constructor | muduo/net/poller/poll_poller.cc:7 | the empty table |
| PollPollers.PollPoller.UpdateChannel | muduo/net/poller/poll_poller.cc:39-96 | array, map and channel object together make the step of the table, and stay in bijection |
| PollPollers.PollPoller.RemoveChannel | muduo/net/poller/poll_poller.cc:98-134 | the same for removal; the removed channel keeps its old index, and updateChannel's assertions are false of it from then on |
| PollPollers.PollPoller.FillActiveChannels | muduo/net/poller/poll_poller.cc:26-37 | stopping after numEvents hits loses nothing: the channels are those with positive revents in array order, each with its revents |
| FormatScanner.ShortScan | muduo/base/spdlog/fmt/bundled/core.h:2619-2636 | the handler calls and the first error of the one-pass reading of the string |
| FormatScanner.Write | muduo/base/spdlog/fmt/bundled/core.h:2637-2652 | the text before a field, searched for doubled braces, gives the same calls but for empty text |
| FormatScanner.LongScan | muduo/base/spdlog/fmt/bundled/core.h:2653-2661 | the same calls and the same first error as the one-pass loop, but for empty text, for every advancing field parser |
| FormatScanner.Find | muduo/base/spdlog/fmt/bundled/core.h:2642 | the first occurrence in a range, or its end |
| FormatScanner.ScanMeans | muduo/base/spdlog/fmt/bundled/core.h:2619-2636 | the one-pass loop gives what the format string means, character by character, and before an error exactly what had to be delivered until then |
| FormatScanner.DeliversMeaning | muduo/base/spdlog/fmt/bundled/core.h:2624-2634 | what is delivered before an error is a beginning of the meaning, without the text that ends in an unmatched brace, and without an error it is all of it |
| FormatScanner.ScannersAgree | muduo/base/spdlog/fmt/bundled/core.h:2611-2662 | whatever is the same but for empty text has the meaning of the string, or its first error after the output that comes before it |
| FormatScanner.ParseFormatString | muduo/base/spdlog/fmt/bundled/core.h:2611-2662 | the switch at 32 characters cannot be noticed by the handler, in its output, its error, or its output before an error |

## Left out

- Shortest-digit branch of format_dragon, with its lower and upper bounds: only constant evaluation reaches it; FormatDragon takes num_digits >= 0.
- Grisu, the Dragonbox tables and the rest of fmt's formatting.
- The assertion on the capacity of 32 limbs in bigint's destructor, and limb counts or exponents beyond int.
- BigInteger.Bigint.DivmodAssign: the quotient is an unbounded number; when it fits the source's int is part of the contract.
- Bigint limbs are a field of type seq, so the reuse of the buffer's storage is not modelled.
- Buffer as an array: the output buffer is a byte sequence; the input buffer and message parsing are not part of the model.
- KqueuePoller, and a channel that one poll lists twice.
- POLLHUP together with POLLPRI and without POLLIN, where one event would call both the close and the read callback.
- forceClose from another thread, whose test and set of the state are not atomic; the high-water callback; destruction of TcpServer with open connections.
- TcpServers.LifeCycle: connection names are their numbers, so a wrap-around of the 32-bit counter is not modelled; which loop the pool hands out is arbitrary; the return from handleEvent is not a step of its own, so for ~Channel's assertion only the time up to the write callback is covered.
- TcpServers loops run the events of one poll and the queue in any order in which no functor runs between two events; WokenServers adds the swap and the wake-ups, for loops that stay in loop() and serve this server only.
- quit() called before loop(), which loop() forgets: the model forgets it too, and no property is claimed of it.
- TcpConnections.TcpConnection.HandleClose: the user's callback and closeCallback_ are steps of their own, the latter `CloseCallback` of TcpServers.
- TcpConnections.TcpConnection.ConnectDestroyed: channel_->remove() is `RemoveChannel` of PollPollers, and the registration a field in TcpServers.
- TcpConnections.TcpConnection.SendNow: the high-water callback is not called.
- TcpServers.TcpServer.QueueInLoop: the queue of a TcpServers loop only; the wake-up of the loop is in the one of EventLoops, and joined in WokenServers.
- loop() itself is the step system of EventLoops; a method that runs for ever is not written.
- The MinGW variant of the queue, which notifies under the mutex.
- Posts by other threads while the pool is being destroyed; thread creation and on_thread_start/stop.
- FormatScanner: parse_replacement_field is a parameter that advances or fails, and the error handler is taken to throw.
- Sockets, pipes, poll and time: their results are parameters or arbitrary; poll(2) is assumed to report nothing for a negative descriptor.
- Logging sinks, registry, colours, chrono and locale formatting, Windows code.
