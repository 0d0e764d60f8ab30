// The control logic the two streaming-validation front ends share, with the
// UART reduced to what each call returns: the byte-by-byte token matcher,
// the receive loop with its empty-poll timeout, the dataset-header checks,
// the per-frame receive timeout, and the loop over frames that decides
// after which frames a result goes back to the host.

module StreamCore {
  import opened Common

  // ---------------------------------------------------------------------
  // Protocol tokens.

  /** The bytes of a string literal as sizeof sees them: its characters and the terminating NUL. */
  function Literal(s: string): (bytes: seq<u8>)
    requires forall i :: 0 <= i < |s| ==> s[i] as int < 0x100
    ensures |bytes| == |s| + 1 && bytes[|s|] == 0
    ensures forall i :: 0 <= i < |s| ==> bytes[i] == s[i] as int
  {
    seq(|s|, i requires 0 <= i < |s| => s[i] as int as u8) + [0]
  }

  const MlStart: seq<u8> := Literal("ML_START")
  const MlModelDataReq: seq<u8> := Literal("ML_MODEL_DATA_REQ")
  const MlDatasetSendReq: seq<u8> := Literal("ML_DATASET_SENDREQ")
  const MlCompleted: seq<u8> := Literal("ML_COMPLETED")

  // ---------------------------------------------------------------------
  // The token matcher.

  /** What one cyhal_uart_getc call returns: a byte, or a failure (the per-byte timeout included). */
  datatype RxEvent = Got(b: u8) | GetcError

  /** Where a matcher stopped: its status and how many getc calls it made. */
  datatype Scan = Scan(status: Status, used: nat)

  /** The `|token|` events before position k are exactly the token's bytes. */
  ghost predicate EndsWith(rx: seq<RxEvent>, k: int, token: seq<u8>)
  {
    |token| <= k <= |rx| && forall j :: 0 <= j < |token| ==> rx[k - |token| + j] == Got(token[j])
  }

  /**
   * uart_wait_for_string from getc call i with `position` bytes
   * matched: a matching byte advances, the last one completes; any other
   * byte resets to position 0 without being compared again. When the
   * events run out the next getc times out.
   */
  function ScanFrom(token: seq<u8>, rx: seq<RxEvent>, i: nat, position: nat): (r: Scan)
    requires position < |token| && i <= |rx|
    ensures r.status == Success || r.status == CommError
    ensures i <= r.used <= |rx|
    decreases |rx| - i
  {
    if i == |rx| then Scan(CommError, i)
    else match rx[i]
      case GetcError => Scan(CommError, i + 1)
      case Got(b) =>
        if b == token[position] then
          if position + 1 == |token| then Scan(Success, i + 1)
          else ScanFrom(token, rx, i + 1, position + 1)
        else ScanFrom(token, rx, i + 1, 0)
  }

  /**
   * uart_wait_for_string over the getc results `rx`: on success the token's
   * bytes were the last ones read.
   */
  method WaitForString(token: seq<u8>, rx: seq<RxEvent>) returns (status: Status, used: nat)
    requires |token| >= 1
    ensures Scan(status, used) == ScanFrom(token, rx, 0, 0)
    ensures status == Success ==> EndsWith(rx, used, token)
  {
    ScanSound(token, rx, 0, 0);
    var position := 0;
    var i := 0;
    while i < |rx|
      invariant 0 <= i <= |rx| && position < |token|
      invariant ScanFrom(token, rx, i, position) == ScanFrom(token, rx, 0, 0)
    {
      match rx[i]
      case GetcError =>
        return CommError, i + 1;
      case Got(b) =>
        i := i + 1;
        if b == token[position] {
          if position + 1 == |token| {
            return Success, i;
          }
          position := position + 1;
        } else {
          position := 0;
        }
    }
    return CommError, |rx|;
  }

  /** What the matcher reports found is there: success means the token's bytes were the last ones read. */
  lemma {:induction false} ScanSound(token: seq<u8>, rx: seq<RxEvent>, i: nat, position: nat)
    requires position < |token| && position <= i <= |rx|
    requires forall j :: 0 <= j < position ==> rx[i - position + j] == Got(token[j])
    ensures ScanFrom(token, rx, i, position).status == Success ==>
      EndsWith(rx, ScanFrom(token, rx, i, position).used, token)
    decreases |rx| - i
  {
    if i < |rx| && rx[i].Got? {
      if rx[i].b == token[position] {
        if position + 1 < |token| {
          ScanSound(token, rx, i + 1, position + 1);
        }
      } else {
        ScanSound(token, rx, i + 1, 0);
      }
    }
  }

  /**
   * A byte that mismatches is not compared again from position 0, so a
   * stray 'M' right before ML_START hides it: the token's own 'M' meets
   * position 1 and is dropped, and the whole token goes by unmatched
   * although it is the last nine bytes received.
   */
  lemma StrayPrefixHidesStart()
    ensures var rx := [Got(77), Got(77), Got(76), Got(95), Got(83), Got(84), Got(65), Got(82), Got(84), Got(0)];
      EndsWith(rx, |rx|, MlStart) && ScanFrom(MlStart, rx, 0, 0).status == CommError
  {
    var rx := [Got(77), Got(77), Got(76), Got(95), Got(83), Got(84), Got(65), Got(82), Got(84), Got(0)];
    assert MlStart == [77, 76, 95, 83, 84, 65, 82, 84, 0];
    assert ScanFrom(MlStart, rx, 2, 0) == Scan(CommError, 10);
  }

  /**
   * A token that arrives while the matcher is partway through it, or reset,
   * is found: the matcher succeeds right after its last byte.
   */
  lemma {:induction false} ScanCompletesToken(token: seq<u8>, rx: seq<RxEvent>, i: nat, position: nat)
    requires position < |token| && i + (|token| - position) <= |rx|
    requires forall k :: i <= k < i + |token| - position ==> rx[k] == Got(token[k - i + position])
    ensures ScanFrom(token, rx, i, position) == Scan(Success, i + |token| - position)
    decreases |token| - position
  {
    assert rx[i] == Got(token[position]);
    if position + 1 < |token| {
      ScanCompletesToken(token, rx, i + 1, position + 1);
    }
  }

  // ---------------------------------------------------------------------
  // The receive loop.

  /** What one cyhal_uart_read call returns: the number of bytes it delivered (at most the number asked for), or a failure. */
  datatype Poll = Delivered(n: nat) | ReadError

  /** The bytes the polls offered, before capping at the request. */
  function Arrived(polls: seq<Poll>): nat
  {
    if |polls| == 0 then 0
    else Arrived(polls[..|polls| - 1]) + (match polls[|polls| - 1] case Delivered(n) => n case ReadError => 0)
  }

  /** The polls that delivered nothing. */
  function Empties(polls: seq<Poll>): nat
  {
    if |polls| == 0 then 0
    else Empties(polls[..|polls| - 1]) + (if polls[|polls| - 1] == Delivered(0) then 1 else 0)
  }

  /** No poll failed. */
  predicate NoReadError(polls: seq<Poll>)
  {
    forall k :: 0 <= k < |polls| ==> polls[k].Delivered?
  }

  function Min(a: int, b: int): int
  {
    if a < b then a else b
  }

  lemma PollStep(polls: seq<Poll>, i: nat)
    requires i < |polls|
    ensures Arrived(polls[..i + 1]) == Arrived(polls[..i]) + (match polls[i] case Delivered(n) => n case ReadError => 0)
    ensures Empties(polls[..i + 1]) == Empties(polls[..i]) + (if polls[i] == Delivered(0) then 1 else 0)
  {
    assert polls[..i + 1][..i] == polls[..i];
  }

  /** The bytes one read delivers land after the ones already received. */
  method CopyChunk(buf: array<u8>, stream: seq<u8>, from: nat, take: nat)
    requires from + take <= buf.Length && from + take <= |stream|
    requires buf[..from] == stream[..from]
    modifies buf
    ensures buf[..from + take] == stream[..from + take]
    ensures buf[from + take..] == old(buf[from + take..])
  {
    forall k | from <= k < from + take {
      buf[k] := stream[k];
    }
    forall k | 0 <= k < from ensures buf[k] == stream[k] {
      assert old(buf[..from])[k] == stream[..from][k];
    }
  }

  /**
   * uart_get_data: poll until `length` bytes have arrived into `buf`, in
   * the order `stream` sends them. A failed read gives COMM_ERROR; each
   * poll that delivers nothing counts the timeout down and the one that
   * reaches 0 gives TIMEOUT. Polls after the given ones deliver nothing,
   * so running out of them ends in TIMEOUT as well.
   */
  method GetData(buf: array<u8>, length: nat, timeout: int, polls: seq<Poll>, stream: seq<u8>)
    returns (status: Status, used: nat, received: nat)
    requires length <= buf.Length && length <= |stream| && timeout > 0
    modifies buf
    ensures status == Success || status == CommError || status == Timeout
    ensures used <= |polls| && received <= length
    ensures buf[..received] == stream[..received] && buf[received..] == old(buf[received..])
    ensures status == ReceiveFrom(polls, 0, 0, timeout, length)
    ensures status == Success <==> received == length
    ensures status == Success ==>
      NoReadError(polls[..used]) && received == Min(Arrived(polls[..used]), length)
      && Empties(polls[..used]) < timeout
    ensures status == CommError ==>
      used >= 1 && polls[used - 1] == ReadError && NoReadError(polls[..used - 1])
      && received == Arrived(polls[..used - 1]) && Empties(polls[..used - 1]) < timeout
    ensures status == Timeout ==>
      NoReadError(polls[..used]) && received == Arrived(polls[..used])
      && (Empties(polls[..used]) == timeout || (used == |polls| && Empties(polls[..used]) < timeout))
  {
    received := 0;
    used := 0;
    var left := timeout;
    ghost var arrived, empties := 0, 0;
    while received < length
      invariant used <= |polls| && received <= length
      invariant arrived == Arrived(polls[..used]) && empties == Empties(polls[..used])
      invariant NoReadError(polls[..used])
      invariant received == Min(arrived, length)
      invariant left == timeout - empties && left > 0
      invariant buf[..received] == stream[..received] && buf[received..] == old(buf[received..])
      invariant ReceiveFrom(polls, used, received, left, length) == ReceiveFrom(polls, 0, 0, timeout, length)
      decreases |polls| - used
    {
      if used == |polls| {
        return Timeout, used, received;
      }
      PollStep(polls, used);
      match polls[used]
      case ReadError =>
        return CommError, used + 1, received;
      case Delivered(n) =>
        var take := Min(n, length - received);
        CopyChunk(buf, stream, received, take);
        used := used + 1;
        arrived := arrived + n;
        if take == 0 {
          empties := empties + 1;
          left := left - 1;
          if left == 0 {
            return Timeout, used, received;
          }
        }
        received := received + take;
    }
    status := Success;
  }

  /** Two allocations in a row both succeed exactly when the second fits in what the first leaves. */
  lemma AllFitPair(a: int, b: int, avail: int)
    ensures AllFit([a, b], avail) <==> 0 <= a <= avail && 0 <= b <= avail - a
  {
    assert [a, b][1..] == [b];
    assert [b][1..] == [];
    assert AllFit([], avail - a - b);
    assert AllFit([b], avail - a) <==> 0 <= b <= avail - a;
  }

  // ---------------------------------------------------------------------
  // Dataset header and frame timing.

  /**
   * cy_ml_dataset_header_t: data type (absent from the legacy layout),
   * frame count, frame size, Q factor, input and output unit sizes, baud rate.
   */
  datatype DatasetHeader = DatasetHeader(dataType: Option<int>, nEx: int, inSz: int, qFixed: int,
                                         inputSize: int, outputSize: int, baudRate: int)

  /**
   * The header checks of the stream task, in order: the frame size must be the
   * model's input size, the output unit size and the input unit size must
   * be the build's data unit sizes. Any mismatch is BAD_ARG.
   */
  function CheckHeader(h: DatasetHeader, modelInputSize: int, outUnit: nat, inUnit: nat): (status: Status)
    ensures status == Success <==> h.inSz == modelInputSize && h.outputSize == outUnit && h.inputSize == inUnit
    ensures status == Success || status == BadArg
  {
    if h.inSz != modelInputSize then BadArg
    else if h.outputSize != outUnit then BadArg
    else if h.inputSize != inUnit then BadArg
    else Success
  }

  const DefaultRxTimeout: int := 5000

  /**
   * The bytes of `count` data units of `unit` bytes each, as a size_t: a
   * frame's `in_sz * data_size`, a buffer's `size * sizeof(MTB_ML_DATA_T)`.
   */
  function UnitBytes(count: int, unit: nat): u32
  {
    Wrap32(Wrap32(count) * unit)
  }

  /** a * n, as repeated addition (keeps the timeout's definition linear for the solver). */
  function Mul(a: int, n: nat): int
  {
    if n == 0 then 0 else Mul(a, n - 1) + a
  }

  lemma {:induction false} MulIsProduct(a: int, n: nat)
    ensures Mul(a, n) == a * n
  {
    if n > 0 {
      MulIsProduct(a, n - 1);
    }
  }

  /**
   * The per-frame receive timeout: ten seconds per 10 KiB, computed as
   * `(10 * 1000 * in_sz * data_size) / (10 * 1024)` in size_t arithmetic,
   * raised to DEFAULT_RX_TIMEOUT when smaller.
   */
  function RxTimeout(inSz: int, dataSize: nat): int
  {
    var q := Wrap32(Mul(Wrap32(10000 * inSz), dataSize)) / 10240;
    if q < DefaultRxTimeout then DefaultRxTimeout else q
  }

  /**
   * The timeout is never below the default and never above what a 32-bit
   * product allows; when the product fits it is the exact quotient or the
   * default, whichever is larger.
   */
  lemma RxTimeoutBounds(inSz: int, dataSize: nat)
    ensures DefaultRxTimeout <= RxTimeout(inSz, dataSize) < Two32 / 10240 + 1
    ensures 0 <= inSz && 10000 * inSz * dataSize < Two32 ==>
      RxTimeout(inSz, dataSize) == (if 10000 * inSz * dataSize / 10240 < DefaultRxTimeout then DefaultRxTimeout
                                    else 10000 * inSz * dataSize / 10240)
  {
    MulIsProduct(Wrap32(10000 * inSz), dataSize);
    if 0 <= inSz && 10000 * inSz * dataSize < Two32 {
      if dataSize > 0 {
        MulAtLeast(dataSize, 10000 * inSz + 1);
        assert 10000 * inSz < Two32;
      }
    }
  }

  // ---------------------------------------------------------------------
  // The frame loop.

  /**
   * The time-series counter before frame j (0-based), kept as the stream task keeps
   * it: each frame counts it up, and it is cleared when it reaches ts (at
   * every frame when ts is 0).
   */
  function SeriesCount(j: nat, ts: int): int
    decreases j, 0
  {
    if j == 0 then 0
    else if EmitsAt(j - 1, ts) then 0
    else SeriesCount(j - 1, ts) + 1
  }

  /** Whether a result goes back after frame j: the counted-up counter reached ts, or ts is 0. */
  predicate EmitsAt(j: nat, ts: int)
    decreases j, 1
  {
    ts == 0 || SeriesCount(j, ts) + 1 == ts
  }

  /**
   * The closed form of the schedule: every frame for a non-recurrent model,
   * the last frame of each series of ts frames otherwise, never for a
   * negative series length.
   */
  predicate Emits(j: int, ts: int)
  {
    ts == 0 || (ts > 0 && (j + 1) % ts == 0)
  }

  /** The closed form of the counter. */
  function Counter(j: nat, ts: int): int
  {
    if ts > 0 then j % ts else if ts == 0 then 0 else j
  }

  lemma DivUnique(x: int, d: int, q: int, r: int)
    requires d > 0 && 0 <= r < d && x == q * d + r
    ensures x / d == q && x % d == r
  {
    var k := q - x / d;
    assert k * d == x % d - r;
    if k > 0 {
      MulAtLeast(k, d);
    } else if k < 0 {
      MulAtLeast(-k, d);
    }
  }

  lemma MulAtLeast(k: int, d: int)
    requires k >= 1 && d > 0
    ensures k * d >= d
  {
  }

  /** One frame on in closed form: the frame emits exactly when the counter reaches ts, and the counter is cleared or one more. */
  lemma CounterStep(j: nat, ts: int)
    ensures (ts == 0 || Counter(j, ts) + 1 == ts) <==> Emits(j, ts)
    ensures Counter(j + 1, ts) == (if Emits(j, ts) then 0 else Counter(j, ts) + 1)
  {
    if ts > 0 {
      var q, r := j / ts, j % ts;
      assert j == q * ts + r;
      if r + 1 < ts {
        DivUnique(j + 1, ts, q, r + 1);
      } else {
        assert j + 1 == (q + 1) * ts;
        DivUnique(j + 1, ts, q + 1, 0);
      }
    }
  }

  /** The counter the stream task keeps is j mod ts, and it emits after frame j exactly when ts divides j + 1. */
  lemma {:induction false} SeriesCountClosedForm(j: nat, ts: int)
    ensures SeriesCount(j, ts) == Counter(j, ts)
    ensures EmitsAt(j, ts) <==> Emits(j, ts)
  {
    if j > 0 {
      SeriesCountClosedForm(j - 1, ts);
      CounterStep(j - 1, ts);
    }
    CounterStep(j, ts);
  }

  /** The frames among the first n after which a result is sent, in order. */
  function Schedule(n: nat, ts: int): seq<int>
  {
    if n == 0 then [] else Schedule(n - 1, ts) + (if EmitsAt(n - 1, ts) then [n - 1] else [])
  }

  /** Schedule(n, ts) holds exactly the frames below n whose number plus one ts divides (all of them for ts = 0). */
  lemma {:induction false} ScheduleMembers(n: nat, ts: int)
    ensures forall j :: j in Schedule(n, ts) <==> 0 <= j < n && Emits(j, ts)
  {
    if n > 0 {
      ScheduleMembers(n - 1, ts);
      SeriesCountClosedForm(n - 1, ts);
    }
  }

  lemma DivStep(n: nat, d: int)
    requires d > 0
    ensures (n + 1) / d == n / d + (if (n + 1) % d == 0 then 1 else 0)
  {
    var q, r := n / d, n % d;
    assert n == q * d + r;
    if r + 1 < d {
      DivUnique(n + 1, d, q, r + 1);
    } else {
      assert n + 1 == (q + 1) * d;
      DivUnique(n + 1, d, q + 1, 0);
    }
  }

  /**
   * The number of results over n frames: n for a non-recurrent model,
   * the number of complete time series (n / ts) for a recurrent one, none
   * for a negative series length.
   */
  lemma {:induction false} ScheduleCount(n: nat, ts: int)
    ensures |Schedule(n, ts)| == (if ts == 0 then n else if ts > 0 then n / ts else 0)
  {
    if n > 0 {
      ScheduleCount(n - 1, ts);
      SeriesCountClosedForm(n - 1, ts);
      if ts > 0 {
        DivStep(n - 1, ts);
      }
    }
  }

  /**
   * The UART results one frame meets: the frame request, the frame data,
   * the inference, and the result tag, output data and output Q bits a
   * result sends.
   */
  datatype FrameIo = FrameIo(request: Status, polls: seq<Poll>, bytes: seq<u8>, run: Status,
                             resultTag: Status, output: Status, outQ: Status)

  /** How receiving a frame ends, as GetData decides it. */
  function ReceiveFrom(polls: seq<Poll>, i: nat, received: nat, left: int, length: nat): (status: Status)
    requires i <= |polls| && received <= length
    decreases |polls| - i
  {
    if received >= length then Success
    else if i == |polls| then Timeout
    else match polls[i]
      case ReadError => CommError
      case Delivered(n) =>
        var take := Min(n, length - received);
        if take == 0 && left - 1 == 0 then Timeout
        else ReceiveFrom(polls, i + 1, received + take, if take == 0 then left - 1 else left, length)
  }

  /**
   * The outcome of one frame: the first step that fails decides it; a frame
   * that emits also sends the tag, the output, and in fixed-point builds
   * the output Q bits.
   */
  function FrameStatus(f: FrameIo, emits: bool, sendsQ: bool, length: nat, timeout: int): Status
  {
    if f.request != Success then f.request
    else if ReceiveFrom(f.polls, 0, 0, timeout, length) != Success then ReceiveFrom(f.polls, 0, 0, timeout, length)
    else if f.run != Success then f.run
    else if !emits then Success
    else if f.resultTag != Success then f.resultTag
    else if f.output != Success then f.output
    else if sendsQ && f.outQ != Success then f.outQ
    else Success
  }

  /** The first n frames all succeed. */
  ghost predicate AllOk(frames: seq<FrameIo>, n: nat, ts: int, sendsQ: bool, length: nat, timeout: int)
    requires n <= |frames|
  {
    forall k :: 0 <= k < n ==> FrameStatus(frames[k], EmitsAt(k, ts), sendsQ, length, timeout) == Success
  }

  lemma AllOkStep(frames: seq<FrameIo>, n: nat, ts: int, sendsQ: bool, length: nat, timeout: int)
    requires n < |frames| && AllOk(frames, n, ts, sendsQ, length, timeout)
    requires FrameStatus(frames[n], EmitsAt(n, ts), sendsQ, length, timeout) == Success
    ensures AllOk(frames, n + 1, ts, sendsQ, length, timeout)
  {
  }

  /**
   * One pass of the frame loop: request the frame, receive its bytes into
   * `rxBuff`, run the model, and send the result when `emits` says so.
   */
  method Frame(f: FrameIo, emits: bool, sendsQ: bool, length: u32, timeout: int, rxBuff: array<u8>)
    returns (status: Status)
    requires length <= rxBuff.Length && length <= |f.bytes| && timeout > 0
    modifies rxBuff
    ensures status == FrameStatus(f, emits, sendsQ, length, timeout)
    ensures f.request == Success ==> rxBuff[..length] == f.bytes[..length] || status != Success
  {
    if f.request != Success {
      return f.request;
    }
    var used, received;
    status, used, received := GetData(rxBuff, length, timeout, f.polls, f.bytes);
    if status != Success {
      return;
    }
    if f.run != Success {
      return f.run;
    }
    if emits {
      if f.resultTag != Success {
        return f.resultTag;
      }
      if f.output != Success {
        return f.output;
      }
      if sendsQ && f.outQ != Success {
        return f.outQ;
      }
    }
  }

  /**
   * The frame loop of the stream task: for each of the n_ex frames request it,
   * receive it into `rxBuff`, run the model on it, and send a result when
   * the time-series counter, counted up per frame and cleared when it
   * reaches ts, says so. The first failure ends the loop with that status;
   * `done` frames completed before it, and `emitted` are the frames after
   * which a result went back.
   */
  method Frames(nEx: int, length: u32, timeout: int, ts: int, sendsQ: bool, frames: seq<FrameIo>, rxBuff: array<u8>)
    returns (status: Status, done: nat, emitted: seq<int>)
    requires nEx <= |frames| && timeout > 0
    requires length <= rxBuff.Length
    requires forall j :: 0 <= j < |frames| ==> length <= |frames[j].bytes|
    modifies rxBuff
    ensures done <= |frames| && (nEx >= 0 ==> done <= nEx) && (nEx < 0 ==> done == 0)
    ensures emitted == Schedule(done, ts)
    ensures AllOk(frames, done, ts, sendsQ, length, timeout)
    ensures status == Success ==> done == (if nEx < 0 then 0 else nEx)
    ensures status != Success ==>
      done < nEx && status == FrameStatus(frames[done], EmitsAt(done, ts), sendsQ, length, timeout)
  {
    var tsCnt := 0;
    emitted := [];
    done := 0;
    while done < nEx
      invariant (nEx >= 0 ==> done <= nEx) && (nEx < 0 ==> done == 0) && done <= |frames|
      invariant tsCnt == SeriesCount(done, ts)
      invariant emitted == Schedule(done, ts)
      invariant AllOk(frames, done, ts, sendsQ, length, timeout)
    {
      tsCnt := tsCnt + 1;
      var emits := ts == 0 || tsCnt == ts;
      status := Frame(frames[done], emits, sendsQ, length, timeout, rxBuff);
      if status != Success {
        return;
      }
      AllOkStep(frames, done, ts, sendsQ, length, timeout);
      if emits {
        tsCnt := 0;
        emitted := emitted + [done];
      }
      done := done + 1;
    }
    status := Success;
  }

  // ---------------------------------------------------------------------
  // Little-endian 32-bit integers, as the dataset header's fields arrive.

  const HeaderFieldBytes: nat := 4

  /** The int32_t stored little-endian at byte k. */
  function Int32At(bytes: seq<u8>, k: nat): (x: int)
    requires k + 4 <= |bytes|
    ensures -0x8000_0000 <= x < 0x8000_0000
  {
    var u := bytes[k] as int + 0x100 * bytes[k + 1] as int + 0x1_0000 * bytes[k + 2] as int + 0x100_0000 * bytes[k + 3] as int;
    if u >= 0x8000_0000 then u - Two32 else u
  }

  /** The four little-endian bytes of an int32_t. */
  function EncodeInt32(x: int): (bytes: seq<u8>)
    requires -0x8000_0000 <= x < 0x8000_0000
    ensures |bytes| == 4
  {
    var u := if x < 0 then x + Two32 else x;
    var a := u / 0x100;
    var b := a / 0x100;
    [u % 0x100, a % 0x100, b % 0x100, b / 0x100]
  }

  /** Reading back an encoded int32_t gives the value, wherever it sits in a message. */
  lemma Int32RoundTrip(x: int, before: seq<u8>, after: seq<u8>)
    requires -0x8000_0000 <= x < 0x8000_0000
    ensures Int32At(before + EncodeInt32(x) + after, |before|) == x
  {
    var bytes := before + EncodeInt32(x) + after;
    var e := EncodeInt32(x);
    var k := |before|;
    assert bytes[k] == e[0] && bytes[k + 1] == e[1] && bytes[k + 2] == e[2] && bytes[k + 3] == e[3];
    var u := if x < 0 then x + Two32 else x;
    var a := u / 0x100;
    var b := a / 0x100;
    assert u == u % 0x100 + 0x100 * a;
    assert a == a % 0x100 + 0x100 * b;
    assert b == b % 0x100 + 0x100 * (b / 0x100);
    assert u == e[0] as int + 0x100 * e[1] as int + 0x1_0000 * e[2] as int + 0x100_0000 * e[3] as int;
  }

  // ---------------------------------------------------------------------
  // The handshake.

  /**
   * The UART results the handshake meets: the getc results while it waits
   * for ML_START, ML_MODEL_DATA_REQ and ML_DATASET_SENDREQ, the results of
   * sending ML_READY, ML_MODEL_DATA, the model information and ML_READY
   * again, and the reads and bytes of the dataset header.
   */
  datatype HandshakeIo = HandshakeIo(startRx: seq<RxEvent>, readySent: Status, modelReqRx: seq<RxEvent>,
                                     modelDataSent: Status, infoSent: Status, datasetReqRx: seq<RxEvent>,
                                     readyAgainSent: Status, headerPolls: seq<Poll>, headerBytes: seq<u8>)

  /**
   * How the handshake ends: TIMEOUT when ML_START never arrives, COMM_ERROR
   * when any later step fails, whatever that step reported.
   */
  ghost function HandshakeOutcome(io: HandshakeIo, headerLength: nat): Status
  {
    if ScanFrom(MlStart, io.startRx, 0, 0).status != Success then Timeout
    else if io.readySent != Success
      || ScanFrom(MlModelDataReq, io.modelReqRx, 0, 0).status != Success
      || io.modelDataSent != Success
      || io.infoSent != Success
      || ScanFrom(MlDatasetSendReq, io.datasetReqRx, 0, 0).status != Success
      || io.readyAgainSent != Success
      || ReceiveFrom(io.headerPolls, 0, 0, DefaultRxTimeout, headerLength) != Success
    then CommError
    else Success
  }

  /**
   * The handshake of the stream task: wait for ML_START, answer ML_READY, wait for
   * the model-data request, send the model information, wait for the
   * dataset request, answer ML_READY, and receive the dataset header into
   * `header`.
   */
  method Handshake(io: HandshakeIo, header: array<u8>) returns (status: Status)
    requires header.Length <= |io.headerBytes|
    modifies header
    ensures status == HandshakeOutcome(io, header.Length)
    ensures status == Success ==> header[..] == io.headerBytes[..header.Length]
  {
    var st, used := WaitForString(MlStart, io.startRx);
    if st != Success {
      return Timeout;
    }
    if io.readySent != Success {
      return CommError;
    }
    st, used := WaitForString(MlModelDataReq, io.modelReqRx);
    if st != Success {
      return CommError;
    }
    if io.modelDataSent != Success || io.infoSent != Success {
      return CommError;
    }
    st, used := WaitForString(MlDatasetSendReq, io.datasetReqRx);
    if st != Success {
      return CommError;
    }
    if io.readyAgainSent != Success {
      return CommError;
    }
    var received;
    st, used, received := GetData(header, header.Length, DefaultRxTimeout, io.headerPolls, io.headerBytes);
    if st != Success {
      return CommError;
    }
    assert header[..] == header[..received];
    status := Success;
  }

  /** How the stream task's closing exchange ends: waiting for ML_COMPLETED, then sending ML_DONE. */
  ghost function ClosingOutcome(completedRx: seq<RxEvent>, doneSent: Status): Status
  {
    if ScanFrom(MlCompleted, completedRx, 0, 0).status != Success then CommError else doneSent
  }

  /** Wait for the host's ML_COMPLETED and answer ML_DONE. */
  method Closing(completedRx: seq<RxEvent>, doneSent: Status) returns (status: Status)
    ensures status == ClosingOutcome(completedRx, doneSent)
  {
    var used;
    status, used := WaitForString(MlCompleted, completedRx);
    if status != Success {
      return;
    }
    status := doneSent;
  }
}
