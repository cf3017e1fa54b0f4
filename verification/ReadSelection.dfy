/** Reading every representation of a selection from its pipes at once, within
    a budget. */
module ReadSelections {
  import opened Basics
  import opened Copies

  const CHUNK: nat := 64 * 1024

  /** What one read of a pipe gives. */
  datatype Read = Chunk(bytes: Bytes) | End | Again | Broken

  /** What one wait for the pipes comes to: interrupted, impossible, or some of
      them ready to be read. The schedule ends when the time is up. */
  datatype Round = Interrupted | Fails | Ready(results: map<nat, Read>)

  predicate Possible(rounds: seq<Round>) {
    forall n, i :: 0 <= n < |rounds| && rounds[n].Ready? && i in rounds[n].results && rounds[n].results[i].Chunk? ==>
      0 < |rounds[n].results[i].bytes| <= CHUNK
  }

  datatype Reading = Reading(open: bool, whole: bool, bytes: Bytes)

  const UNREAD := Reading(true, false, [])

  // ------------------------------------------------------------ one pipe alone

  function AfterRead(r: Reading, read: Read): Reading {
    match read
    case Chunk(bytes) => r.(bytes := r.bytes + bytes)
    case End => Reading(false, true, r.bytes)
    case Again => r
    case Broken => Reading(false, false, [])
  }

  function AfterRound(r: Reading, round: Round, i: nat): Reading {
    if r.open && round.Ready? && i in round.results then AfterRead(r, round.results[i]) else r
  }

  /** What has become of a pipe after `n` rounds, whatever happens to the
      others. */
  function Pipe(rounds: seq<Round>, n: nat, i: nat): Reading
    requires n <= |rounds|
    decreases n
  {
    if n == 0 then UNREAD else AfterRound(Pipe(rounds, n - 1, i), rounds[n - 1], i)
  }

  function Pipes(rounds: seq<Round>, n: nat, count: nat): (readings: seq<Reading>)
    requires n <= |rounds|
    ensures |readings| == count
  {
    seq(count, i requires i >= 0 => Pipe(rounds, n, i))
  }

  function Held(readings: seq<Reading>): nat {
    if readings == [] then 0 else Held(readings[..|readings| - 1]) + |readings[|readings| - 1].bytes|
  }

  // ---------------------------------------------------------------- the budget

  /** Drops the last ones until the rest fits. */
  function Fitting(readings: seq<Reading>, kept: nat, budget: nat): (left: nat)
    requires kept <= |readings|
    ensures left <= kept && Held(readings[..left]) <= budget
    ensures left < kept ==> Held(readings[..left + 1]) > budget
  {
    if Held(readings[..kept]) <= budget || kept == 0 then kept else Fitting(readings, kept - 1, budget)
  }

  /** How many of the types are left, after each of `n` rounds dropped what
      did not fit. */
  function Kept(rounds: seq<Round>, n: nat, count: nat, budget: nat): (kept: nat)
    requires n <= |rounds|
    ensures kept <= count
    decreases n
  {
    if n == 0 then count else Fitting(Pipes(rounds, n, count), Kept(rounds, n - 1, count, budget), budget)
  }

  /** What is left of the pipes after `n` rounds. */
  function Left(rounds: seq<Round>, n: nat, count: nat, budget: nat): (left: seq<Reading>)
    requires n <= |rounds|
    ensures |left| <= count
  {
    Pipes(rounds, n, Kept(rounds, n, count, budget))
  }

  // --------------------------------------------------------------- the outcome

  /** The rounds up to the first that cannot wait. */
  function Waited(rounds: seq<Round>): (n: nat)
    ensures n <= |rounds|
    ensures forall k :: 0 <= k < n ==> !rounds[k].Fails?
    ensures n < |rounds| ==> rounds[n].Fails?
  {
    if rounds == [] || rounds[0].Fails? then 0
    else
      var n := Waited(rounds[1..]) + 1;
      assert forall k :: 0 < k < n ==> rounds[k] == rounds[1..][k - 1];
      n
  }

  function Complete(mimes: seq<string>, readings: seq<Reading>): seq<Rep>
    requires |readings| <= |mimes|
  {
    if readings == [] then []
    else
      var last := |readings| - 1;
      Complete(mimes, readings[..last])
      + if readings[last].whole && readings[last].bytes != [] then [Rep(mimes[last], readings[last].bytes)] else []
  }

  /** What is left of the selection once reading stops. */
  function Collected(mimes: seq<string>, rounds: seq<Round>, budget: nat): seq<Rep> {
    var left := Left(rounds, Waited(rounds), |mimes|, budget);
    if left == [] || !left[0].whole then [] else Complete(mimes, left)
  }

  lemma {:induction false} HeldOfOthers(readings: seq<Reading>, i: nat, r: Reading)
    requires i < |readings|
    ensures Held(readings[i := r]) == Held(readings) - |readings[i].bytes| + |r.bytes|
    ensures |readings[i].bytes| <= Held(readings)
  {
    var last := |readings| - 1;
    if i == last {
      assert readings[i := r][..last] == readings[..last];
    } else {
      assert readings[i := r][..last] == readings[..last][i := r];
      HeldOfOthers(readings[..last], i, r);
    }
  }

  lemma {:induction false} NothingHeld(readings: seq<Reading>)
    requires forall i :: 0 <= i < |readings| ==> readings[i].bytes == []
    ensures Held(readings) == 0
  {
    if readings != [] { NothingHeld(readings[..|readings| - 1]); }
  }

  lemma {:induction false} FittingOfPrefix(readings: seq<Reading>, kept: nat, k: nat, budget: nat)
    requires k <= kept <= |readings|
    ensures Fitting(readings, k, budget) == Fitting(readings[..kept], k, budget)
  {
    assert readings[..kept][..k] == readings[..k];
    if k > 0 { FittingOfPrefix(readings, kept, k - 1, budget); }
  }

  lemma FewerPipes(rounds: seq<Round>, n: nat, count: nat, kept: nat)
    requires n <= |rounds| && kept <= count
    ensures Pipes(rounds, n, count)[..kept] == Pipes(rounds, n, kept)
  {}

  lemma PipesMoveOn(rounds: seq<Round>, n: nat, after: seq<Reading>)
    requires n < |rounds|
    requires forall i :: 0 <= i < |after| ==> after[i] == AfterRound(Pipe(rounds, n, i), rounds[n], i)
    ensures after == Pipes(rounds, n + 1, |after|)
  {}

  /** One more round, seen from what the last ones left. */
  lemma RoundKeeps(rounds: seq<Round>, n: nat, count: nat, budget: nat, after: seq<Reading>)
    requires n < |rounds| && |after| == Kept(rounds, n, count, budget)
    requires forall i :: 0 <= i < |after| ==> after[i] == AfterRound(Pipe(rounds, n, i), rounds[n], i)
    ensures after[..Fitting(after, |after|, budget)] == Left(rounds, n + 1, count, budget)
  {
    PipesMoveOn(rounds, n, after);
    DroppingKeeps(rounds, n, count, budget, |after|);
  }

  lemma DroppingKeeps(rounds: seq<Round>, n: nat, count: nat, budget: nat, kept: nat)
    requires n < |rounds| && kept == Kept(rounds, n, count, budget)
    ensures var after := Pipes(rounds, n + 1, kept);
            after[..Fitting(after, kept, budget)] == Left(rounds, n + 1, count, budget)
  {
    var after := Pipes(rounds, n + 1, kept);
    FewerPipes(rounds, n + 1, count, kept);
    FittingOfPrefix(Pipes(rounds, n + 1, count), kept, kept, budget);
    FewerPipes(rounds, n + 1, kept, Fitting(after, kept, budget));
  }

  /** A round nothing was read in leaves everything as it is. */
  lemma IdleRoundKeeps(rounds: seq<Round>, n: nat, count: nat, budget: nat, reading: seq<Reading>)
    requires n < |rounds| && reading == Left(rounds, n, count, budget) && Held(reading) <= budget
    requires forall i :: 0 <= i < |reading| ==> AfterRound(reading[i], rounds[n], i) == reading[i]
    ensures Left(rounds, n + 1, count, budget) == reading
  {
    assert reading[..|reading|] == reading;
    RoundKeeps(rounds, n, count, budget, reading);
  }

  predicate AllOver(readings: seq<Reading>) {
    forall i :: 0 <= i < |readings| ==> !readings[i].open
  }

  lemma OverStaysOver(rounds: seq<Round>, n: nat, count: nat, budget: nat, reading: seq<Reading>)
    requires n < |rounds| && reading == Left(rounds, n, count, budget) && AllOver(reading) && Held(reading) <= budget
    ensures reading == Left(rounds, n + 1, count, budget)
  {
    IdleRoundKeeps(rounds, n, count, budget, reading);
  }

  /** Once every pipe left is done with, nothing more can happen. */
  lemma {:induction false} NothingMoreToRead(
    rounds: seq<Round>, n: nat, m: nat, count: nat, budget: nat, reading: seq<Reading>)
    requires n <= m <= |rounds| && reading == Left(rounds, n, count, budget)
             && AllOver(reading) && Held(reading) <= budget
    ensures reading == Left(rounds, m, count, budget)
    decreases m - n
  {
    if n < m {
      OverStaysOver(rounds, n, count, budget, reading);
      NothingMoreToRead(rounds, n + 1, m, count, budget, reading);
    }
  }

  /** One read, and the bytes held altogether after it. */
  method ReadOne(reading: Reading, read: Read, held: nat) returns (after: Reading, now: nat)
    requires |reading.bytes| <= held
    ensures after == AfterRead(reading, read) && now == held - |reading.bytes| + |after.bytes|
  {
    after, now := reading, held;
    match read {
      case End => after := Reading(false, true, reading.bytes);
      case Chunk(bytes) => after, now := reading.(bytes := reading.bytes + bytes), held + |bytes|;
      case Again =>
      case Broken => after, now := Reading(false, false, []), held - |reading.bytes|;
    }
  }

  /** Reads whatever is ready, at most a chunk of each. */
  method ReadReady(before: seq<Reading>, held: nat, results: map<nat, Read>)
    returns (after: seq<Reading>, now: nat, ghost most: nat)
    requires held == Held(before)
    requires forall i :: i in results && results[i].Chunk? ==> |results[i].bytes| <= CHUNK
    ensures |after| == |before| && now == Held(after)
    ensures forall i :: 0 <= i < |after| ==> after[i] == AfterRound(before[i], Ready(results), i)
    ensures now <= most <= held + CHUNK * |before|
  {
    after, now, most := before, held, held;
    for i := 0 to |before|
      invariant |after| == |before| && now == Held(after)
      invariant forall k :: 0 <= k < i ==> after[k] == AfterRound(before[k], Ready(results), k)
      invariant forall k :: i <= k < |before| ==> after[k] == before[k]
      invariant now <= most <= held + CHUNK * i
    {
      if after[i].open && i in results {
        HeldOfOthers(after, i, AfterRead(after[i], results[i]));
        var reading;
        reading, now := ReadOne(after[i], results[i], now);
        after := after[i := reading];
        most := Max(most, now);
      }
    }
  }

  /** Drops the last representations while more is held than the budget. */
  method DropOver(before: seq<Reading>, held: nat, budget: nat) returns (after: seq<Reading>, now: nat)
    requires held == Held(before)
    ensures after == before[..Fitting(before, |before|, budget)]
    ensures now == Held(after) <= budget
  {
    after, now := before, held;
    assert before[..|before|] == before;
    while now > budget && after != []
      invariant |after| <= |before| && after == before[..|after|] && now == Held(after)
      invariant Fitting(before, |before|, budget) == Fitting(before, |after|, budget)
    {
      now := now - |after[|after| - 1].bytes|;
      after := after[..|after| - 1];
    }
  }

  /** The reads and drops that follow one wait. */
  method ReadAndDrop(rounds: seq<Round>, n: nat, count: nat, reading: seq<Reading>, held: nat, budget: nat)
    returns (after: seq<Reading>, now: nat, ghost most: nat)
    requires Possible(rounds) && n < |rounds| && rounds[n].Ready?
    requires reading == Left(rounds, n, count, budget) && held == Held(reading) <= budget
    ensures after == Left(rounds, n + 1, count, budget) && now == Held(after) <= budget
    ensures most <= budget + CHUNK * |reading|
  {
    after, now, most := ReadReady(reading, held, rounds[n].results);
    RoundKeeps(rounds, n, count, budget, after);
    after, now := DropOver(after, now, budget);
  }

  /** One wait, and what follows it. */
  method ReadRound(rounds: seq<Round>, n: nat, count: nat, reading: seq<Reading>, held: nat, budget: nat)
    returns (after: seq<Reading>, now: nat, ghost most: nat)
    requires Possible(rounds) && n < |rounds| && !rounds[n].Fails?
    requires reading == Left(rounds, n, count, budget) && held == Held(reading) <= budget
    ensures after == Left(rounds, n + 1, count, budget) && now == Held(after) <= budget
    ensures most <= budget + CHUNK * count
  {
    if rounds[n].Interrupted? {
      IdleRoundKeeps(rounds, n, count, budget, reading);
      after, now, most := reading, held, held;
    } else {
      after, now, most := ReadAndDrop(rounds, n, count, reading, held, budget);
      MoreChunks(|reading|, count);
    }
  }

  lemma MoreChunks(a: nat, b: nat)
    requires a <= b
    ensures CHUNK * a <= CHUNK * b
  {}

  lemma NothingYet(rounds: seq<Round>, count: nat, budget: nat)
    ensures Left(rounds, 0, count, budget) == seq(count, _ => UNREAD) && Held(Left(rounds, 0, count, budget)) == 0
  {
    NothingHeld(Left(rounds, 0, count, budget));
  }

  /** Reads until every pipe is done with, or there is no more waiting. */
  method ReadAll(count: nat, rounds: seq<Round>, budget: nat) returns (reading: seq<Reading>, ghost peak: nat)
    requires Possible(rounds)
    ensures reading == Left(rounds, Waited(rounds), count, budget)
    ensures peak <= budget + CHUNK * count
  {
    var held, n := 0, 0;
    reading, peak := seq(count, _ => UNREAD), 0;
    NothingYet(rounds, count, budget);
    while n < |rounds|
      invariant 0 <= n <= Waited(rounds) && |reading| <= count
      invariant reading == Left(rounds, n, count, budget)
      invariant held == Held(reading) <= budget
      invariant peak <= budget + CHUNK * count
    {
      if AllOver(reading) {
        NothingMoreToRead(rounds, n, Waited(rounds), count, budget, reading);
        return;
      }
      if rounds[n].Fails? {
        return;
      }
      ghost var most;
      reading, held, most := ReadRound(rounds, n, count, reading, held, budget);
      peak := Max(peak, most);
      n := n + 1;
    }
  }

  /** The loop over a schedule: a round of reads, then `DropOver`, until all is
      over. `peak` is the most that was held at any time. */
  method ReadSelection(mimes: seq<string>, rounds: seq<Round>, budget: nat) returns (reps: seq<Rep>, ghost peak: nat)
    requires Possible(rounds)
    ensures reps == Collected(mimes, rounds, budget)
    ensures peak <= budget + CHUNK * |mimes|
  {
    var reading;
    reading, peak := ReadAll(|mimes|, rounds, budget);
    if reading == [] || !reading[0].whole {
      return [], peak;
    }
    reps := Complete(mimes, reading);
  }

  // ------------------------------------------------------------ what it means

  predicate Says(rounds: seq<Round>, k: nat, i: nat) {
    k < |rounds| && rounds[k].Ready? && i in rounds[k].results
  }

  predicate Stops(rounds: seq<Round>, k: nat, i: nat) {
    Says(rounds, k, i) && (rounds[k].results[i].End? || rounds[k].results[i].Broken?)
  }

  /** The application wrote all of a representation: its pipe ended in round
      `e`, and had neither ended nor broken before. */
  predicate EndsAt(rounds: seq<Round>, e: nat, i: nat) {
    Says(rounds, e, i) && rounds[e].results[i].End? && forall k :: 0 <= k < e ==> !Stops(rounds, k, i)
  }

  /** Everything that came out of a pipe in the first `n` rounds. */
  function Delivered(rounds: seq<Round>, n: nat, i: nat): Bytes
    requires n <= |rounds|
    decreases n
  {
    if n == 0 then []
    else
      Delivered(rounds, n - 1, i)
      + if Says(rounds, n - 1, i) && rounds[n - 1].results[i].Chunk? then rounds[n - 1].results[i].bytes else []
  }

  /** A pipe is read until it ends or breaks; what is held of it meanwhile is
      all that came out, and nothing once it broke. */
  lemma {:induction false} OpenSoFar(rounds: seq<Round>, n: nat, i: nat)
    requires n <= |rounds|
    ensures Pipe(rounds, n, i).open <==> forall k :: 0 <= k < n ==> !Stops(rounds, k, i)
    ensures Pipe(rounds, n, i).open ==> Pipe(rounds, n, i).bytes == Delivered(rounds, n, i)
    ensures Pipe(rounds, n, i).whole ==> !Pipe(rounds, n, i).open
    ensures !Pipe(rounds, n, i).open && !Pipe(rounds, n, i).whole ==> Pipe(rounds, n, i).bytes == []
    decreases n
  {
    if n > 0 {
      OpenSoFar(rounds, n - 1, i);
      if Stops(rounds, n - 1, i) { assert !Pipe(rounds, n, i).open; }
    }
  }

  /** A representation is whole exactly when its pipe ended, and then it is
      every byte that came out before. */
  lemma {:induction false} WholeMeansDelivered(rounds: seq<Round>, n: nat, i: nat)
    requires n <= |rounds|
    ensures Pipe(rounds, n, i).whole <==> exists e :: 0 <= e < n && EndsAt(rounds, e, i)
    ensures forall e :: 0 <= e < n && EndsAt(rounds, e, i) ==> Pipe(rounds, n, i).bytes == Delivered(rounds, e, i)
    decreases n
  {
    if n > 0 {
      WholeMeansDelivered(rounds, n - 1, i);
      OpenSoFar(rounds, n - 1, i);
      OpenSoFar(rounds, n, i);
      if Pipe(rounds, n, i).whole && !Pipe(rounds, n - 1, i).whole { assert EndsAt(rounds, n - 1, i); }
      forall e | 0 <= e < n - 1 && EndsAt(rounds, e, i) ensures !Pipe(rounds, n - 1, i).open {
        assert Stops(rounds, e, i);
      }
    }
  }

  /** `bytes` is all that ever came out of a pipe that ended in time. */
  predicate ArrivedWhole(rounds: seq<Round>, i: nat, bytes: Bytes) {
    exists e :: 0 <= e < Waited(rounds) && EndsAt(rounds, e, i) && bytes == Delivered(rounds, e, i)
  }

  lemma WholeArrived(rounds: seq<Round>, i: nat)
    requires Pipe(rounds, Waited(rounds), i).whole
    ensures ArrivedWhole(rounds, i, Pipe(rounds, Waited(rounds), i).bytes)
  {
    WholeMeansDelivered(rounds, Waited(rounds), i);
    var e :| 0 <= e < Waited(rounds) && EndsAt(rounds, e, i);
    assert Pipe(rounds, Waited(rounds), i).bytes == Delivered(rounds, e, i);
  }

  predicate Increasing(picked: seq<nat>) {
    forall j, k :: 0 <= j < k < |picked| ==> picked[j] < picked[k]
  }

  /** The representations that are kept, by their places in the offer. */
  predicate Picks(mimes: seq<string>, readings: seq<Reading>, picked: seq<nat>, reps: seq<Rep>)
    requires |readings| <= |mimes|
  {
    && Increasing(picked) && |picked| == |reps|
    && (forall k :: 0 <= k < |picked| ==>
          && picked[k] < |readings|
          && readings[picked[k]].whole && readings[picked[k]].bytes != []
          && reps[k] == Rep(mimes[picked[k]], readings[picked[k]].bytes))
    && (forall i :: 0 <= i < |readings| && readings[i].whole && readings[i].bytes != [] ==> i in picked)
  }

  lemma PickingOn(mimes: seq<string>, readings: seq<Reading>, before: seq<nat>, reps: seq<Rep>)
    requires 0 < |readings| <= |mimes| && Picks(mimes, readings[..|readings| - 1], before, reps)
    ensures var last := |readings| - 1;
            if readings[last].whole && readings[last].bytes != [] then
              Picks(mimes, readings, before + [last], reps + [Rep(mimes[last], readings[last].bytes)])
            else Picks(mimes, readings, before, reps)
  {
    var last := |readings| - 1;
    assert forall i :: 0 <= i < last ==> readings[..last][i] == readings[i];
    forall i | 0 <= i < last && readings[i].whole && readings[i].bytes != [] ensures i in before {
      assert readings[..last][i] == readings[i];
    }
  }

  lemma {:induction false} CompletePicks(mimes: seq<string>, readings: seq<Reading>) returns (picked: seq<nat>)
    requires |readings| <= |mimes|
    ensures Picks(mimes, readings, picked, Complete(mimes, readings))
  {
    if readings == [] {
      picked := [];
    } else {
      var last := |readings| - 1;
      picked := CompletePicks(mimes, readings[..last]);
      PickingOn(mimes, readings, picked, Complete(mimes, readings[..last]));
      if readings[last].whole && readings[last].bytes != [] {
        picked := picked + [last];
      } else {
        assert Complete(mimes, readings[..last]) + [] == Complete(mimes, readings[..last]);
      }
    }
  }

  lemma {:induction false} CompleteFits(mimes: seq<string>, readings: seq<Reading>)
    requires |readings| <= |mimes|
    ensures TotalBytes(Complete(mimes, readings)) <= Held(readings)
  {
    if readings != [] {
      var last := |readings| - 1;
      CompleteFits(mimes, readings[..last]);
      var before := Complete(mimes, readings[..last]);
      TotalSnoc(before, Rep(mimes[last], readings[last].bytes));
      assert before + [] == before;
    }
  }

  lemma LeftFits(rounds: seq<Round>, n: nat, count: nat, budget: nat)
    requires n <= |rounds|
    ensures Held(Left(rounds, n, count, budget)) <= budget
  {
    if n == 0 {
      NothingYet(rounds, count, budget);
    } else {
      FewerPipes(rounds, n, count, Kept(rounds, n, count, budget));
    }
  }

  /** What comes back of a selection: whole payloads only, each every byte its
      pipe delivered, none of them empty, in the order they were offered, all
      of them within the budget; and nothing unless the first type arrived. */
  lemma SelectionsArriveWhole(mimes: seq<string>, rounds: seq<Round>, budget: nat) returns (picked: seq<nat>)
    ensures var reps := Collected(mimes, rounds, budget);
            && TotalBytes(reps) <= budget
            && Increasing(picked) && |picked| == |reps|
            && (forall k :: 0 <= k < |picked| ==>
                  && picked[k] < |mimes| && reps[k].mime == mimes[picked[k]] && reps[k].bytes != []
                  && ArrivedWhole(rounds, picked[k], reps[k].bytes))
            && (reps != [] ==> exists bytes :: ArrivedWhole(rounds, 0, bytes))
  {
    var n := Waited(rounds);
    var left := Left(rounds, n, |mimes|, budget);
    picked := [];
    if left != [] && left[0].whole {
      picked := CompletePicks(mimes, left);
      CompleteFits(mimes, left);
      LeftFits(rounds, n, |mimes|, budget);
      WholeArrived(rounds, 0);
      forall k | 0 <= k < |picked| ensures ArrivedWhole(rounds, picked[k], left[picked[k]].bytes) {
        WholeArrived(rounds, picked[k]);
      }
    }
  }

  /** After `m` rounds, everything read of the types up to `i` fits. */
  predicate FitAfter(rounds: seq<Round>, m: nat, i: nat, budget: nat) {
    m <= |rounds| && Held(Pipes(rounds, m, i + 1)) <= budget
  }

  lemma {:induction false} FewerHoldLess(readings: seq<Reading>, a: nat, b: nat)
    requires a <= b <= |readings|
    ensures Held(readings[..a]) <= Held(readings[..b])
    decreases b
  {
    if a < b {
      assert readings[..b][..b - 1] == readings[..b - 1];
      FewerHoldLess(readings, a, b - 1);
    }
  }

  /** A type survives the dropping exactly when it was there and everything up
      to it fits. */
  lemma FittingKeeps(readings: seq<Reading>, kept: nat, budget: nat, i: nat)
    requires kept <= |readings| && i < kept
    ensures i < Fitting(readings, kept, budget) <==> Held(readings[..i + 1]) <= budget
  {
    var left := Fitting(readings, kept, budget);
    if i < left { FewerHoldLess(readings, i + 1, left); } else { FewerHoldLess(readings, left + 1, i + 1); }
  }

  /** After each of the first `n` rounds, everything read of the types up to
      `i` fits. */
  predicate FitsThrough(rounds: seq<Round>, n: nat, i: nat, budget: nat) {
    FitAfter(rounds, n, i, budget) && (n > 0 ==> FitsThrough(rounds, n - 1, i, budget))
  }

  lemma {:induction false} FitsThroughout(rounds: seq<Round>, n: nat, i: nat, budget: nat)
    ensures FitsThrough(rounds, n, i, budget) <==> forall m :: 0 <= m <= n ==> FitAfter(rounds, m, i, budget)
  {
    if n > 0 { FitsThroughout(rounds, n - 1, i, budget); }
  }

  /** A type is still there after `n` rounds exactly when what came up to it
      fit after every one of them: later types never cost an earlier one its
      place. */
  lemma KeptExactly(rounds: seq<Round>, n: nat, count: nat, budget: nat, i: nat)
    requires n <= |rounds| && i < count
    ensures i < Kept(rounds, n, count, budget) <==> FitsThrough(rounds, n, i, budget)
  {
    KeptAtFirst(rounds, count, budget, i);
    for m := 0 to n
      invariant i < Kept(rounds, m, count, budget) <==> FitsThrough(rounds, m, i, budget)
    {
      KeptOneRoundMore(rounds, m + 1, count, budget, i);
    }
  }

  lemma KeptAtFirst(rounds: seq<Round>, count: nat, budget: nat, i: nat)
    requires i < count
    ensures i < Kept(rounds, 0, count, budget) && FitsThrough(rounds, 0, i, budget)
  {
    NothingHeld(Pipes(rounds, 0, i + 1));
  }

  lemma KeptOneRoundMore(rounds: seq<Round>, n: nat, count: nat, budget: nat, i: nat)
    requires 0 < n <= |rounds| && i < count
    requires i < Kept(rounds, n - 1, count, budget) <==> FitsThrough(rounds, n - 1, i, budget)
    ensures i < Kept(rounds, n, count, budget) <==> FitsThrough(rounds, n, i, budget)
  {
    KeptOnceMore(rounds, n, count, budget, i);
  }

  lemma KeptOnceMore(rounds: seq<Round>, n: nat, count: nat, budget: nat, i: nat)
    requires 0 < n <= |rounds| && i < count
    ensures i < Kept(rounds, n, count, budget)
            <==> i < Kept(rounds, n - 1, count, budget) && FitAfter(rounds, n, i, budget)
  {
    FewerPipes(rounds, n, count, i + 1);
    if i < Kept(rounds, n - 1, count, budget) {
      FittingKeeps(Pipes(rounds, n, count), Kept(rounds, n - 1, count, budget), budget, i);
    }
  }

  /** The conditions on which a type comes back: the first type arrived, it
      arrived and was not empty, and everything up to it always fit. */
  predicate Returns(rounds: seq<Round>, budget: nat, i: nat) {
    && Arrived(rounds, 0) && Arrived(rounds, i) && !ArrivedWhole(rounds, i, [])
    && forall m :: 0 <= m <= Waited(rounds) ==> FitAfter(rounds, m, i, budget)
  }

  predicate Arrived(rounds: seq<Round>, i: nat) {
    exists e :: 0 <= e < Waited(rounds) && EndsAt(rounds, e, i)
  }

  lemma ArrivedExactly(rounds: seq<Round>, i: nat)
    ensures var r := Pipe(rounds, Waited(rounds), i);
            && (r.whole <==> Arrived(rounds, i))
            && (r.whole ==> (r.bytes == [] <==> ArrivedWhole(rounds, i, [])))
  {
    WholeMeansDelivered(rounds, Waited(rounds), i);
    if Arrived(rounds, i) {
      var e :| 0 <= e < Waited(rounds) && EndsAt(rounds, e, i);
      assert Pipe(rounds, Waited(rounds), i).bytes == Delivered(rounds, e, i);
    }
  }

  lemma ReturnsMeansKept(rounds: seq<Round>, count: nat, budget: nat, i: nat)
    requires i < count && Returns(rounds, budget, i)
    ensures var left := Left(rounds, Waited(rounds), count, budget);
            i < |left| && left[0].whole && left[i].whole && left[i].bytes != []
  {
    KeptExactly(rounds, Waited(rounds), count, budget, i);
    FitsThroughout(rounds, Waited(rounds), i, budget);
    ArrivedExactly(rounds, 0);
    ArrivedExactly(rounds, i);
  }

  /** What comes back, exactly: each type on the conditions above and no other,
      in the order offered, with every byte it delivered. */
  lemma NothingElseIsDropped(mimes: seq<string>, rounds: seq<Round>, budget: nat) returns (picked: seq<nat>)
    ensures var reps := Collected(mimes, rounds, budget);
            && Increasing(picked) && |picked| == |reps|
            && (forall k :: 0 <= k < |picked| ==>
                  && picked[k] < |mimes| && reps[k].mime == mimes[picked[k]]
                  && ArrivedWhole(rounds, picked[k], reps[k].bytes))
            && (forall i :: 0 <= i < |mimes| ==> (i in picked <==> Returns(rounds, budget, i)))
  {
    var n := Waited(rounds);
    var left := Left(rounds, n, |mimes|, budget);
    picked := [];
    if left != [] && left[0].whole { picked := CompletePicks(mimes, left); }
    forall k | 0 <= k < |picked|
      ensures ArrivedWhole(rounds, picked[k], left[picked[k]].bytes) && Returns(rounds, budget, picked[k])
    {
      WholeArrived(rounds, picked[k]);
      KeptExactly(rounds, n, |mimes|, budget, picked[k]);
      FitsThroughout(rounds, n, picked[k], budget);
      ArrivedExactly(rounds, 0);
      ArrivedExactly(rounds, picked[k]);
    }
    forall i | 0 <= i < |mimes| && Returns(rounds, budget, i) ensures i in picked {
      ReturnsMeansKept(rounds, |mimes|, budget, i);
    }
  }

  /** The first type leads what comes back exactly when it had a payload: an
      empty one is left out like any other, and the next one takes its place. */
  lemma FirstTypeLeadsUnlessEmpty(mimes: seq<string>, rounds: seq<Round>, budget: nat, e: nat)
    returns (picked: seq<nat>)
    requires Collected(mimes, rounds, budget) != []
    requires e < Waited(rounds) && EndsAt(rounds, e, 0)
    ensures Picks(mimes, Left(rounds, Waited(rounds), |mimes|, budget), picked, Collected(mimes, rounds, budget))
    ensures picked[0] == 0 <==> Delivered(rounds, e, 0) != []
  {
    var n := Waited(rounds);
    var left := Left(rounds, n, |mimes|, budget);
    WholeMeansDelivered(rounds, n, 0);
    picked := CompletePicks(mimes, left);
    assert left[0] == Pipe(rounds, n, 0);
    if Delivered(rounds, e, 0) != [] {
      var k :| 0 <= k < |picked| && picked[k] == 0;
    }
  }

  /** A selection offered as HTML first, with nothing in it, comes back as the
      text that followed. */
  lemma EmptyFirstTypeIsSkipped(html: string, text: string)
    ensures var rounds := [Ready(map[0 := End, 1 := Chunk([104, 105])]), Ready(map[1 := End])];
            Collected([html, text], rounds, 10) == [Rep(text, [104, 105])]
  {
    var payload: Bytes := [104, 105];
    var rounds := [Ready(map[0 := End, 1 := Chunk(payload)]), Ready(map[1 := End])];
    assert Waited(rounds) == 2 by { assert rounds[1..][1..] == []; assert Waited(rounds[1..]) == 1; }
    var one := [Reading(false, true, []), Reading(true, false, payload)];
    var two := [Reading(false, true, []), Reading(false, true, payload)];
    assert Pipe(rounds, 1, 0) == one[0] && Pipe(rounds, 1, 1) == one[1] by { assert [] + payload == payload; }
    assert Pipes(rounds, 1, 2) == one && Pipes(rounds, 2, 2) == two;
    HeldOfTwo(one);
    HeldOfTwo(two);
    assert one[..2] == one && two[..2] == two;
    assert Kept(rounds, 1, 2, 10) == 2;
    assert Kept(rounds, 2, 2, 10) == 2;
    var mimes := [html, text];
    assert Left(rounds, 2, 2, 10) == two;
    assert two[..1][..0] == [] && Complete(mimes, two[..1]) == [];
    assert Complete(mimes, two) == [Rep(text, payload)];
  }

  lemma HeldOfTwo(readings: seq<Reading>)
    requires |readings| == 2
    ensures Held(readings) == |readings[0].bytes| + |readings[1].bytes|
  {
    assert readings[..1][..0] == [];
    assert Held(readings[..1]) == |readings[0].bytes|;
  }
}
