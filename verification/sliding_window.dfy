/** The backend's batcher: it drops what is too late and takes the next items in deadline order. */
module SlidingWindows {
  import opened ModelProfiles

  datatype Item = Item(deadline: int, id: nat)

  datatype GetBatchResult = Fatal | Batch(inputs: seq<Item>, drops: seq<Item>)

  ghost predicate ByDeadline(queue: seq<Item>) {
    forall i, j {:trigger queue[i], queue[j]} | 0 <= i <= j < |queue| :: queue[i].deadline <= queue[j].deadline
  }

  function Min(a: nat, b: nat): nat {
    if a < b then a else b
  }

  // When a batch of b would finish: whole microseconds after now.
  function FinishAt(p: Profile, now: int, b: nat): int
    requires p.Covers(b)
  {
    now + Trunc(p.Forward(b)) * 1000
  }

  // The item at k can wait for the batch that starts with it.
  predicate Fits(p: Profile, now: int, size: nat, queue: seq<Item>, k: nat)
    requires k < |queue|
  {
    var b := Min(size, |queue| - k);
    p.Covers(b) && queue[k].deadline >= FinishAt(p, now, b)
  }

  // The shortest prefix to drop has length k.
  ghost predicate Cut(p: Profile, now: int, size: nat, queue: seq<Item>, k: nat) {
    && k <= |queue|
    && (forall j: nat {:trigger Fits(p, now, size, queue, j)} | j < k :: !Fits(p, now, size, queue, j))
    && (k < |queue| ==> Fits(p, now, size, queue, k))
  }

  lemma CutUnique(p: Profile, now: int, size: nat, queue: seq<Item>, k: nat, j: nat)
    requires Cut(p, now, size, queue, k) && Cut(p, now, size, queue, j)
    ensures k == j
  {
  }

  /** The closed form: the prefix of length k is dropped, and as many items as expected, or all, follow. */
  ghost predicate IsWindow(
      p: Profile, now: int, size: nat, queue: seq<Item>, r: GetBatchResult, rest: seq<Item>, k: nat) {
    && Cut(p, now, size, queue, k) && r.Batch?
    && r.drops == queue[..k]
    && r.inputs == queue[k..k + Min(size, |queue| - k)]
    && rest == queue[k + Min(size, |queue| - k)..]
  }

  /**
   Every accepted item can wait for a batch of the size finally taken, and every dropped one is due
   before every accepted one.
   */
  lemma WindowIsSafe(p: Profile, now: int, size: nat, queue: seq<Item>, r: GetBatchResult, rest: seq<Item>, k: nat)
    requires ByDeadline(queue) && IsWindow(p, now, size, queue, r, rest, k)
    ensures r.drops + r.inputs + rest == queue
    ensures r.inputs != [] ==> p.Covers(|r.inputs|)
    ensures r.inputs != [] ==>
      forall x {:trigger x in r.inputs} | x in r.inputs :: x.deadline >= FinishAt(p, now, |r.inputs|)
    ensures forall x, y {:trigger x in r.drops, y in r.inputs} | x in r.drops && y in r.inputs ::
      x.deadline <= y.deadline
    ensures rest != [] ==> |r.inputs| == size
  {
    var b := Min(size, |queue| - k);
    assert queue == queue[..k] + queue[k..k + b] + queue[k + b..];
    if r.inputs != [] {
      InputsWait(p, now, size, queue, r, rest, k);
    }
    DropsComeFirst(p, now, size, queue, r, rest, k);
    hide Fits, ByDeadline, FinishAt;
  }

  // With j items dropped, n is the size of the batch that could still be formed.
  ghost predicate CouldForm(size: nat, queue: seq<Item>, j: nat, n: nat) {
    n <= size && n + j <= |queue| && (n == size || n + j == |queue|)
  }

  // The item at j would be due before the largest batch it could join is done.
  ghost predicate DueBefore(p: Profile, now: int, size: nat, queue: seq<Item>, j: nat)
    requires j < |queue|
  {
    exists n: nat {:trigger CouldForm(size, queue, j, n)} ::
      CouldForm(size, queue, j, n) && p.Covers(n) && queue[j].deadline < now + Trunc(p.Forward(n)) * 1000
  }

  // What a batcher is to do: drop just those due too early, and fill the batch with those that can wait for it.
  ghost predicate Batched(p: Profile, now: int, size: nat, queue: seq<Item>, r: GetBatchResult, rest: seq<Item>) {
    && r.Batch? && r.drops + r.inputs + rest == queue
    && |r.inputs| <= size && (rest != [] ==> |r.inputs| == size)
    && (forall j: nat {:trigger queue[j]} | j < |r.drops| :: DueBefore(p, now, size, queue, j))
    && (r.inputs != [] ==> p.Covers(|r.inputs|))
    && (forall x {:trigger x in r.inputs} | x in r.inputs ::
          p.Covers(|r.inputs|) && x.deadline >= now + Trunc(p.Forward(|r.inputs|)) * 1000)
  }

  lemma LateIff(p: Profile, now: int, size: nat, queue: seq<Item>, j: nat)
    requires size > 0 && j < |queue| && p.Covers(Min(size, |queue|))
    ensures DueBefore(p, now, size, queue, j) <==> !Fits(p, now, size, queue, j)
  {
    assert CouldForm(size, queue, j, Min(size, |queue| - j));
  }

  /** The closed form is the only split of the queue that batches it as asked. */
  lemma WindowIff(p: Profile, now: int, size: nat, queue: seq<Item>, r: GetBatchResult, rest: seq<Item>)
    requires ByDeadline(queue) && size > 0 && (queue != [] ==> p.Covers(Min(size, |queue|)))
    ensures (exists k: nat {:trigger IsWindow(p, now, size, queue, r, rest, k)} ::
               IsWindow(p, now, size, queue, r, rest, k)) <==> Batched(p, now, size, queue, r, rest)
  {
    forall j: nat | j < |queue| ensures DueBefore(p, now, size, queue, j) <==> !Fits(p, now, size, queue, j) {
      LateIff(p, now, size, queue, j);
    }
    if k: nat :| IsWindow(p, now, size, queue, r, rest, k) {
      WindowIsBatched(p, now, size, queue, r, rest, k);
    }
    if Batched(p, now, size, queue, r, rest) {
      BatchedIsWindow(p, now, size, queue, r, rest);
    }
  }

  lemma WindowIsBatched(p: Profile, now: int, size: nat, queue: seq<Item>, r: GetBatchResult, rest: seq<Item>, k: nat)
    requires ByDeadline(queue) && IsWindow(p, now, size, queue, r, rest, k)
    requires forall j: nat {:trigger Fits(p, now, size, queue, j)} | j < |queue| ::
      DueBefore(p, now, size, queue, j) <==> !Fits(p, now, size, queue, j)
    ensures Batched(p, now, size, queue, r, rest)
  {
    WindowIsSafe(p, now, size, queue, r, rest, k);
    hide ByDeadline, DueBefore;
    forall j: nat | j < |r.drops| ensures DueBefore(p, now, size, queue, j) {
      assert !Fits(p, now, size, queue, j);
    }
  }

  lemma BatchedIsWindow(p: Profile, now: int, size: nat, queue: seq<Item>, r: GetBatchResult, rest: seq<Item>)
    requires size > 0 && Batched(p, now, size, queue, r, rest)
    requires forall j: nat {:trigger Fits(p, now, size, queue, j)} | j < |queue| ::
      DueBefore(p, now, size, queue, j) <==> !Fits(p, now, size, queue, j)
    ensures IsWindow(p, now, size, queue, r, rest, |r.drops|)
  {
    hide DueBefore;
    var k := |r.drops|;
    assert |queue| == k + |r.inputs| + |rest|;
    assert |r.inputs| == Min(size, |queue| - k);
    assert queue[..k] == r.drops && queue[k..k + |r.inputs|] == r.inputs && queue[k + |r.inputs|..] == rest;
    if k < |queue| {
      assert r.inputs[0] in r.inputs && queue[k] == r.inputs[0];
      assert Fits(p, now, size, queue, k);
    }
    forall j: nat | j < k ensures !Fits(p, now, size, queue, j) {
      assert DueBefore(p, now, size, queue, j) by { assert queue[j] == r.drops[j]; }
    }
  }

  lemma InputsWait(p: Profile, now: int, size: nat, queue: seq<Item>, r: GetBatchResult, rest: seq<Item>, k: nat)
    requires ByDeadline(queue) && IsWindow(p, now, size, queue, r, rest, k) && r.inputs != []
    ensures p.Covers(|r.inputs|)
    ensures forall x {:trigger x in r.inputs} | x in r.inputs :: x.deadline >= FinishAt(p, now, |r.inputs|)
  {
    assert Fits(p, now, size, queue, k);
    hide FinishAt;
    forall x | x in r.inputs ensures x.deadline >= queue[k].deadline {
      var i :| 0 <= i < |r.inputs| && r.inputs[i] == x;
      assert queue[k + i] == x;
    }
  }

  lemma DropsComeFirst(p: Profile, now: int, size: nat, queue: seq<Item>, r: GetBatchResult, rest: seq<Item>, k: nat)
    requires ByDeadline(queue) && IsWindow(p, now, size, queue, r, rest, k)
    ensures forall x, y {:trigger x in r.drops, y in r.inputs} | x in r.drops && y in r.inputs ::
      x.deadline <= y.deadline
  {
    hide Cut;
    forall x, y | x in r.drops && y in r.inputs ensures x.deadline <= y.deadline {
      var i :| 0 <= i < |r.drops| && r.drops[i] == x;
      var j :| 0 <= j < |r.inputs| && r.inputs[j] == y;
      assert queue[i] == x && queue[k + j] == y;
    }
  }

  // How far the loop is: k dropped, i taken, the expected size reduced to what is left.
  ghost predicate Progress(
    p: Profile, now: int, size: nat, queue: seq<Item>, k: nat, i: nat,
    drops: seq<Item>, inputs: seq<Item>, rest: seq<Item>, want: nat, finish: int) {
    && k + i <= |queue| && drops == queue[..k] && inputs == queue[k..k + i] && rest == queue[k + i..]
    && want == Min(size, |queue| - k) && i <= want
    && (want > 0 ==> p.Covers(want) && finish == FinishAt(p, now, want))
    && (forall j: nat {:trigger Fits(p, now, size, queue, j)} | j < k :: !Fits(p, now, size, queue, j))
    && (i > 0 ==> queue[k].deadline >= finish)
  }

  // A drop comes before anything has been taken.
  lemma DropIsFirst(
    p: Profile, now: int, size: nat, queue: seq<Item>, k: nat, i: nat,
    drops: seq<Item>, inputs: seq<Item>, rest: seq<Item>, want: nat, finish: int)
    requires ByDeadline(queue) && Progress(p, now, size, queue, k, i, drops, inputs, rest, want, finish)
    requires i < want && rest != [] && rest[0].deadline < finish
    ensures i == 0 && k + |rest| == |queue| && want == Min(size, |rest|)
  {
  }

  lemma ProgressDrop(
    p: Profile, now: int, size: nat, queue: seq<Item>, k: nat,
    drops: seq<Item>, inputs: seq<Item>, rest: seq<Item>, want: nat, finish: int, want': nat, finish': int)
    requires Progress(p, now, size, queue, k, 0, drops, inputs, rest, want, finish)
    requires 0 < want && rest != [] && rest[0].deadline < finish
    requires want' == Min(size, |rest| - 1) && (want' > 0 ==> p.Covers(want') && finish' == FinishAt(p, now, want'))
    ensures Progress(p, now, size, queue, k + 1, 0, drops + [rest[0]], inputs, rest[1..], want', finish')
  {
  }

  lemma ProgressTake(
    p: Profile, now: int, size: nat, queue: seq<Item>, k: nat, i: nat,
    drops: seq<Item>, inputs: seq<Item>, rest: seq<Item>, want: nat, finish: int)
    requires Progress(p, now, size, queue, k, i, drops, inputs, rest, want, finish)
    requires i < want && rest != [] && rest[0].deadline >= finish
    ensures Progress(p, now, size, queue, k, i + 1, drops, inputs + [rest[0]], rest[1..], want, finish)
    ensures |inputs + [rest[0]]| + |rest[1..]| >= want
  {
  }

  lemma ProgressCovers(
    p: Profile, now: int, size: nat, queue: seq<Item>, k: nat, i: nat,
    drops: seq<Item>, inputs: seq<Item>, rest: seq<Item>, want: nat, finish: int)
    requires Progress(p, now, size, queue, k, i, drops, inputs, rest, want, finish)
    ensures want > 0 ==> p.Covers(want) && finish == FinishAt(p, now, want)
  {
  }

  lemma ProgressDone(
    p: Profile, now: int, size: nat, queue: seq<Item>, k: nat, i: nat,
    drops: seq<Item>, inputs: seq<Item>, rest: seq<Item>, want: nat, finish: int)
    requires size > 0 && Progress(p, now, size, queue, k, i, drops, inputs, rest, want, finish) &&
      (i >= want || rest == [])
    ensures IsWindow(p, now, size, queue, Batch(inputs, drops), rest, k)
  {
  }

  class ModelExecutor {
    const profile: Profile
    var queue: seq<Item>

    constructor (p: Profile)
      ensures profile == p && queue == []
    {
      profile, queue := p, [];
    }

    // The heap gives items up in deadline order: a new one goes behind all that are not later.
    method AddQuery(x: Item)
      requires ByDeadline(queue)
      modifies this
      ensures ByDeadline(queue)
      ensures exists n: nat {:trigger old(queue)[..n]} ::
        n <= |old(queue)| && queue == old(queue)[..n] + [x] + old(queue)[n..]
    {
      var n := 0;
      while n < |queue| && queue[n].deadline <= x.deadline
        invariant n <= |queue| && forall j {:trigger queue[j]} | 0 <= j < n :: queue[j].deadline <= x.deadline
      {
        n := n + 1;
      }
      assert old(queue)[..n] == queue[..n];
      queue := queue[..n] + [x] + queue[n..];
    }

    /**
     One pass over the queue finds the window; the process ends exactly if the first batch size lies
     outside the profile.
     */
    method GetBatchTaskSlidingWindow(expectBatchSize: nat, now: int) returns (r: GetBatchResult, ghost k: nat)
      requires ByDeadline(queue)
      modifies this
      ensures r == Fatal <==>
        Min(expectBatchSize, |old(queue)|) >= |profile.forward| && Min(expectBatchSize, |old(queue)|) > 0
      ensures r != Fatal && expectBatchSize > 0 ==> IsWindow(profile, now, expectBatchSize, old(queue), r, queue, k)
      ensures expectBatchSize == 0 ==> r == Batch([], []) && queue == old(queue)
    {
      k := 0;
      var want: nat := Min(expectBatchSize, |queue|);
      if want == 0 {
        return Batch([], []), 0;
      }
      if !profile.Covers(want) {
        return Fatal, 0;
      }
      var finish := FinishAt(profile, now, want);
      var inputs, drops := [], [];
      hide Progress, IsWindow, Fits, FinishAt;
      while |inputs| < want && queue != []
        invariant Progress(profile, now, expectBatchSize, old(queue), k, |inputs|, drops, inputs, queue, want, finish)
        decreases |queue|
      {
        ghost var q, d, w, f := queue, drops, want, finish;
        var input := queue[0];
        var late := input.deadline < finish;
        if late {
          DropIsFirst(profile, now, expectBatchSize, old(queue), k, |inputs|, drops, inputs, queue, want, finish);
          drops := drops + [input];
        } else {
          ProgressTake(profile, now, expectBatchSize, old(queue), k, |inputs|, drops, inputs, queue, want, finish);
          inputs := inputs + [input];
        }
        queue := queue[1..];
        var estMaxBatch := |inputs| + |queue|;
        if want > estMaxBatch {
          want := estMaxBatch;
          if want > 0 {
            finish := FinishAt(profile, now, want);
          }
        }
        if late {
          ProgressCovers(profile, now, expectBatchSize, old(queue), k, 0, d, inputs, q, w, f);
          ProgressDrop(profile, now, expectBatchSize, old(queue), k, d, inputs, q, w, f, want, finish);
          k := k + 1;
        }
      }
      ProgressDone(profile, now, expectBatchSize, old(queue), k, |inputs|, drops, inputs, queue, want, finish);
      r := Batch(inputs, drops);
    }
  }
}
