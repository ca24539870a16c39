/** Scroll plans conserve distance, for every delta, viewport, configuration and random stream. */
module Scrolling {
  import opened Randomness

  datatype Config = Config(
    minMs: nat,
    maxMs: nat,
    fast: real,
    readPause: real,
    readMin: nat,
    readMax: nat,
    bounce: real)

  datatype Action = Scroll(delta: int, ms: nat) | Bounce(delta: int, ms: nat) | Pause(ms: nat)

  // ----- rounding -----

  /** A cast to an integer cuts towards zero. */
  function Truncate(x: real): int {
    if x >= 0.0 then x.Floor else -((-x).Floor)
  }

  /** Rounding takes halves away from zero. */
  function Round(x: real): int {
    if x >= 0.0 then (x + 0.5).Floor else -((-x + 0.5).Floor)
  }

  function BounceOf(delta: int): int {
    Round(delta as real * -0.1)
  }

  /** `net` lies between four fifths of `delta` and `delta`. */
  predicate WithinFifth(net: int, delta: int) {
    if delta >= 0 then 4 * delta <= 5 * net && net <= delta else 5 * net <= 4 * delta && delta <= net
  }

  /** A bounce goes back by at most a fifth, whatever the rounding. */
  lemma BounceSmall(delta: int)
    ensures WithinFifth(delta + BounceOf(delta), delta)
  {
    var b := BounceOf(delta);
    if delta > 0 {
      var x := (delta as real * 0.1 + 0.5).Floor;
      assert b == -x && 0 <= x && x as real <= delta as real * 0.1 + 0.5;
      assert delta < 5 ==> delta as real * 0.1 + 0.5 < 1.0;
    } else if delta < 0 {
      var x := (-delta as real * 0.1 + 0.5).Floor;
      assert b == x && 0 <= x && x as real <= -delta as real * 0.1 + 0.5;
      assert delta > -5 ==> -delta as real * 0.1 + 0.5 < 1.0;
    }
  }

  // ----- what a plan adds up to -----

  datatype Tally = Tally(scrolled: int, net: int, chunks: nat)

  function Add(a: Tally, b: Tally): Tally {
    Tally(a.scrolled + b.scrolled, a.net + b.net, a.chunks + b.chunks)
  }

  function One(a: Action): Tally {
    match a
    case Scroll(d, _) => Tally(d, d, 1)
    case Bounce(d, _) => Tally(0, d, 0)
    case Pause(_) => Tally(0, 0, 0)
  }

  function Count(actions: seq<Action>): Tally {
    if actions == [] then Tally(0, 0, 0) else Add(Count(actions[..|actions| - 1]), One(actions[|actions| - 1]))
  }

  lemma {:induction false} CountThen(a: seq<Action>, b: seq<Action>)
    ensures Count(a + b) == Add(Count(a), Count(b))
  {
    if b == [] {
      assert a + b == a;
    } else {
      assert (a + b)[..|a + b| - 1] == a + b[..|b| - 1];
      CountThen(a, b[..|b| - 1]);
    }
  }

  lemma CountPush(a: seq<Action>, x: Action)
    ensures Count(a + [x]) == Add(Count(a), One(x))
  {
    assert (a + [x])[..|a|] == a;
  }

  /** A distance in the direction of travel. */
  function Toward(distance: int, down: bool): int {
    if down then distance else -distance
  }

  /** Every scroll goes in the direction of travel. */
  ghost predicate Aligned(actions: seq<Action>, down: bool) {
    forall a :: a in actions && a.Scroll? ==> if down then a.delta > 0 else a.delta < 0
  }

  ghost predicate Conserves(actions: seq<Action>, delta: int) {
    Count(actions).scrolled == delta && WithinFifth(Count(actions).net, delta)
  }

  // ----- one piece -----

  /** What the plan of one piece of `delta` amounts to, with `back` of it bounced. */
  ghost predicate PieceOk(actions: seq<Action>, delta: int, back: int) {
    && Count(actions) == Tally(delta, delta + back, 1)
    && Aligned(actions, delta > 0)
    && |actions| > 0 && actions[0].Scroll?
    && forall a :: a in actions && a.Scroll? ==> a.delta == delta
  }

  lemma PiecePush(actions: seq<Action>, delta: int, back: int, x: Action)
    requires PieceOk(actions, delta, back) && !x.Scroll?
    ensures PieceOk(actions + [x], delta, back + One(x).net)
  {
    CountPush(actions, x);
  }

  lemma PieceConserves(actions: seq<Action>, delta: int, back: int)
    requires PieceOk(actions, delta, back) && (back == 0 || back == BounceOf(delta))
    ensures Conserves(actions, delta)
  {
    BounceSmall(delta);
  }

  lemma PieceStart(delta: int, ms: nat)
    requires delta != 0
    ensures PieceOk([Scroll(delta, ms)], delta, 0)
  {
    CountPush([], Scroll(delta, ms));
    assert [] + [Scroll(delta, ms)] == [Scroll(delta, ms)];
  }

  method AddPause(actions: seq<Action>, delta: int, ghost back: int, ms: nat) returns (r: seq<Action>)
    requires PieceOk(actions, delta, back)
    ensures PieceOk(r, delta, back) && r[|r| - 1].Pause?
  {
    PiecePush(actions, delta, back, Pause(ms));
    r := actions + [Pause(ms)];
  }

  method AddBounce(actions: seq<Action>, delta: int, b: int, ms: nat) returns (r: seq<Action>)
    requires PieceOk(actions, delta, 0)
    ensures PieceOk(r, delta, b)
  {
    PiecePush(actions, delta, 0, Bounce(b, ms));
    r := actions + [Bounce(b, ms)];
  }

  method ReadMs(height: real) returns (ms: nat)
  {
    var shown := if height >= 0.0 then (height * 10.0).Floor else 0;
    var lo := if shown as real * 0.5 >= 1.0 then shown as real * 0.5 else 1.0;
    var hi := if shown as real * 2.0 >= lo + 1.0 then shown as real * 2.0 else lo + 1.0;
    var pause := DrawReal(lo, hi);
    ms := pause.Floor;
  }

  /** `generate_actions_inner`; `height` is the page height. */
  method GenerateActions(config: Config, delta: int, height: real, trailing: bool) returns (actions: seq<Action>)
    ensures delta == 0 ==> actions == []
    ensures delta != 0 ==> Conserves(actions, delta) && Count(actions).chunks == 1 && Aligned(actions, delta > 0)
    ensures forall a :: a in actions && a.Scroll? ==> a.delta == delta
    ensures delta != 0 ==> |actions| > 0 && actions[0].Scroll? && (trailing ==> actions[|actions| - 1].Pause?)
  {
    if delta == 0 {
      return [];
    }
    var fast := Chance(config.fast);
    var ms;
    if fast {
      ms := DrawMs(50, 200);
    } else {
      ms := DrawMs(config.minMs, config.maxMs);
    }
    actions := [Scroll(delta, ms)];
    PieceStart(delta, ms);
    ghost var back := 0;

    var read := Chance(config.readPause);
    if read {
      ms := DrawMs(config.readMin, config.readMax);
      actions := AddPause(actions, delta, back, ms);
    }
    var bounce := Chance(config.bounce);
    var b := BounceOf(delta);
    if bounce && b != 0 {
      ms := DrawMs(100, 300);
      actions := AddBounce(actions, delta, b, ms);
      back := b;
    }
    if trailing {
      ms := ReadMs(height);
      actions := AddPause(actions, delta, back, ms);
    }
    PieceConserves(actions, delta, back);
  }

  // ----- to a position -----

  const MAX_CHUNKS: nat := 64

  /** Adding a piece in the same direction. */
  lemma AddPiece(actions: seq<Action>, done: int, piece: seq<Action>, chunk: int, down: bool)
    requires done >= 0 && chunk > 0
    requires Conserves(actions, Toward(done, down)) && Aligned(actions, down)
    requires Conserves(piece, Toward(chunk, down)) && Aligned(piece, down)
    ensures Conserves(actions + piece, Toward(done + chunk, down)) && Aligned(actions + piece, down)
    ensures Count(actions + piece).chunks == Count(actions).chunks + Count(piece).chunks
  {
    CountThen(actions, piece);
  }

  function Magnitude(x: int): nat {
    if x >= 0 then x else -x
  }

  /** Only the last chunk allowed may be longer than `size`. */
  ghost predicate InChunks(actions: seq<Action>, size: int) {
    forall i :: 0 <= i < |actions| && actions[i].Scroll? && Magnitude(actions[i].delta) > size ==>
      Count(actions[..i]).chunks == MAX_CHUNKS - 1
  }

  lemma ChunkAdded(actions: seq<Action>, piece: seq<Action>, size: int)
    requires InChunks(actions, size) && Count(piece).chunks == 1 && |piece| > 0 && piece[0].Scroll?
    requires (forall a :: a in piece && a.Scroll? ==> Magnitude(a.delta) <= size) || Count(actions).chunks == MAX_CHUNKS - 1
    ensures InChunks(actions + piece, size)
  {
    var all := actions + piece;
    forall i | 0 <= i < |all| && all[i].Scroll? && Magnitude(all[i].delta) > size
      ensures Count(all[..i]).chunks == MAX_CHUNKS - 1
    {
      if i < |actions| {
        assert all[..i] == actions[..i];
      } else {
        assert piece[i - |actions|] in piece;
        assert all[..i] == actions + piece[..i - |actions|];
        CountThen(actions, piece[..i - |actions|]);
        OnlyScroll(piece, i - |actions|);
      }
    }
  }

  lemma {:induction false} CountGrows(actions: seq<Action>, i: nat)
    requires i <= |actions|
    ensures Count(actions[..i]).chunks <= Count(actions).chunks
  {
    var a, b := actions[..i], actions[i..];
    assert actions == a + b;
    CountThen(a, b);
  }

  /** A piece with one scroll has no scroll before it. */
  lemma OnlyScroll(piece: seq<Action>, i: nat)
    requires i < |piece| && piece[i].Scroll? && Count(piece).chunks == 1
    ensures Count(piece[..i]).chunks == 0
  {
    assert piece[..i + 1] == piece[..i] + [piece[i]];
    CountPush(piece[..i], piece[i]);
    CountGrows(piece, i + 1);
  }

  lemma PauseAdded(actions: seq<Action>, x: Action, size: int)
    requires InChunks(actions, size) && !x.Scroll?
    ensures InChunks(actions + [x], size)
  {
    var all := actions + [x];
    forall i | 0 <= i < |all| && all[i].Scroll? && Magnitude(all[i].delta) > size
      ensures Count(all[..i]).chunks == MAX_CHUNKS - 1
    {
      assert all[..i] == actions[..i];
    }
  }

  /** The chunk loop of `generate_to_position`: what remains is what has not been scrolled yet. */
  method Chunks(config: Config, total: int, chunkSize: int, down: bool, height: real) returns (actions: seq<Action>)
    requires total > chunkSize > 0
    ensures Conserves(actions, Toward(total, down)) && Aligned(actions, down)
    ensures 1 <= Count(actions).chunks <= MAX_CHUNKS && InChunks(actions, chunkSize)
  {
    actions := [];
    var remaining, chunks := total, 0;
    while remaining > 0 && chunks < MAX_CHUNKS
      invariant 0 <= remaining <= total && 0 <= chunks <= MAX_CHUNKS
      invariant (chunks == MAX_CHUNKS ==> remaining == 0) && (chunks == 0 ==> remaining == total)
      invariant Conserves(actions, Toward(total - remaining, down)) && Aligned(actions, down)
      invariant Count(actions).chunks == chunks && InChunks(actions, chunkSize)
      decreases MAX_CHUNKS - chunks
    {
      var chunk := if chunks + 1 == MAX_CHUNKS || remaining < chunkSize then remaining else chunkSize;
      var piece := GenerateActions(config, Toward(chunk, down), height, false);
      AddPiece(actions, total - remaining, piece, chunk, down);
      ChunkAdded(actions, piece, chunkSize);
      actions := actions + piece;
      remaining := remaining - chunk;
      chunks := chunks + 1;
      if remaining > 0 {
        var ms := DrawMs(80, 280);
        CountPush(actions, Pause(ms));
        PauseAdded(actions, Pause(ms), chunkSize);
        actions := actions + [Pause(ms)];
      }
    }
  }

  /** The loop that drops trailing pauses. */
  method DropPauses(actions: seq<Action>) returns (kept: seq<Action>)
    ensures kept <= actions && Count(kept) == Count(actions)
    ensures kept == [] || !kept[|kept| - 1].Pause?
  {
    kept := actions;
    while kept != [] && kept[|kept| - 1].Pause?
      invariant kept <= actions && Count(kept) == Count(actions)
      decreases |kept|
    {
      kept := kept[..|kept| - 1];
    }
  }

  method SettleMs(height: real) returns (ms: nat)
    requires height >= 1.0
  {
    var settle := (height * 8.0).Floor;
    var lo := if settle as real * 0.4 >= 40.0 then settle as real * 0.4 else 40.0;
    var hi := if settle as real * 1.2 >= lo + 1.0 then settle as real * 1.2 else lo + 1.0;
    var pause := DrawReal(lo, hi);
    ms := pause.Floor;
  }

  lemma InChunksPrefix(actions: seq<Action>, kept: seq<Action>, size: int)
    requires InChunks(actions, size) && kept <= actions
    ensures InChunks(kept, size)
  {
    forall i | 0 <= i < |kept| && kept[i].Scroll? && Magnitude(kept[i].delta) > size
      ensures Count(kept[..i]).chunks == MAX_CHUNKS - 1
    {
      assert kept[..i] == actions[..i] && kept[i] == actions[i];
    }
  }

  /** Four fifths of the viewport, in whole pixels. */
  function ChunkOf(viewport: real): int {
    ((if viewport >= 1.0 then viewport else 1.0) * 0.8).Floor
  }

  /** Instead of trailing pauses, one settling pause. */
  method Settle(actions: seq<Action>, height: real, ghost size: int) returns (r: seq<Action>)
    requires height >= 1.0 && Count(actions).chunks >= 1
    ensures Count(r) == Count(actions) && (forall a :: a in r && a.Scroll? ==> a in actions)
    ensures |r| >= 2 && r[|r| - 1].Pause? && !r[|r| - 2].Pause?
    ensures InChunks(actions, size) ==> InChunks(r, size)
  {
    var kept := DropPauses(actions);
    assert kept == [] ==> Count(kept).chunks == 0;
    var ms := SettleMs(height);
    CountPush(kept, Pause(ms));
    if InChunks(actions, size) {
      InChunksPrefix(actions, kept, size);
      PauseAdded(kept, Pause(ms), size);
    }
    r := kept + [Pause(ms)];
  }

  /** What a plan for `delta` with chunks of `size` satisfies. */
  ghost predicate PlanOk(actions: seq<Action>, delta: int, size: int) {
    && Conserves(actions, delta) && Aligned(actions, delta > 0)
    && 1 <= Count(actions).chunks <= MAX_CHUNKS
    && (size > 0 ==> InChunks(actions, size))
  }

  lemma SmallInChunks(actions: seq<Action>, delta: int, size: int)
    requires Magnitude(delta) <= size && forall a :: a in actions && a.Scroll? ==> a.delta == delta
    ensures InChunks(actions, size)
  {
  }

  method Plan(config: Config, delta: int, size: int, height: real) returns (actions: seq<Action>)
    requires delta != 0
    ensures PlanOk(actions, delta, size)
  {
    var total := if delta >= 0 then delta else -delta;
    if total > size && size > 0 {
      actions := Chunks(config, total, size, delta > 0, height);
    } else {
      actions := GenerateActions(config, delta, height, false);
      if size > 0 {
        SmallInChunks(actions, delta, size);
      }
    }
  }

  /**
   `generate_to_position`: the scrolls add up to the requested distance, all in its
   direction and in at most 64 chunks, of which only the 64th may be longer than four fifths
   of the viewport; with bounces the net movement stays within a fifth;
   and the plan ends with exactly one pause.
   */
  method GenerateToPosition(config: Config, target: real, current: real, viewport: real) returns (actions: seq<Action>)
    ensures var delta := Truncate(target - current);
            if delta == 0 then actions == []
            else
              && PlanOk(actions, delta, ChunkOf(viewport))
              && |actions| >= 2 && actions[|actions| - 1].Pause? && !actions[|actions| - 2].Pause?
  {
    var delta := Truncate(target - current);
    if delta == 0 {
      return [];
    }
    var height := if viewport >= 1.0 then viewport else 1.0;
    actions := Plan(config, delta, ChunkOf(viewport), height);
    actions := Settle(actions, height, ChunkOf(viewport));
  }
}
