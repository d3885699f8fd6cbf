/** The collision and cleanup pass of one frame: how each falling item is
    classified against the basket, and what the whole pass does to the item
    list, the score and the lives, stated as functions over the list. */
module Collision {

  datatype Kind = Apple | Bomb

  /** One falling item; `rot` is its drawing angle, advanced by `spin` per frame. */
  datatype Item = Item(kind: Kind, x: real, y: real, size: real, speed: real, spin: real, rot: real)

  /** The basket rectangle as captured before the pass. */
  datatype Basket = Basket(x: real, y: real, w: real, h: real)

  /** The single fate of an item in one pass. */
  datatype Outcome = Caught | FellOff | Kept

  /** Flat speed added to every item's own speed. */
  const Gravity: real := 10.0
  /** Extra reach below the basket's lower edge. */
  const CatchTolerance: real := 6.0
  /** How far below the viewport an item must be before it is dropped. */
  const OffscreenMargin: real := 60.0

  /** The item's reference point (horizontal centre, bottom edge) lies in the
      basket rectangle extended downwards by the tolerance. */
  predicate Hits(a: Item, b: Basket)
  {
    var ax := a.x + a.size / 2.0;
    var ay := a.y + a.size;
    b.x <= ax <= b.x + b.w && b.y <= ay <= b.y + b.h + CatchTolerance
  }

  /** The hit test is made first; only an item that misses the basket can fall off. */
  function OutcomeOf(a: Item, b: Basket, height: real): Outcome
  {
    if Hits(a, b) then Caught
    else if a.y > height + OffscreenMargin then FellOff
    else Kept
  }

  /** One frame of motion for one item. */
  function Advance(a: Item, dt: real): Item
  {
    a.(y := a.y + (a.speed + Gravity) * dt, rot := a.rot + a.spin)
  }

  /** Every item moved by one frame, in the same order; only the position
      and the angle of an item change, never its kind, size, speed or spin. */
  function AdvanceAll(s: seq<Item>, dt: real): (r: seq<Item>)
    ensures |r| == |s|
    ensures forall i :: 0 <= i < |s| ==> r[i].(y := s[i].y, rot := s[i].rot) == s[i]
  {
    seq(|s|, i requires 0 <= i < |s| => Advance(s[i], dt))
  }

  /** The items that neither hit the basket nor fell off, in their original order. */
  function Survivors(s: seq<Item>, b: Basket, height: real): (r: seq<Item>)
    ensures |r| <= |s|
  {
    if s == [] then []
    else
      var last := s[|s| - 1];
      Survivors(s[..|s| - 1], b, height) + (if OutcomeOf(last, b, height) == Kept then [last] else [])
  }

  /** How many items of kind `k` meet outcome `o` in the pass. */
  function Tally(s: seq<Item>, b: Basket, height: real, k: Kind, o: Outcome): nat
  {
    if s == [] then 0
    else
      var last := s[|s| - 1];
      Tally(s[..|s| - 1], b, height, k, o) + (if last.kind == k && OutcomeOf(last, b, height) == o then 1 else 0)
  }

  /** Points won in the pass: one per apple caught. */
  function ScoreGain(s: seq<Item>, b: Basket, height: real): nat
  {
    Tally(s, b, height, Apple, Caught)
  }

  /** Lives lost in the pass: one per bomb caught and one per apple that fell off. */
  function LivesLost(s: seq<Item>, b: Basket, height: real): nat
  {
    Tally(s, b, height, Bomb, Caught) + Tally(s, b, height, Apple, FellOff)
  }

  /** The game is ended during a pass exactly when some life was lost in it and
      the count fell to zero or below: lives only go down inside a pass, so the
      last decrement is the lowest point. */
  predicate EndsGame(lives: int, lost: nat)
  {
    lost > 0 && lives - lost <= 0
  }

  /** Extending a prefix of the list by one item extends the pass by that item. */
  lemma PrefixStep(s: seq<Item>, i: nat, b: Basket, height: real)
    requires i < |s|
    ensures Survivors(s[..i + 1], b, height)
         == Survivors(s[..i], b, height) + (if OutcomeOf(s[i], b, height) == Kept then [s[i]] else [])
    ensures ScoreGain(s[..i + 1], b, height)
         == ScoreGain(s[..i], b, height) + (if s[i].kind == Apple && Hits(s[i], b) then 1 else 0)
    ensures LivesLost(s[..i + 1], b, height)
         == LivesLost(s[..i], b, height)
            + (if OutcomeOf(s[i], b, height) == (if s[i].kind == Bomb then Caught else FellOff) then 1 else 0)
    ensures Tally(s[..i + 1], b, height, Bomb, Caught)
         == Tally(s[..i], b, height, Bomb, Caught) + (if s[i].kind == Bomb && Hits(s[i], b) then 1 else 0)
  {
    assert s[..i + 1][..i] == s[..i];
  }

  /** `t` is `s` with some elements left out and the rest in the same order. */
  ghost predicate SubsequenceOf(t: seq<Item>, s: seq<Item>)
    decreases |s|
  {
    if t == [] then true
    else if s == [] then false
    else (t[|t| - 1] == s[|s| - 1] && SubsequenceOf(t[..|t| - 1], s[..|s| - 1]))
         || SubsequenceOf(t, s[..|s| - 1])
  }

  /** The new item list is an order-preserving selection of the old one. */
  lemma {:induction false} SurvivorsInOrder(s: seq<Item>, b: Basket, height: real)
    ensures SubsequenceOf(Survivors(s, b, height), s)
    decreases |s|
  {
    if s != [] {
      var front := s[..|s| - 1];
      SurvivorsInOrder(front, b, height);
      var t := Survivors(s, b, height);
      if OutcomeOf(s[|s| - 1], b, height) == Kept {
        assert t[..|t| - 1] == Survivors(front, b, height);
      } else {
        assert t == Survivors(front, b, height);
      }
    }
  }

  /** An item survives exactly when it is in the input and neither hit nor fell off. */
  lemma {:induction false} SurvivorsExactlyKept(s: seq<Item>, b: Basket, height: real)
    ensures forall a :: a in Survivors(s, b, height) <==> a in s && OutcomeOf(a, b, height) == Kept
    decreases |s|
  {
    if s != [] {
      var front := s[..|s| - 1];
      SurvivorsExactlyKept(front, b, height);
      assert s == front + [s[|s| - 1]];
    }
  }

  /** Every item meets exactly one outcome: the six (kind, outcome) tallies
      partition the input, and the survivors are exactly the kept ones. */
  lemma {:induction false} OneOutcomePerItem(s: seq<Item>, b: Basket, height: real)
    ensures |s| == Tally(s, b, height, Apple, Caught) + Tally(s, b, height, Bomb, Caught)
                 + Tally(s, b, height, Apple, FellOff) + Tally(s, b, height, Bomb, FellOff)
                 + Tally(s, b, height, Apple, Kept) + Tally(s, b, height, Bomb, Kept)
    ensures |Survivors(s, b, height)| == Tally(s, b, height, Apple, Kept) + Tally(s, b, height, Bomb, Kept)
    decreases |s|
  {
    if s != [] {
      OneOutcomePerItem(s[..|s| - 1], b, height);
    }
  }

  /** The pass treats items independently: running it over `s + t` is running it
      over `s`, then over `t`. */
  lemma {:induction false} PassDistributes(s: seq<Item>, t: seq<Item>, b: Basket, height: real, k: Kind, o: Outcome)
    ensures Survivors(s + t, b, height) == Survivors(s, b, height) + Survivors(t, b, height)
    ensures Tally(s + t, b, height, k, o) == Tally(s, b, height, k, o) + Tally(t, b, height, k, o)
    decreases |t|
  {
    if t == [] {
      assert s + t == s;
    } else {
      var front := t[..|t| - 1];
      PassDistributes(s, front, b, height, k, o);
      assert (s + t)[..|s + t| - 1] == s + front;
    }
  }

  /** The pass over a single item. */
  lemma SingleItem(a: Item, b: Basket, height: real, k: Kind, o: Outcome)
    ensures Tally([a], b, height, k, o) == if a.kind == k && OutcomeOf(a, b, height) == o then 1 else 0
    ensures Survivors([a], b, height) == if OutcomeOf(a, b, height) == Kept then [a] else []
  {
    assert [a][..0] == [];
  }

  /** Inserting an item that does not meet (k, o) leaves that tally unchanged. */
  lemma TallyIgnores(s: seq<Item>, a: Item, t: seq<Item>, b: Basket, height: real, k: Kind, o: Outcome)
    requires !(a.kind == k && OutcomeOf(a, b, height) == o)
    ensures Tally(s + [a] + t, b, height, k, o) == Tally(s + t, b, height, k, o)
  {
    PassDistributes(s + [a], t, b, height, k, o);
    PassDistributes(s, [a], b, height, k, o);
    PassDistributes(s, t, b, height, k, o);
    SingleItem(a, b, height, k, o);
  }

  /** A bomb that falls past the viewport changes neither counter and leaves
      the list, wherever it stands in the pass. */
  lemma FallenBombIsInert(s: seq<Item>, a: Item, t: seq<Item>, b: Basket, height: real)
    requires a.kind == Bomb && !Hits(a, b) && a.y > height + OffscreenMargin
    ensures ScoreGain(s + [a] + t, b, height) == ScoreGain(s + t, b, height)
    ensures LivesLost(s + [a] + t, b, height) == LivesLost(s + t, b, height)
    ensures Survivors(s + [a] + t, b, height) == Survivors(s + t, b, height)
  {
    TallyIgnores(s, a, t, b, height, Apple, Caught);
    TallyIgnores(s, a, t, b, height, Bomb, Caught);
    TallyIgnores(s, a, t, b, height, Apple, FellOff);
    PassDistributes(s + [a], t, b, height, Apple, Kept);
    PassDistributes(s, [a], b, height, Apple, Kept);
    PassDistributes(s, t, b, height, Apple, Kept);
    SingleItem(a, b, height, Apple, Kept);
  }

  /** Scenario: one apple centred over the basket with its bottom exactly at
      the lowest reachable line is caught, scores one and is removed. */
  lemma CentredAppleIsCaught(a: Item, b: Basket, height: real)
    requires a.kind == Apple && 0.0 <= b.w
    requires a.x + a.size / 2.0 == b.x + b.w / 2.0
    requires a.y + a.size == b.y + b.h + CatchTolerance && 0.0 <= b.h + CatchTolerance
    ensures ScoreGain([a], b, height) == 1 && LivesLost([a], b, height) == 0
    ensures Survivors([a], b, height) == []
  {
    SingleItem(a, b, height, Apple, Caught);
    SingleItem(a, b, height, Bomb, Caught);
    SingleItem(a, b, height, Apple, FellOff);
  }

  /** Scenario: with one life left, a caught bomb costs that life and ends the game. */
  lemma BombOnLastLifeEndsGame(a: Item, b: Basket, height: real)
    requires a.kind == Bomb && Hits(a, b)
    ensures LivesLost([a], b, height) == 1 && ScoreGain([a], b, height) == 0
    ensures EndsGame(1, LivesLost([a], b, height))
  {
    SingleItem(a, b, height, Apple, Caught);
    SingleItem(a, b, height, Bomb, Caught);
    SingleItem(a, b, height, Apple, FellOff);
  }
}
