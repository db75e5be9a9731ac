/** The "Recent Detections" list: a newest-first buffer of at most five
    entries, updated by `[newDetection, ...prev].slice(0, 5)`. */
module History {

  /** How many records the list keeps. */
  const Capacity: nat := 5

  function Min(a: int, b: int): int {
    if a <= b then a else b
  }

  /** JavaScript's `s.slice(0, n)`: the first `n` elements, or all of `s` when shorter. */
  function Take<T>(s: seq<T>, n: nat): (r: seq<T>)
    ensures |r| == Min(n, |s|)
    ensures forall i :: 0 <= i < |r| ==> r[i] == s[i]
  {
    s[..Min(n, |s|)]
  }

  /** One successful response: the new record goes in front, the oldest
      entries beyond the capacity fall off the end. */
  function PushRecent<T>(history: seq<T>, x: T): (r: seq<T>)
    ensures |r| == Min(|history| + 1, Capacity)
    ensures r[0] == x
    ensures forall i :: 1 <= i < |r| ==> r[i] == history[i - 1]
  {
    Take([x] + history, Capacity)
  }

  /** The list after the records `xs` arrived one after another, oldest first. */
  function PushAll<T>(history: seq<T>, xs: seq<T>): seq<T>
    decreases |xs|
  {
    if xs == [] then history else PushAll(PushRecent(history, xs[0]), xs[1..])
  }

  function Reversed<T>(s: seq<T>): (r: seq<T>)
    ensures |r| == |s|
    ensures forall i :: 0 <= i < |s| ==> r[i] == s[|s| - 1 - i]
  {
    if s == [] then [] else Reversed(s[1..]) + [s[0]]
  }

  lemma TakeAppendTake<T>(a: seq<T>, b: seq<T>, n: nat)
    ensures Take(a + Take(b, n), n) == Take(a + b, n)
  {
  }

  /** Starting from a list within capacity, the list after any run of
      successful responses holds the (up to) five newest records, newest first. */
  lemma {:induction false} PushAllKeepsNewest<T>(history: seq<T>, xs: seq<T>)
    requires |history| <= Capacity
    ensures PushAll(history, xs) == Take(Reversed(xs) + history, Capacity)
    decreases |xs|
  {
    if xs == [] {
      assert Reversed(xs) + history == history;
    } else {
      var x, rest := xs[0], xs[1..];
      var next := PushRecent(history, x);
      PushAllKeepsNewest(next, rest);
      TakeAppendTake(Reversed(rest), [x] + history, Capacity);
      assert Reversed(xs) == Reversed(rest) + [x];
      assert Reversed(rest) + ([x] + history) == Reversed(xs) + history;
    }
  }

  /** The element-wise reading of PushAllKeepsNewest for a list that starts
      empty: position `i` holds the record that arrived `i` responses before the last. */
  lemma NewestFirst<T>(xs: seq<T>, i: nat)
    requires i < Min(|xs|, Capacity)
    ensures |PushAll([], xs)| == Min(|xs|, Capacity)
    ensures PushAll([], xs)[i] == xs[|xs| - 1 - i]
  {
    PushAllKeepsNewest([], xs);
    assert Reversed(xs) + [] == Reversed(xs);
  }
}
