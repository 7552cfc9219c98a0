/** Random selection: `randomInt`, `randomElement` and the Fisher-Yates
    `shuffle`. Each `Math.random()` call is replaced by a draw in [0, 1)
    that the caller supplies. */
module Random {
  import opened Wrappers

  /** A value `Math.random()` can return. */
  predicate IsDraw(draw: real) {
    0.0 <= draw < 1.0
  }

  /** A product of non-negative reals is non-negative. */
  lemma MulNonNegative(a: real, b: real)
    requires a >= 0.0 && b >= 0.0
    ensures a * b >= 0.0
  {
  }

  /** A draw scaled by a width lies between 0 and the width. */
  lemma ScaledDraw(draw: real, width: int)
    requires IsDraw(draw)
    ensures width > 0 ==> 0.0 <= draw * width as real < width as real
    ensures width <= 0 ==> width as real <= draw * width as real <= 0.0
  {
    var w := width as real;
    var rest := 1.0 - draw;
    assert draw * w + rest * w == w;
    if width > 0 {
      MulNonNegative(draw, w);
      assert rest * w > 0.0;
    } else {
      MulNonNegative(draw, -w);
      MulNonNegative(rest, -w);
      assert draw * (-w) == -(draw * w);
      assert rest * (-w) == -(rest * w);
    }
  }

  /** The floor of the draw scaled by a width: between 0 and the width, and
      below the width when the width is positive. */
  function ScaledFloor(draw: real, width: int): (k: int)
    requires IsDraw(draw)
    ensures width > 0 ==> 0 <= k < width
    ensures width <= 0 ==> width <= k <= 0
  {
    var x := draw * width as real;
    ScaledDraw(draw, width);
    FloorWithin(x, width);
    x.Floor
  }

  /** `Math.floor` of a value between 0 and a width. */
  lemma FloorWithin(x: real, width: int)
    ensures width > 0 && 0.0 <= x < width as real ==> 0 <= x.Floor < width
    ensures width <= 0 && width as real <= x <= 0.0 ==> width <= x.Floor <= 0
  {
  }

  /** `randomInt(min, max)`: the floor of the draw scaled by the width of the
      range, shifted by `min`; in [min, max) whenever the range is non-empty,
      in [max, min] otherwise. */
  function RandomInt(min: int, max: int, draw: real): (r: int)
    requires IsDraw(draw)
    ensures min < max ==> min <= r < max
    ensures max <= min ==> max <= r <= min
  {
    ScaledFloor(draw, max - min) + min
  }

  /** `randomElement(array)`: throws on an empty array, otherwise returns the
      element at a random index below its length. */
  function RandomElement<T>(elements: seq<T>, draw: real): (r: Result<T>)
    requires IsDraw(draw)
    ensures r.Failure? <==> |elements| == 0
    ensures r.Success? ==> r.value in elements
  {
    if |elements| == 0 then Failure("Array não pode estar vazio")
    else Success(elements[RandomInt(0, |elements|, draw)])
  }

  /** Every draw of a sequence is a value `Math.random()` can return. */
  ghost predicate AllDraws(draws: seq<real>) {
    forall k :: 0 <= k < |draws| ==> IsDraw(draws[k])
  }

  /** The partner index of every step: at step `i` some index in [0, i]. */
  ghost predicate SwapBounds(js: seq<int>) {
    forall i :: 0 <= i < |js| ==> 0 <= js[i] <= i
  }

  /** The partner index of each step of the shuffle loop: the random integer
      in [0, i] that step `i` computes from its draw. */
  function SwapIndices(draws: seq<real>): (js: seq<int>)
    requires AllDraws(draws)
    ensures |js| == |draws| && SwapBounds(js)
    ensures forall i :: 0 <= i < |js| ==> js[i] == RandomInt(0, i + 1, draws[i])
  {
    seq(|draws|, i requires 0 <= i < |draws| => RandomInt(0, i + 1, draws[i]))
  }

  /** Exchanging the elements at two positions of a sequence. */
  function Swap<T>(s: seq<T>, i: nat, j: nat): (r: seq<T>)
    requires i < |s| && j < |s|
    ensures |r| == |s| && r[i] == s[j] && r[j] == s[i]
    ensures forall k :: 0 <= k < |s| && k != i && k != j ==> r[k] == s[k]
  {
    s[i := s[j]][j := s[i]]
  }

  /** A swap rearranges without adding or losing elements. */
  lemma SwapPermutes<T>(s: seq<T>, i: nat, j: nat)
    requires i < |s| && j < |s|
    ensures multiset(Swap(s, i, j)) == multiset(s)
  {
  }

  /** The steps of the shuffle loop from index `i` down to 1, applied to `s`;
      `js[i]` is the partner index of step `i`. */
  function ShuffleFrom<T>(s: seq<T>, js: seq<int>, i: int): (r: seq<T>)
    requires |js| == |s| && SwapBounds(js) && i < |s|
    ensures |r| == |s|
    decreases i
  {
    if i <= 0 then s
    else ShuffleFrom(Swap(s, i, js[i]), js, i - 1)
  }

  /** One step of the loop: the swap at `i`, then the steps below it. */
  lemma ShuffleStep<T>(s: seq<T>, js: seq<int>, i: int)
    requires |js| == |s| && SwapBounds(js) && 0 < i < |s|
    ensures ShuffleFrom(s, js, i) == ShuffleFrom(Swap(s, i, js[i]), js, i - 1)
  {
  }

  /** What `shuffle` returns for an input and the draws it consumes
      (`draws[i]` is the draw of the step at index `i`; `draws[0]` is unused). */
  function FisherYates<T>(s: seq<T>, draws: seq<real>): seq<T>
    requires |draws| == |s| && AllDraws(draws)
  {
    ShuffleFrom(s, SwapIndices(draws), |s| - 1)
  }

  /** The shuffle loop only rearranges: the same elements with the same
      multiplicities. */
  lemma {:induction false} ShuffleFromPermutes<T>(s: seq<T>, js: seq<int>, i: int)
    requires |js| == |s| && SwapBounds(js) && i < |s|
    ensures multiset(ShuffleFrom(s, js, i)) == multiset(s)
    decreases i
  {
    if i > 0 {
      SwapPermutes(s, i, js[i]);
      ShuffleFromPermutes(Swap(s, i, js[i]), js, i - 1);
    }
  }

  /** The result of `shuffle` is a permutation of its input. */
  lemma FisherYatesPermutes<T>(s: seq<T>, draws: seq<real>)
    requires |draws| == |s| && AllDraws(draws)
    ensures |FisherYates(s, draws)| == |s|
    ensures multiset(FisherYates(s, draws)) == multiset(s)
  {
    ShuffleFromPermutes(s, SwapIndices(draws), |s| - 1);
  }

  /** Positions above the loop index are never touched again. */
  lemma {:induction false} ShuffleFromKeepsAbove<T>(s: seq<T>, js: seq<int>, i: int, k: int)
    requires |js| == |s| && SwapBounds(js) && i < |s|
    requires 0 <= k && i < k < |s|
    ensures ShuffleFrom(s, js, i)[k] == s[k]
    decreases i
  {
    if i > 0 {
      var t := Swap(s, i, js[i]);
      assert t[k] == s[k];
      ShuffleFromKeepsAbove(t, js, i - 1, k);
      assert ShuffleFrom(s, js, i) == ShuffleFrom(t, js, i - 1);
    }
  }

  /** Arrays of length 0 or 1 come back unchanged: the loop body never runs. */
  lemma FisherYatesShort<T>(s: seq<T>, draws: seq<real>)
    requires |draws| == |s| && AllDraws(draws) && |s| <= 1
    ensures FisherYates(s, draws) == s
  {
  }

  /** Exchanging the elements at two positions of an array, in place. */
  method SwapInPlace<T>(a: array<T>, i: nat, j: nat)
    requires i < a.Length && j < a.Length
    modifies a
    ensures a[..] == Swap(old(a[..]), i, j)
  {
    a[i], a[j] := a[j], a[i];
  }

  /** `shuffle(array)`: copies the array and runs the Fisher-Yates swap loop
      on the copy; the argument itself is not modified. */
  method Shuffle<T>(original: array<T>, draws: seq<real>) returns (shuffled: array<T>)
    requires |draws| == original.Length && AllDraws(draws)
    ensures fresh(shuffled)
    ensures shuffled[..] == FisherYates(original[..], draws)
    ensures multiset(shuffled[..]) == multiset(original[..])
  {
    shuffled := new T[original.Length](k requires 0 <= k < original.Length reads original => original[k]);
    assert shuffled[..] == original[..];
    ghost var js := SwapIndices(draws);
    ghost var target := FisherYates(original[..], draws);
    var i := shuffled.Length - 1;
    while i > 0
      invariant -1 <= i < shuffled.Length
      invariant shuffled.Length == 0 ==> i == -1
      invariant ShuffleFrom(shuffled[..], js, i) == target
    {
      var j := RandomInt(0, i + 1, draws[i]);
      assert j == js[i];
      ShuffleStep(shuffled[..], js, i);
      SwapInPlace(shuffled, i, j);
      i := i - 1;
    }
    FisherYatesPermutes(original[..], draws);
  }
}
