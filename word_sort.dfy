/**
 * The three-word sorter: three words are read into buffers, an array of three pointers
 * refers to them, and a nested exchange loop swaps pointers until the words are in
 * `strcmp` order.
 *
 * A pointer is modelled as the index of the buffer it points to, so that the result can
 * be stated as a permutation of the pointers, not only of the words.
 */
module WordSort {

  newtype Byte = x: int | 0 <= x < 256

  /** The bytes of a C string up to (not including) its terminating NUL, which therefore
      holds no NUL byte itself. */
  type Word = s: seq<Byte> | forall k :: 0 <= k < |s| ==> s[k] != 0

  /** `strcmp` up to its sign: bytes are compared as unsigned values, and a word that is a
      proper prefix of the other comes first. */
  function Compare(x: Word, y: Word): (c: int)
    ensures -1 <= c <= 1
  {
    if x == [] && y == [] then 0
    else if x == [] then -1
    else if y == [] then 1
    else if x[0] < y[0] then -1
    else if x[0] > y[0] then 1
    else Compare(x[1..], y[1..])
  }

  /** Only equal words compare equal. */
  lemma {:induction false} CompareZeroIffEqual(x: Word, y: Word)
    ensures Compare(x, y) == 0 <==> x == y
  {
    if x != [] && y != [] && x[0] == y[0] {
      CompareZeroIffEqual(x[1..], y[1..]);
      assert x == [x[0]] + x[1..] && y == [y[0]] + y[1..];
    }
  }

  /** Swapping the arguments flips the sign. */
  lemma {:induction false} CompareAntisymmetric(x: Word, y: Word)
    ensures Compare(y, x) == -Compare(x, y)
  {
    if x != [] && y != [] && x[0] == y[0] {
      CompareAntisymmetric(x[1..], y[1..]);
    }
  }

  /** "Not after" is transitive. */
  lemma {:induction false} CompareTransitive(x: Word, y: Word, z: Word)
    requires Compare(x, y) <= 0 && Compare(y, z) <= 0
    ensures Compare(x, z) <= 0
  {
    if x != [] && y != [] && z != [] && x[0] == y[0] && y[0] == z[0] {
      CompareTransitive(x[1..], y[1..], z[1..]);
    }
  }

  /** Every pointer refers to one of the buffers. */
  predicate PointsInto(buffers: seq<Word>, words: seq<nat>)
  {
    forall k :: 0 <= k < |words| ==> words[k] < |buffers|
  }

  /** The word behind pointer `p` does not come after the word behind pointer `q`. */
  predicate NotAfter(buffers: seq<Word>, p: nat, q: nat)
    requires p < |buffers| && q < |buffers|
  {
    Compare(buffers[p], buffers[q]) <= 0
  }

  /** Three pointers whose words are in `strcmp` order. */
  predicate InOrder(buffers: seq<Word>, words: seq<nat>)
    requires |words| == 3 && PointsInto(buffers, words)
  {
    NotAfter(buffers, words[0], words[1]) && NotAfter(buffers, words[1], words[2])
  }

  /** The body of the inner loop: swap the pointers at `i` and `j` when the word at `i`
      compares greater than the word at `j`, and leave the array alone otherwise. */
  method SwapIfGreater(words: array<nat>, buffers: seq<Word>, i: nat, j: nat)
    requires i < j < words.Length && PointsInto(buffers, words[..])
    modifies words
    ensures PointsInto(buffers, words[..])
    ensures multiset(words[..]) == multiset(old(words[..]))
    ensures !NotAfter(buffers, old(words[i]), old(words[j])) ==>
              words[i] == old(words[j]) && words[j] == old(words[i])
    ensures NotAfter(buffers, old(words[i]), old(words[j])) ==> words[..] == old(words[..])
    ensures forall k :: 0 <= k < words.Length && k != i && k != j ==> words[k] == old(words[k])
    ensures NotAfter(buffers, words[i], words[j])
  {
    if Compare(buffers[words[i]], buffers[words[j]]) > 0 {
      CompareAntisymmetric(buffers[words[i]], buffers[words[j]]);
      words[i], words[j] := words[j], words[i];
    }
  }

  /** A word before `x` is before everything `x` is not after. */
  lemma BeforeAMinimum(buffers: seq<Word>, y: nat, x: nat, q: nat)
    requires y < |buffers| && x < |buffers| && q < |buffers|
    requires !NotAfter(buffers, x, y) && NotAfter(buffers, x, q)
    ensures NotAfter(buffers, y, q)
  {
    CompareAntisymmetric(buffers[x], buffers[y]);
    CompareTransitive(buffers[y], buffers[x], buffers[q]);
  }

  /**
   * One pass of the inner loop: compare position `i` with every later position in turn,
   * swapping when the word at `i` compares greater. Afterwards position `i` holds a word
   * not after any later one, earlier positions are untouched, the later positions keep
   * their words or exchange them, and a row whose first word is already not after the
   * others is left as it was.
   */
  method PlaceMinimum(words: array<nat>, buffers: seq<Word>, i: nat) returns (ghost comparisons: seq<(nat, nat)>)
    requires words.Length == 3 && i < 2 && PointsInto(buffers, words[..])
    modifies words
    ensures PointsInto(buffers, words[..])
    ensures multiset(words[..]) == multiset(old(words[..]))
    ensures NotAfter(buffers, words[i], words[i + 1])
    ensures i == 0 ==> NotAfter(buffers, words[0], words[2])
    ensures i == 1 ==>
              && words[0] == old(words[0])
              && ((words[1] == old(words[1]) && words[2] == old(words[2]))
                  || (words[1] == old(words[2]) && words[2] == old(words[1])))
    ensures NotAfter(buffers, old(words[i]), old(words[i + 1]))
            && (i == 0 ==> NotAfter(buffers, old(words[0]), old(words[2])))
            ==> words[..] == old(words[..])
    ensures comparisons == if i == 0 then [(0, 1), (0, 2)] else [(1, 2)]
  {
    ghost var rowInOrder := NotAfter(buffers, words[i], words[i + 1])
                            && (i == 0 ==> NotAfter(buffers, words[0], words[2]));
    comparisons := [];
    for j := i + 1 to 3
      invariant PointsInto(buffers, words[..])
      invariant multiset(words[..]) == multiset(old(words[..]))
      // words[i] is a minimum of the words compared with it so far
      invariant j >= i + 2 ==> NotAfter(buffers, words[i], words[i + 1])
      invariant j >= i + 3 ==> NotAfter(buffers, words[i], words[i + 2])
      invariant i == 1 ==>
                  && words[0] == old(words[0])
                  && ((words[1] == old(words[1]) && words[2] == old(words[2]))
                      || (words[1] == old(words[2]) && words[2] == old(words[1])))
      invariant rowInOrder ==> words[..] == old(words[..])
      invariant comparisons == [(i, i + 1), (i, i + 2)][..j - i - 1]
    {
      comparisons := comparisons + [(i, j)];
      ghost var x, y, q := words[i], words[j], words[i + 1];
      SwapIfGreater(words, buffers, i, j);
      if j == i + 2 && !NotAfter(buffers, x, y) {
        BeforeAMinimum(buffers, y, x, q);
      }
    }
  }

  /**
   * The exchange sort over the pointer array: for each `i` from 0 to 1 and each later `j`,
   * swap `words[i]` and `words[j]` when the word at `i` compares greater. Afterwards the
   * words are in order, the array holds the same pointers, an array already in order is
   * left as it was, and the comparisons made are exactly (0,1), (0,2), (1,2).
   */
  method SortWords(words: array<nat>, buffers: seq<Word>) returns (ghost comparisons: seq<(nat, nat)>)
    requires words.Length == 3 && PointsInto(buffers, words[..])
    modifies words
    ensures PointsInto(buffers, words[..])
    ensures InOrder(buffers, words[..])
    ensures multiset(words[..]) == multiset(old(words[..]))
    ensures InOrder(buffers, old(words[..])) ==> words[..] == old(words[..])
    ensures comparisons == [(0, 1), (0, 2), (1, 2)]
  {
    ghost var sortedAtStart := InOrder(buffers, words[..]);
    if sortedAtStart {
      CompareTransitive(buffers[words[0]], buffers[words[1]], buffers[words[2]]);
    }
    comparisons := [];
    for i := 0 to 2
      invariant PointsInto(buffers, words[..])
      invariant multiset(words[..]) == multiset(old(words[..]))
      // each finished position holds a word not after any later one
      invariant i >= 1 ==> NotAfter(buffers, words[0], words[1]) && NotAfter(buffers, words[0], words[2])
      invariant i >= 2 ==> NotAfter(buffers, words[1], words[2])
      invariant sortedAtStart ==> words[..] == old(words[..])
      invariant comparisons == [(0, 1), (0, 2), (1, 2)][..if i == 0 then 0 else if i == 1 then 2 else 3]
    {
      ghost var pass := PlaceMinimum(words, buffers, i);
      comparisons := comparisons + pass;
    }
  }
}
