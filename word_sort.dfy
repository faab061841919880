/** The word-sorting fixture: `main` reads ten words into `char str[10][50]`,
    rejects the input at the first empty or too-short word, and otherwise
    sorts the ten words in place with a nested exchange sort under `strcmp`.
    Reading and printing are not modelled; the words arrive in an array. */
module WordSort {
  import opened Lexicographic

  /** Number of words the fixture reads and sorts. */
  const WordCount: nat := 10
  /** Size of each `char[50]` buffer, terminating NUL included. */
  const BufferSize: nat := 50
  /** Shortest word the validation loop lets through. */
  const MinLength: nat := 3

  /** A word as `scanf("%s")` leaves it in a 50-byte buffer: each `char`
      stands for one byte (so `|w|` is `strlen` and the character order is
      `strcmp`'s unsigned-byte order), there is no NUL inside, and there is
      room for the terminator (longer words overflow the buffer). */
  predicate FitsBuffer(w: string) {
    |w| < BufferSize && forall k :: 0 <= k < |w| ==> w[k] != '\0' && w[k] as int < 256
  }

  /** Outcome of the validation loop: every word accepted, or the index of
      the first rejected word and which message was printed for it. */
  datatype Verdict = Accepted | EmptyWord(index: nat) | TooShort(index: nat)

  /** Words are in non-decreasing `strcmp` order. */
  ghost predicate Sorted(s: seq<string>) {
    forall i, j :: 0 <= i < j < |s| ==> LessEq(s[i], s[j])
  }

  /** The validation loop: stops at the first word that is empty or has
      fewer than three characters; a word of exactly three is accepted. */
  method Validate(str: array<string>) returns (v: Verdict)
    requires str.Length == WordCount
    requires forall k :: 0 <= k < WordCount ==> FitsBuffer(str[k])
    ensures v == Accepted <==> forall k :: 0 <= k < WordCount ==> |str[k]| >= MinLength
    ensures v.EmptyWord? ==>
      v.index < WordCount && str[v.index] == [] &&
      forall k :: 0 <= k < v.index ==> |str[k]| >= MinLength
    ensures v.TooShort? ==>
      v.index < WordCount && 0 < |str[v.index]| < MinLength &&
      forall k :: 0 <= k < v.index ==> |str[k]| >= MinLength
  {
    var i := 0;
    while i < WordCount
      invariant 0 <= i <= WordCount
      invariant forall k :: 0 <= k < i ==> |str[k]| >= MinLength
    {
      if Compare(str[i], "") == 0 {
        return EmptyWord(i);
      } else if |str[i]| < MinLength {
        return TooShort(i);
      }
      i := i + 1;
    }
    return Accepted;
  }

  /** Positions `0 .. i - 1` hold their final words: each sorts no later
      than every word after it. */
  ghost predicate Settled(s: seq<string>, i: nat) {
    forall k, m :: 0 <= k < i && k < m < |s| ==> LessEq(s[k], s[m])
  }

  /** The nested exchange sort: for each position `i`, every later word that
      `strcmp` puts before `str[i]` is swapped into position `i` (through the
      `temp` buffer).  The result is sorted, a permutation of the input, and
      equal to the input when the input was already sorted. */
  method ExchangeSort(str: array<string>)
    requires str.Length == WordCount
    requires forall k :: 0 <= k < WordCount ==> FitsBuffer(str[k])
    modifies str
    ensures Sorted(str[..])
    ensures multiset(str[..]) == multiset(old(str[..]))
    ensures Sorted(old(str[..])) ==> str[..] == old(str[..])
  {
    var i := 0;
    while i < 9
      invariant 0 <= i <= 9
      invariant Settled(str[..], i)
      invariant multiset(str[..]) == multiset(old(str[..]))
      invariant Sorted(old(str[..])) ==> str[..] == old(str[..])
    {
      SettlePosition(str, i);
      i := i + 1;
    }
    assert Settled(str[..], WordCount);
  }

  /** One pass of the inner loop (`j` from `i + 1` to 9): afterwards
      position `i` holds a word that sorts no later than any word after it,
      the earlier positions stay settled, and a sorted array is left as it
      is. */
  method SettlePosition(str: array<string>, i: nat)
    requires str.Length == WordCount && i < 9
    requires Settled(str[..], i)
    modifies str
    ensures Settled(str[..], i + 1)
    ensures multiset(str[..]) == multiset(old(str[..]))
    ensures Sorted(old(str[..])) ==> str[..] == old(str[..])
  {
    var j := i + 1;
    while j < 10
      invariant i + 1 <= j <= WordCount
      invariant Settled(str[..], i)
      invariant forall m :: i < m < j ==> LessEq(str[i], str[m])
      invariant multiset(str[..]) == multiset(old(str[..]))
      invariant Sorted(old(str[..])) ==> str[..] == old(str[..])
    {
      if Compare(str[i], str[j]) > 0 {
        SwapIntoPlace(str, i, j);
      }
      j := j + 1;
    }
  }

  /** One exchange of the inner loop: `str[j]` sorts before `str[i]`, so the
      two are swapped, after which `str[i]` still sorts no later than every
      word between them. */
  method SwapIntoPlace(str: array<string>, i: nat, j: nat)
    requires i < j < str.Length
    requires Compare(str[i], str[j]) > 0
    requires forall m :: i < m < j ==> LessEq(str[i], str[m])
    modifies str
    ensures str[..] == old(str[..])[i := old(str[j])][j := old(str[i])]
    ensures multiset(str[..]) == multiset(old(str[..]))
    ensures forall m :: i < m <= j ==> LessEq(str[i], str[m])
    ensures !Sorted(old(str[..]))
  {
    ghost var was := str[..];
    CompareTotal(str[i], str[j]);
    forall m | i < m < j
      ensures LessEq(str[j], str[m])
    {
      CompareTransitive(str[j], str[i], str[m]);
    }
    var temp := str[i];
    str[i] := str[j];
    str[j] := temp;
    assert str[..] == was[i := was[j]][j := was[i]];
  }
}
