/** Index arithmetic of the slideshow: the clamp in showPhoto, the neighbours
    used by nextPhoto/prevPhoto, and the music pointer of playBackgroundMusic.
    The source's `%` truncates toward zero; every operand here is non-negative,
    where it agrees with Dafny's `%`. */
module Indexing {

  /** showPhoto's bound check: a negative index goes to the last photo, an index
      past the end to the first; it clamps to an end, it does not reduce
      modulo the deck length. */
  function ClampIndex(index: int, len: nat): (r: nat)
    requires len > 0
    ensures r < len
    ensures index < 0 ==> r == len - 1
    ensures index >= len ==> r == 0
    ensures 0 <= index < len ==> r == index
  {
    if index < 0 then len - 1 else if index >= len then 0 else index
  }

  /** The index nextPhoto asks for. */
  function NextIndex(i: nat, len: nat): (r: nat)
    requires len > 0
    ensures r < len
  {
    (i + 1) % len
  }

  /** The index prevPhoto asks for. */
  function PrevIndex(i: nat, len: nat): (r: nat)
    requires len > 0
    ensures r < len
  {
    (i - 1 + len) % len
  }

  lemma ModSmall(x: nat, n: nat)
    requires x < n
    ensures x % n == x
  {
  }

  lemma ModOneWrap(x: nat, n: nat)
    requires 0 < n <= x < 2 * n
    ensures x % n == x - n
  {
    var q, r := x / n, x % n;
    assert x == q * n + r;
  }

  /** `showPhoto(-1)` shows what `showPhoto(len - 1)` shows, and
      `showPhoto(len)` what `showPhoto(0)` shows. */
  lemma ClampWrapsAtBothEnds(len: nat)
    requires len > 0
    ensures ClampIndex(-1, len) == ClampIndex(len - 1, len)
    ensures ClampIndex(len, len) == ClampIndex(0, len)
  {
  }

  /** Beyond one step past an end the clamp is not a modulo: with three or more
      photos, index -2 shows the last photo where a reduction modulo the deck
      length would show photo `len - 2`, and index `len + 1` shows the first
      where a modulo would show photo 1. */
  lemma ClampIsNotModulo(len: nat)
    requires len >= 3
    ensures ClampIndex(-2, len) == len - 1 != (-2) % len
    ensures ClampIndex(len + 1, len) == 0 != (len + 1) % len
  {
  }

  /** prevPhoto undoes nextPhoto, and nextPhoto undoes prevPhoto. */
  lemma PrevUndoesNext(i: nat, len: nat)
    requires i < len
    ensures PrevIndex(NextIndex(i, len), len) == i
    ensures NextIndex(PrevIndex(i, len), len) == i
  {
    if i + 1 < len {
      ModSmall(i + 1, len);
      ModOneWrap(i + len, len);
    } else {
      assert NextIndex(i, len) == 0;
      ModSmall(len - 1, len);
    }
    if i > 0 {
      ModOneWrap(i - 1 + len, len);
      ModSmall(i, len);
    } else {
      ModSmall(len - 1, len);
    }
  }

  /** The index after `k` calls of nextPhoto from `i`. */
  function Advance(i: nat, len: nat, k: nat): (r: nat)
    requires len > 0
  {
    if k == 0 then i else NextIndex(Advance(i, len, k - 1), len)
  }

  /** Up to a full round, `k` calls of nextPhoto move `k` places on the cycle. */
  lemma {:induction false} AdvanceBy(i: nat, len: nat, k: nat)
    requires i < len && k <= len
    ensures Advance(i, len, k) == if i + k < len then i + k else i + k - len
  {
    if k > 0 {
      AdvanceBy(i, len, k - 1);
      var before := Advance(i, len, k - 1);
      if i + k < len {
        assert before + 1 == i + k;
        ModSmall(i + k, len);
      } else if i + k == len {
        assert before + 1 == len;
        ModOneWrap(len, len);
      } else {
        assert before + 1 == i + k - len;
        ModSmall(i + k - len, len);
      }
    }
  }

  /** `len` calls of nextPhoto bring the deck back to where it started. */
  lemma AdvanceFullCycle(i: nat, len: nat)
    requires i < len
    ensures Advance(i, len, len) == i
  {
    AdvanceBy(i, len, len);
  }

  /** The track playBackgroundMusic picks: a random index in shuffle mode,
      otherwise the pointer reduced modulo the playlist length. */
  function MusicPick(pointer: nat, len: nat, shuffle: bool, randomPick: nat): (k: nat)
    requires randomPick < len
    ensures k < len
    ensures shuffle ==> k == randomPick
    ensures !shuffle ==> k == pointer % len
    ensures !shuffle && pointer < len ==> k == pointer
  {
    if shuffle then randomPick else pointer % len
  }

  /** The pointer after a pick: one past it, wrapping to 0. */
  function PointerAfter(pick: nat, len: nat): (p: nat)
    requires pick < len
    ensures p < len
    ensures pick + 1 < len ==> p == pick + 1
    ensures pick + 1 == len ==> p == 0
  {
    (pick + 1) % len
  }

  /** The pointer after `k` sequential picks starting from `pointer`. */
  function SequentialPointer(pointer: nat, len: nat, k: nat): (p: nat)
    requires len > 0
  {
    if k == 0 then pointer
    else PointerAfter(MusicPick(SequentialPointer(pointer, len, k - 1), len, false, 0), len)
  }

  /** Up to a full round, `k` sequential picks move the pointer `k` tracks on. */
  lemma {:induction false} SequentialBy(pointer: nat, len: nat, k: nat)
    requires pointer < len && k <= len
    ensures SequentialPointer(pointer, len, k) == if pointer + k < len then pointer + k else pointer + k - len
  {
    if k > 0 {
      SequentialBy(pointer, len, k - 1);
    }
  }

  /** `len` sequential picks return the pointer to its start: on three tracks
      from track 0, three completions come back to track 0. */
  lemma SequentialFullCycle(pointer: nat, len: nat)
    requires pointer < len
    ensures SequentialPointer(pointer, len, len) == pointer
  {
    SequentialBy(pointer, len, len);
  }
}
