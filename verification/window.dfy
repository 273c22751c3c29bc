/**
 * A bounded first-in-first-out buffer. The meter clients keep their last
 * readings in a deque with a maximum length of 3, and the web server keeps
 * its log in a list that it trims to 50 entries after every append; both
 * append at the newest end and drop the oldest entry on overflow.
 */
module Window {

  function Min(a: int, b: int): int { if a <= b then a else b }

  /** Appends `x` as the newest entry, dropping the oldest one when the buffer then exceeds `cap`. */
  function Push<T>(buf: seq<T>, x: T, cap: nat): (r: seq<T>)
    // the surviving entries are the newest ones, in their original order
    ensures |r| <= |buf| + 1 && r == (buf + [x])[|buf| + 1 - |r|..]
    // at most one entry (the oldest) is dropped, and only on overflow
    ensures |buf| <= cap ==> |r| == Min(|buf| + 1, cap)
    ensures |buf| + 1 > cap ==> r == (buf + [x])[1..]
    ensures |buf| + 1 <= cap ==> r == buf + [x]
    ensures cap > 0 ==> |r| > 0 && r[|r| - 1] == x
  {
    var appended := buf + [x];
    if |appended| > cap then
      assert appended[|buf| + 1 - |appended[1..]|..] == appended[1..];
      appended[1..]
    else
      assert appended[|buf| + 1 - |appended|..] == appended;
      appended
  }

  /** Pushes every element of `xs`, oldest first. */
  function PushAll<T>(buf: seq<T>, xs: seq<T>, cap: nat): seq<T>
    decreases |xs|
  {
    if xs == [] then buf else PushAll(Push(buf, xs[0], cap), xs[1..], cap)
  }

  /** The newest `cap` elements of `s` (all of them when there are fewer). */
  function Newest<T>(s: seq<T>, cap: nat): (r: seq<T>)
    ensures |r| == Min(|s|, cap)
  {
    if |s| <= cap then s else s[|s| - cap..]
  }

  /**
   * Whatever the sequence of appends, a buffer that starts within its
   * capacity holds exactly the newest `cap` values ever appended.
   */
  lemma {:induction false} PushAllKeepsNewest<T>(buf: seq<T>, xs: seq<T>, cap: nat)
    requires |buf| <= cap
    ensures PushAll(buf, xs, cap) == Newest(buf + xs, cap)
    decreases |xs|
  {
    if xs == [] {
      assert buf + xs == buf;
    } else {
      var next := Push(buf, xs[0], cap);
      PushAllKeepsNewest(next, xs[1..], cap);
      NewestAfterPush(buf, xs, cap);
    }
  }

  /** One push followed by the remaining appends keeps the same newest window. */
  lemma NewestAfterPush<T>(buf: seq<T>, xs: seq<T>, cap: nat)
    requires |buf| <= cap && xs != []
    ensures Newest(Push(buf, xs[0], cap) + xs[1..], cap) == Newest(buf + xs, cap)
  {
    var whole := buf + xs;
    var next := Push(buf, xs[0], cap);
    if |buf| + 1 > cap {
      assert next == (buf + [xs[0]])[1..];
      assert next + xs[1..] == whole[1..];
      var n := |whole|;
      assert n >= cap + 1;
      if n - 1 > cap {
        assert whole[1..][n - 1 - cap..] == whole[n - cap..];
      }
    } else {
      assert next == buf + [xs[0]];
      assert next + xs[1..] == whole;
    }
  }
}
