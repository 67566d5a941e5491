/** The bounded first-in-first-out point buffer behind the GPS path trail. */
module Trail {

  /** The last `n` elements of `xs`, or all of `xs` when it has at most `n`. */
  function LastN<T>(xs: seq<T>, n: nat): (r: seq<T>)
    ensures |r| == if |xs| <= n then |xs| else n
  {
    if |xs| <= n then xs else xs[|xs| - n..]
  }

  /** `LastN` is a suffix of its input. */
  lemma LastNIsSuffix<T>(xs: seq<T>, n: nat)
    ensures LastN(xs, n) == xs[|xs| - |LastN(xs, n)|..]
  {
  }

  /** One push-then-shift step on the point array: the new point goes at the
      end and, when the array then holds more than `max` points, the oldest
      one is dropped. */
  function PushTrail<T>(trail: seq<T>, p: T, max: nat): (r: seq<T>)
    ensures |r| == if |trail| < max then |trail| + 1 else |trail|
  {
    var pushed := trail + [p];
    if |pushed| > max then pushed[1..] else pushed
  }

  /** What one step does to a trail within its capacity: below capacity the
      point is appended; at capacity the oldest point gives way to it; the
      capacity is never exceeded, the trail never shrinks, and the newest
      point is last. */
  lemma PushTrailFifo<T>(trail: seq<T>, p: T, max: nat)
    ensures |trail| < max ==> PushTrail(trail, p, max) == trail + [p]
    ensures |trail| >= max && trail != [] ==> PushTrail(trail, p, max) == trail[1..] + [p]
    ensures |trail| <= max ==> |trail| <= |PushTrail(trail, p, max)| <= max
    ensures max > 0 ==> PushTrail(trail, p, max) != [] && PushTrail(trail, p, max)[|PushTrail(trail, p, max)| - 1] == p
  {
    var pushed := trail + [p];
    if |pushed| > max && trail != [] {
      assert pushed[1..] == trail[1..] + [p];
    }
  }

  /** Pushing onto the last `n` points of a history gives the last `n` points
      of the extended history: the buffer always holds the most recent points,
      oldest first. */
  lemma PushTrailKeepsLastN<T>(xs: seq<T>, p: T, n: nat)
    ensures PushTrail(LastN(xs, n), p, n) == LastN(xs + [p], n)
  {
    var ys := xs + [p];
    if |ys| <= n {
    } else if |xs| <= n {
      assert LastN(xs, n) == xs;
      if xs != [] {
        assert ys[1..] == xs[1..] + [p];
      }
    } else {
      var tail := xs[|xs| - n..];
      assert LastN(xs, n) == tail;
      assert (tail + [p])[1..] == ys[|ys| - n..];
    }
  }
}
