/** The per-deck "up next" queues: an ordered list of file paths for the
    left deck and one for the right deck, both held by the shared playlist
    object and consumed from the front by the decks' next buttons. The
    entries are std::strings (StdString). */
module UpNext {
  import opened Wrappers
  import opened PathName

  /** Taking the front entry of a queue: an empty queue yields nothing and
      stays empty; otherwise the front comes out and the rest keeps its
      order. */
  function PopFront(q: seq<StdString>): (r: (Option<StdString>, seq<StdString>))
    ensures q == [] ==> r.0 == None && r.1 == q
    ensures q != [] ==> r.0 == Some(q[0]) && [q[0]] + r.1 == q
    ensures |r.1| == if q == [] then 0 else |q| - 1
  {
    if q == [] then (None, q) else (Some(q[0]), q[1..])
  }

  /** The entries handed out by `n` successive pops, in order, and what is
      left of the queue afterwards. */
  function PopMany(q: seq<StdString>, n: nat): (r: (seq<StdString>, seq<StdString>))
    decreases n
  {
    if n == 0 then ([], q)
    else
      match PopFront(q)
      case (None, rest) => ([], rest)
      case (Some(front), rest) =>
        var (taken, left) := PopMany(rest, n - 1);
        ([front] + taken, left)
  }

  /** Successive pops hand out the queue in order, each entry exactly once:
      what was taken followed by what is left is the original queue. */
  lemma {:induction false} PopManyKeepsOrder(q: seq<StdString>, n: nat)
    ensures PopMany(q, n).0 + PopMany(q, n).1 == q
    ensures |PopMany(q, n).0| == if n < |q| then n else |q|
    decreases n
  {
    if n > 0 && q != [] {
      PopManyKeepsOrder(q[1..], n - 1);
      assert [q[0]] + q[1..] == q;
    }
  }

  /** Popping a queue of N entries N times empties it, and a further pop
      yields nothing. */
  lemma PopAllThenNothing(q: seq<StdString>)
    ensures PopMany(q, |q|) == (q, [])
    ensures PopFront(PopMany(q, |q|).1).0 == None
  {
    PopManyKeepsOrder(q, |q|);
  }

  /** The playlist object both decks share; only its two queues are
      modelled. */
  class PlaylistComponent {
    var playListL: seq<StdString>
    var playListR: seq<StdString>

    /** The queues start as whatever the library has sent to each deck. */
    constructor (left: seq<StdString>, right: seq<StdString>)
      ensures playListL == left && playListR == right
    {
      playListL := left;
      playListR := right;
    }
  }
}
