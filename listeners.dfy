/** The layout's listener lists. A listener is a callback the host application
    registers; the model identifies it by an id and records each call it receives
    instead of running it. */
module Listeners {

  type ListenerId = nat

  /** One call of a progress listener with the pull fraction it was given. */
  datatype ProgressCall<F> = ProgressCall(listener: ListenerId, fraction: F)

  /** The calls `forEach { it(fraction) }` makes, in list order. */
  function ProgressCalls<F>(listeners: seq<ListenerId>, fraction: F): (calls: seq<ProgressCall<F>>)
    ensures |calls| == |listeners|
    ensures forall k :: 0 <= k < |listeners| ==> calls[k] == ProgressCall(listeners[k], fraction)
  {
    seq(|listeners|, k requires 0 <= k < |listeners| => ProgressCall(listeners[k], fraction))
  }

  /** The position of the first occurrence of `x` in `s`. */
  function IndexOf(s: seq<ListenerId>, x: ListenerId): (k: nat)
    requires x in s
    ensures k < |s| && s[k] == x && x !in s[..k]
  {
    if s[0] == x then 0
    else
      assert x in s[1..];
      var k := 1 + IndexOf(s[1..], x);
      assert s[..k] == [s[0]] + s[1..][..k - 1];
      k
  }

  /** `MutableList.remove(x)`: drops the first occurrence of `x`, if there is one. */
  function RemoveFirst(s: seq<ListenerId>, x: ListenerId): (r: seq<ListenerId>)
    ensures x !in s ==> r == s
    ensures x in s ==> r == s[..IndexOf(s, x)] + s[IndexOf(s, x) + 1..]
  {
    if s == [] then []
    else if s[0] == x then s[1..]
    else
      var rest := RemoveFirst(s[1..], x);
      assert s == [s[0]] + s[1..];
      if x in s then
        var k := IndexOf(s[1..], x);
        assert IndexOf(s, x) == k + 1;
        assert s[..k + 1] == [s[0]] + s[1..][..k];
        assert s[k + 2..] == s[1..][k + 1..];
        [s[0]] + rest
      else
        [s[0]] + rest
  }

  /** Removing a registered listener unregisters exactly one registration of it. */
  lemma RemoveFirstDropsOne(s: seq<ListenerId>, x: ListenerId)
    requires x in s
    ensures |RemoveFirst(s, x)| == |s| - 1
    ensures multiset(RemoveFirst(s, x)) == multiset(s) - multiset{x}
  {
    var k := IndexOf(s, x);
    assert s == s[..k] + [x] + s[k + 1..];
    assert multiset(s) == multiset(s[..k]) + multiset{x} + multiset(s[k + 1..]);
  }
}
