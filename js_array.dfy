/** The two JavaScript array builtins that the unread buffer is written with:
    `Array.prototype.reverse` and `Array.prototype.slice` (with its negative indices). */
module JsArray {

  /** `reverse()`: the same items, last first. */
  function Reverse<T>(s: seq<T>): (r: seq<T>)
    ensures |r| == |s|
    ensures forall i :: 0 <= i < |s| ==> r[i] == s[|s| - 1 - i]
  {
    if s == [] then [] else Reverse(s[1..]) + [s[0]]
  }

  /** How `slice` resolves an index against a length: a negative index counts from the
      end, and the result is clamped to `[0, len]`. */
  function RelativeIndex(k: int, len: nat): (r: nat)
    ensures r <= len
  {
    if k < 0 then (if len + k > 0 then len + k else 0)
    else if k < len then k else len
  }

  /** `slice(start, end)`: the items from the resolved start up to the resolved end,
      empty when the end does not lie after the start. */
  function Slice<T>(s: seq<T>, start: int, end: int): (r: seq<T>)
    ensures var a, b := RelativeIndex(start, |s|), RelativeIndex(end, |s|);
      |r| == (if a < b then b - a else 0) && forall i :: 0 <= i < |r| ==> r[i] == s[a + i]
    ensures end >= 0 && start == 0 ==> r == s[..if end < |s| then end else |s|]
    ensures end < 0 && start == 0 ==> r == s[..if |s| + end > 0 then |s| + end else 0]
  {
    var a, b := RelativeIndex(start, |s|), RelativeIndex(end, |s|);
    if a < b then s[a..b] else []
  }

  /** Reversing, keeping the first `n`, and reversing back keeps the LAST `min(n, |s|)`
      items of `s`, in their original order. */
  lemma {:induction false} KeepLast<T>(s: seq<T>, n: nat)
    ensures var k := if n < |s| then n else |s|;
      Reverse(Slice(Reverse(s), 0, n)) == s[|s| - k..]
  {
    var k := if n < |s| then n else |s|;
    var rs := Reverse(s);
    var head := Slice(rs, 0, n);
    assert head == rs[..k];
    var r := Reverse(head);
    forall i | 0 <= i < k ensures r[i] == s[|s| - k + i] {
      assert r[i] == head[k - 1 - i] == rs[k - 1 - i];
    }
  }

  /** `slice(0, -n)` of an array of at most `n` items is empty. */
  lemma DropLastAll<T>(s: seq<T>, n: nat)
    requires |s| <= n
    ensures Slice(s, 0, -(n as int)) == []
  {
  }

}
