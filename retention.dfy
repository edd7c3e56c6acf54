/** The end-of-frame sweep: `Vec::retain(|r| !r.destroy)` on the enemy and projectile
    collections. */
module Retention {
  import opened Entities

  /** No rectangle of `s` is marked for removal. */
  predicate Settled(s: seq<Rectangle>) {
    forall k :: 0 <= k < |s| ==> !s[k].destroy
  }

  /** The rectangles of `s` not marked `destroy`, in their original order. */
  function Live(s: seq<Rectangle>): (r: seq<Rectangle>)
    ensures Settled(r)
    ensures |r| <= |s|
  {
    if |s| == 0 then []
    else
      var last := s[|s| - 1];
      Live(s[..|s| - 1]) + (if last.destroy then [] else [last])
  }

  /** Sweeping keeps exactly the unmarked rectangles, each as often as it occurs. */
  lemma {:induction false} LiveMultiset(s: seq<Rectangle>, x: Rectangle)
    ensures multiset(Live(s))[x] == if x.destroy then 0 else multiset(s)[x]
  {
    if |s| > 0 {
      var init, last := s[..|s| - 1], s[|s| - 1];
      assert s == init + [last];
      LiveMultiset(init, x);
    }
  }

  /** Sweeping keeps every unmarked rectangle and no marked one. */
  lemma LiveMembers(s: seq<Rectangle>, x: Rectangle)
    ensures x in Live(s) <==> x in s && !x.destroy
  {
    LiveMultiset(s, x);
  }

  /** `idx` is a strictly increasing choice of positions of `s`, covering every unmarked
      position, that lists `Live(s)`. */
  ghost predicate ListsLive(s: seq<Rectangle>, idx: seq<int>) {
    && |idx| == |Live(s)|
    && (forall k :: 0 <= k < |idx| ==> 0 <= idx[k] < |s| && Live(s)[k] == s[idx[k]])
    && (forall k, l :: 0 <= k < l < |idx| ==> idx[k] < idx[l])
    && (forall i :: 0 <= i < |s| && !s[i].destroy ==> i in idx)
  }

  /** A marked last rectangle adds nothing to the choice. */
  lemma ListsLiveDrop(s: seq<Rectangle>, pre: seq<int>)
    requires |s| > 0 && s[|s| - 1].destroy && ListsLive(s[..|s| - 1], pre)
    ensures ListsLive(s, pre)
  {
    var init := s[..|s| - 1];
    assert forall i :: 0 <= i < |init| ==> init[i] == s[i];
    assert Live(s) == Live(init);
  }

  /** An unmarked last rectangle adds its own position to the choice. */
  lemma ListsLiveKeep(s: seq<Rectangle>, pre: seq<int>)
    requires |s| > 0 && !s[|s| - 1].destroy && ListsLive(s[..|s| - 1], pre)
    ensures ListsLive(s, pre + [|s| - 1])
  {
    var n := |s| - 1;
    var init := s[..n];
    var live := Live(init);
    var idx := pre + [n];
    assert Live(s) == live + [s[n]];
    forall k | 0 <= k < |idx|
      ensures 0 <= idx[k] < |s| && Live(s)[k] == s[idx[k]]
    {
      if k < |pre| {
        assert idx[k] == pre[k] && Live(s)[k] == live[k] && init[pre[k]] == s[pre[k]];
      }
    }
    forall i | 0 <= i < |s| && !s[i].destroy
      ensures i in idx
    {
      if i < n {
        assert init[i] == s[i];
        assert i in pre;
      }
    }
  }

  /** Sweeping keeps the survivors in their original relative order. */
  lemma {:induction false} LiveKeepsOrder(s: seq<Rectangle>) returns (idx: seq<int>)
    ensures ListsLive(s, idx)
  {
    if |s| == 0 {
      idx := [];
    } else {
      var pre := LiveKeepsOrder(s[..|s| - 1]);
      if s[|s| - 1].destroy {
        ListsLiveDrop(s, pre);
        idx := pre;
      } else {
        ListsLiveKeep(s, pre);
        idx := pre + [|s| - 1];
      }
    }
  }

  /** Sweeping a collection with nothing marked leaves it unchanged. */
  lemma {:induction false} LiveOfSettled(s: seq<Rectangle>)
    requires Settled(s)
    ensures Live(s) == s
  {
    if |s| > 0 {
      var init := s[..|s| - 1];
      assert Settled(init) by {
        forall k | 0 <= k < |init| ensures !init[k].destroy {
          assert init[k] == s[k];
        }
      }
      LiveOfSettled(init);
      assert s == init + [s[|s| - 1]];
    }
  }

  /** Sweeping twice is sweeping once. */
  lemma LiveIdempotent(s: seq<Rectangle>)
    ensures Live(Live(s)) == Live(s)
  {
    LiveOfSettled(Live(s));
  }

  /** `retain`: a single pass over `s` that keeps the unmarked rectangles. */
  method Retain(s: seq<Rectangle>) returns (kept: seq<Rectangle>)
    ensures kept == Live(s)
  {
    kept := [];
    var i := 0;
    while i < |s|
      invariant 0 <= i <= |s|
      invariant kept == Live(s[..i])
    {
      assert s[..i + 1][..i] == s[..i];
      if !s[i].destroy {
        kept := kept + [s[i]];
      }
      i := i + 1;
    }
    assert s[..|s|] == s;
  }
}
