/** Sequences of messages: their sizes, their order, and what became of them. */
module MessageFlow {
  import opened RecorderTypes

  // ---------- Sizes ----------

  function Bytes(items: seq<QueuedMessage>): nat
    decreases |items|
  {
    if items == [] then 0 else Bytes(items[..|items| - 1]) + items[|items| - 1].data.length
  }

  lemma {:induction false} BytesConcat(a: seq<QueuedMessage>, b: seq<QueuedMessage>)
    ensures Bytes(a + b) == Bytes(a) + Bytes(b)
    decreases |b|
  {
    if b == [] {
      assert a + b == a;
    } else {
      BytesConcat(a, b[..|b| - 1]);
      assert (a + b)[..|a + b| - 1] == a + b[..|b| - 1];
    }
  }

  lemma BytesSplit(items: seq<QueuedMessage>, n: nat)
    requires n <= |items|
    ensures Bytes(items) == Bytes(items[..n]) + Bytes(items[n..])
  {
    BytesConcat(items[..n], items[n..]);
    assert items == items[..n] + items[n..];
  }

  lemma BytesOfFirst(items: seq<QueuedMessage>)
    requires items != []
    ensures Bytes(items) == items[0].data.length + Bytes(items[1..]) && Bytes([items[0]]) == items[0].data.length
  {
    BytesSplit(items, 1);
    assert items[..1] == [items[0]] && items[..1][..0] == [];
  }

  // ---------- Order ----------

  /** In arrival order, and no message twice. */
  predicate Increasing(items: seq<QueuedMessage>) {
    forall i, j :: 0 <= i < j < |items| ==> items[i].data.id < items[j].data.id
  }

  predicate Below(items: seq<QueuedMessage>, bound: nat) {
    forall i :: 0 <= i < |items| ==> items[i].data.id < bound
  }

  /** `a` can be got from `b` by leaving messages out. */
  predicate IsSubsequence(a: seq<QueuedMessage>, b: seq<QueuedMessage>)
    decreases |b|
  {
    if a == [] then true
    else if b == [] then false
    else if a[|a| - 1] == b[|b| - 1] then IsSubsequence(a[..|a| - 1], b[..|b| - 1])
    else IsSubsequence(a, b[..|b| - 1])
  }

  lemma {:induction false} IncreasingSubset(a: seq<QueuedMessage>, b: seq<QueuedMessage>)
    requires Increasing(a) && Increasing(b)
    requires forall m :: m in a ==> m in b
    ensures IsSubsequence(a, b)
    decreases |b|
  {
    if a != [] {
      var last := a[|a| - 1];
      assert last in b;
      var front, tail := b[..|b| - 1], b[|b| - 1];
      if last == tail {
        var shorter := a[..|a| - 1];
        forall m | m in shorter ensures m in front {
          assert m in a && m != tail;
        }
        IncreasingSubset(shorter, front);
      } else {
        forall m | m in a ensures m in front {
          var i :| 0 <= i < |a| && a[i] == m;
          var k :| 0 <= k < |b| && b[k] == last;
          var j :| 0 <= j < |b| && b[j] == m;
          assert k < |b| - 1;
          assert i == |a| - 1 || a[i].data.id < last.data.id;
          assert j <= k;
        }
        IncreasingSubset(a, front);
      }
    }
  }

  lemma {:induction false} IncreasingSameSet(a: seq<QueuedMessage>, b: seq<QueuedMessage>)
    requires Increasing(a) && Increasing(b)
    requires forall m :: m in a <==> m in b
    ensures a == b
    decreases |b|
  {
    assert b != [] ==> b[|b| - 1] in a;
    if a != [] {
      assert a[|a| - 1] in b;
      var k :| 0 <= k < |b| && b[k] == a[|a| - 1];
      assert b[|b| - 1] in a;
      var l :| 0 <= l < |a| && a[l] == b[|b| - 1];
      assert k == |b| - 1;
      var front, tail := b[..|b| - 1], a[..|a| - 1];
      forall m ensures m in tail <==> m in front {
        if m in tail { assert m in a; }
        if m in front { assert m in b; }
      }
      IncreasingSameSet(tail, front);
      assert a == tail + [a[|a| - 1]] && b == front + [b[|b| - 1]];
    }
  }

  // ---------- What became of the messages the writer thread took ----------

  function Msgs(handled: seq<Handled>): seq<QueuedMessage> {
    seq(|handled|, i requires 0 <= i < |handled| => handled[i].msg)
  }

  lemma MsgsConcat(a: seq<Handled>, b: seq<Handled>)
    ensures Msgs(a + b) == Msgs(a) + Msgs(b)
  {
  }

  predicate WrittenTo(x: Handled, bag: nat) {
    x.fate.Written? && x.fate.bag == bag
  }

  /** The messages written to a bag, in the order they were written. */
  function LiveMessages(handled: seq<Handled>, bag: nat): seq<QueuedMessage>
    decreases |handled|
  {
    if handled == [] then []
    else
      var last := handled[|handled| - 1];
      LiveMessages(handled[..|handled| - 1], bag) + (if WrittenTo(last, bag) then [last.msg] else [])
  }

  /** The entries those writes left in the bag. */
  function LiveEntries(handled: seq<Handled>, bag: nat): seq<Entry>
    decreases |handled|
  {
    if handled == [] then []
    else
      var last := handled[|handled| - 1];
      LiveEntries(handled[..|handled| - 1], bag)
      + (if WrittenTo(last, bag) then [Entry(last.fate.name, last.msg.stamp, last.msg.data)] else [])
  }

  lemma LiveStep(handled: seq<Handled>, x: Handled, bag: nat)
    ensures LiveEntries(handled + [x], bag) ==
      LiveEntries(handled, bag) + (if WrittenTo(x, bag) then [Entry(x.fate.name, x.msg.stamp, x.msg.data)] else [])
  {
    assert (handled + [x])[..|handled + [x]| - 1] == handled;
  }

  lemma {:induction false} LiveNone(handled: seq<Handled>, more: seq<Handled>, bag: nat)
    requires forall i :: 0 <= i < |more| ==> !WrittenTo(more[i], bag)
    ensures LiveEntries(handled + more, bag) == LiveEntries(handled, bag)
    decreases |more|
  {
    if more == [] {
      assert handled + more == handled;
    } else {
      var front := more[..|more| - 1];
      LiveNone(handled, front, bag);
      assert (handled + more)[..|handled + more| - 1] == handled + front;
    }
  }

  lemma {:induction false} LiveContains(handled: seq<Handled>, bag: nat, i: nat)
    requires i < |handled| && WrittenTo(handled[i], bag)
    ensures handled[i].msg in LiveMessages(handled, bag)
    decreases |handled|
  {
    if i < |handled| - 1 {
      LiveContains(handled[..|handled| - 1], bag, i);
    }
  }

  lemma {:induction false} LiveComesFrom(handled: seq<Handled>, bag: nat, m: QueuedMessage) returns (i: nat)
    requires m in LiveMessages(handled, bag)
    ensures i < |handled| && handled[i].msg == m && WrittenTo(handled[i], bag)
    decreases |handled|
  {
    i := |handled| - 1;
    if !(handled[i].msg == m && WrittenTo(handled[i], bag)) {
      i := LiveComesFrom(handled[..|handled| - 1], bag, m);
    }
  }

  lemma {:induction false} LiveIncreasing(handled: seq<Handled>, bag: nat)
    requires Increasing(Msgs(handled))
    ensures Increasing(LiveMessages(handled, bag))
    decreases |handled|
  {
    if handled != [] {
      var front, last := handled[..|handled| - 1], handled[|handled| - 1];
      assert Msgs(front) == Msgs(handled)[..|front|];
      LiveIncreasing(front, bag);
      var live := LiveMessages(front, bag);
      forall k | 0 <= k < |live| ensures live[k].data.id < last.msg.data.id {
        var i := LiveComesFrom(front, bag, live[k]);
        assert Msgs(handled)[i] == live[k] && Msgs(handled)[|front|] == last.msg;
      }
    }
  }

  // ---------- Episodes ----------

  function OfEpisode(items: seq<QueuedMessage>, episode: nat): seq<QueuedMessage>
    decreases |items|
  {
    if items == [] then []
    else
      OfEpisode(items[..|items| - 1], episode)
      + (if items[|items| - 1].episode == episode then [items[|items| - 1]] else [])
  }

  lemma {:induction false} OfEpisodeMembers(items: seq<QueuedMessage>, episode: nat)
    ensures forall m :: m in OfEpisode(items, episode) <==> m in items && m.episode == episode
    ensures Increasing(items) ==> Increasing(OfEpisode(items, episode))
    ensures |OfEpisode(items, episode)| <= |items|
    decreases |items|
  {
    if items != [] {
      var front, last := items[..|items| - 1], items[|items| - 1];
      OfEpisodeMembers(front, episode);
      assert items == front + [last];
      if Increasing(items) {
        var kept := OfEpisode(front, episode);
        forall k | 0 <= k < |kept| ensures kept[k].data.id < last.data.id {
          assert kept[k] in front;
        }
      }
    }
  }

  lemma OfEpisodeStep(items: seq<QueuedMessage>, m: QueuedMessage, episode: nat)
    ensures OfEpisode(items + [m], episode) ==
      OfEpisode(items, episode) + (if m.episode == episode then [m] else [])
  {
    assert (items + [m])[..|items + [m]| - 1] == items;
  }
}
