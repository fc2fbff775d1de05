/** The test network: which servers can reach which, and how a partition cuts it. */
module Partitions {

  ghost predicate Members(p: seq<nat>, n: nat) {
    forall k {:trigger p[k]} :: 0 <= k < |p| ==> p[k] < n
  }

  // On the side q, and not listed on p as well.
  predicate Beyond(a: nat, p: seq<nat>, q: seq<nat>) {
    a in q && a !in p
  }

  ghost predicate Apart(p: seq<nat>, q: seq<nat>) {
    forall a {:trigger a in p} {:trigger a in q} :: a in p ==> a !in q
  }

  // ------------------------------------------------------------------- the split

  // The servers other than l, in order.
  function Other(l: nat, k: nat): nat {
    if k < l then k else k + 1
  }

  function Side1(n: nat, l: nat): seq<nat> {
    seq(n / 2 + 1, k requires 0 <= k => if k < n - 1 then Other(l, k) else 0)
  }

  function Side2(n: nat, l: nat): seq<nat> {
    seq(n / 2, k requires 0 <= k => Leftover(n, l, k))
  }

  function Leftover(n: nat, l: nat, k: nat): nat {
    if k == n / 2 - 1 then l else if n / 2 + 1 + k < n - 1 then Other(l, n / 2 + 1 + k) else 0
  }

  // Both sides together are all the servers, none is on both, and l is on the second.
  ghost predicate Exact(n: nat, l: nat, p1: seq<nat>, p2: seq<nat>) {
    && Members(p1, n) && Members(p2, n) && Apart(p1, p2) && l in p2
    && forall a: nat {:trigger a in p1} {:trigger a in p2} :: a < n ==> a in p1 || a in p2
  }

  // The split is exact for an odd number of servers. For an even number the second
  // side has a place left over, which holds server 0.
  ghost predicate SplitsWell(n: nat, l: nat) {
    n % 2 == 1 || (n == 2 && l == 1) || (n > 2 && l == 0)
  }

  /** MakePartition splits the servers with l on the smaller side exactly if their
      number is odd, or server 0 happens to be the one to put there. */
  lemma SplitIsExact(n: nat, l: nat)
    requires 2 <= n && l < n
    ensures Exact(n, l, Side1(n, l), Side2(n, l)) <==> SplitsWell(n, l)
  {
    var p1, p2 := Side1(n, l), Side2(n, l);
    assert p2[n / 2 - 1] == l;
    EveryoneOnASide(n, l);
    if SplitsWell(n, l) {
      forall a | a in p1
        ensures a !in p2
      {
        var j: nat :| j < |p1| && p1[j] == a;
      }
    } else if n == 2 {
      assert p1[1] == 0 && p2[0] == 0;
      assert 0 in p1 && 0 in p2;
    } else {
      assert p1[0] == 0 && p2[n / 2 - 2] == 0;
      assert 0 in p1 && 0 in p2;
    }
  }

  // Every server is on one side or the other, if not on both.
  lemma EveryoneOnASide(n: nat, l: nat)
    requires 2 <= n && l < n
    ensures l in Side2(n, l) && Members(Side1(n, l), n) && Members(Side2(n, l), n)
    ensures forall a: nat {:trigger a in Side1(n, l)} {:trigger a in Side2(n, l)} :: a < n ==> a in Side1(n, l) || a in Side2(n, l)
  {
    var p1, p2 := Side1(n, l), Side2(n, l);
    assert p2[n / 2 - 1] == l;
    forall a: nat | a < n
      ensures a in p1 || a in p2
    {
      if a != l {
        var k := if a < l then a else a - 1;
        assert Other(l, k) == a;
        if k < |p1| {
          assert p1[k] == a;
        } else {
          assert p2[k - |p1|] == a;
        }
      }
    }
  }

  /** With an odd number of servers l is on the smaller side, and nobody is listed twice. */
  lemma OddSplit(n: nat, l: nat)
    requires 3 <= n && n % 2 == 1 && l < n
    ensures |Side2(n, l)| == n / 2 && |Side1(n, l)| == n / 2 + 1
    ensures forall j, k :: 0 <= j < k < n / 2 + 1 ==> Side1(n, l)[j] != Side1(n, l)[k]
    ensures forall j, k :: 0 <= j < k < n / 2 ==> Side2(n, l)[j] != Side2(n, l)[k]
  {
  }

  /** Apart from l the servers are listed in order, the first side first; a place that is left
      over holds server 0. */
  lemma ListedInOrder(n: nat, l: nat)
    requires 3 <= n && l < n
    ensures |Side1(n, l)| == n / 2 + 1 && |Side2(n, l)| == n / 2 && Side2(n, l)[n / 2 - 1] == l
    ensures forall j, k :: 0 <= j < k < n / 2 + 1 ==> Side1(n, l)[j] < Side1(n, l)[k]
    ensures forall j, k :: 0 <= j < n / 2 + 1 && 0 <= k < n - n / 2 - 2 ==> Side1(n, l)[j] < Side2(n, l)[k]
    ensures forall j, k :: 0 <= j < k < n - n / 2 - 2 ==> Side2(n, l)[j] < Side2(n, l)[k]
    ensures forall k :: n - n / 2 - 2 <= k < n / 2 - 1 ==> Side2(n, l)[k] == 0
    ensures forall k :: 0 <= k < n / 2 + 1 ==> Side1(n, l)[k] != l
    ensures forall k :: 0 <= k < n - n / 2 - 2 ==> Side2(n, l)[k] != l
  {
  }

  // -------------------------------------------------------------------- the network

  // links[a, b]: server a's end point to server b is enabled.
  class ServerGrp {
    const n: nat
    const connected: array<bool>
    const links: array2<bool>

    ghost predicate Valid() {
      connected.Length == n && links.Length0 == n && links.Length1 == n
    }

    constructor (n: nat)
      ensures this.n == n && Valid() && fresh(connected) && fresh(links)
      ensures forall a :: 0 <= a < n ==> !connected[a]
      ensures forall a, b :: 0 <= a < n && 0 <= b < n ==> !links[a, b]
    {
      this.n := n;
      connected := new bool[n](_ => false);
      links := new bool[n, n]((_, _) => false);
    }

    // The end points of server i to those of the servers listed that are connected.
    method ConnectOutgoing(i: nat, to: seq<nat>)
      requires Valid() && i < n && Members(to, n)
      modifies links
      ensures forall a, b :: 0 <= a < n && 0 <= b < n ==>
                links[a, b] == (old(links[a, b]) || (a == i && b in to && connected[b]))
    {
      for j := 0 to |to|
        invariant forall a, b :: 0 <= a < n && 0 <= b < n ==>
                    links[a, b] == (old(links[a, b]) || (a == i && b in to[..j] && connected[b]))
      {
        if connected[to[j]] {
          links[i, to[j]] := true;
        }
      }
    }

    method Connect(i: nat, to: seq<nat>)
      requires Valid() && i < n && Members(to, n)
      modifies connected, links
      ensures forall a :: 0 <= a < n ==> connected[a] == (old(connected[a]) || a == i)
      ensures forall a, b :: 0 <= a < n && 0 <= b < n ==>
                links[a, b] == (old(links[a, b]) || (a == i && b in to && connected[b]) || (b == i && a in to && connected[a]))
    {
      connected[i] := true;
      ConnectOutgoing(i, to);
      label outgoing:
      for j := 0 to |to|
        invariant forall a :: 0 <= a < n ==> connected[a] == old@outgoing(connected[a])
        invariant forall a, b :: 0 <= a < n && 0 <= b < n ==>
                    links[a, b] == (old@outgoing(links[a, b]) || (b == i && a in to[..j] && connected[a]))
      {
        if connected[to[j]] {
          links[to[j], i] := true;
        }
      }
    }

    method DisconnectOutgoing(i: nat, from: seq<nat>)
      requires Valid() && i < n && Members(from, n)
      modifies links
      ensures forall a, b :: 0 <= a < n && 0 <= b < n ==>
                links[a, b] == (old(links[a, b]) && !(a == i && b in from))
    {
      for j := 0 to |from|
        invariant forall a, b :: 0 <= a < n && 0 <= b < n ==>
                    links[a, b] == (old(links[a, b]) && !(a == i && b in from[..j]))
      {
        links[i, from[j]] := false;
      }
    }

    method Disconnect(i: nat, from: seq<nat>)
      requires Valid() && i < n && Members(from, n)
      modifies connected, links
      ensures forall a :: 0 <= a < n ==> connected[a] == (old(connected[a]) && a != i)
      ensures forall a, b :: 0 <= a < n && 0 <= b < n ==>
                links[a, b] == (old(links[a, b]) && !(a == i && b in from) && !(b == i && a in from))
    {
      connected[i] := false;
      DisconnectOutgoing(i, from);
      label outgoing:
      for j := 0 to |from|
        invariant forall a :: 0 <= a < n ==> connected[a] == old@outgoing(connected[a])
        invariant forall a, b :: 0 <= a < n && 0 <= b < n ==>
                    links[a, b] == (old@outgoing(links[a, b]) && !(b == i && a in from[..j]))
      {
        links[from[j], i] := false;
      }
    }

    method MakePartition(l: nat) returns (p1: array<nat>, p2: array<nat>)
      requires Valid() && 2 <= n && l < n
      ensures p1[..] == Side1(n, l) && p2[..] == Side2(n, l)
    {
      p1 := new nat[n / 2 + 1](_ => 0);
      p2 := new nat[n / 2](_ => 0);
      var j := 0;
      for i := 0 to n
        invariant j == if i <= l then i else i - 1
        invariant forall k :: 0 <= k < p1.Length ==> p1[k] == if k < j then Other(l, k) else 0
        invariant forall k :: 0 <= k < p2.Length ==> p2[k] == if p1.Length + k < j then Other(l, p1.Length + k) else 0
      {
        if i != l {
          if j < p1.Length {
            p1[j] := i;
          } else {
            p2[j - p1.Length] := i;
          }
          j := j + 1;
        }
      }
      p2[p2.Length - 1] := l;
    }

    // One side: every server on it is cut from the other side, then linked to its own.
    method Isolate(p: seq<nat>, q: seq<nat>)
      requires Valid() && Members(p, n) && Members(q, n)
      modifies connected, links
      ensures forall a :: 0 <= a < n ==> connected[a] == (old(connected[a]) || a in p)
      ensures forall a, b :: 0 <= a < n && 0 <= b < n ==>
                && (a in p && b in p ==> links[a, b])
                && ((a in p && Beyond(b, p, q)) || (Beyond(a, p, q) && b in p) ==> !links[a, b])
                && (!(a in p && b in p + q) && !(b in p && a in p + q) ==> links[a, b] == old(links[a, b]))
    {
      for i := 0 to |p|
        invariant forall a :: 0 <= a < n ==> connected[a] == (old(connected[a]) || a in p[..i])
        invariant forall a, b :: 0 <= a < n && 0 <= b < n ==>
                    && (a in p[..i] && b in p[..i] ==> links[a, b])
                    && ((a in p[..i] && Beyond(b, p, q)) || (Beyond(a, p, q) && b in p[..i]) ==> !links[a, b])
                    && (!(a in p && b in p + q) && !(b in p && a in p + q) ==> links[a, b] == old(links[a, b]))
      {
        Disconnect(p[i], q);
        Connect(p[i], p);
        assert p[..i + 1] == p[..i] + [p[i]];
      }
      assert p[..|p|] == p;
    }

    /** After a partition, whatever the links and flags were before: all links within
        the second side are up, and all within the rest of the first side; all between
        those two are down; and nothing else changed. */
    method Partition(p1: seq<nat>, p2: seq<nat>)
      requires Valid() && Members(p1, n) && Members(p2, n)
      modifies connected, links
      ensures forall a :: 0 <= a < n ==> connected[a] == (old(connected[a]) || a in p1 || a in p2)
      ensures forall a, b :: 0 <= a < n && 0 <= b < n ==>
                && ((a in p2 && b in p2) || (Beyond(a, p2, p1) && Beyond(b, p2, p1)) ==> links[a, b])
                && ((a in p2 && Beyond(b, p2, p1)) || (Beyond(a, p2, p1) && b in p2) ==> !links[a, b])
                && (a !in p1 + p2 || b !in p1 + p2 ==> links[a, b] == old(links[a, b]))
    {
      Isolate(p1, p2);
      Isolate(p2, p1);
    }

    /** Cutting the leader off: for any number of servers from two, any leader and
        whatever state the network was in, a link is up afterwards exactly if both or
        neither of its ends are on the leader's side, which lists at most half of them. */
    method PartitionAway(l: nat) returns (p1: seq<nat>, p2: seq<nat>)
      requires Valid() && 2 <= n && l < n
      modifies connected, links
      ensures l in p2 && |p2| == n / 2 && (Exact(n, l, p1, p2) <==> SplitsWell(n, l))
      ensures forall a, b :: 0 <= a < n && 0 <= b < n ==> (links[a, b] <==> (a in p2 <==> b in p2))
    {
      var a1, a2 := MakePartition(l);
      SplitIsExact(n, l);
      EveryoneOnASide(n, l);
      p1, p2 := a1[..], a2[..];
      Partition(p1, p2);
    }
  }
}
