/**
 * The pending set: tool definitions waiting for a human to approve or reject
 * them, held in memory in a map keyed by tool name.
 */
module Approval {
  import opened Wrappers
  import opened Tools

  /** No name occurs twice. */
  predicate Distinct(s: seq<string>)
  {
    forall i, j :: 0 <= i < j < |s| ==> s[i] != s[j]
  }

  /** `r` is `s` with position `k` cut out, and `s[k]` is `n`. */
  predicate CutAt(s: seq<string>, n: string, k: int, r: seq<string>)
  {
    0 <= k < |s| && s[k] == n && r == s[..k] + s[k + 1..]
  }

  /** `s` with `n` taken out, the rest in their order. */
  function Without(s: seq<string>, n: string): (r: seq<string>)
    ensures forall x :: x in r <==> x in s && x != n
    ensures Distinct(s) ==> Distinct(r)
    ensures n !in s ==> r == s
    ensures Distinct(s) && n in s ==> exists k :: CutAt(s, n, k, r)
  {
    if s == [] then []
    else
      var rest := Without(s[1..], n);
      DistinctTail(s);
      if s[0] == n then
        assert s[..0] + s[1..] == s[1..];
        assert Distinct(s) ==> CutAt(s, n, 0, rest);
        rest
      else
        SpliceAfterHead(s, n, rest);
        [s[0]] + rest
  }

  /** The tail of a duplicate-free sequence is duplicate-free and does not hold the head. */
  lemma DistinctTail(s: seq<string>)
    requires s != []
    ensures Distinct(s) ==> Distinct(s[1..]) && s[0] !in s[1..]
  {
    if Distinct(s) {
      forall i, j | 0 <= i < j < |s| - 1 ensures s[1..][i] != s[1..][j] {
        assert s[1..][i] == s[i + 1] && s[1..][j] == s[j + 1];
      }
    }
  }

  /** Cutting one position out of the tail is cutting the next position out of the whole. */
  lemma SpliceAfterHead(s: seq<string>, n: string, rest: seq<string>)
    requires s != [] && s[0] != n
    requires Distinct(s[1..]) && n in s[1..] ==> exists k :: CutAt(s[1..], n, k, rest)
    ensures Distinct(s[1..]) && n in s ==> exists k :: CutAt(s, n, k, [s[0]] + rest)
  {
    if Distinct(s[1..]) && n in s {
      assert n in s[1..];
      var k :| CutAt(s[1..], n, k, rest);
      assert [s[0]] + rest == s[..k + 1] + s[k + 2..];
      assert CutAt(s, n, k + 1, [s[0]] + rest);
    }
  }

  /** A duplicate-free sequence has as many elements as the set it enumerates. */
  lemma {:induction false} DistinctSize(s: seq<string>, keys: set<string>)
    requires Distinct(s)
    requires forall x :: x in s <==> x in keys
    ensures |s| == |keys|
  {
    if s != [] {
      assert s[0] in keys;
      forall x ensures x in s[1..] <==> x in keys - {s[0]} {
        if x in s[1..] {
          var i :| 1 <= i < |s| && s[i] == x;
          assert s[0] != s[i];
        }
        if x in keys - {s[0]} {
          assert x in s;
          var i :| 0 <= i < |s| && s[i] == x;
          assert i != 0;
          assert s[1..][i - 1] == x;
        }
      }
      DistinctSize(s[1..], keys - {s[0]});
    }
  }

  /** `ApprovalQueue`. `order` is the insertion order a JavaScript `Map` iterates in. */
  class ApprovalQueue {
    var pending: map<string, Tool>
    var order: seq<string>

    /** Each entry sits under its own name; `order` lists the keys once each. */
    ghost predicate Valid()
      reads this
    {
      && Distinct(order)
      && (forall n :: n in order <==> n in pending)
      && (forall n :: n in pending ==> pending[n].name == n)
    }

    constructor ()
      ensures Valid() && pending == map[] && order == []
    {
      pending := map[];
      order := [];
    }

    /** `add`: insert, or silently replace the entry with the same name (which keeps its place). */
    method Add(tool: Tool)
      requires Valid()
      modifies this
      ensures Valid()
      ensures pending == old(pending)[tool.name := tool]
      ensures order == if tool.name in old(pending) then old(order) else old(order) + [tool.name]
      ensures Get(tool.name) == Some(tool)
    {
      if tool.name !in pending {
        order := order + [tool.name];
      }
      pending := pending[tool.name := tool];
    }

    /** `approve`: remove and return the entry, so that it can be consumed once only. */
    method Approve(name: string) returns (tool: Option<Tool>)
      requires Valid()
      modifies this
      ensures Valid()
      ensures tool == old(Get(name))
      ensures pending == old(pending) - {name}
      ensures order == Without(old(order), name)
      ensures Get(name) == None
    {
      tool := Get(name);
      if tool.Some? {
        pending := pending - {name};
        order := Without(order, name);
      }
    }

    /** `reject`: remove the entry and report whether there was one. */
    method Reject(name: string) returns (removed: bool)
      requires Valid()
      modifies this
      ensures Valid()
      ensures removed == (name in old(pending))
      ensures pending == old(pending) - {name}
      ensures order == Without(old(order), name)
    {
      removed := name in pending;
      pending := pending - {name};
      order := Without(order, name);
    }

    /** `listPending`: every staged entry once, in insertion order. */
    function ListPending(): (r: seq<Tool>)
      reads this
      requires Valid()
      ensures |r| == |pending| == |order|
      ensures forall i :: 0 <= i < |r| ==> order[i] in pending && r[i] == pending[order[i]]
      ensures forall t :: t in r <==> t in pending.Values
      ensures forall i, j :: 0 <= i < j < |r| ==> r[i].name != r[j].name
    {
      DistinctSize(order, pending.Keys);
      assert forall i :: 0 <= i < |order| ==> order[i] in order;
      var staged, keys := pending, order;
      var r := seq(|keys|, i requires 0 <= i < |keys| => staged[keys[i]]);
      assert forall t :: t in pending.Values ==> t in r by {
        forall t | t in pending.Values ensures t in r {
          var n :| n in pending && pending[n] == t;
          var i :| 0 <= i < |order| && order[i] == n;
          assert r[i] == t;
        }
      }
      r
    }

    /** `get`: look the name up without removing it. */
    function Get(name: string): (r: Option<Tool>)
      reads this
      ensures r.Some? <==> name in pending
      ensures r.Some? ==> r.value == pending[name]
    {
      if name in pending then Some(pending[name]) else None
    }
  }
}
