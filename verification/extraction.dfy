/** The collection rule shared by the three repeating profile fields
    (experience, education, skills): the matched nodes are sliced to the
    field's limit, each node's text is read and stripped, a node whose read
    raises is skipped, and a stripped text is kept only when it passes the
    field's strict length test. */
module Extraction {
  import opened Wrappers
  import opened Text

  /** One repeating field's rule: how many matched nodes are looked at, and
      the length a stripped text must exceed to be kept. */
  datatype Rule = Rule(limit: nat, minLength: nat)

  /** `exp_items[:5]`, `len(text) > 10`. */
  const ExperienceRule := Rule(5, 10)
  /** `edu_items[:3]`, `len(text) > 5`. */
  const EducationRule := Rule(3, 5)
  /** `skill_items[:10]`, no length test beyond non-emptiness. */
  const SkillsRule := Rule(10, 0)

  /** The outcome of `query_selector_all` for one repeating field: the query
      itself raised, or it matched these nodes in document order, each read
      as `Some(inner_text)` or as `None` when `inner_text()` raised. */
  datatype ListQuery = QueryFails | Matched(nodes: seq<Option<string>>)

  /** `if text and len(text) > minLength`. */
  predicate Accepts(rule: Rule, text: string) {
    text != [] && |text| > rule.minLength
  }

  /** An entry the rule may produce: stripped and long enough. */
  predicate Entry(rule: Rule, text: string) {
    Accepts(rule, text) && IsStripped(text)
  }

  /** What one node contributes to the field: nothing when its read raised
      or its stripped text is too short, otherwise that stripped text. */
  function NodeEntry(rule: Rule, node: Option<string>): (r: seq<string>)
    ensures |r| <= 1
    ensures node.None? ==> r == []
    ensures r != [] ==> node.Some? && r == [Strip(node.value)] && Entry(rule, r[0])
  {
    match node
    case None => []
    case Some(raw) =>
      var text := Strip(raw);
      if Accepts(rule, text) then [text] else []
  }

  /** The `for` loop of the field over already-sliced nodes. */
  function Keep(rule: Rule, nodes: seq<Option<string>>): (r: seq<string>)
    ensures |r| <= |nodes|
    ensures forall k | 0 <= k < |r| :: Entry(rule, r[k])
  {
    if nodes == [] then [] else NodeEntry(rule, nodes[0]) + Keep(rule, nodes[1..])
  }

  /** Python's `nodes[:limit]`. */
  function Window(rule: Rule, nodes: seq<Option<string>>): (w: seq<Option<string>>)
    ensures |w| <= rule.limit && w <= nodes
    ensures |nodes| >= rule.limit ==> |w| == rule.limit
    ensures |nodes| < rule.limit ==> w == nodes
  {
    if |nodes| <= rule.limit then nodes else nodes[..rule.limit]
  }

  /** The field's entries for the matched nodes: slice first, then filter. */
  function Collect(rule: Rule, nodes: seq<Option<string>>): (r: seq<string>)
    ensures |r| <= rule.limit
    ensures forall k | 0 <= k < |r| :: Entry(rule, r[k])
  {
    Keep(rule, Window(rule, nodes))
  }

  /** The whole field block: a raising query leaves the field at `[]`. */
  function Gather(rule: Rule, query: ListQuery): (r: seq<string>)
    ensures |r| <= rule.limit
    ensures forall k | 0 <= k < |r| :: Entry(rule, r[k])
    ensures query.QueryFails? ==> r == []
    ensures query.Matched? ==> r == Collect(rule, query.nodes)
  {
    match query
    case QueryFails => []
    case Matched(nodes) => Collect(rule, nodes)
  }

  /** The loop keeps document order: the entries of a concatenation are the
      entries of its parts, in order. */
  lemma {:induction false} KeepAppend(rule: Rule, a: seq<Option<string>>, b: seq<Option<string>>)
    ensures Keep(rule, a + b) == Keep(rule, a) + Keep(rule, b)
  {
    if a == [] {
      assert a + b == b;
    } else {
      assert (a + b)[1..] == a[1..] + b;
      KeepAppend(rule, a[1..], b);
    }
  }

  /** Node `node` yields entry `e` under the rule. */
  predicate Yields(rule: Rule, node: Option<string>, e: string) {
    node.Some? && Strip(node.value) == e && Accepts(rule, e)
  }

  /** A text is an entry exactly when some node in the list read successfully
      and its stripped text is that text and passes the length test. */
  lemma {:induction false} KeepMember(rule: Rule, nodes: seq<Option<string>>, e: string)
    ensures e in Keep(rule, nodes) <==> exists i | 0 <= i < |nodes| :: Yields(rule, nodes[i], e)
  {
    if nodes != [] {
      var rest := nodes[1..];
      KeepMember(rule, rest, e);
      if e in Keep(rule, nodes) {
        if e in NodeEntry(rule, nodes[0]) {
          assert Yields(rule, nodes[0], e);
        } else {
          assert e in Keep(rule, rest);
          var i :| 0 <= i < |rest| && Yields(rule, rest[i], e);
          assert Yields(rule, nodes[i + 1], e);
        }
      }
      if exists i | 0 <= i < |nodes| :: Yields(rule, nodes[i], e) {
        var i :| 0 <= i < |nodes| && Yields(rule, nodes[i], e);
        if i == 0 {
          assert NodeEntry(rule, nodes[0]) == [e];
        } else {
          assert Yields(rule, rest[i - 1], e);
        }
      }
    }
  }

  /** A node whose read raised contributes nothing, and every node after it is
      still examined. */
  lemma {:induction false} KeepSkipsFailure(rule: Rule, a: seq<Option<string>>, b: seq<Option<string>>)
    ensures Keep(rule, a + [None] + b) == Keep(rule, a) + Keep(rule, b)
  {
    var failed: seq<Option<string>> := [None];
    KeepAppend(rule, a + failed, b);
    KeepAppend(rule, a, failed);
    assert Keep(rule, failed) == [] by { assert failed[1..] == []; }
    assert Keep(rule, a + failed) == Keep(rule, a);
  }

  /** Truncation comes before filtering: once the first `limit` nodes are
      fixed, no later node can reach the field, however many of the first
      `limit` were dropped. */
  lemma TruncateBeforeFilter(rule: Rule, head: seq<Option<string>>, tail: seq<Option<string>>)
    requires |head| == rule.limit
    ensures Collect(rule, head + tail) == Keep(rule, head)
  {
    assert Window(rule, head + tail) == head;
  }

  /** The reading in which short texts are dropped first and the survivors
      then truncated to the limit. The source does not do this. */
  function FilterThenTruncate(rule: Rule, nodes: seq<Option<string>>): (r: seq<string>)
    ensures |r| <= rule.limit
  {
    var all := Keep(rule, nodes);
    if |all| <= rule.limit then all else all[..rule.limit]
  }

  /** What the source collects is always a prefix of what filter-then-truncate
      would collect. */
  lemma CollectPrefixOfFilterFirst(rule: Rule, nodes: seq<Option<string>>)
    ensures Collect(rule, nodes) <= FilterThenTruncate(rule, nodes)
  {
    var w := Window(rule, nodes);
    var rest := nodes[|w|..];
    assert nodes == w + rest;
    KeepAppend(rule, w, rest);
  }

  /** The two readings agree whenever every node in the window yields an
      entry, so they differ only when a short or failing node sits among the
      first `limit`. */
  lemma CollectMatchesWhenNoneDropped(rule: Rule, nodes: seq<Option<string>>)
    requires forall k | 0 <= k < |nodes| && k < rule.limit :: NodeEntry(rule, nodes[k]) != []
    ensures Collect(rule, nodes) == FilterThenTruncate(rule, nodes)
  {
    var w := Window(rule, nodes);
    var rest := nodes[|w|..];
    assert nodes == w + rest;
    KeepAppend(rule, w, rest);
    AllYield(rule, w);
    var head := Keep(rule, w);
    var all := Keep(rule, nodes);
    if |w| < |nodes| {
      assert all[..rule.limit] == head;
    } else {
      assert rest == [];
    }
  }

  /** When every node yields an entry, nothing is dropped. */
  lemma {:induction false} AllYield(rule: Rule, nodes: seq<Option<string>>)
    requires forall k | 0 <= k < |nodes| :: NodeEntry(rule, nodes[k]) != []
    ensures |Keep(rule, nodes)| == |nodes|
  {
    if nodes != [] {
      AllYield(rule, nodes[1..]);
    }
  }

  /** Removing a node whose read raised: outside the window it changes
      nothing; inside the window the node at index `limit` slides in and may
      add its one entry at the end. */
  lemma CollectDropFailure(rule: Rule, nodes: seq<Option<string>>, i: nat)
    requires i < |nodes| && nodes[i] == None
    ensures i >= rule.limit ==> Collect(rule, nodes[..i] + nodes[i + 1..]) == Collect(rule, nodes)
    ensures i < rule.limit ==>
              Collect(rule, nodes[..i] + nodes[i + 1..]) ==
              Collect(rule, nodes) + (if rule.limit < |nodes| then NodeEntry(rule, nodes[rule.limit]) else [])
  {
    var dropped := nodes[..i] + nodes[i + 1..];
    var L := rule.limit;
    if i >= L {
      assert Window(rule, dropped) == Window(rule, nodes);
    } else {
      assert nodes[..i + 1] == nodes[..i] + [None];
      if L < |nodes| {
        assert Window(rule, dropped) == nodes[..i] + nodes[i + 1..L] + [nodes[L]];
        assert Window(rule, nodes) == nodes[..i] + [None] + nodes[i + 1..L];
        KeepSkipsFailure(rule, nodes[..i], nodes[i + 1..L]);
        KeepAppend(rule, nodes[..i] + nodes[i + 1..L], [nodes[L]]);
        KeepAppend(rule, nodes[..i], nodes[i + 1..L]);
        assert Keep(rule, [nodes[L]]) == NodeEntry(rule, nodes[L]) by { assert [nodes[L]][1..] == []; }
      } else {
        assert Window(rule, dropped) == nodes[..i] + nodes[i + 1..];
        assert Window(rule, nodes) == nodes[..i] + [None] + nodes[i + 1..];
        KeepSkipsFailure(rule, nodes[..i], nodes[i + 1..]);
        KeepAppend(rule, nodes[..i], nodes[i + 1..]);
      }
    }
  }

  /** A text is an entry of the field exactly when one of the first `limit`
      nodes yields it: the window, not the whole match, is the source. */
  lemma CollectMember(rule: Rule, nodes: seq<Option<string>>, e: string)
    ensures e in Collect(rule, nodes) <==>
              exists i | 0 <= i < |nodes| && i < rule.limit :: Yields(rule, nodes[i], e)
  {
    var w := Window(rule, nodes);
    KeepMember(rule, w, e);
    if e in Collect(rule, nodes) {
      var i :| 0 <= i < |w| && Yields(rule, w[i], e);
      assert w[i] == nodes[i];
    }
    if exists i | 0 <= i < |nodes| && i < rule.limit :: Yields(rule, nodes[i], e) {
      var i :| 0 <= i < |nodes| && i < rule.limit && Yields(rule, nodes[i], e);
      assert w[i] == nodes[i];
    }
  }

  /** When no node yields anything, the loop keeps nothing. */
  lemma {:induction false} KeepNothing(rule: Rule, nodes: seq<Option<string>>)
    requires forall k | 0 <= k < |nodes| :: NodeEntry(rule, nodes[k]) == []
    ensures Keep(rule, nodes) == []
  {
    if nodes != [] {
      KeepNothing(rule, nodes[1..]);
    }
  }

  /** A list block leaves its field `[]`: the query raised, or none of the
      first `limit` nodes yields an entry. */
  predicate YieldsNothing(rule: Rule, query: ListQuery) {
    query.Matched? ==>
      forall k | 0 <= k < |query.nodes| && k < rule.limit :: NodeEntry(rule, query.nodes[k]) == []
  }

  /** Such a block indeed contributes nothing. */
  lemma GatherNothing(rule: Rule, query: ListQuery)
    requires YieldsNothing(rule, query)
    ensures Gather(rule, query) == []
  {
    if query.Matched? {
      var w := Window(rule, query.nodes);
      assert forall k | 0 <= k < |w| :: w[k] == query.nodes[k];
      KeepNothing(rule, w);
    }
  }

  /** One more loop iteration appends the next node's contribution. */
  lemma KeepStep(rule: Rule, nodes: seq<Option<string>>, i: nat)
    requires i < |nodes|
    ensures Keep(rule, nodes[..i + 1]) == Keep(rule, nodes[..i]) + NodeEntry(rule, nodes[i])
  {
    var last: seq<Option<string>> := [nodes[i]];
    assert nodes[..i + 1] == nodes[..i] + last;
    KeepAppend(rule, nodes[..i], last);
    assert Keep(rule, last) == NodeEntry(rule, nodes[i]) by { assert last[1..] == []; }
  }

  /** The field block as the source runs it: a loop over the sliced nodes
      that appends each accepted stripped text. */
  method CollectNodes(rule: Rule, nodes: seq<Option<string>>) returns (entries: seq<string>)
    ensures entries == Collect(rule, nodes)
  {
    var window := Window(rule, nodes);
    entries := [];
    var i := 0;
    while i < |window|
      invariant 0 <= i <= |window|
      invariant entries == Keep(rule, window[..i])
    {
      KeepStep(rule, window, i);
      if window[i].Some? {
        var text := Strip(window[i].value);
        if text != [] && |text| > rule.minLength {
          entries := entries + [text];
        }
      }
      i := i + 1;
    }
    assert window[..i] == window;
  }

  /** When every node reads an acceptable stripped text, the loop keeps each
      of them, in order. */
  lemma {:induction false} KeepAccepted(rule: Rule, nodes: seq<Option<string>>)
    requires forall k | 0 <= k < |nodes| :: nodes[k].Some? && Entry(rule, nodes[k].value)
    ensures |Keep(rule, nodes)| == |nodes|
    ensures forall k | 0 <= k < |nodes| :: Keep(rule, nodes)[k] == nodes[k].value
  {
    if nodes != [] {
      StripStripped(nodes[0].value);
      KeepAccepted(rule, nodes[1..]);
    }
  }
}
