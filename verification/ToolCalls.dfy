/** Reassembly of tool calls that arrive in fragments: by index from Chat Completions, by item id from the
    Responses API. The result depends only on each call's own fragments, not on how they interleave. */
module ToolCalls {
  import opened Options

  datatype ToolCall = ToolCall(id: string, name: string, args: string)

  // ---------- sorting ----------

  ghost predicate StrictlySorted<T(!new)>(xs: seq<T>, key: T -> int) {
    forall i, j | 0 <= i < j < |xs| :: key(xs[i]) < key(xs[j])
  }

  /** sort.Slice on keys that are all different: there is only one sorted order. */
  lemma {:induction false} SortedIsUnique<T(!new)>(xs: seq<T>, ys: seq<T>, key: T -> int)
    requires StrictlySorted(xs, key) && StrictlySorted(ys, key)
    requires forall x :: x in xs <==> x in ys
    ensures xs == ys
  {
    assert ys != [] ==> ys[0] in ys;
    if xs != [] {
      assert xs[0] in ys && (ys != [] ==> ys[0] in xs);
      var i :| 0 <= i < |ys| && ys[i] == xs[0];
      var j :| 0 <= j < |xs| && xs[j] == ys[0];
      assert i == 0 && j == 0;
      forall x ensures x in xs[1..] <==> x in ys[1..] {
        TailMember(xs, x, key);
        TailMember(ys, x, key);
      }
      SortedIsUnique(xs[1..], ys[1..], key);
      assert xs == [xs[0]] + xs[1..] && ys == [ys[0]] + ys[1..];
    }
  }

  lemma TailMember<T(!new)>(xs: seq<T>, x: T, key: T -> int)
    requires xs != [] && StrictlySorted(xs, key)
    ensures x in xs[1..] <==> x in xs && x != xs[0]
  {
    if x in xs && x != xs[0] {
      var i :| 0 <= i < |xs| && xs[i] == x;
      assert xs[1..][i - 1] == x;
    }
    if x in xs[1..] {
      var i :| 0 <= i < |xs| - 1 && xs[1..][i] == x;
      assert xs[i + 1] == x && key(xs[0]) < key(xs[i + 1]);
    }
  }

  /** In key order, nothing twice; equal keys in any order, as sort.Slice leaves them. */
  ghost predicate Sorted<T(!new)>(xs: seq<T>, key: T -> int) {
    forall i, j | 0 <= i < j < |xs| :: key(xs[i]) <= key(xs[j]) && xs[i] != xs[j]
  }

  method InsertSorted<T(!new, ==)>(xs: seq<T>, x: T, key: T -> int) returns (ys: seq<T>)
    requires Sorted(xs, key) && x !in xs
    ensures Sorted(ys, key) && forall y :: y in ys <==> y in xs || y == x
  {
    var i := 0;
    while i < |xs| && key(xs[i]) < key(x)
      invariant 0 <= i <= |xs| && forall j | 0 <= j < i :: key(xs[j]) < key(x)
    {
      i := i + 1;
    }
    ys := xs[..i] + [x] + xs[i..];
    forall a, b | 0 <= a < b < |ys| ensures key(ys[a]) <= key(ys[b]) && ys[a] != ys[b] {
      assert ys[a] == if a < i then xs[a] else if a == i then x else xs[a - 1];
      assert ys[b] == if b < i then xs[b] else if b == i then x else xs[b - 1];
    }
    assert xs == xs[..i] + xs[i..];
  }

  /** Collect a map's keys and sort them: whatever order the map yields them in. */
  method Sort<T(!new, ==)>(values: set<T>, key: T -> int) returns (out: seq<T>)
    ensures Sorted(out, key) && forall x :: x in out <==> x in values
  {
    out := [];
    var rest := values;
    while rest != {}
      invariant rest <= values && Sorted(out, key)
      invariant forall x :: x in out <==> x in values - rest
      decreases rest
    {
      var x :| x in rest;
      out := InsertSorted(out, x, key);
      rest := rest - {x};
    }
  }

  // ---------- Chat Completions ----------

  /** One tool_calls element of a chunk; blank id or name means not given. */
  datatype Frag = Frag(index: int, id: string, name: string, args: string)

  datatype Acc = Acc(id: string, name: string, args: string)

  function Absorb(b: Acc, f: Frag): Acc {
    Acc(if f.id != "" then f.id else b.id, if f.name != "" then f.name else b.name, b.args + f.args)
  }

  /** The fragments of one call, in arrival order. */
  function Of(fs: seq<Frag>, index: int): seq<Frag> {
    if fs == [] then []
    else if fs[|fs| - 1].index == index then Of(fs[..|fs| - 1], index) + [fs[|fs| - 1]]
    else Of(fs[..|fs| - 1], index)
  }

  function LastGiven(values: seq<string>): string {
    if values == [] then ""
    else if values[|values| - 1] != "" then values[|values| - 1] else LastGiven(values[..|values| - 1])
  }

  function Concat(parts: seq<string>): string {
    if parts == [] then "" else Concat(parts[..|parts| - 1]) + parts[|parts| - 1]
  }

  function Ids(fs: seq<Frag>): seq<string> { seq(|fs|, i requires 0 <= i < |fs| => fs[i].id) }
  function Names(fs: seq<Frag>): seq<string> { seq(|fs|, i requires 0 <= i < |fs| => fs[i].name) }
  function Args(fs: seq<Frag>): seq<string> { seq(|fs|, i requires 0 <= i < |fs| => fs[i].args) }

  /** What a call's own fragments make of it: the last id and name given, all arguments joined. */
  function Whole(fs: seq<Frag>): Acc { Acc(LastGiven(Ids(fs)), LastGiven(Names(fs)), Concat(Args(fs))) }

  lemma WholeGrows(fs: seq<Frag>, f: Frag)
    ensures Whole(fs + [f]) == Absorb(Whole(fs), f)
  {
    assert Ids(fs + [f]) == Ids(fs) + [f.id] && (Ids(fs) + [f.id])[..|fs|] == Ids(fs);
    assert Names(fs + [f]) == Names(fs) + [f.name] && (Names(fs) + [f.name])[..|fs|] == Names(fs);
    assert Args(fs + [f]) == Args(fs) + [f.args] && (Args(fs) + [f.args])[..|fs|] == Args(fs);
  }

  lemma OfGrows(fs: seq<Frag>, f: Frag, index: int)
    ensures Of(fs + [f], index) == if f.index == index then Of(fs, index) + [f] else Of(fs, index)
  {
    assert (fs + [f])[..|fs|] == fs;
  }

  /** The accumulator map is exactly the calls that have fragments, each as its own fragments make it. */
  ghost predicate Accumulated(m: map<int, Acc>, fs: seq<Frag>) {
    forall i :: (i in m <==> Of(fs, i) != []) && (i in m ==> m[i] == Whole(Of(fs, i)))
  }

  /** The result for a stream: one call per index, indices strictly increasing, nothing else. */
  ghost predicate Reassembles(fs: seq<Frag>, out: seq<ToolCall>) {
    exists idx: seq<int> {:trigger Indexes(fs, idx, out)} :: Indexes(fs, idx, out)
  }

  function Identity(i: int): int { i }

  ghost predicate Indexes(fs: seq<Frag>, idx: seq<int>, out: seq<ToolCall>) {
    && StrictlySorted(idx, Identity)
    && (forall i :: i in idx <==> Of(fs, i) != [])
    && |out| == |idx|
    && forall k | 0 <= k < |idx| :: var w := Whole(Of(fs, idx[k])); out[k] == ToolCall(w.id, w.name, w.args)
  }

  method Accumulate(fs: seq<Frag>) returns (m: map<int, Acc>)
    ensures Accumulated(m, fs)
  {
    m := map[];
    for k := 0 to |fs|
      invariant Accumulated(m, fs[..k])
    {
      var f := fs[k];
      assert fs[..k + 1] == fs[..k] + [f];
      forall i ensures Of(fs[..k + 1], i) == if f.index == i then Of(fs[..k], i) + [f] else Of(fs[..k], i) {
        OfGrows(fs[..k], f, i);
      }
      WholeGrows(Of(fs[..k], f.index), f);
      hide Of, Whole;
      var b := if f.index in m then m[f.index] else Acc("", "", "");
      if f.index !in m {
        WholeOfNothing();
      }
      if f.id != "" {
        b := b.(id := f.id);
      }
      if f.name != "" {
        b := b.(name := f.name);
      }
      b := b.(args := b.args + f.args);
      m := m[f.index := b];
    }
    assert fs[..|fs|] == fs;
  }

  lemma WholeOfNothing()
    ensures Whole([]) == Acc("", "", "")
  {
  }

  /** collectOpenAIToolCalls after the stream loop of ChatStream. */
  method Reassemble(fs: seq<Frag>) returns (out: seq<ToolCall>)
    ensures Reassembles(fs, out)
  {
    var m := Accumulate(fs);
    hide Of, Whole;
    var idx := Sort(m.Keys, Identity);
    out := [];
    for k := 0 to |idx|
      invariant |out| == k
      invariant forall j | 0 <= j < k :: var w := Whole(Of(fs, idx[j])); out[j] == ToolCall(w.id, w.name, w.args)
    {
      assert idx[k] in m;
      var b := m[idx[k]];
      out := out + [ToolCall(b.id, b.name, b.args)];
    }
    assert Indexes(fs, idx, out);
  }

  /** Independence from interleaving: streams with the same fragments per index, in the same order per index,
      give the same calls however the indices interleave, and any stream gives only one result. */
  lemma InterleavingDoesNotMatter(fs: seq<Frag>, gs: seq<Frag>, a: seq<ToolCall>, b: seq<ToolCall>)
    requires forall i :: Of(fs, i) == Of(gs, i)
    requires Reassembles(fs, a) && Reassembles(gs, b)
    ensures a == b
  {
    var idx: seq<int> :| Indexes(fs, idx, a);
    var jdx: seq<int> :| Indexes(gs, jdx, b);
    SortedIsUnique(idx, jdx, Identity);
  }

  /** In particular two adjacent fragments of different calls may arrive in either order. */
  lemma {:induction false} AdjacentSwap(pre: seq<Frag>, f: Frag, g: Frag, post: seq<Frag>, i: int)
    requires f.index != g.index
    ensures Of(pre + [f, g] + post, i) == Of(pre + [g, f] + post, i)
  {
    if post == [] {
      assert pre + [f, g] + post == (pre + [f]) + [g] && pre + [g, f] + post == (pre + [g]) + [f];
      OfGrows(pre + [f], g, i);
      OfGrows(pre, f, i);
      OfGrows(pre + [g], f, i);
      OfGrows(pre, g, i);
    } else {
      var (front, last) := (post[..|post| - 1], post[|post| - 1]);
      assert pre + [f, g] + post == (pre + [f, g] + front) + [last];
      assert pre + [g, f] + post == (pre + [g, f] + front) + [last];
      AdjacentSwap(pre, f, g, front, i);
      OfGrows(pre + [f, g] + front, last, i);
      OfGrows(pre + [g, f] + front, last, i);
    }
  }

  // ---------- Responses ----------

  datatype Event =
    | Added(item: string, callId: string, name: string, order: int)   // output_item.added with a function call
    | Delta(item: string, text: string)                               // function_call_arguments.delta
    | Other

  datatype Builder = Builder(callId: string, name: string, order: int, args: string)

  /** The builder of an item: a fresh one at each added event, extended by the deltas that find it. */
  function BuilderOf(es: seq<Event>, item: string): Option<Builder> {
    if es == [] then None
    else
      var (before, e) := (BuilderOf(es[..|es| - 1], item), es[|es| - 1]);
      match e
      case Added(it, callId, name, order) => if it == item then Some(Builder(callId, name, order, "")) else before
      case Delta(it, text) =>
        if it == item && before.Some? then Some(before.value.(args := before.value.args + text)) else before
      case Other => before
  }

  ghost predicate Built(m: map<string, Builder>, es: seq<Event>) {
    forall item :: BuilderOf(es, item) == if item in m then Some(m[item]) else None
  }

  method Build(es: seq<Event>) returns (m: map<string, Builder>)
    ensures Built(m, es)
  {
    m := map[];
    for k := 0 to |es|
      invariant Built(m, es[..k])
    {
      assert es[..k + 1][..k] == es[..k];
      ghost var start := m;
      match es[k] {
        case Added(item, callId, name, order) => m := m[item := Builder(callId, name, order, "")];
        case Delta(item, text) =>
          if item in m {
            m := m[item := m[item].(args := m[item].args + text)];
          }
        case Other =>
      }
      forall item ensures BuilderOf(es[..k + 1], item) == if item in m then Some(m[item]) else None {
        assert BuilderOf(es[..k], item) == if item in start then Some(start[item]) else None;
      }
    }
    assert es[..|es|] == es;
  }

  /** No item is announced twice and no two share an output index. */
  ghost predicate DistinctItems(es: seq<Event>) {
    forall i, j | 0 <= i < j < |es| :: es[i].Added? && es[j].Added? ==>
      es[i].item != es[j].item && es[i].order != es[j].order
  }

  function OrderOf(es: seq<Event>, item: string): int {
    if BuilderOf(es, item).Some? then BuilderOf(es, item).value.order else 0
  }

  /** The result for an event stream: one call per announced item, by output index. */
  ghost predicate Emits(es: seq<Event>, out: seq<ToolCall>) {
    exists items: seq<string> {:trigger Items(es, items, out)} :: Items(es, items, out)
  }

  ghost predicate Items(es: seq<Event>, items: seq<string>, out: seq<ToolCall>) {
    && (forall i, j | 0 <= i < j < |items| :: OrderOf(es, items[i]) <= OrderOf(es, items[j]) && items[i] != items[j])
    && (forall item :: item in items <==> BuilderOf(es, item).Some?)
    && |out| == |items|
    && forall k | 0 <= k < |items| :: BuilderOf(es, items[k]).Some? && out[k] == CallOf(BuilderOf(es, items[k]).value)
  }

  function CallOf(b: Builder): ToolCall { ToolCall(b.callId, b.name, b.args) }

  /** A builder carries its item's order, and different items have different orders. */
  lemma {:induction false} OrdersComeFromEvents(es: seq<Event>, item: string)
    requires BuilderOf(es, item).Some?
    ensures exists i :: 0 <= i < |es| && es[i].Added? && es[i].item == item && es[i].order == BuilderOf(es, item).value.order
  {
    var (front, e) := (es[..|es| - 1], es[|es| - 1]);
    if e.Added? && e.item == item {
      assert es[|es| - 1].order == BuilderOf(es, item).value.order;
    } else {
      OrdersComeFromEvents(front, item);
      var i :| 0 <= i < |front| && front[i].Added? && front[i].item == item && front[i].order == BuilderOf(front, item).value.order;
      assert es[i] == front[i];
    }
  }

  lemma OrdersDiffer(es: seq<Event>, x: string, y: string)
    requires DistinctItems(es) && BuilderOf(es, x).Some? && BuilderOf(es, y).Some?
    requires BuilderOf(es, x).value.order == BuilderOf(es, y).value.order
    ensures x == y
  {
    OrdersComeFromEvents(es, x);
    OrdersComeFromEvents(es, y);
    var i :| 0 <= i < |es| && es[i].Added? && es[i].item == x && es[i].order == BuilderOf(es, x).value.order;
    var j :| 0 <= j < |es| && es[j].Added? && es[j].item == y && es[j].order == BuilderOf(es, y).value.order;
  }

  /** collectResponsesToolCalls after the event loop of chatStreamResponses, for any stream of events. */
  method CollectResponses(es: seq<Event>) returns (out: seq<ToolCall>)
    ensures Emits(es, out)
  {
    var m := Build(es);
    hide BuilderOf;
    assert forall item | item in m :: BuilderOf(es, item) == Some(m[item]);
    var items := Sort(m.Keys, item => if item in m then m[item].order else 0);
    assert forall item | item in m :: OrderOf(es, item) == m[item].order;
    out := [];
    for k := 0 to |items|
      invariant |out| == k && forall j | 0 <= j < k :: items[j] in m && out[j] == CallOf(m[items[j]])
    {
      assert items[k] in m;
      out := out + [CallOf(m[items[k]])];
    }
    assert forall k | 0 <= k < |items| :: items[k] in m;
    assert Items(es, items, out);
  }

  /** The stream of Chat Completions fragments that says the same: an announcement is a fragment with id and
      name, a delta one with arguments under the item's output index. A delta nobody announced says nothing. */
  function AsFragments(es: seq<Event>): seq<Frag> {
    if es == [] then []
    else
      var (front, e) := (es[..|es| - 1], es[|es| - 1]);
      AsFragments(front) +
      match e
      case Added(item, callId, name, order) => [Frag(order, callId, name, "")]
      case Delta(item, text) =>
        if BuilderOf(front, item).Some? then [Frag(BuilderOf(front, item).value.order, "", "", text)] else []
      case Other => []
  }

  lemma DistinctPrefix(es: seq<Event>)
    requires es != [] && DistinctItems(es)
    ensures DistinctItems(es[..|es| - 1])
    ensures var (front, e) := (es[..|es| - 1], es[|es| - 1]);
            e.Added? ==> forall item | BuilderOf(front, item).Some? :: item != e.item && BuilderOf(front, item).value.order != e.order
  {
    var (front, e) := (es[..|es| - 1], es[|es| - 1]);
    if e.Added? {
      forall item | BuilderOf(front, item).Some?
        ensures item != e.item && BuilderOf(front, item).value.order != e.order
      {
        OrdersComeFromEvents(front, item);
      }
    }
  }

  /** Each builder is what the corresponding fragments make of that index. */
  lemma {:induction false} BuilderIsWhole(es: seq<Event>, item: string)
    requires DistinctItems(es) && BuilderOf(es, item).Some?
    ensures var b := BuilderOf(es, item).value;
            Of(AsFragments(es), b.order) != [] && Whole(Of(AsFragments(es), b.order)) == Acc(b.callId, b.name, b.args)
  {
    var (front, e) := (es[..|es| - 1], es[|es| - 1]);
    var (fs, b) := (AsFragments(front), BuilderOf(es, item).value);
    DistinctPrefix(es);
    if e.Added? && e.item == item {
      NoFragmentsYet(front, e.order);
      OfGrows(fs, Frag(e.order, e.callId, e.name, ""), e.order);
      WholeGrows([], Frag(e.order, e.callId, e.name, ""));
      WholeOfNothing();
      assert [] + [Frag(e.order, e.callId, e.name, "")] == [Frag(e.order, e.callId, e.name, "")];
    } else {
      BuilderIsWhole(front, item);
      match e {
        case Added(_, callId, name, order) => OfGrows(fs, Frag(order, callId, name, ""), b.order);
        case Delta(it, text) =>
          if BuilderOf(front, it).Some? {
            var f := Frag(BuilderOf(front, it).value.order, "", "", text);
            OfGrows(fs, f, b.order);
            if it == item {
              WholeGrows(Of(fs, b.order), f);
            } else if f.index == b.order {
              OrdersDiffer(front, it, item);
            }
          } else {
            assert fs + [] == fs;
          }
        case Other => assert fs + [] == fs;
      }
    }
  }

  /** An index has fragments only if some builder has that order. */
  lemma {:induction false} NoFragmentsYet(es: seq<Event>, order: int)
    requires DistinctItems(es) && forall item | BuilderOf(es, item).Some? :: BuilderOf(es, item).value.order != order
    ensures Of(AsFragments(es), order) == []
  {
    if es != [] {
      var (front, e) := (es[..|es| - 1], es[|es| - 1]);
      var fs := AsFragments(front);
      DistinctPrefix(es);
      forall item | BuilderOf(front, item).Some? ensures BuilderOf(front, item).value.order != order {
        assert BuilderOf(es, item).Some? && BuilderOf(es, item).value.order == BuilderOf(front, item).value.order;
      }
      NoFragmentsYet(front, order);
      match e {
        case Added(it, callId, name, o) =>
          assert BuilderOf(es, it).value.order == o;
          OfGrows(fs, Frag(o, callId, name, ""), order);
        case Delta(it, text) =>
          if BuilderOf(front, it).Some? {
            OfGrows(fs, Frag(BuilderOf(front, it).value.order, "", "", text), order);
          } else {
            assert fs + [] == fs;
          }
        case Other => assert fs + [] == fs;
      }
    }
  }

  /** The items stand at exactly the indices that have fragments, each as those fragments make it. */
  lemma ItemsMatchIndexes(es: seq<Event>, items: seq<string>, out: seq<ToolCall>)
    requires DistinctItems(es) && Items(es, items, out)
    ensures forall k | 0 <= k < |items| ::
              Whole(Of(AsFragments(es), OrderOf(es, items[k]))) == Acc(out[k].id, out[k].name, out[k].args)
    ensures forall i :: (exists item :: item in items && OrderOf(es, item) == i) <==> Of(AsFragments(es), i) != []
  {
    hide AsFragments, Of, Whole, BuilderOf;
    forall k | 0 <= k < |items|
      ensures Of(AsFragments(es), OrderOf(es, items[k])) != []
      ensures Whole(Of(AsFragments(es), OrderOf(es, items[k]))) == Acc(out[k].id, out[k].name, out[k].args)
    {
      BuilderIsWhole(es, items[k]);
    }
    forall i | !exists item :: item in items && OrderOf(es, item) == i ensures Of(AsFragments(es), i) == [] {
      forall item | BuilderOf(es, item).Some? ensures BuilderOf(es, item).value.order != i {
        assert item in items && OrderOf(es, item) == BuilderOf(es, item).value.order;
      }
      NoFragmentsYet(es, i);
    }
  }

  /** The two APIs agree: for a Responses stream with distinct items and output indices, the calls it emits are
      the calls the corresponding Chat Completions stream reassembles to. */
  lemma ResponsesAgree(es: seq<Event>, out: seq<ToolCall>, out': seq<ToolCall>)
    requires DistinctItems(es) && Emits(es, out) && Reassembles(AsFragments(es), out')
    ensures out == out'
  {
    var items: seq<string> :| Items(es, items, out);
    var idx: seq<int> :| Indexes(AsFragments(es), idx, out');
    ItemsMatchIndexes(es, items, out);
    ItemsAreSorted(es, items, out);
    hide AsFragments, Of, Whole, BuilderOf, DistinctItems, OrderOf, StrictlySorted;
    var orders := Orders(es, items);
    forall i ensures i in orders <==> i in idx {
      if i in orders {
        var k :| 0 <= k < |orders| && orders[k] == i;
        assert items[k] in items && OrderOf(es, items[k]) == i;
      }
      if item :| item in items && OrderOf(es, item) == i {
        var k :| 0 <= k < |items| && items[k] == item;
        assert orders[k] == i;
      }
    }
    SortedIsUnique(orders, idx, Identity);
  }

  function Orders(es: seq<Event>, items: seq<string>): seq<int> {
    seq(|items|, k requires 0 <= k < |items| => OrderOf(es, items[k]))
  }

  lemma ItemsAreSorted(es: seq<Event>, items: seq<string>, out: seq<ToolCall>)
    requires DistinctItems(es) && Items(es, items, out)
    ensures StrictlySorted(Orders(es, items), Identity)
  {
    forall i, j | 0 <= i < j < |items| ensures Orders(es, items)[i] < Orders(es, items)[j] {
      if OrderOf(es, items[i]) == OrderOf(es, items[j]) {
        OrdersDiffer(es, items[i], items[j]);
      }
    }
    hide BuilderOf;
  }

  /** Announcing an item twice loses what had been collected: the second announcement starts from nothing. */
  lemma ReannouncingForgets(es: seq<Event>, item: string, callId: string, name: string, order: int)
    ensures BuilderOf(es + [Added(item, callId, name, order)], item) == Some(Builder(callId, name, order, ""))
  {
  }
}
