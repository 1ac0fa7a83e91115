/** Field masking and pattern sweep of tool output (packages/pii/redactor.py). */
module Redactor {
  import opened Values

  const MASK: string := "***REDACTED***"

  /** One compiled pattern: whether it matches somewhere, and the text with every match masked. */
  datatype Pattern = Pattern(name: string, search: string -> bool, sub: string -> string)

  datatype Policy = Policy(patterns: seq<Pattern>, sensitive: set<string>, allowRaw: bool)

  datatype Swept = Swept(text: string, matched: seq<string>)

  datatype RedactionStatus = Clean | Redacted

  datatype Redaction = Redaction(data: Json, redactedFields: seq<string>, matchedPatterns: seq<string>)
  {
    function Status(): RedactionStatus
    {
      if redactedFields == [] && matchedPatterns == [] then Clean else Redacted
    }
  }

  // ---------------------------------------------------------------- reference definition

  /** A scalar of the tree with its nearest enclosing dict key; lists are transparent. */
  datatype Leaf = Leaf(key: Option<string>, value: Json)

  predicate Scalar(node: Json)
  {
    !node.Arr? && !node.Obj?
  }

  /** The leaves of a tree in document order. */
  function Leaves(node: Json, key: Option<string>): seq<Leaf>
    decreases node, 1
  {
    match node
    case Obj(fields) => FieldLeaves(fields)
    case Arr(items) => ItemLeaves(items, key)
    case _ => [Leaf(key, node)]
  }

  function FieldLeaves(fields: Dict): seq<Leaf>
    decreases fields, 0
  {
    if fields == [] then []
    else
      var last := fields[|fields| - 1];
      FieldLeaves(fields[..|fields| - 1]) + Leaves(last.value, Some(last.key))
  }

  function ItemLeaves(items: seq<Json>, key: Option<string>): seq<Leaf>
    decreases items, 0
  {
    if items == [] then []
    else ItemLeaves(items[..|items| - 1], key) + Leaves(items[|items| - 1], key)
  }

  /** The tree with every scalar erased: containers, lengths, dict keys and their order. */
  function Shape(node: Json): Json
    decreases node, 1
  {
    match node
    case Obj(fields) => Obj(FieldShapes(fields))
    case Arr(items) => Arr(ItemShapes(items))
    case _ => Null
  }

  function FieldShapes(fields: Dict): (r: Dict)
    ensures |r| == |fields|
    decreases fields, 0
  {
    if fields == [] then []
    else
      var last := fields[|fields| - 1];
      FieldShapes(fields[..|fields| - 1]) + [Field(last.key, Shape(last.value))]
  }

  function ItemShapes(items: seq<Json>): (r: seq<Json>)
    ensures |r| == |items|
    decreases items, 0
  {
    if items == [] then [] else ItemShapes(items[..|items| - 1]) + [Shape(items[|items| - 1])]
  }

  /** The pattern sweep over one string: patterns in order, each on the text left by the ones before it. */
  function Sweep(patterns: seq<Pattern>, text: string): Swept
  {
    if patterns == [] then Swept(text, [])
    else
      var before := Sweep(patterns[..|patterns| - 1], text);
      var p := patterns[|patterns| - 1];
      if p.search(before.text) then Swept(p.sub(before.text), before.matched + [p.name]) else before
  }

  predicate Sensitive(p: Policy, key: Option<string>)
  {
    key.Some? && key.value in p.sensitive && !p.allowRaw
  }

  /** What a leaf becomes. */
  function MaskLeaf(p: Policy, leaf: Leaf): Json
  {
    if Sensitive(p, leaf.key) then Str(MASK)
    else if leaf.value.Str? then Str(Sweep(p.patterns, leaf.value.s).text)
    else leaf.value
  }

  /** The keys of the sensitive leaves, one entry a leaf. */
  function SensitiveKeys(p: Policy, leaves: seq<Leaf>): seq<string>
  {
    if leaves == [] then []
    else
      var last := leaves[|leaves| - 1];
      SensitiveKeys(p, leaves[..|leaves| - 1]) + (if Sensitive(p, last.key) then [last.key.value] else [])
  }

  /** The pattern names that matched, one group a string leaf that was not masked. */
  function Matches(p: Policy, leaves: seq<Leaf>): seq<string>
  {
    if leaves == [] then []
    else
      var last := leaves[|leaves| - 1];
      Matches(p, leaves[..|leaves| - 1])
      + (if !Sensitive(p, last.key) && last.value.Str? then Sweep(p.patterns, last.value.s).matched else [])
  }

  /** Appends the entries of `more` that are not there yet, in order. */
  function AddNew(have: seq<string>, more: seq<string>): seq<string>
  {
    if more == [] then have
    else
      var before := AddNew(have, more[..|more| - 1]);
      var x := more[|more| - 1];
      if x in before then before else before + [x]
  }

  /** The redacted tree. */
  function Masked(p: Policy, node: Json, key: Option<string>): Json
    decreases node, 1
  {
    match node
    case Obj(fields) => Obj(MaskedFields(p, fields))
    case Arr(items) => Arr(MaskedItems(p, items, key))
    case _ => MaskLeaf(p, Leaf(key, node))
  }

  function MaskedFields(p: Policy, fields: Dict): (r: Dict)
    ensures |r| == |fields|
    decreases fields, 0
  {
    if fields == [] then []
    else
      var last := fields[|fields| - 1];
      MaskedFields(p, fields[..|fields| - 1]) + [Field(last.key, Masked(p, last.value, Some(last.key)))]
  }

  function MaskedItems(p: Policy, items: seq<Json>, key: Option<string>): (r: seq<Json>)
    ensures |r| == |items|
    decreases items, 0
  {
    if items == [] then []
    else MaskedItems(p, items[..|items| - 1], key) + [Masked(p, items[|items| - 1], key)]
  }

  /** `redact`, described by the leaves of the input. */
  function Redact(p: Policy, data: Json): Redaction
  {
    var leaves := Leaves(data, None);
    Redaction(Masked(p, data, None), AddNew([], SensitiveKeys(p, leaves)), AddNew([], Matches(p, leaves)))
  }

  // ---------------------------------------------------------------- the algorithm

  /** `redact_text`. */
  method RedactText(patterns: seq<Pattern>, text: string) returns (out: string, matched: seq<string>)
    ensures Swept(out, matched) == Sweep(patterns, text)
    ensures Sweeps(patterns, text, out, matched)
  {
    out, matched := text, [];
    for i := 0 to |patterns|
      invariant Swept(out, matched) == Sweep(patterns[..i], text)
    {
      var pattern := patterns[i];
      assert patterns[..i + 1][..i] == patterns[..i];
      if pattern.search(out) {
        matched := matched + [pattern.name];
        out := pattern.sub(out);
      }
    }
    assert patterns[..|patterns|] == patterns;
    SweepIsChain(patterns, text);
  }

  class RedactionResult {
    var data: Json
    var redactedFields: seq<string>
    var matchedPatterns: seq<string>

    constructor ()
      ensures data == Null && redactedFields == [] && matchedPatterns == []
    {
      data, redactedFields, matchedPatterns := Null, [], [];
    }

    function View(): Redaction
      reads this
    {
      Redaction(data, redactedFields, matchedPatterns)
    }

    /** `_walk`: rebuilds the tree and appends to the two lists as it meets the leaves. */
    method Walk(p: Policy, node: Json, key: Option<string>) returns (out: Json)
      modifies this`redactedFields, this`matchedPatterns
      ensures out == Masked(p, node, key)
      ensures redactedFields == AddNew(old(redactedFields), SensitiveKeys(p, Leaves(node, key)))
      ensures matchedPatterns == AddNew(old(matchedPatterns), Matches(p, Leaves(node, key)))
      decreases node
    {
      match node
      case Obj(fields) =>
        var walked := WalkFields(p, fields);
        out := Obj(walked);
      case Arr(items) =>
        var walked := WalkItems(p, items, key);
        out := Arr(walked);
      case _ => out := WalkScalar(p, node, key);
    }

    method WalkFields(p: Policy, fields: Dict) returns (out: Dict)
      modifies this`redactedFields, this`matchedPatterns
      ensures out == MaskedFields(p, fields)
      ensures redactedFields == AddNew(old(redactedFields), SensitiveKeys(p, FieldLeaves(fields)))
      ensures matchedPatterns == AddNew(old(matchedPatterns), Matches(p, FieldLeaves(fields)))
      decreases fields
    {
      out := [];
      for i := 0 to |fields|
        invariant out == MaskedFields(p, fields[..i])
        invariant redactedFields == AddNew(old(redactedFields), SensitiveKeys(p, FieldLeaves(fields[..i])))
        invariant matchedPatterns == AddNew(old(matchedPatterns), Matches(p, FieldLeaves(fields[..i])))
      {
        var v := Walk(p, fields[i].value, Some(fields[i].key));
        out := out + [Field(fields[i].key, v)];
        assert fields[..i + 1][..i] == fields[..i];
        LeavesAppend(p, old(redactedFields), old(matchedPatterns),
          FieldLeaves(fields[..i]), Leaves(fields[i].value, Some(fields[i].key)));
      }
      assert fields[..|fields|] == fields;
    }

    method WalkItems(p: Policy, items: seq<Json>, key: Option<string>) returns (out: seq<Json>)
      modifies this`redactedFields, this`matchedPatterns
      ensures out == MaskedItems(p, items, key)
      ensures redactedFields == AddNew(old(redactedFields), SensitiveKeys(p, ItemLeaves(items, key)))
      ensures matchedPatterns == AddNew(old(matchedPatterns), Matches(p, ItemLeaves(items, key)))
      decreases items
    {
      out := [];
      for i := 0 to |items|
        invariant out == MaskedItems(p, items[..i], key)
        invariant redactedFields == AddNew(old(redactedFields), SensitiveKeys(p, ItemLeaves(items[..i], key)))
        invariant matchedPatterns == AddNew(old(matchedPatterns), Matches(p, ItemLeaves(items[..i], key)))
      {
        var v := Walk(p, items[i], key);
        out := out + [v];
        assert items[..i + 1][..i] == items[..i];
        LeavesAppend(p, old(redactedFields), old(matchedPatterns), ItemLeaves(items[..i], key), Leaves(items[i], key));
      }
      assert items[..|items|] == items;
    }

    method WalkScalar(p: Policy, node: Json, key: Option<string>) returns (out: Json)
      requires Scalar(node)
      modifies this`redactedFields, this`matchedPatterns
      ensures out == MaskLeaf(p, Leaf(key, node))
      ensures redactedFields == AddNew(old(redactedFields), SensitiveKeys(p, [Leaf(key, node)]))
      ensures matchedPatterns == AddNew(old(matchedPatterns), Matches(p, [Leaf(key, node)]))
    {
      hide Sweep; hide Sweeps;
      OneLeaf(p, Leaf(key, node));
      // Non-string sensitive values are masked as well as strings.
      if key.Some? && key.value in p.sensitive && !p.allowRaw {
        redactedFields := Append(redactedFields, [key.value]);
        return Str(MASK);
      }
      if node.Str? {
        var swept, matched := RedactText(p.patterns, node.s);
        matchedPatterns := Append(matchedPatterns, matched);
        return Str(swept);
      }
      return node;
    }
  }

  /** `for m in more: if m not in have: have.append(m)`. */
  method Append(have: seq<string>, more: seq<string>) returns (all: seq<string>)
    ensures all == AddNew(have, more)
  {
    all := have;
    for i := 0 to |more|
      invariant all == AddNew(have, more[..i])
    {
      assert more[..i + 1][..i] == more[..i];
      if more[i] !in all {
        all := all + [more[i]];
      }
    }
    assert more[..|more|] == more;
  }

  /** `redact`. */
  method RunRedact(p: Policy, data: Json) returns (r: RedactionResult)
    ensures fresh(r)
    ensures r.View() == Redact(p, data)
  {
    r := new RedactionResult();
    r.data := r.Walk(p, data, None);
  }

  // ---------------------------------------------------------------- the sweep, text by text

  /**
   * `texts` are the texts that the patterns see one after the other, and `hits` the patterns that matched: each pattern
   * sees what the ones before it left, masks it when it matches, and is named in `matched` exactly then, in order.
   */
  predicate Chain(patterns: seq<Pattern>, text: string, out: string, matched: seq<string>,
                  texts: seq<string>, hits: seq<nat>)
  {
    && |texts| == |patterns| + 1 && texts[0] == text && texts[|patterns|] == out
    && (forall i :: 0 <= i < |patterns| ==>
          texts[i + 1] == if patterns[i].search(texts[i]) then patterns[i].sub(texts[i]) else texts[i])
    && |hits| == |matched|
    && (forall k :: 0 <= k < |hits| ==> hits[k] < |patterns| && matched[k] == patterns[hits[k]].name)
    && (forall j, k :: 0 <= j < k < |hits| ==> hits[j] < hits[k])
    && (forall i: nat :: i < |patterns| ==> (i in hits <==> patterns[i].search(texts[i])))
  }

  /** Sweeping `text` leaves `out` and reports `matched`. */
  ghost predicate Sweeps(patterns: seq<Pattern>, text: string, out: string, matched: seq<string>)
  {
    exists texts, hits :: Chain(patterns, text, out, matched, texts, hits)
  }

  lemma ChainGrows(patterns: seq<Pattern>, text: string, out: string, matched: seq<string>,
                   texts: seq<string>, hits: seq<nat>, p: Pattern)
    requires Chain(patterns, text, out, matched, texts, hits)
    ensures if p.search(out)
            then Chain(patterns + [p], text, p.sub(out), matched + [p.name], texts + [p.sub(out)], hits + [|patterns|])
            else Chain(patterns + [p], text, out, matched, texts + [out], hits)
  {
  }

  /** The fold is that chain. */
  lemma {:induction false} SweepIsChain(patterns: seq<Pattern>, text: string)
    ensures Sweeps(patterns, text, Sweep(patterns, text).text, Sweep(patterns, text).matched)
  {
    if patterns == [] {
      assert Chain(patterns, text, text, [], [text], []);
    } else {
      var init, p := patterns[..|patterns| - 1], patterns[|patterns| - 1];
      SweepIsChain(init, text);
      var before := Sweep(init, text);
      var texts, hits :| Chain(init, text, before.text, before.matched, texts, hits);
      ChainGrows(init, text, before.text, before.matched, texts, hits, p);
      assert patterns == init + [p];
    }
  }

  /** There is one chain for a text, so whatever `Sweeps` relates is what the fold computes. */
  lemma {:induction false} ChainIsUnique(patterns: seq<Pattern>, text: string, out: string, matched: seq<string>,
                                         texts: seq<string>, hits: seq<nat>)
    requires Chain(patterns, text, out, matched, texts, hits)
    ensures Swept(out, matched) == Sweep(patterns, text)
    decreases |patterns|
  {
    if patterns == [] {
      assert |hits| == 0;
    } else {
      var n := |patterns| - 1;
      if patterns[n].search(texts[n]) {
        LastHit(patterns, text, out, matched, texts, hits);
        ChainIsUnique(patterns[..n], text, texts[n], matched[..|matched| - 1], texts[..n + 1], hits[..|hits| - 1]);
      } else {
        assert forall k :: 0 <= k < |hits| ==> hits[k] in hits && hits[k] < n;
        ChainIsUnique(patterns[..n], text, texts[n], matched, texts[..n + 1], hits);
      }
    }
  }

  lemma LastHit(patterns: seq<Pattern>, text: string, out: string, matched: seq<string>,
                texts: seq<string>, hits: seq<nat>)
    requires patterns != [] && Chain(patterns, text, out, matched, texts, hits)
    requires patterns[|patterns| - 1].search(texts[|patterns| - 1])
    ensures |hits| > 0 && hits[|hits| - 1] == |patterns| - 1
    ensures Chain(patterns[..|patterns| - 1], text, texts[|patterns| - 1], matched[..|matched| - 1],
                  texts[..|patterns|], hits[..|hits| - 1])
    ensures matched == matched[..|matched| - 1] + [patterns[|patterns| - 1].name]
  {
    var n := |patterns| - 1;
    assert n in hits;
    var k :| 0 <= k < |hits| && hits[k] == n;
    var last := hits[|hits| - 1];
    assert last < |patterns| && (k < |hits| - 1 ==> n < last);
    var rest := hits[..|hits| - 1];
    forall i: nat | i < n ensures i in rest <==> patterns[i].search(texts[i]) {
      if i in hits {
        var m :| 0 <= m < |hits| && hits[m] == i;
        assert m < |rest| && rest[m] == i;
      }
    }
  }

  /** Masking leaves nothing that this pattern matches. */
  ghost predicate Clears(p: Pattern)
  {
    forall t :: p.search(t) ==> !p.search(p.sub(t))
  }

  /** Masking by `q` uncovers nothing that `p` matches. */
  ghost predicate Keeps(p: Pattern, q: Pattern)
  {
    forall t :: !p.search(t) && q.search(t) ==> !p.search(q.sub(t))
  }

  /** When masks clear their own matches and uncover none of an earlier pattern, no pattern matches in the output. */
  lemma {:induction false} NothingLeftToMatch(patterns: seq<Pattern>, text: string)
    requires forall i :: 0 <= i < |patterns| ==> Clears(patterns[i])
    requires forall i, j :: 0 <= i < j < |patterns| ==> Keeps(patterns[i], patterns[j])
    ensures forall i :: 0 <= i < |patterns| ==> !patterns[i].search(Sweep(patterns, text).text)
    decreases |patterns|
  {
    if patterns != [] {
      var n := |patterns| - 1;
      var before := Sweep(patterns[..n], text).text;
      NothingLeftToMatch(patterns[..n], text);
      forall i | 0 <= i < |patterns| ensures !patterns[i].search(Sweep(patterns, text).text) {
        if i < n {
          assert !patterns[..n][i].search(before) && Keeps(patterns[i], patterns[n]);
        } else {
          assert Clears(patterns[n]);
        }
      }
    }
  }

  /**
   * A text is left alone by the sweep exactly when no pattern matches in it; so a second sweep is idle
   * exactly then.
   */
  lemma {:induction false} IdleSweep(patterns: seq<Pattern>, text: string)
    ensures Sweep(patterns, text).matched == [] <==> forall i :: 0 <= i < |patterns| ==> !patterns[i].search(text)
    ensures Sweep(patterns, text).matched == [] ==> Sweep(patterns, text).text == text
    decreases |patterns|
  {
    if patterns != [] {
      var n := |patterns| - 1;
      IdleSweep(patterns[..n], text);
      if Sweep(patterns[..n], text).matched == [] {
        assert forall i :: 0 <= i < n ==> !patterns[..n][i].search(text);
      } else {
        var i :| 0 <= i < n && patterns[..n][i].search(text);
        assert patterns[i].search(text);
      }
    }
  }

  // ---------------------------------------------------------------- leaves are the scalars, in document order

  /** One move from a container to a child. */
  datatype Move = Into(place: nat) | Item(place: nat)

  /** The node that a path leads to. */
  function At(node: Json, path: seq<Move>): Option<Json>
    decreases |path|
  {
    if path == [] then Some(node)
    else if node.Obj? && path[0].Into? && path[0].place < |node.fields|
    then At(node.fields[path[0].place].value, path[1..])
    else if node.Arr? && path[0].Item? && path[0].place < |node.items| then At(node.items[path[0].place], path[1..])
    else None
  }

  /** The key of the last dict entered on the way; lists do not change it. */
  function Nearest(node: Json, path: seq<Move>, key: Option<string>): Option<string>
    decreases |path|
  {
    if path == [] then key
    else if node.Obj? && path[0].Into? && path[0].place < |node.fields|
    then Nearest(node.fields[path[0].place].value, path[1..], Some(node.fields[path[0].place].key))
    else if node.Arr? && path[0].Item? && path[0].place < |node.items|
    then Nearest(node.items[path[0].place], path[1..], key)
    else key
  }

  /** Document order. */
  predicate Precedes(a: seq<Move>, b: seq<Move>)
  {
    a != [] && b != [] && (a[0].place < b[0].place || (a[0] == b[0] && Precedes(a[1..], b[1..])))
  }

  function Prefixed(m: Move, paths: seq<seq<Move>>): (r: seq<seq<Move>>)
    ensures |r| == |paths|
  {
    seq(|paths|, i requires 0 <= i < |paths| => [m] + paths[i])
  }

  /** The paths to the scalars. */
  function Paths(node: Json): seq<seq<Move>>
    decreases node, 1
  {
    match node
    case Obj(fields) => FieldPaths(fields)
    case Arr(items) => ItemPaths(items)
    case _ => [[]]
  }

  function FieldPaths(fields: Dict): seq<seq<Move>>
    decreases fields, 0
  {
    if fields == [] then []
    else
      var n := |fields| - 1;
      FieldPaths(fields[..n]) + Prefixed(Into(n), Paths(fields[n].value))
  }

  function ItemPaths(items: seq<Json>): seq<seq<Move>>
    decreases items, 0
  {
    if items == [] then []
    else
      var n := |items| - 1;
      ItemPaths(items[..n]) + Prefixed(Item(n), Paths(items[n]))
  }

  /** The paths and leaves of a node, side by side. */
  ghost predicate SideBySide(node: Json, key: Option<string>, paths: seq<seq<Move>>, leaves: seq<Leaf>)
  {
    && |paths| == |leaves|
    && (forall i :: 0 <= i < |paths| ==>
          && At(node, paths[i]) == Some(leaves[i].value) && Scalar(leaves[i].value)
          && Nearest(node, paths[i], key) == leaves[i].key)
    && (forall i, j :: 0 <= i < j < |paths| ==> Precedes(paths[i], paths[j]))
  }

  /**
   * The leaves are the scalars of the tree in document order, each under its nearest enclosing key, and all
   * of them.
   */
  lemma {:induction false} LeavesAreTheScalars(node: Json, key: Option<string>)
    ensures SideBySide(node, key, Paths(node), Leaves(node, key))
    ensures forall path :: At(node, path).Some? && Scalar(At(node, path).value) ==> path in Paths(node)
    decreases node, 1
  {
    match node
    case Obj(fields) =>
      FieldLeavesAreTheScalars(fields, key);
      forall path | At(node, path).Some? && Scalar(At(node, path).value) ensures path in Paths(node) {
        FieldScalarHasPath(fields, path);
      }
    case Arr(items) =>
      ItemLeavesAreTheScalars(items, key);
      forall path | At(node, path).Some? && Scalar(At(node, path).value) ensures path in Paths(node) {
        ItemScalarHasPath(items, path);
      }
    case _ =>
      forall path | At(node, path).Some? ensures path in Paths(node) {
        assert path == [];
      }
  }

  /** A child's paths, one move longer. */
  lemma ChildSideBySide(node: Json, key: Option<string>, m: Move, child: Json, childKey: Option<string>)
    requires At(node, [m]) == Some(child) && Nearest(node, [m], key) == childKey
    requires SideBySide(child, childKey, Paths(child), Leaves(child, childKey))
    ensures SideBySide(node, key, Prefixed(m, Paths(child)), Leaves(child, childKey))
  {
    var paths := Prefixed(m, Paths(child));
    forall i | 0 <= i < |paths|
      ensures At(node, paths[i]) == At(child, Paths(child)[i])
      ensures Nearest(node, paths[i], key) == Nearest(child, Paths(child)[i], childKey)
    {
      assert [m][1..] == [] && paths[i][0] == m && paths[i][1..] == Paths(child)[i];
    }
    forall i, j | 0 <= i < j < |paths| ensures Precedes(paths[i], paths[j]) {
      assert paths[i][1..] == Paths(child)[i] && paths[j][1..] == Paths(child)[j];
    }
  }

  lemma Joined(node: Json, key: Option<string>, a: seq<seq<Move>>, x: seq<Leaf>, b: seq<seq<Move>>, y: seq<Leaf>,
               n: nat)
    requires SideBySide(node, key, a, x) && SideBySide(node, key, b, y)
    requires forall i :: 0 <= i < |a| ==> a[i] != [] && a[i][0].place < n
    requires forall i :: 0 <= i < |b| ==> b[i] != [] && b[i][0].place == n
    ensures SideBySide(node, key, a + b, x + y)
  {
    var c := a + b;
    forall i, j | 0 <= i < j < |c| ensures Precedes(c[i], c[j]) {
      if j < |a| {
        assert Precedes(a[i], a[j]);
      } else if i >= |a| {
        assert Precedes(b[i - |a|], b[j - |a|]);
      }
    }
  }

  /** More fields behind change no path into the first ones. */
  lemma FewerFields(fields: Dict, key: Option<string>, paths: seq<seq<Move>>, leaves: seq<Leaf>)
    requires fields != [] && SideBySide(Obj(fields[..|fields| - 1]), key, paths, leaves)
    ensures SideBySide(Obj(fields), key, paths, leaves)
    ensures forall i :: 0 <= i < |paths| ==> paths[i] != [] && paths[i][0].place < |fields| - 1
  {
    forall i | 0 <= i < |paths|
      ensures paths[i] != [] && paths[i][0].place < |fields| - 1
      ensures At(Obj(fields), paths[i]) == At(Obj(fields[..|fields| - 1]), paths[i])
      ensures Nearest(Obj(fields), paths[i], key) == Nearest(Obj(fields[..|fields| - 1]), paths[i], key)
    {
    }
  }

  lemma FewerItems(items: seq<Json>, key: Option<string>, paths: seq<seq<Move>>, leaves: seq<Leaf>)
    requires items != [] && SideBySide(Arr(items[..|items| - 1]), key, paths, leaves)
    ensures SideBySide(Arr(items), key, paths, leaves)
    ensures forall i :: 0 <= i < |paths| ==> paths[i] != [] && paths[i][0].place < |items| - 1
  {
    forall i | 0 <= i < |paths|
      ensures paths[i] != [] && paths[i][0].place < |items| - 1
      ensures At(Arr(items), paths[i]) == At(Arr(items[..|items| - 1]), paths[i])
      ensures Nearest(Arr(items), paths[i], key) == Nearest(Arr(items[..|items| - 1]), paths[i], key)
    {
    }
  }

  lemma {:induction false} FieldLeavesAreTheScalars(fields: Dict, key: Option<string>)
    ensures SideBySide(Obj(fields), key, FieldPaths(fields), FieldLeaves(fields))
    decreases fields, 0
  {
    if fields != [] {
      var n := |fields| - 1;
      FieldLeavesAreTheScalars(fields[..n], key);
      FewerFields(fields, key, FieldPaths(fields[..n]), FieldLeaves(fields[..n]));
      LeavesAreTheScalars(fields[n].value, Some(fields[n].key));
      assert [Into(n)][1..] == [];
      ChildSideBySide(Obj(fields), key, Into(n), fields[n].value, Some(fields[n].key));
      Joined(Obj(fields), key, FieldPaths(fields[..n]), FieldLeaves(fields[..n]),
        Prefixed(Into(n), Paths(fields[n].value)), Leaves(fields[n].value, Some(fields[n].key)), n);
    }
  }

  lemma {:induction false} ItemLeavesAreTheScalars(items: seq<Json>, key: Option<string>)
    ensures SideBySide(Arr(items), key, ItemPaths(items), ItemLeaves(items, key))
    decreases items, 0
  {
    if items != [] {
      var n := |items| - 1;
      ItemLeavesAreTheScalars(items[..n], key);
      FewerItems(items, key, ItemPaths(items[..n]), ItemLeaves(items[..n], key));
      LeavesAreTheScalars(items[n], key);
      assert [Item(n)][1..] == [];
      ChildSideBySide(Arr(items), key, Item(n), items[n], key);
      Joined(Arr(items), key, ItemPaths(items[..n]), ItemLeaves(items[..n], key),
        Prefixed(Item(n), Paths(items[n])), Leaves(items[n], key), n);
    }
  }

  lemma {:induction false} FieldScalarHasPath(fields: Dict, path: seq<Move>)
    requires At(Obj(fields), path).Some? && Scalar(At(Obj(fields), path).value)
    ensures path in FieldPaths(fields)
    decreases fields, 0
  {
    assert path != [] && path[0].Into? && path[0].place < |fields|;
    var n := |fields| - 1;
    if path[0].place < n {
      FieldScalarHasPath(fields[..n], path);
    } else {
      LeavesAreTheScalars(fields[n].value, Some(fields[n].key));
      PrefixedHas(Into(n), Paths(fields[n].value), path);
    }
  }

  lemma {:induction false} ItemScalarHasPath(items: seq<Json>, path: seq<Move>)
    requires At(Arr(items), path).Some? && Scalar(At(Arr(items), path).value)
    ensures path in ItemPaths(items)
    decreases items, 0
  {
    assert path != [] && path[0].Item? && path[0].place < |items|;
    var n := |items| - 1;
    if path[0].place < n {
      ItemScalarHasPath(items[..n], path);
    } else {
      LeavesAreTheScalars(items[n], None);
      PrefixedHas(Item(n), Paths(items[n]), path);
    }
  }

  lemma PrefixedHas(m: Move, paths: seq<seq<Move>>, path: seq<Move>)
    requires path != [] && path[0] == m && path[1..] in paths
    ensures path in Prefixed(m, paths)
  {
    var i :| 0 <= i < |paths| && paths[i] == path[1..];
    assert path == [m] + path[1..];
    assert Prefixed(m, paths)[i] == path;
  }

  // ---------------------------------------------------------------- accumulators

  lemma OneLeaf(p: Policy, leaf: Leaf)
    ensures SensitiveKeys(p, [leaf]) == if Sensitive(p, leaf.key) then [leaf.key.value] else []
    ensures Matches(p, [leaf]) ==
            if !Sensitive(p, leaf.key) && leaf.value.Str? then Sweep(p.patterns, leaf.value.s).matched else []
  {
    assert [leaf][..0] == [];
  }

  lemma {:induction false} AddNewConcat(have: seq<string>, a: seq<string>, b: seq<string>)
    ensures AddNew(AddNew(have, a), b) == AddNew(have, a + b)
    decreases |b|
  {
    if b == [] {
      assert a + b == a;
    } else {
      AddNewConcat(have, a, b[..|b| - 1]);
      assert (a + b)[..|a + b| - 1] == a + b[..|b| - 1];
    }
  }

  lemma {:induction false} ListsConcat(p: Policy, a: seq<Leaf>, b: seq<Leaf>)
    ensures SensitiveKeys(p, a + b) == SensitiveKeys(p, a) + SensitiveKeys(p, b)
    ensures Matches(p, a + b) == Matches(p, a) + Matches(p, b)
    decreases |b|
  {
    if b == [] {
      assert a + b == a;
    } else {
      ListsConcat(p, a, b[..|b| - 1]);
      assert (a + b)[..|a + b| - 1] == a + b[..|b| - 1];
      assert (a + b)[|a + b| - 1] == b[|b| - 1];
    }
  }

  lemma LeavesAppend(p: Policy, fields: seq<string>, patterns: seq<string>, a: seq<Leaf>, b: seq<Leaf>)
    ensures AddNew(AddNew(fields, SensitiveKeys(p, a)), SensitiveKeys(p, b)) == AddNew(fields, SensitiveKeys(p, a + b))
    ensures AddNew(AddNew(patterns, Matches(p, a)), Matches(p, b)) == AddNew(patterns, Matches(p, a + b))
  {
    ListsConcat(p, a, b);
    AddNewConcat(fields, SensitiveKeys(p, a), SensitiveKeys(p, b));
    AddNewConcat(patterns, Matches(p, a), Matches(p, b));
  }

  /** The position at which `x` is first met. */
  function FirstIndex(xs: seq<string>, x: string): (k: nat)
    ensures k <= |xs| && (k < |xs| <==> x in xs)
    ensures k < |xs| ==> xs[k] == x
    ensures forall i :: 0 <= i < k ==> xs[i] != x
  {
    if xs == [] then 0
    else
      var k := FirstIndex(xs[..|xs| - 1], x);
      if k < |xs| - 1 || xs[|xs| - 1] == x then k else |xs|
  }

  /** AddNew([], xs) is the duplicate-free list of xs in first-encounter order. */
  lemma {:induction false} FirstEncounter(xs: seq<string>)
    ensures forall x :: x in AddNew([], xs) <==> x in xs
    ensures forall i, j :: 0 <= i < j < |AddNew([], xs)| ==>
              FirstIndex(xs, AddNew([], xs)[i]) < FirstIndex(xs, AddNew([], xs)[j])
    decreases |xs|
  {
    if xs != [] {
      var init, x := xs[..|xs| - 1], xs[|xs| - 1];
      FirstEncounter(init);
      assert xs == init + [x];
      forall y | y in init ensures FirstIndex(xs, y) == FirstIndex(init, y) {}
    }
  }

  // ---------------------------------------------------------------- exactness

  /** The leaves of the output are the masked leaves of the input, under the same keys. */
  function MaskAll(p: Policy, leaves: seq<Leaf>): (r: seq<Leaf>)
    ensures |r| == |leaves|
  {
    seq(|leaves|, i requires 0 <= i < |leaves| => Leaf(leaves[i].key, MaskLeaf(p, leaves[i])))
  }

  lemma {:induction false} MaskedLeaves(p: Policy, node: Json, key: Option<string>)
    ensures Leaves(Masked(p, node, key), key) == MaskAll(p, Leaves(node, key))
    ensures Shape(Masked(p, node, key)) == Shape(node)
    decreases node, 1
  {
    match node
    case Obj(fields) => MaskedFieldLeaves(p, fields);
    case Arr(items) => MaskedItemLeaves(p, items, key);
    case _ =>
  }

  lemma {:induction false} MaskedFieldLeaves(p: Policy, fields: Dict)
    ensures FieldLeaves(MaskedFields(p, fields)) == MaskAll(p, FieldLeaves(fields))
    ensures FieldShapes(MaskedFields(p, fields)) == FieldShapes(fields)
    decreases fields, 0
  {
    if fields != [] {
      var n := |fields| - 1;
      var k := Some(fields[n].key);
      MaskedFieldLeaves(p, fields[..n]);
      MaskedLeaves(p, fields[n].value, k);
      LastOf(MaskedFields(p, fields[..n]), Field(fields[n].key, Masked(p, fields[n].value, k)));
      MaskAllConcat(p, FieldLeaves(fields[..n]), Leaves(fields[n].value, k));
    }
  }

  lemma {:induction false} MaskedItemLeaves(p: Policy, items: seq<Json>, key: Option<string>)
    ensures ItemLeaves(MaskedItems(p, items, key), key) == MaskAll(p, ItemLeaves(items, key))
    ensures ItemShapes(MaskedItems(p, items, key)) == ItemShapes(items)
    decreases items, 0
  {
    if items != [] {
      var n := |items| - 1;
      MaskedItemLeaves(p, items[..n], key);
      MaskedLeaves(p, items[n], key);
      LastOf(MaskedItems(p, items[..n], key), Masked(p, items[n], key));
      MaskAllConcat(p, ItemLeaves(items[..n], key), Leaves(items[n], key));
    }
  }

  lemma LastOf<T>(xs: seq<T>, x: T)
    ensures (xs + [x])[..|xs + [x]| - 1] == xs && (xs + [x])[|xs + [x]| - 1] == x
  {
  }

  lemma MaskAllConcat(p: Policy, a: seq<Leaf>, b: seq<Leaf>)
    ensures MaskAll(p, a + b) == MaskAll(p, a) + MaskAll(p, b)
  {
  }

  /** Trees of one shape have as many leaves, under the same keys. */
  lemma {:induction false} SameShapeSameKeys(a: Json, b: Json, key: Option<string>)
    requires Shape(a) == Shape(b)
    ensures |Leaves(a, key)| == |Leaves(b, key)|
    ensures forall i :: 0 <= i < |Leaves(a, key)| ==> Leaves(a, key)[i].key == Leaves(b, key)[i].key
    decreases a, 1
  {
    match a
    case Obj(fields) => FieldsSameKeys(fields, b.fields);
    case Arr(items) => ItemsSameKeys(items, b.items, key);
    case _ =>
  }

  lemma {:induction false} FieldsSameKeys(a: Dict, b: Dict)
    requires FieldShapes(a) == FieldShapes(b)
    ensures |FieldLeaves(a)| == |FieldLeaves(b)|
    ensures forall i :: 0 <= i < |FieldLeaves(a)| ==> FieldLeaves(a)[i].key == FieldLeaves(b)[i].key
    decreases a, 0
  {
    if a != [] {
      LastField(a, b);
      var n := |a| - 1;
      FieldsSameKeys(a[..n], b[..n]);
      SameShapeSameKeys(a[n].value, b[n].value, Some(a[n].key));
    }
  }

  lemma {:induction false} ItemsSameKeys(a: seq<Json>, b: seq<Json>, key: Option<string>)
    requires ItemShapes(a) == ItemShapes(b)
    ensures |ItemLeaves(a, key)| == |ItemLeaves(b, key)|
    ensures forall i :: 0 <= i < |ItemLeaves(a, key)| ==> ItemLeaves(a, key)[i].key == ItemLeaves(b, key)[i].key
    decreases a, 0
  {
    if a != [] {
      LastItem(a, b);
      var n := |a| - 1;
      ItemsSameKeys(a[..n], b[..n], key);
      SameShapeSameKeys(a[n], b[n], key);
    }
  }

  lemma LastField(a: Dict, b: Dict)
    requires a != [] && FieldShapes(a) == FieldShapes(b)
    ensures |a| == |b| && FieldShapes(a[..|a| - 1]) == FieldShapes(b[..|a| - 1])
    ensures a[|a| - 1].key == b[|a| - 1].key && Shape(a[|a| - 1].value) == Shape(b[|a| - 1].value)
  {
    var n := |a| - 1;
    assert |FieldShapes(a)| == |a| && |FieldShapes(b)| == |b|;
    assert FieldShapes(a)[n] == Field(a[n].key, Shape(a[n].value));
    assert FieldShapes(b)[n] == Field(b[n].key, Shape(b[n].value));
    assert FieldShapes(a)[..n] == FieldShapes(a[..n]);
    assert FieldShapes(b)[..n] == FieldShapes(b[..n]);
  }

  lemma LastItem(a: seq<Json>, b: seq<Json>)
    requires a != [] && ItemShapes(a) == ItemShapes(b)
    ensures |a| == |b| && ItemShapes(a[..|a| - 1]) == ItemShapes(b[..|a| - 1])
    ensures Shape(a[|a| - 1]) == Shape(b[|a| - 1])
  {
    var n := |a| - 1;
    assert |ItemShapes(a)| == |a| && |ItemShapes(b)| == |b|;
    assert ItemShapes(a)[n] == Shape(a[n]) && ItemShapes(b)[n] == Shape(b[n]);
    assert ItemShapes(a)[..n] == ItemShapes(a[..n]);
    assert ItemShapes(b)[..n] == ItemShapes(b[..n]);
  }

  /** A tree is determined by its shape and its leaves. */
  lemma {:induction false} ShapeAndLeavesDetermine(a: Json, b: Json, key: Option<string>)
    requires Shape(a) == Shape(b)
    requires Leaves(a, key) == Leaves(b, key)
    ensures a == b
    decreases a, 1
  {
    match a
    case Obj(fields) => FieldsDetermined(fields, b.fields);
    case Arr(items) => ItemsDetermined(items, b.items, key);
    case _ =>
      assert Leaves(a, key) == [Leaf(key, a)] && Leaves(b, key) == [Leaf(key, b)];
      assert Leaves(a, key)[0] == Leaves(b, key)[0];
  }

  lemma {:induction false} FieldsDetermined(a: Dict, b: Dict)
    requires FieldShapes(a) == FieldShapes(b)
    requires FieldLeaves(a) == FieldLeaves(b)
    ensures a == b
    decreases a, 0
  {
    if a == [] {
      assert |FieldShapes(a)| == |b|;
    } else {
      LastField(a, b);
      var n := |a| - 1;
      var k := Some(a[n].key);
      assert FieldLeaves(a[..n]) == FieldLeaves(b[..n]) && Leaves(a[n].value, k) == Leaves(b[n].value, k) by {
        SameShapeSameKeys(a[n].value, b[n].value, k);
        SplitEqual(FieldLeaves(a[..n]), Leaves(a[n].value, k), FieldLeaves(b[..n]), Leaves(b[n].value, k));
      }
      FieldsDetermined(a[..n], b[..n]);
      ShapeAndLeavesDetermine(a[n].value, b[n].value, k);
      assert a == a[..n] + [a[n]] && b == b[..n] + [b[n]];
    }
  }

  lemma {:induction false} ItemsDetermined(a: seq<Json>, b: seq<Json>, key: Option<string>)
    requires ItemShapes(a) == ItemShapes(b)
    requires ItemLeaves(a, key) == ItemLeaves(b, key)
    ensures a == b
    decreases a, 0
  {
    if a == [] {
      assert |ItemShapes(a)| == |b|;
    } else {
      LastItem(a, b);
      var n := |a| - 1;
      assert ItemLeaves(a[..n], key) == ItemLeaves(b[..n], key) && Leaves(a[n], key) == Leaves(b[n], key) by {
        SameShapeSameKeys(a[n], b[n], key);
        SplitEqual(ItemLeaves(a[..n], key), Leaves(a[n], key), ItemLeaves(b[..n], key), Leaves(b[n], key));
      }
      ItemsDetermined(a[..n], b[..n], key);
      ShapeAndLeavesDetermine(a[n], b[n], key);
      assert a == a[..n] + [a[n]] && b == b[..n] + [b[n]];
    }
  }

  lemma SplitEqual<T>(a: seq<T>, x: seq<T>, b: seq<T>, y: seq<T>)
    requires a + x == b + y && |x| == |y|
    ensures a == b && x == y
  {
    assert a == (a + x)[..|a|] && b == (b + y)[..|b|];
    assert x == (a + x)[|a|..] && y == (b + y)[|b|..];
  }

  lemma HasMember<T>(xs: seq<T>)
    ensures xs == [] || exists x :: x in xs
  {
    if xs != [] {
      assert xs[0] in xs;
    }
  }

  lemma {:induction false} ListsCover(p: Policy, leaves: seq<Leaf>, i: nat)
    requires i < |leaves|
    ensures Sensitive(p, leaves[i].key) ==> leaves[i].key.value in SensitiveKeys(p, leaves)
    ensures !Sensitive(p, leaves[i].key) && leaves[i].value.Str? ==>
              forall m :: m in Sweep(p.patterns, leaves[i].value.s).matched ==> m in Matches(p, leaves)
    decreases |leaves|
  {
    if i < |leaves| - 1 {
      ListsCover(p, leaves[..|leaves| - 1], i);
    }
  }

  lemma {:induction false} ListsSound(p: Policy, leaves: seq<Leaf>, k: string)
    requires k in SensitiveKeys(p, leaves)
    ensures exists i :: 0 <= i < |leaves| && Sensitive(p, leaves[i].key) && leaves[i].key.value == k
    decreases |leaves|
  {
    var n := |leaves| - 1;
    if Sensitive(p, leaves[n].key) && leaves[n].key.value == k {
    } else {
      ListsSound(p, leaves[..n], k);
      var i :| 0 <= i < n && Sensitive(p, leaves[..n][i].key) && leaves[..n][i].key.value == k;
      assert leaves[i] == leaves[..n][i];
    }
  }

  /** The leaf is governed by a sensitive key, for a caller without raw access. */
  predicate Withheld(p: Policy, leaf: Leaf)
  {
    leaf.key.Some? && leaf.key.value in p.sensitive && !p.allowRaw
  }

  /** A withheld leaf becomes the mask, another string is swept, anything else stays; the key never changes. */
  ghost predicate LeafRedacted(p: Policy, before: Leaf, after: Leaf)
  {
    && after.key == before.key
    && if Withheld(p, before) then after.value == Str("***REDACTED***")
       else if before.value.Str?
       then after.value.Str? && exists matched :: Sweeps(p.patterns, before.value.s, after.value.s, matched)
       else after.value == before.value
  }

  /** `b` is `a` with each leaf redacted: containers, dict keys and their order are the same. */
  ghost predicate TreeRedacted(p: Policy, a: Json, b: Json)
  {
    && Shape(b) == Shape(a)
    && |Leaves(b, None)| == |Leaves(a, None)|
    && forall i :: 0 <= i < |Leaves(a, None)| ==> LeafRedacted(p, Leaves(a, None)[i], Leaves(b, None)[i])
  }

  /** The pattern named `m` matched while this leaf was swept. */
  ghost predicate LeafMatches(p: Policy, leaf: Leaf, m: string)
  {
    !Withheld(p, leaf) && leaf.value.Str?
        && exists out, matched :: Sweeps(p.patterns, leaf.value.s, out, matched) && m in matched
  }

  ghost predicate SomeLeafMatches(p: Policy, leaves: seq<Leaf>, m: string)
  {
    exists i :: 0 <= i < |leaves| && LeafMatches(p, leaves[i], m)
  }

  predicate SomeLeafWithheld(p: Policy, leaves: seq<Leaf>, k: string)
  {
    exists i :: 0 <= i < |leaves| && Withheld(p, leaves[i]) && leaves[i].key == Some(k)
  }

  predicate NoDuplicates(xs: seq<string>)
  {
    forall i, j :: 0 <= i < j < |xs| ==> xs[i] != xs[j]
  }

  /**
   * The two lists name the sensitive keys that govern a withheld leaf and the patterns that matched in one,
   * each once.
   */
  ghost predicate ListsRight(p: Policy, a: Json, fields: seq<string>, patterns: seq<string>)
  {
    && (forall k :: k in fields <==> SomeLeafWithheld(p, Leaves(a, None), k)) && NoDuplicates(fields)
    && (forall m :: m in patterns <==> SomeLeafMatches(p, Leaves(a, None), m)) && NoDuplicates(patterns)
  }

  lemma LeafMatchesSweep(p: Policy, leaf: Leaf, m: string)
    requires leaf.value.Str?
    ensures LeafMatches(p, leaf, m) <==> !Sensitive(p, leaf.key) && m in Sweep(p.patterns, leaf.value.s).matched
  {
    SweepIsChain(p.patterns, leaf.value.s);
    forall out, matched, texts, hits | Chain(p.patterns, leaf.value.s, out, matched, texts, hits)
      ensures matched == Sweep(p.patterns, leaf.value.s).matched
    {
      ChainIsUnique(p.patterns, leaf.value.s, out, matched, texts, hits);
    }
  }

  lemma {:induction false} MatchesSound(p: Policy, leaves: seq<Leaf>, m: string)
    requires m in Matches(p, leaves)
    ensures SomeLeafMatches(p, leaves, m)
    decreases |leaves|
  {
    var n := |leaves| - 1;
    if leaves[n].value.Str? {
      LeafMatchesSweep(p, leaves[n], m);
    }
    if !LeafMatches(p, leaves[n], m) {
      MatchesSound(p, leaves[..n], m);
      var i :| 0 <= i < n && LeafMatches(p, leaves[..n][i], m);
      assert leaves[i] == leaves[..n][i];
    }
  }

  lemma MatchesAreLeafMatches(p: Policy, leaves: seq<Leaf>, m: string)
    ensures m in Matches(p, leaves) <==> SomeLeafMatches(p, leaves, m)
  {
    if SomeLeafMatches(p, leaves, m) {
      var i: nat :| i < |leaves| && LeafMatches(p, leaves[i], m);
      LeafMatchesSweep(p, leaves[i], m);
      ListsCover(p, leaves, i);
    } else if m in Matches(p, leaves) {
      MatchesSound(p, leaves, m);
    }
  }

  lemma KeysAreWithheld(p: Policy, leaves: seq<Leaf>, k: string)
    ensures k in SensitiveKeys(p, leaves) <==> SomeLeafWithheld(p, leaves, k)
  {
    if SomeLeafWithheld(p, leaves, k) {
      var i: nat :| i < |leaves| && Withheld(p, leaves[i]) && leaves[i].key == Some(k);
      ListsCover(p, leaves, i);
    } else if k in SensitiveKeys(p, leaves) {
      ListsSound(p, leaves, k);
      var i :| 0 <= i < |leaves| && Sensitive(p, leaves[i].key) && leaves[i].key.value == k;
      assert Withheld(p, leaves[i]);
    }
  }

  /** A leaf governed by `k` comes before every leaf governed by `l`. */
  ghost predicate KeyBefore(p: Policy, leaves: seq<Leaf>, k: string, l: string)
  {
    exists a :: 0 <= a < |leaves| && Withheld(p, leaves[a]) && leaves[a].key == Some(k)
                && forall b :: 0 <= b <= a && Withheld(p, leaves[b]) ==> leaves[b].key != Some(l)
  }

  /** In the sweep of this leaf `m` matched before `n`. */
  ghost predicate MatchesFirst(p: Policy, leaf: Leaf, m: string, n: string)
  {
    leaf.value.Str? && exists out, matched ::
      Sweeps(p.patterns, leaf.value.s, out, matched) && FirstIndex(matched, m) < FirstIndex(matched, n)
  }

  /** `m` matched in a leaf before every leaf in which `n` did, or in the same leaf but earlier in its sweep. */
  ghost predicate MatchBefore(p: Policy, leaves: seq<Leaf>, m: string, n: string)
  {
    exists a :: 0 <= a < |leaves| && LeafMatches(p, leaves[a], m)
                && (forall b :: 0 <= b < a ==> !LeafMatches(p, leaves[b], n))
                && (LeafMatches(p, leaves[a], n) ==> MatchesFirst(p, leaves[a], m, n))
  }

  /** Both lists are in order of first encounter. */
  ghost predicate ListsInOrder(p: Policy, a: Json, fields: seq<string>, patterns: seq<string>)
  {
    && (forall i, j :: 0 <= i < j < |fields| ==> KeyBefore(p, Leaves(a, None), fields[i], fields[j]))
    && (forall i, j :: 0 <= i < j < |patterns| ==> MatchBefore(p, Leaves(a, None), patterns[i], patterns[j]))
  }

  lemma FirstIndexConcat(a: seq<string>, b: seq<string>, x: string)
    ensures FirstIndex(a + b, x) == if x in a then FirstIndex(a, x) else |a| + FirstIndex(b, x)
  {
    var k := FirstIndex(a + b, x);
    if x in a {
      assert (a + b)[FirstIndex(a, x)] == x;
    } else if x in b {
      assert (a + b)[|a| + FirstIndex(b, x)] == x;
    }
  }

  lemma {:induction false} KeysInOrder(p: Policy, leaves: seq<Leaf>, k: string, l: string)
    requires FirstIndex(SensitiveKeys(p, leaves), k) < FirstIndex(SensitiveKeys(p, leaves), l)
    ensures KeyBefore(p, leaves, k, l)
    decreases |leaves|
  {
    var n := |leaves| - 1;
    var before := SensitiveKeys(p, leaves[..n]);
    var last := if Sensitive(p, leaves[n].key) then [leaves[n].key.value] else [];
    FirstIndexConcat(before, last, k);
    FirstIndexConcat(before, last, l);
    if k in before {
      KeysInOrder(p, leaves[..n], k, l);
      var a :| 0 <= a < n && Withheld(p, leaves[..n][a]) && leaves[..n][a].key == Some(k)
               && forall b :: 0 <= b <= a && Withheld(p, leaves[..n][b]) ==> leaves[..n][b].key != Some(l);
      forall b | 0 <= b <= a && Withheld(p, leaves[b]) ensures leaves[b].key != Some(l) {
        assert leaves[b] == leaves[..n][b];
      }
      assert Withheld(p, leaves[a]) && leaves[a].key == Some(k);
    } else {
      KeysAreWithheld(p, leaves[..n], l);
      forall b | 0 <= b < n && Withheld(p, leaves[b]) ensures leaves[b].key != Some(l) {
        assert leaves[b] == leaves[..n][b];
      }
      assert Withheld(p, leaves[n]) && leaves[n].key == Some(k);
    }
  }

  lemma MatchBeforeGrows(p: Policy, leaves: seq<Leaf>, m: string, q: string)
    requires leaves != [] && MatchBefore(p, leaves[..|leaves| - 1], m, q)
    ensures MatchBefore(p, leaves, m, q)
  {
    hide LeafMatches; hide MatchesFirst;
    var n := |leaves| - 1;
    var a :| 0 <= a < n && LeafMatches(p, leaves[..n][a], m)
             && (forall b :: 0 <= b < a ==> !LeafMatches(p, leaves[..n][b], q))
             && (LeafMatches(p, leaves[..n][a], q) ==> MatchesFirst(p, leaves[..n][a], m, q));
    assert leaves[a] == leaves[..n][a] && forall b :: 0 <= b < a ==> leaves[b] == leaves[..n][b];
  }

  lemma MatchedLast(p: Policy, leaves: seq<Leaf>, m: string, q: string)
    requires leaves != [] && q !in Matches(p, leaves[..|leaves| - 1])
    requires var leaf := leaves[|leaves| - 1];
             && !Sensitive(p, leaf.key) && leaf.value.Str?
             && var matched := Sweep(p.patterns, leaf.value.s).matched;
                m in matched && FirstIndex(matched, m) < FirstIndex(matched, q)
    ensures MatchBefore(p, leaves, m, q)
  {
    hide Sweep; hide Sweeps; hide Matches; hide LeafMatches;
    var n := |leaves| - 1;
    SweepIsChain(p.patterns, leaves[n].value.s);
    LeafMatchesSweep(p, leaves[n], m);
    MatchesAreLeafMatches(p, leaves[..n], q);
    forall b | 0 <= b < n ensures !LeafMatches(p, leaves[b], q) {
      assert !LeafMatches(p, leaves[..n][b], q) && leaves[b] == leaves[..n][b];
    }
    assert MatchesFirst(p, leaves[n], m, q);
  }

  lemma {:induction false} MatchesInOrder(p: Policy, leaves: seq<Leaf>, m: string, q: string)
    requires FirstIndex(Matches(p, leaves), m) < FirstIndex(Matches(p, leaves), q)
    ensures MatchBefore(p, leaves, m, q)
    decreases |leaves|
  {
    hide MatchBefore; hide Sweep;
    var n := |leaves| - 1;
    var before := Matches(p, leaves[..n]);
    var last := if !Sensitive(p, leaves[n].key) && leaves[n].value.Str?
                then Sweep(p.patterns, leaves[n].value.s).matched else [];
    FirstIndexConcat(before, last, m);
    FirstIndexConcat(before, last, q);
    if m in before {
      MatchesInOrder(p, leaves[..n], m, q);
      MatchBeforeGrows(p, leaves, m, q);
    } else {
      MatchedLast(p, leaves, m, q);
    }
  }

  /** The lists name exactly the keys and patterns that they should, each once and in order of first encounter. */
  lemma ListsAreExact(p: Policy, data: Json)
    ensures ListsRight(p, data, Redact(p, data).redactedFields, Redact(p, data).matchedPatterns)
    ensures ListsInOrder(p, data, Redact(p, data).redactedFields, Redact(p, data).matchedPatterns)
  {
    var r, leaves := Redact(p, data), Leaves(data, None);
    FirstEncounter(SensitiveKeys(p, leaves));
    FirstEncounter(Matches(p, leaves));
    forall m ensures m in Matches(p, leaves) <==> SomeLeafMatches(p, leaves, m) {
      MatchesAreLeafMatches(p, leaves, m);
    }
    forall k ensures k in SensitiveKeys(p, leaves) <==> SomeLeafWithheld(p, leaves, k) {
      KeysAreWithheld(p, leaves, k);
    }
    forall i, j | 0 <= i < j < |r.redactedFields|
      ensures KeyBefore(p, leaves, r.redactedFields[i], r.redactedFields[j])
    {
      KeysInOrder(p, leaves, r.redactedFields[i], r.redactedFields[j]);
    }
    forall i, j | 0 <= i < j < |r.matchedPatterns|
      ensures MatchBefore(p, leaves, r.matchedPatterns[i], r.matchedPatterns[j])
    {
      MatchesInOrder(p, leaves, r.matchedPatterns[i], r.matchedPatterns[j]);
    }
  }

  lemma MaskedLeafIsRedacted(p: Policy, leaf: Leaf)
    ensures LeafRedacted(p, leaf, Leaf(leaf.key, MaskLeaf(p, leaf)))
  {
    if !Withheld(p, leaf) && leaf.value.Str? {
      SweepIsChain(p.patterns, leaf.value.s);
    }
  }

  /**
   * Redaction, leaf by leaf: shape, dict keys and their order survive, every leaf is masked, swept or kept as its key,
   * its type and the caller demand, the two lists are right, and the status is `none` exactly when both are empty.
   */
  lemma RedactionIsExact(p: Policy, data: Json)
    ensures var r := Redact(p, data);
            && TreeRedacted(p, data, r.data)
            && ListsRight(p, data, r.redactedFields, r.matchedPatterns)
            && (r.Status() == Clean <==> r.redactedFields == [] && r.matchedPatterns == [])
  {
    MaskedLeaves(p, data, None);
    ListsAreExact(p, data);
    var leaves := Leaves(data, None);
    forall i | 0 <= i < |leaves| ensures LeafRedacted(p, leaves[i], MaskAll(p, leaves)[i]) {
      MaskedLeafIsRedacted(p, leaves[i]);
    }
  }

  /** Status `none` means that the output is the input. */
  lemma CleanMeansUnchanged(p: Policy, data: Json)
    requires Redact(p, data).Status() == Clean
    ensures Redact(p, data).data == data
  {
    var leaves := Leaves(data, None);
    FirstEncounter(SensitiveKeys(p, leaves));
    FirstEncounter(Matches(p, leaves));
    forall i | 0 <= i < |leaves| ensures MaskAll(p, leaves)[i] == leaves[i] {
      ListsCover(p, leaves, i);
      if !Sensitive(p, leaves[i].key) && leaves[i].value.Str? {
        var matched := Sweep(p.patterns, leaves[i].value.s).matched;
        HasMember(matched);
        IdleSweep(p.patterns, leaves[i].value.s);
      }
    }
    MaskedLeaves(p, data, None);
    ShapeAndLeavesDetermine(Redact(p, data).data, data, None);
  }

  /**
   * Redacting what was redacted changes no data exactly when no string leaf, but for those that are masked anyway,
   * changes in a second sweep.
   */
  lemma RedactingTwice(p: Policy, data: Json)
    ensures var once := Redact(p, data).data;
            Redact(p, once).data == once <==>
            forall i :: 0 <= i < |Leaves(once, None)| && !Withheld(p, Leaves(once, None)[i])
                        && Leaves(once, None)[i].value.Str? ==>
              var s := Leaves(once, None)[i].value.s; Sweep(p.patterns, s).text == s
  {
    var once := Redact(p, data).data;
    var before, leaves := Leaves(data, None), Leaves(once, None);
    MaskedLeaves(p, data, None);
    MaskedLeaves(p, once, None);
    assert forall i :: 0 <= i < |leaves| ==> leaves[i] == Leaf(before[i].key, MaskLeaf(p, before[i]));
    if forall i :: 0 <= i < |leaves| && !Withheld(p, leaves[i]) && leaves[i].value.Str? ==>
         Sweep(p.patterns, leaves[i].value.s).text == leaves[i].value.s {
      forall i | 0 <= i < |leaves| ensures MaskAll(p, leaves)[i] == leaves[i] {
      }
      ShapeAndLeavesDetermine(Redact(p, once).data, once, None);
    } else {
      var i :| 0 <= i < |leaves| && !Withheld(p, leaves[i]) && leaves[i].value.Str?
               && Sweep(p.patterns, leaves[i].value.s).text != leaves[i].value.s;
      assert MaskAll(p, leaves)[i] != leaves[i];
    }
  }

  /** When no mask leaves or uncovers a match, redacting is idempotent. */
  lemma RedactionIsStable(p: Policy, data: Json)
    requires forall i :: 0 <= i < |p.patterns| ==> Clears(p.patterns[i])
    requires forall i, j :: 0 <= i < j < |p.patterns| ==> Keeps(p.patterns[i], p.patterns[j])
    ensures Redact(p, Redact(p, data).data).data == Redact(p, data).data
  {
    hide Sweep; hide Clears; hide Keeps;
    var before, leaves := Leaves(data, None), Leaves(Redact(p, data).data, None);
    MaskedLeaves(p, data, None);
    forall i | 0 <= i < |leaves| && !Withheld(p, leaves[i]) && leaves[i].value.Str?
      ensures Sweep(p.patterns, leaves[i].value.s).text == leaves[i].value.s
    {
      assert leaves[i] == Leaf(before[i].key, MaskLeaf(p, before[i]));
      NothingLeftToMatch(p.patterns, before[i].value.s);
      IdleSweep(p.patterns, leaves[i].value.s);
    }
    RedactingTwice(p, data);
  }

  lemma {:induction false} NothingSensitiveWhenRaw(p: Policy, leaves: seq<Leaf>)
    requires p.allowRaw
    ensures SensitiveKeys(p, leaves) == []
  {
    if leaves != [] {
      NothingSensitiveWhenRaw(p, leaves[..|leaves| - 1]);
    }
  }

  /** The masking layer is off under allowRaw; the sweep is not. */
  lemma RawStillSwept(p: Policy, data: Json, i: nat)
    requires p.allowRaw && i < |Leaves(data, None)|
    ensures Redact(p, data).redactedFields == []
    ensures Leaves(data, None)[i].value.Str? ==>
              |Leaves(Redact(p, data).data, None)| == |Leaves(data, None)|
              && Leaves(Redact(p, data).data, None)[i].value
                 == Str(Sweep(p.patterns, Leaves(data, None)[i].value.s).text)
  {
    MaskedLeaves(p, data, None);
    var leaves := Leaves(data, None);
    NothingSensitiveWhenRaw(p, leaves);
  }

  // ---------------------------------------------------------------- non-interference

  /** Trees of one shape that differ only at leaves governed by a sensitive key. */
  ghost predicate AgreeOutsideSensitive(p: Policy, a: Json, b: Json)
  {
    && Shape(a) == Shape(b)
    && |Leaves(a, None)| == |Leaves(b, None)|
    && forall i :: 0 <= i < |Leaves(a, None)| ==>
         Sensitive(p, Leaves(a, None)[i].key) || Leaves(a, None)[i] == Leaves(b, None)[i]
  }

  lemma {:induction false} ListsIgnoreSensitiveValues(p: Policy, a: seq<Leaf>, b: seq<Leaf>)
    requires |a| == |b|
    requires forall i :: 0 <= i < |a| ==> a[i].key == b[i].key && (Sensitive(p, a[i].key) || a[i] == b[i])
    ensures SensitiveKeys(p, a) == SensitiveKeys(p, b)
    ensures Matches(p, a) == Matches(p, b)
    decreases |a|
  {
    if a != [] {
      ListsIgnoreSensitiveValues(p, a[..|a| - 1], b[..|b| - 1]);
      assert a[|a| - 1].key == b[|a| - 1].key;
    }
  }

  /** The values of sensitive leaves leave no trace in the data or in the two lists. */
  lemma RedactionNonInterference(p: Policy, a: Json, b: Json)
    requires AgreeOutsideSensitive(p, a, b)
    ensures Redact(p, a) == Redact(p, b)
  {
    SameShapeSameKeys(a, b, None);
    ListsIgnoreSensitiveValues(p, Leaves(a, None), Leaves(b, None));
    MaskedLeaves(p, a, None);
    MaskedLeaves(p, b, None);
    assert MaskAll(p, Leaves(a, None)) == MaskAll(p, Leaves(b, None));
    ShapeAndLeavesDetermine(Redact(p, a).data, Redact(p, b).data, None);
  }
}
