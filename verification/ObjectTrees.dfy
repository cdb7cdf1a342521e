/** Every JSON tree is the unfolding of some value made of object literals, so results can be converted again. */
module ObjectTrees {
  import opened ObjectGraph
  import opened ObjectUnfolding

  /** The keys of every record of the tree are distinct. */
  ghost predicate GoodKeys(j: Json)
    decreases j
  {
    && (j.JObject? ==> Distinct(j.keys) && |j.keys| == |j.values|)
    && forall i :: 0 <= i < |JsonChildren(j)| ==> GoodKeys(JsonChildren(j)[i])
  }

  lemma {:induction false} KeptKeysDistinct(keys: seq<string>, ss: seq<Sanitized>)
    requires |keys| == |ss| && Distinct(keys)
    requires forall i :: 0 <= i < |ss| && ss[i].Kept? ==> GoodKeys(ss[i].json)
    ensures var (ks, js) := KeptEntries(keys, ss); Distinct(ks) && forall i :: 0 <= i < |js| ==> GoodKeys(js[i])
  {
    if keys != [] {
      KeptKeysDistinct(keys[1..], ss[1..]);
      var rest := KeptEntries(keys[1..], ss[1..]);
      assert keys[0] !in keys[1..];
      assert forall i :: 0 <= i < |rest.0| ==> rest.0[i] in rest.0;
    }
  }

  lemma {:induction false} SanitizedHasGoodKeys(h: Heap, v: Value, seen: set<Ref>)
    requires WellFormed(h) && Known(h, v) && Sanitize(h, v, seen).Kept?
    ensures GoodKeys(Sanitize(h, v, seen).json)
    decreases Left(h, seen)
  {
    if v.Reference? && !h[v.ref].DateNode? && v.ref !in seen {
      LeftShrinks(h, seen, v.ref);
      var children := Children(h[v.ref]);
      var ss := SanitizeAll(h, children, seen + {v.ref}).value;
      forall i | 0 <= i < |children| && ss[i].Kept? ensures GoodKeys(ss[i].json) {
        SanitizedHasGoodKeys(h, children[i], seen + {v.ref});
      }
      if h[v.ref].ObjectNode? {
        KeptKeysDistinct(h[v.ref].keys, ss);
      }
    }
  }

  ghost predicate Extends(h: Heap, h': Heap) {
    forall r <- h :: r in h' && h'[r] == h[r]
  }

  ghost predicate Below(h: Heap, next: Ref) {
    forall r <- h :: r < next
  }

  lemma {:induction false} UnfoldsStill(h: Heap, h': Heap, v: Value, j: Json)
    requires Extends(h, h') && Unfolds(h, v, j, true)
    ensures Unfolds(h', v, j, true)
    decreases j
  {
    forall i | 0 <= i < |JsonChildren(j)| ensures Unfolds(h', Children(h'[v.ref])[i], JsonChildren(j)[i], true) {
      UnfoldsStill(h, h', Children(h[v.ref])[i], JsonChildren(j)[i]);
    }
  }

  /** A value for the tree, in a heap that extends the given one. */
  lemma {:induction false} Materialise(h: Heap, next: Ref, j: Json) returns (h': Heap, next': Ref, v: Value)
    requires WellFormed(h) && Below(h, next) && GoodKeys(j)
    ensures WellFormed(h') && Below(h', next') && Extends(h, h') && Known(h', v) && Unfolds(h', v, j, true)
    decreases j, 0
  {
    assert forall i :: 0 <= i < |JsonChildren(j)| ==> GoodKeys(JsonChildren(j)[i]);
    match j
    case JNull => h', next', v := h, next, Null;
    case JBool(b) => h', next', v := h, next, Boolean(b);
    case JNumber(x) => h', next', v := h, next, Numeric(Finite(x));
    case JString(s) => h', next', v := h, next, Text(s);
    case JArray(items) =>
      assert JsonChildren(j) == items;
      var g, n, vs := MaterialiseAll(h, next, items);
      h', next', v := g[n := ArrayNode(vs)], n + 1, Reference(n);
      NodeAdded(g, n, ArrayNode(vs), j);
    case JObject(keys, values) =>
      assert JsonChildren(j) == values;
      var g, n, vs := MaterialiseAll(h, next, values);
      h', next', v := g[n := ObjectNode(ObjectPrototype, keys, vs)], n + 1, Reference(n);
      NodeAdded(g, n, ObjectNode(ObjectPrototype, keys, vs), j);
  }

  lemma {:induction false} MaterialiseAll(h: Heap, next: Ref, js: seq<Json>)
    returns (h': Heap, next': Ref, vs: seq<Value>)
    requires WellFormed(h) && Below(h, next) && forall i :: 0 <= i < |js| ==> GoodKeys(js[i])
    ensures WellFormed(h') && Below(h', next') && Extends(h, h') && |vs| == |js|
    ensures forall i :: 0 <= i < |js| ==> Known(h', vs[i]) && Unfolds(h', vs[i], js[i], true)
    decreases js, 1
  {
    if js == [] {
      h', next', vs := h, next, [];
    } else {
      var g, n, v := Materialise(h, next, js[0]);
      var rest;
      h', next', rest := MaterialiseAll(g, n, js[1..]);
      vs := [v] + rest;
      UnfoldsStill(g, h', v, js[0]);
      assert forall i :: 0 < i < |js| ==> js[i] == js[1..][i - 1] && vs[i] == rest[i - 1];
    }
  }

  lemma NodeAdded(g: Heap, n: Ref, node: Node, j: Json)
    requires WellFormed(g) && Below(g, n) && (node.ObjectNode? ==> Distinct(node.keys) && |node.keys| == |node.values|)
    requires (j.JArray? || j.JObject?) && SameShape(node, j, true)
    requires forall i :: 0 <= i < |Children(node)| ==>
             Known(g, Children(node)[i]) && Unfolds(g, Children(node)[i], JsonChildren(j)[i], true)
    ensures var h := g[n := node];
            WellFormed(h) && Below(h, n + 1) && Extends(g, h) && Unfolds(h, Reference(n), j, true)
  {
    var h := g[n := node];
    forall i | 0 <= i < |Children(node)| ensures Unfolds(h, Children(node)[i], JsonChildren(j)[i], true) {
      UnfoldsStill(g, h, Children(node)[i], JsonChildren(j)[i]);
    }
    forall r, i | r in g && 0 <= i < |Children(g[r])| ensures Known(h, Children(g[r])[i]) {
      assert Known(g, Children(g[r])[i]);
    }
  }

  /** What sanitizing yields can be written down as a value; sanitizing that value again changes nothing. */
  lemma SanitizedTwice(h: Heap, v: Value) returns (h': Heap, v': Value)
    requires WellFormed(h) && Known(h, v) && Sanitize(h, v, {}).Kept?
    ensures WellFormed(h') && Known(h', v') && Unfolds(h', v', Sanitize(h, v, {}).json, true)
    ensures Sanitize(h', v', {}) == Sanitize(h, v, {}) && IsProtocolValue(h', v', false, {})
  {
    SanitizedHasGoodKeys(h, v, {});
    var next;
    h', next, v' := Materialise(map[], 0, Sanitize(h, v, {}).json);
    SanitizeIsIdempotent(h, v, h', v');
  }
}
