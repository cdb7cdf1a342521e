/** JSON trees as unfoldings of values; lossy sanitizing; and what the codec accepts. */
module ObjectUnfolding {
  import opened Common
  import opened ObjectGraph

  function JsonChildren(j: Json): seq<Json> {
    match j
    case JArray(items) => items
    case JObject(_, values) => values
    case _ => []
  }

  /** The node has the shape of the tree node; strict: records have the prototype of object literals. */
  predicate SameShape(n: Node, j: Json, strict: bool) {
    && |Children(n)| == |JsonChildren(j)|
    && match j
       case JArray(_) => n.ArrayNode?
       case JObject(keys, _) => n.ObjectNode? && n.keys == keys
         && (if strict then n.prototype.ObjectPrototype? else IsPlain(n))
       case _ => false
  }

  /** The tree is the unfolding of the value. */
  ghost predicate Unfolds(h: Heap, v: Value, j: Json, strict: bool)
    decreases j
  {
    match j
    case JNull => v.Null?
    case JBool(b) => v == Boolean(b)
    case JNumber(x) => v == Numeric(Finite(x))
    case JString(s) => v == Text(s)
    case _ =>
      && v.Reference? && v.ref in h && SameShape(h[v.ref], j, strict)
      && forall i :: 0 <= i < |JsonChildren(j)| ==> Unfolds(h, Children(h[v.ref])[i], JsonChildren(j)[i], strict)
  }

  /** A value has at most one unfolding. */
  lemma {:induction false} UnfoldingIsUnique(h: Heap, v: Value, j: Json, k: Json, strict: bool)
    requires Unfolds(h, v, j, strict) && Unfolds(h, v, k, strict)
    ensures j == k
    decreases j
  {
    if v.Reference? {
      forall i | 0 <= i < |JsonChildren(j)| ensures JsonChildren(j)[i] == JsonChildren(k)[i] {
        UnfoldingIsUnique(h, Children(h[v.ref])[i], JsonChildren(j)[i], JsonChildren(k)[i], strict);
      }
      assert JsonChildren(j) == JsonChildren(k);
    }
  }

  /** What the conversion returns is the unfolding of the value. */
  lemma {:induction false} ConvertedIsUnfolding(h: Heap, v: Value, seen: set<Ref>)
    requires WellFormed(h) && Known(h, v) && ToJson(h, v, seen).Converted?
    ensures Unfolds(h, v, ToJson(h, v, seen).value, false)
    decreases Left(h, seen)
  {
    if v.Reference? {
      var j := ToJson(h, v, seen).value;
      var children := Children(h[v.ref]);
      forall i | 0 <= i < |children| ensures Unfolds(h, children[i], JsonChildren(j)[i], false) {
        LeftShrinks(h, seen, v.ref);
        ConvertedIsUnfolding(h, children[i], seen + {v.ref});
      }
    }
  }

  function Size(j: Json): nat
    decreases j
  {
    match j
    case JArray(items) => 1 + SizeOfAll(items)
    case JObject(_, values) => 1 + SizeOfAll(values)
    case _ => 1
  }

  function SizeOfAll(js: seq<Json>): nat
    decreases js
  {
    if js == [] then 0 else Size(js[0]) + SizeOfAll(js[1..])
  }

  lemma {:induction false} ChildIsSmaller(js: seq<Json>, i: nat)
    requires i < |js|
    ensures Size(js[i]) <= SizeOfAll(js)
  {
    if i > 0 {
      ChildIsSmaller(js[1..], i - 1);
    }
  }

  /** Whatever the object unfolds to is larger than the tree. */
  ghost predicate Exceeds(h: Heap, v: Value, j: Json, strict: bool) {
    forall k :: Unfolds(h, v, k, strict) ==> Size(j) < Size(k)
  }

  /** The objects of the set exceed the tree, so a value that unfolds to it is not among them. */
  ghost predicate Above(h: Heap, seen: set<Ref>, j: Json, strict: bool) {
    forall r <- seen :: Exceeds(h, Reference(r), j, strict)
  }

  lemma NotAbove(h: Heap, seen: set<Ref>, v: Value, j: Json, strict: bool)
    requires Above(h, seen, j, strict) && v.Reference? && Unfolds(h, v, j, strict)
    ensures v.ref !in seen
  {
    assert !Exceeds(h, Reference(v.ref), j, strict);
  }

  lemma AboveChild(h: Heap, seen: set<Ref>, v: Value, j: Json, i: nat, strict: bool)
    requires Above(h, seen, j, strict) && v.Reference? && Unfolds(h, v, j, strict) && i < |JsonChildren(j)|
    ensures Above(h, seen + {v.ref}, JsonChildren(j)[i], strict)
  {
    ChildIsSmaller(JsonChildren(j), i);
    assert Size(j) == 1 + SizeOfAll(JsonChildren(j));
    forall r, k | r in seen + {v.ref} && Unfolds(h, Reference(r), k, strict)
      ensures Size(JsonChildren(j)[i]) < Size(k)
    {
      if r == v.ref {
        UnfoldingIsUnique(h, v, j, k, strict);
      } else {
        assert Exceeds(h, Reference(r), j, strict);
      }
    }
  }

  // Sanitizing

  datatype Sanitized = Throws | Dropped | Kept(json: Json)

  function NumberText(n: Number): string {
    match n
    case NaN => "NaN"
    case PositiveInfinity => "Infinity"
    case NegativeInfinity => "-Infinity"
    case Finite(_) => ""
  }

  /** Array elements that are dropped leave null behind. */
  function OrNull(ss: seq<Sanitized>): (r: seq<Json>)
    ensures |r| == |ss|
    ensures forall i :: 0 <= i < |ss| ==> r[i] == if ss[i].Kept? then ss[i].json else JNull
  {
    if ss == [] then [] else [if ss[0].Kept? then ss[0].json else JNull] + OrNull(ss[1..])
  }

  /** Record entries that are dropped leave nothing behind. */
  function KeptEntries(keys: seq<string>, ss: seq<Sanitized>): (r: (seq<string>, seq<Json>))
    requires |keys| == |ss|
    ensures |r.0| == |r.1| <= |keys| && forall k <- r.0 :: k in keys
  {
    if keys == [] then ([], [])
    else
      var rest := KeptEntries(keys[1..], ss[1..]);
      if ss[0].Kept? then ([keys[0]] + rest.0, [ss[0].json] + rest.1) else rest
  }

  function BuildSanitized(n: Node, ss: seq<Sanitized>): Json
    requires !n.DateNode? && (n.ObjectNode? ==> |n.keys| == |ss|)
  {
    if n.ArrayNode? then JArray(OrNull(ss))
    else var entries := KeptEntries(n.keys, ss); JObject(entries.0, entries.1)
  }

  function Sanitize(h: Heap, v: Value, seen: set<Ref>): Sanitized
    requires WellFormed(h) && Known(h, v)
    decreases Left(h, seen), 0
  {
    match v
    case Null => Kept(JNull)
    case Boolean(b) => Kept(JBool(b))
    case Text(s) => Kept(JString(s))
    case Numeric(n) => if n.Finite? then Kept(JNumber(n.value)) else Kept(JString(NumberText(n)))
    case BigInt(decimal) => Kept(JString(decimal))
    case Undefined => Dropped
    case Callable => Dropped
    case Reference(r) =>
      if h[r].DateNode? then (if h[r].iso.Some? then Kept(JString(h[r].iso.value)) else Throws)
      else if r in seen then Kept(JString("[Circular]"))
      else
        LeftShrinks(h, seen, r);
        var children := SanitizeAll(h, Children(h[r]), seen + {r});
        if children.None? then Throws else Kept(BuildSanitized(h[r], children.value))
  }

  function SanitizeAll(h: Heap, vs: seq<Value>, seen: set<Ref>): (c: Option<seq<Sanitized>>)
    requires WellFormed(h) && forall i :: 0 <= i < |vs| ==> Known(h, vs[i])
    ensures c.Some? ==> |c.value| == |vs|
    ensures c.Some? ==> forall i :: 0 <= i < |vs| ==> !c.value[i].Throws? && c.value[i] == Sanitize(h, vs[i], seen)
    ensures c.None? ==> exists i :: 0 <= i < |vs| && Sanitize(h, vs[i], seen).Throws?
    decreases Left(h, seen), 1 + |vs|
  {
    if vs == [] then Some([])
    else
      var first := Sanitize(h, vs[0], seen);
      if first.Throws? then None
      else
        var rest := SanitizeAll(h, vs[1..], seen);
        if rest.None? then
          assert forall i :: 0 <= i < |vs[1..]| ==> vs[1..][i] == vs[i + 1];
          None
        else Some([first] + rest.value)
  }

  lemma {:induction false} AllKept(keys: seq<string>, ss: seq<Sanitized>, js: seq<Json>)
    requires |keys| == |ss| == |js| && forall i :: 0 <= i < |ss| ==> ss[i] == Kept(js[i])
    ensures OrNull(ss) == js && KeptEntries(keys, ss) == (keys, js)
  {
    if keys != [] {
      AllKept(keys[1..], ss[1..], js[1..]);
      assert [keys[0]] + keys[1..] == keys && [js[0]] + js[1..] == js;
    }
  }

  /** Sanitizing a value that has an unfolding yields that unfolding. */
  lemma {:induction false} SanitizeKeepsTrees(h: Heap, v: Value, j: Json, seen: set<Ref>, strict: bool)
    requires WellFormed(h) && Known(h, v) && Unfolds(h, v, j, strict) && Above(h, seen, j, strict)
    ensures Sanitize(h, v, seen) == Kept(j)
    decreases j
  {
    if v.Reference? {
      var children := Children(h[v.ref]);
      NotAbove(h, seen, v, j, strict);
      forall i | 0 <= i < |children| ensures Sanitize(h, children[i], seen + {v.ref}) == Kept(JsonChildren(j)[i]) {
        AboveChild(h, seen, v, j, i, strict);
        SanitizeKeepsTrees(h, children[i], JsonChildren(j)[i], seen + {v.ref}, strict);
      }
      var ss := SanitizeAll(h, children, seen + {v.ref});
      AllKept(if h[v.ref].ObjectNode? then h[v.ref].keys else seq(|children|, _ => ""), ss.value, JsonChildren(j));
    }
  }

  /** The values the codec accepts: optional allows a missing property. */
  predicate IsProtocolValue(h: Heap, v: Value, optional: bool, ancestors: set<Ref>)
    requires WellFormed(h) && Known(h, v)
    decreases Left(h, ancestors)
  {
    match v
    case Undefined => optional
    case Callable => false
    case BigInt(_) => false
    case Reference(r) =>
      && r !in ancestors
      && (h[r].ArrayNode? || (h[r].ObjectNode? && h[r].prototype.ObjectPrototype?))
      && (LeftShrinks(h, ancestors, r);
          forall i :: 0 <= i < |Children(h[r])| ==>
            IsProtocolValue(h, Children(h[r])[i], h[r].ObjectNode?, ancestors + {r}))
    case _ => true
  }

  /** Every tree whose records are object literals is accepted. */
  lemma {:induction false} TreesAreProtocolValues(h: Heap, v: Value, j: Json, optional: bool, ancestors: set<Ref>)
    requires WellFormed(h) && Known(h, v) && Unfolds(h, v, j, true) && Above(h, ancestors, j, true)
    ensures IsProtocolValue(h, v, optional, ancestors)
    decreases j
  {
    if v.Reference? {
      var n := h[v.ref];
      NotAbove(h, ancestors, v, j, true);
      forall i | 0 <= i < |Children(n)| ensures IsProtocolValue(h, Children(n)[i], n.ObjectNode?, ancestors + {v.ref}) {
        AboveChild(h, ancestors, v, j, i, true);
        TreesAreProtocolValues(h, Children(n)[i], JsonChildren(j)[i], n.ObjectNode?, ancestors + {v.ref});
      }
    }
  }

  /** Sanitizing what sanitizing yielded, in whatever heap it lies now, changes nothing; and the codec accepts it. */
  lemma SanitizeIsIdempotent(h: Heap, v: Value, h': Heap, v': Value)
    requires WellFormed(h) && Known(h, v) && WellFormed(h') && Known(h', v')
    requires Sanitize(h, v, {}).Kept? && Unfolds(h', v', Sanitize(h, v, {}).json, true)
    ensures Sanitize(h', v', {}) == Sanitize(h, v, {})
    ensures IsProtocolValue(h', v', false, {})
  {
    SanitizeKeepsTrees(h', v', Sanitize(h, v, {}).json, {}, true);
    TreesAreProtocolValues(h', v', Sanitize(h, v, {}).json, false, {});
  }

  /** Where the strict conversion succeeds, sanitizing gives the same result. */
  lemma SanitizeAgreesWithToJson(h: Heap, v: Value)
    requires WellFormed(h) && Known(h, v) && ToJson(h, v, {}).Converted?
    ensures Sanitize(h, v, {}) == Kept(ToJson(h, v, {}).value)
  {
    ConvertedIsUnfolding(h, v, {});
    SanitizeKeepsTrees(h, v, ToJson(h, v, {}).value, {}, false);
  }

  // Sanitizing throws on invalid dates only

  /** The path avoids the set and repeats no object. */
  predicate Free(path: seq<Value>, seen: set<Ref>) {
    && (forall i :: 0 <= i < |path| && path[i].Reference? ==> path[i].ref !in seen)
    && (forall i, j :: 0 <= i < j < |path| && path[i].Reference? ==> path[i] != path[j])
  }

  predicate IsInvalidDate(h: Heap, v: Value) {
    v.Reference? && v.ref in h && h[v.ref].DateNode? && h[v.ref].iso.None?
  }

  /** The path leads to an invalid date; only what comes before the date must avoid the set. */
  ghost predicate LeadsToInvalidDate(h: Heap, v: Value, path: seq<Value>, seen: set<Ref>) {
    IsPath(h, v, path) && IsInvalidDate(h, path[|path| - 1]) && Free(path[..|path| - 1], seen)
  }

  lemma LongerFree(v: Value, rest: seq<Value>, seen: set<Ref>)
    requires v.Reference? && v.ref !in seen && Free(rest, seen + {v.ref})
    ensures Free([v] + rest, seen)
  {
    var path := [v] + rest;
    assert forall i :: 0 <= i < |rest| ==> path[i + 1] == rest[i];
    forall i | 0 < i < |path| && path[i].Reference? ensures path[i].ref !in seen && path[i] != v {
      assert path[i] == rest[i - 1];
    }
    forall i, j | 0 < i < j < |path| && path[i].Reference? ensures path[i] != path[j] {
      assert path[i] == rest[i - 1] && path[j] == rest[j - 1];
    }
  }

  lemma LongerLead(h: Heap, v: Value, rest: seq<Value>, seen: set<Ref>)
    requires v.Reference? && v.ref !in seen && rest != [] && IsChild(h, v, rest[0])
    requires LeadsToInvalidDate(h, rest[0], rest, seen + {v.ref})
    ensures LeadsToInvalidDate(h, v, [v] + rest, seen)
  {
    LongerPath(h, v, rest, seen);
    LongerFree(v, rest[..|rest| - 1], seen);
    assert ([v] + rest)[..|rest|] == [v] + rest[..|rest| - 1];
  }

  lemma ThrowingChild(h: Heap, v: Value, seen: set<Ref>) returns (i: nat)
    requires WellFormed(h) && Known(h, v) && Sanitize(h, v, seen).Throws? && !IsInvalidDate(h, v)
    ensures v.Reference? && v.ref !in seen && i < |Children(h[v.ref])| && IsChild(h, v, Children(h[v.ref])[i])
    ensures Sanitize(h, Children(h[v.ref])[i], seen + {v.ref}).Throws?
  {
    var children := Children(h[v.ref]);
    assert SanitizeAll(h, children, seen + {v.ref}).None?;
    i :| 0 <= i < |children| && Sanitize(h, children[i], seen + {v.ref}).Throws?;
  }

  lemma {:induction false} ThrowingHasPath(h: Heap, v: Value, seen: set<Ref>) returns (path: seq<Value>)
    requires WellFormed(h) && Known(h, v) && Sanitize(h, v, seen).Throws?
    ensures LeadsToInvalidDate(h, v, path, seen)
    decreases Left(h, seen)
  {
    if IsInvalidDate(h, v) {
      path := [v];
    } else {
      hide LeadsToInvalidDate, Sanitize, IsInvalidDate;
      var i := ThrowingChild(h, v, seen);
      LeftShrinks(h, seen, v.ref);
      var child := Children(h[v.ref])[i];
      var rest := ThrowingHasPath(h, child, seen + {v.ref});
      LeadStarts(h, child, rest, seen + {v.ref});
      path := [v] + rest;
      LongerLead(h, v, rest, seen);
    }
  }

  lemma LeadStarts(h: Heap, v: Value, path: seq<Value>, seen: set<Ref>)
    requires LeadsToInvalidDate(h, v, path, seen)
    ensures path != [] && path[0] == v
  {
  }

  lemma {:induction false} PathMakesItThrow(h: Heap, v: Value, seen: set<Ref>, path: seq<Value>)
    requires WellFormed(h) && Known(h, v) && LeadsToInvalidDate(h, v, path, seen)
    ensures Sanitize(h, v, seen).Throws?
    decreases |path|
  {
    if |path| > 1 {
      assert IsChild(h, path[0], path[1]);
      var children := Children(h[v.ref]);
      var k :| 0 <= k < |children| && children[k] == path[1];
      var rest := path[1..];
      assert forall i :: 0 <= i < |rest| ==> rest[i] == path[i + 1];
      assert rest[..|rest| - 1] == path[..|path| - 1][1..];
      assert path[..|path| - 1][0] == v;
      PathMakesItThrow(h, path[1], seen + {v.ref}, rest);
    }
  }

  /** An invalid date can be reached from the value. */
  ghost predicate ReachesInvalidDate(h: Heap, v: Value) {
    exists path :: IsPath(h, v, path) && IsInvalidDate(h, path[|path| - 1])
  }

  /** Cutting out what lies between two visits of an object leaves a path with the same ends. */
  lemma CutPath(h: Heap, v: Value, path: seq<Value>, i: nat, j: nat)
    requires IsPath(h, v, path) && i < j < |path| && path[i] == path[j]
    ensures IsPath(h, v, path[..i] + path[j..])
    ensures (path[..i] + path[j..])[|path| - (j - i) - 1] == path[|path| - 1]
  {
    var cut := path[..i] + path[j..];
    forall k | 0 <= k < |cut| - 1 ensures IsChild(h, cut[k], cut[k + 1]) {
      if k + 1 < i {
        assert IsChild(h, path[k], path[k + 1]);
      } else if k + 1 == i {
        assert IsChild(h, path[i - 1], path[i]);
      } else {
        assert IsChild(h, path[k + (j - i)], path[k + 1 + (j - i)]);
      }
    }
  }

  /** What can be reached can be reached without repeating an object. */
  lemma {:induction false} SimplePath(h: Heap, v: Value, path: seq<Value>) returns (simple: seq<Value>)
    requires IsPath(h, v, path) && IsInvalidDate(h, path[|path| - 1])
    ensures LeadsToInvalidDate(h, v, simple, {})
    decreases |path|
  {
    var init := path[..|path| - 1];
    if Free(init, {}) {
      simple := path;
    } else {
      var i, j :| 0 <= i < j < |init| && init[i].Reference? && init[i] == init[j];
      assert path[i] == path[j];
      CutPath(h, v, path, i, j);
      simple := SimplePath(h, v, path[..i] + path[j..]);
    }
  }

  /** Sanitizing fails exactly when an invalid date can be reached. */
  lemma SanitizeThrowsExactly(h: Heap, v: Value)
    requires WellFormed(h) && Known(h, v)
    ensures Sanitize(h, v, {}).Throws? <==> ReachesInvalidDate(h, v)
  {
    hide Sanitize;
    if Sanitize(h, v, {}).Throws? {
      var path := ThrowingHasPath(h, v, {});
      assert IsPath(h, v, path);
    } else {
      forall path | IsPath(h, v, path) ensures !IsInvalidDate(h, path[|path| - 1]) {
        if IsInvalidDate(h, path[|path| - 1]) {
          var simple := SimplePath(h, v, path);
          PathMakesItThrow(h, v, {}, simple);
        }
      }
    }
  }

  /** A date without an ISO form is such a value by itself. */
  lemma InvalidDateThrows()
    ensures var h: Heap := map[0 := DateNode(None)];
            WellFormed(h) && Sanitize(h, Reference(0), {}).Throws?
  {
  }

  /** What stands for a value that JSON has no form for. */
  lemma SanitizedLeaves(h: Heap, v: Value, seen: set<Ref>)
    requires WellFormed(h) && Known(h, v)
    ensures v == Numeric(NaN) ==> Sanitize(h, v, seen) == Kept(JString("NaN"))
    ensures v == Numeric(PositiveInfinity) ==> Sanitize(h, v, seen) == Kept(JString("Infinity"))
    ensures v == Numeric(NegativeInfinity) ==> Sanitize(h, v, seen) == Kept(JString("-Infinity"))
    ensures v.BigInt? ==> Sanitize(h, v, seen) == Kept(JString(v.decimal))
    ensures v.Undefined? || v.Callable? <==> Sanitize(h, v, seen).Dropped?
    ensures v.Reference? && h[v.ref].DateNode? && h[v.ref].iso.Some? ==>
              Sanitize(h, v, seen) == Kept(JString(h[v.ref].iso.value))
    ensures v.Reference? && !h[v.ref].DateNode? && v.ref in seen ==> Sanitize(h, v, seen) == Kept(JString("[Circular]"))
  {
  }

  /** An array keeps its length, with null for what is dropped; a record loses just the entries that are dropped. */
  lemma SanitizedChildren(h: Heap, r: Ref, seen: set<Ref>, i: nat)
    requires WellFormed(h) && r in h && r !in seen && i < |Children(h[r])| && !h[r].DateNode?
    requires !Sanitize(h, Reference(r), seen).Throws?
    ensures Sanitize(h, Reference(r), seen).Kept? && Known(h, Children(h[r])[i])
    ensures var (j, c) := (Sanitize(h, Reference(r), seen).json, Sanitize(h, Children(h[r])[i], seen + {r}));
            if h[r].ArrayNode? then
              j.JArray? && |j.items| == |Children(h[r])| && j.items[i] == if c.Kept? then c.json else JNull
            else
              && j.JObject? && |j.keys| == |j.values| && (h[r].keys[i] in j.keys <==> c.Kept?)
              && forall k :: 0 <= k < |j.keys| && j.keys[k] == h[r].keys[i] ==> j.values[k] == c.json
  {
    var children := SanitizeAll(h, Children(h[r]), seen + {r}).value;
    if h[r].ObjectNode? {
      EntryKept(h[r].keys, children, i);
    }
  }

  lemma {:induction false} EntryKept(keys: seq<string>, ss: seq<Sanitized>, i: nat)
    requires |keys| == |ss| && i < |keys| && Distinct(keys)
    ensures var entries := KeptEntries(keys, ss);
            && (keys[i] in entries.0 <==> ss[i].Kept?)
            && forall k :: 0 <= k < |entries.0| && entries.0[k] == keys[i] ==> ss[i].Kept? && entries.1[k] == ss[i].json
  {
    var rest := KeptEntries(keys[1..], ss[1..]);
    assert forall k <- keys[1..] :: k != keys[0];
    if i > 0 {
      EntryKept(keys[1..], ss[1..], i - 1);
      assert keys[1..][i - 1] == keys[i] && ss[1..][i - 1] == ss[i];
    }
    var entries := KeptEntries(keys, ss);
    forall k | 0 <= k < |entries.0| && entries.0[k] == keys[i] ensures ss[i].Kept? && entries.1[k] == ss[i].json {
      if !ss[0].Kept? {
        assert entries == rest && rest.0[k] in rest.0;
      } else if k > 0 {
        assert entries.0[k] == rest.0[k - 1] && entries.1[k] == rest.1[k - 1] && rest.0[k - 1] in rest.0;
      }
    }
  }
}
