/**
 * JavaScript values over a heap of arrays and objects that may share parts and may be cyclic, and their
 * conversion to JSON. The set of objects on the current path bounds the recursion.
 */
module ObjectGraph {
  import opened Common

  type Ref = nat

  datatype Number = Finite(value: real) | NaN | PositiveInfinity | NegativeInfinity

  datatype Value =
    | Null
    | Boolean(b: bool)
    | Numeric(n: Number)
    | Text(s: string)
    | Undefined
    | Callable                    // a function or a symbol
    | BigInt(decimal: string)
    | Reference(ref: Ref)

  datatype Prototype = ObjectPrototype | NullPrototype | OtherPrototype

  datatype Node =
    | ArrayNode(items: seq<Value>)
    | ObjectNode(prototype: Prototype, keys: seq<string>, values: seq<Value>)
    | DateNode(iso: Option<string>)   // None: an invalid date, which has no ISO form

  type Heap = map<Ref, Node>

  datatype Json = JNull | JBool(b: bool) | JNumber(value: real) | JString(s: string) | JArray(items: seq<Json>)
      | JObject(keys: seq<string>, values: seq<Json>)

  function Children(n: Node): seq<Value> {
    match n
    case ArrayNode(items) => items
    case ObjectNode(_, _, values) => values
    case DateNode(_) => []
  }

  /** References lead into the heap, and a record has one value for each of its distinct keys. */
  ghost predicate WellFormed(h: Heap) {
    forall r <- h ::
      && (forall i :: 0 <= i < |Children(h[r])| ==> Known(h, Children(h[r])[i]))
      && (h[r].ObjectNode? ==> Distinct(h[r].keys) && |h[r].keys| == |h[r].values|)
  }

  predicate Known(h: Heap, v: Value) {
    v.Reference? ==> v.ref in h
  }

  predicate Distinct(keys: seq<string>) {
    forall i, j :: 0 <= i < j < |keys| ==> keys[i] != keys[j]
  }

  /** How much of the heap is not on the path yet. */
  ghost function Left(h: Heap, seen: set<Ref>): nat {
    |h.Keys - seen|
  }

  lemma LeftShrinks(h: Heap, seen: set<Ref>, r: Ref)
    requires r in h && r !in seen
    ensures Left(h, seen + {r}) < Left(h, seen)
  {
    assert h.Keys - (seen + {r}) == (h.Keys - seen) - {r};
  }

  datatype Refusal = NotFinite | NotSupported | Circular | NotPlain
  datatype Conversion<T> = Converted(value: T) | Refused(reason: Refusal)

  /** The JSON node built from converted children. */
  function Build(n: Node, children: seq<Json>): Json {
    if n.ArrayNode? then JArray(children) else if n.ObjectNode? then JObject(n.keys, children) else JNull
  }

  predicate IsPlain(n: Node) {
    n.ArrayNode? || (n.ObjectNode? && !n.prototype.OtherPrototype?)
  }

  function ToJson(h: Heap, v: Value, seen: set<Ref>): Conversion<Json>
    requires WellFormed(h) && Known(h, v)
    decreases Left(h, seen), 0
  {
    match v
    case Null => Converted(JNull)
    case Boolean(b) => Converted(JBool(b))
    case Text(s) => Converted(JString(s))
    case Numeric(n) => if n.Finite? then Converted(JNumber(n.value)) else Refused(NotFinite)
    case Reference(r) =>
      if r in seen then Refused(Circular)
      else if !IsPlain(h[r]) then Refused(NotPlain)
      else
        LeftShrinks(h, seen, r);
        var children := ToJsonAll(h, Children(h[r]), seen + {r});
        if children.Refused? then Refused(children.reason) else Converted(Build(h[r], children.value))
    case _ => Refused(NotSupported)
  }

  /** The children in order; the first refusal is the one reported. */
  function ToJsonAll(h: Heap, vs: seq<Value>, seen: set<Ref>): (c: Conversion<seq<Json>>)
    requires WellFormed(h) && forall i :: 0 <= i < |vs| ==> Known(h, vs[i])
    ensures c.Converted? ==> |c.value| == |vs|
    ensures c.Converted? ==> forall i :: 0 <= i < |vs| ==> ToJson(h, vs[i], seen) == Converted(c.value[i])
    ensures c.Refused? ==> exists i :: 0 <= i < |vs| && ToJson(h, vs[i], seen) == Refused(c.reason)
    decreases Left(h, seen), 1 + |vs|
  {
    if vs == [] then Converted([])
    else
      var first := ToJson(h, vs[0], seen);
      if first.Refused? then Refused(first.reason)
      else
        var rest := ToJsonAll(h, vs[1..], seen);
        if rest.Refused? then
          assert forall i :: 0 <= i < |vs[1..]| ==> vs[1..][i] == vs[i + 1];
          Refused(rest.reason)
        else Converted([first.value] + rest.value)
  }

  // Paths

  predicate IsChild(h: Heap, v: Value, w: Value) {
    v.Reference? && v.ref in h && w in Children(h[v.ref])
  }

  predicate IsPath(h: Heap, v: Value, path: seq<Value>) {
    path != [] && path[0] == v && forall i :: 0 <= i < |path| - 1 ==> IsChild(h, path[i], path[i + 1])
  }

  predicate Unsupported(h: Heap, v: Value) {
    match v
    case Numeric(n) => !n.Finite?
    case Reference(r) => r in h && !IsPlain(h[r])
    case Undefined => true
    case Callable => true
    case BigInt(_) => true
    case _ => false
  }

  /** The path reaches an unsupported value, or an object in the set, or the same object twice. */
  predicate Obstructed(h: Heap, path: seq<Value>, seen: set<Ref>) {
    || (exists i :: 0 <= i < |path| && Unsupported(h, path[i]))
    || (exists i :: 0 <= i < |path| && path[i].Reference? && path[i].ref in seen)
    || (exists i, j :: 0 <= i < j < |path| && path[i].Reference? && path[i] == path[j])
  }

  lemma {:induction false} RefusalHasPath(h: Heap, v: Value, seen: set<Ref>) returns (path: seq<Value>)
    requires WellFormed(h) && Known(h, v) && ToJson(h, v, seen).Refused?
    ensures IsPath(h, v, path) && Obstructed(h, path, seen)
    decreases Left(h, seen)
  {
    if !v.Reference? || v.ref in seen || !IsPlain(h[v.ref]) {
      path := [v];
      assert Unsupported(h, path[0]) || (path[0].Reference? && path[0].ref in seen);
    } else {
      var children := Children(h[v.ref]);
      var c := ToJsonAll(h, children, seen + {v.ref});
      var i :| 0 <= i < |children| && ToJson(h, children[i], seen + {v.ref}) == Refused(c.reason);
      LeftShrinks(h, seen, v.ref);
      var rest := RefusalHasPath(h, children[i], seen + {v.ref});
      path := [v] + rest;
      LongerPath(h, v, rest, seen);
    }
  }

  lemma LongerPath(h: Heap, v: Value, rest: seq<Value>, seen: set<Ref>)
    requires v.Reference? && rest != [] && IsChild(h, v, rest[0]) && IsPath(h, rest[0], rest)
    ensures IsPath(h, v, [v] + rest)
    ensures Obstructed(h, rest, seen + {v.ref}) ==> Obstructed(h, [v] + rest, seen)
  {
    var path := [v] + rest;
    assert forall i :: 0 <= i < |rest| ==> path[i + 1] == rest[i];
    hide IsChild, Unsupported;
    if Obstructed(h, rest, seen + {v.ref}) {
      ObstructedBelow(h, v, rest, path, seen);
    }
  }

  lemma ObstructedBelow(h: Heap, v: Value, rest: seq<Value>, path: seq<Value>, seen: set<Ref>)
    requires v.Reference? && |path| == |rest| + 1 && path[0] == v
    requires forall i :: 0 <= i < |rest| ==> path[i + 1] == rest[i]
    requires Obstructed(h, rest, seen + {v.ref})
    ensures Obstructed(h, path, seen)
  {
    hide Unsupported;
    if i :| 0 <= i < |rest| && Unsupported(h, rest[i]) {
      assert Unsupported(h, path[i + 1]);
    } else if i :| 0 <= i < |rest| && rest[i].Reference? && rest[i].ref in seen + {v.ref} {
      assert path[i + 1].Reference? && (path[i + 1].ref in seen || path[0] == path[i + 1]);
    } else {
      var i, j :| 0 <= i < j < |rest| && rest[i].Reference? && rest[i] == rest[j];
      assert path[i + 1] == path[j + 1];
    }
  }

  lemma {:induction false} ConvertedHasFreePaths(h: Heap, v: Value, seen: set<Ref>, path: seq<Value>)
    requires WellFormed(h) && Known(h, v) && ToJson(h, v, seen).Converted? && IsPath(h, v, path)
    ensures !Obstructed(h, path, seen)
    decreases |path|
  {
    if |path| > 1 {
      assert IsChild(h, path[0], path[1]);
      var children := Children(h[v.ref]);
      var k :| 0 <= k < |children| && children[k] == path[1];
      assert ToJson(h, children[k], seen + {v.ref}).Converted?;
      var rest := path[1..];
      assert IsPath(h, path[1], rest) by {
        forall i | 0 <= i < |rest| - 1 ensures IsChild(h, rest[i], rest[i + 1]) {
          assert IsChild(h, path[i + 1], path[i + 2]);
        }
      }
      ConvertedHasFreePaths(h, path[1], seen + {v.ref}, rest);
      FreePath(h, path, seen);
    }
  }

  lemma FreePath(h: Heap, path: seq<Value>, seen: set<Ref>)
    requires |path| > 1 && path[0].Reference? && path[0].ref !in seen && !Unsupported(h, path[0])
    requires !Obstructed(h, path[1..], seen + {path[0].ref})
    ensures !Obstructed(h, path, seen)
  {
    var rest := path[1..];
    forall i | 0 < i < |path|
      ensures !Unsupported(h, path[i]) && (path[i].Reference? ==> path[i].ref !in seen && path[i] != path[0])
    {
      assert rest[i - 1] == path[i];
    }
    forall i, j | 0 < i < j < |path| && path[i].Reference? ensures path[i] != path[j] {
      assert rest[i - 1] == path[i] && rest[j - 1] == path[j];
    }
  }

  /** The conversion fails exactly when some path repeats an object or reaches an unsupported value. */
  lemma FailsExactly(h: Heap, v: Value)
    requires WellFormed(h) && Known(h, v)
    ensures ToJson(h, v, {}).Refused? <==> exists path :: IsPath(h, v, path) && Obstructed(h, path, {})
  {
    if ToJson(h, v, {}).Refused? {
      var path := RefusalHasPath(h, v, {});
    } else {
      forall path | IsPath(h, v, path) ensures !Obstructed(h, path, {}) {
        ConvertedHasFreePaths(h, v, {}, path);
      }
    }
  }

  /** What is refused by itself, and why; what is refused for a child is refused for the child's reason. */
  lemma ReasonExactly(h: Heap, v: Value, seen: set<Ref>)
    requires WellFormed(h) && Known(h, v) && ToJson(h, v, seen).Refused?
    ensures var reason := ToJson(h, v, seen).reason;
            if v.Numeric? then reason == NotFinite
            else if !v.Reference? then reason == NotSupported
            else if v.ref in seen then reason == Circular
            else if h[v.ref].DateNode? || (h[v.ref].ObjectNode? && h[v.ref].prototype.OtherPrototype?)
            then reason == NotPlain
            else exists w <- Children(h[v.ref]) :: Known(h, w) && ToJson(h, w, seen + {v.ref}) == Refused(reason)
  {
    if v.Reference? && v.ref !in seen && IsPlain(h[v.ref]) {
      var vs := Children(h[v.ref]);
      var all := ToJsonAll(h, vs, seen + {v.ref});
      var i :| 0 <= i < |vs| && ToJson(h, vs[i], seen + {v.ref}) == Refused(all.reason);
      assert vs[i] in vs;
    }
  }
}
