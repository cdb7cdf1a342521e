/** The conversions as they run: one set of objects on the path, changed in place and restored on every way out. */
module ObjectConversion {
  import opened Common
  import opened ObjectGraph
  import opened ObjectUnfolding

  lemma {:induction false} FirstRefusal(h: Heap, vs: seq<Value>, seen: set<Ref>, i: nat)
    requires WellFormed(h) && i < |vs| && forall k :: 0 <= k < |vs| ==> Known(h, vs[k])
    requires (forall k :: 0 <= k < i ==> ToJson(h, vs[k], seen).Converted?) && ToJson(h, vs[i], seen).Refused?
    ensures ToJsonAll(h, vs, seen) == Refused(ToJson(h, vs[i], seen).reason)
  {
    if i > 0 {
      FirstRefusal(h, vs[1..], seen, i - 1);
    }
  }

  lemma {:induction false} SomeThrow(h: Heap, vs: seq<Value>, seen: set<Ref>, i: nat)
    requires WellFormed(h) && i < |vs| && forall k :: 0 <= k < |vs| ==> Known(h, vs[k])
    requires Sanitize(h, vs[i], seen).Throws?
    ensures SanitizeAll(h, vs, seen).None?
  {
    if i > 0 {
      SomeThrow(h, vs[1..], seen, i - 1);
    }
  }

  lemma AllSanitized(h: Heap, vs: seq<Value>, seen: set<Ref>, results: seq<Sanitized>)
    requires WellFormed(h) && |results| == |vs| && forall k :: 0 <= k < |vs| ==> Known(h, vs[k])
    requires forall k :: 0 <= k < |vs| ==> !results[k].Throws? && Sanitize(h, vs[k], seen) == results[k]
    ensures SanitizeAll(h, vs, seen) == Some(results)
  {
    hide Sanitize;
    var all := SanitizeAll(h, vs, seen);
    assert all.Some? && all.value == results;
  }

  class Converter {
    const heap: Heap
    var seen: set<Ref>

    constructor (heap: Heap)
      ensures this.heap == heap && seen == {}
    {
      this.heap, seen := heap, {};
    }

    method ToProtocolJsonValue(value: Value) returns (c: Conversion<Json>)
      requires WellFormed(heap) && Known(heap, value)
      modifies this
      ensures seen == old(seen) && c == ToJson(heap, value, seen)
      decreases Left(heap, seen)
    {
      match value {
        case Null => return Converted(JNull);
        case Boolean(b) => return Converted(JBool(b));
        case Text(s) => return Converted(JString(s));
        case Numeric(n) => return if n.Finite? then Converted(JNumber(n.value)) else Refused(NotFinite);
        case Reference(r) =>
          if r in seen {
            return Refused(Circular);
          }
          if !IsPlain(heap[r]) {
            return Refused(NotPlain);
          }
          LeftShrinks(heap, seen, r);
          seen := seen + {r};
          var entries := Children(heap[r]);
          var results: seq<Json> := [];
          while |results| < |entries|
            invariant seen == old(seen) + {r} && |results| <= |entries|
            invariant forall k :: 0 <= k < |results| ==> ToJson(heap, entries[k], seen) == Converted(results[k])
            decreases |entries| - |results|
          {
            var entry := ToProtocolJsonValue(entries[|results|]);
            if entry.Refused? {
              FirstRefusal(heap, entries, seen, |results|);
              seen := seen - {r};
              assert seen == old(seen);
              return Refused(entry.reason);
            }
            results := results + [entry.value];
          }
          var all := ToJsonAll(heap, entries, seen);
          assert all.Converted? && all.value == results;
          seen := seen - {r};
          assert seen == old(seen);
          return Converted(Build(heap[r], results));
        case _ => return Refused(NotSupported);
      }
    }

    method SanitizeProtocolDetails(value: Value) returns (c: Sanitized)
      requires WellFormed(heap) && Known(heap, value)
      modifies this
      ensures seen == old(seen) && c == Sanitize(heap, value, seen)
      decreases Left(heap, seen), 0
    {
      hide SanitizeAll, BuildSanitized;
      match value {
        case Null => return Kept(JNull);
        case Boolean(b) => return Kept(JBool(b));
        case Text(s) => return Kept(JString(s));
        case Numeric(n) => return if n.Finite? then Kept(JNumber(n.value)) else Kept(JString(NumberText(n)));
        case BigInt(decimal) => return Kept(JString(decimal));
        case Undefined => return Dropped;
        case Callable => return Dropped;
        case Reference(r) =>
          if heap[r].DateNode? {
            return if heap[r].iso.Some? then Kept(JString(heap[r].iso.value)) else Throws;
          }
          if r in seen {
            return Kept(JString("[Circular]"));
          }
          LeftShrinks(heap, seen, r);
          seen := seen + {r};
          var results := SanitizeEntries(Children(heap[r]));
          seen := seen - {r};
          assert seen == old(seen);
          return if results.None? then Throws else Kept(BuildSanitized(heap[r], results.value));
      }
    }

    method SanitizeEntries(entries: seq<Value>) returns (results: Option<seq<Sanitized>>)
      requires WellFormed(heap) && forall k :: 0 <= k < |entries| ==> Known(heap, entries[k])
      modifies this
      ensures seen == old(seen) && results == SanitizeAll(heap, entries, seen)
      decreases Left(heap, seen), 1
    {
      hide Sanitize, SanitizeAll;
      var done: seq<Sanitized> := [];
      while |done| < |entries|
        invariant seen == old(seen) && |done| <= |entries|
        invariant forall k :: 0 <= k < |done| ==> !done[k].Throws? && Sanitize(heap, entries[k], seen) == done[k]
        decreases |entries| - |done|
      {
        var entry := SanitizeProtocolDetails(entries[|done|]);
        if entry.Throws? {
          SomeThrow(heap, entries, seen, |done|);
          return None;
        }
        done := done + [entry];
      }
      AllSanitized(heap, entries, seen, done);
      return Some(done);
    }
  }
}
