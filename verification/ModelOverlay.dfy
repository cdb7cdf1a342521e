/** The catalog a provider shows, and the headers of a request: both are overlays in which later entries win. */
module ModelOverlay {
  import opened Common

  type ModelId = string
  datatype Model = Model(id: ModelId, body: string)

  /** The first model with the id, which is what a lookup finds. */
  function Lookup(models: seq<Model>, id: ModelId): Option<Model> {
    if models == [] then None else if models[0].id == id then Some(models[0]) else Lookup(models[1..], id)
  }

  /** The last model with the id. */
  function Latest(models: seq<Model>, id: ModelId): Option<Model> {
    if models == [] then None
    else if models[|models| - 1].id == id then Some(models[|models| - 1])
    else Latest(models[..|models| - 1], id)
  }

  predicate DistinctModels(models: seq<Model>) {
    forall i, j :: 0 <= i < j < |models| ==> models[i].id != models[j].id
  }

  lemma {:induction false} LookupAt(models: seq<Model>, i: nat)
    requires i < |models| && forall j :: 0 <= j < i ==> models[j].id != models[i].id
    ensures Lookup(models, models[i].id) == Some(models[i])
  {
    if i > 0 {
      LookupAt(models[1..], i - 1);
    }
  }

  lemma {:induction false} LookupNone(models: seq<Model>, id: ModelId)
    requires forall j :: 0 <= j < |models| ==> models[j].id != id
    ensures Lookup(models, id) == None
  {
    if models != [] {
      LookupNone(models[1..], id);
    }
  }

  lemma {:induction false} LookupFinds(models: seq<Model>, id: ModelId) returns (i: nat)
    ensures if Lookup(models, id).Some? then i < |models| && models[i] == Lookup(models, id).value && models[i].id == id
            else i == |models|
    ensures forall j :: 0 <= j < i ==> models[j].id != id
  {
    if models == [] {
      i := 0;
    } else if models[0].id == id {
      i := 0;
    } else {
      var k := LookupFinds(models[1..], id);
      i := k + 1;
    }
  }

  /** Replacing or appending a model changes the lookup of its own id and of no other. */
  lemma PutChangesOne(models: seq<Model>, m: Model, i: nat, merged: seq<Model>, id: ModelId)
    requires i <= |models| && forall j :: 0 <= j < i ==> models[j].id != m.id
    requires merged == if i < |models| then models[i := m] else models + [m]
    requires i < |models| ==> models[i].id == m.id
    ensures Lookup(merged, id) == if id == m.id then Some(m) else Lookup(models, id)
  {
    if id == m.id {
      LookupAt(merged, i);
    } else {
      var k := LookupFinds(models, id);
      if k < |models| {
        assert forall j :: 0 <= j < k ==> merged[j].id != id;
        LookupAt(merged, k);
      } else {
        LookupNone(merged, id);
      }
    }
  }

  /** currentModels of a provider: a dynamic model replaces the first of its id in place, or is added at the end. */
  method CurrentModels(baseline: seq<Model>, overlay: seq<Model>) returns (merged: seq<Model>)
    ensures forall id ::
              Lookup(merged, id) == if Latest(overlay, id).Some? then Latest(overlay, id) else Lookup(baseline, id)
    ensures |baseline| <= |merged| && forall i :: 0 <= i < |baseline| ==> merged[i].id == baseline[i].id
    ensures DistinctModels(baseline) ==> DistinctModels(merged)
  {
    merged := baseline;
    for k := 0 to |overlay|
      invariant forall id ::
                  var latest := Latest(overlay[..k], id);
                  Lookup(merged, id) == if latest.Some? then latest else Lookup(baseline, id)
      invariant |baseline| <= |merged| && forall i :: 0 <= i < |baseline| ==> merged[i].id == baseline[i].id
      invariant DistinctModels(baseline) ==> DistinctModels(merged)
    {
      var m := overlay[k];
      var before := merged;
      var i := FindIndex(merged, m.id);
      merged := if i < |merged| then merged[i := m] else merged + [m];
      assert overlay[..k + 1][..k] == overlay[..k];
      forall id ensures Lookup(merged, id) == if id == m.id then Some(m) else Lookup(before, id) {
        PutChangesOne(before, m, i, merged, id);
      }
    }
    assert overlay[..|overlay|] == overlay;
  }

  method FindIndex(models: seq<Model>, id: ModelId) returns (i: nat)
    ensures i <= |models| && (i < |models| ==> models[i].id == id) && forall j :: 0 <= j < i ==> models[j].id != id
  {
    i := 0;
    while i < |models| && models[i].id != id
      invariant i <= |models| && forall j :: 0 <= j < i ==> models[j].id != id
    {
      i := i + 1;
    }
  }

  // Headers; names are compared without regard to case (section 5.1 of RFC 9110)

  type Headers = map<string, Option<string>>

  function Lower(c: char): char {
    if 'A' <= c <= 'Z' then c + ' ' else c
  }

  function LowerCase(s: string): (r: string)
    ensures |r| == |s|
  {
    if s == "" then "" else [Lower(s[0])] + LowerCase(s[1..])
  }

  /** Two characters are the same up to case if they are the same or a letter in its two cases. */
  lemma SameUpToCase(c: char, d: char)
    ensures Lower(c) == Lower(d) <==>
              c == d || ('A' <= c <= 'Z' && d == c + ' ') || ('A' <= d <= 'Z' && c == d + ' ')
  {
  }

  /** The last entry whose name is the same up to case. */
  function LastNamed(entries: seq<(string, Option<string>)>, name: string): Option<(string, Option<string>)> {
    if entries == [] then None
    else
      var last := entries[|entries| - 1];
      if LowerCase(last.0) == LowerCase(name) then Some(last) else LastNamed(entries[..|entries| - 1], name)
  }

  /** What the merged headers hold under exactly this name. */
  function Merged(base: Headers, entries: seq<(string, Option<string>)>, name: string): Option<Option<string>> {
    match LastNamed(entries, name)
    case Some(e) => if e.0 == name then Some(e.1) else None
    case None => if name in base then Some(base[name]) else None
  }

  /** An override removes every spelling of its name before it is set. */
  method MergeHeaders(base: Option<Headers>, override: Option<seq<(string, Option<string>)>>)
    returns (merged: Option<Headers>)
    ensures merged.None? <==> base.None? && override.None?
    ensures merged.Some? ==> forall name :: (name in merged.value <==> MergedFrom(base, override, name).Some?)
                                && (name in merged.value ==>
                                    Some(merged.value[name]) == MergedFrom(base, override, name))
  {
    if base.None? && override.None? {
      return None;
    }
    var entries := if override.Some? then override.value else [];
    var start := if base.Some? then base.value else map[];
    var result := start;
    for k := 0 to |entries|
      invariant forall name :: Holds(result, name, Merged(start, entries[..k], name))
    {
      var (name, value) := entries[k];
      assert entries[..k + 1][..k] == entries[..k];
      ghost var (before, shorter, longer) := (result, entries[..k], entries[..k + 1]);
      result := RemoveNamed(result, name);
      result := result[name := value];
      forall other ensures Holds(result, other, Merged(start, longer, other)) {
        assert Holds(before, other, Merged(start, shorter, other));
      }
    }
    assert entries[..|entries|] == entries;
    assert forall name :: Holds(result, name, Merged(start, entries, name));
    return Some(result);
  }

  ghost predicate Holds(h: Headers, name: string, value: Option<Option<string>>) {
    if value.Some? then name in h && h[name] == value.value else name !in h
  }

  function MergedFrom(base: Option<Headers>, override: Option<seq<(string, Option<string>)>>,
                      name: string): Option<Option<string>> {
    Merged(if base.Some? then base.value else map[], if override.Some? then override.value else [], name)
  }

  /** Delete every header whose name is the same up to case. */
  method RemoveNamed(headers: Headers, name: string) returns (rest: Headers)
    ensures forall n :: n in rest <==> n in headers && LowerCase(n) != LowerCase(name)
    ensures forall n <- rest :: rest[n] == headers[n]
  {
    rest := headers;
    var names := headers.Keys;
    while names != {}
      invariant names <= headers.Keys && rest.Keys <= headers.Keys
      invariant forall n <- headers :: n in rest <==> n in names || LowerCase(n) != LowerCase(name)
      invariant forall n <- rest :: rest[n] == headers[n]
      decreases |names|
    {
      var n :| n in names;
      names := names - {n};
      if LowerCase(n) == LowerCase(name) {
        rest := rest - {n};
      }
    }
  }

  /** After a merge no override leaves two spellings of its name behind. */
  lemma OneSpelling(base: Headers, entries: seq<(string, Option<string>)>, name: string, other: string)
    requires LowerCase(name) == LowerCase(other) && LastNamed(entries, name).Some?
    requires Merged(base, entries, name).Some? && Merged(base, entries, other).Some?
    ensures name == other
  {
    SameLast(entries, name, other);
  }

  lemma {:induction false} SameLast(entries: seq<(string, Option<string>)>, name: string, other: string)
    requires LowerCase(name) == LowerCase(other)
    ensures LastNamed(entries, name) == LastNamed(entries, other)
  {
    if entries != [] {
      SameLast(entries[..|entries| - 1], name, other);
    }
  }
}
