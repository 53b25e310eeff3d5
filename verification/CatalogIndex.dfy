/**
 Looking a bare model name up in a provider catalog: the suffix index against
 the scan it replaces. A catalog's ids are kept in key order, without repeats.
 */
module CatalogIndex {
  import opened Options
  import opened Spaces

  type ModelId = string

  /** Position just after the last slash, or None. */
  function LastSlash(id: ModelId): (k: Option<nat>)
    ensures k.Some? ==> k.value < |id| && id[k.value] == '/' && '/' !in id[k.value + 1..]
    ensures k == None ==> '/' !in id
  {
    if id == "" then None
    else if id[|id| - 1] == '/' then Some(|id| - 1)
    else
      match LastSlash(id[..|id| - 1])
      case None => None
      case Some(k) =>
        assert id[k + 1..] == id[..|id| - 1][k + 1..] + [id[|id| - 1]];
        Some(k)
  }

  /** The segment after the last slash, for an id that has one. */
  function Bare(id: ModelId): Option<string> {
    match LastSlash(id)
    case None => None
    case Some(k) => Some(id[k + 1..])
  }

  /** What the loop over the ids computes: the first id with each bare name. */
  function SuffixIndex(ids: seq<ModelId>): map<string, ModelId>
    decreases |ids|
  {
    if ids == [] then map[]
    else
      var before := SuffixIndex(ids[..|ids| - 1]);
      var id := ids[|ids| - 1];
      match Bare(id)
      case None => before
      case Some(bare) => if bare in before then before else before[bare := id]
  }

  method BuildSuffixIndex(ids: seq<ModelId>) returns (index: map<string, ModelId>)
    ensures index == SuffixIndex(ids)
  {
    index := map[];
    for i := 0 to |ids|
      invariant index == SuffixIndex(ids[..i])
    {
      var slash := LastSlash(ids[i]);
      assert ids[..i + 1][..i] == ids[..i];
      if slash.Some? {
        var bare := ids[i][slash.value + 1..];
        if bare !in index {
          index := index[bare := ids[i]];
        }
      }
    }
    assert ids[..|ids|] == ids;
  }

  /** The linear scan: the first id that ends in a slash and the name. */
  function ScanFrom(ids: seq<ModelId>, name: string): (r: Option<ModelId>)
  {
    if ids == [] then None
    else if EndsWith(ids[0], "/" + name) then Some(ids[0])
    else ScanFrom(ids[1..], name)
  }

  method Scan(ids: seq<ModelId>, name: string) returns (found: Option<ModelId>)
    ensures found == ScanFrom(ids, name)
  {
    for i := 0 to |ids|
      invariant ScanFrom(ids, name) == ScanFrom(ids[i..], name)
    {
      if EndsWith(ids[i], "/" + name) {
        return Some(ids[i]);
      }
    }
    return None;
  }

  lemma {:induction false} NoSlashAfter(id: ModelId, k: nat)
    requires k < |id| && '/' !in id[k + 1..]
    ensures forall j :: k < j < |id| ==> id[j] != '/'
  {
    forall j | k < j < |id| ensures id[j] != '/' {
      assert id[j] == id[k + 1..][j - k - 1];
    }
  }

  /** For a name without slashes, ending in "/name" is having it as last segment. */
  lemma {:induction false} SuffixIsLastSegment(id: ModelId, name: string)
    requires '/' !in name
    ensures EndsWith(id, "/" + name) <==> Bare(id) == Some(name)
  {
    var suffix := "/" + name;
    if EndsWith(id, suffix) {
      var at := |id| - |suffix|;
      assert id[at] == suffix[0] == '/';
      assert id[at + 1..] == suffix[1..] == name;
      var k := LastSlash(id).value;
      NoSlashAfter(id, at);
      NoSlashAfter(id, k);
    }
    if Bare(id) == Some(name) {
      var k := LastSlash(id).value;
      assert id[k..] == [id[k]] + id[k + 1..];
    }
  }

  lemma {:induction false} ScanAppend(ids: seq<ModelId>, id: ModelId, name: string)
    ensures ScanFrom(ids + [id], name)
            == if ScanFrom(ids, name).Some? then ScanFrom(ids, name) else ScanFrom([id], name)
  {
    if ids == [] {
      assert ids + [id] == [id];
    } else {
      assert (ids + [id])[1..] == ids[1..] + [id];
      ScanAppend(ids[1..], id, name);
    }
  }

  /** The index and the scan find the same id, or neither finds one. */
  lemma {:induction false} IndexEqualsScan(ids: seq<ModelId>, name: string)
    requires '/' !in name
    ensures name in SuffixIndex(ids) <==> ScanFrom(ids, name).Some?
    ensures name in SuffixIndex(ids) ==> ScanFrom(ids, name) == Some(SuffixIndex(ids)[name])
    decreases |ids|
  {
    if ids != [] {
      var id := ids[|ids| - 1];
      IndexEqualsScan(ids[..|ids| - 1], name);
      ScanAppend(ids[..|ids| - 1], id, name);
      assert ids == ids[..|ids| - 1] + [id];
      SuffixIsLastSegment(id, name);
      assert [id][1..] == [];
    }
  }

  /**
   Resolving a name: the candidate ids first, then, for a name without a slash,
   the index, then the scan.
   */
  method FindInCatalog(ids: seq<ModelId>, candidates: seq<ModelId>, name: string,
                       index: Option<map<string, ModelId>>) returns (found: Option<ModelId>)
    requires index.Some? ==> index.value == SuffixIndex(ids)
    ensures found == Resolve(ids, candidates, name)
  {
    for i := 0 to |candidates|
      invariant forall j :: 0 <= j < i ==> candidates[j] !in ids
    {
      if candidates[i] in ids {
        FirstKnownAt(ids, candidates, i);
        return Some(candidates[i]);
      }
    }
    NoneKnown(ids, candidates);
    if '/' !in name {
      IndexEqualsScan(ids, name);
      if index.Some? && name in index.value {
        return Some(index.value[name]);
      }
      found := Scan(ids, name);
      return;
    }
    return None;
  }

  function FirstKnown(ids: seq<ModelId>, candidates: seq<ModelId>): Option<ModelId> {
    if candidates == [] then None
    else if candidates[0] in ids then Some(candidates[0])
    else FirstKnown(ids, candidates[1..])
  }

  /** The answer without any index: it is the same whether or not one is at hand. */
  function Resolve(ids: seq<ModelId>, candidates: seq<ModelId>, name: string): Option<ModelId> {
    match FirstKnown(ids, candidates)
    case Some(id) => Some(id)
    case None => if '/' in name then None else ScanFrom(ids, name)
  }

  lemma {:induction false} FirstKnownAt(ids: seq<ModelId>, candidates: seq<ModelId>, i: nat)
    requires i < |candidates| && candidates[i] in ids
    requires forall j :: 0 <= j < i ==> candidates[j] !in ids
    ensures FirstKnown(ids, candidates) == Some(candidates[i])
  {
    if i > 0 {
      FirstKnownAt(ids, candidates[1..], i - 1);
    }
  }

  lemma {:induction false} NoneKnown(ids: seq<ModelId>, candidates: seq<ModelId>)
    requires forall j :: 0 <= j < |candidates| ==> candidates[j] !in ids
    ensures FirstKnown(ids, candidates) == None
  {
    if candidates != [] {
      NoneKnown(ids, candidates[1..]);
    }
  }

  lemma {:induction false} ScanIsFirst(ids: seq<ModelId>, name: string)
    ensures if ScanFrom(ids, name) == None then forall i :: 0 <= i < |ids| ==> !EndsWith(ids[i], "/" + name)
            else exists i :: 0 <= i < |ids| && IsFirstEnding(ids, name, i) && ScanFrom(ids, name) == Some(ids[i])
  {
    if ids != [] {
      ScanIsFirst(ids[1..], name);
      if EndsWith(ids[0], "/" + name) {
        assert IsFirstEnding(ids, name, 0);
      } else if ScanFrom(ids[1..], name).Some? {
        var i :| 0 <= i < |ids[1..]| && IsFirstEnding(ids[1..], name, i)
                 && ScanFrom(ids[1..], name) == Some(ids[1..][i]);
        assert forall j :: 0 < j < i + 1 ==> ids[j] == ids[1..][j - 1];
        assert IsFirstEnding(ids, name, i + 1);
      }
    }
  }

  /** The first id of the catalog that ends in a slash and the name. */
  ghost predicate IsFirstEnding(ids: seq<ModelId>, name: string, i: nat)
    requires i < |ids|
  {
    EndsWith(ids[i], "/" + name) && forall j :: 0 <= j < i ==> !EndsWith(ids[j], "/" + name)
  }

  /** The first candidate that the catalog has. */
  ghost predicate IsFirstKnown(ids: seq<ModelId>, candidates: seq<ModelId>, i: nat)
    requires i < |candidates|
  {
    candidates[i] in ids && forall j :: 0 <= j < i ==> candidates[j] !in ids
  }

  /**
   What a lookup answers: the first candidate the catalog has; failing that, for a name without a slash
   only, the first id whose last segment is the name; and nothing only if there is neither.
   */
  lemma {:induction false} ResolveMeans(ids: seq<ModelId>, candidates: seq<ModelId>, name: string)
    ensures forall i :: 0 <= i < |candidates| && IsFirstKnown(ids, candidates, i) ==>
              Resolve(ids, candidates, name) == Some(candidates[i])
    ensures (forall c :: c in candidates ==> c !in ids) && '/' in name ==> Resolve(ids, candidates, name) == None
    ensures (forall c :: c in candidates ==> c !in ids) && '/' !in name ==>
              match Resolve(ids, candidates, name)
              case None => forall i :: 0 <= i < |ids| ==> Bare(ids[i]) != Some(name)
              case Some(id) =>
                exists i :: 0 <= i < |ids| && ids[i] == id && Bare(ids[i]) == Some(name)
                            && forall j :: 0 <= j < i ==> Bare(ids[j]) != Some(name)
  {
    forall i | 0 <= i < |candidates| && IsFirstKnown(ids, candidates, i)
      ensures Resolve(ids, candidates, name) == Some(candidates[i])
    {
      FirstKnownAt(ids, candidates, i);
    }
    hide EndsWith, Bare, ScanFrom;
    if (forall c :: c in candidates ==> c !in ids) {
      NoneKnown(ids, candidates);
      ScanIsFirst(ids, name);
      if '/' !in name {
        forall i | 0 <= i < |ids|
          ensures EndsWith(ids[i], "/" + name) <==> Bare(ids[i]) == Some(name)
        {
          SuffixIsLastSegment(ids[i], name);
        }
      }
    }
  }
}
