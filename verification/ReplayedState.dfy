/**
 What replaying a log restores: each field of an object is what the last logged
 action on it says, and a session's log replayed gives back what the session had.
 */
module ReplayedState {
  import opened Options
  import opened StateGraph
  import opened StateReplay

  // ------------------------------------------------------------------
  // Logged actions
  // ------------------------------------------------------------------

  predicate Acts(e: Entry, action: string, id: Id) {
    e.what.ContextAction? && e.what.action.action == action && e.what.action.id == id
  }

  predicate Creates(e: Entry, id: Id) { Acts(e, "create", id) }

  /** Undoes everything said of the object before. */
  predicate Wipes(e: Entry, id: Id) { e.what.StateReset? || Creates(e, id) }

  /** Gives the payload key a value. */
  predicate Names(e: Entry, id: Id, key: string) {
    && (Creates(e, id) || Acts(e, "update", id))
    && e.what.action.statePayload.Some? && key in e.what.action.statePayload.value
  }

  predicate SetsTier(e: Entry, id: Id) { Creates(e, id) || Acts(e, "setTier", id) }

  predicate SetsUpdated(e: Entry, id: Id) {
    || Creates(e, id) || Acts(e, "retract", id)
    || (Acts(e, "update", id) && e.what.action.statePayload.Some?)
  }

  /** The tier a creation or a tier change names: a creation without one makes an active object. */
  function TierSet(e: Entry, id: Id): Tier
    requires SetsTier(e, id)
  {
    match e.what.action.tier
    case Some(t) => t
    case None => if Creates(e, id) then Active else NoTier
  }

  /** Nothing after position `i` undoes what was said of the object there. */
  predicate Stands(es: seq<Entry>, id: Id, i: int) {
    forall j :: 0 <= j < |es| && i < j ==> !Wipes(es[j], id)
  }

  /** The object exists after the entries: it was created after the last reset, or was there and there was none. */
  ghost predicate Known(g: Graph, es: seq<Entry>, id: Id) {
    || (id in g.objects && forall j :: 0 <= j < |es| ==> !es[j].what.StateReset?)
    || (exists i :: 0 <= i < |es| && CreatedAt(es, id, i))
  }

  predicate CreatedAt(es: seq<Entry>, id: Id, i: nat)
    requires i < |es|
  {
    Creates(es[i], id) && forall j :: i < j < |es| ==> !es[j].what.StateReset?
  }

  // ------------------------------------------------------------------
  // One entry
  // ------------------------------------------------------------------

  /** The object with the focus after the entry, if the entry moved it. */
  predicate Focuses(e: Entry, id: Id) { Acts(e, "setFocus", id) }

  predicate Takes(g: Graph, e: Entry) {
    e.what.ContextAction? && e.what.action.id in g.objects && Focuses(e, e.what.action.id)
  }

  lemma {:induction false} EntryKnows(g: Graph, e: Entry, id: Id)
    requires WellKeyed(g)
    ensures var h := ReplayEntry(g, e);
            && WellKeyed(h)
            && (id in h.objects <==> Creates(e, id) || (id in g.objects && !e.what.StateReset?))
  {
  }

  lemma {:induction false} EntryCreates(g: Graph, e: Entry, id: Id)
    requires Creates(e, id)
    ensures id in ReplayEntry(g, e).objects
    ensures var o := ReplayEntry(g, e).objects[id];
            var p := e.what.action;
            && o.tier == TierSet(e, id) && o.kind == p.kind && !o.focused && !o.retracted
            && o.created == p.created && o.updated == p.updated && o.lastTouched == p.lastTouched
            && (forall key :: key in o.payload <==> Names(e, id, key))
            && (forall key :: key in o.payload ==> o.payload[key] == p.statePayload.value[key])
  {
  }

  /** What an entry that leaves the object there does to it. */
  lemma {:induction false} EntryChanges(g: Graph, e: Entry, id: Id)
    requires WellKeyed(g) && id in g.objects && !Wipes(e, id)
    ensures id in ReplayEntry(g, e).objects
    ensures var o := g.objects[id];
            var o' := ReplayEntry(g, e).objects[id];
            && o'.kind == o.kind && o'.created == o.created
            && o'.tier == (if SetsTier(e, id) then TierSet(e, id) else o.tier)
            && o'.updated == (if SetsUpdated(e, id) then e.what.action.updated else o.updated)
            && o'.retracted == (o.retracted || Acts(e, "retract", id))
  {
  }

  lemma {:induction false} EntryFocuses(g: Graph, e: Entry, id: Id)
    requires WellKeyed(g) && id in g.objects && !Wipes(e, id)
    ensures id in ReplayEntry(g, e).objects
    ensures ReplayEntry(g, e).objects[id].focused
            <==> if Takes(g, e) then Focuses(e, id) else g.objects[id].focused
  {
  }

  lemma {:induction false} EntryWrites(g: Graph, e: Entry, id: Id)
    requires WellKeyed(g) && id in g.objects && !Wipes(e, id)
    ensures id in ReplayEntry(g, e).objects
    ensures var o := g.objects[id];
            var o' := ReplayEntry(g, e).objects[id];
            && (forall key :: key in o'.payload <==> key in o.payload || Names(e, id, key))
            && (forall key :: key in o'.payload ==>
                  o'.payload[key]
                  == if Names(e, id, key) then e.what.action.statePayload.value[key] else o.payload[key])
  {
  }

  // ------------------------------------------------------------------
  // Whole logs
  // ------------------------------------------------------------------

  lemma {:induction false} ReplayIsWellKeyed(g: Graph, es: seq<Entry>)
    requires WellKeyed(g)
    ensures WellKeyed(ReplayAll(g, es))
    decreases |es|
  {
    if es != [] {
      hide ReplayEntry, WellKeyed;
      ReplayIsWellKeyed(g, es[..|es| - 1]);
      EntryKnows(ReplayAll(g, es[..|es| - 1]), es[|es| - 1], 0);
    }
  }

  lemma {:induction false} KnownOneMore(g: Graph, es: seq<Entry>, e: Entry, id: Id)
    ensures Known(g, es + [e], id) <==> Creates(e, id) || (Known(g, es, id) && !e.what.StateReset?)
  {
    var fs := es + [e];
    assert forall i :: 0 <= i < |es| ==> fs[i] == es[i];
    assert fs[|es|] == e;
    if Creates(e, id) {
      assert CreatedAt(fs, id, |es|);
    } else if !e.what.StateReset? {
      forall i | 0 <= i < |es|
        ensures CreatedAt(fs, id, i) <==> CreatedAt(es, id, i)
      {
        assert CreatedAt(es, id, i) ==> forall j :: i < j < |fs| ==> !fs[j].what.StateReset?;
        if CreatedAt(fs, id, i) {
          forall j | i < j < |es|
            ensures !es[j].what.StateReset?
          {
            assert fs[j] == es[j];
          }
        }
      }
      if id in g.objects && forall j :: 0 <= j < |fs| ==> !fs[j].what.StateReset? {
        forall j | 0 <= j < |es|
          ensures !es[j].what.StateReset?
        {
          assert fs[j] == es[j];
        }
      }
    }
  }

  /** An object is there exactly if it was created after the last reset, or before the log and nothing was reset. */
  lemma {:induction false} KnownIff(g: Graph, es: seq<Entry>, id: Id)
    requires WellKeyed(g)
    ensures id in ReplayAll(g, es).objects <==> Known(g, es, id)
    decreases |es|
  {
    if es != [] {
      hide ReplayEntry, Known, Creates;
      var before, e := es[..|es| - 1], es[|es| - 1];
      assert es == before + [e];
      KnownIff(g, before, id);
      ReplayIsWellKeyed(g, before);
      EntryKnows(ReplayAll(g, before), e, id);
      KnownOneMore(g, before, e, id);
    }
  }

  /** The tier is that of the last creation or tier change. */
  lemma {:induction false} TierIsLastSet(g: Graph, es: seq<Entry>, id: Id, i: int)
    requires WellKeyed(g) && id in ReplayAll(g, es).objects
    requires -1 <= i < |es| && (i >= 0 ==> SetsTier(es[i], id))
    requires forall j :: i < j < |es| ==> !SetsTier(es[j], id)
    ensures var o := ReplayAll(g, es).objects[id];
            if i >= 0 then o.tier == TierSet(es[i], id) else id in g.objects && o.tier == g.objects[id].tier
    decreases |es|
  {
    if es != [] {
      hide ReplayEntry, SetsTier, TierSet;
      var before, e := es[..|es| - 1], es[|es| - 1];
      ReplayIsWellKeyed(g, before);
      EntryKnows(ReplayAll(g, before), e, id);
      if Creates(e, id) {
        CreatingSetsTier(e, id);
        EntryCreates(ReplayAll(g, before), e, id);
      } else {
        EntryChanges(ReplayAll(g, before), e, id);
        if i < |before| {
          TierIsLastSet(g, before, id, i);
        }
      }
    }
  }

  lemma {:induction false} CreatingSetsTier(e: Entry, id: Id)
    requires Creates(e, id)
    ensures SetsTier(e, id) && SetsUpdated(e, id)
  {
  }

  /** The time of change is that of the last creation, retraction or update with a patch. */
  lemma {:induction false} UpdatedIsLastSet(g: Graph, es: seq<Entry>, id: Id, i: int)
    requires WellKeyed(g) && id in ReplayAll(g, es).objects
    requires -1 <= i < |es| && (i >= 0 ==> SetsUpdated(es[i], id))
    requires forall j :: i < j < |es| ==> !SetsUpdated(es[j], id)
    ensures var o := ReplayAll(g, es).objects[id];
            if i >= 0 then o.updated == es[i].what.action.updated
            else id in g.objects && o.updated == g.objects[id].updated
    decreases |es|
  {
    if es != [] {
      hide ReplayEntry, SetsTier, TierSet;
      var before, e := es[..|es| - 1], es[|es| - 1];
      ReplayIsWellKeyed(g, before);
      EntryKnows(ReplayAll(g, before), e, id);
      if Creates(e, id) {
        EntryCreates(ReplayAll(g, before), e, id);
      } else {
        EntryChanges(ReplayAll(g, before), e, id);
        if i < |before| {
          UpdatedIsLastSet(g, before, id, i);
        }
      }
    }
  }

  /** Kind and birth are those of the last creation. */
  lemma {:induction false} BirthIsLastCreate(g: Graph, es: seq<Entry>, id: Id, i: int)
    requires WellKeyed(g) && id in ReplayAll(g, es).objects
    requires -1 <= i < |es| && (i >= 0 ==> Creates(es[i], id))
    requires forall j :: i < j < |es| ==> !Creates(es[j], id)
    ensures var o := ReplayAll(g, es).objects[id];
            if i >= 0 then o.kind == es[i].what.action.kind && o.created == es[i].what.action.created
            else id in g.objects && o.kind == g.objects[id].kind && o.created == g.objects[id].created
    decreases |es|
  {
    if es != [] {
      hide ReplayEntry, SetsTier, TierSet;
      var before, e := es[..|es| - 1], es[|es| - 1];
      ReplayIsWellKeyed(g, before);
      EntryKnows(ReplayAll(g, before), e, id);
      if Creates(e, id) {
        EntryCreates(ReplayAll(g, before), e, id);
      } else {
        EntryChanges(ReplayAll(g, before), e, id);
        BirthIsLastCreate(g, before, id, i);
      }
    }
  }

  // ------------------------------------------------------------------
  // The payload
  // ------------------------------------------------------------------

  ghost predicate NamedAt(es: seq<Entry>, id: Id, key: string, i: nat)
    requires i < |es|
  {
    Names(es[i], id, key) && Stands(es, id, i)
  }

  ghost predicate WasNamed(g: Graph, es: seq<Entry>, id: Id, key: string) {
    || (Stands(es, id, -1) && id in g.objects && key in g.objects[id].payload)
    || (exists i :: 0 <= i < |es| && NamedAt(es, id, key, i))
  }

  lemma {:induction false} StandsOneMore(es: seq<Entry>, e: Entry, id: Id, i: int)
    requires i < |es|
    ensures Stands(es + [e], id, i) <==> Stands(es, id, i) && !Wipes(e, id)
    ensures Stands(es + [e], id, |es|)
  {
    var fs := es + [e];
    assert fs[|es|] == e;
    assert forall j :: 0 <= j < |es| ==> fs[j] == es[j];
  }

  lemma {:induction false} NamedOneMore(g: Graph, es: seq<Entry>, e: Entry, id: Id, key: string)
    ensures WasNamed(g, es + [e], id, key)
            <==> Names(e, id, key) || (WasNamed(g, es, id, key) && !Wipes(e, id))
  {
    hide Names, Wipes, Stands;
    var fs := es + [e];
    StandsOneMore(es, e, id, -1);
    assert fs[|es|] == e;
    forall i | 0 <= i < |es|
      ensures NamedAt(fs, id, key, i) <==> NamedAt(es, id, key, i) && !Wipes(e, id)
    {
      StandsOneMore(es, e, id, i);
      assert fs[i] == es[i];
    }
    assert NamedAt(fs, id, key, |es|) <==> Names(e, id, key);
  }

  /** The payload has exactly the keys named since the last creation. */
  lemma {:induction false} PayloadKeys(g: Graph, es: seq<Entry>, id: Id, key: string)
    requires WellKeyed(g) && id in ReplayAll(g, es).objects
    ensures key in ReplayAll(g, es).objects[id].payload <==> WasNamed(g, es, id, key)
    decreases |es|
  {
    if es != [] {
      hide ReplayEntry, WasNamed, SetsTier, TierSet;
      var before, e := es[..|es| - 1], es[|es| - 1];
      assert es == before + [e];
      ReplayIsWellKeyed(g, before);
      EntryKnows(ReplayAll(g, before), e, id);
      NamedOneMore(g, before, e, id, key);
      if Creates(e, id) {
        EntryCreates(ReplayAll(g, before), e, id);
      } else {
        EntryWrites(ReplayAll(g, before), e, id);
        PayloadKeys(g, before, id, key);
      }
    }
  }

  /** Its value is that of the last action that names it. */
  lemma {:induction false} PayloadIsLastNamed(g: Graph, es: seq<Entry>, id: Id, key: string, i: int)
    requires WellKeyed(g) && id in ReplayAll(g, es).objects
    requires key in ReplayAll(g, es).objects[id].payload
    requires -1 <= i < |es| && (i >= 0 ==> Names(es[i], id, key))
    requires forall j :: i < j < |es| ==> !Names(es[j], id, key)
    ensures var v := ReplayAll(g, es).objects[id].payload[key];
            if i >= 0 then v == es[i].what.action.statePayload.value[key]
            else id in g.objects && key in g.objects[id].payload && v == g.objects[id].payload[key]
    decreases |es|
  {
    if es != [] {
      hide ReplayEntry, SetsTier, TierSet, Names;
      var before, e := es[..|es| - 1], es[|es| - 1];
      ReplayIsWellKeyed(g, before);
      EntryKnows(ReplayAll(g, before), e, id);
      if Creates(e, id) {
        EntryCreates(ReplayAll(g, before), e, id);
      } else {
        EntryWrites(ReplayAll(g, before), e, id);
        if i < |before| {
          PayloadIsLastNamed(g, before, id, key, i);
        }
      }
    }
  }

  // ------------------------------------------------------------------
  // Retraction and focus
  // ------------------------------------------------------------------

  ghost predicate RetractedAt(es: seq<Entry>, id: Id, i: nat)
    requires i < |es|
  {
    Acts(es[i], "retract", id) && Stands(es, id, i)
  }

  ghost predicate WasRetracted(g: Graph, es: seq<Entry>, id: Id) {
    || (Stands(es, id, -1) && id in g.objects && g.objects[id].retracted)
    || (exists i :: 0 <= i < |es| && RetractedAt(es, id, i))
  }

  lemma {:induction false} RetractedOneMore(g: Graph, es: seq<Entry>, e: Entry, id: Id)
    ensures WasRetracted(g, es + [e], id)
            <==> Acts(e, "retract", id) || (WasRetracted(g, es, id) && !Wipes(e, id))
  {
    hide Acts, Wipes, Stands;
    var fs := es + [e];
    StandsOneMore(es, e, id, -1);
    assert fs[|es|] == e;
    forall i | 0 <= i < |es|
      ensures RetractedAt(fs, id, i) <==> RetractedAt(es, id, i) && !Wipes(e, id)
    {
      StandsOneMore(es, e, id, i);
      assert fs[i] == es[i];
    }
    assert RetractedAt(fs, id, |es|) <==> Acts(e, "retract", id);
  }

  /** An object is retracted exactly if it was retracted after its last creation. */
  lemma {:induction false} RetractedIff(g: Graph, es: seq<Entry>, id: Id)
    requires WellKeyed(g) && id in ReplayAll(g, es).objects
    ensures ReplayAll(g, es).objects[id].retracted <==> WasRetracted(g, es, id)
    decreases |es|
  {
    if es != [] {
      hide ReplayEntry, WasRetracted, SetsTier, TierSet;
      var before, e := es[..|es| - 1], es[|es| - 1];
      assert es == before + [e];
      ReplayIsWellKeyed(g, before);
      EntryKnows(ReplayAll(g, before), e, id);
      RetractedOneMore(g, before, e, id);
      if Creates(e, id) {
        EntryCreates(ReplayAll(g, before), e, id);
      } else {
        EntryChanges(ReplayAll(g, before), e, id);
        RetractedIff(g, before, id);
      }
    }
  }

  /** The action moves the focus: it names an object that exists by then. */
  ghost predicate MovesFocus(g: Graph, es: seq<Entry>, j: nat)
    requires j < |es|
  {
    es[j].what.ContextAction? && Focuses(es[j], es[j].what.action.id) && Known(g, es[..j], es[j].what.action.id)
  }

  /** From position `i` on the focus has not been moved elsewhere. */
  ghost predicate StaysAt(g: Graph, es: seq<Entry>, id: Id, i: int) {
    forall j :: 0 <= j < |es| && i < j && MovesFocus(g, es, j) ==> Focuses(es[j], id)
  }

  ghost predicate FocusedAt(g: Graph, es: seq<Entry>, id: Id, i: nat)
    requires i < |es|
  {
    Focuses(es[i], id) && Stands(es, id, i) && StaysAt(g, es, id, i)
  }

  /** The last action that moved the focus moved it to this object, and it has not been created again since. */
  ghost predicate HasFocus(g: Graph, es: seq<Entry>, id: Id) {
    || (Stands(es, id, -1) && StaysAt(g, es, id, -1) && id in g.objects && g.objects[id].focused)
    || (exists i :: 0 <= i < |es| && FocusedAt(g, es, id, i))
  }

  lemma {:induction false} StaysOneMore(g: Graph, es: seq<Entry>, e: Entry, id: Id, i: int)
    requires i < |es|
    ensures StaysAt(g, es + [e], id, i)
            <==> StaysAt(g, es, id, i) && (MovesFocus(g, es + [e], |es|) ==> Focuses(e, id))
    ensures StaysAt(g, es + [e], id, |es|)
  {
    hide Focuses, Known;
    var fs := es + [e];
    assert fs[|es|] == e;
    forall j | 0 <= j < |es|
      ensures fs[j] == es[j] && MovesFocus(g, fs, j) == MovesFocus(g, es, j)
    {
      assert fs[..j] == es[..j];
    }
  }

  lemma {:induction false} FocusOneMore(g: Graph, es: seq<Entry>, e: Entry, id: Id)
    ensures HasFocus(g, es + [e], id)
            <==> || Focuses(e, id)
                 || (HasFocus(g, es, id) && !Wipes(e, id) && !MovesFocus(g, es + [e], |es|))
  {
    var fs := es + [e];
    assert fs[|es|] == e;
    assert Focuses(e, id) ==> !Wipes(e, id);
    hide Focuses, Wipes, Stands, StaysAt, MovesFocus;
    StandsOneMore(es, e, id, -1);
    StaysOneMore(g, es, e, id, -1);
    forall i | 0 <= i < |es|
      ensures FocusedAt(g, fs, id, i)
              <==> FocusedAt(g, es, id, i) && !Wipes(e, id) && (MovesFocus(g, fs, |es|) ==> Focuses(e, id))
    {
      StandsOneMore(es, e, id, i);
      StaysOneMore(g, es, e, id, i);
      assert fs[i] == es[i];
    }
    assert FocusedAt(g, fs, id, |es|) <==> Focuses(e, id);
  }

  lemma {:induction false} TakesIsMoving(g: Graph, es: seq<Entry>, e: Entry)
    requires WellKeyed(g)
    ensures Takes(ReplayAll(g, es), e) <==> MovesFocus(g, es + [e], |es|)
  {
    assert (es + [e])[..|es|] == es;
    hide Known, ReplayAll;
    if e.what.ContextAction? {
      KnownIff(g, es, e.what.action.id);
    }
  }

  /** An object has the focus exactly if the last focus on an object there at the time was on it. */
  lemma {:induction false} FocusedIff(g: Graph, es: seq<Entry>, id: Id)
    requires WellKeyed(g) && id in ReplayAll(g, es).objects
    ensures ReplayAll(g, es).objects[id].focused <==> HasFocus(g, es, id)
    decreases |es|
  {
    if es != [] {
      hide ReplayEntry, HasFocus, SetsTier, TierSet, MovesFocus, Takes;
      var before, e := es[..|es| - 1], es[|es| - 1];
      assert es == before + [e];
      ReplayIsWellKeyed(g, before);
      EntryKnows(ReplayAll(g, before), e, id);
      FocusOneMore(g, before, e, id);
      TakesIsMoving(g, before, e);
      if Creates(e, id) {
        EntryCreates(ReplayAll(g, before), e, id);
      } else {
        EntryFocuses(ReplayAll(g, before), e, id);
        FocusedIff(g, before, id);
        if Focuses(e, id) {
          TakingFocuses(ReplayAll(g, before), e, id);
        }
      }
    }
  }

  lemma {:induction false} TakingFocuses(g: Graph, e: Entry, id: Id)
    requires id in g.objects && Focuses(e, id)
    ensures Takes(g, e)
  {
  }

  // ------------------------------------------------------------------
  // A session and its log
  // ------------------------------------------------------------------

  /** One action logged, if the object is there. */
  ghost predicate LogsOne(g: Graph, es: seq<Entry>, action: string, id: Id) {
    if id !in g.objects && action != "create" then es == []
    else |es| == 1 && Acts(es[0], action, id)
  }

  ghost predicate WakesOnly(es: seq<Entry>, now: int) {
    forall i :: 0 <= i < |es| ==>
      && es[i].what.ContextAction? && es[i].what.action.action == "setTier"
      && es[i].what.action.tier == Some(Active) && es[i].what.action.lastTouched == now
  }

  predicate NamesObject(e: Entry, k: Id) {
    e.what.ContextAction? && e.what.action.id == k
  }

  /**
   What an operation leaves in the log. A retraction is logged without its time; each object a query
   wakes is logged as a tier change.
   */
  ghost predicate Logs(g: Graph, op: Op, es: seq<Entry>) {
    match op
    case Clear => |es| == 1 && es[0].what.StateReset?
    case Create(id, kind, payload, now) =>
      LogsOne(g, es, "create", id)
      && es[0].what.action == LoggedAction("create", id, kind, Some(Active), Some(payload), now, now, now)
    case Update(id, patch, now) =>
      LogsOne(g, es, "update", id)
      && (es != [] ==> var p := es[0].what.action;
                       p.statePayload == Some(patch) && p.updated == now && p.lastTouched == now)
    case SetTier(id, tier, now) =>
      LogsOne(g, es, "setTier", id)
      && (es != [] ==> es[0].what.action.tier == Some(tier) && es[0].what.action.lastTouched == now)
    case Retract(id, _) => LogsOne(g, es, "retract", id)
    case SetFocus(id, now) =>
      LogsOne(g, es, "setFocus", id) && (es != [] ==> es[0].what.action.lastTouched == now)
    case Hydrate(matched, now) =>
      && WakesOnly(es, now)
      && (forall k :: Woken(g, matched, k) <==> exists i :: 0 <= i < |es| && NamesObject(es[i], k))
  }

  /** The same object; of a retracted one the times it was changed and touched may differ. */
  predicate SameObj(a: Obj, b: Obj) {
    a == b || (a.retracted && b == a.(updated := b.updated, lastTouched := b.lastTouched))
  }

  ghost predicate SameObjects(g: Graph, h: Graph) {
    g.objects.Keys == h.objects.Keys && forall k :: k in g.objects ==> SameObj(g.objects[k], h.objects[k])
  }

  lemma {:induction false} ReplayOne(g: Graph, e: Entry)
    ensures ReplayAll(g, [e]) == ReplayEntry(g, e)
  {
    assert [e][..0] == [];
  }

  lemma {:induction false} NewObjectRedoes(g: Graph, h: Graph, op: Op, es: seq<Entry>)
    requires Inv(g) && Inv(h) && SameObjects(g, h) && Allowed(g, op) && Logs(g, op, es)
    requires op.Clear? || op.Create?
    ensures SameObjects(Do(g, op), ReplayAll(h, es))
  {
    if es != [] {
      assert es == [es[0]];
      ReplayOne(h, es[0]);
    }
    hide ReplayAll;
  }

  lemma {:induction false} FocusingBoth(g: Graph, h: Graph, id: Id, now: int, p: LoggedAction)
    requires WellKeyed(g) && WellKeyed(h) && SameObjects(g, h) && id in g.objects
    requires p.action == "setFocus" && p.id == id && p.lastTouched == now
    ensures SameObjects(Do(g, SetFocus(id, now)), ReplayAction(h, p))
  {
    var a, b := Do(g, SetFocus(id, now)), ReplayAction(h, p);
    forall k | k in g.objects
      ensures SameObj(a.objects[k], b.objects[k])
    {
      assert SameObj(g.objects[k], h.objects[k]);
    }
  }

  lemma {:induction false} FocusRedoes(g: Graph, h: Graph, op: Op, es: seq<Entry>)
    requires Inv(g) && Inv(h) && SameObjects(g, h) && Logs(g, op, es) && op.SetFocus?
    ensures SameObjects(Do(g, op), ReplayAll(h, es))
  {
    if es != [] {
      assert op.id in g.objects && es[0].what.action.lastTouched == op.now;
      hide Do, ReplayAction;
      assert es == [es[0]];
      ReplayOne(h, es[0]);
      hide ReplayAll;
      FocusingBoth(g, h, op.id, op.now, es[0].what.action);
    }
  }

  lemma {:induction false} ChangeRedoes(g: Graph, h: Graph, op: Op, es: seq<Entry>)
    requires Inv(g) && Inv(h) && SameObjects(g, h) && Logs(g, op, es)
    requires op.Update? || op.SetTier? || op.Retract?
    ensures SameObjects(Do(g, op), ReplayAll(h, es))
  {
    if es != [] {
      assert es == [es[0]];
      ReplayOne(h, es[0]);
    }
    hide ReplayAll;
  }

  /** Replayed tier changes wake exactly the objects they name. */
  lemma {:induction false} WakingWakes(h: Graph, es: seq<Entry>, k: Id, now: int)
    requires WakesOnly(es, now)
    ensures ReplayAll(h, es).objects.Keys == h.objects.Keys
    ensures k in h.objects ==>
              ReplayAll(h, es).objects[k]
              == if exists i :: 0 <= i < |es| && NamesObject(es[i], k)
                 then h.objects[k].(tier := Active, lastTouched := now) else h.objects[k]
    decreases |es|
  {
    if es != [] {
      var before, e := es[..|es| - 1], es[|es| - 1];
      WakingWakes(h, before, k, now);
      assert forall i :: 0 <= i < |before| ==> before[i] == es[i];
      if exists i :: 0 <= i < |before| && NamesObject(before[i], k) {
        var i :| 0 <= i < |before| && NamesObject(before[i], k);
        assert NamesObject(es[i], k);
      }
      assert NamesObject(e, k) ==> NamesObject(es[|es| - 1], k);
    }
  }

  lemma {:induction false} HydrationRedoes(g: Graph, h: Graph, op: Op, es: seq<Entry>)
    requires SameObjects(g, h) && Logs(g, op, es) && op.Hydrate?
    ensures SameObjects(Do(g, op), ReplayAll(h, es))
  {
    hide ReplayAll;
    WakingWakes(h, es, 0, op.now);
    forall k | k in g.objects
      ensures SameObj(Do(g, op).objects[k], ReplayAll(h, es).objects[k])
    {
      WakingWakes(h, es, k, op.now);
    }
  }

  lemma {:induction false} OperationRedoes(g: Graph, h: Graph, op: Op, es: seq<Entry>)
    requires Inv(g) && Inv(h) && SameObjects(g, h) && Allowed(g, op) && Logs(g, op, es)
    ensures SameObjects(Do(g, op), ReplayAll(h, es))
  {
    hide ReplayAll, Do, Logs, SameObjects;
    if op.Hydrate? {
      HydrationRedoes(g, h, op, es);
    } else if op.Update? || op.SetTier? || op.Retract? {
      ChangeRedoes(g, h, op, es);
    } else if op.SetFocus? {
      FocusRedoes(g, h, op, es);
    } else {
      NewObjectRedoes(g, h, op, es);
    }
  }

  function DoAll(g: Graph, ops: seq<Op>): Graph
    decreases |ops|
  {
    if ops == [] then g else DoAll(Do(g, ops[0]), ops[1..])
  }

  /** The log of a session: what each operation leaves, one after another. */
  ghost predicate LogsAll(g: Graph, ops: seq<Op>, es: seq<Entry>)
    decreases |ops|
  {
    if ops == [] then es == []
    else exists n :: 0 <= n <= |es| && LogsFirst(g, ops, es, n)
  }

  ghost predicate LogsFirst(g: Graph, ops: seq<Op>, es: seq<Entry>, n: nat)
    requires ops != [] && n <= |es|
    decreases |ops|, 0
  {
    Allowed(g, ops[0]) && Logs(g, ops[0], es[..n]) && LogsAll(Do(g, ops[0]), ops[1..], es[n..])
  }

  /**
   Replaying the log of a session on the objects it began with gives the objects it ended
   with, but for the times a retracted one was changed and touched.
   */
  lemma {:induction false} ReplayRestoresSession(g: Graph, h: Graph, ops: seq<Op>, es: seq<Entry>)
    requires Inv(g) && Inv(h) && SameObjects(g, h) && LogsAll(g, ops, es)
    ensures SameObjects(DoAll(g, ops), ReplayAll(h, es))
    decreases |ops|
  {
    if ops == [] {
    } else {
      hide Do, Logs, ReplayAll, SameObjects, Inv;
      var n :| 0 <= n <= |es| && LogsFirst(g, ops, es, n);
      OperationRedoes(g, h, ops[0], es[..n]);
      DoKeepsInv(g, ops[0]);
      ReplayAllKeepsInv(h, es[..n]);
      ReplayRestoresSession(Do(g, ops[0]), ReplayAll(h, es[..n]), ops[1..], es[n..]);
      ReplayConcat(h, es[..n], es[n..]);
      assert es[..n] + es[n..] == es;
    }
  }

  /** So a session that begins with an empty memory is restored by its log. */
  lemma {:induction false} LogRestoresMemory(ops: seq<Op>, es: seq<Entry>)
    requires LogsAll(EMPTY_GRAPH, ops, es)
    ensures SameObjects(DoAll(EMPTY_GRAPH, ops), ReplayAll(EMPTY_GRAPH, es))
  {
    ReplayRestoresSession(EMPTY_GRAPH, EMPTY_GRAPH, ops, es);
  }
}
