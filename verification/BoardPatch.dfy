/** Patching a board: plain fields, free-form properties, and the ordered list of card properties. */
module BoardPatch {

  import opened Sequences

  /** A card property, which may lack a usable ID. */
  datatype Prop = Prop(id: string, body: string) | Bad(body: string)

  datatype Patch = Patch(
    kind: Option<string>, title: Option<string>, minimumRole: Option<string>, description: Option<string>,
    icon: Option<string>, showDescription: Option<bool>, channelID: Option<string>,
    updatedProperties: map<string, string>, deletedProperties: seq<string>,
    updatedCardProperties: seq<Prop>, deletedCardProperties: seq<string>)

  function OrElse<T>(o: Option<T>, default: T): T {
    if o.Some? then o.value else default
  }

  /** The IDs of the usable properties, in order. */
  function Ids(ps: seq<Prop>): seq<string> {
    if ps == [] then []
    else
      var before, p := Ids(ps[..|ps| - 1]), ps[|ps| - 1];
      if p.Prop? then before + [p.id] else before
  }

  /** The last property with the ID. */
  function Last(ps: seq<Prop>, id: string): Option<Prop> {
    if ps == [] then None
    else if ps[|ps| - 1].Prop? && ps[|ps| - 1].id == id then Some(ps[|ps| - 1])
    else Last(ps[..|ps| - 1], id)
  }

  /** What a patch leaves for an ID: its last update, or the old property if it is not deleted. */
  function Final(was: seq<Prop>, deleted: seq<string>, updated: seq<Prop>, id: string): Option<Prop> {
    if Last(updated, id).Some? then Last(updated, id)
    else if id in deleted then None
    else Last(was, id)
  }

  /** The IDs of updates for which nothing is left to update, in the order of first appearance. */
  function NewIds(was: seq<Prop>, deleted: seq<string>, updated: seq<Prop>): seq<string> {
    if updated == [] then []
    else
      var before, u := updated[..|updated| - 1], updated[|updated| - 1];
      var ids := NewIds(was, deleted, before);
      if u.Prop? && Final(was, deleted, before, u.id).None? then ids + [u.id] else ids
  }

  function Flatten(order: seq<string>, was: seq<Prop>, deleted: seq<string>, updated: seq<Prop>): seq<Prop> {
    if order == [] then []
    else
      var before := Flatten(order[..|order| - 1], was, deleted, updated);
      var f := Final(was, deleted, updated, order[|order| - 1]);
      if f.Some? then before + [f.value] else before
  }

  function Patched(was: seq<Prop>, deleted: seq<string>, updated: seq<Prop>): seq<Prop> {
    if deleted == [] && updated == [] then was
    else Flatten(Ids(was) + NewIds(was, deleted, updated), was, deleted, updated)
  }

  function Lookup(m: map<string, Prop>, id: string): Option<Prop> {
    if id in m then Some(m[id]) else None
  }

  /** The map holds what the patch so far leaves for each ID. */
  ghost predicate Indexes(m: map<string, Prop>, was: seq<Prop>, deleted: seq<string>, updated: seq<Prop>) {
    forall id :: Lookup(m, id) == Final(was, deleted, updated, id)
  }

  function Put(m: map<string, Prop>, p: Prop): map<string, Prop> {
    if p.Prop? then m[p.id := p] else m
  }

  lemma IndexesOld(m: map<string, Prop>, ps: seq<Prop>, p: Prop)
    requires Indexes(m, ps, [], [])
    ensures Indexes(Put(m, p), ps + [p], [], [])
  {
    forall id ensures Lookup(Put(m, p), id) == Final(ps + [p], [], [], id) {
      assert Lookup(m, id) == Final(ps, [], [], id);
      assert (ps + [p])[..|ps|] == ps;
    }
  }

  lemma IndexesDeleted(m: map<string, Prop>, was: seq<Prop>, deleted: seq<string>, key: string)
    requires Indexes(m, was, deleted, [])
    ensures Indexes(m - {key}, was, deleted + [key], [])
  {
    forall id ensures Lookup(m - {key}, id) == Final(was, deleted + [key], [], id) {
      assert Lookup(m, id) == Final(was, deleted, [], id);
    }
  }

  lemma IndexesUpdated(m: map<string, Prop>, was: seq<Prop>, deleted: seq<string>, updated: seq<Prop>, p: Prop)
    requires Indexes(m, was, deleted, updated)
    ensures Indexes(Put(m, p), was, deleted, updated + [p])
  {
    forall id ensures Lookup(Put(m, p), id) == Final(was, deleted, updated + [p], id) {
      assert Lookup(m, id) == Final(was, deleted, updated, id);
      assert (updated + [p])[..|updated|] == updated;
    }
  }

  method IndexProperties(props: seq<Prop>) returns (m: map<string, Prop>, keyOrder: seq<string>)
    ensures Indexes(m, props, [], []) && keyOrder == Ids(props)
  {
    m, keyOrder := map[], [];
    for i := 0 to |props|
      invariant Indexes(m, props[..i], [], []) && keyOrder == Ids(props[..i])
    {
      assert props[..i + 1] == props[..i] + [props[i]] && props[..i + 1][..i] == props[..i];
      IndexesOld(m, props[..i], props[i]);
      if props[i].Prop? {
        m := m[props[i].id := props[i]];
        keyOrder := keyOrder + [props[i].id];
      }
    }
    assert props[..|props|] == props;
  }

  method DeleteAll(index: map<string, Prop>, props: seq<Prop>, deleted: seq<string>) returns (m: map<string, Prop>)
    requires Indexes(index, props, [], [])
    ensures Indexes(m, props, deleted, [])
  {
    m := index;
    for i := 0 to |deleted|
      invariant Indexes(m, props, deleted[..i], [])
    {
      assert deleted[..i + 1] == deleted[..i] + [deleted[i]];
      IndexesDeleted(m, props, deleted[..i], deleted[i]);
      m := m - {deleted[i]};
    }
    assert deleted[..|deleted|] == deleted;
  }

  method UpdateAll(index: map<string, Prop>, keys: seq<string>, props: seq<Prop>, deleted: seq<string>,
                   updated: seq<Prop>)
    returns (m: map<string, Prop>, keyOrder: seq<string>)
    requires Indexes(index, props, deleted, [])
    ensures Indexes(m, props, deleted, updated) && keyOrder == keys + NewIds(props, deleted, updated)
  {
    m, keyOrder := index, keys;
    for i := 0 to |updated|
      invariant Indexes(m, props, deleted, updated[..i]) && keyOrder == keys + NewIds(props, deleted, updated[..i])
    {
      assert updated[..i + 1] == updated[..i] + [updated[i]] && updated[..i + 1][..i] == updated[..i];
      IndexesUpdated(m, props, deleted, updated[..i], updated[i]);
      var newprop := updated[i];
      if newprop.Prop? {
        assert Lookup(m, newprop.id) == Final(props, deleted, updated[..i], newprop.id);
        if newprop.id !in m {
          keyOrder := keyOrder + [newprop.id];
        }
        m := m[newprop.id := newprop];
      }
    }
    assert updated[..|updated|] == updated;
  }

  method FlattenAll(m: map<string, Prop>, keyOrder: seq<string>, ghost props: seq<Prop>, ghost deleted: seq<string>,
                    ghost updated: seq<Prop>)
    returns (r: seq<Prop>)
    requires Indexes(m, props, deleted, updated)
    ensures r == Flatten(keyOrder, props, deleted, updated)
  {
    r := [];
    for i := 0 to |keyOrder|
      invariant r == Flatten(keyOrder[..i], props, deleted, updated)
    {
      assert keyOrder[..i + 1][..i] == keyOrder[..i];
      assert Lookup(m, keyOrder[i]) == Final(props, deleted, updated, keyOrder[i]);
      if keyOrder[i] in m {
        r := r + [m[keyOrder[i]]];
      }
    }
    assert keyOrder[..|keyOrder|] == keyOrder;
  }

  class Board {
    var kind: string
    var title: string
    var minimumRole: string
    var description: string
    var icon: string
    var showDescription: bool
    var channelID: string
    var properties: map<string, string>
    var cardProperties: seq<Prop>

    method ApplyPatch(p: Patch)
      modifies this
      ensures kind == OrElse(p.kind, old(kind)) && title == OrElse(p.title, old(title)) &&
                minimumRole == OrElse(p.minimumRole, old(minimumRole))
      ensures description == OrElse(p.description, old(description)) && icon == OrElse(p.icon, old(icon))
      ensures showDescription == OrElse(p.showDescription, old(showDescription)) &&
                channelID == OrElse(p.channelID, old(channelID))
      ensures properties == (old(properties) + p.updatedProperties) - (set k | k in p.deletedProperties)
      ensures cardProperties == Patched(old(cardProperties), p.deletedCardProperties, p.updatedCardProperties)
    {
      kind, title, minimumRole := OrElse(p.kind, kind), OrElse(p.title, title), OrElse(p.minimumRole, minimumRole);
      description, icon := OrElse(p.description, description), OrElse(p.icon, icon);
      showDescription, channelID := OrElse(p.showDescription, showDescription), OrElse(p.channelID, channelID);
      properties := PatchProperties(properties, p.updatedProperties, p.deletedProperties);
      if |p.updatedCardProperties| != 0 || |p.deletedCardProperties| != 0 {
        var m, keyOrder := IndexProperties(cardProperties);
        m := DeleteAll(m, cardProperties, p.deletedCardProperties);
        m, keyOrder := UpdateAll(m, keyOrder, cardProperties, p.deletedCardProperties, p.updatedCardProperties);
        cardProperties := FlattenAll(m, keyOrder, cardProperties, p.deletedCardProperties, p.updatedCardProperties);
      }
    }
  }

  method PatchProperties(properties: map<string, string>, updated: map<string, string>, deleted: seq<string>)
    returns (r: map<string, string>)
    ensures r == (properties + updated) - (set k | k in deleted)
  {
    r := properties;
    var todo := updated.Keys;
    while todo != {}
      invariant todo <= updated.Keys
      invariant r.Keys == properties.Keys + (updated.Keys - todo)
      invariant forall k :: k in r ==> r[k] == if k in updated.Keys - todo then updated[k] else properties[k]
      decreases todo
    {
      var key :| key in todo;
      r := r[key := updated[key]];
      todo := todo - {key};
    }
    assert r == properties + updated;
    for i := 0 to |deleted|
      invariant r == (properties + updated) - (set k | k in deleted[..i])
    {
      assert deleted[..i + 1] == deleted[..i] + [deleted[i]];
      r := r - {deleted[i]};
    }
    assert deleted[..|deleted|] == deleted;
  }

  // ----- what the card properties become

  lemma TimesPush(s: seq<string>, y: string, x: string)
    ensures Times(s + [y], x) == Times(s, x) + if x == y then 1 else 0
  {
    TimesJoin(s, [y], x);
    assert Times([y], x) == if x == y then 1 else 0;
  }

  lemma IdsPush(ps: seq<Prop>, p: Prop)
    ensures Ids(ps + [p]) == if p.Prop? then Ids(ps) + [p.id] else Ids(ps)
  {
    assert (ps + [p])[..|ps|] == ps;
  }

  lemma {:induction false} LastIn(ps: seq<Prop>, id: string)
    ensures Last(ps, id).Some? <==> id in Ids(ps)
    ensures Last(ps, id).Some? ==> Last(ps, id).value.Prop? && Last(ps, id).value.id == id && Last(ps, id).value in ps
  {
    if ps == [] {
    } else {
      var before, p := ps[..|ps| - 1], ps[|ps| - 1];
      LastIn(before, id);
      assert ps == before + [p];
    }
  }

  lemma {:induction false} NewTimes(was: seq<Prop>, deleted: seq<string>, updated: seq<Prop>, id: string)
    ensures Times(NewIds(was, deleted, updated), id) ==
              if id in Ids(updated) && (id in deleted || id !in Ids(was)) then 1 else 0
  {
    if updated == [] {
    } else {
      var before, u := updated[..|updated| - 1], updated[|updated| - 1];
      NewTimes(was, deleted, before, id);
      LastIn(was, id);
      LastIn(before, id);
      if u.Prop? && Final(was, deleted, before, u.id).None? {
        TimesPush(NewIds(was, deleted, before), u.id, id);
      }
    }
  }

  lemma {:induction false} FlattenTimes(order: seq<string>, was: seq<Prop>, deleted: seq<string>, updated: seq<Prop>,
                                        id: string)
    ensures Times(Ids(Flatten(order, was, deleted, updated)), id) ==
              if Final(was, deleted, updated, id).Some? then Times(order, id) else 0
  {
    if order == [] {
    } else {
      var k, early := order[|order| - 1], order[..|order| - 1];
      var before, f := Flatten(early, was, deleted, updated), Final(was, deleted, updated, k);
      FlattenTimes(early, was, deleted, updated, id);
      assert Times(order, id) == Times(early, id) + if id == k then 1 else 0 by {
        assert order == early + [k];
        TimesPush(early, k, id);
      }
      if f.Some? {
        LastIn(was, k);
        LastIn(updated, k);
        IdsPush(before, f.value);
        TimesPush(Ids(before), k, id);
      }
    }
  }

  /** How often an ID comes out: as often as it was there unless it is deleted, and once more if it is
      updated and was not there or is deleted. */
  lemma PatchedTimes(was: seq<Prop>, deleted: seq<string>, updated: seq<Prop>, id: string)
    ensures Times(Ids(Patched(was, deleted, updated)), id) ==
              if id in Ids(updated) then Times(Ids(was), id) + if id in deleted || id !in Ids(was) then 1 else 0
              else if id in deleted then 0
              else Times(Ids(was), id)
  {
    if deleted != [] || updated != [] {
      FlattenTimes(Ids(was) + NewIds(was, deleted, updated), was, deleted, updated, id);
      TimesJoin(Ids(was), NewIds(was, deleted, updated), id);
      NewTimes(was, deleted, updated, id);
      LastIn(was, id);
      LastIn(updated, id);
      TimesIn(Ids(was), id);
    }
  }

  /** Distinct IDs stay distinct exactly if no existing property is both deleted and updated. */
  lemma StaysDistinctIff(was: seq<Prop>, deleted: seq<string>, updated: seq<Prop>)
    requires NoRepeats(Ids(was))
    ensures NoRepeats(Ids(Patched(was, deleted, updated))) <==>
              !exists id :: id in Ids(was) && id in deleted && id in Ids(updated)
  {
    var after := Ids(Patched(was, deleted, updated));
    NoRepeatsIff(after);
    if id :| id in Ids(was) && id in deleted && id in Ids(updated) {
      PatchedTimes(was, deleted, updated, id);
      TimesIn(Ids(was), id);
      assert Times(after, id) > 1;
    } else {
      forall id ensures Times(after, id) <= 1 {
        PatchedTimes(was, deleted, updated, id);
        TimesIn(Ids(was), id);
      }
    }
  }

  /** The surviving old properties in their order, each replaced by its last update. */
  function Survivors(was: seq<Prop>, deleted: seq<string>, updated: seq<Prop>): seq<Prop> {
    if was == [] then []
    else
      var before, p := Survivors(was[..|was| - 1], deleted, updated), was[|was| - 1];
      if p.Bad? || p.id in deleted then before else before + [OrElse(Last(updated, p.id), p)]
  }

  /** The IDs of the updates that are not among the given ones, in the order of first appearance. */
  function Fresh(updated: seq<Prop>, known: seq<string>): seq<string> {
    if updated == [] then []
    else
      var before, u := updated[..|updated| - 1], updated[|updated| - 1];
      var ids := Fresh(before, known);
      if u.Prop? && u.id !in known && u.id !in Ids(before) then ids + [u.id] else ids
  }

  function LastOf(updated: seq<Prop>, ids: seq<string>): seq<Prop> {
    if ids == [] then []
    else
      var before, u := LastOf(updated, ids[..|ids| - 1]), Last(updated, ids[|ids| - 1]);
      if u.Some? then before + [u.value] else before
  }

  lemma {:induction false} FlattenOld(ps: seq<Prop>, was: seq<Prop>, deleted: seq<string>, updated: seq<Prop>)
    requires forall p :: p in ps && p.Prop? ==> Last(was, p.id) == Some(p)
    requires !exists id :: id in Ids(was) && id in deleted && id in Ids(updated)
    ensures Flatten(Ids(ps), was, deleted, updated) == Survivors(ps, deleted, updated)
  {
    if ps == [] {
    } else {
      var before, p := ps[..|ps| - 1], ps[|ps| - 1];
      FlattenOld(before, was, deleted, updated);
      assert p in ps;
      if p.Prop? {
        LastIn(was, p.id);
        LastIn(updated, p.id);
        assert (Ids(before) + [p.id])[..|Ids(before)|] == Ids(before);
      }
    }
  }

  lemma {:induction false} FlattenNew(ids: seq<string>, was: seq<Prop>, deleted: seq<string>, updated: seq<Prop>)
    requires forall id :: id in ids ==> id in Ids(updated)
    ensures Flatten(ids, was, deleted, updated) == LastOf(updated, ids)
  {
    if ids == [] {
    } else {
      FlattenNew(ids[..|ids| - 1], was, deleted, updated);
      LastIn(updated, ids[|ids| - 1]);
      assert ids[|ids| - 1] in ids;
    }
  }

  lemma {:induction false} FlattenJoin(s: seq<string>, t: seq<string>, was: seq<Prop>, deleted: seq<string>,
                                       updated: seq<Prop>)
    ensures Flatten(s + t, was, deleted, updated) == Flatten(s, was, deleted, updated) +
              Flatten(t, was, deleted, updated)
  {
    if t == [] {
      assert s + t == s;
    } else {
      assert (s + t)[..|s + t| - 1] == s + t[..|t| - 1];
      FlattenJoin(s, t[..|t| - 1], was, deleted, updated);
    }
  }

  lemma {:induction false} NewAreFresh(was: seq<Prop>, deleted: seq<string>, updated: seq<Prop>)
    requires !exists id :: id in Ids(was) && id in deleted && id in Ids(updated)
    ensures NewIds(was, deleted, updated) == Fresh(updated, Ids(was))
    ensures forall id :: id in Fresh(updated, Ids(was)) ==> id in Ids(updated)
  {
    if updated == [] {
    } else {
      var before, u := updated[..|updated| - 1], updated[|updated| - 1];
      assert forall id :: id in Ids(before) ==> id in Ids(updated);
      NewAreFresh(was, deleted, before);
      if u.Prop? {
        assert u.id in Ids(updated);
        LastIn(before, u.id);
        LastIn(was, u.id);
      }
    }
  }

  lemma {:induction false} LastOfDistinct(ps: seq<Prop>, p: Prop)
    requires NoRepeats(Ids(ps)) && p in ps && p.Prop?
    ensures Last(ps, p.id) == Some(p)
  {
    var before, last := ps[..|ps| - 1], ps[|ps| - 1];
    assert NoRepeats(Ids(before)) by {
      assert forall i :: 0 <= i < |Ids(before)| ==> Ids(before)[i] == Ids(ps)[i];
    }
    forall i | 0 <= i < |Ids(before)| && last.Prop? ensures Ids(before)[i] != last.id {
      assert Ids(ps)[i] == Ids(before)[i] && Ids(ps)[|Ids(before)|] == last.id;
    }
    if p == last {
    } else {
      assert p in before;
      LastOfDistinct(before, p);
      LastIn(before, p.id);
    }
  }

  /** For distinct IDs none of which is both deleted and updated, the result is the surviving old
      properties in their order, each replaced by its last update, and then the new ones in the order of
      their first appearance, each with its last value. */
  lemma PatchedIsSimple(was: seq<Prop>, deleted: seq<string>, updated: seq<Prop>)
    requires NoRepeats(Ids(was)) && (deleted != [] || updated != [])
    requires !exists id :: id in Ids(was) && id in deleted && id in Ids(updated)
    ensures Patched(was, deleted, updated) ==
              Survivors(was, deleted, updated) + LastOf(updated, Fresh(updated, Ids(was)))
  {
    forall p | p in was && p.Prop? ensures Last(was, p.id) == Some(p) {
      LastOfDistinct(was, p);
    }
    FlattenJoin(Ids(was), NewIds(was, deleted, updated), was, deleted, updated);
    FlattenOld(was, was, deleted, updated);
    NewAreFresh(was, deleted, updated);
    FlattenNew(Fresh(updated, Ids(was)), was, deleted, updated);
  }

  // ----- any lists

  /** The property is the last in the list with its ID. */
  ghost predicate IsLast(ps: seq<Prop>, p: Prop) {
    p.Prop? &&
    exists i :: 0 <= i < |ps| && ps[i] == p && forall j :: i < j < |ps| && ps[j].Prop? ==> ps[j].id != p.id
  }

  ghost predicate Names(ps: seq<Prop>, id: string) {
    exists i :: 0 <= i < |ps| && ps[i].Prop? && ps[i].id == id
  }

  lemma {:induction false} LastIff(ps: seq<Prop>, p: Prop)
    requires p.Prop?
    ensures Last(ps, p.id).Some? <==> Names(ps, p.id)
    ensures Last(ps, p.id) == Some(p) <==> IsLast(ps, p)
  {
    if ps == [] {
    } else {
      var n := |ps| - 1;
      LastIff(ps[..n], p);
      if ps[n].Prop? && ps[n].id == p.id {
      } else {
        assert forall i :: 0 <= i < n ==> ps[..n][i] == ps[i];
      }
    }
  }

  /** What a patch leaves: of the updates the last with each ID, and of the old properties the last with each ID
      that is neither deleted nor updated. */
  lemma PatchedHolds(was: seq<Prop>, deleted: seq<string>, updated: seq<Prop>, p: Prop)
    requires deleted != [] || updated != []
    ensures p in Patched(was, deleted, updated) <==>
              p.Prop? && if Names(updated, p.id) then IsLast(updated, p) else p.id !in deleted && IsLast(was, p)
  {
    var after := Patched(was, deleted, updated);
    FlattenSettled(Ids(was) + NewIds(was, deleted, updated), was, deleted, updated);
    if p.Prop? {
      LastIff(updated, p);
      LastIff(was, p);
      LastIn(updated, p.id);
      LastIn(was, p.id);
      if Final(was, deleted, updated, p.id) == Some(p) {
        PatchedTimes(was, deleted, updated, p.id);
        TimesIn(Ids(was), p.id);
        TimesIn(Ids(after), p.id);
        LastIn(after, p.id);
        LastSettled(after, was, deleted, updated, p.id);
      }
    }
  }

  // ----- applying a patch again

  /** Each property is what the patch leaves for its ID. */
  ghost predicate Settled(ps: seq<Prop>, was: seq<Prop>, deleted: seq<string>, updated: seq<Prop>) {
    forall i :: 0 <= i < |ps| ==> ps[i].Prop? && Final(was, deleted, updated, ps[i].id) == Some(ps[i])
  }

  lemma {:induction false} FlattenSettled(order: seq<string>, was: seq<Prop>, deleted: seq<string>, updated: seq<Prop>)
    ensures Settled(Flatten(order, was, deleted, updated), was, deleted, updated)
  {
    if order == [] {
    } else {
      FlattenSettled(order[..|order| - 1], was, deleted, updated);
      LastIn(was, order[|order| - 1]);
      LastIn(updated, order[|order| - 1]);
    }
  }

  lemma {:induction false} LastSettled(ps: seq<Prop>, was: seq<Prop>, deleted: seq<string>, updated: seq<Prop>,
                                       id: string)
    requires Settled(ps, was, deleted, updated) && id in Ids(ps)
    ensures Last(ps, id) == Final(was, deleted, updated, id)
  {
    var before, p := ps[..|ps| - 1], ps[|ps| - 1];
    if p.id == id {
    } else {
      LastSettled(before, was, deleted, updated, id);
    }
  }

  /** Flattening the IDs of settled properties gives them back. */
  lemma {:induction false} FlattenBack(ps: seq<Prop>, was: seq<Prop>, deleted: seq<string>, updated: seq<Prop>)
    requires Settled(ps, was, deleted, updated)
    ensures Flatten(Ids(ps), was, deleted, updated) == ps
  {
    if ps == [] {
    } else {
      var before, p := ps[..|ps| - 1], ps[|ps| - 1];
      FlattenBack(before, was, deleted, updated);
      assert ps == before + [p];
      assert (Ids(before) + [p.id])[..|Ids(before)|] == Ids(before);
    }
  }

  lemma {:induction false} FlattenAgain(order: seq<string>, ps: seq<Prop>, was: seq<Prop>, deleted: seq<string>,
                                        updated: seq<Prop>)
    requires Settled(ps, was, deleted, updated)
    requires !exists id :: id in deleted && id in Ids(updated)
    requires forall id :: id in order ==> id in Ids(ps)
    ensures Flatten(order, ps, deleted, updated) == Flatten(order, was, deleted, updated)
  {
    if order == [] {
    } else {
      var k := order[|order| - 1];
      assert k in order;
      FlattenAgain(order[..|order| - 1], ps, was, deleted, updated);
      LastSettled(ps, was, deleted, updated, k);
      LastIn(ps, k);
      LastIn(updated, k);
    }
  }

  lemma {:induction false} NoneNew(was: seq<Prop>, deleted: seq<string>, updated: seq<Prop>)
    requires forall id :: id in Ids(updated) ==> id in Ids(was) && id !in deleted
    ensures NewIds(was, deleted, updated) == []
  {
    if updated == [] {
    } else {
      var before, u := updated[..|updated| - 1], updated[|updated| - 1];
      assert forall id :: id in Ids(before) ==> id in Ids(updated);
      NoneNew(was, deleted, before);
      if u.Prop? {
        assert u.id in Ids(updated);
        LastIn(was, u.id);
      }
    }
  }

  /** Applying a patch again changes nothing exactly if it deletes nothing that it updates. */
  lemma AgainChangesNothingIff(was: seq<Prop>, deleted: seq<string>, updated: seq<Prop>)
    ensures var once := Patched(was, deleted, updated);
            Patched(once, deleted, updated) == once <==> !exists id :: id in deleted && id in Ids(updated)
  {
    var once := Patched(was, deleted, updated);
    if id :| id in deleted && id in Ids(updated) {
      PatchedTimes(was, deleted, updated, id);
      PatchedTimes(once, deleted, updated, id);
    } else if deleted != [] || updated != [] {
      var order := Ids(was) + NewIds(was, deleted, updated);
      FlattenSettled(order, was, deleted, updated);
      forall id | id in Ids(updated) ensures id in Ids(once) && id !in deleted {
        PatchedTimes(was, deleted, updated, id);
        TimesIn(Ids(was), id);
        TimesIn(Ids(once), id);
      }
      NoneNew(once, deleted, updated);
      assert Ids(once) + [] == Ids(once);
      FlattenAgain(Ids(once), once, was, deleted, updated);
      FlattenBack(once, was, deleted, updated);
    }
  }
}
