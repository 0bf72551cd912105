/** Grouping the cards of a view into columns: the visible and the hidden columns of a view, hiding and
    showing columns, and the placing of every card in one column. */
module BoardGroups {

  import opened Cards
  import opened Sequences

  datatype GroupBy = NoGrouping | By(template: Template)

  datatype Group = Group(option: Choice, cards: seq<Card>)

  // ----- hiding and showing columns

  datatype Columns = Columns(visible: seq<string>, hidden: seq<string>)

  /** No column is listed twice. */
  ghost predicate Tidy(v: Columns) {
    NoRepeats(v.visible) && NoRepeats(v.hidden) && forall c :: c in v.visible ==> c !in v.hidden
  }

  predicate AllIn(ids: seq<string>, s: seq<string>) {
    forall id :: id in ids ==> id in s
  }

  function Except(s: seq<string>, ids: seq<string>): (r: seq<string>)
    ensures forall x :: x in r <==> x in s && x !in ids
  {
    if s == [] then []
    else (if s[0] in ids then [] else [s[0]]) + Except(s[1..], ids)
  }

  lemma {:induction false} ExceptFilters(s: seq<string>, ids: seq<string>)
    ensures Except(s, ids) == Filter(s, (id: string) => id !in ids)
  {
    if s == [] {
    } else {
      ExceptFilters(s[1..], ids);
    }
  }

  function Hidden(v: Columns, ids: seq<string>): Columns {
    if AllIn(ids, v.hidden) then v else Columns(Except(v.visible, ids), v.hidden + ids)
  }

  function Unhidden(v: Columns, ids: seq<string>): Columns {
    if AllIn(ids, v.visible) then v else Columns(Except(v.visible, ids) + ids, Except(v.hidden, ids))
  }

  lemma {:induction false} ExceptNoRepeats(s: seq<string>, ids: seq<string>)
    requires NoRepeats(s)
    ensures NoRepeats(Except(s, ids))
  {
    if s == [] {
    } else {
      ExceptNoRepeats(s[1..], ids);
    }
  }

  /** Hiding several columns at once keeps the lists tidy exactly if all were hidden already, or none
      was and none is named twice. */
  lemma HideTidyIff(v: Columns, ids: seq<string>)
    requires Tidy(v)
    ensures Tidy(Hidden(v, ids)) <==>
              AllIn(ids, v.hidden) || (NoRepeats(ids) && forall id :: id in ids ==> id !in v.hidden)
  {
    ExceptNoRepeats(v.visible, ids);
    JoinNoRepeats(v.hidden, ids);
    if !AllIn(ids, v.hidden) {
      assert (forall id :: id in ids ==> id !in v.hidden) <==> (forall x :: x in v.hidden ==> x !in ids);
    }
  }

  /** Showing several columns at once keeps the lists tidy exactly if all were visible already, or none
      is named twice. */
  lemma UnhideTidyIff(v: Columns, ids: seq<string>)
    requires Tidy(v)
    ensures Tidy(Unhidden(v, ids)) <==> AllIn(ids, v.visible) || NoRepeats(ids)
  {
    ExceptNoRepeats(v.visible, ids);
    ExceptNoRepeats(v.hidden, ids);
    JoinNoRepeats(Except(v.visible, ids), ids);
  }

  datatype Op = HideColumn(id: string) | UnhideColumn(id: string)

  function Apply(v: Columns, op: Op): Columns {
    match op
    case HideColumn(id) => Hidden(v, [id])
    case UnhideColumn(id) => Unhidden(v, [id])
  }

  function Run(v: Columns, ops: seq<Op>): Columns
    decreases |ops|
  {
    if ops == [] then v else Run(Apply(v, ops[0]), ops[1..])
  }

  /** However columns are hidden and shown one at a time, none is ever listed twice or lost. */
  lemma {:induction false} RunTidy(v: Columns, ops: seq<Op>)
    requires Tidy(v)
    ensures Tidy(Run(v, ops))
    ensures AllIn(v.visible + v.hidden, Run(v, ops).visible + Run(v, ops).hidden)
    decreases |ops|
  {
    if ops == [] {
    } else {
      HideTidyIff(v, [ops[0].id]);
      UnhideTidyIff(v, [ops[0].id]);
      RunTidy(Apply(v, ops[0]), ops[1..]);
    }
  }

  class View {
    var visibleOptionIds: seq<string>
    var hiddenOptionIds: seq<string>

    ghost function Contents(): Columns
      reads this
    {
      Columns(visibleOptionIds, hiddenOptionIds)
    }

    method HideViewColumns(columnOptionIds: seq<string>)
      modifies this
      ensures Contents() == Hidden(old(Contents()), columnOptionIds)
      ensures (forall id :: id in columnOptionIds ==> id in old(hiddenOptionIds)) ==> unchanged(this)
      ensures (exists id :: id in columnOptionIds && id !in old(hiddenOptionIds)) ==>
                && visibleOptionIds == Filter(old(visibleOptionIds), (id: string) => id !in columnOptionIds)
                && hiddenOptionIds == old(hiddenOptionIds) + columnOptionIds
    {
      if AllIn(columnOptionIds, hiddenOptionIds) {
        return;
      }
      ExceptFilters(visibleOptionIds, columnOptionIds);
      visibleOptionIds := Except(visibleOptionIds, columnOptionIds);
      hiddenOptionIds := hiddenOptionIds + columnOptionIds;
    }

    method HideViewColumn(columnOptionId: string)
      modifies this
      ensures Contents() == Apply(old(Contents()), HideColumn(columnOptionId))
      ensures old(Tidy(Contents())) ==>
                Tidy(Contents()) && columnOptionId in hiddenOptionIds && columnOptionId !in visibleOptionIds
    {
      ghost var was := Contents();
      HideViewColumns([columnOptionId]);
      if Tidy(was) {
        HideTidyIff(was, [columnOptionId]);
      }
    }

    method UnhideViewColumns(columnOptionIds: seq<string>)
      modifies this
      ensures Contents() == Unhidden(old(Contents()), columnOptionIds)
      ensures (forall id :: id in columnOptionIds ==> id in old(visibleOptionIds)) ==> unchanged(this)
      ensures (exists id :: id in columnOptionIds && id !in old(visibleOptionIds)) ==>
                && visibleOptionIds ==
                     Filter(old(visibleOptionIds), (id: string) => id !in columnOptionIds) + columnOptionIds
                && hiddenOptionIds == Filter(old(hiddenOptionIds), (id: string) => id !in columnOptionIds)
    {
      if AllIn(columnOptionIds, visibleOptionIds) {
        return;
      }
      ExceptFilters(visibleOptionIds, columnOptionIds);
      ExceptFilters(hiddenOptionIds, columnOptionIds);
      hiddenOptionIds := Except(hiddenOptionIds, columnOptionIds);
      visibleOptionIds := Except(visibleOptionIds, columnOptionIds);
      visibleOptionIds := visibleOptionIds + columnOptionIds;
    }

    method UnhideViewColumn(columnOptionId: string)
      modifies this
      ensures Contents() == Apply(old(Contents()), UnhideColumn(columnOptionId))
      ensures old(Tidy(Contents())) ==>
                Tidy(Contents()) && columnOptionId in visibleOptionIds && columnOptionId !in hiddenOptionIds
    {
      ghost var was := Contents();
      UnhideViewColumns([columnOptionId]);
      if Tidy(was) {
        UnhideTidyIff(was, [columnOptionId]);
      }
    }
  }

  // ----- columns by option

  predicate HasOption(g: GroupBy, id: string) {
    g.By? && Offers(g.template.options, id)
  }

  /** The test of the column of an option, or of the column without a value. */
  predicate InColumn(card: Card, g: GroupBy, id: string) {
    if id != "" then g.By? && ValueOf(card, g.template.id) == Text(id)
    else
      var v := if g.By? then ValueOf(card, g.template.id) else ValueOf(card, "");
      v.Missing? || v == Text("") || !(v.Text? && HasOption(g, v.s))
  }

  function Column(cards: seq<Card>, g: GroupBy, id: string): seq<Card> {
    if cards == [] then []
    else (if InColumn(cards[0], g, id) then [cards[0]] else []) + Column(cards[1..], g, id)
  }

  predicate Shown(g: GroupBy, id: string) {
    id == "" || HasOption(g, id)
  }

  function Heading(g: GroupBy, id: string): (r: Choice)
    requires Shown(g, id)
    ensures r.id == id
  {
    if id != "" then FindOption(g.template.options, id)
    else Choice("", Plain("No " + if g.By? then g.template.name else "undefined"))
  }

  /** The group of a column, unless its option is gone. */
  function GroupOf(cards: seq<Card>, g: GroupBy, id: string): seq<Group> {
    if Shown(g, id) then [Group(Heading(g, id), Column(cards, g, id))] else []
  }

  function Grouped(cards: seq<Card>, ids: seq<string>, g: GroupBy): seq<Group> {
    if ids == [] then [] else GroupOf(cards, g, ids[0]) + Grouped(cards, ids[1..], g)
  }

  lemma {:induction false} GroupedPush(cards: seq<Card>, ids: seq<string>, g: GroupBy, id: string)
    ensures Grouped(cards, ids + [id], g) == Grouped(cards, ids, g) + GroupOf(cards, g, id)
  {
    if ids == [] {
      assert ids + [id] == [id];
    } else {
      assert (ids + [id])[1..] == ids[1..] + [id];
      GroupedPush(cards, ids[1..], g, id);
      JoinJoin(GroupOf(cards, g, ids[0]), Grouped(cards, ids[1..], g), GroupOf(cards, g, id));
    }
  }

  /** A column for each option that still exists, and one for the cards without a value. */
  method GroupCardsByOptions(cards: seq<Card>, optionIds: seq<string>, g: GroupBy) returns (groups: seq<Group>)
    ensures groups == Grouped(cards, optionIds, g)
  {
    groups := [];
    for i := 0 to |optionIds|
      invariant groups == Grouped(cards, optionIds[..i], g)
    {
      assert optionIds[..i + 1] == optionIds[..i] + [optionIds[i]];
      GroupedPush(cards, optionIds[..i], g, optionIds[i]);
      if optionIds[i] != "" {
        if HasOption(g, optionIds[i]) {
          groups := groups + [Group(FindOption(g.template.options, optionIds[i]), Column(cards, g, optionIds[i]))];
        }
      } else {
        groups := groups + [Group(Heading(g, ""), Column(cards, g, ""))];
      }
    }
    assert optionIds[..|optionIds|] == optionIds;
  }

  /** The IDs of the options that are in neither list. */
  function Unassigned(options: seq<Choice>, visible: seq<string>, hidden: seq<string>): seq<string> {
    if options == [] then []
    else
      (if options[0].id !in visible && options[0].id !in hidden then [options[0].id] else [])
      + Unassigned(options[1..], visible, hidden)
  }

  function AllVisible(visible: seq<string>, hidden: seq<string>, g: GroupBy): seq<string> {
    var all := visible + if g.By? then Unassigned(g.template.options, visible, hidden) else [];
    if "" !in all && "" !in hidden then [""] + all else all
  }

  /** A card belongs to the option that is its value, or to the column without a value if it has no value that is
      an option. */
  ghost predicate Belongs(card: Card, g: GroupBy, id: string) {
    if id != "" then
      g.By? && g.template.id in card.properties && card.properties[g.template.id] == Text(id)
    else
      !exists o :: g.By? && o in g.template.options && o.id != "" && g.template.id in card.properties
                   && card.properties[g.template.id] == Text(o.id)
  }

  function Ids(options: seq<Choice>): seq<string> {
    if options == [] then [] else [options[0].id] + Ids(options[1..])
  }

  function Headings(groups: seq<Group>): seq<string> {
    if groups == [] then [] else [groups[0].option.id] + Headings(groups[1..])
  }

  /** The groups are those of the listed options that exist, in that order, each with its cards in order. */
  ghost predicate Lists(groups: seq<Group>, ids: seq<string>, cards: seq<Card>, g: GroupBy) {
    && Headings(groups) == Filter(ids, (id: string) => id == "" || (g.By? && id in Ids(g.template.options)))
    && forall i :: 0 <= i < |groups| ==>
         groups[i].cards == Filter(cards, (c: Card) => Belongs(c, g, groups[i].option.id))
  }

  lemma {:induction false} InIds(options: seq<Choice>, id: string)
    ensures id in Ids(options) <==> Offers(options, id)
  {
    if options == [] {
    } else {
      InIds(options[1..], id);
      assert options == [options[0]] + options[1..];
      if i :| 1 <= i < |options| && options[i].id == id {
        assert options[1..][i - 1].id == id;
      }
    }
  }

  lemma {:induction false} ColumnFilters(cards: seq<Card>, g: GroupBy, id: string)
    requires Shown(g, id)
    ensures Column(cards, g, id) == Filter(cards, (c: Card) => Belongs(c, g, id))
  {
    if cards == [] {
    } else {
      ColumnFilters(cards[1..], g, id);
      var c := cards[0];
      if id == "" && g.By? && ValueOf(c, g.template.id).Text? && HasOption(g, ValueOf(c, g.template.id).s) {
        var o := FindOption(g.template.options, ValueOf(c, g.template.id).s);
        assert o in g.template.options;
      }
    }
  }

  lemma {:induction false} GroupedLists(cards: seq<Card>, ids: seq<string>, g: GroupBy)
    ensures Lists(Grouped(cards, ids, g), ids, cards, g)
  {
    if ids == [] {
    } else {
      var rest := Grouped(cards, ids[1..], g);
      GroupedLists(cards, ids[1..], g);
      if g.By? {
        InIds(g.template.options, ids[0]);
      }
      if Shown(g, ids[0]) {
        ColumnFilters(cards, g, ids[0]);
        var groups := [Group(Heading(g, ids[0]), Column(cards, g, ids[0]))] + rest;
        assert groups[1..] == rest;
        forall i | 0 <= i < |groups|
          ensures groups[i].cards == Filter(cards, (c: Card) => Belongs(c, g, groups[i].option.id))
        {
          if i > 0 {
            assert groups[i] == rest[i - 1];
          }
        }
      } else {
        assert Grouped(cards, ids, g) == rest;
      }
    }
  }

  lemma {:induction false} UnassignedFilters(options: seq<Choice>, visible: seq<string>, hidden: seq<string>)
    ensures Unassigned(options, visible, hidden) ==
              Filter(Ids(options), (id: string) => id !in visible && id !in hidden)
  {
    if options == [] {
    } else {
      UnassignedFilters(options[1..], visible, hidden);
    }
  }

  method GetOptionGroups(cards: seq<Card>, visibleOptionIds: seq<string>, hiddenOptionIds: seq<string>, g: GroupBy)
    returns (visible: seq<Group>, hidden: seq<Group>)
    ensures visible == Grouped(cards, AllVisible(visibleOptionIds, hiddenOptionIds, g), g)
    ensures hidden == Grouped(cards, hiddenOptionIds, g)
    ensures var rest := if g.NoGrouping? then []
                        else Filter(Ids(g.template.options),
                                    (id: string) => id !in visibleOptionIds && id !in hiddenOptionIds);
            var lead := if "" in visibleOptionIds + hiddenOptionIds + rest then [] else [""];
            && Lists(visible, lead + (visibleOptionIds + rest), cards, g)
            && Lists(hidden, hiddenOptionIds, cards, g)
    ensures g.NoGrouping? || DistinctOptions(g.template.options) ==>
              forall c :: c in cards ==>
                    Holding(visible, c) + Holding(hidden, c) ==
                      var listed := Times(visibleOptionIds, Home(c, g)) + Times(hiddenOptionIds, Home(c, g));
                      if listed == 0 then 1 else listed
  {
    var unassignedOptionIds := [];
    if g.By? {
      unassignedOptionIds := Unassigned(g.template.options, visibleOptionIds, hiddenOptionIds);
    }
    var allVisibleOptionIds := visibleOptionIds + unassignedOptionIds;
    if "" !in allVisibleOptionIds && "" !in hiddenOptionIds {
      allVisibleOptionIds := [""] + allVisibleOptionIds;
    }
    visible := GroupCardsByOptions(cards, allVisibleOptionIds, g);
    hidden := GroupCardsByOptions(cards, hiddenOptionIds, g);
    GroupedLists(cards, allVisibleOptionIds, g);
    GroupedLists(cards, hiddenOptionIds, g);
    if g.By? {
      UnassignedFilters(g.template.options, visibleOptionIds, hiddenOptionIds);
    }
    assert [] + (visibleOptionIds + unassignedOptionIds) == visibleOptionIds + unassignedOptionIds;
    if g.NoGrouping? || DistinctOptions(g.template.options) {
      forall c | c in cards
        ensures Holding(visible, c) + Holding(hidden, c) ==
                  var listed := Times(visibleOptionIds, Home(c, g)) + Times(hiddenOptionIds, Home(c, g));
                  if listed == 0 then 1 else listed
      {
        ColumnsHolding(cards, visibleOptionIds, hiddenOptionIds, g, c);
      }
    }
  }

  /** The one column a card belongs to: the option that is its value, or the column without a value. */
  function Home(card: Card, g: GroupBy): string {
    if g.By? && ValueOf(card, g.template.id).Text? && HasOption(g, ValueOf(card, g.template.id).s)
    then ValueOf(card, g.template.id).s else ""
  }

  /** How many of the groups hold the card. */
  function Holding(groups: seq<Group>, c: Card): nat {
    if groups == [] then 0 else (if c in groups[0].cards then 1 else 0) + Holding(groups[1..], c)
  }

  lemma {:induction false} InColumnIff(cards: seq<Card>, g: GroupBy, id: string, c: Card)
    ensures Shown(g, id) ==> (c in Column(cards, g, id) <==> c in cards && Home(c, g) == id)
  {
    if cards == [] {
    } else {
      InColumnIff(cards[1..], g, id, c);
    }
  }

  lemma {:induction false} HoldingJoin(gs: seq<Group>, hs: seq<Group>, c: Card)
    ensures Holding(gs + hs, c) == Holding(gs, c) + Holding(hs, c)
  {
    if gs == [] {
      assert gs + hs == hs;
    } else {
      assert (gs + hs)[1..] == gs[1..] + hs;
      HoldingJoin(gs[1..], hs, c);
    }
  }

  /** A card is in as many of the columns as its own one is listed. */
  lemma {:induction false} HoldingIsListed(cards: seq<Card>, ids: seq<string>, g: GroupBy, c: Card)
    requires c in cards
    ensures Holding(Grouped(cards, ids, g), c) == Times(ids, Home(c, g))
  {
    if ids == [] {
    } else {
      HoldingIsListed(cards, ids[1..], g, c);
      InColumnIff(cards, g, ids[0], c);
      HoldingJoin(GroupOf(cards, g, ids[0]), Grouped(cards, ids[1..], g), c);
    }
  }

  lemma {:induction false} UnassignedTimes(options: seq<Choice>, visible: seq<string>, hidden: seq<string>, id: string)
    requires DistinctOptions(options)
    ensures Times(Unassigned(options, visible, hidden), id) ==
              if Offers(options, id) && id !in visible && id !in hidden then 1 else 0
  {
    if options == [] {
    } else {
      UnassignedTimes(options[1..], visible, hidden, id);
      var first := if options[0].id !in visible && options[0].id !in hidden then [options[0].id] else [];
      TimesJoin(first, Unassigned(options[1..], visible, hidden), id);
      if i :| 1 <= i < |options| && options[i].id == id {
        assert options[1..][i - 1].id == id;
      }
    }
  }

  /** A card is in as many groups as the two lists name its column, and in one if they do not name it. */
  lemma ColumnsHolding(cards: seq<Card>, visible: seq<string>, hidden: seq<string>, g: GroupBy, c: Card)
    requires c in cards && (g.By? ==> DistinctOptions(g.template.options))
    ensures var listed := Times(visible, Home(c, g)) + Times(hidden, Home(c, g));
            Holding(Grouped(cards, AllVisible(visible, hidden, g), g), c) + Holding(Grouped(cards, hidden, g), c)
            == if listed == 0 then 1 else listed
  {
    var h := Home(c, g);
    var extra := if g.By? then Unassigned(g.template.options, visible, hidden) else [];
    HoldingIsListed(cards, AllVisible(visible, hidden, g), g, c);
    HoldingIsListed(cards, hidden, g, c);
    TimesJoin(visible, extra, h);
    TimesJoin([""], visible + extra, h);
    TimesIn(visible + extra, h);
    TimesIn(visible, h);
    TimesIn(hidden, h);
    if g.By? {
      UnassignedTimes(g.template.options, visible, hidden, h);
    }
  }

  /** From tidy lists on, however columns are hidden and shown, every card is in exactly one column. */
  lemma EveryCardOnce(v: Columns, ops: seq<Op>, cards: seq<Card>, g: GroupBy, c: Card)
    requires Tidy(v) && c in cards && (g.By? ==> DistinctOptions(g.template.options))
    ensures var w := Run(v, ops);
            Holding(Grouped(cards, AllVisible(w.visible, w.hidden, g), g), c) +
              Holding(Grouped(cards, w.hidden, g), c) == 1
  {
    RunTidy(v, ops);
    var w := Run(v, ops);
    ColumnsHolding(cards, w.visible, w.hidden, g, c);
    TimesIn(w.visible, Home(c, g));
    TimesIn(w.hidden, Home(c, g));
  }

  // ----- columns by person

  function Commas(ids: seq<string>): string {
    if ids == [] then "" else if |ids| == 1 then ids[0] else ids[0] + "," + Commas(ids[1..])
  }

  /** The name of the card's column. */
  function KeyOf(card: Card, kind: PropertyType, propertyID: string): string {
    match kind
    case CreatedByType => card.createdBy
    case UpdatedByType => card.modifiedBy
    case _ =>
      match ValueOf(card, propertyID)
      case Missing => "undefined"
      case Text(s) => s
      case Several(ids) => Commas(ids)
  }

  lemma {:induction false} CommasJoin(s: seq<string>, t: seq<string>)
    requires s != [] && t != []
    ensures Commas(s + t) == Commas(s) + "," + Commas(t)
    ensures |s| == 1 ==> Commas(s) == s[0]
  {
    if |s| == 1 {
      assert s + t == [s[0]] + t && (s + t)[1..] == t;
    } else {
      assert (s + t)[1..] == s[1..] + t;
      CommasJoin(s[1..], t);
    }
  }

  /** The card is grouped under who created it, who changed it last, or its value as a text. */
  ghost predicate IsUnder(c: Card, kind: PropertyType, propertyID: string, key: string) {
    if kind == CreatedByType then c.createdBy == key
    else if kind == UpdatedByType then c.modifiedBy == key
    else if propertyID !in c.properties || c.properties[propertyID] == Missing then key == "undefined"
    else if c.properties[propertyID].Several? then key == Commas(c.properties[propertyID].ids)
    else c.properties[propertyID] == Text(key)
  }

  lemma {:induction false} KeyedFilters(cards: seq<Card>, kind: PropertyType, propertyID: string, key: string)
    ensures Keyed(cards, kind, propertyID, key) == Filter(cards, (c: Card) => IsUnder(c, kind, propertyID, key))
  {
    if cards == [] {
    } else {
      KeyedFilters(cards[1..], kind, propertyID, key);
    }
  }

  function Keyed(cards: seq<Card>, kind: PropertyType, propertyID: string, key: string): seq<Card> {
    if cards == [] then []
    else
      (if KeyOf(cards[0], kind, propertyID) == key then [cards[0]] else []) +
      Keyed(cards[1..], kind, propertyID, key)
  }

  lemma {:induction false} InKeyed(cards: seq<Card>, kind: PropertyType, propertyID: string, key: string, c: Card)
    ensures c in Keyed(cards, kind, propertyID, key) <==> c in cards && KeyOf(c, kind, propertyID) == key
  {
    if cards == [] {
    } else {
      InKeyed(cards[1..], kind, propertyID, key, c);
    }
  }

  lemma {:induction false} KeyedPush(cards: seq<Card>, kind: PropertyType, propertyID: string, key: string, c: Card)
    ensures Keyed(cards + [c], kind, propertyID, key) ==
              Keyed(cards, kind, propertyID, key) + if KeyOf(c, kind, propertyID) == key then [c] else []
  {
    if cards == [] {
      assert cards + [c] == [c];
    } else {
      assert (cards + [c])[1..] == cards[1..] + [c];
      KeyedPush(cards[1..], kind, propertyID, key, c);
      var first := if KeyOf(cards[0], kind, propertyID) == key then [cards[0]] else [];
      var rest, last := Keyed(cards[1..], kind, propertyID, key), if KeyOf(c, kind, propertyID) == key then [c] else [];
      JoinJoin(first, rest, last);
    }
  }

  /** One group for each key of the cards, with all its cards in order. */
  ghost predicate ByKey(groups: seq<Group>, cards: seq<Card>, kind: PropertyType, propertyID: string) {
    && (forall i, j :: 0 <= i < j < |groups| ==> groups[i].option.id != groups[j].option.id)
    && (forall i :: 0 <= i < |groups| ==> groups[i].cards == Keyed(cards, kind, propertyID, groups[i].option.id))
    && (forall c :: c in cards ==> HasGroup(groups, KeyOf(c, kind, propertyID)))
  }

  ghost predicate HasGroup(groups: seq<Group>, key: string) {
    exists i :: 0 <= i < |groups| && groups[i].option.id == key
  }

  /** The place of the group with a key, or the number of groups. */
  function Place(groups: seq<Group>, key: string): (r: nat)
    ensures r <= |groups|
    ensures r < |groups| ==> groups[r].option.id == key
    ensures r == |groups| <==> !HasGroup(groups, key)
  {
    if groups == [] then 0
    else if groups[0].option.id == key then 0
    else
      var r := Place(groups[1..], key);
      assert forall i :: 1 <= i < |groups| ==> groups[i] == groups[1..][i - 1];
      r + 1
  }

  function Added(groups: seq<Group>, key: string, c: Card): seq<Group> {
    var i := Place(groups, key);
    if i < |groups| then groups[i := groups[i].(cards := groups[i].cards + [c])]
    else groups + [Group(Choice(key, Plain(key)), [c])]
  }

  lemma {:induction false} KeyedNone(cards: seq<Card>, kind: PropertyType, propertyID: string, key: string)
    requires forall c :: c in cards ==> KeyOf(c, kind, propertyID) != key
    ensures Keyed(cards, kind, propertyID, key) == []
  {
    if cards == [] {
    } else {
      KeyedNone(cards[1..], kind, propertyID, key);
    }
  }

  lemma AddedByKey(groups: seq<Group>, cards: seq<Card>, kind: PropertyType, propertyID: string, c: Card)
    requires ByKey(groups, cards, kind, propertyID)
    ensures ByKey(Added(groups, KeyOf(c, kind, propertyID), c), cards + [c], kind, propertyID)
  {
    var key := KeyOf(c, kind, propertyID);
    var after := Added(groups, key, c);
    var p := Place(groups, key);
    if p == |groups| {
      KeyedNone(cards, kind, propertyID, key);
    }
    forall i | 0 <= i < |after| ensures after[i].cards == Keyed(cards + [c], kind, propertyID, after[i].option.id) {
      KeyedPush(cards, kind, propertyID, after[i].option.id, c);
    }
    forall d | d in cards + [c] ensures HasGroup(after, KeyOf(d, kind, propertyID)) {
      var i := if d in cards then Place(groups, KeyOf(d, kind, propertyID)) else p;
      assert after[i].option.id == KeyOf(d, kind, propertyID);
    }
  }

  /** The names that every JavaScript object has: looked up as keys, they find what is no list of cards. */
  const INHERITED: set<string> := {
    "constructor", "hasOwnProperty", "isPrototypeOf", "propertyIsEnumerable", "toLocaleString", "toString", "valueOf",
    "__proto__", "__defineGetter__", "__defineSetter__", "__lookupGetter__", "__lookupSetter__"
  }

  predicate Groupable(cards: seq<Card>, kind: PropertyType, propertyID: string) {
    forall c :: c in cards ==> KeyOf(c, kind, propertyID) !in INHERITED
  }

  /** One entry for each key, unless a key is an inherited name, on which the code fails. */
  method EntriesByKey(cards: seq<Card>, kind: PropertyType, propertyID: string) returns (ok: bool, groups: seq<Group>)
    ensures ok <==> Groupable(cards, kind, propertyID)
    ensures ok ==> ByKey(groups, cards, kind, propertyID)
  {
    groups := [];
    for i := 0 to |cards|
      invariant Groupable(cards[..i], kind, propertyID) && ByKey(groups, cards[..i], kind, propertyID)
    {
      assert cards[..i + 1] == cards[..i] + [cards[i]];
      var key := KeyOf(cards[i], kind, propertyID);
      if key in INHERITED {
        return false, groups;
      }
      AddedByKey(groups, cards[..i], kind, propertyID, cards[i]);
      groups := Added(groups, key, cards[i]);
    }
    assert cards[..|cards|] == cards;
    ok := true;
  }

  /** A column is hidden if its key is, unless the key is empty: searching for the empty key finds a
      value that counts as not found. */
  predicate IsHidden(key: string, hiddenOptionIds: seq<string>) {
    key in hiddenOptionIds && key != ""
  }

  /** The hidden, or the other, ones of the groups. */
  function Sift(groups: seq<Group>, hiddenOptionIds: seq<string>, sought: bool): seq<Group> {
    if groups == [] then []
    else
      (if IsHidden(groups[0].option.id, hiddenOptionIds) == sought then [groups[0]] else [])
      + Sift(groups[1..], hiddenOptionIds, sought)
  }

  lemma {:induction false} InSift(groups: seq<Group>, hiddenOptionIds: seq<string>, sought: bool, g: Group)
    ensures g in Sift(groups, hiddenOptionIds, sought) <==>
              g in groups && IsHidden(g.option.id, hiddenOptionIds) == sought
  {
    if groups == [] {
    } else {
      InSift(groups[1..], hiddenOptionIds, sought, g);
    }
  }

  lemma {:induction false} SiftPush(groups: seq<Group>, hiddenOptionIds: seq<string>, sought: bool, g: Group)
    ensures Sift(groups + [g], hiddenOptionIds, sought) ==
              Sift(groups, hiddenOptionIds, sought) +
                if IsHidden(g.option.id, hiddenOptionIds) == sought then [g] else []
  {
    if groups == [] {
      assert groups + [g] == [g];
    } else {
      assert (groups + [g])[1..] == groups[1..] + [g];
      SiftPush(groups[1..], hiddenOptionIds, sought, g);
    }
  }

  lemma {:induction false} SiftHolding(groups: seq<Group>, hiddenOptionIds: seq<string>, c: Card)
    ensures Holding(Sift(groups, hiddenOptionIds, false), c) + Holding(Sift(groups, hiddenOptionIds, true), c)
         == Holding(groups, c)
  {
    if groups == [] {
    } else {
      SiftHolding(groups[1..], hiddenOptionIds, c);
      var first := IsHidden(groups[0].option.id, hiddenOptionIds);
      assert Sift(groups, hiddenOptionIds, first) == [groups[0]] + Sift(groups[1..], hiddenOptionIds, first);
      assert Sift(groups, hiddenOptionIds, !first) == Sift(groups[1..], hiddenOptionIds, !first);
      HoldingJoin([groups[0]], Sift(groups[1..], hiddenOptionIds, first), c);
      HoldingJoin([groups[0]], groups[1..], c);
      assert groups == [groups[0]] + groups[1..];
    }
  }

  method SplitHidden(groups: seq<Group>, hiddenOptionIds: seq<string>) returns (visible: seq<Group>, hidden: seq<Group>)
    ensures visible == Sift(groups, hiddenOptionIds, false)
    ensures hidden == Sift(groups, hiddenOptionIds, true)
  {
    visible, hidden := [], [];
    for i := 0 to |groups|
      invariant visible == Sift(groups[..i], hiddenOptionIds, false)
      invariant hidden == Sift(groups[..i], hiddenOptionIds, true)
    {
      assert groups[..i + 1] == groups[..i] + [groups[i]];
      SiftPush(groups[..i], hiddenOptionIds, false, groups[i]);
      SiftPush(groups[..i], hiddenOptionIds, true, groups[i]);
      if IsHidden(groups[i].option.id, hiddenOptionIds) {
        hidden := hidden + [groups[i]];
      } else {
        visible := visible + [groups[i]];
      }
    }
    assert groups[..|groups|] == groups;
  }

  /** A group for each person, hidden or visible: every card is in exactly one of them. */
  method GetPersonGroups(cards: seq<Card>, kind: PropertyType, propertyID: string, hiddenOptionIds: seq<string>)
    returns (ok: bool, visible: seq<Group>, hidden: seq<Group>)
    ensures ok <==> Groupable(cards, kind, propertyID)
    ensures ok ==> forall c :: c in cards ==> Holding(visible, c) + Holding(hidden, c) == 1
    ensures ok ==> forall g :: g in visible || g in hidden ==>
              && (g in hidden <==> g.option.id in hiddenOptionIds && g.option.id != "")
              && g.cards == Filter(cards, (c: Card) => IsUnder(c, kind, propertyID, g.option.id))
  {
    var groups;
    ok, groups := EntriesByKey(cards, kind, propertyID);
    visible, hidden := [], [];
    if ok {
      visible, hidden := SplitHidden(groups, hiddenOptionIds);
      SplitByKey(groups, cards, kind, propertyID, hiddenOptionIds);
      forall g | g in visible || g in hidden
        ensures g.cards == Filter(cards, (c: Card) => IsUnder(c, kind, propertyID, g.option.id))
      {
        KeyedFilters(cards, kind, propertyID, g.option.id);
      }
    }
  }

  lemma SplitByKey(groups: seq<Group>, cards: seq<Card>, kind: PropertyType, propertyID: string,
                   hiddenOptionIds: seq<string>)
    requires ByKey(groups, cards, kind, propertyID)
    ensures var visible, hidden := Sift(groups, hiddenOptionIds, false), Sift(groups, hiddenOptionIds, true);
            && (forall c :: c in cards ==> Holding(visible, c) + Holding(hidden, c) == 1)
            && (forall g :: g in visible ==>
                  !IsHidden(g.option.id, hiddenOptionIds) && g.cards == Keyed(cards, kind, propertyID, g.option.id))
            && (forall g :: g in hidden ==>
                  IsHidden(g.option.id, hiddenOptionIds) && g.cards == Keyed(cards, kind, propertyID, g.option.id))
  {
    assert forall g :: g in groups ==> g.cards == Keyed(cards, kind, propertyID, g.option.id);
    forall g
      ensures g in Sift(groups, hiddenOptionIds, false) <==> g in groups && !IsHidden(g.option.id, hiddenOptionIds)
      ensures g in Sift(groups, hiddenOptionIds, true) <==> g in groups && IsHidden(g.option.id, hiddenOptionIds)
    {
      InSift(groups, hiddenOptionIds, false, g);
      InSift(groups, hiddenOptionIds, true, g);
    }
    forall c | c in cards
      ensures Holding(Sift(groups, hiddenOptionIds, false), c) + Holding(Sift(groups, hiddenOptionIds, true), c) == 1
    {
      HoldingByKey(groups, cards, kind, propertyID, c);
      SiftHolding(groups, hiddenOptionIds, c);
    }
  }

  /** Of the groups from `i` on, one holds the card exactly if the card's group is among them. */
  lemma {:induction false} HoldingFrom(groups: seq<Group>, c: Card, p: nat, i: nat)
    requires p < |groups| && i <= |groups|
    requires forall k :: 0 <= k < |groups| ==> (c in groups[k].cards <==> k == p)
    ensures Holding(groups[i..], c) == if i <= p then 1 else 0
    decreases |groups| - i
  {
    if i == |groups| {
    } else {
      HoldingFrom(groups, c, p, i + 1);
      assert groups[i..][1..] == groups[i + 1..];
    }
  }

  lemma HoldingByKey(groups: seq<Group>, cards: seq<Card>, kind: PropertyType, propertyID: string, c: Card)
    requires ByKey(groups, cards, kind, propertyID) && c in cards
    ensures Holding(groups, c) == 1
  {
    var p := Place(groups, KeyOf(c, kind, propertyID));
    forall k | 0 <= k < |groups| ensures c in groups[k].cards <==> k == p {
      InKeyed(cards, kind, propertyID, groups[k].option.id, c);
    }
    HoldingFrom(groups, c, p, 0);
    assert groups[0..] == groups;
  }

  predicate GroupsByPerson(g: GroupBy) {
    g.By? && (g.template.kind.CreatedByType? || g.template.kind.UpdatedByType? || g.template.kind.PersonType?)
  }

  /** With tidy lists of columns and distinct options, every card is in exactly one column. */
  method GetVisibleAndHiddenGroups(cards: seq<Card>, v: Columns, g: GroupBy)
    returns (ok: bool, visible: seq<Group>, hidden: seq<Group>)
    ensures ok <==> (GroupsByPerson(g) ==> Groupable(cards, g.template.kind, g.template.id))
    ensures ok && Tidy(v) && (g.NoGrouping? || DistinctOptions(g.template.options)) ==>
              forall c :: c in cards ==> Holding(visible, c) + Holding(hidden, c) == 1
  {
    ok := true;
    if GroupsByPerson(g) {
      ok, visible, hidden := GetPersonGroups(cards, g.template.kind, g.template.id, v.hidden);
      return;
    }
    visible, hidden := GetOptionGroups(cards, v.visible, v.hidden, g);
    if Tidy(v) && (g.NoGrouping? || DistinctOptions(g.template.options)) {
      forall c | c in cards ensures Holding(visible, c) + Holding(hidden, c) == 1 {
        EveryCardOnce(v, [], cards, g, c);
      }
    }
  }
}
