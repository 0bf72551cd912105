/** Changing the type of a card property: what becomes of the property's options and of the values the
    cards hold. */
module TypeChange {
  import opened Cards
  import opened Ids
  import opened Sequences

  predicate IsSelect(kind: PropertyType) {
    kind.SelectType? || kind.MultiSelectType?
  }

  predicate IsPerson(kind: PropertyType) {
    kind.PersonType? || kind.MultiPersonType?
  }

  /** The value that is carried over: the first of several, and nothing if it is empty. */
  function First(v: Value): string {
    match v
    case Missing => ""
    case Text(s) => s
    case Several(ids) => if ids == [] then "" else ids[0]
  }

  function Wrap(kind: PropertyType, s: string): Value {
    if kind.MultiSelectType? || kind.MultiPersonType? then Several([s]) else Text(s)
  }

  predicate Holds(options: seq<Choice>, value: Label) {
    exists i :: 0 <= i < |options| && options[i].value == value
  }

  /** The ID of the first option with the value. */
  function IdFor(options: seq<Choice>, value: Label): string {
    if options == [] then "" else if options[0].value == value then options[0].id else IdFor(options[1..], value)
  }

  /** What the value of another property counts as. */
  function LabelOf(card: Card, propertyID: string): Label {
    match ValueOf(card, propertyID)
    case Missing => Plain("")
    case Text(s) => Plain(s)
    case Several(_) => ListOf(card.id)
  }

  /** Whether there is a value: of several option or person IDs the first counts, and a list anywhere else
      counts as a value even if it is empty. */
  predicate HasValue(card: Card, was: Template) {
    if IsSelect(was.kind) || IsPerson(was.kind) then First(ValueOf(card, was.id)) != ""
    else LabelOf(card, was.id) != Plain("")
  }

  /** What a select or person value becomes, if it survives. */
  function Carried(was: Template, newType: PropertyType, first: string): string {
    if IsPerson(was.kind) then if IsPerson(newType) then first else ""
    else if IsSelect(newType) && Offers(was.options, first) then FindOption(was.options, first).id
    else ""
  }

  function WithValue(card: Card, propertyID: string, v: Value): Card {
    card.(properties := if v.Missing? then card.properties - {propertyID} else card.properties[propertyID := v])
  }

  /** The value of a card that has one, under the new template. */
  function NewValue(card: Card, was: Template, now: Template): Value {
    if IsSelect(was.kind) || IsPerson(was.kind) then
      var carried := Carried(was, now.kind, First(ValueOf(card, was.id)));
      if carried != "" then Wrap(now.kind, carried) else Missing
    else if IsSelect(now.kind) then Wrap(now.kind, IdFor(now.options, LabelOf(card, was.id)))
    else if IsPerson(now.kind) then Missing
    else ValueOf(card, was.id)
  }

  /** Whether the card is rewritten. */
  predicate Touches(card: Card, was: Template, newType: PropertyType) {
    && HasValue(card, was)
    && (IsSelect(was.kind) || IsPerson(was.kind) || IsSelect(newType) || IsPerson(newType))
  }

  /** The card after the change. */
  function NewCard(card: Card, was: Template, now: Template): Card {
    if Touches(card, was, now.kind) then WithValue(card, was.id, NewValue(card, was, now)) else card
  }

  /** The cards that are rewritten, in order. */
  function Touched(cards: seq<Card>, was: Template, newType: PropertyType): seq<Card> {
    if cards == [] then []
    else Touched(cards[..|cards| - 1], was, newType)
         + if Touches(cards[|cards| - 1], was, newType) then [cards[|cards| - 1]] else []
  }

  function Renewed(cards: seq<Card>, was: Template, now: Template): seq<Card> {
    if cards == [] then []
    else Renewed(cards[..|cards| - 1], was, now) + [NewCard(cards[|cards| - 1], was, now)]
  }

  /** The different values of the cards in the order in which they first appear. */
  function Seen(cards: seq<Card>, propertyID: string): seq<Label> {
    if cards == [] then []
    else
      var before, v := Seen(cards[..|cards| - 1], propertyID), LabelOf(cards[|cards| - 1], propertyID);
      if v == Plain("") || v in before then before else before + [v]
  }

  function Values(options: seq<Choice>): seq<Label> {
    if options == [] then [] else Values(options[..|options| - 1]) + [options[|options| - 1].value]
  }

  /** One option for each value of the cards, with IDs not seen before. */
  ghost predicate Collected(options: seq<Choice>, cards: seq<Card>, propertyID: string, used: set<string>) {
    && Values(options) == Seen(cards, propertyID)
    && DistinctOptions(options)
    && forall i :: 0 <= i < |options| ==> options[i].id != "" && options[i].id !in used
  }

  /** The template after a change of type. */
  ghost predicate IsNew(now: Template, cards: seq<Card>, was: Template, newType: PropertyType, newName: string,
                        used: set<string>) {
    && now.id == was.id && now.kind == newType && now.name == newName
    && if IsSelect(was.kind) || IsPerson(was.kind)
       then now.options == if IsSelect(newType) && cards != [] then was.options else []
       else if IsSelect(newType) then Collected(now.options, cards, was.id, used)
       else now.options == []
  }

  // ----- what is stored, field by field

  /** The card stores a value that the change has to deal with: a text that is not empty, or a list; of a select
      or person property a list counts if its first ID does. */
  ghost predicate Stores(card: Card, was: Template) {
    && was.id in card.properties
    && match card.properties[was.id]
       case Missing => false
       case Text(s) => s != ""
       case Several(ids) => IsSelect(was.kind) || IsPerson(was.kind) ==> ids != [] && ids[0] != ""
  }

  /** What a text stored on a card is as the value of an option, or the list in its place. */
  function LabelStored(card: Card, was: Template): Label
    requires was.id in card.properties
  {
    match card.properties[was.id]
    case Several(_) => ListOf(card.id)
    case Text(s) => Plain(s)
    case Missing => Plain("")
  }

  /** Some places of a list, in order. */
  ghost predicate Places(places: seq<nat>, n: nat) {
    && (forall i :: 0 <= i < |places| ==> places[i] < n)
    && (forall i, j :: 0 <= i < j < |places| ==> places[i] < places[j])
  }

  /** The places are those of the cards with a value, if values of the old type mean nothing to the new one. */
  ghost predicate Rewrites(places: seq<nat>, cards: seq<Card>, was: Template, newType: PropertyType,
                           oldBlocks: seq<Card>) {
    && Places(places, |cards|) && |oldBlocks| == |places|
    && (forall i :: 0 <= i < |places| ==> oldBlocks[i] == cards[places[i]])
    && (forall k: nat :: k in places <==>
          && k < |cards| && Stores(cards[k], was)
          && (IsSelect(was.kind) || IsPerson(was.kind) || IsSelect(newType) || IsPerson(newType)))
  }

  /** No card before this one stores the same. */
  ghost predicate IsFirst(cards: seq<Card>, was: Template, k: nat) {
    && k < |cards| && Stores(cards[k], was)
    && forall j :: 0 <= j < k && Stores(cards[j], was) ==> LabelStored(cards[j], was) != LabelStored(cards[k], was)
  }

  /** There is an option for each different value, in the order in which the values first come up. */
  ghost predicate Introduces(places: seq<nat>, cards: seq<Card>, was: Template, options: seq<Choice>) {
    && Places(places, |cards|) && |options| == |places|
    && (forall k: nat :: k in places <==> IsFirst(cards, was, k))
    && (forall i :: 0 <= i < |places| ==>
          IsFirst(cards, was, places[i]) && options[i].value == LabelStored(cards[places[i]], was))
  }

  ghost predicate HoldsOnly(card: Card, was: Template, kind: PropertyType, id: string) {
    && was.id in card.properties
    && card.properties[was.id] == if kind == MultiSelectType || kind == MultiPersonType then Several([id]) else Text(id)
  }

  /** A person stays a person, and an option stays one if the property has it. */
  ghost predicate Survives(was: Template, newType: PropertyType, id: string) {
    if IsPerson(was.kind) then IsPerson(newType)
    else IsSelect(newType) && exists o :: o in was.options && o.id == id
  }

  /** The card is as it was but for the one property, which holds the ID of the option for the old text, or
      the select or person ID it held first, or is gone. */
  ghost predicate Rewritten(before: Card, after: Card, was: Template, now: Template)
    requires Stores(before, was)
  {
    && after == before.(properties := after.properties)
    && after.properties - {was.id} == before.properties - {was.id}
    && if IsSelect(was.kind) || IsPerson(was.kind) then
         var v := before.properties[was.id];
         var first := if v.Several? then v.ids[0] else v.s;
         if Survives(was, now.kind, first) then HoldsOnly(after, was, now.kind, first)
         else was.id !in after.properties
       else if IsSelect(now.kind) then
         exists o :: o in now.options && o.value == LabelStored(before, was) && HoldsOnly(after, was, now.kind, o.id)
       else was.id !in after.properties
  }

  ghost predicate EachRewritten(oldBlocks: seq<Card>, newBlocks: seq<Card>, was: Template, now: Template) {
    && |newBlocks| == |oldBlocks|
    && forall i :: 0 <= i < |oldBlocks| ==>
         Stores(oldBlocks[i], was) && Rewritten(oldBlocks[i], newBlocks[i], was, now)
  }

  lemma {:induction false} TouchedPlaces(cards: seq<Card>, was: Template, newType: PropertyType)
    returns (places: seq<nat>)
    ensures Rewrites(places, cards, was, newType, Touched(cards, was, newType))
  {
    if cards == [] {
      places := [];
    } else {
      var n := |cards| - 1;
      places := TouchedPlaces(cards[..n], was, newType);
      if Touches(cards[n], was, newType) {
        places := places + [n];
      }
    }
  }

  lemma FirstsBefore(cards: seq<Card>, was: Template, n: nat)
    requires n <= |cards|
    ensures forall k: nat :: k < n ==> (IsFirst(cards[..n], was, k) <==> IsFirst(cards, was, k))
  {
  }

  lemma IntroducesPush(places: seq<nat>, cards: seq<Card>, was: Template, options: seq<Choice>, n: nat)
    requires n < |cards| && options != []
    requires Introduces(places, cards[..n], was, options[..|options| - 1])
    requires IsFirst(cards, was, n) && options[|options| - 1].value == LabelStored(cards[n], was)
    ensures Introduces(places + [n], cards[..n + 1], was, options)
  {
    FirstsBefore(cards, was, n);
    FirstsBefore(cards, was, n + 1);
  }

  lemma IntroducesSame(places: seq<nat>, cards: seq<Card>, was: Template, options: seq<Choice>, n: nat)
    requires n < |cards| && Introduces(places, cards[..n], was, options) && !IsFirst(cards, was, n)
    ensures Introduces(places, cards[..n + 1], was, options)
  {
    FirstsBefore(cards, was, n);
    FirstsBefore(cards, was, n + 1);
  }

  lemma LastSame<T>(s: seq<T>, x: T, t: seq<T>, y: T)
    requires s + [x] == t + [y]
    ensures s == t && x == y
  {
    assert s == (s + [x])[..|s|] && t == (t + [y])[..|t|] && |s| == |t|;
    assert (s + [x])[|s|] == (t + [y])[|t|];
  }

  /** The last card is the first with its value exactly if the value has not been seen before. */
  lemma SeenFirst(cards: seq<Card>, was: Template, n: nat)
    requires !IsSelect(was.kind) && !IsPerson(was.kind) && n < |cards|
    ensures IsFirst(cards, was, n) <==>
              LabelOf(cards[n], was.id) != Plain("") && LabelOf(cards[n], was.id) !in Seen(cards[..n], was.id)
  {
    SeenIn(cards[..n], was.id, LabelOf(cards[n], was.id));
    if Stores(cards[n], was) {
      if j :| 0 <= j < n && Stores(cards[j], was) && LabelStored(cards[j], was) == LabelStored(cards[n], was) {
        assert cards[j] in cards[..n];
      }
    }
  }

  lemma {:induction false} SeenPlaces(cards: seq<Card>, was: Template, options: seq<Choice>, n: nat)
    returns (places: seq<nat>)
    requires !IsSelect(was.kind) && !IsPerson(was.kind)
    requires n <= |cards| && Values(options) == Seen(cards[..n], was.id)
    ensures Introduces(places, cards[..n], was, options)
  {
    if n == 0 {
      places := [];
    } else {
      assert cards[..n][..n - 1] == cards[..n - 1];
      SeenFirst(cards, was, n - 1);
      if IsFirst(cards, was, n - 1) {
        LastSame(Values(options[..|options| - 1]), options[|options| - 1].value,
                 Seen(cards[..n - 1], was.id), LabelOf(cards[n - 1], was.id));
        places := SeenPlaces(cards, was, options[..|options| - 1], n - 1);
        IntroducesPush(places, cards, was, options, n - 1);
        places := places + [n - 1];
      } else {
        places := SeenPlaces(cards, was, options, n - 1);
        IntroducesSame(places, cards, was, options, n - 1);
      }
    }
  }

  lemma CardRewritten(card: Card, was: Template, now: Template)
    requires Touches(card, was, now.kind) && now.kind != was.kind
    requires IsSelect(now.kind) && !IsSelect(was.kind) && !IsPerson(was.kind) ==>
               Holds(now.options, LabelOf(card, was.id))
    ensures Stores(card, was) && Rewritten(card, NewCard(card, was, now), was, now)
  {
    if IsSelect(was.kind) {
      var first := First(ValueOf(card, was.id));
      assert Offers(was.options, first) <==> exists o :: o in was.options && o.id == first;
    } else if IsSelect(now.kind) && !IsPerson(was.kind) {
      IdForNames(now.options, LabelOf(card, was.id));
    }
  }

  lemma {:induction false} RenewedRewrites(cards: seq<Card>, was: Template, now: Template)
    requires now.kind != was.kind && forall c :: c in cards ==> Touches(c, was, now.kind)
    requires IsSelect(now.kind) && !IsSelect(was.kind) && !IsPerson(was.kind) ==> Covered(cards, was, now.options)
    ensures EachRewritten(cards, Renewed(cards, was, now), was, now)
  {
    if cards == [] {
    } else {
      var n := |cards| - 1;
      assert cards[n] in cards;
      RenewedRewrites(cards[..n], was, now);
      CardRewritten(cards[n], was, now);
    }
  }

  // ----- the loops

  method ConvertOptions(cards: seq<Card>, was: Template, template: Template)
    returns (now: Template, oldBlocks: seq<Card>, newBlocks: seq<Card>)
    requires IsSelect(was.kind) || IsPerson(was.kind)
    requires template.options == [] && template.id == was.id
    ensures now == template.(options := if IsSelect(template.kind) && cards != [] then was.options else [])
    ensures oldBlocks == Touched(cards, was, template.kind) && newBlocks == Renewed(oldBlocks, was, now)
  {
    now, oldBlocks, newBlocks := template, [], [];
    for i := 0 to |cards|
      invariant now == template.(options := if IsSelect(template.kind) && i > 0 then was.options else [])
      invariant oldBlocks == Touched(cards[..i], was, template.kind)
      invariant newBlocks == Renewed(oldBlocks, was, template)
    {
      var card := cards[i];
      assert cards[..i + 1][..i] == cards[..i];
      var oldValue := First(ValueOf(card, was.id));
      if oldValue != "" {
        var newValue := Carried(was, template.kind, oldValue);
        var newCard := WithValue(card, was.id, if newValue != "" then Wrap(template.kind, newValue) else Missing);
        newBlocks := newBlocks + [newCard];
        oldBlocks := oldBlocks + [card];
        assert oldBlocks[..|oldBlocks| - 1] == Touched(cards[..i], was, template.kind);
      }
      if IsSelect(template.kind) {
        now := now.(options := was.options);
      }
    }
    assert cards[..|cards|] == cards;
    RenewedByKind(oldBlocks, was, template, now);
  }

  /** Select and person values do not depend on the new options. */
  lemma {:induction false} RenewedByKind(cards: seq<Card>, was: Template, x: Template, y: Template)
    requires IsSelect(was.kind) || IsPerson(was.kind)
    requires x.kind == y.kind
    ensures Renewed(cards, was, x) == Renewed(cards, was, y)
  {
    if cards == [] {
    } else {
      RenewedByKind(cards[..|cards| - 1], was, x, y);
    }
  }

  lemma {:induction false} IdForPush(options: seq<Choice>, o: Choice, value: Label)
    ensures IdFor(options + [o], value) ==
              if Holds(options, value) then IdFor(options, value) else if o.value == value then o.id else ""
  {
    if options == [] {
      assert options + [o] == [o];
    } else {
      assert (options + [o])[1..] == options[1..] + [o];
      IdForPush(options[1..], o, value);
      if i :| 1 <= i < |options| && options[i].value == value {
        assert options[1..][i - 1].value == value;
      }
    }
  }

  lemma {:induction false} InValues(options: seq<Choice>, value: Label)
    ensures value in Values(options) <==> Holds(options, value)
  {
    if options == [] {
    } else {
      var n := |options| - 1;
      InValues(options[..n], value);
      if i :| 0 <= i < n && options[i].value == value {
        assert options[..n][i].value == value;
      }
    }
  }

  /** All the values are among the options'. */
  ghost predicate Covered(cards: seq<Card>, was: Template, options: seq<Choice>) {
    forall c :: c in cards && LabelOf(c, was.id) != Plain("") ==> Holds(options, LabelOf(c, was.id))
  }

  /** A further option does not matter to cards whose values have one. */
  lemma {:induction false} RenewedPush(cards: seq<Card>, was: Template, x: Template, o: Choice)
    requires !IsSelect(was.kind) && !IsPerson(was.kind)
    requires Covered(cards, was, x.options)
    ensures Renewed(cards, was, x.(options := x.options + [o])) == Renewed(cards, was, x)
  {
    if cards == [] {
    } else {
      var n := |cards| - 1;
      RenewedPush(cards[..n], was, x, o);
      IdForPush(x.options, o, LabelOf(cards[n], was.id));
    }
  }

  /** The option of a value, added if there is none yet. */
  method OptionFor(options: seq<Choice>, value: Label, ids: IdSupply) returns (after: seq<Choice>, id: string)
    requires ids.Valid()
    modifies ids
    ensures ids.Valid() && old(ids.used) <= ids.used
    ensures Holds(options, value) ==> after == options && ids.used == old(ids.used)
    ensures !Holds(options, value) ==>
              after == options + [Choice(id, value)] && id != "" && id !in old(ids.used) && id in ids.used
    ensures id == IdFor(after, value)
  {
    if Holds(options, value) {
      return options, IdFor(options, value);
    }
    id := ids.NewID('7');
    after := options + [Choice(id, value)];
    IdForPush(options, Choice(id, value), value);
  }

  /** The options made so far. */
  ghost predicate Making(options: seq<Choice>, values: seq<Label>, used: set<string>, usedNow: set<string>) {
    && Values(options) == values
    && DistinctOptions(options)
    && forall i :: 0 <= i < |options| ==> options[i].id != "" && options[i].id !in used && options[i].id in usedNow
  }

  lemma MakingPush(options: seq<Choice>, values: seq<Label>, used: set<string>, usedNow: set<string>, o: Choice,
                   usedNext: set<string>)
    requires Making(options, values, used, usedNow)
    requires used <= usedNow <= usedNext && o.id != "" && o.id !in usedNow && o.id in usedNext
    ensures Making(options + [o], values + [o.value], used, usedNext)
  {
    assert (options + [o])[..|options|] == options;
  }

  lemma {:induction false} TouchedIn(cards: seq<Card>, was: Template, newType: PropertyType, c: Card)
    ensures c in Touched(cards, was, newType) <==> c in cards && Touches(c, was, newType)
  {
    if cards == [] {
    } else {
      TouchedIn(cards[..|cards| - 1], was, newType, c);
      assert cards == cards[..|cards| - 1] + [cards[|cards| - 1]];
    }
  }

  lemma {:induction false} SeenIn(cards: seq<Card>, propertyID: string, v: Label)
    ensures v in Seen(cards, propertyID) <==> v != Plain("") && exists c :: c in cards && LabelOf(c, propertyID) == v
  {
    if cards == [] {
    } else {
      var last := cards[|cards| - 1];
      SeenIn(cards[..|cards| - 1], propertyID, v);
      SeenIn(cards[..|cards| - 1], propertyID, LabelOf(last, propertyID));
      assert cards == cards[..|cards| - 1] + [last];
      assert LabelOf(last, propertyID) == v ==> last in cards;
    }
  }

  lemma {:induction false} SeenNoRepeats(cards: seq<Card>, propertyID: string)
    ensures NoRepeats(Seen(cards, propertyID))
  {
    if cards == [] {
    } else {
      SeenNoRepeats(cards[..|cards| - 1], propertyID);
    }
  }

  lemma CoveredBySeen(cards: seq<Card>, all: seq<Card>, was: Template, options: seq<Choice>)
    requires Values(options) == Seen(all, was.id) && forall c :: c in cards ==> c in all
    ensures Covered(cards, was, options)
  {
    forall c | c in cards && LabelOf(c, was.id) != Plain("") ensures Holds(options, LabelOf(c, was.id)) {
      SeenIn(all, was.id, LabelOf(c, was.id));
      InValues(options, LabelOf(c, was.id));
    }
  }

  method CollectOptions(cards: seq<Card>, was: Template, template: Template, ids: IdSupply)
    returns (now: Template, oldBlocks: seq<Card>, newBlocks: seq<Card>)
    requires !IsSelect(was.kind) && !IsPerson(was.kind) && IsSelect(template.kind)
    requires template.options == [] && template.id == was.id
    requires ids.Valid()
    modifies ids
    ensures ids.Valid() && old(ids.used) <= ids.used
    ensures now == template.(options := now.options) && Collected(now.options, cards, was.id, old(ids.used))
    ensures oldBlocks == Touched(cards, was, template.kind) && newBlocks == Renewed(oldBlocks, was, now)
  {
    now, oldBlocks, newBlocks := template, [], [];
    for i := 0 to |cards|
      invariant ids.Valid() && old(ids.used) <= ids.used
      invariant now == template.(options := now.options)
      invariant Making(now.options, Seen(cards[..i], was.id), old(ids.used), ids.used)
      invariant oldBlocks == Touched(cards[..i], was, template.kind)
      invariant newBlocks == Renewed(oldBlocks, was, now)
    {
      var card := cards[i];
      assert cards[..i + 1][..i] == cards[..i];
      var oldValue := LabelOf(card, was.id);
      if oldValue != Plain("") {
        ghost var before := ids.used;
        InValues(now.options, oldValue);
        var options, id := OptionFor(now.options, oldValue, ids);
        if options != now.options {
          forall c | c in Touched(cards[..i], was, now.kind) ensures c in cards[..i] {
            TouchedIn(cards[..i], was, now.kind, c);
          }
          CoveredBySeen(Touched(cards[..i], was, now.kind), cards[..i], was, now.options);
          RenewedPush(oldBlocks, was, now, Choice(id, oldValue));
          MakingPush(now.options, Seen(cards[..i], was.id), old(ids.used), before, Choice(id, oldValue), ids.used);
        }
        now := now.(options := options);
        newBlocks := newBlocks + [WithValue(card, was.id, Wrap(template.kind, id))];
        oldBlocks := oldBlocks + [card];
        assert oldBlocks[..|oldBlocks| - 1] == Touched(cards[..i], was, template.kind);
      }
    }
    assert cards[..|cards|] == cards;
  }

  method ClearValues(cards: seq<Card>, was: Template, template: Template)
    returns (oldBlocks: seq<Card>, newBlocks: seq<Card>)
    requires !IsSelect(was.kind) && !IsPerson(was.kind) && IsPerson(template.kind)
    ensures oldBlocks == Touched(cards, was, template.kind) && newBlocks == Renewed(oldBlocks, was, template)
  {
    oldBlocks, newBlocks := [], [];
    for i := 0 to |cards|
      invariant oldBlocks == Touched(cards[..i], was, template.kind)
      invariant newBlocks == Renewed(oldBlocks, was, template)
    {
      var card := cards[i];
      assert cards[..i + 1][..i] == cards[..i];
      if LabelOf(card, was.id) != Plain("") {
        newBlocks := newBlocks + [WithValue(card, was.id, Missing)];
        oldBlocks := oldBlocks + [card];
        assert oldBlocks[..|oldBlocks| - 1] == Touched(cards[..i], was, template.kind);
      }
    }
    assert cards[..|cards|] == cards;
  }

  lemma {:induction false} NoneTouched(cards: seq<Card>, was: Template, newType: PropertyType)
    requires !(IsSelect(was.kind) || IsPerson(was.kind) || IsSelect(newType) || IsPerson(newType))
    ensures Touched(cards, was, newType) == []
  {
    if cards == [] {
    } else {
      NoneTouched(cards[..|cards| - 1], was, newType);
    }
  }

  /** The blocks to store, and the options, told without the functions that compute them. */
  lemma ChangeRewrites(cards: seq<Card>, was: Template, now: Template, newName: string, used: set<string>)
    requires now.kind != was.kind && IsNew(now, cards, was, now.kind, newName, used)
    ensures exists places :: Rewrites(places, cards, was, now.kind, Touched(cards, was, now.kind))
    ensures EachRewritten(Touched(cards, was, now.kind), Renewed(Touched(cards, was, now.kind), was, now), was, now)
    ensures !IsSelect(was.kind) && !IsPerson(was.kind) && IsSelect(now.kind) ==>
              exists places :: Introduces(places, cards, was, now.options)
  {
    var oldBlocks := Touched(cards, was, now.kind);
    var places := TouchedPlaces(cards, was, now.kind);
    forall c | c in oldBlocks ensures c in cards && Touches(c, was, now.kind) {
      TouchedIn(cards, was, now.kind, c);
    }
    if !IsSelect(was.kind) && !IsPerson(was.kind) && IsSelect(now.kind) {
      CoveredBySeen(oldBlocks, cards, was, now.options);
      assert cards[..|cards|] == cards;
      var firsts := SeenPlaces(cards, was, now.options, |cards|);
    }
    RenewedRewrites(oldBlocks, was, now);
  }

  datatype Outcome = Unchanged | Changed(template: Template, oldBlocks: seq<Card>, newBlocks: seq<Card>)

  /** Gives a property a new type and name.  `stored` is the board's own copy of the template.  The
      outcome is the new template, and the cards to store instead of the old ones. */
  method ChangePropertyTypeAndName(stored: Template, cards: seq<Card>, was: Template, newType: PropertyType,
                                   newName: string, ids: IdSupply)
    returns (r: Outcome)
    requires stored.id == was.id && ids.Valid()
    modifies ids
    ensures r.Unchanged? <==> was.kind == newType && was.name == newName
    ensures r.Changed? && was.kind == newType ==>
              r.template == stored.(kind := newType, name := newName) && r.oldBlocks == r.newBlocks == []
    ensures r.Changed? && was.kind != newType ==>
              && IsNew(r.template, cards, was, newType, newName, old(ids.used))
              && r.oldBlocks == Touched(cards, was, newType) && r.newBlocks == Renewed(r.oldBlocks, was, r.template)
    ensures r.Changed? && was.kind != newType ==>
              && (exists places :: Rewrites(places, cards, was, newType, r.oldBlocks))
              && EachRewritten(r.oldBlocks, r.newBlocks, was, r.template)
    ensures r.Changed? && !IsSelect(was.kind) && !IsPerson(was.kind) && IsSelect(newType) ==>
              exists places :: Introduces(places, cards, was, r.template.options)
  {
    if was.kind == newType && was.name == newName {
      return Unchanged;
    }
    var template := stored;
    if was.kind != newType {
      template := template.(options := []);
    }
    template := template.(kind := newType, name := newName);
    var oldBlocks, newBlocks := [], [];
    if was.kind != newType {
      if IsSelect(was.kind) || IsPerson(was.kind) {
        template, oldBlocks, newBlocks := ConvertOptions(cards, was, template);
      } else if IsSelect(newType) {
        template, oldBlocks, newBlocks := CollectOptions(cards, was, template, ids);
      } else if IsPerson(newType) {
        oldBlocks, newBlocks := ClearValues(cards, was, template);
      } else {
        NoneTouched(cards, was, newType);
      }
      ChangeRewrites(cards, was, template, newName, old(ids.used));
    }
    r := Changed(template, oldBlocks, newBlocks);
  }

  // ----- what a change of type means for the cards

  lemma {:induction false} IdForNames(options: seq<Choice>, value: Label)
    requires Holds(options, value)
    ensures exists o :: o in options && o.value == value && o.id == IdFor(options, value)
  {
    if options[0].value == value {
      assert options[0] in options;
    } else {
      var i :| 1 <= i < |options| && options[i].value == value;
      assert options[1..][i - 1].value == value;
      IdForNames(options[1..], value);
      var o :| o in options[1..] && o.value == value && o.id == IdFor(options[1..], value);
      assert o in options;
    }
  }

  /** After a change to a select type every value that a card is left with names an option. */
  lemma ValuesNameOptions(now: Template, cards: seq<Card>, was: Template, newName: string, used: set<string>,
                          card: Card)
    requires IsSelect(now.kind) && now.kind != was.kind && IsNew(now, cards, was, now.kind, newName, used) &&
               card in cards
    ensures var v := ValueOf(NewCard(card, was, now), was.id);
            First(v) != "" ==> exists o :: o in now.options && v == Wrap(now.kind, o.id)
  {
    var first := First(ValueOf(card, was.id));
    if HasValue(card, was) && !IsPerson(was.kind) {
      if IsSelect(was.kind) {
        if Offers(was.options, first) {
          assert FindOption(was.options, first) in now.options;
        }
      } else {
        CoveredBySeen(cards, cards, was, now.options);
        IdForNames(now.options, LabelOf(card, was.id));
      }
    }
  }

  /** Changing texts to options: two cards share an option exactly if they had the same text, and a list
      that stood for a text shares its option with no other card.  The options are the different values,
      each once. */
  lemma SameOptionIff(now: Template, cards: seq<Card>, was: Template, newName: string, used: set<string>, c: Card,
                      d: Card)
    requires IsSelect(now.kind) && !IsSelect(was.kind) && !IsPerson(was.kind)
    requires IsNew(now, cards, was, now.kind, newName, used) && c in cards && d in cards
    requires HasValue(c, was) && HasValue(d, was)
    ensures ValueOf(NewCard(c, was, now), was.id) == ValueOf(NewCard(d, was, now), was.id) <==>
              if ValueOf(c, was.id).Text? then ValueOf(c, was.id) == ValueOf(d, was.id)
              else c.id == d.id && !ValueOf(d, was.id).Text?
    ensures NoRepeats(Values(now.options))
    ensures forall v :: v in Values(now.options) <==>
              v != Plain("") && exists x :: x in cards && LabelOf(x, was.id) == v
  {
    CoveredBySeen(cards, cards, was, now.options);
    IdForNames(now.options, LabelOf(c, was.id));
    IdForNames(now.options, LabelOf(d, was.id));
    SeenNoRepeats(cards, was.id);
    forall v ensures v in Values(now.options) <==> v != Plain("") && exists x :: x in cards && LabelOf(x, was.id) == v {
      SeenIn(cards, was.id, v);
    }
  }

  /** A change between the two select types keeps the options exactly if there is a card. */
  lemma OptionsKeptIff(now: Template, cards: seq<Card>, was: Template, newName: string, used: set<string>)
    requires IsSelect(was.kind) && IsSelect(now.kind) && IsNew(now, cards, was, now.kind, newName, used)
    ensures now.options == was.options <==> cards != [] || was.options == []
  {
  }

  /** From select to multi-select and back: a card ends as it was exactly if it held nothing to carry
      over, or a valid option; and the template ends as it was. */
  lemma ThereAndBackIff(was: Template, there: Template, back: Template, cards: seq<Card>, later: seq<Card>,
                        name: string, used: set<string>, usedLater: set<string>, card: Card)
    requires was.kind.SelectType? && card in cards && later != []
    requires IsNew(there, cards, was, MultiSelectType, name, used)
    requires IsNew(back, later, there, SelectType, was.name, usedLater)
    ensures back == was
    ensures var v := ValueOf(card, was.id);
            NewCard(NewCard(card, was, there), there, back) == card <==>
              First(v) == "" || (v.Text? && Offers(was.options, v.s))
  {
    var v := ValueOf(card, was.id);
    var first := First(v);
    var half := NewCard(card, was, there);
    if first != "" && Offers(was.options, first) {
      assert ValueOf(half, was.id) == Several([first]);
      var whole := NewCard(half, there, back);
      assert ValueOf(whole, was.id) == Text(first);
      assert v == Text(first) ==> whole.properties == card.properties;
    }
  }

  /** Which values a change of type deletes; a select or person value that survives keeps its first ID. */
  lemma DeletedIff(now: Template, was: Template, card: Card)
    requires now.kind != was.kind && HasValue(card, was)
    ensures ValueOf(NewCard(card, was, now), was.id).Missing? <==>
              if IsPerson(was.kind) then !IsPerson(now.kind)
              else if IsSelect(was.kind) then !(IsSelect(now.kind) && Offers(was.options, First(ValueOf(card, was.id))))
              else IsPerson(now.kind)
    ensures (IsPerson(was.kind) || IsSelect(was.kind)) && !ValueOf(NewCard(card, was, now), was.id).Missing? ==>
              ValueOf(NewCard(card, was, now), was.id) == Wrap(now.kind, First(ValueOf(card, was.id)))
    ensures forall p :: p != was.id ==> ValueOf(NewCard(card, was, now), p) == ValueOf(card, p)
  {
  }
}
