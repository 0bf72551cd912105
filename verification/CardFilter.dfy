/** The filter of a view: a tree of "and" and "or" groups over conditions on a card's properties, and
    the properties that a new card gets so that the filter shows it. */
module CardFilter {
  import opened Cards
  import opened Sequences

  const HALF_DAY := 43200000

  datatype Condition =
    | Includes | NotIncludes | IsEmpty | IsNotEmpty | IsSet | IsNotSet | Is | Contains | NotContains
    | StartsWith | NotStartsWith | EndsWith | NotEndsWith | IsBefore | IsAfter

  datatype Operation = And | Or

  datatype Filter =
    | Clause(propertyID: string, condition: Condition, values: seq<string>)
    | Group(operation: Operation, filters: seq<Filter>)

  /** A number, or what compares as false with every number. */
  datatype Num = NoNumber | N(n: int)

  datatype Date = Date(from: Num, to: Num)

  datatype MaybeDate = NoDate | SomeDate(date: Date)

  /** What is taken from the platform: lower case, reading dates and numbers, writing numbers. */
  datatype Platform = Platform(lower: string -> string, parseDate: Value -> Date, parseInt: string -> Num,
                               decimal: int -> string)

  /** Some string operations fail on a list of options. */
  datatype Verdict = Met | NotMet | Throws

  function Of(b: bool): Verdict {
    if b then Met else NotMet
  }

  function Flip(v: Verdict): Verdict {
    match v case Met => NotMet case NotMet => Met case Throws => Throws
  }

  predicate Falsy(v: Value) {
    v.Missing? || v == Text("")
  }

  predicate Knows(templates: seq<Template>, id: string) {
    exists i :: 0 <= i < |templates| && templates[i].id == id
  }

  function FindTemplate(templates: seq<Template>, id: string): (t: Template)
    requires Knows(templates, id)
    ensures t in templates && t.id == id
  {
    if templates[0].id == id then templates[0] else FindTemplate(templates[1..], id)
  }

  function DateIn(env: Platform, v: Value): MaybeDate {
    SomeDate(if Falsy(v) then Date(NoNumber, NoNumber) else env.parseDate(v))
  }

  predicate IsTime(kind: PropertyType) {
    kind.CreatedTimeType? || kind.UpdatedTimeType?
  }

  /** The value a condition looks at: the card's own, the title, or one of the automatic properties. */
  function Subject(env: Platform, kind: PropertyType, propertyID: string, card: Card): Value {
    var value := if propertyID == "title" then Text(env.lower(card.title)) else ValueOf(card, propertyID);
    if !Falsy(value) then value
    else
      match kind
      case CreatedByType => Text(card.createdBy)
      case UpdatedByType => Text(card.modifiedBy)
      case CreatedTimeType => Text(env.decimal(card.createAt))
      case UpdatedTimeType => Text(env.decimal(card.updateAt))
      case _ => value
  }

  /** The date a condition looks at.  A value stored for an automatic time is not read as a date. */
  function SubjectDate(env: Platform, kind: PropertyType, propertyID: string, card: Card): MaybeDate {
    var value := if propertyID == "title" then Text(env.lower(card.title)) else ValueOf(card, propertyID);
    if kind.DateType? then DateIn(env, value)
    else if Falsy(value) && IsTime(kind) then DateIn(env, Subject(env, kind, propertyID, card))
    else NoDate
  }

  predicate Truthy(a: Num) {
    a.N? && a.n != 0
  }

  predicate Less(a: Num, b: Num, shift: int) {
    a.N? && b.N? && a.n < b.n + shift
  }

  predicate Same(a: Num, b: Num) {
    a.N? && b.N? && a.n == b.n
  }

  predicate IsDate(d: Date, num: Num, time: bool) {
    if time then Truthy(d.from) && Less(num, d.from, HALF_DAY) && Less(d.from, num, HALF_DAY)
    else if Truthy(d.from) && Truthy(d.to) then !Less(num, d.from, 0) && !Less(d.to, num, 0) && num.N?
    else Same(d.from, num)
  }

  predicate BeforeDate(d: Date, num: Num, time: bool) {
    Truthy(d.from) && Less(d.from, num, if time then -HALF_DAY else 0)
  }

  predicate AfterDate(d: Date, num: Num, time: bool) {
    if time then Truthy(d.from) && Less(num, d.from, -HALF_DAY)
    else if Truthy(d.to) then Less(num, d.to, 0)
    else Truthy(d.from) && Less(num, d.from, 0)
  }

  predicate Substring(s: string, part: string) {
    exists i :: 0 <= i <= |s| && part <= s[i..]
  }

  predicate EndsIn(s: string, end: string) {
    |end| <= |s| && s[|s| - |end|..] == end
  }

  function Chars(v: Value): string {
    if v.Text? then v.s else ""
  }

  /** Whether one of the values is the card's, or one of the card's. */
  predicate AnyOf(values: seq<string>, v: Value) {
    exists i :: 0 <= i < |values| && (if v.Several? then values[i] in v.ids else v == Text(values[i]))
  }

  predicate Nonempty(v: Value) {
    if v.Several? then v.ids != [] else Chars(v) != ""
  }

  /** A test of the beginning or end of a text, which lists do not have. */
  function Edge(v: Value, b: bool): Verdict {
    if v.Several? then Throws else Of(b)
  }

  function KindOf(templates: seq<Template>, id: string): PropertyType {
    if Knows(templates, id) then FindTemplate(templates, id).kind else UnknownType
  }

  function ClauseMet(env: Platform, clause: Filter, templates: seq<Template>, card: Card): Verdict
    requires clause.Clause?
  {
    var kind := KindOf(templates, clause.propertyID);
    Judge(env, kind, clause, Subject(env, kind, clause.propertyID, card),
      SubjectDate(env, kind, clause.propertyID, card))
  }

  /** The condition itself.  Without values to compare with it is always met. */
  function Judge(env: Platform, kind: PropertyType, clause: Filter, v: Value, date: MaybeDate): Verdict
    requires clause.Clause?
  {
    match clause.condition
    case IsEmpty => Of(!Nonempty(v))
    case IsNotEmpty => Of(Nonempty(v))
    case IsSet => Of(!Falsy(v))
    case IsNotSet => Of(Falsy(v))
    case _ => if clause.values == [] then Met else Compare(env, kind, clause, v, date)
  }

  function Compare(env: Platform, kind: PropertyType, clause: Filter, v: Value, date: MaybeDate): Verdict
    requires clause.Clause? && clause.values != []
  {
    var first := env.lower(clause.values[0]);
    var num := env.parseInt(clause.values[0]);
    match clause.condition
    case Includes => Of(AnyOf(clause.values, v))
    case NotIncludes => Of(!AnyOf(clause.values, v))
    case Is => if date.SomeDate? then Of(IsDate(date.date, num, IsTime(kind))) else Of(v == Text(first))
    case Contains => Of(if v.Several? then first in v.ids else Substring(Chars(v), first))
    case NotContains => Of(!if v.Several? then first in v.ids else Substring(Chars(v), first))
    case StartsWith => Edge(v, first <= Chars(v))
    case NotStartsWith => Edge(v, !(first <= Chars(v)))
    case EndsWith => Edge(v, EndsIn(Chars(v), first))
    case NotEndsWith => Edge(v, !EndsIn(Chars(v), first))
    case IsBefore => Of(date.SomeDate? && BeforeDate(date.date, num, IsTime(kind)))
    case IsAfter => Of(date.SomeDate? && AfterDate(date.date, num, IsTime(kind)))
    case _ => Met
  }

  // ----- what the conditions mean

  ghost predicate Within(part: string, s: string) {
    exists a, b :: s == a + part + b
  }

  ghost predicate Begins(part: string, s: string) {
    exists b :: s == part + b
  }

  ghost predicate Ends(part: string, s: string) {
    exists a :: s == a + part
  }

  lemma SubstringIff(s: string, part: string)
    ensures Substring(s, part) <==> Within(part, s)
  {
    if i :| 0 <= i <= |s| && part <= s[i..] {
      assert s == s[..i] + part + s[i..][|part|..];
    }
    if a, b :| s == a + part + b {
      assert s[|a|..] == part + b;
    }
  }

  lemma PrefixIff(s: string, part: string)
    ensures part <= s <==> Begins(part, s)
  {
    if part <= s {
      assert s == part + s[|part|..];
    }
  }

  lemma SuffixIff(s: string, part: string)
    ensures EndsIn(s, part) <==> Ends(part, s)
  {
    if EndsIn(s, part) {
      assert s == s[..|s| - |part|] + part;
    }
  }

  /** What a condition means for a text, for several options, and for no value, of a property that is neither a
      date nor automatic: only the card's own text is compared as it is, what is sought is in lower case. */
  ghost predicate Means(condition: Condition, values: seq<string>, part: string, v: Value, met: Verdict)
    decreases condition !in {Includes, Contains, StartsWith, EndsWith, IsEmpty, IsSet}
  {
    match condition
    case Includes => met == Of(if v.Several? then exists x :: x in v.ids && x in values else v.Text? && v.s in values)
    case Contains => met == Of(if v.Several? then part in v.ids else if v.Text? then Within(part, v.s) else part == "")
    case StartsWith => met == if v.Several? then Throws else Of(if v.Text? then Begins(part, v.s) else part == "")
    case EndsWith => met == if v.Several? then Throws else Of(if v.Text? then Ends(part, v.s) else part == "")
    case Is => met == Of(v == Text(part))
    case IsEmpty => met == Of(v == Missing || v == Text("") || v == Several([]))
    case IsSet => met == Of(v != Missing && v != Text(""))
    case IsBefore => met == NotMet
    case IsAfter => met == NotMet
    case NotIncludes => Means(Includes, values, part, v, Flip(met))
    case NotContains => Means(Contains, values, part, v, Flip(met))
    case NotStartsWith => Means(StartsWith, values, part, v, Flip(met))
    case NotEndsWith => Means(EndsWith, values, part, v, Flip(met))
    case IsNotEmpty => Means(IsEmpty, values, part, v, Flip(met))
    case IsNotSet => Means(IsSet, values, part, v, Flip(met))
  }

  /** Every condition means this, except that without the values it needs it is always met. */
  lemma ClauseMeans(env: Platform, f: Filter, templates: seq<Template>, card: Card)
    requires f.Clause? && f.propertyID != "title"
    requires KindOf(templates, f.propertyID) !in
               {DateType, CreatedByType, UpdatedByType, CreatedTimeType, UpdatedTimeType}
    ensures var part := if f.values == [] then "" else env.lower(f.values[0]);
            if f.values == [] && UsesValues(f.condition) then ClauseMet(env, f, templates, card) == Met
            else Means(f.condition, f.values, part, ValueOf(card, f.propertyID), ClauseMet(env, f, templates, card))
  {
    var v, part := ValueOf(card, f.propertyID), if f.values == [] then "" else env.lower(f.values[0]);
    match f.condition
    case Includes => AnyOfIff(f.values, v);
    case NotIncludes => AnyOfIff(f.values, v);
    case Contains => SubstringIff(Chars(v), part); NothingIn(part);
    case NotContains => SubstringIff(Chars(v), part); NothingIn(part);
    case StartsWith => PrefixIff(Chars(v), part);
    case NotStartsWith => PrefixIff(Chars(v), part);
    case EndsWith => SuffixIff(Chars(v), part);
    case NotEndsWith => SuffixIff(Chars(v), part);
    case _ =>
  }

  lemma AnyOfIff(values: seq<string>, v: Value)
    ensures AnyOf(values, v) <==> if v.Several? then exists x :: x in v.ids && x in values else v.Text? && v.s in values
  {
    if AnyOf(values, v) {
      var i :| 0 <= i < |values| && (if v.Several? then values[i] in v.ids else v == Text(values[i]));
      assert values[i] in values;
    }
  }

  lemma NothingIn(part: string)
    ensures Substring("", part) <==> part == ""
  {
    if part == "" {
      assert part <= ""[0..];
    }
  }

  /** What the conditions mean for a date, or a range of dates, and for an automatic time, to which a day is within
      half a day of its middle. */
  lemma DateClauseMeans(env: Platform, f: Filter, templates: seq<Template>, card: Card, d: Date)
    requires f.Clause? && f.propertyID != "title" && f.values != []
    requires env.parseInt(f.values[0]).N? && d.from.N? && d.from.n != 0
    requires var kind, v := KindOf(templates, f.propertyID), ValueOf(card, f.propertyID);
             || (kind == DateType && !Falsy(v) && d == env.parseDate(v))
             || (&& Falsy(v) && (kind == CreatedTimeType || kind == UpdatedTimeType)
                 && var at := env.decimal(if kind == CreatedTimeType then card.createAt else card.updateAt);
                    at != "" && d == env.parseDate(Text(at)))
    ensures var n, from, met := env.parseInt(f.values[0]).n, d.from.n, ClauseMet(env, f, templates, card);
            var ends := d.to.N? && d.to.n != 0;
            if KindOf(templates, f.propertyID) == DateType then
              && (f.condition == IsBefore ==> met == Of(from < n))
              && (f.condition == IsAfter ==> met == Of(n < if ends then d.to.n else from))
              && (f.condition == Is ==> met == Of(if ends then from <= n <= d.to.n else n == from))
            else
              && (f.condition == IsBefore ==> met == Of(from < n - 12 * 60 * 60 * 1000))
              && (f.condition == IsAfter ==> met == Of(n + 12 * 60 * 60 * 1000 < from))
              && (f.condition == Is ==> met == Of(n - 12 * 60 * 60 * 1000 < from < n + 12 * 60 * 60 * 1000))
  {
  }

  /** A property for who created or last changed a card is judged as if the card stored that user. */
  lemma UserClauseMeans(env: Platform, f: Filter, templates: seq<Template>, card: Card)
    requires f.Clause? && f.propertyID != "title" && Falsy(ValueOf(card, f.propertyID))
    requires KindOf(templates, f.propertyID) == CreatedByType || KindOf(templates, f.propertyID) == UpdatedByType
    ensures var user := if KindOf(templates, f.propertyID) == CreatedByType then card.createdBy else card.modifiedBy;
            ClauseMet(env, f, templates, card) ==
              ClauseMet(env, f, templates, card.(properties := card.properties[f.propertyID := Text(user)]))
  {
  }

  /** The title is judged like a text property with the title in lower case as its value. */
  lemma TitleClauseMeans(env: Platform, f: Filter, templates: seq<Template>, card: Card, id: string)
    requires f.Clause? && f.propertyID == "title" && KindOf(templates, "title") == UnknownType
    requires id != "title" && KindOf(templates, id) == TextType && ValueOf(card, id) == Text(env.lower(card.title))
    ensures ClauseMet(env, f, templates, card) == ClauseMet(env, f.(propertyID := id), templates, card)
  {
  }

  // ----- how the conditions relate

  /** How many of "is before", "is" and "is after" hold of a date. */
  function Holding(d: Date, num: Num, time: bool): nat {
    (if BeforeDate(d, num, time) then 1 else 0) + (if IsDate(d, num, time) then 1 else 0) +
      (if AfterDate(d, num, time) then 1 else 0)
  }

  /** A date with a start is before, at or after a given one, exactly one of the three, except that an
      automatic time half a day away is none of them, and that a given date that a range spans, whichever
      of its ends comes first, is several or none, unless the ends are the same. */
  lemma OneOfThreeIff(d: Date, num: Num, time: bool)
    requires Truthy(d.from) && num.N?
    ensures Holding(d, num, time) == 1 <==>
              if time then d.from.n != num.n - HALF_DAY && d.from.n != num.n + HALF_DAY
              else !Truthy(d.to) || d.from.n == d.to.n
                   || (num.n < d.from.n && num.n < d.to.n) || (d.from.n < num.n && d.to.n < num.n)
    ensures !time && Truthy(d.to) && Holding(d, num, time) == 0 <==>
              !time && Truthy(d.to) && d.to.n <= num.n <= d.from.n && d.to.n < d.from.n
  {
  }

  // ----- the tree

  /** The meaning of a tree.  An empty group is met. */
  function Eval(env: Platform, f: Filter, templates: seq<Template>, card: Card): Verdict
    decreases f, 1
  {
    if f.Clause? then ClauseMet(env, f, templates, card)
    else if f.filters == [] then Met
    else EvalAll(env, f.operation, f.filters, templates, card)
  }

  /** From left to right, up to the first part that decides. */
  function EvalAll(env: Platform, op: Operation, fs: seq<Filter>, templates: seq<Template>, card: Card): Verdict
    decreases fs, 0
  {
    if fs == [] then Of(op.And?)
    else
      var v := Eval(env, fs[0], templates, card);
      if v == Of(op.And?) then EvalAll(env, op, fs[1..], templates, card) else v
  }

  method IsFilterGroupMet(env: Platform, group: Filter, templates: seq<Template>, card: Card) returns (v: Verdict)
    requires group.Group?
    ensures v == Eval(env, group, templates, card)
    decreases group
  {
    if |group.filters| < 1 {
      return Met;
    }
    if group.operation == Or {
      for i := 0 to |group.filters|
        invariant EvalAll(env, Or, group.filters, templates, card) ==
                    EvalAll(env, Or, group.filters[i..], templates, card)
      {
        assert group.filters[i..][1..] == group.filters[i + 1..];
        var filter := group.filters[i];
        var met;
        if filter.Group? {
          met := IsFilterGroupMet(env, filter, templates, card);
        } else {
          met := ClauseMet(env, filter, templates, card);
        }
        if met != NotMet {
          return met;
        }
      }
      return NotMet;
    }
    for i := 0 to |group.filters|
      invariant EvalAll(env, And, group.filters, templates, card) ==
                  EvalAll(env, And, group.filters[i..], templates, card)
    {
      assert group.filters[i..][1..] == group.filters[i + 1..];
      var filter := group.filters[i];
      var met;
      if filter.Group? {
        met := IsFilterGroupMet(env, filter, templates, card);
      } else {
        met := ClauseMet(env, filter, templates, card);
      }
      if met != Met {
        return met;
      }
    }
    v := Met;
  }

  datatype Selection = Kept(cards: seq<Card>) | Failure

  /** The cards that meet the filter; a single failing test fails it all. */
  function ApplyFilterGroup(env: Platform, group: Filter, templates: seq<Template>, cards: seq<Card>): Selection {
    if cards == [] then Kept([])
    else
      var v := Eval(env, group, templates, cards[0]);
      var rest := ApplyFilterGroup(env, group, templates, cards[1..]);
      if v == Throws || rest.Failure? then Failure
      else if v == Met then Kept([cards[0]] + rest.cards)
      else rest
  }

  /** A group is decided by its first part that is not met, for "and", or not unmet, for "or". */
  lemma {:induction false} FirstDecides(env: Platform, op: Operation, fs: seq<Filter>, templates: seq<Template>,
                                        card: Card, k: nat)
    requires k <= |fs|
    requires forall i :: 0 <= i < k ==> Eval(env, fs[i], templates, card) == if op == And then Met else NotMet
    requires k < |fs| ==> Eval(env, fs[k], templates, card) != if op == And then Met else NotMet
    ensures EvalAll(env, op, fs, templates, card) ==
              if k < |fs| then Eval(env, fs[k], templates, card) else if op == And then Met else NotMet
  {
    if k == 0 {
    } else {
      assert forall i :: 0 <= i < |fs| - 1 ==> fs[1..][i] == fs[i + 1];
      FirstDecides(env, op, fs[1..], templates, card, k - 1);
    }
  }

  /** Unless some card makes a test fail, exactly the cards that meet the filter are kept, in their order. */
  lemma {:induction false} KeptInOrder(env: Platform, group: Filter, templates: seq<Template>, cards: seq<Card>)
    ensures ApplyFilterGroup(env, group, templates, cards) ==
              if exists c :: c in cards && Eval(env, group, templates, c) == Throws then Failure
              else Kept(Sequences.Filter(cards, (c: Card) => Eval(env, group, templates, c) == Met))
  {
    if cards == [] {
    } else {
      assert cards == [cards[0]] + cards[1..];
      KeptInOrder(env, group, templates, cards[1..]);
    }
  }

  // ----- negation

  predicate Paired(c: Condition) {
    !c.Is? && !c.IsBefore? && !c.IsAfter?
  }

  function Opposite(c: Condition): Condition {
    match c
    case Includes => NotIncludes
    case NotIncludes => Includes
    case IsEmpty => IsNotEmpty
    case IsNotEmpty => IsEmpty
    case IsSet => IsNotSet
    case IsNotSet => IsSet
    case Contains => NotContains
    case NotContains => Contains
    case StartsWith => NotStartsWith
    case NotStartsWith => StartsWith
    case EndsWith => NotEndsWith
    case NotEndsWith => EndsWith
    case Is => Is
    case IsBefore => IsBefore
    case IsAfter => IsAfter
  }

  /** With "and" and "or" exchanged and every condition replaced by its opposite. */
  function Dual(f: Filter): Filter
    decreases f, 1
  {
    match f
    case Clause(id, c, values) => Clause(id, Opposite(c), values)
    case Group(op, fs) => Group(if op.And? then Or else And, DualAll(fs))
  }

  function DualAll(fs: seq<Filter>): seq<Filter>
    decreases fs, 0
  {
    if fs == [] then [] else [Dual(fs[0])] + DualAll(fs[1..])
  }

  /** Conditions that look at their values. */
  predicate UsesValues(c: Condition) {
    !c.IsEmpty? && !c.IsNotEmpty? && !c.IsSet? && !c.IsNotSet?
  }

  /** No empty groups, only conditions with an opposite, and values where they are looked at. */
  predicate Negatable(f: Filter)
    decreases f, 1
  {
    match f
    case Clause(_, c, values) => Paired(c) && (UsesValues(c) ==> values != [])
    case Group(_, fs) => fs != [] && NegatableAll(fs)
  }

  predicate NegatableAll(fs: seq<Filter>)
    decreases fs, 0
  {
    fs == [] || (Negatable(fs[0]) && NegatableAll(fs[1..]))
  }

  /** A paired condition is negated by its opposite exactly if it has values to look at, or needs none. */
  lemma ClauseNegatesIff(env: Platform, clause: Filter, templates: seq<Template>, card: Card)
    requires clause.Clause? && Paired(clause.condition)
    ensures ClauseMet(env, Dual(clause), templates, card) == Flip(ClauseMet(env, clause, templates, card)) <==>
              (UsesValues(clause.condition) ==> clause.values != [])
  {
    var dual := Dual(clause);
    assert dual.propertyID == clause.propertyID && dual.values == clause.values;
    match clause.condition
    case Includes =>
    case NotIncludes =>
    case IsEmpty =>
    case IsNotEmpty =>
    case IsSet =>
    case IsNotSet =>
    case Contains =>
    case NotContains =>
    case StartsWith =>
    case NotStartsWith =>
    case EndsWith =>
    case NotEndsWith =>
  }

  /** The dual tree has the opposite meaning. */
  lemma {:induction false} DualNegates(env: Platform, f: Filter, templates: seq<Template>, card: Card)
    requires Negatable(f)
    ensures Eval(env, Dual(f), templates, card) == Flip(Eval(env, f, templates, card))
    decreases f, 1
  {
    match f
    case Clause(_, _, _) => ClauseNegatesIff(env, f, templates, card);
    case Group(op, fs) =>
      DualAllNegates(env, op, fs, templates, card);
      assert DualAll(fs) != [];
  }

  lemma {:induction false} DualAllNegates(env: Platform, op: Operation, fs: seq<Filter>, templates: seq<Template>,
                                          card: Card)
    requires NegatableAll(fs)
    ensures EvalAll(env, if op.And? then Or else And, DualAll(fs), templates, card) ==
              Flip(EvalAll(env, op, fs, templates, card))
    decreases fs, 0
  {
    if fs == [] {
    } else {
      DualNegates(env, fs[0], templates, card);
      DualAllNegates(env, op, fs[1..], templates, card);
      assert DualAll(fs)[1..] == DualAll(fs[1..]);
    }
  }

  lemma TimesPrepend<T>(x: T, s: seq<T>, c: T)
    ensures Times([x] + s, c) == (if x == c then 1 else 0) + Times(s, c)
  {
    assert ([x] + s)[1..] == s;
  }

  /** The two trees share out any cards between them: every card goes to exactly one. */
  lemma {:induction false} DualPartitions(env: Platform, f: Filter, templates: seq<Template>, cards: seq<Card>, c: Card)
    requires Negatable(f)
    ensures var kept := ApplyFilterGroup(env, f, templates, cards);
            var others := ApplyFilterGroup(env, Dual(f), templates, cards);
            && (kept.Failure? <==> others.Failure?)
            && (kept.Kept? ==> Times(kept.cards, c) + Times(others.cards, c) == Times(cards, c))
            && (kept.Kept? ==> Times(kept.cards, c) == if Eval(env, f, templates, c) == Met then Times(cards, c) else 0)
  {
    if cards == [] {
    } else {
      DualNegates(env, f, templates, cards[0]);
      DualPartitions(env, f, templates, cards[1..], c);
      var rest := ApplyFilterGroup(env, f, templates, cards[1..]);
      var others := ApplyFilterGroup(env, Dual(f), templates, cards[1..]);
      if rest.Kept? {
        TimesPrepend(cards[0], rest.cards, c);
        TimesPrepend(cards[0], others.cards, c);
      }
    }
  }

  // ----- properties for a new card

  /** The value that a clause asks for, or none. */
  function PropertyThatMeets(clause: Filter, templates: seq<Template>): string
    requires clause.Clause?
  {
    if !Knows(templates, clause.propertyID) then ""
    else
      var t := FindTemplate(templates, clause.propertyID);
      if t.kind.CreatedByType? || t.kind.UpdatedByType? then ""
      else if clause.condition.Includes? then if clause.values == [] then "" else clause.values[0]
      else if clause.condition.IsNotEmpty? && t.kind.SelectType? && t.options != [] then t.options[0].id
      else ""
  }

  function Clauses(fs: seq<Filter>): (r: seq<Filter>)
    ensures forall f :: f in r ==> f.Clause? && f in fs
    ensures (forall f :: f in fs ==> f.Clause?) ==> r == fs
  {
    if fs == [] then []
    else
      assert fs == [fs[0]] + fs[1..];
      (if fs[0].Clause? then [fs[0]] else []) + Clauses(fs[1..])
  }

  function With(props: map<string, string>, clause: Filter, templates: seq<Template>): map<string, string>
    requires clause.Clause?
  {
    var v := PropertyThatMeets(clause, templates);
    if v != "" then props[clause.propertyID := v] else props
  }

  function Props(clauses: seq<Filter>, templates: seq<Template>): map<string, string>
    requires forall f :: f in clauses ==> f.Clause?
  {
    if clauses == [] then map[]
    else With(Props(clauses[..|clauses| - 1], templates), clauses[|clauses| - 1], templates)
  }

  /** The properties to give a new card: for "or" what the first clause asks for, for "and" what they
      all ask for. */
  function WantedProps(group: Filter, templates: seq<Template>): map<string, string>
    requires group.Group?
  {
    var clauses := Clauses(group.filters);
    if clauses == [] then map[]
    else if group.operation.Or? then With(map[], clauses[0], templates)
    else Props(clauses, templates)
  }

  method PropertiesThatMeetFilterGroup(group: Filter, templates: seq<Template>) returns (result: map<string, string>)
    requires group.Group?
    ensures result == WantedProps(group, templates)
  {
    var filters := Clauses(group.filters);
    if |filters| < 1 {
      return map[];
    }
    if group.operation == Or {
      var value := PropertyThatMeets(filters[0], templates);
      result := map[];
      if value != "" {
        result := result[filters[0].propertyID := value];
      }
      return;
    }
    result := PropertiesThatMeetAll(filters, templates);
  }

  method PropertiesThatMeetAll(filters: seq<Filter>, templates: seq<Template>) returns (result: map<string, string>)
    requires forall f :: f in filters ==> f.Clause?
    ensures result == Props(filters, templates)
  {
    result := map[];
    for i := 0 to |filters|
      invariant result == Props(filters[..i], templates)
    {
      assert filters[..i + 1][..i] == filters[..i];
      var value := PropertyThatMeets(filters[i], templates);
      if value != "" {
        result := result[filters[i].propertyID := value];
      }
    }
    assert filters[..|filters|] == filters;
  }

  /** A clause on a select property other than the title, with a condition that can be asked for. */
  predicate OnSelect(f: Filter, templates: seq<Template>) {
    && f.Clause? && f.propertyID != "title"
    && Knows(templates, f.propertyID) && FindTemplate(templates, f.propertyID).kind.SelectType?
    && (f.condition.Includes? || f.condition.NotIncludes? || f.condition.IsEmpty? || f.condition.IsNotEmpty?)
  }

  /** A clause that some value of a new card meets, as chosen. */
  predicate Satisfiable(f: Filter, templates: seq<Template>)
    requires OnSelect(f, templates)
  {
    var options := FindTemplate(templates, f.propertyID).options;
    && (f.condition.Includes? ==> f.values == [] || f.values[0] != "")
    && (f.condition.IsNotEmpty? ==> options != [] && options[0].id != "")
  }

  function AsValues(props: map<string, string>): map<string, Value> {
    map k | k in props :: Text(props[k])
  }

  /** The value chosen for a clause meets it exactly if the clause is satisfiable. */
  lemma ChosenMeetsIff(env: Platform, f: Filter, templates: seq<Template>, card: Card)
    requires OnSelect(f, templates)
    requires var v := PropertyThatMeets(f, templates);
             ValueOf(card, f.propertyID) == if v == "" then Missing else Text(v)
    ensures Eval(env, f, templates, card) == Of(Satisfiable(f, templates))
  {
    var v := ValueOf(card, f.propertyID);
    assert Subject(env, SelectType, f.propertyID, card) == v;
    if f.condition.Includes? && f.values != [] {
      assert AnyOf(f.values, Text(f.values[0]));
      assert !AnyOf(f.values, Missing);
    }
  }

  ghost predicate DistinctProperties(fs: seq<Filter>) {
    forall i, j :: 0 <= i < j < |fs| && fs[i].Clause? && fs[j].Clause? ==> fs[i].propertyID != fs[j].propertyID
  }

  /** With distinct properties each clause gets the value it asks for. */
  lemma {:induction false} PropsAt(fs: seq<Filter>, templates: seq<Template>, k: nat, id: string)
    requires (forall f :: f in fs ==> f.Clause?) && DistinctProperties(fs)
    ensures (forall f :: f in fs ==> f.propertyID != id) ==> id !in Props(fs, templates)
    ensures k < |fs| && fs[k].propertyID == id ==>
              var v := PropertyThatMeets(fs[k], templates);
              if v == "" then id !in Props(fs, templates)
              else id in Props(fs, templates) && Props(fs, templates)[id] == v
  {
    if fs == [] {
    } else {
      var n := |fs| - 1;
      PropsAt(fs[..n], templates, k, id);
      assert fs[n] in fs;
      if k == n {
        forall f | f in fs[..n] ensures f.propertyID != fs[n].propertyID {
          var i :| 0 <= i < n && fs[..n][i] == f;
          assert fs[i] == f;
        }
      }
    }
  }

  /** "and" is met exactly if every part is. */
  lemma {:induction false} AllMetIff(env: Platform, fs: seq<Filter>, templates: seq<Template>, card: Card)
    ensures EvalAll(env, And, fs, templates, card) == Met <==>
              forall i :: 0 <= i < |fs| ==> Eval(env, fs[i], templates, card) == Met
  {
    if fs == [] {
    } else {
      AllMetIff(env, fs[1..], templates, card);
      assert forall i :: 0 < i < |fs| ==> fs[i] == fs[1..][i - 1];
      assert forall i :: 0 <= i < |fs[1..]| ==> fs[1..][i] == fs[i + 1];
    }
  }

  /** A new card with the properties chosen for an "and" group of select clauses on distinct properties
      meets the group exactly if each clause is satisfiable. */
  lemma NewCardMeetsAndIff(env: Platform, group: Filter, templates: seq<Template>, card: Card)
    requires group.Group? && group.operation.And?
    requires forall f :: f in group.filters ==> OnSelect(f, templates)
    requires DistinctProperties(group.filters)
    requires card.properties == AsValues(WantedProps(group, templates))
    ensures Eval(env, group, templates, card) == Met <==> forall f :: f in group.filters ==> Satisfiable(f, templates)
  {
    var fs := group.filters;
    AllMetIff(env, fs, templates, card);
    forall i | 0 <= i < |fs| ensures Eval(env, fs[i], templates, card) == Of(Satisfiable(fs[i], templates)) {
      PropsAt(fs, templates, i, fs[i].propertyID);
      ChosenMeetsIff(env, fs[i], templates, card);
    }
  }

  /** A select clause that a card without any property meets. */
  predicate MetByNothing(f: Filter) {
    f.Clause? && (f.condition.NotIncludes? || f.condition.IsEmpty? || (f.condition.Includes? && f.values == []))
  }

  lemma {:induction false} AnyMetIff(env: Platform, fs: seq<Filter>, templates: seq<Template>, card: Card)
    requires forall f :: f in fs ==> OnSelect(f, templates)
    requires card.properties == map[]
    ensures EvalAll(env, Or, fs, templates, card) == Met <==> exists f :: f in fs && MetByNothing(f)
  {
    if fs == [] {
    } else {
      assert OnSelect(fs[0], templates) && fs == [fs[0]] + fs[1..];
      AnyMetIff(env, fs[1..], templates, card);
      assert Subject(env, SelectType, fs[0].propertyID, card) == Missing;
      assert !AnyOf(fs[0].values, Missing);
      assert Eval(env, fs[0], templates, card) == Of(MetByNothing(fs[0]));
      if f :| f in fs && MetByNothing(f) {
        assert f == fs[0] || f in fs[1..];
      }
    }
  }

  /** A new card with the properties chosen for an "or" group of select clauses meets the group exactly
      if the first clause is satisfiable, or another one asks for nothing. */
  lemma NewCardMeetsOrIff(env: Platform, group: Filter, templates: seq<Template>, card: Card)
    requires group.Group? && group.operation.Or? && group.filters != []
    requires forall f :: f in group.filters ==> OnSelect(f, templates)
    requires card.properties == AsValues(WantedProps(group, templates))
    ensures Eval(env, group, templates, card) == Met <==>
              Satisfiable(group.filters[0], templates) || exists f :: f in group.filters && MetByNothing(f)
  {
    var first := group.filters[0];
    ChosenMeetsIff(env, first, templates, card);
    if !Satisfiable(first, templates) {
      assert PropertyThatMeets(first, templates) == "";
      AnyMetIff(env, group.filters, templates, card);
    }
  }
}
