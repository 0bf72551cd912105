/** Sidebar categories: a user's boards in a team, sorted into categories.  The store is a pair of
    tables, categories by ID and one row for each user and board, and the operations are the mutually
    recursive ones that create the default category on demand. */
module Categories {
  import opened Lines
  import opened Sequences
  import opened Ids

  datatype CategoryType = System | Custom | Blank | Unknown

  datatype Category = Category(
    id: string, name: string, userID: string, teamID: string, kind: CategoryType,
    createAt: int, updateAt: int, deleteAt: int, collapsed: bool, sortOrder: int)

  /** User and board. */
  type Key = (string, string)

  datatype Row = Row(categoryID: string, hidden: bool)

  datatype BoardMeta = BoardMeta(boardID: string, hidden: bool)

  datatype CategoryBoards = CategoryBoards(category: Category, boards: seq<BoardMeta>)

  /** The tables.  `synthetic` holds the user's memberships, true for those that are only implied;
      `teamBoards` lists, for a user and a team, the boards the user is a member of. */
  datatype Db = Db(
    categories: map<string, Category>,
    rows: map<Key, Row>,
    synthetic: map<Key, bool>,
    teamBoards: map<(string, string), seq<string>>)

  datatype Error =
    | InvalidCategory | AlreadyExists | NotFound | Deleted | PermissionDenied | WrongTeam
    | CannotDeleteSystem | MembershipNotFound | CategoryNotFound | LengthMismatch | BoardNotInCategory

  datatype Result<T> = Ok(value: T) | Err(error: Error)

  /** The name of the default category. */
  const BOARDS := "Boards"

  const SORT_ORDER_GAP := 10

  predicate IsBlank(s: string) {
    TrimSpace(s) == ""
  }

  // ----- what the tables say

  predicate Live(db: Db, user: string, team: string, id: string) {
    id in db.categories && db.categories[id].userID == user && db.categories[id].teamID == team &&
      db.categories[id].deleteAt == 0
  }

  ghost predicate HasDefault(db: Db, user: string, team: string) {
    exists id :: Live(db, user, team, id) && db.categories[id].name == BOARDS
  }

  ghost predicate InCategory(db: Db, id: string, m: BoardMeta) {
    exists k: Key :: k in db.rows && k.1 == m.boardID && db.rows[k] == Row(id, m.hidden)
  }

  ghost predicate Categorised(db: Db, user: string, team: string, boardID: string) {
    exists id, hidden :: Live(db, user, team, id) && InCategory(db, id, BoardMeta(boardID, hidden))
  }

  ghost predicate Holds(db: Db, id: string, boards: seq<BoardMeta>) {
    forall m :: m in boards <==> InCategory(db, id, m)
  }

  predicate RowIn(db: Db, id: string, k: Key) {
    k in db.rows && db.rows[k].categoryID == id
  }

  function RowsIn(db: Db, id: string): set<Key> {
    set k | k in db.rows && RowIn(db, id, k)
  }

  function MetaOf(db: Db, k: Key): BoardMeta {
    BoardMeta(k.1, k in db.rows && db.rows[k].hidden)
  }

  function Elements<T(==)>(s: seq<T>): set<T> {
    set x | x in s
  }

  /** One entry for each row of the category, in the order of the given keys. */
  ghost predicate ListsRows(db: Db, id: string, keys: seq<Key>, boards: seq<BoardMeta>) {
    && |boards| == |keys| && NoRepeats(keys) && Elements(keys) == RowsIn(db, id)
    && forall i :: 0 <= i < |keys| ==> boards[i] == MetaOf(db, keys[i])
  }

  /** One entry for each row of the category, whoever's it is. */
  ghost predicate EntryPerRow(db: Db, id: string, boards: seq<BoardMeta>) {
    exists keys :: ListsRows(db, id, keys, boards)
  }

  lemma ListsRowsHold(db: Db, id: string, keys: seq<Key>, boards: seq<BoardMeta>)
    requires ListsRows(db, id, keys, boards)
    ensures Holds(db, id, boards)
  {
    forall m ensures m in boards <==> InCategory(db, id, m) {
      if m in boards {
        var i :| 0 <= i < |boards| && boards[i] == m;
        assert keys[i] in Elements(keys);
      }
      if InCategory(db, id, m) {
        var k: Key :| k in db.rows && k.1 == m.boardID && db.rows[k] == Row(id, m.hidden);
        assert k in RowsIn(db, id) && k in keys;
        var i :| 0 <= i < |keys| && keys[i] == k;
        assert boards[i] == m;
      }
    }
  }

  /** The list has the user's live categories in the team, each once, each with its boards. */
  ghost predicate Lists(db: Db, user: string, team: string, cbs: seq<CategoryBoards>) {
    && (forall i, j :: 0 <= i < j < |cbs| ==> cbs[i].category.id != cbs[j].category.id)
    && (forall i :: 0 <= i < |cbs| ==> Listed(db, user, team, cbs[i]))
    && (forall id :: Live(db, user, team, id) ==> exists i :: 0 <= i < |cbs| && cbs[i].category.id == id)
  }

  ghost predicate Listed(db: Db, user: string, team: string, cb: CategoryBoards) {
    var id := cb.category.id;
    Live(db, user, team, id) && db.categories[id] == cb.category && Holds(db, id, cb.boards)
  }

  /** Each live category's boards are listed row by row. */
  ghost predicate Counted(db: Db, user: string, team: string, cbs: seq<CategoryBoards>) {
    forall i :: 0 <= i < |cbs| && Live(db, user, team, cbs[i].category.id) ==>
      EntryPerRow(db, cbs[i].category.id, cbs[i].boards)
  }

  predicate Consistent(db: Db) {
    forall id :: id in db.categories ==> db.categories[id].id == id
  }

  /** All category IDs in the tables are among these. */
  ghost predicate Known(db: Db, used: set<string>) {
    db.categories.Keys <= used && forall k :: k in db.rows ==> db.rows[k].categoryID in used
  }

  function BoardsInTeam(db: Db, user: string, team: string): seq<string> {
    if (user, team) in db.teamBoards then db.teamBoards[(user, team)] else []
  }

  // ----- what the writes do

  /** A new category; the live categories of its user and team, itself included, move down. */
  function WithCategory(db: Db, c: Category): Db {
    db.(categories := Bumped(db.categories[c.id := c], c.userID, c.teamID))
  }

  function Bumped(cs: map<string, Category>, user: string, team: string): map<string, Category> {
    map id | id in cs :: if cs[id].userID == user && cs[id].teamID == team && cs[id].deleteAt == 0
                         then cs[id].(sortOrder := cs[id].sortOrder + SORT_ORDER_GAP) else cs[id]
  }

  /** The given boards of the user, each under one category; a row that exists keeps its visibility. */
  function WithRows(db: Db, user: string, id: string, boardIDs: seq<string>): Db {
    db.(rows := db.rows + map k | k in Keys(user, boardIDs) :: Row(id, k in db.rows && db.rows[k].hidden))
  }

  function Keys(user: string, boardIDs: seq<string>): set<Key> {
    set b | b in boardIDs :: (user, b)
  }

  // ----- what GetUserCategoryBoards and AddUpdateUserCategoryBoard do

  /** The boards the default category takes in when it is created: the user's boards in the team
      with a stored membership that no live category has. */
  ghost function ToAdd(db: Db, user: string, team: string, boards: seq<string>): (r: seq<string>) {
    if boards == [] then []
    else
      var rest := ToAdd(db, user, team, boards[1..]);
      if TakenIn(db, user, team, boards[0]) then [boards[0]] + rest else rest
  }

  ghost predicate TakenIn(db: Db, user: string, team: string, b: string) {
    (user, b) in db.synthetic && !db.synthetic[(user, b)] && !Categorised(db, user, team, b)
  }

  predicate AllMembers(db: Db, user: string, boards: seq<string>) {
    forall b :: b in boards ==> (user, b) in db.synthetic
  }

  function Shown(boards: seq<string>): seq<BoardMeta> {
    if boards == [] then [] else [BoardMeta(boards[0], false)] + Shown(boards[1..])
  }

  /** `c` is a default category as it is created for the user and team in `db`. */
  ghost predicate NewDefault(db: Db, user: string, team: string, c: Category) {
    && c.id !in db.categories
    && (forall k :: k in db.rows ==> db.rows[k].categoryID != c.id)
    && c.name == BOARDS && c.userID == user && c.teamID == team && c.kind == System && c.deleteAt == 0
  }

  ghost predicate Got(before: Db, after: Db, user: string, team: string, c: Category, r: Result<seq<CategoryBoards>>) {
    if HasDefault(before, user, team) then
      after == before && r.Ok? && Lists(before, user, team, r.value)
    else
      && (r.Ok? ==> r.value != [] && Lists(before, user, team, r.value[..|r.value| - 1]))
      && DefaultMade(before, after, user, team, c,
                     match r
                     case Err(e) => Err(e)
                     case Ok(cbs) => Ok(if cbs == [] then CategoryBoards(c, []) else cbs[|cbs| - 1]))
  }

  /** What createBoardsCategory does in a store without a default category. */
  ghost predicate DefaultMade(before: Db, after: Db, user: string, team: string, c: Category,
                              r: Result<CategoryBoards>) {
    if IsBlank(user) || IsBlank(team) then
      after == before && r == Err(InvalidCategory)
    else
      && NewDefault(before, user, team, c)
      && var boards := BoardsInTeam(before, user, team);
      if !AllMembers(before, user, boards) then
        after == WithCategory(before, c) && r == Err(MembershipNotFound)
      else
        && after == AfterDefault(before, user, team, c)
        && r == Ok(DefaultEntry(before, user, team, c))
  }

  /** Whether the user's categories can be listed: if there is a default category, or one can be made. */
  ghost function CanList(db: Db, user: string, team: string): Result<()> {
    if HasDefault(db, user, team) then Ok(())
    else if IsBlank(user) || IsBlank(team) then Err(InvalidCategory)
    else if !AllMembers(db, user, BoardsInTeam(db, user, team)) then Err(MembershipNotFound)
    else Ok(())
  }

  predicate IsDeleted(db: Db, id: string) {
    id in db.categories && db.categories[id].deleteAt != 0
  }

  /** Whether a category that is not deleted yet can be, or the first reason against it. */
  ghost function Deletable(db: Db, id: string, user: string, team: string): Result<()> {
    if id !in db.categories then Err(NotFound)
    else if db.categories[id].userID != user then Err(PermissionDenied)
    else if db.categories[id].teamID != team then Err(WrongTeam)
    else if db.categories[id].kind == System then Err(CannotDeleteSystem)
    else CanList(db, user, team)
  }

  /** The tables once the new default category has taken in its boards. */
  ghost function AfterDefault(before: Db, user: string, team: string, c: Category): Db {
    WithRows(WithCategory(before, c), user, c.id, ToAdd(before, user, team, BoardsInTeam(before, user, team)))
  }

  /** The entry for the new default category. */
  ghost function DefaultEntry(before: Db, user: string, team: string, c: Category): CategoryBoards
    requires NewDefault(before, user, team, c)
  {
    CategoryBoards(WithCategory(before, c).categories[c.id],
      Shown(ToAdd(before, user, team, BoardsInTeam(before, user, team))))
  }

  /** `got` is the answer of the inner GetUserCategoryBoards call, made after the rows are written. */
  ghost predicate Added(before: Db, after: Db, user: string, team: string, id: string, boardIDs: seq<string>,
                        c: Category, got: Result<seq<CategoryBoards>>, r: Result<()>) {
    if boardIDs == [] then after == before && r == Ok(())
    else
      && Got(WithRows(before, user, id, boardIDs), after, user, team, c, got)
      && r == match got case Err(e) => Err(e)
                        case Ok(cbs) => if HasEntry(cbs, id) then Ok(()) else Err(CategoryNotFound)
  }

  ghost predicate HasEntry(cbs: seq<CategoryBoards>, id: string) {
    exists i :: 0 <= i < |cbs| && cbs[i].category.id == id
  }

  // ----- single categories

  /** A category with its defaults.  The time of the last change defaults to the time of creation, which
      a client may name. */
  function Hydrated(c: Category, id: string, now: int): Category {
    var createAt := if c.createAt == 0 then now else c.createAt;
    c.(id := id,
       createAt := createAt,
       updateAt := if c.updateAt == 0 then createAt else c.updateAt,
       sortOrder := if c.sortOrder < 0 then 0 else c.sortOrder,
       kind := if c.kind == Blank then Custom else c.kind)
  }

  /** The category is stored as the client gave it: a missing type counts as custom, and missing times are filled
      in.  The live categories of its user and team, itself included, move down by ten places.  Nothing else
      changes. */
  ghost predicate StoredAs(before: Db, after: Db, c: Category, id: string, now: int) {
    && after == before.(categories := after.categories)
    && after.categories.Keys == before.categories.Keys + {id}
    && (var d := after.categories[id];
        && d.id == id && d.name == c.name && d.userID == c.userID && d.teamID == c.teamID && d.deleteAt == c.deleteAt
        && d.collapsed == c.collapsed
        && d.kind == (if c.kind == System then System else Custom)
        && d.createAt == (if c.createAt != 0 then c.createAt else now)
        && d.updateAt == (if c.updateAt != 0 then c.updateAt else d.createAt)
        && d.sortOrder == (if c.sortOrder > 0 then c.sortOrder else 0) + (if c.deleteAt == 0 then 10 else 0))
    && forall x :: x in before.categories ==>
         && after.categories[x] == before.categories[x].(sortOrder := after.categories[x].sortOrder)
         && after.categories[x].sortOrder == before.categories[x].sortOrder +
              if before.categories[x].userID == c.userID && before.categories[x].teamID == c.teamID
                 && before.categories[x].deleteAt == 0 then 10 else 0
  }

  lemma StoredAsGiven(before: Db, c: Category, id: string, now: int)
    requires id !in before.categories && c.kind != Unknown
    ensures StoredAs(before, WithCategory(before, Hydrated(c, id, now)), c, id, now)
  {
  }

  function NoCategory(): Category {
    Category("", "", "", "", Custom, 0, 0, 0, false, 0)
  }

  predicate IsValidCategory(c: Category) {
    !IsBlank(c.id) && !IsBlank(c.name) && !IsBlank(c.userID) && !IsBlank(c.teamID) &&
      (c.kind == Custom || c.kind == System)
  }

  class App {
    var db: Db
    const ids: IdSupply

    constructor (db: Db, ids: IdSupply)
      requires ids.Valid() && Consistent(db) && Known(db, ids.used)
      ensures Valid() && this.db == db && this.ids == ids
    {
      this.db, this.ids := db, ids;
    }

    /** IDs drawn from now on name no stored category and occur in no row. */
    ghost predicate Valid()
      reads this, ids
    {
      ids.Valid() && Consistent(db) && Known(db, ids.used)
    }

    // ----- reads of the store

    method CategoryBoardAttributes(id: string) returns (boards: seq<BoardMeta>)
      ensures Holds(db, id, boards) && EntryPerRow(db, id, boards)
    {
      boards := [];
      ghost var keys := [];
      var todo := db.rows.Keys;
      while todo != {}
        invariant todo <= db.rows.Keys
        invariant |boards| == |keys| && NoRepeats(keys) && Elements(keys) == RowsIn(db, id) - todo
        invariant forall i :: 0 <= i < |keys| ==> boards[i] == MetaOf(db, keys[i])
        decreases todo
      {
        var k :| k in todo;
        todo := todo - {k};
        if db.rows[k].categoryID == id {
          assert k !in Elements(keys);
          PushNoRepeats(keys, k);
          assert Elements(keys + [k]) == Elements(keys) + {k};
          boards, keys := boards + [BoardMeta(k.1, db.rows[k].hidden)], keys + [k];
        }
      }
      assert ListsRows(db, id, keys, boards);
      ListsRowsHold(db, id, keys, boards);
    }

    /** The store's list of a user's categories in a team, with their boards, in some order. */
    method StoredCategoryBoards(user: string, team: string) returns (cbs: seq<CategoryBoards>)
      requires Consistent(db)
      ensures Lists(db, user, team, cbs) && Counted(db, user, team, cbs)
    {
      cbs := [];
      var todo := db.categories.Keys;
      while todo != {}
        invariant todo <= db.categories.Keys
        invariant forall i, j :: 0 <= i < j < |cbs| ==> cbs[i].category.id != cbs[j].category.id
        invariant forall i :: 0 <= i < |cbs| ==> Listed(db, user, team, cbs[i]) && cbs[i].category.id !in todo
        invariant Counted(db, user, team, cbs)
        invariant forall id :: Live(db, user, team, id) && id !in todo ==>
                    exists i :: 0 <= i < |cbs| && cbs[i].category.id == id
        decreases todo
      {
        var id :| id in todo;
        todo := todo - {id};
        if Live(db, user, team, id) {
          var boards := CategoryBoardAttributes(id);
          ghost var before := cbs;
          cbs := cbs + [CategoryBoards(db.categories[id], boards)];
          assert cbs[|before|].category.id == id;
          assert forall i :: 0 <= i < |before| ==> cbs[i] == before[i];
        }
      }
    }

    // ----- operations

    method CreateCategory(category: Category, now: int) returns (r: Result<Category>, ghost c: Category)
      requires Valid() && (category.id != "" ==> category.id in ids.used)
      modifies this, ids
      ensures Valid() && old(ids.used) <= ids.used
      ensures c == Hydrated(category, c.id, now)
      ensures if category.id == "" then c.id !in old(ids.used) && c.id != "" && c.id[0] == '7' else c.id == category.id
      ensures !IsValidCategory(c) ==> r == Err(InvalidCategory) && db == old(db)
      ensures IsValidCategory(c) && c.id in old(db.categories) ==> r == Err(AlreadyExists) && db == old(db)
      ensures IsValidCategory(c) && c.id !in old(db.categories) ==>
                db == WithCategory(old(db), c) && r == Ok(WithCategory(old(db), c).categories[c.id])
      ensures r.Ok? <==>
                && !IsBlank(c.id) && !IsBlank(category.name) && !IsBlank(category.userID) && !IsBlank(category.teamID)
                && category.kind != Unknown && c.id !in old(db.categories)
      ensures r.Ok? ==>
                r.value.id == c.id && StoredAs(old(db), db, category, c.id, now) && r.value == db.categories[c.id]
    {
      var id := category.id;
      if id == "" {
        id := ids.NewID('7');
      }
      var hydrated := Hydrated(category, id, now);
      c := hydrated;
      if !IsValidCategory(hydrated) {
        return Err(InvalidCategory), c;
      }
      if hydrated.id in db.categories {
        return Err(AlreadyExists), c;
      }
      StoredAsGiven(db, category, id, now);
      db := WithCategory(db, hydrated);
      r := Ok(db.categories[hydrated.id]);
    }

    /** Whether some listed category holds the board. */
    method BelongsToCategory(user: string, team: string, existing: seq<CategoryBoards>, boardID: string,
                             ghost before: Db)
      returns (belongs: bool)
      requires Lists(before, user, team, existing)
      ensures belongs <==> Categorised(before, user, team, boardID)
    {
      CategorisedListed(before, user, team, existing, boardID);
      for i := 0 to |existing|
        invariant forall j, h :: 0 <= j < i ==> BoardMeta(boardID, h) !in existing[j].boards
      {
        var boards := existing[i].boards;
        for k := 0 to |boards|
          invariant forall h :: BoardMeta(boardID, h) !in boards[..k]
        {
          if boards[k].boardID == boardID {
            assert boards[k] in boards && boards[k] == BoardMeta(boardID, boards[k].hidden);
            return true;
          }
          assert boards[..k + 1] == boards[..k] + [boards[k]];
        }
        assert boards[..|boards|] == boards;
      }
      return false;
    }

    /** The boards to take into a new default category, or a board without a membership. */
    method BoardsToAdd(user: string, team: string, boards: seq<string>, existing: seq<CategoryBoards>, ghost before: Db)
      returns (ok: bool, boardIDsToAdd: seq<string>, metadata: seq<BoardMeta>)
      requires Lists(before, user, team, existing) && db.synthetic == before.synthetic
      ensures ok <==> AllMembers(before, user, boards)
      ensures ok ==> boardIDsToAdd == ToAdd(before, user, team, boards) && metadata == Shown(boardIDsToAdd)
    {
      boardIDsToAdd, metadata := [], [];
      for i := 0 to |boards|
        invariant AllMembers(before, user, boards[..i])
        invariant ToAdd(before, user, team, boards) == boardIDsToAdd + ToAdd(before, user, team, boards[i..])
        invariant metadata == Shown(boardIDsToAdd)
      {
        var boardID := boards[i];
        ToAddNext(before, user, team, boards, i, boardIDsToAdd);
        if (user, boardID) !in db.synthetic {
          return false, boardIDsToAdd, metadata;
        }
        if db.synthetic[(user, boardID)] {
          continue;
        }
        var belongsToCategory := BelongsToCategory(user, team, existing, boardID, before);
        if !belongsToCategory {
          ShownPush(boardIDsToAdd, boardID);
          boardIDsToAdd := boardIDsToAdd + [boardID];
          metadata := metadata + [BoardMeta(boardID, false)];
        }
      }
      assert boards[..|boards|] == boards;
      ok := true;
    }

    /** The user's categories in the team with their boards.  If there is no default category one is
        created, and it takes in the boards that are in none. */
    method GetUserCategoryBoards(user: string, team: string, now: int)
      returns (r: Result<seq<CategoryBoards>>, ghost c: Category)
      requires Valid()
      modifies this, ids
      ensures Valid() && old(ids.used) <= ids.used
      ensures Got(old(db), db, user, team, c, r)
      ensures r.Ok? ==> Counted(old(db), user, team, r.value)
      decreases if HasDefault(db, user, team) then 0 else 1, 1
    {
      var categoryBoards := StoredCategoryBoards(user, team);
      var boardsCategoryExist := false;
      for i := 0 to |categoryBoards|
        invariant boardsCategoryExist <==> exists j :: 0 <= j < i && categoryBoards[j].category.name == BOARDS
      {
        if categoryBoards[i].category.name == BOARDS {
          boardsCategoryExist := true;
        }
      }
      DefaultListed(db, user, team, categoryBoards);
      if boardsCategoryExist {
        c := NoCategory();
        return Ok(categoryBoards), c;
      }
      var created;
      created, c := CreateBoardsCategory(user, team, categoryBoards, now);
      if created.Err? {
        return Err(created.error), c;
      }
      r := Ok(categoryBoards + [created.value]);
      assert r.value[..|r.value| - 1] == categoryBoards;
    }

    /** Creates the default category and gives it the boards that no category has. */
    method CreateBoardsCategory(user: string, team: string, existing: seq<CategoryBoards>, now: int)
      returns (r: Result<CategoryBoards>, ghost c: Category)
      requires Valid() && Lists(db, user, team, existing) && !HasDefault(db, user, team)
      modifies this, ids
      ensures Valid() && old(ids.used) <= ids.used
      ensures DefaultMade(old(db), db, user, team, c, r)
      ensures c.sortOrder == |existing| * SORT_ORDER_GAP && c.createAt == c.updateAt == now && !c.collapsed
      decreases if HasDefault(db, user, team) then 0 else 1, 0
    {
      ghost var before := db;
      var category := Category("", BOARDS, user, team, System, 0, 0, 0, false, |existing| * SORT_ORDER_GAP);
      var createdCategory;
      createdCategory, c := CreateCategory(category, now);
      NotBlank(BOARDS);
      NotBlank(c.id);
      if createdCategory.Err? {
        return Err(createdCategory.error), c;
      }
      var id := createdCategory.value.id;
      assert Live(WithCategory(before, c), user, team, c.id);
      var userTeamBoards := BoardsInTeam(db, user, team);
      var ok, boardIDsToAdd, metadata := BoardsToAdd(user, team, userTeamBoards, existing, before);
      if !ok {
        return Err(MembershipNotFound), c;
      }
      if |boardIDsToAdd| > 0 {
        ghost var mid := db;
        var added, d, got := AddUpdateUserCategoryBoard(team, user, id, boardIDsToAdd, now);
        if added.Err? {
          // cannot happen: the default category exists by now
          AddToLive(mid, db, user, team, id, boardIDsToAdd, d, got, added);
          assert false;
        }
        AddToLive(mid, db, user, team, id, boardIDsToAdd, d, got, added);
      } else {
        WithNoRows(db, user, id);
      }
      r := Ok(CategoryBoards(createdCategory.value, metadata));
    }

    /** Puts boards of the user into a category, and reads the result back for the notification. */
    method AddUpdateUserCategoryBoard(team: string, user: string, categoryID: string, boardIDs: seq<string>, now: int)
      returns (r: Result<()>, ghost c: Category, ghost got: Result<seq<CategoryBoards>>)
      requires Valid() && categoryID in ids.used
      modifies this, ids
      ensures Valid() && old(ids.used) <= ids.used
      ensures Added(old(db), db, user, team, categoryID, boardIDs, c, got, r)
      decreases if HasDefault(db, user, team) then 0 else 1, 2
    {
      if |boardIDs| == 0 {
        c, got := NoCategory(), Err(NotFound);
        return Ok(()), c, got;
      }
      ghost var before := db;
      db := WithRows(db, user, categoryID, boardIDs);
      assert HasDefault(db, user, team) <==> HasDefault(before, user, team) by {
        RowsKeepDefault(before, user, team, categoryID, boardIDs);
      }
      var userCategoryBoards;
      userCategoryBoards, c := GetUserCategoryBoards(user, team, now);
      got := userCategoryBoards;
      if userCategoryBoards.Err? {
        return Err(userCategoryBoards.error), c, got;
      }
      var cbs := userCategoryBoards.value;
      for i := 0 to |cbs|
        invariant forall j :: 0 <= j < i ==> cbs[j].category.id != categoryID
      {
        if cbs[i].category.id == categoryID {
          return Ok(()), c, got;
        }
      }
      return Err(CategoryNotFound), c, got;
    }

    /** Renames, folds or reorders a category.  A system category keeps its name. */
    method UpdateCategory(category: Category, now: int) returns (r: Result<Category>)
      requires Valid() && (category.id != "" ==> category.id in ids.used)
      modifies this, ids
      ensures Valid() && old(ids.used) <= ids.used
      ensures Updated(old(db), db, category, now, r)
    {
      var id := category.id;
      if id == "" {
        id := ids.NewID('7');
      }
      var c := Hydrated(category, id, now);
      if !IsValidCategory(c) {
        return Err(InvalidCategory);
      }
      if c.id !in db.categories {
        return Err(NotFound);
      }
      var existing := db.categories[c.id];
      if existing.deleteAt != 0 {
        return Err(Deleted);
      }
      if existing.userID != c.userID {
        return Err(PermissionDenied);
      }
      if existing.teamID != c.teamID {
        return Err(PermissionDenied);
      }
      c := c.(kind := existing.kind);
      if existing.kind == System {
        c := c.(name := existing.name, deleteAt := 0);
      }
      c := c.(updateAt := now);
      if !IsValidCategory(c) {
        return Err(InvalidCategory);
      }
      db := WithUpdate(db, c);
      r := Ok(db.categories[c.id]);
    }

    /** Moves the boards of a category to the default category. */
    method MoveBoardsToDefaultCategory(user: string, team: string, sourceID: string, now: int)
      returns (r: Result<()>, ghost mid: Db, ghost target: string)
      requires Valid() && Live(db, user, team, sourceID)
      modifies this, ids
      ensures Valid() && old(ids.used) <= ids.used
      ensures Emptied(old(db), mid, db, user, team, sourceID, target, r)
      ensures r == CanList(old(db), user, team)
      ensures OnlyTouches(old(db), db, user, team)
    {
      ghost var before := db;
      var got, c := GetUserCategoryBoards(user, team, now);
      GotKeeps(before, db, user, team, c, got);
      GotTouches(before, db, user, team, c, got);
      GotIff(before, db, user, team, c, got);
      if AllOwn(before) {
        GotKeepsOwn(before, db, user, team, c, got);
      }
      mid, target := db, "";
      if got.Err? {
        return Err(got.error), mid, target;
      }
      GotReflects(before, db, user, team, c, got);
      var cbs := got.value;
      SourceAndDefault(mid, user, team, cbs, sourceID);
      var source, defaultID := FindSourceAndDefault(cbs, sourceID);
      target := defaultID;
      var boardIDs := BoardIDsOf(cbs[source].boards);
      SourceBoards(mid, user, team, cbs, source, boardIDs);
      RowsTouch(mid, user, team, defaultID, boardIDs);
      TouchesOn(before, mid, WithRows(mid, user, defaultID, boardIDs), user, team);
      r := MoveBoards(team, user, defaultID, boardIDs, now);
      RehomedBy(mid, db, user, sourceID, target, boardIDs);
    }

    /** Adding boards to a live category when there is a default category. */
    method MoveBoards(team: string, user: string, categoryID: string, boardIDs: seq<string>, now: int)
      returns (r: Result<()>)
      requires Valid() && HasDefault(db, user, team) && Live(db, user, team, categoryID)
      modifies this, ids
      ensures Valid() && old(ids.used) <= ids.used
      ensures r == Ok(()) && db == WithRows(old(db), user, categoryID, boardIDs)
    {
      ghost var before := db;
      ghost var c, got;
      r, c, got := AddUpdateUserCategoryBoard(team, user, categoryID, boardIDs, now);
      AddToLive(before, db, user, team, categoryID, boardIDs, c, got, r);
      WithNoRows(before, user, categoryID);
    }

    /** The position of the source category, and a category with the default name: the source itself
        if that is its name. */
    method FindSourceAndDefault(cbs: seq<CategoryBoards>, sourceID: string) returns (source: nat, defaultID: string)
      requires HasEntry(cbs, sourceID) && exists i :: 0 <= i < |cbs| && cbs[i].category.name == BOARDS
      ensures source < |cbs| && cbs[source].category.id == sourceID
      ensures exists j :: 0 <= j < |cbs| && cbs[j].category.id == defaultID && cbs[j].category.name == BOARDS
      ensures cbs[source].category.name == BOARDS ==> defaultID == sourceID
    {
      var sourceFound, defaultFound := false, false;
      source, defaultID := 0, "";
      for i := 0 to |cbs|
        invariant sourceFound ==> 0 <= source < i && cbs[source].category.id == sourceID
        invariant !sourceFound ==> forall j :: 0 <= j < i ==> cbs[j].category.id != sourceID
        invariant defaultFound ==>
                    exists j :: 0 <= j < i && cbs[j].category.id == defaultID && cbs[j].category.name == BOARDS
        invariant !defaultFound ==> forall j :: 0 <= j < i ==> cbs[j].category.name != BOARDS
        invariant !(sourceFound && defaultFound)
      {
        if cbs[i].category.id == sourceID {
          source, sourceFound := i, true;
        }
        if cbs[i].category.name == BOARDS {
          defaultID, defaultFound := cbs[i].category.id, true;
        }
        if sourceFound && defaultFound {
          break;
        }
      }
    }

    method BoardIDsOf(boards: seq<BoardMeta>) returns (boardIDs: seq<string>)
      ensures |boardIDs| == |boards| && forall j :: 0 <= j < |boards| ==> boardIDs[j] == boards[j].boardID
    {
      boardIDs := [];
      for i := 0 to |boards|
        invariant |boardIDs| == i && forall j :: 0 <= j < i ==> boardIDs[j] == boards[j].boardID
      {
        boardIDs := boardIDs + [boards[i].boardID];
      }
    }

    /** Deletes a custom category after moving its boards to the default category. */
    method DeleteCategory(categoryID: string, user: string, team: string, now: int)
      returns (r: Result<Category>, ghost mid: Db, ghost target: string)
      requires Valid() && now != 0
      modifies this, ids
      ensures Valid() && old(ids.used) <= ids.used
      ensures DeletedCategory(old(db), mid, db, categoryID, user, team, target, r)
      ensures r.Ok? <==> IsDeleted(old(db), categoryID) || Deletable(old(db), categoryID, user, team).Ok?
      ensures r.Err? ==> Deletable(old(db), categoryID, user, team) == Err(r.error)
      ensures OnlyTouches(old(db), db, user, team)
      ensures r.Ok? && !IsDeleted(old(db), categoryID) ==> r.value.deleteAt == now
    {
      mid, target := db, "";
      if categoryID !in db.categories {
        return Err(NotFound), mid, target;
      }
      var existing := db.categories[categoryID];
      if existing.deleteAt != 0 {
        return Ok(existing), mid, target;
      }
      if existing.userID != user {
        return Err(PermissionDenied), mid, target;
      }
      if existing.teamID != team {
        return Err(WrongTeam), mid, target;
      }
      if existing.kind == System {
        return Err(CannotDeleteSystem), mid, target;
      }
      var moved;
      moved, mid, target := MoveBoardsToDefaultCategory(user, team, categoryID, now);
      if moved.Err? {
        return Err(moved.error), mid, target;
      }
      DeletingTouches(db, categoryID, now, user, team);
      TouchesOn(old(db), db, WithDeleted(db, categoryID, now), user, team);
      db := WithDeleted(db, categoryID, now);
      r := Ok(db.categories[categoryID]);
    }

    /** Checks a new order for the boards of a category. */
    method VerifyNewCategoryBoardsMatchExisting(user: string, team: string, categoryID: string,
                                                newBoardsOrder: seq<string>, now: int)
      returns (r: Result<()>, ghost c: Category, ghost got: Result<seq<CategoryBoards>>)
      requires Valid()
      modifies this, ids
      ensures Valid() && old(ids.used) <= ids.used
      ensures Got(old(db), db, user, team, c, got)
      ensures got.Err? ==> r == Err(got.error)
      ensures got.Ok? ==> OrderVerdict(got.value, categoryID, newBoardsOrder, r)
      ensures got.Ok? && Live(old(db), user, team, categoryID) ==> Judged(old(db), categoryID, newBoardsOrder, r)
    {
      ghost var before := db;
      var existing;
      existing, c := GetUserCategoryBoards(user, team, now);
      got := existing;
      if existing.Err? {
        return Err(existing.error), c, got;
      }
      var target := FindEntry(existing.value, categoryID);
      if Live(before, user, team, categoryID) {
        ListedIff(before, db, user, team, c, got, categoryID);
      }
      if target == |existing.value| {
        return Err(CategoryNotFound), c, got;
      }
      r := CheckOrder(existing.value[target].boards, newBoardsOrder);
      EntryJudged(before, user, team, existing.value, categoryID, target, newBoardsOrder, r);
    }

    /** The position of a category's entry, or the length of the list. */
    method FindEntry(cbs: seq<CategoryBoards>, id: string) returns (target: nat)
      ensures target <= |cbs| && forall j :: 0 <= j < target ==> cbs[j].category.id != id
      ensures target < |cbs| ==> cbs[target].category.id == id
    {
      target := 0;
      while target < |cbs| && cbs[target].category.id != id
        invariant 0 <= target <= |cbs|
        invariant forall j :: 0 <= j < target ==> cbs[j].category.id != id
      {
        target := target + 1;
      }
    }

    method CheckOrder(boards: seq<BoardMeta>, newBoardsOrder: seq<string>) returns (r: Result<()>)
      ensures r.Ok? <==> OrderMatches(boards, newBoardsOrder)
      ensures r == Err(LengthMismatch) <==> |boards| != |newBoardsOrder|
    {
      if |boards| != |newBoardsOrder| {
        return Err(LengthMismatch);
      }
      var existingBoards := {};
      for i := 0 to |boards|
        invariant existingBoards == set x | x in BoardNames(boards)[..i]
      {
        assert BoardNames(boards)[..i + 1] == BoardNames(boards)[..i] + [boards[i].boardID];
        existingBoards := existingBoards + {boards[i].boardID};
      }
      assert BoardNames(boards)[..|boards|] == BoardNames(boards);
      for i := 0 to |newBoardsOrder|
        invariant forall j :: 0 <= j < i ==> newBoardsOrder[j] in existingBoards
      {
        if newBoardsOrder[i] !in existingBoards {
          return Err(BoardNotInCategory);
        }
      }
      r := Ok(());
    }

    /** One request, whatever its answer. */
    method Serve(q: Request, now: int)
      requires Valid() && now != 0 && Seen(q, ids.used)
      modifies this, ids
      ensures Valid() && old(ids.used) <= ids.used && Effect(old(db), db, q, now)
    {
      match q
      case Create(category) =>
        var r, c := CreateCategory(category, now);
        assert db == old(db) || Created(old(db), db, category, now, c);
      case Update(category) =>
        var r := UpdateCategory(category, now);
      case Delete(id, user, team) =>
        var r, mid, target := DeleteCategory(id, user, team, now);
      case Get(user, team) =>
        var r, c := GetUserCategoryBoards(user, team, now);
      case Add(user, team, id, boardIDs) =>
        var r, c, got := AddUpdateUserCategoryBoard(team, user, id, boardIDs, now);
    }

    /** Requests of a client, each at its own time.  What the client asks next may depend on the tables, and
        names only IDs that were in use before or are in the tables by then.  `trace` holds the tables before
        and after each request. */
    method ServeRequests(client: (nat, Db) -> Request, times: seq<int>)
      returns (ghost requests: seq<Request>, ghost trace: seq<Db>)
      requires Valid() && forall i :: 0 <= i < |times| ==> times[i] != 0
      requires forall i: nat, d :: Seen(client(i, d), ids.used + TableIDs(d))
      modifies this, ids
      ensures Valid() && Traces(trace, requests, times) && trace[0] == old(db) && trace[|times|] == db
      ensures forall i :: 0 <= i < |times| ==> requests[i] == client(i, trace[i])
      ensures SystemKept(old(db), db)
    {
      ghost var known := ids.used;
      requests, trace := [], [db];
      for i := 0 to |times|
        invariant Valid() && known <= ids.used
        invariant Traces(trace, requests, times[..i]) && trace[0] == old(db) && trace[i] == db
        invariant forall j :: 0 <= j < i ==> requests[j] == client(j, trace[j])
      {
        var q := client(i, db);
        assert Seen(q, known + TableIDs(db)) && TableIDs(db) <= ids.used;
        Serve(q, times[i]);
        TracePush(trace, requests, times[..i], db, q, times[i]);
        assert times[..i + 1] == times[..i] + [times[i]];
        requests, trace := requests + [q], trace + [db];
      }
      assert times[..|times|] == times;
      TraceKeepsSystem(trace, requests, times, |times|);
    }
  }

  lemma ToAddNext(db: Db, user: string, team: string, boards: seq<string>, i: nat, added: seq<string>)
    requires i < |boards|
    ensures AllMembers(db, user, boards[..i + 1]) <==>
              AllMembers(db, user, boards[..i]) && (user, boards[i]) in db.synthetic
    ensures added + ToAdd(db, user, team, boards[i..]) ==
              (if TakenIn(db, user, team, boards[i]) then added + [boards[i]] else added)
              + ToAdd(db, user, team, boards[i + 1..])
  {
    assert boards[i..][1..] == boards[i + 1..] && boards[..i + 1] == boards[..i] + [boards[i]];
  }

  lemma {:induction false} ShownPush(boards: seq<string>, b: string)
    ensures Shown(boards + [b]) == Shown(boards) + [BoardMeta(b, false)]
  {
    if boards == [] {
      assert boards + [b] == [b];
    } else {
      assert (boards + [b])[1..] == boards[1..] + [b];
      ShownPush(boards[1..], b);
    }
  }

  lemma DefaultListed(db: Db, user: string, team: string, cbs: seq<CategoryBoards>)
    requires Lists(db, user, team, cbs)
    ensures (exists i :: 0 <= i < |cbs| && cbs[i].category.name == BOARDS) <==> HasDefault(db, user, team)
  {
    if i :| 0 <= i < |cbs| && cbs[i].category.name == BOARDS {
      assert Listed(db, user, team, cbs[i]);
    }
    if HasDefault(db, user, team) {
      var id :| Live(db, user, team, id) && db.categories[id].name == BOARDS;
      var i :| 0 <= i < |cbs| && cbs[i].category.id == id;
      assert Listed(db, user, team, cbs[i]);
    }
  }

  lemma CategorisedListed(db: Db, user: string, team: string, cbs: seq<CategoryBoards>, boardID: string)
    requires Lists(db, user, team, cbs)
    ensures Categorised(db, user, team, boardID) <==> exists i, h ::
              0 <= i < |cbs| && BoardMeta(boardID, h) in cbs[i].boards
  {
    if Categorised(db, user, team, boardID) {
      var id, h :| Live(db, user, team, id) && InCategory(db, id, BoardMeta(boardID, h));
      var i :| 0 <= i < |cbs| && cbs[i].category.id == id;
      assert Listed(db, user, team, cbs[i]);
      assert BoardMeta(boardID, h) in cbs[i].boards;
    }
    if i, h :| 0 <= i < |cbs| && BoardMeta(boardID, h) in cbs[i].boards {
      assert Listed(db, user, team, cbs[i]);
    }
  }

  lemma {:induction false} NotBlank(s: string)
    requires s != "" && !IsSpace(s[0])
    ensures !IsBlank(s)
    decreases |s|
  {
    if !IsSpace(s[|s| - 1]) {
    } else {
      NotBlank(s[..|s| - 1]);
    }
  }

  lemma RowsKeepDefault(db: Db, user: string, team: string, id: string, boardIDs: seq<string>)
    ensures HasDefault(WithRows(db, user, id, boardIDs), user, team) <==> HasDefault(db, user, team)
  {
    forall i ensures Live(WithRows(db, user, id, boardIDs), user, team, i) <==> Live(db, user, team, i) { }
  }

  /** Adding boards to a live category while a default category exists only writes the rows. */
  lemma AddToLive(before: Db, after: Db, user: string, team: string, id: string, boardIDs: seq<string>,
                  c: Category, got: Result<seq<CategoryBoards>>, r: Result<()>)
    requires Added(before, after, user, team, id, boardIDs, c, got, r)
    requires HasDefault(before, user, team) && Live(before, user, team, id)
    ensures r == Ok(()) && after == if boardIDs == [] then before else WithRows(before, user, id, boardIDs)
  {
    if boardIDs != [] {
      RowsKeepDefault(before, user, team, id, boardIDs);
      assert Live(WithRows(before, user, id, boardIDs), user, team, id);
    }
  }

  lemma WithNoRows(db: Db, user: string, id: string)
    ensures WithRows(db, user, id, []) == db
  {
    assert Keys(user, []) == {};
  }

  /** The default category's list, as returned, agrees with the tables afterwards: the same
      categories, under their names, with the same boards. */
  ghost predicate Reflects(db: Db, user: string, team: string, cbs: seq<CategoryBoards>) {
    && (forall i, j :: 0 <= i < j < |cbs| ==> cbs[i].category.id != cbs[j].category.id)
    && (forall i :: 0 <= i < |cbs| ==> EntryReflects(db, user, team, cbs[i]))
    && (forall id :: Live(db, user, team, id) ==> HasEntry(cbs, id))
  }

  ghost predicate EntryReflects(db: Db, user: string, team: string, cb: CategoryBoards) {
    var id := cb.category.id;
    && Live(db, user, team, id)
    && db.categories[id].name == cb.category.name
    && forall b :: HasBoard(cb.boards, b) <==> BoardIn(db, id, b)
  }

  ghost predicate HasBoard(boards: seq<BoardMeta>, b: string) {
    exists h :: BoardMeta(b, h) in boards
  }

  ghost predicate BoardIn(db: Db, id: string, b: string) {
    exists h :: InCategory(db, id, BoardMeta(b, h))
  }

  /** Categories keep everything but their place in the order.  The rows of other users, and of this
      user's boards in live categories, stay as they are, and no category gains a row. */
  ghost predicate Keeps(before: Db, after: Db, user: string, team: string) {
    && (forall id :: id in before.categories ==>
          id in after.categories && SameButOrder(before.categories[id], after.categories[id]))
    && (forall k :: k in before.rows && (k.0 != user || Live(before, user, team, before.rows[k].categoryID)) ==>
          k in after.rows && after.rows[k] == before.rows[k])
    && (forall k :: k in after.rows && after.rows[k].categoryID in before.categories ==>
          k in before.rows && after.rows[k] == before.rows[k])
  }

  predicate SameButOrder(a: Category, b: Category) {
    b == a.(sortOrder := b.sortOrder)
  }

  lemma {:induction false} ToAddOnly(db: Db, user: string, team: string, boards: seq<string>, b: string)
    ensures b in ToAdd(db, user, team, boards) <==> b in boards && TakenIn(db, user, team, b)
  {
    if boards == [] {
    } else {
      ToAddOnly(db, user, team, boards[1..], b);
    }
  }

  lemma CategorisedNotTaken(db: Db, user: string, team: string, boards: seq<string>, k: Key)
    requires k in db.rows && (k.0 != user || Live(db, user, team, db.rows[k].categoryID))
    ensures k !in Keys(user, ToAdd(db, user, team, boards))
  {
    ToAddOnly(db, user, team, boards, k.1);
    assert InCategory(db, db.rows[k].categoryID, BoardMeta(k.1, db.rows[k].hidden));
  }

  lemma DefaultKeepsRow(before: Db, user: string, team: string, c: Category, k: Key)
    requires NewDefault(before, user, team, c)
    ensures var after := AfterDefault(before, user, team, c);
            && (k in before.rows && (k.0 != user || Live(before, user, team, before.rows[k].categoryID)) ==>
                  k in after.rows && after.rows[k] == before.rows[k])
            && (k in after.rows && after.rows[k].categoryID in before.categories ==>
                  k in before.rows && after.rows[k] == before.rows[k])
  {
    if k in before.rows && (k.0 != user || Live(before, user, team, before.rows[k].categoryID)) {
      CategorisedNotTaken(before, user, team, BoardsInTeam(before, user, team), k);
    }
  }

  lemma GotKeeps(before: Db, after: Db, user: string, team: string, c: Category, r: Result<seq<CategoryBoards>>)
    requires Got(before, after, user, team, c, r)
    ensures Keeps(before, after, user, team)
  {
    if !HasDefault(before, user, team) && !IsBlank(user) && !IsBlank(team) {
      forall k | k in before.rows || k in after.rows {
        DefaultKeepsRow(before, user, team, c, k);
      }
    }
  }

  /** Getting the list writes a row exactly for a board that the new default category takes in: one of the user's
      own in the team, by a membership of its own, that no live category had. */
  lemma GotTakesIff(before: Db, after: Db, user: string, team: string, c: Category, r: Result<seq<CategoryBoards>>,
                    k: Key)
    requires Got(before, after, user, team, c, r)
    ensures k in before.rows ==> k in after.rows
    ensures k in after.rows && !(k in before.rows && before.rows[k] == after.rows[k]) <==>
              && r.Ok? && !HasDefault(before, user, team)
              && k.0 == user && k.1 in BoardsInTeam(before, user, team)
              && k in before.synthetic && !before.synthetic[k] && !Categorised(before, user, team, k.1)
  {
    ToAddOnly(before, user, team, BoardsInTeam(before, user, team), k.1);
    assert k in Keys(user, ToAdd(before, user, team, BoardsInTeam(before, user, team))) <==>
             k.0 == user && k.1 in ToAdd(before, user, team, BoardsInTeam(before, user, team));
  }

  /** When the list is returned, and else which error. */
  lemma GotIff(before: Db, after: Db, user: string, team: string, c: Category, r: Result<seq<CategoryBoards>>)
    requires Got(before, after, user, team, c, r)
    ensures r.Ok? <==> CanList(before, user, team).Ok?
    ensures r.Err? ==> CanList(before, user, team) == Err(r.error)
  {
  }

  lemma WithCategoryLive(before: Db, user: string, team: string, c: Category, id: string)
    requires NewDefault(before, user, team, c)
    ensures Live(WithCategory(before, c), user, team, id) <==> id == c.id || Live(before, user, team, id)
    ensures Live(before, user, team, id) ==> WithCategory(before, c).categories[id].name == before.categories[id].name
  {
  }

  /** A board is in the new default category exactly if it was taken in, and in a category that was
      live before exactly if it was there before. */
  lemma TakenInRows(before: Db, user: string, team: string, c: Category, id: string, b: string)
    requires NewDefault(before, user, team, c) && (id == c.id || Live(before, user, team, id))
    ensures var taken := ToAdd(before, user, team, BoardsInTeam(before, user, team));
            BoardIn(AfterDefault(before, user, team, c), id, b) <==>
              if id == c.id then b in taken else BoardIn(before, id, b)
  {
    var taken := ToAdd(before, user, team, BoardsInTeam(before, user, team));
    var after := AfterDefault(before, user, team, c);
    ToAddOnly(before, user, team, BoardsInTeam(before, user, team), b);
    if id == c.id {
      if b in taken {
        assert (user, b) in after.rows && InCategory(after, id, BoardMeta(b, after.rows[(user, b)].hidden));
      }
    } else {
      if h :| InCategory(before, id, BoardMeta(b, h)) {
        var k :| k in before.rows && k.1 == b && before.rows[k] == Row(id, h);
        assert after.rows[k] == before.rows[k];
        assert InCategory(after, id, BoardMeta(b, h));
      }
      if h :| InCategory(after, id, BoardMeta(b, h)) {
        var k :| k in after.rows && k.1 == b && after.rows[k] == Row(id, h);
        assert before.rows[k] == after.rows[k];
        assert InCategory(before, id, BoardMeta(b, h));
      }
    }
  }

  lemma {:induction false} ShownHas(boards: seq<string>, m: BoardMeta)
    ensures m in Shown(boards) <==> m.boardID in boards && !m.hidden
  {
    if boards == [] {
    } else {
      ShownHas(boards[1..], m);
    }
  }

  lemma ListsReflect(db: Db, user: string, team: string, cbs: seq<CategoryBoards>)
    requires Lists(db, user, team, cbs)
    ensures Reflects(db, user, team, cbs)
  {
    forall i | 0 <= i < |cbs| ensures EntryReflects(db, user, team, cbs[i]) {
      assert Listed(db, user, team, cbs[i]);
    }
  }

  lemma OldEntryReflects(before: Db, user: string, team: string, c: Category, cb: CategoryBoards)
    requires NewDefault(before, user, team, c) && Listed(before, user, team, cb)
    ensures EntryReflects(AfterDefault(before, user, team, c), user, team, cb)
    ensures cb.category.id != c.id
  {
    forall b ensures HasBoard(cb.boards, b) <==> BoardIn(AfterDefault(before, user, team, c), cb.category.id, b) {
      TakenInRows(before, user, team, c, cb.category.id, b);
    }
    WithCategoryLive(before, user, team, c, cb.category.id);
  }

  lemma NewEntryReflects(before: Db, user: string, team: string, c: Category)
    requires NewDefault(before, user, team, c)
    ensures EntryReflects(AfterDefault(before, user, team, c), user, team, DefaultEntry(before, user, team, c))
  {
    forall b
      ensures HasBoard(DefaultEntry(before, user, team, c).boards, b) <==>
                BoardIn(AfterDefault(before, user, team, c), c.id, b)
    {
      TakenInRows(before, user, team, c, c.id, b);
      ShownHas(ToAdd(before, user, team, BoardsInTeam(before, user, team)), BoardMeta(b, false));
      ShownHas(ToAdd(before, user, team, BoardsInTeam(before, user, team)), BoardMeta(b, true));
    }
  }

  lemma CreatedReflects(before: Db, after: Db, user: string, team: string, c: Category, olds: seq<CategoryBoards>)
    requires NewDefault(before, user, team, c) && Lists(before, user, team, olds)
    requires after == AfterDefault(before, user, team, c)
    ensures Reflects(after, user, team, olds + [DefaultEntry(before, user, team, c)])
  {
    var cbs := olds + [DefaultEntry(before, user, team, c)];
    NewEntryReflects(before, user, team, c);
    forall i | 0 <= i < |olds| ensures EntryReflects(after, user, team, cbs[i]) && cbs[i].category.id != c.id {
      assert Listed(before, user, team, olds[i]);
      OldEntryReflects(before, user, team, c, olds[i]);
    }
    forall id | Live(after, user, team, id) ensures HasEntry(cbs, id) {
      WithCategoryLive(before, user, team, c, id);
      if id == c.id {
        assert cbs[|olds|].category.id == id;
      } else {
        var i :| 0 <= i < |olds| && olds[i].category.id == id;
        assert cbs[i].category.id == id;
      }
    }
  }

  /** Whenever a call succeeds, the list it returns agrees with the tables it leaves, and there is a
      default category. */
  lemma GotReflects(before: Db, after: Db, user: string, team: string, c: Category, r: Result<seq<CategoryBoards>>)
    requires Got(before, after, user, team, c, r) && r.Ok?
    ensures Reflects(after, user, team, r.value)
    ensures HasDefault(after, user, team)
  {
    if HasDefault(before, user, team) {
      ListsReflect(before, user, team, r.value);
    } else {
      var n := |r.value| - 1;
      assert r.value == r.value[..n] + [DefaultEntry(before, user, team, c)];
      CreatedReflects(before, after, user, team, c, r.value[..n]);
      assert Live(after, user, team, c.id) && after.categories[c.id].name == BOARDS;
    }
  }

  lemma SourceAndDefault(db: Db, user: string, team: string, cbs: seq<CategoryBoards>, sourceID: string)
    requires Reflects(db, user, team, cbs) && HasDefault(db, user, team) && Live(db, user, team, sourceID)
    ensures HasEntry(cbs, sourceID)
    ensures exists i :: 0 <= i < |cbs| && cbs[i].category.name == BOARDS
    ensures forall i :: 0 <= i < |cbs| ==>
              && Live(db, user, team, cbs[i].category.id)
              && db.categories[cbs[i].category.id].name == cbs[i].category.name
  {
    var id :| Live(db, user, team, id) && db.categories[id].name == BOARDS;
    var i :| 0 <= i < |cbs| && cbs[i].category.id == id;
    forall j | 0 <= j < |cbs|
      ensures Live(db, user, team, cbs[j].category.id)
      ensures db.categories[cbs[j].category.id].name == cbs[j].category.name
    {
      assert EntryReflects(db, user, team, cbs[j]);
    }
  }

  lemma SourceBoards(db: Db, user: string, team: string, cbs: seq<CategoryBoards>, source: nat, boardIDs: seq<string>)
    requires Reflects(db, user, team, cbs) && source < |cbs|
    requires |boardIDs| == |cbs[source].boards| && forall j :: 0 <= j < |boardIDs| ==>
               boardIDs[j] == cbs[source].boards[j].boardID
    ensures forall b :: b in boardIDs <==> BoardIn(db, cbs[source].category.id, b)
  {
    var boards := cbs[source].boards;
    assert EntryReflects(db, user, team, cbs[source]);
    forall b ensures b in boardIDs <==> HasBoard(boards, b) {
      if b in boardIDs {
        var j :| 0 <= j < |boardIDs| && boardIDs[j] == b;
        assert boards[j] in boards && boards[j] == BoardMeta(b, boards[j].hidden);
      }
      if h :| BoardMeta(b, h) in boards {
        var j :| 0 <= j < |boards| && boards[j] == BoardMeta(b, h);
        assert boardIDs[j] == b;
      }
    }
  }

  /** The boards of the source category are written to the target, a default category. */
  ghost predicate Emptied(before: Db, mid: Db, after: Db, user: string, team: string, sourceID: string,
                          target: string, r: Result<()>) {
    && Keeps(before, mid, user, team)
    && (HasDefault(before, user, team) ==> mid == before)
    && (AllOwn(before) ==> AllOwn(mid))
    && (r.Err? ==> after == mid)
    && (r.Ok? ==>
          && Live(mid, user, team, target) && mid.categories[target].name == BOARDS
          && (sourceID in before.categories && before.categories[sourceID].name == BOARDS ==> target == sourceID)
          && Rehomed(mid, after, user, sourceID, target))
  }

  lemma RehomedBy(mid: Db, after: Db, user: string, sourceID: string, target: string, boardIDs: seq<string>)
    requires after == WithRows(mid, user, target, boardIDs) && forall b :: b in boardIDs <==> BoardIn(mid, sourceID, b)
    ensures Rehomed(mid, after, user, sourceID, target)
  {
  }

  ghost predicate Rehomed(mid: Db, after: Db, user: string, sourceID: string, target: string) {
    exists boardIDs :: after == WithRows(mid, user, target, boardIDs) &&
      forall b :: b in boardIDs <==> BoardIn(mid, sourceID, b)
  }

  ghost predicate DeletedCategory(before: Db, mid: Db, after: Db, id: string, user: string, team: string,
                                  target: string, r: Result<Category>) {
    if id !in before.categories then after == before && r == Err(NotFound)
    else
      var c := before.categories[id];
      if c.deleteAt != 0 then after == before && r == Ok(c)
      else if c.userID != user then after == before && r == Err(PermissionDenied)
      else if c.teamID != team then after == before && r == Err(WrongTeam)
      else if c.kind == System then after == before && r == Err(CannotDeleteSystem)
      else
        && (r.Err? ==> Emptied(before, mid, after, user, team, id, target, Err(r.error)))
        && (r.Ok? ==>
              && id in after.categories && r.value == after.categories[id] && r.value.deleteAt != 0
              && Emptied(before, mid, after.(categories := mid.categories), user, team, id, target, Ok(()))
              && id in mid.categories
              && after.categories == mid.categories[id := mid.categories[id].(deleteAt := r.value.deleteAt)])
  }

  /** When an update goes through. */
  predicate UpdateAllowed(db: Db, c: Category) {
    && !IsBlank(c.id) && !IsBlank(c.name) && !IsBlank(c.userID) && !IsBlank(c.teamID) && c.kind != Unknown
    && c.id in db.categories
    && var e := db.categories[c.id];
    && e.deleteAt == 0 && e.userID == c.userID && e.teamID == c.teamID
    && (e.kind == Custom || (e.kind == System && !IsBlank(e.name)))
  }

  /** The columns an update writes. */
  function WithUpdate(db: Db, c: Category): Db
    requires c.id in db.categories
  {
    db.(categories := db.categories[c.id := db.categories[c.id].(name := c.name, updateAt := c.updateAt,
      collapsed := c.collapsed)])
  }

  ghost predicate Updated(before: Db, after: Db, c: Category, now: int, r: Result<Category>) {
    && (r.Ok? <==> UpdateAllowed(before, c))
    && (r.Err? ==> after == before)
    && (r.Ok? ==>
          var e := before.categories[c.id];
          && after == before.(categories := before.categories[c.id :=
               e.(name := if e.kind == System then e.name else c.name, updateAt := now, collapsed := c.collapsed)])
          && r.value == after.categories[c.id])
  }

  // ----- the promises of the sidebar

  ghost predicate HeldLive(db: Db, user: string, team: string, id: string, b: string) {
    Live(db, user, team, id) && BoardIn(db, id, b)
  }

  /** Two live categories hold the board. */
  ghost predicate HeldTwice(db: Db, user: string, team: string, b: string) {
    exists x, y :: x != y && HeldLive(db, user, team, x, b) && HeldLive(db, user, team, y, b)
  }

  ghost predicate HasOwnRow(db: Db, user: string, team: string, b: string) {
    (user, b) in db.rows && Live(db, user, team, db.rows[(user, b)].categoryID)
  }

  lemma CategorisedHeld(db: Db, user: string, team: string, b: string)
    ensures Categorised(db, user, team, b) <==> exists id :: HeldLive(db, user, team, id, b)
  {
    if Categorised(db, user, team, b) {
      var id, h :| Live(db, user, team, id) && InCategory(db, id, BoardMeta(b, h));
      assert HeldLive(db, user, team, id, b);
    }
  }

  lemma OwnRowPlaced(before: Db, user: string, team: string, c: Category, b: string)
    requires NewDefault(before, user, team, c)
    requires b in BoardsInTeam(before, user, team) && (user, b) in before.synthetic && !before.synthetic[(user, b)]
    ensures HasOwnRow(AfterDefault(before, user, team, c), user, team, b) <==>
              HasOwnRow(before, user, team, b) || !Categorised(before, user, team, b)
  {
    var taken := ToAdd(before, user, team, BoardsInTeam(before, user, team));
    ToAddOnly(before, user, team, BoardsInTeam(before, user, team), b);
    assert (user, b) in Keys(user, taken) <==> b in taken;
    if (user, b) in before.rows {
      WithCategoryLive(before, user, team, c, before.rows[(user, b)].categoryID);
      if HasOwnRow(before, user, team, b) {
        assert InCategory(before, before.rows[(user, b)].categoryID, BoardMeta(b, before.rows[(user, b)].hidden));
      }
    }
  }

  /** The call that creates the default category leaves every board of the user in the team, implied
      memberships aside, in some live category; in exactly one exactly if at most one held it before,
      where the rows of all users count.  The board has a row of the user's own in a live category
      exactly if it had one, or if no live category held it. */
  lemma EveryBoardPlaced(before: Db, after: Db, user: string, team: string, c: Category,
                         r: Result<seq<CategoryBoards>>, b: string)
    requires Got(before, after, user, team, c, r) && r.Ok? && !HasDefault(before, user, team)
    requires b in BoardsInTeam(before, user, team) && !before.synthetic[(user, b)]
    ensures Categorised(after, user, team, b)
    ensures HeldTwice(after, user, team, b) <==> HeldTwice(before, user, team, b)
    ensures HasOwnRow(after, user, team, b) <==>
              HasOwnRow(before, user, team, b) || !Categorised(before, user, team, b)
  {
    forall id ensures HeldLive(after, user, team, id, b) <==>
                        HeldLive(before, user, team, id, b) || (id == c.id && !Categorised(before, user, team, b))
    {
      ToAddOnly(before, user, team, BoardsInTeam(before, user, team), b);
      WithCategoryLive(before, user, team, c, id);
      if id == c.id || Live(before, user, team, id) {
        TakenInRows(before, user, team, c, id, b);
      }
    }
    CategorisedHeld(before, user, team, b);
    CategorisedHeld(after, user, team, b);
    OwnRowPlaced(before, user, team, c, b);
    if Categorised(before, user, team, b) {
      var id :| HeldLive(before, user, team, id, b);
      assert HeldLive(after, user, team, id, b);
    } else {
      assert HeldLive(after, user, team, c.id, b);
    }
  }

  /** Two custom categories of one user, who has no default one; the user's row has the board in one, and
      another user's row in the other. */
  function TwoHolders(): Db {
    Db(map["x" := Plain("x", "X", "a", Custom), "y" := Plain("y", "Y", "a", Custom)],
       map[("a", "b") := Row("y", false), ("o", "b") := Row("x", false)],
       map[("a", "b") := false], map[("a", "t") := ["b"]])
  }

  lemma TwoHoldersAre()
    ensures !HasDefault(TwoHolders(), "a", "t")
    ensures BoardsInTeam(TwoHolders(), "a", "t") == ["b"]
    ensures CanList(TwoHolders(), "a", "t") == Ok(())
  {
    assert "X"[0] != BOARDS[0] && "Y"[0] != BOARDS[0];
    NotBlank("a");
    NotBlank("t");
  }

  /** There the creating call leaves the board in two categories. */
  lemma PlacedTwice(after: Db, c: Category, r: Result<seq<CategoryBoards>>)
    requires Got(TwoHolders(), after, "a", "t", c, r)
    ensures r.Ok? && HeldTwice(after, "a", "t", "b")
  {
    var before := TwoHolders();
    TwoHoldersAre();
    GotIff(before, after, "a", "t", c, r);
    assert InCategory(before, "y", BoardMeta("b", before.rows[("a", "b")].hidden));
    assert InCategory(before, "x", BoardMeta("b", before.rows[("o", "b")].hidden));
    assert HeldLive(before, "a", "t", "x", "b") && HeldLive(before, "a", "t", "y", "b");
    assert ["b"][0] == "b";
    EveryBoardPlaced(before, after, "a", "t", c, r, "b");
  }

  /** A call right after a successful one creates nothing, and returns the same categories with the
      same boards. */
  lemma SecondCallSame(before: Db, mid: Db, after: Db, user: string, team: string,
                       c: Category, r: Result<seq<CategoryBoards>>, d: Category, q: Result<seq<CategoryBoards>>)
    requires Got(before, mid, user, team, c, r) && r.Ok? && Got(mid, after, user, team, d, q)
    ensures after == mid && q.Ok?
    ensures forall id :: HasEntry(r.value, id) <==> HasEntry(q.value, id)
    ensures forall i, j, b ::
              0 <= i < |r.value| && 0 <= j < |q.value| && r.value[i].category.id == q.value[j].category.id ==>
              (HasBoard(r.value[i].boards, b) <==> HasBoard(q.value[j].boards, b))
  {
    GotReflects(before, mid, user, team, c, r);
    GotReflects(mid, after, user, team, d, q);
    forall id ensures HasEntry(r.value, id) <==> Live(mid, user, team, id) {
      if HasEntry(r.value, id) {
        var i :| 0 <= i < |r.value| && r.value[i].category.id == id;
        assert EntryReflects(mid, user, team, r.value[i]);
      }
    }
    forall id ensures HasEntry(q.value, id) <==> Live(mid, user, team, id) {
      if HasEntry(q.value, id) {
        var i :| 0 <= i < |q.value| && q.value[i].category.id == id;
        assert EntryReflects(mid, user, team, q.value[i]);
      }
    }
    forall i, j, b | 0 <= i < |r.value| && 0 <= j < |q.value| && r.value[i].category.id == q.value[j].category.id
      ensures HasBoard(r.value[i].boards, b) <==> HasBoard(q.value[j].boards, b)
    {
      assert EntryReflects(mid, user, team, r.value[i]) && EntryReflects(mid, user, team, q.value[j]);
    }
  }

  /** The creating call shows every board it took in as visible.  The tables, and so the next call,
      agree exactly if none of those boards had a row, in a deleted category or another team, that
      hides it. */
  lemma ShownVisibleIff(before: Db, user: string, team: string, c: Category)
    requires NewDefault(before, user, team, c)
    ensures Holds(AfterDefault(before, user, team, c), c.id, DefaultEntry(before, user, team, c).boards)
            <==> forall b :: b in ToAdd(before, user, team, BoardsInTeam(before, user, team)) ==>
                   !((user, b) in before.rows && before.rows[(user, b)].hidden)
  {
    var taken := ToAdd(before, user, team, BoardsInTeam(before, user, team));
    var after, shown := AfterDefault(before, user, team, c), Shown(taken);
    forall m
      ensures InCategory(after, c.id, m) <==> m.boardID in taken && after.rows[(user, m.boardID)].hidden == m.hidden
    {
      if InCategory(after, c.id, m) {
        var k :| k in after.rows && k.1 == m.boardID && after.rows[k] == Row(c.id, m.hidden);
        assert k in Keys(user, taken);
      }
      if m.boardID in taken {
        assert (user, m.boardID) in Keys(user, taken);
      }
    }
    forall m ensures m in shown <==> m.boardID in taken && !m.hidden {
      ShownHas(taken, m);
    }
    forall b | b in taken
      ensures after.rows[(user, b)].hidden == ((user, b) in before.rows && before.rows[(user, b)].hidden)
    {
      assert (user, b) in Keys(user, taken);
    }
    if Holds(after, c.id, shown) {
      forall b | b in taken ensures !after.rows[(user, b)].hidden {
        assert InCategory(after, c.id, BoardMeta(b, after.rows[(user, b)].hidden));
        assert BoardMeta(b, after.rows[(user, b)].hidden) in shown;
      }
    }
  }

  /** What was live before holds the same boards in between. */
  lemma HeldInBetween(before: Db, mid: Db, user: string, team: string, id: string, b: string)
    requires Keeps(before, mid, user, team) && Live(before, user, team, id)
    ensures BoardIn(mid, id, b) <==> BoardIn(before, id, b)
  {
    if h :| InCategory(before, id, BoardMeta(b, h)) {
      var k :| k in before.rows && k.1 == b && before.rows[k] == Row(id, h);
      assert mid.rows[k] == before.rows[k] && InCategory(mid, id, BoardMeta(b, h));
    }
    if h :| InCategory(mid, id, BoardMeta(b, h)) {
      var k :| k in mid.rows && k.1 == b && mid.rows[k] == Row(id, h);
      assert before.rows[k] == mid.rows[k] && InCategory(before, id, BoardMeta(b, h));
    }
  }

  lemma RehomedRow(mid: Db, after: Db, user: string, id: string, target: string, k: Key)
    requires Rehomed(mid, after, user, id, target)
    ensures k.0 != user ==> (k in after.rows <==> k in mid.rows) && (k in mid.rows ==> after.rows[k] == mid.rows[k])
    ensures k.0 == user && BoardIn(mid, id, k.1) ==>
              k in after.rows && after.rows[k] == Row(target, k in mid.rows && mid.rows[k].hidden)
    ensures k.0 == user && !BoardIn(mid, id, k.1) && k in mid.rows ==> k in after.rows && after.rows[k] == mid.rows[k]
  {
    var boardIDs :| after == WithRows(mid, user, target, boardIDs) &&
      forall b :: b in boardIDs <==> BoardIn(mid, id, b);
    assert k in Keys(user, boardIDs) <==> k.0 == user && k.1 in boardIDs;
  }

  /** Some other user's row puts the board in the category. */
  ghost predicate ForeignRow(db: Db, user: string, id: string, b: string) {
    exists k: Key :: k in db.rows && k.0 != user && k.1 == b && db.rows[k].categoryID == id
  }

  lemma HeldByRowIff(db: Db, user: string, id: string, b: string)
    ensures BoardIn(db, id, b) <==>
              ((user, b) in db.rows && db.rows[(user, b)].categoryID == id) || ForeignRow(db, user, id, b)
  {
    if k: Key :| k in db.rows && k.1 == b && db.rows[k].categoryID == id {
      assert InCategory(db, id, BoardMeta(b, db.rows[k].hidden));
    }
    if h :| InCategory(db, id, BoardMeta(b, h)) {
      var k: Key :| k in db.rows && k.1 == b && db.rows[k] == Row(id, h);
      assert k == (user, b) || k.0 != user;
    }
  }

  /** What deleting a category does to the row of a board: the user's own row goes to the target exactly
      if the category held the board, by anyone's row; so a row elsewhere stays exactly if it is at the
      target already, or no other user's row puts its board in the category.  Other users' rows stay. */
  lemma DeleteMovesIff(before: Db, mid: Db, after: Db, id: string, user: string, team: string, target: string,
                       r: Result<Category>, k: Key)
    requires DeletedCategory(before, mid, after, id, user, team, target, r) && r.Ok? && Live(before, user, team, id)
    requires k in before.rows && Live(before, user, team, before.rows[k].categoryID)
    ensures k in after.rows
    ensures after.rows[k].hidden == before.rows[k].hidden
    ensures k.0 != user ==> after.rows[k] == before.rows[k]
    ensures k.0 == user ==>
              after.rows[k].categoryID == if BoardIn(before, id, k.1) then target else before.rows[k].categoryID
    ensures k.0 == user && before.rows[k].categoryID != id ==>
              (after.rows[k] == before.rows[k] <==>
                before.rows[k].categoryID == target || !ForeignRow(before, user, id, k.1))
  {
    HeldInBetween(before, mid, user, team, id, k.1);
    HeldByRowIff(before, user, id, k.1);
    RehomedRow(mid, after.(categories := mid.categories), user, id, target, k);
  }

  /** The target is a live default category afterwards, unless it is the deleted one. */
  lemma TargetLiveIff(before: Db, mid: Db, after: Db, id: string, user: string, team: string, target: string,
                      r: Result<Category>)
    requires DeletedCategory(before, mid, after, id, user, team, target, r) && r.Ok? && Live(before, user, team, id)
    ensures Live(after, user, team, target) <==> before.categories[id].name != BOARDS
    ensures target in after.categories
    ensures after.categories[target].name == BOARDS
    ensures forall x :: Live(after, user, team, x) <==> x != id && Live(mid, user, team, x)
    ensures forall x :: Live(before, user, team, x) ==> Live(mid, user, team, x)
  {
    assert SameButOrder(before.categories[id], mid.categories[id]);
    forall x | Live(before, user, team, x) ensures Live(mid, user, team, x) {
      assert SameButOrder(before.categories[x], mid.categories[x]);
    }
  }

  /** Another user's row holds the board in a live category other than the given one. */
  ghost predicate HeldElsewhere(db: Db, user: string, team: string, id: string, b: string) {
    exists k: Key :: k in db.rows && k.0 != user && k.1 == b && db.rows[k].categoryID != id
      && Live(db, user, team, db.rows[k].categoryID)
  }

  /** Deleting a category keeps a board that was in a live category in one, exactly if the category is
      not itself named like the default one, or did not hold the board, or another user's row holds it
      in another of the user's categories. */
  lemma DeleteConserves(before: Db, mid: Db, after: Db, id: string, user: string, team: string, target: string,
                        r: Result<Category>, b: string)
    requires DeletedCategory(before, mid, after, id, user, team, target, r) && r.Ok? && Live(before, user, team, id)
    requires Categorised(before, user, team, b)
    ensures Categorised(after, user, team, b) <==>
              before.categories[id].name != BOARDS || !BoardIn(before, id, b) ||
                HeldElsewhere(before, user, team, id, b)
  {
    var rows := after.(categories := mid.categories);
    TargetLiveIff(before, mid, after, id, user, team, target, r);
    HeldInBetween(before, mid, user, team, id, b);
    if BoardIn(before, id, b) && before.categories[id].name != BOARDS {
      RehomedRow(mid, rows, user, id, target, (user, b));
      assert InCategory(after, target, BoardMeta(b, after.rows[(user, b)].hidden));
    } else if !BoardIn(before, id, b) {
      var x, h :| Live(before, user, team, x) && InCategory(before, x, BoardMeta(b, h));
      var k: Key :| k in before.rows && k.1 == b && before.rows[k] == Row(x, h);
      assert x != id by { assert BoardIn(before, x, b); }
      DeleteMovesIff(before, mid, after, id, user, team, target, r, k);
      assert InCategory(after, x, BoardMeta(b, h));
    } else {
      DefaultDeleted(before, mid, after, id, user, team, target, r, b);
    }
  }

  /** Deleting a category named like the default one: its boards go with it, except those another
      user's row holds elsewhere. */
  lemma DefaultDeleted(before: Db, mid: Db, after: Db, id: string, user: string, team: string, target: string,
                       r: Result<Category>, b: string)
    requires DeletedCategory(before, mid, after, id, user, team, target, r) && r.Ok? && Live(before, user, team, id)
    requires before.categories[id].name == BOARDS && BoardIn(before, id, b)
    ensures Categorised(after, user, team, b) <==> HeldElsewhere(before, user, team, id, b)
  {
    var rows := after.(categories := mid.categories);
    assert HasDefault(before, user, team) && mid == before && target == id;
    TargetLiveIff(before, mid, after, id, user, team, target, r);
    RehomedRow(mid, rows, user, id, target, (user, b));
    if Categorised(after, user, team, b) {
      var x, h :| Live(after, user, team, x) && InCategory(after, x, BoardMeta(b, h));
      var k: Key :| k in after.rows && k.1 == b && after.rows[k] == Row(x, h);
      assert k.0 != user;
      RehomedRow(mid, rows, user, id, target, k);
    }
    if HeldElsewhere(before, user, team, id, b) {
      var k: Key :| k in before.rows && k.0 != user && k.1 == b && before.rows[k].categoryID != id
        && Live(before, user, team, before.rows[k].categoryID);
      RehomedRow(mid, rows, user, id, target, k);
      assert InCategory(after, before.rows[k].categoryID, BoardMeta(b, before.rows[k].hidden));
    }
  }

  // ----- system categories

  datatype Request =
    | Create(category: Category)
    | Update(category: Category)
    | Delete(id: string, user: string, team: string)
    | Get(user: string, team: string)
    | Add(user: string, team: string, id: string, boardIDs: seq<string>)

  /** The category ID a client names in a request that stores it. */
  function ClientID(q: Request): string {
    match q
    case Create(c) => c.id
    case Update(c) => c.id
    case Add(_, _, id, _) => id
    case _ => ""
  }

  /** The ID a client names has been seen before; a new category may come without one. */
  predicate Seen(q: Request, used: set<string>) {
    ClientID(q) in used || (ClientID(q) == "" && !q.Add?)
  }

  /** `d` is stored as the category of a request, under an ID of its own unless the client named one. */
  ghost predicate Created(before: Db, after: Db, c: Category, now: int, d: Category) {
    && d == Hydrated(c, d.id, now) && d.id !in before.categories && after == WithCategory(before, d)
    && (if c.id != "" then d.id == c.id else forall k :: k in before.rows ==> before.rows[k].categoryID != d.id)
  }

  /** What a request may do to the tables. */
  ghost predicate Effect(before: Db, after: Db, q: Request, now: int) {
    match q
    case Create(c) => after == before || exists d :: Created(before, after, c, now, d)
    case Update(c) => exists r :: Updated(before, after, c, now, r)
    case Delete(id, user, team) =>
      && OnlyTouches(before, after, user, team)
      && exists mid, target, r :: DeletedCategory(before, mid, after, id, user, team, target, r)
    case Get(user, team) => exists c, r :: Got(before, after, user, team, c, r)
    case Add(user, team, id, boardIDs) => exists c, got, r :: Added(before, after, user, team, id, boardIDs, c, got, r)
  }

  /** A run of requests, each at its own time. */
  ghost predicate Traces(trace: seq<Db>, requests: seq<Request>, times: seq<int>) {
    && |trace| == |requests| + 1 && |times| == |requests|
    && forall i :: 0 <= i < |requests| ==> Effect(trace[i], trace[i + 1], requests[i], times[i])
  }

  lemma TracePush(trace: seq<Db>, requests: seq<Request>, times: seq<int>, after: Db, q: Request, now: int)
    requires Traces(trace, requests, times) && Effect(trace[|requests|], after, q, now)
    ensures Traces(trace + [after], requests + [q], times + [now])
  {
  }

  /** All category IDs in the tables. */
  function TableIDs(db: Db): set<string> {
    db.categories.Keys + set k | k in db.rows :: db.rows[k].categoryID
  }

  /** A client that asks for the given requests in turn, as far as the IDs they name have been seen. */
  function Script(requests: seq<Request>, known: set<string>): (nat, Db) -> Request {
    (i: nat, d: Db) =>
      if i < |requests| && Seen(requests[i], known + TableIDs(d)) then requests[i] else Get("", "")
  }

  /** Any requests, each naming only IDs that have been seen by then, are those of some client that names
      only such IDs. */
  lemma ScriptAsks(requests: seq<Request>, known: set<string>, trace: seq<Db>)
    requires |trace| == |requests| + 1
    requires forall i :: 0 <= i < |requests| ==> Seen(requests[i], known + TableIDs(trace[i]))
    ensures forall i: nat, d :: Seen(Script(requests, known)(i, d), known + TableIDs(d))
    ensures forall i :: 0 <= i < |requests| ==> Script(requests, known)(i, trace[i]) == requests[i]
  {
  }

  /** Only the user's own rows change, and only the user's own categories in the team; categories keep their owner,
      team and type, and none is removed. */
  ghost predicate OnlyTouches(before: Db, after: Db, user: string, team: string) {
    && after.synthetic == before.synthetic && after.teamBoards == before.teamBoards
    && (forall id :: id in before.categories ==>
          id in after.categories && TouchedBy(before.categories[id], after.categories[id], user, team))
    && (forall id :: id in after.categories && id !in before.categories ==>
          after.categories[id].userID == user && after.categories[id].teamID == team)
    && (forall k: Key :: k.0 != user && (k in before.rows || k in after.rows) ==>
          k in before.rows && k in after.rows && after.rows[k] == before.rows[k])
  }

  predicate TouchedBy(a: Category, b: Category, user: string, team: string) {
    && b.id == a.id && b.userID == a.userID && b.teamID == a.teamID && b.kind == a.kind && b.createAt == a.createAt
    && (a.userID != user || a.teamID != team ==> b == a)
  }

  lemma RowsTouch(db: Db, user: string, team: string, id: string, boardIDs: seq<string>)
    ensures OnlyTouches(db, WithRows(db, user, id, boardIDs), user, team)
  {
  }

  function WithDeleted(db: Db, id: string, now: int): Db
    requires id in db.categories
  {
    db.(categories := db.categories[id := db.categories[id].(deleteAt := now)])
  }

  lemma DeletingTouches(db: Db, id: string, now: int, user: string, team: string)
    requires id in db.categories && db.categories[id].userID == user && db.categories[id].teamID == team
    ensures OnlyTouches(db, WithDeleted(db, id, now), user, team)
  {
  }

  lemma CategoryTouches(db: Db, c: Category)
    requires c.id !in db.categories
    ensures OnlyTouches(db, WithCategory(db, c), c.userID, c.teamID)
  {
  }

  lemma TouchesOn(before: Db, mid: Db, after: Db, user: string, team: string)
    requires OnlyTouches(before, mid, user, team) && OnlyTouches(mid, after, user, team)
    ensures OnlyTouches(before, after, user, team)
  {
    forall id | id in before.categories
      ensures id in after.categories && TouchedBy(before.categories[id], after.categories[id], user, team)
    {
      assert TouchedBy(before.categories[id], mid.categories[id], user, team);
    }
  }

  lemma GotTouches(before: Db, after: Db, user: string, team: string, c: Category, r: Result<seq<CategoryBoards>>)
    requires Got(before, after, user, team, c, r)
    ensures OnlyTouches(before, after, user, team)
  {
    if !HasDefault(before, user, team) && !IsBlank(user) && !IsBlank(team) {
      var mid, taken := WithCategory(before, c), ToAdd(before, user, team, BoardsInTeam(before, user, team));
      CategoryTouches(before, c);
      RowsTouch(mid, user, team, c.id, taken);
      TouchesOn(before, mid, WithRows(mid, user, c.id, taken), user, team);
    }
  }

  function Asker(q: Request): string {
    if q.Create? || q.Update? then q.category.userID else q.user
  }

  function AskedTeam(q: Request): string {
    if q.Create? || q.Update? then q.category.teamID else q.team
  }

  /** A request touches only what is its user's. */
  lemma EffectTouches(before: Db, after: Db, q: Request, now: int)
    requires Effect(before, after, q, now)
    ensures OnlyTouches(before, after, Asker(q), AskedTeam(q))
  {
    match q
    case Create(c) =>
      if d :| Created(before, after, c, now, d) {
        CategoryTouches(before, d);
      }
    case Update(_) =>
    case Delete(_, _, _) =>
    case Get(user, team) =>
      var c, r :| Got(before, after, user, team, c, r);
      GotTouches(before, after, user, team, c, r);
    case Add(user, team, id, boardIDs) =>
      var c, got, r :| Added(before, after, user, team, id, boardIDs, c, got, r);
      if boardIDs != [] {
        RowsTouch(before, user, team, id, boardIDs);
        GotTouches(WithRows(before, user, id, boardIDs), after, user, team, c, got);
        TouchesOn(before, WithRows(before, user, id, boardIDs), after, user, team);
      }
  }

  /** While only others ask, a user's categories and rows stay as they are. */
  lemma {:induction false} TraceLeaves(trace: seq<Db>, requests: seq<Request>, times: seq<int>, n: nat, user: string)
    requires Traces(trace, requests, times) && n <= |requests|
    requires forall i :: 0 <= i < n ==> Asker(requests[i]) != user
    ensures forall id :: id in trace[0].categories && trace[0].categories[id].userID == user ==>
              id in trace[n].categories && trace[n].categories[id] == trace[0].categories[id]
    ensures forall k: Key :: k in trace[0].rows && k.0 == user ==>
              k in trace[n].rows && trace[n].rows[k] == trace[0].rows[k]
  {
    if n == 0 {
    } else {
      TraceLeaves(trace, requests, times, n - 1, user);
      EffectTouches(trace[n - 1], trace[n], requests[n - 1], times[n - 1]);
    }
  }

  /** Every system category is still there, live or not as before, under its name and its owner. */
  ghost predicate SystemKept(before: Db, after: Db) {
    forall id :: id in before.categories && before.categories[id].kind == System ==>
      id in after.categories && SameSystem(before.categories[id], after.categories[id])
  }

  predicate SameSystem(a: Category, b: Category) {
    a.name == b.name && a.kind == b.kind && a.deleteAt == b.deleteAt && a.userID == b.userID && a.teamID == b.teamID
  }

  lemma GotKeepsSystem(before: Db, after: Db, user: string, team: string, c: Category, r: Result<seq<CategoryBoards>>)
    requires Got(before, after, user, team, c, r)
    ensures SystemKept(before, after)
  {
    GotKeeps(before, after, user, team, c, r);
  }

  lemma EffectKeepsSystem(before: Db, after: Db, q: Request, now: int)
    requires Effect(before, after, q, now)
    ensures SystemKept(before, after)
  {
    match q
    case Create(_) =>
    case Update(_) =>
    case Delete(id, user, team) =>
      var mid, target, r :| DeletedCategory(before, mid, after, id, user, team, target, r);
    case Get(user, team) =>
      var c, r :| Got(before, after, user, team, c, r);
      GotKeepsSystem(before, after, user, team, c, r);
    case Add(user, team, id, boardIDs) =>
      var c, got, r :| Added(before, after, user, team, id, boardIDs, c, got, r);
      if boardIDs != [] {
        GotKeepsSystem(WithRows(before, user, id, boardIDs), after, user, team, c, got);
      }
  }

  /** No run of requests removes, renames or reassigns a system category. */
  lemma {:induction false} TraceKeepsSystem(trace: seq<Db>, requests: seq<Request>, times: seq<int>, n: nat)
    requires Traces(trace, requests, times) && n <= |requests|
    ensures SystemKept(trace[0], trace[n])
  {
    if n == 0 {
    } else {
      TraceKeepsSystem(trace, requests, times, n - 1);
      EffectKeepsSystem(trace[n - 1], trace[n], requests[n - 1], times[n - 1]);
    }
  }

  // ----- rows in other users' categories

  /** The category is a live one of somebody else. */
  predicate Foreign(db: Db, user: string, id: string) {
    id in db.categories && db.categories[id].deleteAt == 0 && db.categories[id].userID != user
  }

  /** No row puts a user's board in another user's live category. */
  ghost predicate AllOwn(db: Db) {
    forall k :: k in db.rows ==> !Foreign(db, k.0, db.rows[k].categoryID)
  }

  /** A default category made on the way of an addition takes the board in. */
  ghost predicate TakenAfter(before: Db, user: string, team: string, id: string, boardIDs: seq<string>, b: string) {
    var mid := WithRows(before, user, id, boardIDs);
    && !HasDefault(before, user, team) && CanList(before, user, team).Ok?
    && b in BoardsInTeam(before, user, team) && TakenIn(mid, user, team, b)
  }

  lemma AddedRow(before: Db, after: Db, user: string, team: string, id: string, boardIDs: seq<string>,
                 c: Category, got: Result<seq<CategoryBoards>>, b: string)
    requires Got(WithRows(before, user, id, boardIDs), after, user, team, c, got) && b in boardIDs
    ensures (user, b) in after.rows
    ensures after.rows[(user, b)].categoryID ==
              if TakenAfter(before, user, team, id, boardIDs, b) then c.id else id
  {
    var mid := WithRows(before, user, id, boardIDs);
    var taken := ToAdd(mid, user, team, BoardsInTeam(mid, user, team));
    RowsCanList(before, user, id, boardIDs, user, team);
    assert (user, b) in Keys(user, boardIDs);
    ToAddOnly(mid, user, team, BoardsInTeam(mid, user, team), b);
    assert b in taken <==> (user, b) in Keys(user, taken);
  }

  lemma RowsCanList(db: Db, owner: string, id: string, boardIDs: seq<string>, user: string, team: string)
    ensures var mid := WithRows(db, owner, id, boardIDs);
            && (HasDefault(mid, user, team) <==> HasDefault(db, user, team))
            && CanList(mid, user, team) == CanList(db, user, team)
  {
    var mid := WithRows(db, owner, id, boardIDs);
    assert forall x :: Live(mid, user, team, x) <==> Live(db, user, team, x);
  }

  lemma StoredListedIff(db: Db, user: string, team: string, cbs: seq<CategoryBoards>, n: nat, id: string)
    requires n <= |cbs| && Lists(db, user, team, cbs[..n])
    requires n == |cbs| || (n == |cbs| - 1 && cbs[n].category.id != id)
    ensures HasEntry(cbs, id) <==> Live(db, user, team, id)
  {
    if HasEntry(cbs, id) {
      var i :| 0 <= i < |cbs| && cbs[i].category.id == id;
      assert Listed(db, user, team, cbs[..n][i]);
    }
    if Live(db, user, team, id) {
      var i :| 0 <= i < n && cbs[..n][i].category.id == id;
      assert cbs[i].category.id == id;
    }
  }

  /** An old category, or one that some row names, is in the list exactly if it was live before. */
  lemma ListedIff(before: Db, after: Db, user: string, team: string, c: Category, got: Result<seq<CategoryBoards>>,
                  id: string)
    requires Got(before, after, user, team, c, got) && got.Ok?
    requires id in before.categories || exists k :: RowIn(before, id, k)
    ensures HasEntry(got.value, id) <==> Live(before, user, team, id)
  {
    var n := if HasDefault(before, user, team) then |got.value| else |got.value| - 1;
    assert got.value[..|got.value|] == got.value;
    StoredListedIff(before, user, team, got.value, n, id);
  }

  /** An addition stores its rows whether it is refused or not; only a default category made on the way
      takes boards over. */
  lemma AddStoresAnyway(before: Db, after: Db, user: string, team: string, id: string, boardIDs: seq<string>,
                        c: Category, got: Result<seq<CategoryBoards>>, r: Result<()>)
    requires Added(before, after, user, team, id, boardIDs, c, got, r) && boardIDs != []
    ensures forall b :: b in boardIDs ==>
              && (user, b) in after.rows
              && after.rows[(user, b)].categoryID ==
                   if TakenAfter(before, user, team, id, boardIDs, b) then c.id else id
    ensures HasDefault(before, user, team) ==> after == WithRows(before, user, id, boardIDs)
    ensures r == match CanList(before, user, team)
                 case Err(e) => Err(e)
                 case Ok(_) => if Live(before, user, team, id) then Ok(()) else Err(CategoryNotFound)
  {
    var mid := WithRows(before, user, id, boardIDs);
    RowsCanList(before, user, id, boardIDs, user, team);
    GotIff(mid, after, user, team, c, got);
    forall b | b in boardIDs {
      AddedRow(before, after, user, team, id, boardIDs, c, got, b);
    }
    if got.Ok? {
      assert boardIDs[0] in boardIDs && (user, boardIDs[0]) in Keys(user, boardIDs);
      assert RowIn(mid, id, (user, boardIDs[0]));
      ListedIff(mid, after, user, team, c, got, id);
      assert Live(mid, user, team, id) <==> Live(before, user, team, id);
    }
  }

  /** The user has no default category yet, and the one made on the way takes in all of the boards. */
  ghost predicate TakenAfterAll(db: Db, user: string, team: string, boardIDs: seq<string>) {
    && !HasDefault(db, user, team) && !IsBlank(user) && !IsBlank(team)
    && AllMembers(db, user, BoardsInTeam(db, user, team))
    && forall b :: b in boardIDs ==> b in BoardsInTeam(db, user, team) && !db.synthetic[(user, b)]
  }

  lemma GotKeepsOwn(before: Db, after: Db, user: string, team: string, c: Category, r: Result<seq<CategoryBoards>>)
    requires Got(before, after, user, team, c, r) && AllOwn(before)
    ensures AllOwn(after)
  {
    forall k | k in after.rows ensures !Foreign(after, k.0, after.rows[k].categoryID) {
    }
  }

  lemma CreateKeepsOwnIff(before: Db, d: Category)
    requires AllOwn(before) && d.id !in before.categories
    ensures AllOwn(WithCategory(before, d)) <==>
              d.deleteAt != 0 || forall k :: k in before.rows && before.rows[k].categoryID == d.id ==> k.0 == d.userID
  {
    var after := WithCategory(before, d);
    forall k | k in before.rows
      ensures Foreign(after, k.0, before.rows[k].categoryID) <==>
                before.rows[k].categoryID == d.id && d.deleteAt == 0 && k.0 != d.userID
    {
      assert !Foreign(before, k.0, before.rows[k].categoryID);
    }
  }

  lemma UpdateKeepsOwn(before: Db, after: Db, c: Category, now: int, r: Result<Category>)
    requires AllOwn(before) && Updated(before, after, c, now, r)
    ensures AllOwn(after)
  {
    forall k | k in after.rows ensures !Foreign(after, k.0, after.rows[k].categoryID) {
      assert !Foreign(before, k.0, before.rows[k].categoryID);
    }
  }

  lemma RowsKeepOwn(db: Db, user: string, id: string, boardIDs: seq<string>)
    requires AllOwn(db) && !Foreign(db, user, id)
    ensures AllOwn(WithRows(db, user, id, boardIDs))
  {
    var after := WithRows(db, user, id, boardIDs);
    forall k | k in after.rows ensures !Foreign(after, k.0, after.rows[k].categoryID) {
      assert k in Keys(user, boardIDs) || !Foreign(db, k.0, db.rows[k].categoryID);
    }
  }

  lemma DeleteKeepsOwn(before: Db, mid: Db, after: Db, id: string, user: string, team: string, target: string,
                       r: Result<Category>)
    requires DeletedCategory(before, mid, after, id, user, team, target, r) && AllOwn(before)
    ensures AllOwn(after)
  {
    if after != before && r.Ok? {
      var rows := after.(categories := mid.categories);
      var boardIDs :| rows == WithRows(mid, user, target, boardIDs) &&
        forall b :: b in boardIDs <==> BoardIn(mid, id, b);
      RowsKeepOwn(mid, user, target, boardIDs);
      forall k | k in after.rows ensures !Foreign(after, k.0, after.rows[k].categoryID) {
        assert !Foreign(rows, k.0, rows.rows[k].categoryID);
      }
    }
  }

  /** An addition keeps all boards in their users' own categories exactly if the category named is not
      somebody else's, or the user had no default category and the new one takes the boards in. */
  lemma AddKeepsOwnIff(before: Db, after: Db, user: string, team: string, id: string, boardIDs: seq<string>,
                       c: Category, got: Result<seq<CategoryBoards>>, r: Result<()>)
    requires Added(before, after, user, team, id, boardIDs, c, got, r) && AllOwn(before) && boardIDs != []
    ensures AllOwn(after) <==> !Foreign(before, user, id) || TakenAfterAll(before, user, team, boardIDs)
  {
    var mid := WithRows(before, user, id, boardIDs);
    RowsKeepDefault(before, user, team, id, boardIDs);
    if !Foreign(before, user, id) {
      assert AllOwn(mid);
      GotKeepsOwn(mid, after, user, team, c, got);
    } else {
      ForeignAdd(before, after, user, team, id, boardIDs, c, got);
    }
  }

  /** After an addition to somebody else's category, the boards that stay there are those no new
      default category takes in. */
  lemma ForeignAdd(before: Db, after: Db, user: string, team: string, id: string, boardIDs: seq<string>,
                   c: Category, got: Result<seq<CategoryBoards>>)
    requires Got(WithRows(before, user, id, boardIDs), after, user, team, c, got)
    requires AllOwn(before) && Foreign(before, user, id) && boardIDs != []
    ensures AllOwn(after) <==> TakenAfterAll(before, user, team, boardIDs)
  {
    var mid := WithRows(before, user, id, boardIDs);
    RowsKeepDefault(before, user, team, id, boardIDs);
    if HasDefault(mid, user, team) || IsBlank(user) || IsBlank(team) ||
       !AllMembers(mid, user, BoardsInTeam(mid, user, team)) {
      ForeignStays(before, after, user, id, boardIDs);
    } else {
      var taken := ToAdd(mid, user, team, BoardsInTeam(mid, user, team));
      ForeignAddTaken(before, after, user, team, id, boardIDs, c, taken);
      TakenAfterAllIff(before, user, team, id, boardIDs);
    }
  }

  lemma ForeignStays(before: Db, after: Db, user: string, id: string, boardIDs: seq<string>)
    requires Foreign(after, user, id) && boardIDs != [] && after.rows == WithRows(before, user, id, boardIDs).rows
    ensures !AllOwn(after)
  {
    assert boardIDs[0] in boardIDs;
    assert (user, boardIDs[0]) in Keys(user, boardIDs);
    assert Foreign(after, user, after.rows[(user, boardIDs[0])].categoryID);
  }

  lemma TakenAfterAllIff(before: Db, user: string, team: string, id: string, boardIDs: seq<string>)
    requires AllOwn(before) && Foreign(before, user, id) && !HasDefault(before, user, team)
    requires !IsBlank(user) && !IsBlank(team) && AllMembers(before, user, BoardsInTeam(before, user, team))
    ensures var mid := WithRows(before, user, id, boardIDs);
            (forall b :: b in boardIDs ==> b in ToAdd(mid, user, team, BoardsInTeam(mid, user, team)))
            <==> TakenAfterAll(before, user, team, boardIDs)
  {
    var mid := WithRows(before, user, id, boardIDs);
    forall b | b in boardIDs
      ensures b in ToAdd(mid, user, team, BoardsInTeam(mid, user, team)) <==>
                b in BoardsInTeam(before, user, team) && !before.synthetic[(user, b)]
    {
      ToAddOnly(mid, user, team, BoardsInTeam(mid, user, team), b);
      NotCategorisedAbroad(before, user, team, id, boardIDs, b);
    }
  }

  lemma NotCategorisedAbroad(before: Db, user: string, team: string, id: string, boardIDs: seq<string>, b: string)
    requires AllOwn(before) && Foreign(before, user, id) && b in boardIDs
    ensures !Categorised(WithRows(before, user, id, boardIDs), user, team, b)
  {
    var mid := WithRows(before, user, id, boardIDs);
    assert (user, b) in Keys(user, boardIDs);
    forall x, h | InCategory(mid, x, BoardMeta(b, h)) ensures !Live(mid, user, team, x) {
      var k: Key :| k in mid.rows && k.1 == b && mid.rows[k] == Row(x, h);
      if k.0 != user {
        assert !Foreign(before, k.0, before.rows[k].categoryID);
      }
    }
  }

  lemma ForeignAddTaken(before: Db, after: Db, user: string, team: string, id: string, boardIDs: seq<string>,
                        c: Category, taken: seq<string>)
    requires var mid := WithRows(before, user, id, boardIDs);
             NewDefault(mid, user, team, c) && after == WithRows(WithCategory(mid, c), user, c.id, taken)
    requires AllOwn(before) && Foreign(before, user, id)
    ensures AllOwn(after) <==> forall b :: b in boardIDs ==> b in taken
  {
    forall k | k in after.rows
      ensures Foreign(after, k.0, after.rows[k].categoryID) <==> k.0 == user && k.1 in boardIDs && k.1 !in taken
    {
      assert k in Keys(user, boardIDs) <==> k.0 == user && k.1 in boardIDs;
      assert k in Keys(user, taken) <==> k.0 == user && k.1 in taken;
      assert k in before.rows ==> !Foreign(before, k.0, before.rows[k].categoryID);
    }
    if b :| b in boardIDs && b !in taken {
      assert (user, b) in Keys(user, boardIDs) && (user, b) !in Keys(user, taken);
      assert (user, b) in after.rows && Foreign(after, user, after.rows[(user, b)].categoryID);
    }
  }

  /** Whether a request keeps all boards in their users' own categories: additions that name nobody
      else's category, and new categories under an ID that no other user's row names. */
  ghost predicate Minds(before: Db, q: Request) {
    match q
    case Create(c) =>
      c.id == "" || c.deleteAt != 0
      || forall k :: k in before.rows && before.rows[k].categoryID == c.id ==> k.0 == c.userID
    case Add(user, team, id, boardIDs) =>
      boardIDs == [] || !Foreign(before, user, id) || TakenAfterAll(before, user, team, boardIDs)
    case _ => true
  }

  /** Exactly the requests that mind it keep all boards in their users' own categories. */
  lemma EffectKeepsOwnIff(before: Db, after: Db, q: Request, now: int)
    requires AllOwn(before) && Effect(before, after, q, now)
    ensures AllOwn(after) <==> Minds(before, q) || (q.Create? && after == before)
  {
    match q
    case Create(c) =>
      if after != before {
        var d :| Created(before, after, c, now, d);
        CreateKeepsOwnIff(before, d);
      }
    case Update(c) =>
      var r :| Updated(before, after, c, now, r);
      UpdateKeepsOwn(before, after, c, now, r);
    case Delete(id, user, team) =>
      var mid, target, r :| DeletedCategory(before, mid, after, id, user, team, target, r);
      DeleteKeepsOwn(before, mid, after, id, user, team, target, r);
    case Get(user, team) =>
      var c, r :| Got(before, after, user, team, c, r);
      GotKeepsOwn(before, after, user, team, c, r);
    case Add(user, team, id, boardIDs) =>
      var c, got, r :| Added(before, after, user, team, id, boardIDs, c, got, r);
      if boardIDs != [] {
        AddKeepsOwnIff(before, after, user, team, id, boardIDs, c, got, r);
      }
  }

  /** In every run of requests that mind it, all boards stay in their users' own categories. */
  lemma {:induction false} TraceKeepsOwn(trace: seq<Db>, requests: seq<Request>, times: seq<int>, n: nat)
    requires Traces(trace, requests, times) && n <= |requests| && AllOwn(trace[0])
    requires forall i :: 0 <= i < n ==> Minds(trace[i], requests[i])
    ensures AllOwn(trace[n])
  {
    if n == 0 {
    } else {
      TraceKeepsOwn(trace, requests, times, n - 1);
      EffectKeepsOwnIff(trace[n - 1], trace[n], requests[n - 1], times[n - 1]);
    }
  }

  /** With all boards in their users' own categories, deleting one moves exactly the boards the user put
      there, and the user's other rows stay. */
  lemma DeleteMovesOwn(before: Db, mid: Db, after: Db, id: string, user: string, team: string, target: string,
                       r: Result<Category>, b: string)
    requires DeletedCategory(before, mid, after, id, user, team, target, r) && r.Ok? && Live(before, user, team, id)
    requires AllOwn(before) && HasOwnRow(before, user, team, b)
    ensures var k := (user, b);
            k in after.rows &&
            after.rows[k] == if before.rows[k].categoryID == id then Row(target, before.rows[k].hidden)
                                                else before.rows[k]
  {
    DeleteMovesIff(before, mid, after, id, user, team, target, r, (user, b));
    HeldByRowIff(before, user, id, b);
    if k: Key :| k in before.rows && k.0 != user && k.1 == b && before.rows[k].categoryID == id {
      assert Foreign(before, k.0, id);
    }
  }

  /** A refused addition of one user moves another user's board: `a` keeps the board in `y`; `other` adds
      it to `x`, a category of `a`, and is refused; when `a` deletes `x`, the board leaves `y`. */
  lemma RefusedAddMovesBoard(d0: Db, d1: Db, d2: Db, mid: Db, a: string, other: string, team: string, x: string,
                             y: string, b: string, c: Category, got: Result<seq<CategoryBoards>>, refused: Result<()>,
                             target: string, r: Result<Category>)
    requires a != other && Live(d0, a, team, x) && Live(d0, a, team, y) && x != y && HasDefault(d0, other, team)
    requires d0.categories[x].name != BOARDS && d0.categories[y].name != BOARDS
    requires (a, b) in d0.rows && d0.rows[(a, b)].categoryID == y
    requires Added(d0, d1, other, team, x, [b], c, got, refused)
    requires DeletedCategory(d1, mid, d2, x, a, team, target, r)
    ensures refused == Err(CategoryNotFound) && !AllOwn(d1)
    ensures r.Ok? ==>
              (a, b) in d2.rows && d2.rows[(a, b)].categoryID == target != y && Live(d2, a, team, target)
  {
    AddStoresAnyway(d0, d1, other, team, x, [b], c, got, refused);
    var foreign: Key := (other, b);
    assert b in [b] && foreign in Keys(other, [b]);
    assert d1.rows[foreign].categoryID == x && (a, b) !in Keys(other, [b]) && Foreign(d1, other, x);
    assert Live(d1, a, team, x) && Live(d1, a, team, y);
    assert ForeignRow(d1, a, x, b);
    HeldByRowIff(d1, a, x, b);
    if r.Ok? {
      DeleteMovesIff(d1, mid, d2, x, a, team, target, r, (a, b));
      TargetLiveIff(d1, mid, d2, x, a, team, target, r);
      assert SameButOrder(d1.categories[y], mid.categories[y]);
    }
  }

  function Plain(id: string, name: string, user: string, kind: CategoryType): Category {
    Category(id, name, user, "t", kind, 1, 1, 0, false, 0)
  }

  /** Two users of a team, each with a default category; the first also has two custom ones. */
  function TwoUsers(): Db {
    Db(map["x" := Plain("x", "X", "a", Custom), "y" := Plain("y", "Y", "a", Custom),
           "d" := Plain("d", BOARDS, "a", System), "e" := Plain("e", BOARDS, "o", System)],
       map[("a", "b") := Row("y", false)], map[], map[])
  }

  /** Such a store. */
  lemma TwoUsersMeetIt()
    ensures var d0 := TwoUsers();
            && Consistent(d0) && AllOwn(d0)
            && Live(d0, "a", "t", "x") && Live(d0, "a", "t", "y") && HasDefault(d0, "o", "t")
            && d0.categories["x"].name != BOARDS && d0.categories["y"].name != BOARDS
            && ("a", "b") in d0.rows && d0.rows[("a", "b")].categoryID == "y"
  {
    var d0 := TwoUsers();
    assert Live(d0, "o", "t", "e") && d0.categories["e"].name == BOARDS;
    assert "X"[0] != BOARDS[0] && "Y"[0] != BOARDS[0];
  }

  ghost predicate AdditionRefused(id: string, d1: Db, c: Category, got: Result<seq<CategoryBoards>>) {
    && Added(TwoUsers(), d1, "o", "t", id, ["b"], c, got, Err(CategoryNotFound))
    && d1.categories == TwoUsers().categories
    && d1.rows == map[("a", "b") := Row("y", false), ("o", "b") := Row(id, false)]
  }

  /** The second user's addition to a category of the first one, refused. */
  lemma OthersAddition(id: string)
    requires id == "x" || id == "y"
    ensures exists d1, c, got :: AdditionRefused(id, d1, c, got)
  {
    var d1, c := WithRows(TwoUsers(), "o", id, ["b"]), NoCategory();
    assert "b" in ["b"] && Keys("o", ["b"]) == {("o", "b")};
    assert d1.rows == map[("a", "b") := Row("y", false), ("o", "b") := Row(id, false)];
    var cbs := [CategoryBoards(d1.categories["e"], [])];
    assert Live(d1, "o", "t", "e") && d1.categories["e"].name == BOARDS;
    assert cbs[0].category.id == "e" && Listed(d1, "o", "t", cbs[0]);
    assert AdditionRefused(id, d1, c, Ok(cbs));
  }

  ghost predicate DeletedTo(db: Db, after: Db, id: string, user: string, team: string, target: string,
                            boardIDs: seq<string>, r: Result<Category>) {
    && DeletedCategory(db, db, after, id, user, team, target, r) && r.Ok?
    && after.rows == WithRows(db, user, target, boardIDs).rows
  }

  /** A deletion of a custom category, with a default category to move its boards to. */
  lemma DeletionTo(db: Db, id: string, user: string, team: string, target: string, boardIDs: seq<string>)
    requires Live(db, user, team, id) && db.categories[id].kind != System && db.categories[id].name != BOARDS
    requires Live(db, user, team, target) && db.categories[target].name == BOARDS
    requires forall b :: b in boardIDs <==> BoardIn(db, id, b)
    ensures exists after, r :: DeletedTo(db, after, id, user, team, target, boardIDs, r)
  {
    var rows := WithRows(db, user, target, boardIDs);
    var deleted := db.categories[id].(deleteAt := 1);
    var after, r := rows.(categories := db.categories[id := deleted]), Ok(deleted);
    RehomedBy(db, rows, user, id, target, boardIDs);
    assert after.(categories := db.categories) == rows;
    assert DeletedTo(db, after, id, user, team, target, boardIDs, r);
  }

  lemma HoldsOthers(d1: Db)
    requires d1.rows == map[("a", "b") := Row("y", false), ("o", "b") := Row("x", false)]
    ensures forall b :: b in ["b"] <==> BoardIn(d1, "x", b)
  {
    forall b: string ensures b in ["b"] <==> BoardIn(d1, "x", b) {
      HeldByRowIff(d1, "a", "x", b);
      assert ("o", "b") in d1.rows;
    }
  }

  /** The run itself: the addition is refused, the deletion succeeds, and the board has left `y`. */
  lemma TwoUsersRun() returns (d1: Db, d2: Db, c: Category, got: Result<seq<CategoryBoards>>, r: Result<Category>)
    ensures Added(TwoUsers(), d1, "o", "t", "x", ["b"], c, got, Err(CategoryNotFound))
    ensures DeletedCategory(d1, d1, d2, "x", "a", "t", "d", r)
    ensures r.Ok?
    ensures TwoUsers().rows[("a", "b")].categoryID == "y"
    ensures ("a", "b") in d2.rows
    ensures d2.rows[("a", "b")].categoryID == "d"
  {
    OthersAddition("x");
    d1, c, got :| AdditionRefused("x", d1, c, got);
    HoldsOthers(d1);
    TwoUsersMeetIt();
    DeletionTo(d1, "x", "a", "t", "d", ["b"]);
    d2, r :| DeletedTo(d1, d2, "x", "a", "t", "d", ["b"], r);
    assert "b" in ["b"] && ("a", "b") in Keys("a", ["b"]);
  }

  // ----- a new order for a category

  function BoardNames(boards: seq<BoardMeta>): (r: seq<string>)
    ensures |r| == |boards|
  {
    seq(|boards|, i requires 0 <= i < |boards| => boards[i].boardID)
  }

  /** The test a new order has to pass. */
  predicate OrderMatches(boards: seq<BoardMeta>, order: seq<string>) {
    |order| == |boards| && forall b :: b in order ==> b in BoardNames(boards)
  }

  /** The verdict on a new order: the first entry of the category decides. */
  ghost predicate OrderVerdict(cbs: seq<CategoryBoards>, id: string, order: seq<string>, r: Result<()>) {
    && (!HasEntry(cbs, id) ==> r == Err(CategoryNotFound))
    && forall i :: FirstEntry(cbs, id, i) ==> (r.Ok? <==> OrderMatches(cbs[i].boards, order))
  }

  ghost predicate FirstEntry(cbs: seq<CategoryBoards>, id: string, i: int) {
    0 <= i < |cbs| && cbs[i].category.id == id && forall j :: 0 <= j < i ==> cbs[j].category.id != id
  }

  lemma {:induction false} CountDistinct<T>(s: seq<T>)
    ensures |Elements(s)| <= |s|
    ensures |Elements(s)| == |s| <==> NoRepeats(s)
  {
    if s == [] {
    } else {
      var t := s[1..];
      CountDistinct(t);
      assert Elements(s) == {s[0]} + Elements(t);
      if s[0] in t {
        assert Elements(s) == Elements(t);
        var j :| 0 <= j < |t| && t[j] == s[0];
        assert s[j + 1] == s[0];
      } else {
        assert |Elements(s)| == 1 + |Elements(t)|;
        assert NoRepeats(t) ==> NoRepeats(s);
        assert NoRepeats(s) ==> NoRepeats(t) by {
          assert forall i :: 0 <= i < |t| ==> t[i] == s[i + 1];
        }
      }
    }
  }

  lemma SubsetSameSize(a: set<string>, b: set<string>)
    requires a <= b
    ensures |a| <= |b| && (|a| == |b| ==> a == b)
  {
    assert |b| == |a| + |b - a| by { assert b == a + (b - a); }
  }

  /** An accepted order is meant to leave out no board of the category.  It does not exactly when it
      names as many different boards as there are. */
  lemma AcceptedOrderCompleteIff(boards: seq<BoardMeta>, order: seq<string>)
    requires OrderMatches(boards, order)
    ensures (forall b :: b in BoardNames(boards) ==> b in order) <==>
              |Elements(order)| == |Elements(BoardNames(boards))|
  {
    SubsetSameSize(Elements(order), Elements(BoardNames(boards)));
    if forall b :: b in BoardNames(boards) ==> b in order {
      assert Elements(order) == Elements(BoardNames(boards));
    }
    if Elements(order) == Elements(BoardNames(boards)) {
      assert forall b :: b in BoardNames(boards) ==> b in Elements(order);
    }
  }

  /** So, if the category lists no board twice, exactly when it names none twice. */
  lemma DistinctOrderCompleteIff(boards: seq<BoardMeta>, order: seq<string>)
    requires NoRepeats(BoardNames(boards)) && OrderMatches(boards, order)
    ensures (forall b :: b in BoardNames(boards) ==> b in order) <==> NoRepeats(order)
  {
    CountDistinct(BoardNames(boards));
    CountDistinct(order);
    AcceptedOrderCompleteIff(boards, order);
  }

  /** An order without repeats is accepted exactly if the category lists no board twice, and the order
      names the boards it lists. */
  lemma DistinctOrderAcceptedIff(boards: seq<BoardMeta>, order: seq<string>)
    requires NoRepeats(order)
    ensures OrderMatches(boards, order) <==>
              NoRepeats(BoardNames(boards)) && Elements(order) == Elements(BoardNames(boards))
  {
    CountDistinct(BoardNames(boards));
    CountDistinct(order);
    if OrderMatches(boards, order) {
      SubsetSameSize(Elements(order), Elements(BoardNames(boards)));
    }
    if Elements(order) == Elements(BoardNames(boards)) {
      assert forall b :: b in order ==> b in Elements(BoardNames(boards));
    }
  }

  /** No two users' rows put the same board in the category. */
  ghost predicate OneRowEach(db: Db, id: string) {
    forall k: Key, l: Key :: RowIn(db, id, k) && RowIn(db, id, l) && k.1 == l.1 ==> k == l
  }

  lemma NamesAreKeys(db: Db, id: string, keys: seq<Key>, boards: seq<BoardMeta>, i: nat)
    requires ListsRows(db, id, keys, boards) && i < |keys|
    ensures BoardNames(boards)[i] == keys[i].1
    ensures RowIn(db, id, keys[i])
  {
    assert keys[i] in Elements(keys);
  }

  lemma NamesDistinct(db: Db, id: string, keys: seq<Key>, boards: seq<BoardMeta>)
    requires ListsRows(db, id, keys, boards) && OneRowEach(db, id)
    ensures NoRepeats(BoardNames(boards))
  {
    forall i, j | 0 <= i < j < |boards| ensures BoardNames(boards)[i] != BoardNames(boards)[j] {
      NamesAreKeys(db, id, keys, boards, i);
      NamesAreKeys(db, id, keys, boards, j);
      assert keys[i] != keys[j];
    }
  }

  lemma RowsDistinct(db: Db, id: string, keys: seq<Key>, boards: seq<BoardMeta>)
    requires ListsRows(db, id, keys, boards) && NoRepeats(BoardNames(boards))
    ensures OneRowEach(db, id)
  {
    forall k: Key, l: Key | RowIn(db, id, k) && RowIn(db, id, l) && k.1 == l.1 ensures k == l {
      assert k in RowsIn(db, id) && l in RowsIn(db, id) && k in keys && l in keys;
      var i :| 0 <= i < |keys| && keys[i] == k;
      var j :| 0 <= j < |keys| && keys[j] == l;
      NamesAreKeys(db, id, keys, boards, i);
      NamesAreKeys(db, id, keys, boards, j);
      assert BoardNames(boards)[i] == BoardNames(boards)[j];
    }
  }

  lemma NamesDistinctIff(db: Db, id: string, boards: seq<BoardMeta>)
    requires EntryPerRow(db, id, boards)
    ensures NoRepeats(BoardNames(boards)) <==> OneRowEach(db, id)
  {
    var keys: seq<Key> :| ListsRows(db, id, keys, boards);
    if OneRowEach(db, id) {
      NamesDistinct(db, id, keys, boards);
    } else if NoRepeats(BoardNames(boards)) {
      RowsDistinct(db, id, keys, boards);
    }
  }

  /** While all boards are in their users' own categories, no live category lists a board twice. */
  lemma OwnRowsOnce(db: Db, user: string, team: string, id: string)
    requires AllOwn(db) && Live(db, user, team, id)
    ensures OneRowEach(db, id)
  {
    forall k: Key | RowIn(db, id, k) ensures k.0 == user {
      assert !Foreign(db, k.0, db.rows[k].categoryID);
    }
  }

  /** What the verdict on an order comes to: an order that names each board of the category once is accepted
      exactly if no two users' rows put the same board there; if two do, every order without repeats is
      refused. */
  ghost predicate Judged(db: Db, id: string, order: seq<string>, r: Result<()>) {
    NoRepeats(order) ==>
      && (!OneRowEach(db, id) ==> r.Err?)
      && (NamesAll(db, id, order) ==> (r.Ok? <==> OneRowEach(db, id)))
  }

  ghost predicate NamesAll(db: Db, id: string, order: seq<string>) {
    forall b :: b in order <==> BoardIn(db, id, b)
  }

  lemma EntryJudged(db: Db, user: string, team: string, cbs: seq<CategoryBoards>, id: string, target: nat,
                    order: seq<string>, r: Result<()>)
    requires Counted(db, user, team, cbs) && FirstEntry(cbs, id, target)
    requires r.Ok? <==> OrderMatches(cbs[target].boards, order)
    ensures OrderVerdict(cbs, id, order, r)
    ensures Live(db, user, team, id) ==> Judged(db, id, order, r)
  {
    forall i | FirstEntry(cbs, id, i) ensures i == target {
    }
    if Live(db, user, team, id) {
      if NoRepeats(order) && !OneRowEach(db, id) {
        DistinctOrderRefused(db, id, cbs[target].boards, order);
      }
      if NoRepeats(order) && NamesAll(db, id, order) {
        CorrectOrderAcceptedIff(db, id, cbs[target].boards, order);
      }
    }
  }

  /** An order that names each board of a category once is accepted exactly if no two users' rows put the
      same board in it. */
  lemma CorrectOrderAcceptedIff(db: Db, id: string, boards: seq<BoardMeta>, order: seq<string>)
    requires EntryPerRow(db, id, boards) && NoRepeats(order) && NamesAll(db, id, order)
    ensures OrderMatches(boards, order) <==> OneRowEach(db, id)
  {
    NamesDistinctIff(db, id, boards);
    DistinctOrderAcceptedIff(boards, order);
    var keys: seq<Key> :| ListsRows(db, id, keys, boards);
    ListsRowsHold(db, id, keys, boards);
    forall b ensures b in Elements(order) <==> b in Elements(BoardNames(boards)) {
      if b in BoardNames(boards) {
        var i :| 0 <= i < |boards| && BoardNames(boards)[i] == b;
        assert boards[i] in boards && boards[i] == BoardMeta(b, boards[i].hidden);
      }
      if h :| BoardMeta(b, h) in boards {
        var i :| 0 <= i < |boards| && boards[i] == BoardMeta(b, h);
        assert BoardNames(boards)[i] == b;
      }
      assert HasBoard(boards, b) <==> BoardIn(db, id, b);
    }
  }

  /** Once two users' rows put a board in the category, every order without repeats is refused. */
  lemma DistinctOrderRefused(db: Db, id: string, boards: seq<BoardMeta>, order: seq<string>)
    requires EntryPerRow(db, id, boards) && NoRepeats(order) && !OneRowEach(db, id)
    ensures !OrderMatches(boards, order)
  {
    NamesDistinctIff(db, id, boards);
    DistinctOrderAcceptedIff(boards, order);
  }

  /** So a refused addition of one user makes every correct order of another user's category be refused:
      `a` keeps the board in `y`, and `other` adds it there. */
  lemma RefusedAddBlocksOrders(d0: Db, d1: Db, a: string, other: string, team: string, y: string, b: string,
                               c: Category, got: Result<seq<CategoryBoards>>, refused: Result<()>)
    requires a != other && Live(d0, a, team, y) && HasDefault(d0, other, team)
    requires (a, b) in d0.rows && d0.rows[(a, b)].categoryID == y
    requires Added(d0, d1, other, team, y, [b], c, got, refused)
    ensures refused == Err(CategoryNotFound)
    ensures Live(d1, a, team, y)
    ensures forall boards, order :: EntryPerRow(d1, y, boards) && NoRepeats(order) ==> !OrderMatches(boards, order)
  {
    AddStoresAnyway(d0, d1, other, team, y, [b], c, got, refused);
    assert b in [b] && (other, b) in Keys(other, [b]) && (a, b) !in Keys(other, [b]);
    assert RowIn(d1, y, (a, b)) && RowIn(d1, y, (other, b)) && !OneRowEach(d1, y);
    forall boards, order | EntryPerRow(d1, y, boards) && NoRepeats(order) ensures !OrderMatches(boards, order) {
      DistinctOrderRefused(d1, y, boards, order);
    }
  }

  /** An order that is accepted although it leaves a board out. */
  lemma IncompleteOrderAccepted()
    ensures var boards, order := [BoardMeta("a", false), BoardMeta("b", false)], ["a", "a"];
            OrderMatches(boards, order) && "b" in BoardNames(boards) && "b" !in order
  {
    var boards := [BoardMeta("a", false), BoardMeta("b", false)];
    assert BoardNames(boards) == ["a", "b"];
  }

  /** A category that two rows put the same board in lists it twice, and nothing else if there are no
      other rows. */
  lemma TwiceListed(db: Db, id: string, boards: seq<BoardMeta>, a: string, other: string, b: string)
    requires a != other && RowsIn(db, id) == {(a, b), (other, b)}
    requires EntryPerRow(db, id, boards)
    ensures BoardNames(boards) == [b, b]
  {
    var keys: seq<Key> :| ListsRows(db, id, keys, boards);
    CountDistinct(keys);
    NamesAreKeys(db, id, keys, boards, 0);
    NamesAreKeys(db, id, keys, boards, 1);
  }

  /** A refused addition after which the only correct order of the category is refused, and one that
      repeats the board is accepted. */
  lemma CorrectOrderRefused() returns (d1: Db, c: Category, got: Result<seq<CategoryBoards>>)
    ensures Added(TwoUsers(), d1, "o", "t", "y", ["b"], c, got, Err(CategoryNotFound))
    ensures NamesAll(d1, "y", ["b"])
    ensures forall boards :: EntryPerRow(d1, "y", boards) ==>
              !OrderMatches(boards, ["b"]) && OrderMatches(boards, ["b", "b"])
  {
    OthersAddition("y");
    d1, c, got :| AdditionRefused("y", d1, c, got);
    forall b: string ensures b in ["b"] <==> BoardIn(d1, "y", b) {
      HeldByRowIff(d1, "a", "y", b);
      assert ("a", "b") in d1.rows;
    }
    assert RowsIn(d1, "y") == {("a", "b"), ("o", "b")};
    forall boards | EntryPerRow(d1, "y", boards)
      ensures !OrderMatches(boards, ["b"])
      ensures OrderMatches(boards, ["b", "b"])
    {
      TwiceListed(d1, "y", boards, "a", "o", "b");
    }
  }
}
