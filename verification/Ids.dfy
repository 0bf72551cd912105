/** Random identifiers.  `utils.NewID` on the server and `Utils.createGuid` in the client prefix a
    random string by one character for the kind of entity.  The random draws are an input here: a
    sequence without repeats whose members, prefixed, have never been seen before. */
module Ids {

  class IdSupply {
    const draw: nat -> string
    var next: nat
    ghost var used: set<string>     // every ID seen so far

    ghost predicate Valid()
      reads this
    {
      && (forall i: nat, j: nat :: i != j ==> draw(i) != draw(j))
      && (forall i: nat, kind: char :: i >= next ==> [kind] + draw(i) !in used)
    }

    constructor (draw: nat -> string, ghost used: set<string>)
      requires forall i: nat, j: nat :: i != j ==> draw(i) != draw(j)
      requires forall i: nat, kind: char :: [kind] + draw(i) !in used
      ensures Valid() && this.used == used
    {
      this.draw := draw;
      this.next := 0;
      this.used := used;
    }

    /** A fresh ID of the given kind. */
    method NewID(kind: char) returns (id: string)
      requires Valid()
      modifies this
      ensures Valid() && id !in old(used) && used == old(used) + {id}
      ensures id != "" && id[0] == kind
    {
      id := [kind] + draw(next);
      assert id[1..] == draw(next);
      forall i: nat, k: char | i > next ensures [k] + draw(i) != id {
        assert ([k] + draw(i))[1..] == draw(i);
      }
      used := used + {id};
      next := next + 1;
    }
  }
}
