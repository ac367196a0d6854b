/** Identifier pools: fresh numbers first, then freed ones, threaded through their own slots. */
module IdPools {
  import opened Lists

  class IdPool {
    var nextId: nat
    var counter: int
    var free: int
    const slots: array<int>
    ghost var freed: seq<int>

    ghost predicate LinkAt(j: int)
      requires 0 <= j < |freed|
      reads this, slots
    {
      0 <= freed[j] < slots.Length && slots[freed[j]] == if j + 1 < |freed| then freed[j + 1] else -1
    }

    ghost predicate Valid()
      reads this, slots
    {
      && nextId <= slots.Length && counter == nextId - |freed|
      && NoDups(freed) && (forall i :: i in freed ==> 0 <= i < nextId)
      && free == (if freed == [] then -1 else freed[0])
      && forall j :: 0 <= j < |freed| ==> LinkAt(j)
    }

    /** The identifiers that are given out: with the freed ones and those never given out they make up the capacity. */
    ghost function Used(): (u: set<int>)
      reads this
    {
      set i | 0 <= i < nextId && i !in freed
    }

    constructor (cap: nat)
      ensures Valid() && fresh(slots) && slots.Length == cap && Used() == {} && nextId == 0
    {
      nextId, counter, free, freed := 0, 0, -1, [];
      slots := new int[cap];
    }

    /** id_pool_empty: no identifier is left. */
    method Empty() returns (empty: bool)
      requires Valid()
      ensures empty <==> forall i :: 0 <= i < slots.Length ==> i in Used()
    {
      empty := counter >= slots.Length;
      if !empty {
        if nextId < slots.Length {
          assert nextId !in Used();
        } else {
          assert freed[0] in freed && freed[0] !in Used();
        }
      }
    }

    /** id_pool_alloc: an identifier that is not in use, -1 when all are: the next fresh one as long as there is one,
        then the one that was freed last. */
    method Alloc() returns (id: int)
      requires Valid()
      modifies this, slots
      ensures Valid()
      ensures id == -1 <==> forall i :: 0 <= i < slots.Length ==> i in old(Used())
      ensures id == -1 ==> Used() == old(Used())
      ensures old(nextId) < slots.Length ==> id == old(nextId) == nextId - 1 && freed == old(freed)
      ensures old(nextId) >= slots.Length ==> nextId == old(nextId)
      ensures old(nextId) >= slots.Length && old(freed) != [] ==> id == old(freed)[0] && freed == old(freed)[1..]
      ensures id != -1 ==> 0 <= id < slots.Length && id !in old(Used()) && Used() == old(Used()) + {id}
    {
      if nextId >= slots.Length {
        if free == -1 {
          Heads(freed);
          return -1;
        }
        id := free;
        assert LinkAt(0) && freed[0] in freed;
        PopFacts(freed);
        counter := counter + 1;
        free := slots[free];
        freed := freed[1..];
        forall j | 0 <= j < |freed|
          ensures LinkAt(j)
        {
          assert old(LinkAt(j + 1)) && freed[j] == old(freed)[j + 1];
        }
      } else {
        id := nextId;
        assert id !in freed;
        counter := counter + 1;
        nextId := nextId + 1;
        forall j | 0 <= j < |freed|
          ensures LinkAt(j)
        {
          assert old(LinkAt(j));
        }
        assert Used() == old(Used()) + {id};
      }
      assert 0 <= id < slots.Length && id !in old(Used());
    }

    /** id_pool_free. */
    method Free(id: int)
      requires Valid() && id in Used()
      modifies this, slots
      ensures Valid() && Used() == old(Used()) - {id} && freed == [id] + old(freed) && nextId == old(nextId)
    {
      assert forall j :: 0 <= j < |freed| ==> freed[j] in freed;
      slots[id] := free;
      free := id;
      counter := counter - 1;
      freed := [id] + freed;
      forall j | 0 <= j < |freed|
        ensures LinkAt(j)
      {
        if j > 0 {
          assert old(LinkAt(j - 1));
        }
      }
    }
  }

  lemma Heads(s: seq<int>)
    ensures s != [] ==> s[0] in s
  {
  }

  lemma PopFacts(s: seq<int>)
    requires s != [] && NoDups(s)
    ensures NoDups(s[1..]) && s[0] !in s[1..]
    ensures forall i :: i in s <==> i == s[0] || i in s[1..]
  {
    assert s == [s[0]] + s[1..];
  }
}
