/** Lists of lists, joined. */
module Lists {

  function Concat<T>(lists: seq<seq<T>>): seq<T> {
    if lists == [] then [] else Concat(lists[..|lists| - 1]) + lists[|lists| - 1]
  }

  lemma ConcatSnoc<T>(lists: seq<seq<T>>, last: seq<T>)
    ensures Concat(lists + [last]) == Concat(lists) + last
  {
    assert (lists + [last])[..|lists|] == lists;
  }

  lemma {:induction false} ConcatCons<T>(first: seq<T>, lists: seq<seq<T>>)
    ensures Concat([first] + lists) == first + Concat(lists)
  {
    if lists == [] {
      ConcatSnoc([], first);
      assert [] + [first] == [first] + lists;
    } else {
      var init, last := lists[..|lists| - 1], lists[|lists| - 1];
      ConcatCons(first, init);
      ConcatSnoc([first] + init, last);
      ConcatSnoc(init, last);
      hide Concat;
      assert lists == init + [last];
      assert [first] + lists == [first] + init + [last];
    }
  }
}
