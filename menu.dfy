/**
 * Menu selection: an index moved up or down among `count` options with
 * wrap-around (Python's `%`), or left alone when there are no options.
 */
module Menu {
  import opened PyOps

  /** The index after `move(direction, count)`. */
  function Moved(index: int, direction: int, count: int): (r: int)
    ensures count == 0 ==> r == index
    ensures count > 0 ==> 0 <= r < count
    ensures count < 0 ==> count < r <= 0
    ensures count > 0 && 0 <= index + direction < count ==> r == index + direction
    ensures count > 0 && index + direction == count ==> r == 0
    ensures count > 0 && index + direction == -1 ==> r == count - 1
  {
    if count != 0 then Mod(index + direction, count) else index
  }

  /** Moving back undoes a move, in both directions and across the wrap. */
  lemma MoveBack(index: int, direction: int, count: int)
    requires 0 <= index < count
    ensures Moved(Moved(index, direction, count), -direction, count) == index
  {
    var s := index + direction;
    var m := Moved(index, direction, count);
    assert m == s % count;
    assert s == (s / count) * count + m;
    assert m - direction == (-(s / count)) * count + index;
    DivModUnique(m - direction, count, -(s / count), index);
  }

  class MenuManager {
    var index: int

    constructor ()
      ensures index == 0
    {
      index := 0;
    }

    method Reset()
      modifies this
      ensures index == 0
    {
      index := 0;
    }

    method Move(direction: int, count: int)
      modifies this
      ensures index == Moved(old(index), direction, count)
    {
      if count != 0 {
        index := Mod(index + direction, count);
      }
    }
  }

  /** Three options: down to 1, up to 0, up again wraps to 2. */
  method MenuScenario()
  {
    var mgr := new MenuManager();
    mgr.Move(1, 3);
    assert mgr.index == 1;
    mgr.Move(-1, 3);
    assert mgr.index == 0;
    mgr.Move(-1, 3);
    assert mgr.index == 2;
  }
}
