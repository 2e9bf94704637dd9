/** The backing array of a send window: held messages at the front, nothing behind them. */
module MessageArrays {
  import opened Words
  import opened Tables
  import opened WindowSpec

  class MessageArray {
    var buff: array<Option<Message>>
    var count: nat
    ghost var items: seq<Message>

    ghost predicate Valid()
      reads this, buff
    {
      && count == |items| <= buff.Length <= MAX_SLOTS && 1 <= buff.Length
      && (forall i | 0 <= i < count :: buff[i] == Some(items[i]))
      && (forall i | count <= i < buff.Length :: buff[i] == None)
    }

    constructor ()
      ensures Valid() && fresh(buff) && items == [] && buff.Length == 1
    {
      buff := new Option<Message>[1](_ => None);
      count, items := 0, [];
    }

    function At(i: nat): (m: Message)
      requires Valid() && i < count
      reads this, buff
      ensures m == items[i]
    {
      buff[i].value
    }

    method Append(m: Message)
      requires Valid() && count < buff.Length
      modifies this, buff
      ensures Valid() && buff == old(buff) && items == old(items) + [m]
    {
      buff[count] := Some(m);
      count, items := count + 1, items + [m];
    }

    method Put(i: nat, m: Message)
      requires Valid() && i < count
      modifies this, buff
      ensures Valid() && buff == old(buff) && items == old(items)[i := m]
    {
      buff[i] := Some(m);
      items := items[i := m];
    }

    /** Moves the held messages `k` places to the front and clears what they leave. */
    method DropFront(k: nat)
      requires Valid() && k <= count
      modifies this, buff
      ensures Valid() && buff == old(buff) && items == old(items)[k..]
    {
      var oldCount := count;
      count := oldCount - k;
      forall i | 0 <= i < count {
        buff[i] := buff[i + k];
      }
      forall i | count <= i < oldCount {
        buff[i] := None;
      }
      items := items[k..];
    }

    /** Moves the held messages to an array of `length` places. */
    method Resize(length: nat)
      requires Valid() && count <= length <= MAX_SLOTS && 1 <= length
      modifies this
      ensures Valid() && fresh(buff) && buff.Length == length && items == old(items)
    {
      var b := new Option<Message>[length](_ => None);
      forall i | 0 <= i < count {
        b[i] := buff[i];
      }
      buff := b;
    }
  }
}
