/** Small value types shared by every component of the model. */
module Common {

  datatype Option<+T> = None | Some(value: T)

  /** The side of an order, a trade or a position. */
  datatype Side = Buy | Sell {
    function Opposite(): Side {
      if Buy? then Sell else Buy
    }

    function Sign(): int {
      if Buy? then 1 else -1
    }
  }

  /** A volume with a side, as a signed number. */
  function Signed(volume: real, side: Side): real {
    if side.Buy? then volume else -volume
  }

  function Abs(x: real): real {
    if x < 0.0 then -x else x
  }

  /** The side that a signed volume reads back as; zero counts as a buy. */
  function SideOf(signed: real): Side {
    if signed < 0.0 then Sell else Buy
  }

  /** The two kinds of conditional order that make up a bracket. */
  datatype Kind = Tp | Sl {
    function Other(): Kind {
      if Tp? then Sl else Tp
    }
  }

  /** One value for each kind. */
  datatype Both<T> = Both(tp: T, sl: T) {
    function Get(k: Kind): T {
      if k.Tp? then tp else sl
    }

    function Set(k: Kind, v: T): Both<T> {
      if k.Tp? then Both(v, sl) else Both(tp, v)
    }
  }

  function EraseAt<T>(s: seq<T>, i: nat): seq<T>
    requires i < |s|
  {
    s[..i] + s[i + 1..]
  }
}
