/**
 * The scrolling ticker (src/components/StockTicker.tsx): the speed button's
 * cycle, one animation step of the scroll position, the arrow / sign /
 * colour of each quote's change, and the track holding the quotes twice.
 */
module StockTicker {
  import opened Market

  // ---------------------------------------------------------------- speed

  /** `changeSpeed`: 1 becomes 2, 2 becomes 0.5, anything else becomes 1. */
  function NextSpeed(speed: real): (r: real)
    ensures speed == 1.0 ==> r == 2.0
    ensures speed == 2.0 ==> r == 0.5
    ensures speed != 1.0 && speed != 2.0 ==> r == 1.0
  {
    if speed == 1.0 then 2.0
    else if speed == 2.0 then 0.5
    else 1.0
  }

  /** The speeds the button can show, starting from the initial 1. */
  predicate IsSpeed(speed: real) {
    speed == 0.5 || speed == 1.0 || speed == 2.0
  }

  /** The speed stays one of the three, and three presses come back to it. */
  lemma SpeedCycle(speed: real)
    requires IsSpeed(speed)
    ensures IsSpeed(NextSpeed(speed))
    ensures NextSpeed(NextSpeed(NextSpeed(speed))) == speed
    ensures NextSpeed(speed) != speed && NextSpeed(NextSpeed(speed)) != speed
  {
  }

  /** The speed button's label. */
  function SpeedLabel(speed: real): (r: string)
    ensures speed == 0.5 <==> r == "Slow"
    ensures speed == 1.0 <==> r == "Normal"
    ensures speed != 0.5 && speed != 1.0 <==> r == "Fast"
  {
    if speed == 0.5 then "Slow" else if speed == 1.0 then "Normal" else "Fast"
  }

  /** Pause button and speed button. */
  class Controls {
    var isPaused: bool
    var speed: real

    constructor()
      ensures !isPaused && speed == 1.0
    {
      isPaused := false;
      speed := 1.0;
    }

    method TogglePause()
      modifies this`isPaused
      ensures isPaused == !old(isPaused)
    {
      isPaused := !isPaused;
    }

    /** `changeSpeed`. */
    method ChangeSpeed()
      modifies this`speed
      ensures speed == NextSpeed(old(speed))
      ensures IsSpeed(old(speed)) ==> IsSpeed(speed)
    {
      if speed == 1.0 {
        speed := 2.0;
      } else if speed == 2.0 {
        speed := 0.5;
      } else {
        speed := 1.0;
      }
    }
  }

  // ---------------------------------------------------------------- scrolling

  /** One step of `animate`: when running, move left by `speed` and jump
      back to 0 on reaching `-scrollWidth`. */
  function StepPos(pos: real, speed: real, scrollWidth: real, isPaused: bool): (r: real)
    ensures isPaused ==> r == pos
    ensures !isPaused && pos - speed <= -scrollWidth ==> r == 0.0
    ensures !isPaused && pos - speed > -scrollWidth ==> r == pos - speed
  {
    if isPaused then pos
    else
      var p := pos - speed;
      if p <= -scrollWidth then 0.0 else p
  }

  /** The window the track is kept in. */
  predicate InWindow(pos: real, scrollWidth: real) {
    -scrollWidth < pos <= 0.0
  }

  /** With a positive speed and a positive half-width, every step keeps the
      position in `(-scrollWidth, 0]`. */
  lemma StepStaysInWindow(pos: real, speed: real, scrollWidth: real, isPaused: bool)
    requires speed > 0.0 && scrollWidth > 0.0 && InWindow(pos, scrollWidth)
    ensures InWindow(StepPos(pos, speed, scrollWidth, isPaused), scrollWidth)
  {
  }

  /** A run of `n` steps, the way the animation frames apply them. */
  function StepsPos(pos: real, speed: real, scrollWidth: real, isPaused: bool, n: nat): real {
    if n == 0 then pos else StepPos(StepsPos(pos, speed, scrollWidth, isPaused, n - 1), speed, scrollWidth, isPaused)
  }

  /** Any number of frames from the start keeps the track in the window;
      paused, nothing moves. */
  lemma {:induction false} StepsStayInWindow(speed: real, scrollWidth: real, isPaused: bool, n: nat)
    requires speed > 0.0 && scrollWidth > 0.0
    ensures InWindow(StepsPos(0.0, speed, scrollWidth, isPaused, n), scrollWidth)
    ensures isPaused ==> StepsPos(0.0, speed, scrollWidth, isPaused, n) == 0.0
  {
    if n > 0 {
      StepsStayInWindow(speed, scrollWidth, isPaused, n - 1);
      StepStaysInWindow(StepsPos(0.0, speed, scrollWidth, isPaused, n - 1), speed, scrollWidth, isPaused);
    }
  }

  /** The state of one run of the animation effect: it restarts at 0
      whenever the quotes, the pause flag or the speed change. */
  class Animation {
    var currentPos: real
    const speed: real
    const isPaused: bool
    const scrollWidth: real

    constructor(speed: real, isPaused: bool, scrollWidth: real)
      ensures currentPos == 0.0
      ensures this.speed == speed && this.isPaused == isPaused && this.scrollWidth == scrollWidth
    {
      this.speed := speed;
      this.isPaused := isPaused;
      this.scrollWidth := scrollWidth;
      currentPos := 0.0;
    }

    /** `animate()`, without the scheduling of the next frame. */
    method Animate()
      modifies this`currentPos
      ensures currentPos == StepPos(old(currentPos), speed, scrollWidth, isPaused)
      ensures speed > 0.0 && scrollWidth > 0.0 && InWindow(old(currentPos), scrollWidth) ==> InWindow(currentPos, scrollWidth)
    {
      if !isPaused {
        currentPos := currentPos - speed;
        if currentPos <= -scrollWidth {
          currentPos := 0.0;
        }
      }
    }
  }

  // ---------------------------------------------------------------- quote entries

  /** Which way a quote moved. */
  datatype Direction = Rise | Fall | Flat

  /** Arrow, sign and colour of a quote's change `close - open`. */
  datatype Badge = Badge(arrow: string, sign: string, color: string)

  function DirectionOf(item: MarketDataItem): (r: Direction)
    ensures r == Rise <==> item.close - item.open > 0.0
    ensures r == Fall <==> item.close - item.open < 0.0
    ensures r == Flat <==> item.close == item.open
  {
    var change := item.close - item.open;
    if change > 0.0 then Rise else if change < 0.0 then Fall else Flat
  }

  /** The arrow, the '+' sign and the colour class of the change. */
  function BadgeOf(item: MarketDataItem): (r: Badge)
    ensures r.arrow == "▲" <==> item.close > item.open
    ensures r.arrow == "▼" <==> item.close < item.open
    ensures r.arrow == "■" <==> item.close == item.open
    ensures r.sign == "+" <==> item.close > item.open
    ensures r.sign == "" <==> item.close <= item.open
    ensures r.color == "text-green-500" <==> item.close > item.open
    ensures r.color == "text-red-500" <==> item.close < item.open
    ensures r.color == "text-gray-400" <==> item.close == item.open
  {
    match DirectionOf(item)
    case Rise => Badge("▲", "+", "text-green-500")
    case Fall => Badge("▼", "", "text-red-500")
    case Flat => Badge("■", "", "text-gray-400")
  }

  /** One entry of the track: the symbol, the closing price and the badge. */
  datatype Entry = Entry(symbol: string, close: real, badge: Badge)

  /** `createStockElement`. */
  function EntryOf(item: MarketDataItem): Entry {
    Entry(item.symbol, item.close, BadgeOf(item))
  }

  function Entries(stocks: seq<MarketDataItem>): (r: seq<Entry>)
    ensures |r| == |stocks|
    ensures forall i :: 0 <= i < |stocks| ==> r[i] == EntryOf(stocks[i])
  {
    seq(|stocks|, i requires 0 <= i < |stocks| => EntryOf(stocks[i]))
  }

  /** The scrolling track's children. */
  class Track {
    var children: seq<Entry>

    constructor()
      ensures children == []
    {
      children := [];
    }

    /** The effect's build step: nothing happens for an empty list (the old
        content stays); otherwise the track is cleared, one entry is
        appended per quote, and then a clone of every child. */
    method Build(stocks: seq<MarketDataItem>)
      modifies this`children
      ensures stocks == [] ==> children == old(children)
      ensures stocks != [] ==> children == Entries(stocks) + Entries(stocks)
      ensures stocks != [] ==> |children| == 2 * |stocks| && children[..|stocks|] == children[|stocks|..]
    {
      if |stocks| == 0 {
        return;
      }
      children := [];
      for i := 0 to |stocks|
        invariant children == Entries(stocks[..i])
      {
        assert stocks[..i + 1] == stocks[..i] + [stocks[i]];
        children := children + [EntryOf(stocks[i])];
      }
      assert stocks[..|stocks|] == stocks;
      var originals := children;
      for i := 0 to |originals|
        invariant children == originals + originals[..i]
      {
        assert originals[..i + 1] == originals[..i] + [originals[i]];
        children := children + [originals[i]];
      }
      assert originals[..|originals|] == originals;
    }
  }
}
