/** The waiting-time badge on a kitchen ticket (components/OrderTimer.tsx):
    whole minutes since the order was placed, refreshed every half minute,
    and a colour band that turns red and pulses from twenty minutes on.
    Instants are milliseconds; the clock is a parameter. */
module OrderTimer {

  /** `Math.floor((now - start) / 60000)`; Dafny's division by a positive
      number rounds down, as `Math.floor` does. */
  function Elapsed(start: int, now: int): int {
    (now - start) / 60000
  }

  /** The elapsed minutes are the whole minutes in the interval, rounded
      down: negative when the start lies in the future. */
  lemma ElapsedSpec(start: int, now: int)
    ensures Elapsed(start, now) * 60000 <= now - start < (Elapsed(start, now) + 1) * 60000
    ensures Elapsed(start, now) < 0 <==> now < start
  {
  }

  /** A later clock never shows fewer minutes. */
  lemma ElapsedMonotone(start: int, now: int, later: int)
    requires now <= later
    ensures Elapsed(start, now) <= Elapsed(start, later)
  {
    ElapsedSpec(start, now);
    ElapsedSpec(start, later);
  }

  /** The badge's colour band. */
  datatype Badge = Green | Yellow | Red

  /** The class names each band is drawn with. */
  function Style(b: Badge): string {
    match b
    case Green => "bg-green-100 text-green-800 border-green-200"
    case Yellow => "bg-yellow-100 text-yellow-800 border-yellow-200"
    case Red => "bg-red-100 text-red-800 border-red-200 font-bold"
  }

  /** The band for a number of minutes. */
  function Band(elapsed: int): Badge {
    if 10 <= elapsed < 20 then Yellow else if elapsed >= 20 then Red else Green
  }

  /** The bands cover every number of minutes: under 10 (a future start
      included) is green, 10 to 19 yellow, 20 and more red. */
  lemma BandSpec(elapsed: int)
    ensures Band(elapsed) == Green <==> elapsed < 10
    ensures Band(elapsed) == Yellow <==> 10 <= elapsed < 20
    ensures Band(elapsed) == Red <==> elapsed >= 20
  {
  }

  /** The styling step of the render: green and not critical to begin
      with, then overridden by the yellow or red band. */
  method Classify(elapsed: int) returns (badge: Badge, style: string, isCritical: bool)
    ensures badge == Band(elapsed) && style == Style(badge)
    ensures badge == Green <==> elapsed < 10
    ensures badge == Red <==> elapsed >= 20
    ensures isCritical <==> elapsed >= 20
  {
    badge, style, isCritical := Green, Style(Green), false;
    if elapsed >= 10 && elapsed < 20 {
      badge, style := Yellow, Style(Yellow);
    } else if elapsed >= 20 {
      badge, style := Red, Style(Red);
      isCritical := true;
    }
  }

  /** An order placed after the clock's reading (a skewed clock) shows a
      negative count in the green band. */
  lemma FutureStartGreen(start: int, now: int)
    requires now < start
    ensures Elapsed(start, now) < 0 && Band(Elapsed(start, now)) == Green
  {
    ElapsedSpec(start, now);
  }

  /** Once red, a ticket stays red as the clock moves on. */
  lemma RedStays(start: int, now: int, later: int)
    requires now <= later && Band(Elapsed(start, now)) == Red
    ensures Band(Elapsed(start, later)) == Red
  {
    ElapsedMonotone(start, now, later);
  }

  /** The component's state: the start it was given and the minutes last
      computed. */
  class Timer {
    var start: int
    var elapsed: int

    /** Mounting: the first computation. */
    constructor (startTime: int, now: int)
      ensures start == startTime && elapsed == Elapsed(startTime, now)
    {
      start, elapsed := startTime, Elapsed(startTime, now);
    }

    /** A tick of the 30-second interval. */
    method Refresh(now: int)
      modifies this
      ensures start == old(start) && elapsed == Elapsed(start, now)
    {
      elapsed := Elapsed(start, now);
    }
  }
}
