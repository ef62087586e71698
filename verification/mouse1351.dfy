/**
 * The Commodore 1351 proportional mouse (C64/Mouse1351.cpp).
 *
 * The mouse keeps a current position (mouseX, mouseY) that chases a target
 * position set by the host, at most 31 units per execute() call, and a
 * control-port byte whose bits carry the two buttons. While it is connected
 * it reports the low six bits of each coordinate through the SID's two
 * potentiometer registers.
 */
module Mouse1351 {

  /** Largest distance the position moves on one axis per execute(). */
  const MaxStep: int := 31

  /** A jump larger than this makes setXY() snap the position to the target. */
  const SnapDistance: int := 255

  function Abs(x: int): nat { if x < 0 then -x else x }

  function Min(a: int, b: int): int { if a < b then a else b }

  function Max(a: int, b: int): int { if a < b then b else a }

  /** One axis of execute(): move towards the target by min(distance, 31). */
  function Approach(current: int, target: int): (r: int)
    ensures Abs(target - r) == Max(0, Abs(target - current) - MaxStep)
    ensures current <= target ==> current <= r <= target
    ensures target <= current ==> target <= r <= current
    ensures Abs(r - current) == Min(Abs(target - current), MaxStep)
  {
    if target < current then current - Min(current - target, MaxStep)
    else if target > current then current + Min(target - current, MaxStep)
    else current
  }

  /** One axis of setXY(): keep the position unless the target is more than 255 away. */
  function Snap(current: int, target: int): (r: int)
    ensures Abs(target - current) > SnapDistance <==> r == target && r != current
    ensures Abs(target - current) <= SnapDistance ==> r == current
  {
    if Abs(target - current) > SnapDistance then target else current
  }

  /** The position after n calls of Approach towards a fixed target. */
  function ApproachN(current: int, target: int, n: nat): int
    decreases n
  {
    if n == 0 then current else ApproachN(Approach(current, target), target, n - 1)
  }

  /** Number of execute() steps the chase needs: the ceiling of d / 31. */
  function StepsToReach(d: nat): (n: nat)
    ensures n * MaxStep >= d
    ensures n > 0 ==> (n - 1) * MaxStep < d
  {
    (d + MaxStep - 1) / MaxStep
  }

  /** After ceil(d/31) steps the position equals the target. */
  lemma {:induction false} ReachedAfterSteps(current: int, target: int)
    ensures ApproachN(current, target, StepsToReach(Abs(target - current))) == target
    decreases Abs(target - current)
  {
    var d := Abs(target - current);
    if d != 0 {
      var next := Approach(current, target);
      assert Abs(target - next) == d - MaxStep || Abs(target - next) == 0;
      if Abs(target - next) == 0 {
        assert next == target;
        assert StepsToReach(d) == 1;
        assert ApproachN(next, target, 0) == target;
      } else {
        assert StepsToReach(d) == StepsToReach(Abs(target - next)) + 1;
        ReachedAfterSteps(next, target);
      }
    }
  }

  /** Before ceil(d/31) steps the target has not been reached: the chase is never faster. */
  lemma {:induction false} NotReachedEarlier(current: int, target: int, n: nat)
    requires n < StepsToReach(Abs(target - current))
    ensures Abs(target - ApproachN(current, target, n)) == Abs(target - current) - n * MaxStep
    ensures ApproachN(current, target, n) != target
    decreases n
  {
    if n > 0 {
      var next := Approach(current, target);
      assert Abs(target - next) == Abs(target - current) - MaxStep;
      NotReachedEarlier(next, target, n - 1);
    }
  }

  /** Once the target is reached, further steps change nothing. */
  lemma {:induction false} ApproachNAtTarget(target: int, n: nat)
    ensures ApproachN(target, target, n) == target
    decreases n
  {
    if n > 0 { ApproachNAtTarget(target, n - 1); }
  }

  /** setLeftButton(): bit 4, active low (cleared while pressed); the other bits stay. */
  function LeftButtonPort(port: bv8, pressed: bool): (r: bv8)
    ensures (r & 0x10 == 0) <==> pressed
    ensures r & 0xEF == port & 0xEF
  {
    if pressed then port & 0xEF else port | 0x10
  }

  /** setRightButton(): bit 0, active high (set while pressed); the other bits stay. */
  function RightButtonPort(port: bv8, pressed: bool): (r: bv8)
    ensures (r & 0x01 == 0x01) <==> pressed
    ensures r & 0xFE == port & 0xFE
  {
    if pressed then port | 0x01 else port & 0xFE
  }

  /** An unsigned 8-bit SID register. */
  newtype u8 = x: int | 0 <= x < 256

  /**
   * The pot register value for one coordinate: (coord & 0x3F) << 1, computed
   * on an int64 and stored into an 8-bit register. On two's complement,
   * coord & 0x3F is the Euclidean remainder mod 64, and the shift doubles it.
   */
  function PotValue(coord: int): (r: u8)
    ensures r as int == 2 * (coord % 64)
  {
    ((coord % 64) * 2) as u8
  }

  /** The pot register holds an even value of at most 126 that carries the coordinate's low six bits. */
  lemma PotValueEncodesCoordinate(coord: int)
    ensures PotValue(coord) % 2 == 0 && PotValue(coord) <= 126
    ensures (PotValue(coord) as int / 2 - coord) % 64 == 0
  {
  }

  /** Two coordinates give the same pot value exactly when they agree modulo 64. */
  lemma PotValueDeterminesCoordinate(a: int, b: int)
    ensures PotValue(a) == PotValue(b) <==> a % 64 == b % 64
  {
  }

  /** The SID's two potentiometer registers, which the mouse writes. */
  class Sid {
    var potX: u8
    var potY: u8

    constructor ()
      ensures potX == 0 && potY == 0
    {
      potX, potY := 0, 0;
    }
  }

  class Mouse {
    var mouseX: int
    var mouseY: int
    var targetX: int
    var targetY: int
    var controlPort: bv8
    /** The control port the mouse was last connected to (0 = none). */
    var port: nat
    const sid: Sid

    /** Mouse1351(): the constructor only registers the fields as snapshot items cleared on
        reset; their zero starting values are assumed here (the header is not part of this model). */
    constructor (sid: Sid)
      ensures this.sid == sid
      ensures mouseX == 0 && mouseY == 0 && targetX == 0 && targetY == 0
      ensures controlPort == 0 && port == 0
    {
      this.sid := sid;
      mouseX, mouseY, targetX, targetY := 0, 0, 0, 0;
      controlPort := 0;
      port := 0;
    }

    /** reset(): the CLEAR_ON_RESET items go to zero, then the control port idles at 0xFF. */
    method Reset()
      modifies this
      ensures mouseX == 0 && mouseY == 0 && targetX == 0 && targetY == 0
      ensures controlPort == 0xFF
      ensures port == old(port)
    {
      mouseX, targetX, mouseY, targetY := 0, 0, 0, 0;
      controlPort := 0;
      controlPort := 0xFF;
    }

    /** connect(port): port 0 disconnects and parks both pot registers at 0xFF. */
    method Connect(newPort: nat)
      requires newPort <= 2
      modifies this, sid
      ensures port == newPort
      ensures mouseX == old(mouseX) && mouseY == old(mouseY)
      ensures targetX == old(targetX) && targetY == old(targetY)
      ensures controlPort == old(controlPort)
      ensures newPort == 0 ==> sid.potX == 0xFF && sid.potY == 0xFF
      ensures newPort != 0 ==> sid.potX == old(sid.potX) && sid.potY == old(sid.potY)
    {
      port := newPort;
      if newPort == 0 {
        sid.potX := 0xFF;
        sid.potY := 0xFF;
      }
    }

    /** setXY(x, y): set the target; snap an axis whose distance exceeds 255. */
    method SetXY(x: int, y: int)
      modifies this
      ensures targetX == x && targetY == y
      ensures mouseX == Snap(old(mouseX), x) && mouseY == Snap(old(mouseY), y)
      ensures controlPort == old(controlPort) && port == old(port)
    {
      targetX := x;
      targetY := y;
      if Abs(targetX - mouseX) > SnapDistance { mouseX := targetX; }
      if Abs(targetY - mouseY) > SnapDistance { mouseY := targetY; }
    }

    method SetLeftButton(pressed: bool)
      modifies this
      ensures controlPort == LeftButtonPort(old(controlPort), pressed)
      ensures mouseX == old(mouseX) && mouseY == old(mouseY)
      ensures targetX == old(targetX) && targetY == old(targetY) && port == old(port)
    {
      if pressed {
        controlPort := controlPort & 0xEF;
      } else {
        controlPort := controlPort | 0x10;
      }
    }

    method SetRightButton(pressed: bool)
      modifies this
      ensures controlPort == RightButtonPort(old(controlPort), pressed)
      ensures mouseX == old(mouseX) && mouseY == old(mouseY)
      ensures targetX == old(targetX) && targetY == old(targetY) && port == old(port)
    {
      if pressed {
        controlPort := controlPort | 0x01;
      } else {
        controlPort := controlPort & 0xFE;
      }
    }

    /**
     * execute(): one chase step on each axis. The pot registers are written
     * only when the machine's mouse model is the 1351 and its mouse port is
     * not 0 (both are machine settings, given here as parameters), and not at
     * all when the position already equals the target.
     */
    method Execute(modelIs1351: bool, mousePort: nat)
      modifies this, sid
      ensures mouseX == Approach(old(mouseX), old(targetX))
      ensures mouseY == Approach(old(mouseY), old(targetY))
      ensures targetX == old(targetX) && targetY == old(targetY)
      ensures controlPort == old(controlPort) && port == old(port)
      ensures var moved := old(mouseX) != old(targetX) || old(mouseY) != old(targetY);
              if moved && modelIs1351 && mousePort != 0
              then sid.potX == PotValue(mouseX) && sid.potY == PotValue(mouseY)
              else sid.potX == old(sid.potX) && sid.potY == old(sid.potY)
    {
      if mouseX == targetX && mouseY == targetY {
        return;
      }
      if targetX < mouseX {
        mouseX := mouseX - Min(mouseX - targetX, MaxStep);
      } else if targetX > mouseX {
        mouseX := mouseX + Min(targetX - mouseX, MaxStep);
      }
      if targetY < mouseY {
        mouseY := mouseY - Min(mouseY - targetY, MaxStep);
      } else if targetY > mouseY {
        mouseY := mouseY + Min(targetY - mouseY, MaxStep);
      }
      if modelIs1351 && mousePort != 0 {
        sid.potX := PotValue(mouseX);
        sid.potY := PotValue(mouseY);
      }
    }
  }
}
