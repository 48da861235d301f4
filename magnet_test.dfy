/**
 * The electromagnet wiring test: `setup()` switches each of the four magnets
 * off, and every `loop()` pulses each magnet in turn, first on its `rpwm`
 * terminal, then off, then on its `lpwm` terminal, then off again. The delays
 * between the writes are left out; the writes are recorded as a trace of
 * `setPower` calls.
 */
module MagnetTest {
  import opened Actuation

  /** A magnet's name and its two PWM pins. */
  datatype MagnetPins = MagnetPins(name: string, rpwm: int, lpwm: int)

  const MAGNETS: seq<MagnetPins> :=
    [MagnetPins("FRONT", 19, 21), MagnetPins("BACK", 5, 18), MagnetPins("LEFT", 17, 16), MagnetPins("RIGHT", 4, 2)]

  const NUM_MAGNETS: int := 4

  /** The duty of a pulse. */
  const PULSE: int := 150

  /** One `setPower(magnet, power)` call. */
  datatype Command = Command(magnet: MagnetPins, power: int)
  {
    /** The duties the call writes to the magnet's two pins. */
    function Drive(): DrivePair
    {
      SetPowerInt(power)
    }
  }

  /** The four calls one magnet gets in a pass of `loop()`. */
  function Pulses(m: MagnetPins): seq<Command>
  {
    [Command(m, PULSE), Command(m, 0), Command(m, -PULSE), Command(m, 0)]
  }

  /** The calls a pass of `loop()` makes for the magnets `ms`, in order. */
  function PassOver(ms: seq<MagnetPins>): (trace: seq<Command>)
    ensures |trace| == 4 * |ms|
    decreases |ms|
  {
    if ms == [] then [] else PassOver(ms[..|ms| - 1]) + Pulses(ms[|ms| - 1])
  }

  /** The calls `setup()` makes for the magnets `ms`: each one, in order, set to 0. */
  function SetupCalls(ms: seq<MagnetPins>): (calls: seq<Command>)
    ensures |calls| == |ms|
  {
    seq(|ms|, i requires 0 <= i < |ms| => Command(ms[i], 0))
  }

  /** `setup()`. */
  method Setup() returns (trace: seq<Command>)
    ensures trace == SetupCalls(MAGNETS)
  {
    trace := [];
    for i := 0 to NUM_MAGNETS
      invariant |trace| == i
      invariant forall k :: 0 <= k < i ==> trace[k] == Command(MAGNETS[k], 0)
    {
      trace := trace + [Command(MAGNETS[i], 0)];
    }
  }

  /**
   * The three powers the test uses: `setPower(m, 150)` drives `rpwm` at 150,
   * `setPower(m, -150)` drives `lpwm` at 150 and `setPower(m, 0)` writes 0 to both.
   */
  lemma PulseDrives(m: MagnetPins)
    ensures Command(m, PULSE).Drive() == DrivePair(PULSE, 0)
    ensures Command(m, -PULSE).Drive() == DrivePair(0, PULSE)
    ensures Command(m, 0).Drive() == Off
  {
    SetPowerIntForward(PULSE);
    SetPowerIntReverse(PULSE);
    SetPowerZero();
  }

  /** `setup()` switches every magnet off, each exactly once, in array order. */
  lemma SetupSwitchesAllOff(ms: seq<MagnetPins>)
    ensures forall i :: 0 <= i < |ms| ==> SetupCalls(ms)[i].magnet == ms[i] && SetupCalls(ms)[i].Drive() == Off
  {
    forall i | 0 <= i < |ms|
      ensures SetupCalls(ms)[i].magnet == ms[i] && SetupCalls(ms)[i].Drive() == Off
    {
      PulseDrives(ms[i]);
    }
  }

  /** One pass of `loop()`. */
  method LoopPass() returns (trace: seq<Command>)
    ensures trace == PassOver(MAGNETS)
  {
    trace := [];
    for i := 0 to NUM_MAGNETS
      invariant trace == PassOver(MAGNETS[..i])
    {
      trace := trace + [Command(MAGNETS[i], PULSE)];
      trace := trace + [Command(MAGNETS[i], 0)];
      trace := trace + [Command(MAGNETS[i], -PULSE)];
      trace := trace + [Command(MAGNETS[i], 0)];
      assert MAGNETS[..i + 1][..i] == MAGNETS[..i];
    }
    assert MAGNETS[..NUM_MAGNETS] == MAGNETS;
  }

  /** Call `4 * i + j` of a pass is the `j`-th call for magnet `i`. */
  lemma {:induction false} PassOverIndex(ms: seq<MagnetPins>, i: nat, j: nat)
    requires i < |ms| && j < 4
    ensures PassOver(ms)[4 * i + j] == Pulses(ms[i])[j]
    decreases |ms|
  {
    var prefix := ms[..|ms| - 1];
    if i < |ms| - 1 {
      PassOverIndex(prefix, i, j);
      assert prefix[i] == ms[i];
    }
  }

  /**
   * A pass drives the magnets in array order (FRONT, BACK, LEFT, RIGHT for
   * `MAGNETS`): magnet `i` gets calls `4 i` to `4 i + 3`, +150 (on `rpwm`),
   * 0, -150 (on `lpwm`), 0; `PulseDrives` gives the duties.
   */
  lemma PassSequence(ms: seq<MagnetPins>, i: nat)
    requires i < |ms|
    ensures PassOver(ms)[4 * i] == Command(ms[i], PULSE)
    ensures PassOver(ms)[4 * i + 1] == Command(ms[i], 0)
    ensures PassOver(ms)[4 * i + 2] == Command(ms[i], -PULSE)
    ensures PassOver(ms)[4 * i + 3] == Command(ms[i], 0)
  {
    PassOverIndex(ms, i, 0);
    PassOverIndex(ms, i, 1);
    PassOverIndex(ms, i, 2);
    PassOverIndex(ms, i, 3);
  }

  /**
   * Each magnet is switched off before another one is driven, and the pass
   * ends with every magnet off, so the next pass again starts from rest.
   */
  lemma OffBeforeNextMagnet(ms: seq<MagnetPins>, k: nat)
    requires k + 1 < |PassOver(ms)|
    requires PassOver(ms)[k].magnet != PassOver(ms)[k + 1].magnet
    ensures PassOver(ms)[k].power == 0
  {
    var i, j := k / 4, k % 4;
    assert k == 4 * i + j;
    PassSequence(ms, i);
    if j < 3 {
      assert false;
    }
  }

  /** The last call of a pass switches its magnet off. */
  lemma PassEndsOff(ms: seq<MagnetPins>)
    requires ms != []
    ensures PassOver(ms)[4 * |ms| - 1] == Command(ms[|ms| - 1], 0)
  {
    PassSequence(ms, |ms| - 1);
  }
}
